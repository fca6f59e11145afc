/** The elevation broker and its clients, split at lock boundaries.

    Every function below is one critical section of the broker's slot; between two of them any other
    connection, and the watchdog, may run. Tokens are drawn fresh and agents are new processes. */
module Broker {
  import opened Wrappers

  type Pid = nat
  type Token = nat
  type Agent = nat
  type ConnId = nat

  const LAPSE: real := 10.0

  datatype Grant = Grant(token: Token, pid: Pid, conn: ConnId, agent: Agent)

  datatype Denied = NotAuthorized | AgentUnavailable | AlreadyGranted | NotGranted

  datatype Lookup = Found(grant: Grant) | Missing(why: Denied)

  /** A request that reached an agent, and the credentials it was checked with. */
  datatype Relay = Relay(token: Token, pid: Pid, grant: Grant)

  /** What the broker's lock protects, with the agents ever started and stopped, the grants ever
      installed, and the requests that reached an agent. */
  datatype Shared = Shared(slot: Option<Grant>, beats: map<Token, real>, started: set<Agent>, shut: set<Agent>,
                           issued: map<Token, Grant>, relayed: seq<Relay>)

  const NOTHING: Shared := Shared(None, map[], {}, {}, map[], [])

  /** Token and process must both be those of the grant in the slot. */
  function Current(slot: Option<Grant>, token: Token, pid: Pid): Lookup {
    if slot.None? then Missing(NotGranted)
    else if slot.value.token != token || slot.value.pid != pid then Missing(NotAuthorized)
    else Found(slot.value)
  }

  /** Empties the slot, whatever it holds, and stops the agent that was in it. */
  function Ended(sh: Shared): Shared {
    match sh.slot
    case None => sh
    case Some(g) => sh.(slot := None, shut := sh.shut + {g.agent})
  }

  /** The end of a grant request: the slot is taken, unless somebody was faster. */
  function Installed(sh: Shared, g: Grant, now: real): Shared {
    if sh.slot.Some? then sh.(shut := sh.shut + {g.agent})
    else sh.(slot := Some(g), beats := sh.beats[g.token := now], issued := sh.issued[g.token := g])
  }

  function Beaten(sh: Shared, g: Grant, now: real): Shared {
    sh.(beats := sh.beats[g.token := now])
  }

  predicate Owns(slot: Option<Grant>, pid: Pid) {
    slot.Some? && slot.value.pid == pid
  }

  predicate Lapsed(sh: Shared, alive: bool, now: real) {
    sh.slot.Some? && (!alive || (sh.slot.value.token in sh.beats && now - sh.beats[sh.slot.value.token] > LAPSE))
  }

  class Broker {
    var grant: Option<Grant>
    var beats: map<Token, real>
    ghost var started: set<Agent>
    ghost var shut: set<Agent>
    ghost var issued: map<Token, Grant>
    ghost var relayed: seq<Relay>

    ghost function State(): Shared
      reads this
    {
      Shared(grant, beats, started, shut, issued, relayed)
    }

    constructor ()
      ensures State() == NOTHING
    {
      grant, beats := None, map[];
      started, shut, issued, relayed := {}, {}, map[], [];
    }

    method MayGrant() returns (free: bool)
      ensures free == State().slot.None?
    {
      free := grant.None?;
    }

    method StartAgent(agent: Agent, ready: bool) returns (ok: bool)
      modifies this`started, this`shut
      ensures ok == ready
      ensures State() == old(State()).(started := old(started) + {agent},
                                       shut := if ready then old(shut) else old(shut) + {agent})
    {
      started := started + {agent};
      if !ready {
        Shutdown(agent);
      }
      ok := ready;
    }

    method Install(g: Grant, now: real) returns (installed: bool)
      modifies this
      ensures installed == old(State()).slot.None?
      ensures State() == Installed(old(State()), g, now)
    {
      if grant.Some? {
        Shutdown(g.agent);
        return false;
      }
      grant := Some(g);
      beats := beats[g.token := now];
      issued := issued[g.token := g];
      installed := true;
    }

    method Find(token: Token, pid: Pid) returns (r: Lookup)
      ensures r == Current(State().slot, token, pid)
    {
      match grant {
        case None => r := Missing(NotGranted);
        case Some(g) => r := if g.token != token || g.pid != pid then Missing(NotAuthorized) else Found(g);
      }
    }

    method EndGrant()
      modifies this
      ensures State() == Ended(old(State()))
    {
      match grant {
        case None =>
        case Some(g) =>
          grant := None;
          Shutdown(g.agent);
      }
    }

    method Beat(g: Grant, now: real)
      modifies this`beats
      ensures State() == Beaten(old(State()), g, now)
    {
      beats := beats[g.token := now];
    }

    /** A request reaches the agent of the grant it was checked against. */
    method Deliver(token: Token, pid: Pid, g: Grant)
      modifies this`relayed
      ensures State() == old(State()).(relayed := old(relayed) + [Relay(token, pid, g)])
    {
      relayed := relayed + [Relay(token, pid, g)];
    }

    method OwnedBy(pid: Pid) returns (owned: bool)
      ensures owned == Owns(State().slot, pid)
    {
      owned := match grant case None => false case Some(g) => g.pid == pid;
    }

    method SweepCheck(alive: bool, now: real) returns (dead: bool)
      ensures dead == Lapsed(State(), alive, now)
    {
      dead := match grant
        case None => false
        case Some(g) => !alive || (g.token in beats && now - beats[g.token] > LAPSE);
    }

    method Shutdown(agent: Agent)
      modifies this`shut
      ensures shut == old(shut) + {agent}
    {
      shut := shut + {agent};
    }
  }

  // ---- one connection ------------------------------------------------------------------------------

  /** Where a connection's thread is between two critical sections. */
  datatype Pc =
    | Idle
    | Starting
    | Started(agent: Agent)
    | Revoking(judged: Grant)
    | Sending(grant: Grant)
    | Beating(grant: Grant)
    | Leaving
    | Exiting(judged: Grant)
    | Gone

  datatype Client = Client(id: ConnId, pid: Pid, token: Option<Token>, isOwner: bool, pc: Pc)

  datatype Action =
    | AskGrant
    | AgentUp(agent: Agent, ready: bool)
    | NoAgent
    | Install(drawn: Token)
    | Attach(named: Token)
    | AskRevoke
    | Revoke
    | AskRelay
    | Send
    | AskBeat
    | Beat
    | Hangup
    | CheckOwned
    | Exit

  function FoundOr(sh: Shared, c: Client, found: Grant -> Pc, otherwise: Client): Client {
    if c.token.None? then otherwise
    else
      match Current(sh.slot, c.token.value, c.pid)
      case Found(g) => c.(pc := found(g))
      case Missing(_) => otherwise
  }

  /** One critical section of a connection; anything its thread cannot do now changes nothing. */
  function Act(sh: Shared, c: Client, a: Action, now: real): (Shared, Client) {
    match (c.pc, a)
    case (Idle, AskGrant) =>
      if c.token.Some? || sh.slot.Some? then (sh, c) else (sh, c.(pc := Starting))
    case (Starting, NoAgent) => (sh, c.(pc := Idle))
    case (Starting, AgentUp(agent, ready)) =>
      if agent in sh.started then (sh, c)
      else if ready then (sh.(started := sh.started + {agent}), c.(pc := Started(agent)))
      else (sh.(started := sh.started + {agent}, shut := sh.shut + {agent}), c.(pc := Idle))
    case (Started(agent), Install(drawn)) =>
      if drawn in sh.issued then (sh, c)
      else
        var next := Installed(sh, Grant(drawn, c.pid, c.id, agent), now);
        if sh.slot.Some? then (next, c.(pc := Idle))
        else (next, c.(pc := Idle, token := Some(drawn), isOwner := true))
    case (Idle, Attach(named)) =>
      (sh, if Current(sh.slot, named, c.pid).Found? then c.(token := Some(named)) else c)
    case (Idle, AskRevoke) => (sh, FoundOr(sh, c, g => Revoking(g), c.(token := None)))
    case (Revoking(_), Revoke) => (Ended(sh), c.(pc := Idle, token := None))
    case (Idle, AskRelay) => (sh, FoundOr(sh, c, g => Sending(g), c))
    case (Sending(g), Send) =>
      (sh.(relayed := sh.relayed + [Relay(if c.token.Some? then c.token.value else 0, c.pid, g)]), c.(pc := Idle))
    case (Idle, AskBeat) => (sh, FoundOr(sh, c, g => Beating(g), c))
    case (Beating(g), Beat) => (Beaten(sh, g, now), c.(pc := Idle))
    case (Idle, Hangup) => (sh, c.(pc := if c.isOwner then Leaving else Gone))
    case (Leaving, CheckOwned) =>
      (sh, c.(pc := if Owns(sh.slot, c.pid) then Exiting(sh.slot.value) else Gone))
    case (Exiting(_), Exit) => (Ended(sh), c.(pc := Gone))
    case _ => (sh, c)
  }
}

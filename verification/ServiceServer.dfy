/** The service's per-connection loop: each message is a short script of critical sections of the broker. */
module ServiceServer {
  import opened Wrappers
  import B = Broker

  datatype Request =
    | Grant(agent: Option<B.Agent>, ready: bool, drawn: B.Token)
    | Attach(named: B.Token)
    | Revoke
    | Heartbeat
    | Input

  datatype Reply = Granted(token: B.Token) | Attached | Revoked | Denied(why: B.Denied) | Silent

  /** The critical sections a request goes through when every check passes. */
  function Script(r: Request): seq<B.Action> {
    match r
    case Grant(agent, ready, drawn) =>
      [B.AskGrant, if agent.Some? then B.AgentUp(agent.value, ready) else B.NoAgent, B.Install(drawn)]
    case Attach(named) => [B.Attach(named)]
    case Revoke => [B.AskRevoke, B.Revoke]
    case Heartbeat => [B.AskBeat, B.Beat]
    case Input => [B.AskRelay, B.Send]
  }

  const EXIT: seq<B.Action> := [B.Hangup, B.CheckOwned, B.Exit]

  function Acted(sh: B.Shared, c: B.Client, actions: seq<B.Action>, now: real): (B.Shared, B.Client)
    decreases |actions|
  {
    if actions == [] then (sh, c)
    else
      var (sh', c') := B.Act(sh, c, actions[0], now);
      Acted(sh', c', actions[1..], now)
  }

  /** What a connection with this token is told about this request. */
  function ReplyTo(sh: B.Shared, token: Option<B.Token>, pid: B.Pid, r: Request): Reply {
    match r
    case Grant(agent, ready, drawn) =>
      if token.Some? || sh.slot.Some? then Denied(B.AlreadyGranted)
      else if agent.None? || !ready then Denied(B.AgentUnavailable)
      else Granted(drawn)
    case Attach(named) =>
      (match B.Current(sh.slot, named, pid) case Found(_) => Attached case Missing(why) => Denied(why))
    case Revoke => Revoked
    case _ =>
      if token.None? then Denied(B.NotGranted)
      else (match B.Current(sh.slot, token.value, pid) case Found(_) => Silent case Missing(why) => Denied(why))
  }

  lemma ActedOne(sh: B.Shared, c: B.Client, a: B.Action, now: real)
    ensures Acted(sh, c, [a], now) == B.Act(sh, c, a, now)
  {
    assert [a][1..] == [];
  }

  lemma ActedTwo(sh: B.Shared, c: B.Client, a: B.Action, b: B.Action, now: real)
    ensures var (sh', c') := B.Act(sh, c, a, now); Acted(sh, c, [a, b], now) == B.Act(sh', c', b, now)
  {
    var (sh', c') := B.Act(sh, c, a, now);
    assert [a, b][1..] == [b];
    ActedOne(sh', c', b, now);
  }

  lemma ActedThree(sh: B.Shared, c: B.Client, a: B.Action, b: B.Action, d: B.Action, now: real)
    ensures var (sh', c') := B.Act(sh, c, a, now);
            var (sh2, c2) := B.Act(sh', c', b, now);
            Acted(sh, c, [a, b, d], now) == B.Act(sh2, c2, d, now)
  {
    var (sh', c') := B.Act(sh, c, a, now);
    assert [a, b, d][1..] == [b, d];
    ActedTwo(sh', c', b, d, now);
  }

  class Connection {
    const id: B.ConnId
    const pid: B.Pid
    var token: Option<B.Token>
    var isOwner: bool

    ghost function At(pc: B.Pc): B.Client
      reads this
    {
      B.Client(id, pid, token, isOwner, pc)
    }

    constructor (id: B.ConnId, pid: B.Pid)
      ensures At(B.Idle) == B.Client(id, pid, None, false, B.Idle)
    {
      this.id, this.pid, token, isOwner := id, pid, None, false;
    }

    /** Opens a grant; `agent` is the process that came up, if any, and `ready` whether it proved itself. */
    method RequestGrant(b: B.Broker, agent: Option<B.Agent>, ready: bool, drawn: B.Token, now: real) returns (reply: Reply)
      requires drawn !in b.State().issued && (agent.Some? ==> agent.value !in b.State().started)
      modifies this, b
      ensures (b.State(), At(B.Idle)) == Acted(old(b.State()), old(At(B.Idle)), Script(Grant(agent, ready, drawn)), now)
      ensures reply == ReplyTo(old(b.State()), old(token), pid, Grant(agent, ready, drawn))
    {
      ActedThree(b.State(), At(B.Idle), B.AskGrant,
                 if agent.Some? then B.AgentUp(agent.value, ready) else B.NoAgent, B.Install(drawn), now);
      if token.Some? {
        return Denied(B.AlreadyGranted);
      }
      var free := b.MayGrant();
      if !free {
        return Denied(B.AlreadyGranted);
      }
      if agent.None? {
        return Denied(B.AgentUnavailable);
      }
      var ok := b.StartAgent(agent.value, ready);
      if !ok {
        return Denied(B.AgentUnavailable);
      }
      var installed := b.Install(B.Grant.Grant(drawn, pid, id, agent.value), now);
      token, isOwner := Some(drawn), true;
      reply := Granted(drawn);
    }

    method AttachTo(b: B.Broker, named: B.Token, now: real) returns (reply: Reply)
      modifies this
      ensures (b.State(), At(B.Idle)) == Acted(old(b.State()), old(At(B.Idle)), Script(Attach(named)), now)
      ensures reply == ReplyTo(old(b.State()), old(token), pid, Attach(named))
    {
      ActedOne(b.State(), At(B.Idle), B.Attach(named), now);
      var r := b.Find(named, pid);
      match r {
        case Found(_) =>
          token := Some(named);
          reply := Attached;
        case Missing(why) =>
          reply := Denied(why);
      }
    }

    method RequestRevoke(b: B.Broker, now: real) returns (reply: Reply)
      modifies this, b
      ensures (b.State(), At(B.Idle)) == Acted(old(b.State()), old(At(B.Idle)), Script(Revoke), now)
      ensures reply == Revoked
    {
      ActedTwo(b.State(), At(B.Idle), B.AskRevoke, B.Revoke, now);
      if token.Some? {
        var r := b.Find(token.value, pid);
        if r.Found? {
          b.EndGrant();
        }
      }
      token := None;
      reply := Revoked;
    }

    method SendHeartbeat(b: B.Broker, now: real) returns (reply: Reply)
      modifies b
      ensures (b.State(), At(B.Idle)) == Acted(old(b.State()), old(At(B.Idle)), Script(Heartbeat), now)
      ensures reply == ReplyTo(old(b.State()), token, pid, Heartbeat)
    {
      ActedTwo(b.State(), At(B.Idle), B.AskBeat, B.Beat, now);
      if token.None? {
        return Denied(B.NotGranted);
      }
      var r := b.Find(token.value, pid);
      match r {
        case Found(g) =>
          b.Beat(g, now);
          reply := Silent;
        case Missing(why) =>
          reply := Denied(why);
      }
    }

    method RelayInput(b: B.Broker, now: real) returns (reply: Reply)
      modifies b
      ensures (b.State(), At(B.Idle)) == Acted(old(b.State()), old(At(B.Idle)), Script(Input), now)
      ensures reply == ReplyTo(old(b.State()), token, pid, Input)
    {
      ActedTwo(b.State(), At(B.Idle), B.AskRelay, B.Send, now);
      if token.None? {
        return Denied(B.NotGranted);
      }
      var r := b.Find(token.value, pid);
      match r {
        case Found(g) =>
          b.Deliver(token.value, pid, g);
          reply := Silent;
        case Missing(why) =>
          reply := Denied(why);
      }
    }

    /** The end of the loop: a connection that ever owned a grant takes its process's grant with it. */
    method Close(b: B.Broker, now: real)
      modifies b
      ensures (b.State(), At(B.Gone)) == Acted(old(b.State()), old(At(B.Idle)), EXIT, now)
      ensures isOwner ==> !B.Owns(b.State().slot, pid)
    {
      ActedThree(b.State(), At(B.Idle), B.Hangup, B.CheckOwned, B.Exit, now);
      if isOwner {
        var owned := b.OwnedBy(pid);
        if owned {
          b.EndGrant();
        }
      }
    }
  }
}

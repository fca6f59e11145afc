/** Who holds a token and who gets a grant: over every interleaving of the critical sections, and for a request that
    runs through without another one in between. */
module GrantTokens {
  import opened Wrappers
  import opened Broker
  import opened Elevation
  import S = ServiceServer

  // ---- tokens --------------------------------------------------------------------------------------

  /** Whatever token it carries was issued to its own process, and if it counts as an owner, so was a grant to it. */
  predicate HonestlyHeld(sh: Shared, c: Client) {
    && (c.token.Some? ==> c.token.value in sh.issued && sh.issued[c.token.value].pid == c.pid)
    && (c.isOwner ==> exists t :: t in sh.issued && sh.issued[t].conn == c.id && sh.issued[t].pid == c.pid)
  }

  predicate SlotIssued(sh: Shared) {
    sh.slot.Some? ==> sh.slot.value.token in sh.issued && sh.issued[sh.slot.value.token] == sh.slot.value
  }

  ghost predicate AllHonest(w: World) {
    SlotIssued(w.sh) && forall id :: id in w.clients ==> w.clients[id].id == id && HonestlyHeld(w.sh, w.clients[id])
  }

  /** Tokens once issued stay what they are. */
  predicate IssuesMore(sh: Shared, next: Shared) {
    forall t :: t in sh.issued ==> t in next.issued && next.issued[t] == sh.issued[t]
  }

  lemma ActIssuesMore(sh: Shared, c: Client, a: Action, now: real)
    requires SlotIssued(sh)
    ensures IssuesMore(sh, Act(sh, c, a, now).0) && SlotIssued(Act(sh, c, a, now).0)
  {
  }

  lemma OthersStayHonest(sh: Shared, next: Shared, c: Client)
    requires HonestlyHeld(sh, c) && IssuesMore(sh, next)
    ensures HonestlyHeld(next, c)
  {
    if c.isOwner {
      var t :| t in sh.issued && sh.issued[t].conn == c.id && sh.issued[t].pid == c.pid;
      assert t in next.issued && next.issued[t].conn == c.id;
    }
  }

  lemma ActHonest(sh: Shared, c: Client, a: Action, now: real)
    requires SlotIssued(sh) && HonestlyHeld(sh, c)
    ensures var (sh', c') := Act(sh, c, a, now); HonestlyHeld(sh', c') && c'.id == c.id
  {
    var (sh', c') := Act(sh, c, a, now);
    ActIssuesMore(sh, c, a, now);
    OthersStayHonest(sh, sh', c);
    if c.pc.Started? && a.Install? && a.drawn !in sh.issued && sh.slot.None? {
      assert a.drawn in sh'.issued && sh'.issued[a.drawn].conn == c.id;
    }
  }

  /** In every interleaving a connection carries only tokens that were issued to its process, and counts as an owner
      only after a grant of its own was installed. */
  lemma {:induction false} EveryTokenIsHonest(steps: seq<Step>)
    ensures AllHonest(Run(START, steps))
  {
    if steps != [] {
      var w, s := Run(START, steps[..|steps| - 1]), steps[|steps| - 1];
      EveryTokenIsHonest(steps[..|steps| - 1]);
      if s.Do? && s.id in w.clients {
        var c := w.clients[s.id];
        ActIssuesMore(w.sh, c, s.action, w.now);
        ActHonest(w.sh, c, s.action, w.now);
        forall id | id in w.clients && id != s.id ensures HonestlyHeld(Next(w, s).sh, w.clients[id]) {
          OthersStayHonest(w.sh, Next(w, s).sh, w.clients[id]);
        }
      }
    }
  }

  // ---- the token a connection carries --------------------------------------------------------------

  predicate Acts(w: World, s: Step, id: ConnId) {
    s.Do? && s.id == id && id in w.clients
  }

  /** It joins: names the token of the installed grant of its own process. */
  predicate Joins(w: World, s: Step, id: ConnId) {
    Acts(w, s, id) && w.clients[id].pc.Idle? && s.action.Attach?
    && w.sh.slot.Some? && w.sh.slot.value.token == s.action.named && w.sh.slot.value.pid == w.clients[id].pid
  }

  /** It carries the token of the installed grant of its own process. */
  predicate IsHolder(w: World, id: ConnId) {
    id in w.clients && w.sh.slot.Some?
    && w.clients[id].token == Some(w.sh.slot.value.token) && w.clients[id].pid == w.sh.slot.value.pid
  }

  /** It revokes: as a holder with the end of the grant, otherwise at once. */
  predicate Drops(w: World, s: Step, id: ConnId) {
    Acts(w, s, id)
    && ((w.clients[id].pc.Revoking? && s.action.Revoke?)
        || (w.clients[id].pc.Idle? && s.action.AskRevoke? && !IsHolder(w, id)))
  }

  function Carried(steps: seq<Step>, id: ConnId): Option<Token> {
    if steps == [] then None
    else
      var front, s := steps[..|steps| - 1], steps[|steps| - 1];
      var w := Run(START, front);
      if Installs(w, s) && s.id == id then Some(s.action.drawn)
      else if Joins(w, s, id) then Some(s.action.named)
      else if Drops(w, s, id) then None
      else Carried(front, id)
  }

  lemma StepCarries(w: World, s: Step, id: ConnId, was: Option<Token>)
    requires if id in w.clients then w.clients[id].token == was else was == None
    ensures var now := if Installs(w, s) && s.id == id then Some(s.action.drawn)
                       else if Joins(w, s, id) then Some(s.action.named)
                       else if Drops(w, s, id) then None
                       else was;
            if id in Next(w, s).clients then Next(w, s).clients[id].token == now else now == None
  {
  }

  /** In every interleaving a connection carries the token of the last grant it installed or joined, unless it has
      revoked since. */
  lemma {:induction false} TokensAreTheRuns(steps: seq<Step>, id: ConnId)
    ensures var clients := Run(START, steps).clients;
            Carried(steps, id) == if id in clients then clients[id].token else None
  {
    if steps != [] {
      TokensAreTheRuns(steps[..|steps| - 1], id);
      StepCarries(Run(START, steps[..|steps| - 1]), steps[|steps| - 1], id, Carried(steps[..|steps| - 1], id));
    }
  }

  // ---- the slot ------------------------------------------------------------------------------------

  /** Its connection or the watchdog ends whatever is installed. */
  predicate Empties(w: World, s: Step) {
    || (s.Sweep? && w.judged.Some?)
    || (&& s.Do? && s.id in w.clients
        && ((w.clients[s.id].pc.Revoking? && s.action.Revoke?) || (w.clients[s.id].pc.Exiting? && s.action.Exit?)))
  }

  /** The last grant installed, until somebody empties the slot. */
  function Standing(steps: seq<Step>): Option<Grant> {
    if steps == [] then None
    else
      var front, s := steps[..|steps| - 1], steps[|steps| - 1];
      var w := Run(START, front);
      if Installs(w, s) then Some(Grant(s.action.drawn, w.clients[s.id].pid, s.id, w.clients[s.id].pc.agent))
      else if Empties(w, s) then None
      else Standing(front)
  }

  lemma StepStands(w: World, s: Step)
    requires forall id :: id in w.clients ==> w.clients[id].id == id
    ensures Next(w, s).sh.slot
            == if Installs(w, s) then Some(Grant(s.action.drawn, w.clients[s.id].pid, s.id, w.clients[s.id].pc.agent))
               else if Empties(w, s) then None
               else w.sh.slot
  {
  }

  lemma {:induction false} SlotIsTheRuns(steps: seq<Step>)
    ensures Run(START, steps).sh.slot == Standing(steps)
  {
    if steps != [] {
      SlotIsTheRuns(steps[..|steps| - 1]);
      EveryInterleavingIsSafe(steps[..|steps| - 1]);
      StepStands(Run(START, steps[..|steps| - 1]), steps[|steps| - 1]);
    }
  }

  // ---- agents --------------------------------------------------------------------------------------

  /** It failed its handshake, came too late for the slot, or was in the slot when that was emptied. */
  predicate Stops(w: World, s: Step, a: Agent) {
    || (&& s.Do? && s.id in w.clients
        && (|| (w.clients[s.id].pc.Starting? && s.action == AgentUp(a, false) && a !in w.sh.started)
            || (&& w.clients[s.id].pc == Started(a) && s.action.Install? && s.action.drawn !in w.sh.issued
                && w.sh.slot.Some?)))
    || (Empties(w, s) && w.sh.slot.Some? && w.sh.slot.value.agent == a)
  }

  lemma ActStops(w: World, s: Step, a: Agent)
    requires s.Do? && s.id in w.clients
    ensures a in Act(w.sh, w.clients[s.id], s.action, w.now).0.shut <==> a in w.sh.shut || Stops(w, s, a)
  {
  }

  /** A step stops an agent in these three cases and in no other. */
  lemma StoppedExactlyWhen(w: World, s: Step, a: Agent)
    ensures a in Next(w, s).sh.shut <==> a in w.sh.shut || Stops(w, s, a)
  {
    if s.Do? && s.id in w.clients {
      ActStops(w, s, a);
    }
  }

  // ---- whole requests ------------------------------------------------------------------------------

  /** A grant request that no other section comes between is granted if and only if the connection carries no token,
      nothing is installed, and an agent came up and proved itself; then the grant is installed and the connection
      owns it. Otherwise it carries what it carried, what is installed stays, and an agent that came up is stopped;
      with a token or an installed grant none is even started. */
  lemma GrantedExactlyWhen(sh: Shared, c: Client, agent: Option<Agent>, ready: bool, drawn: Token, now: real)
    requires c.pc == Idle && drawn !in sh.issued && (agent.Some? ==> agent.value !in sh.started)
    ensures var request := S.Grant(agent, ready, drawn);
            var (sh', c') := S.Acted(sh, c, S.Script(request), now);
            var reply := S.ReplyTo(sh, c.token, c.pid, request);
            && c'.pc == Idle
            && (reply == S.Granted(drawn) <==> c.token == None && sh.slot == None && agent.Some? && ready)
            && (reply == S.Granted(drawn) ==>
                  && c' == c.(token := Some(drawn), isOwner := true)
                  && sh'.slot == Some(Grant(drawn, c.pid, c.id, agent.value)) && sh'.shut == sh.shut)
            && (c.token.Some? || sh.slot.Some? ==> sh' == sh)
            && (reply != S.Granted(drawn) ==>
                  && c' == c && sh'.slot == sh.slot && sh'.issued == sh.issued
                  && sh'.started - sh.started <= sh'.shut
                  && reply == S.Denied(if c.token.Some? || sh.slot.Some? then AlreadyGranted else AgentUnavailable))
  {
    S.ActedThree(sh, c, AskGrant, if agent.Some? then AgentUp(agent.value, ready) else NoAgent, Install(drawn), now);
  }

  /** Input and heartbeats get through if and only if the connection carries the token of the installed grant of its
      process; what does not get through changes nothing, and the reply says why. */
  lemma GetsThroughExactlyWhen(sh: Shared, c: Client, now: real)
    requires c.pc == Idle
    ensures var holder := sh.slot.Some? && c.token == Some(sh.slot.value.token) && c.pid == sh.slot.value.pid;
            var reply := S.ReplyTo(sh, c.token, c.pid, S.Input);
            && reply == S.ReplyTo(sh, c.token, c.pid, S.Heartbeat)
            && (reply == S.Silent <==> holder)
            && (!holder ==> reply == S.Denied(if c.token == None || sh.slot == None then NotGranted else NotAuthorized))
            && S.Acted(sh, c, S.Script(S.Input), now)
               == (if holder then sh.(relayed := sh.relayed + [Relay(c.token.value, c.pid, sh.slot.value)]) else sh, c)
            && S.Acted(sh, c, S.Script(S.Heartbeat), now)
               == (if holder then sh.(beats := sh.beats[c.token.value := now]) else sh, c)
  {
    S.ActedTwo(sh, c, AskRelay, Send, now);
    S.ActedTwo(sh, c, AskBeat, Beat, now);
  }

  /** Joining succeeds if and only if the token named is that of the installed grant of the same process, and a revoke
      ends the grant exactly for such a connection, which afterwards carries no token in any case. */
  lemma JoinAndRevokeExactlyWhen(sh: Shared, c: Client, named: Token, now: real)
    requires c.pc == Idle
    ensures var ours := sh.slot.Some? && named == sh.slot.value.token && c.pid == sh.slot.value.pid;
            && S.Acted(sh, c, S.Script(S.Attach(named)), now) == (sh, if ours then c.(token := Some(named)) else c)
            && S.ReplyTo(sh, c.token, c.pid, S.Attach(named))
               == (if ours then S.Attached else S.Denied(if sh.slot.Some? then NotAuthorized else NotGranted))
    ensures var holder := sh.slot.Some? && c.token == Some(sh.slot.value.token) && c.pid == sh.slot.value.pid;
            && S.ReplyTo(sh, c.token, c.pid, S.Revoke) == S.Revoked
            && S.Acted(sh, c, S.Script(S.Revoke), now)
               == (if holder then sh.(slot := None, shut := sh.shut + {sh.slot.value.agent}) else sh, c.(token := None))
  {
    S.ActedOne(sh, c, Attach(named), now);
    S.ActedTwo(sh, c, AskRevoke, Revoke, now);
  }

  /** A connection that ends takes the installed grant with it if and only if it owned one once and that grant is its
      process's; in any case it is gone. */
  lemma ExitTakesTheGrantExactlyWhen(sh: Shared, c: Client, now: real)
    requires c.pc == Idle
    ensures S.Acted(sh, c, S.EXIT, now)
            == (if c.isOwner && sh.slot.Some? && sh.slot.value.pid == c.pid
                then sh.(slot := None, shut := sh.shut + {sh.slot.value.agent}) else sh, c.(pc := Gone))
  {
    S.ActedThree(sh, c, Hangup, CheckOwned, Exit, now);
  }
}

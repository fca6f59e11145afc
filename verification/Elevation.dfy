/** All interleavings of the elevation service: any number of connections, the watchdog, and time. */
module Elevation {
  import opened Wrappers
  import opened Broker

  /** `judged` is the grant the watchdog found dead and is about to end. */
  datatype World = World(sh: Shared, clients: map<ConnId, Client>, judged: Option<Grant>, now: real)

  datatype Step = Open(id: ConnId, pid: Pid) | Do(id: ConnId, action: Action) | Judge(alive: bool) | Sweep | Pass(d: real)

  const START: World := World(NOTHING, map[], None, 0.0)

  function Next(w: World, s: Step): World {
    match s
    case Open(id, pid) =>
      if id in w.clients then w else w.(clients := w.clients[id := Client(id, pid, None, false, Idle)])
    case Do(id, a) =>
      if id !in w.clients then w
      else
        var (sh, c) := Act(w.sh, w.clients[id], a, w.now);
        w.(sh := sh, clients := w.clients[id := c])
    case Judge(alive) => if w.judged.None? && Lapsed(w.sh, alive, w.now) then w.(judged := w.sh.slot) else w
    case Sweep => if w.judged.Some? then w.(sh := Ended(w.sh), judged := None) else w
    case Pass(d) => if d > 0.0 then w.(now := w.now + d) else w
  }

  function Run(w: World, steps: seq<Step>): World {
    if steps == [] then w else Next(Run(w, steps[..|steps| - 1]), steps[|steps| - 1])
  }

  // ---- what every interleaving keeps ---------------------------------------------------------------

  /** The agent in the slot. */
  predicate InSlot(sh: Shared, a: Agent) {
    sh.slot.Some? && sh.slot.value.agent == a
  }

  /** A request in flight, or about to end a grant, carries the credentials it was checked with. */
  predicate Checked(sh: Shared, c: Client, g: Grant) {
    c.token == Some(g.token) && c.pid == g.pid && g.token in sh.issued && sh.issued[g.token] == g
  }

  predicate ClientSane(sh: Shared, c: Client) {
    match c.pc
    case Started(a) => a in sh.started && a !in sh.shut && !InSlot(sh, a)
    case Revoking(g) => Checked(sh, c, g)
    case Sending(g) => Checked(sh, c, g)
    case Beating(g) => Checked(sh, c, g)
    case Leaving => c.isOwner
    case Exiting(g) => c.isOwner && g.pid == c.pid
    case _ => true
  }

  predicate SlotSane(sh: Shared, clients: map<ConnId, Client>) {
    sh.slot.Some? ==>
      var g := sh.slot.value;
      && g.token in sh.issued && sh.issued[g.token] == g && g.token in sh.beats
      && g.agent in sh.started && g.agent !in sh.shut
      && g.conn in clients && clients[g.conn].pid == g.pid
      && clients[g.conn].isOwner && clients[g.conn].pc != Gone
  }

  predicate Holds(clients: map<ConnId, Client>, id: ConnId, a: Agent) {
    id in clients && clients[id].pc == Started(a)
  }

  /** Two requests in flight never hold the same agent. */
  predicate Apart(clients: map<ConnId, Client>) {
    forall i, k :: i in clients && k in clients && i != k && clients[i].pc.Started? ==> clients[k].pc != clients[i].pc
  }

  /** No agent is lost: it is stopped, in the slot, or held by a grant request still in flight. */
  predicate Accounted(sh: Shared, clients: map<ConnId, Client>) {
    forall a :: a in sh.started ==> Placed(sh, clients, a)
  }

  predicate Placed(sh: Shared, clients: map<ConnId, Client>, a: Agent) {
    a in sh.shut || InSlot(sh, a) || exists id :: id in clients && Holds(clients, id, a)
  }

  predicate RelaySane(sh: Shared, r: Relay) {
    r.grant.token == r.token && r.grant.pid == r.pid && r.token in sh.issued && sh.issued[r.token] == r.grant
  }

  ghost predicate Safe(w: World) {
    && (forall id :: id in w.clients ==> w.clients[id].id == id && ClientSane(w.sh, w.clients[id]))
    && SlotSane(w.sh, w.clients)
    && Apart(w.clients)
    && Accounted(w.sh, w.clients)
    && (forall i :: 0 <= i < |w.sh.relayed| ==> RelaySane(w.sh, w.sh.relayed[i]))
    && w.sh.shut <= w.sh.started
  }

  /** What an action of one connection may do to the agents and tokens of the others. */
  lemma ActSparesOthers(sh: Shared, c: Client, a: Action, now: real, d: Client)
    requires ClientSane(sh, c) && ClientSane(sh, d) && (c.pc.Started? ==> c.pc != d.pc)
    ensures ClientSane(Act(sh, c, a, now).0, d)
  {
  }

  lemma ActKeepsOwn(sh: Shared, c: Client, a: Action, now: real)
    requires ClientSane(sh, c) && (sh.slot.Some? ==> sh.slot.value.token in sh.issued)
    requires sh.slot.Some? ==> sh.issued[sh.slot.value.token] == sh.slot.value
    requires sh.shut <= sh.started && (sh.slot.Some? ==> sh.slot.value.agent in sh.started)
    ensures var (sh', c') := Act(sh, c, a, now); ClientSane(sh', c') && c'.id == c.id
  {
  }

  lemma ActKeepsClients(w: World, id: ConnId, a: Action)
    requires Safe(w) && id in w.clients
    ensures var t := Next(w, Do(id, a));
            forall k :: k in t.clients ==> t.clients[k].id == k && ClientSane(t.sh, t.clients[k])
  {
    var c := w.clients[id];
    ActKeepsOwn(w.sh, c, a, w.now);
    forall k | k in w.clients && k != id ensures ClientSane(Act(w.sh, c, a, w.now).0, w.clients[k]) {
      ActSparesOthers(w.sh, c, a, w.now, w.clients[k]);
    }
  }

  lemma ActKeepsSlot(w: World, id: ConnId, a: Action)
    requires Safe(w) && id in w.clients
    ensures var t := Next(w, Do(id, a)); SlotSane(t.sh, t.clients) && t.sh.shut <= t.sh.started
  {
    ActOnSlot(w.sh, w.clients[id], a, w.now);
  }

  /** An action leaves the slot alone, empties it, or puts the acting client's own grant in it; the owner of the
      grant in the slot never goes away. */
  lemma ActOnSlot(sh: Shared, c: Client, a: Action, now: real)
    requires ClientSane(sh, c)
    ensures var (sh', c') := Act(sh, c, a, now);
            && (sh'.slot == sh.slot || sh'.slot.None?
                || (&& sh'.slot.value.conn == c.id && sh'.slot.value.pid == c.pid && c'.isOwner && c'.pc == Idle
                    && sh'.slot.value.token in sh'.issued && sh'.issued[sh'.slot.value.token] == sh'.slot.value
                    && sh'.slot.value.token in sh'.beats
                    && sh'.slot.value.agent in sh'.started && sh'.slot.value.agent !in sh'.shut))
            && (sh'.slot == sh.slot && sh.slot.Some? && c.isOwner && sh.slot.value.pid == c.pid && c.pc != Gone ==> c'.pc != Gone)
  {
  }

  /** A connection only ever comes to hold a newly started agent. */
  lemma HeldIsNew(sh: Shared, c: Client, a: Action, now: real)
    ensures var (sh', c') := Act(sh, c, a, now);
            c'.pc.Started? && c'.pc != c.pc ==> c'.pc.agent !in sh.started
  {
  }

  lemma ActKeepsApart(w: World, id: ConnId, a: Action)
    requires Safe(w) && id in w.clients
    ensures Apart(Next(w, Do(id, a)).clients)
  {
    var c := w.clients[id];
    var c' := Act(w.sh, c, a, w.now).1;
    HeldIsNew(w.sh, c, a, w.now);
    assert Next(w, Do(id, a)).clients == w.clients[id := c'];
    forall k | k in w.clients && k != id && c'.pc.Started? ensures w.clients[k].pc != c'.pc {
      assert ClientSane(w.sh, w.clients[k]);
    }
  }

  /** A connection lets go of an agent only into the slot or by stopping it. */
  lemma ActPlacesAgent(sh: Shared, c: Client, a: Action, now: real, agent: Agent)
    requires agent in Act(sh, c, a, now).0.started && (c.pc.Started? ==> c.pc.agent in sh.started)
    requires agent in sh.started ==> agent in sh.shut || InSlot(sh, agent) || c.pc == Started(agent)
    ensures var (sh', c') := Act(sh, c, a, now);
            agent in sh'.shut || InSlot(sh', agent) || c'.pc == Started(agent)
  {
  }

  lemma ActKeepsAccounts(w: World, id: ConnId, a: Action)
    requires Safe(w) && id in w.clients
    ensures var t := Next(w, Do(id, a)); Accounted(t.sh, t.clients)
  {
    var t, c := Next(w, Do(id, a)), w.clients[id];
    forall agent | agent in t.sh.started ensures Placed(t.sh, t.clients, agent) {
      if k :| k in w.clients && k != id && Holds(w.clients, k, agent) {
        assert Holds(t.clients, k, agent);
      } else {
        assert agent in w.sh.started ==> Placed(w.sh, w.clients, agent);
        ActPlacesAgent(w.sh, c, a, w.now, agent);
        if t.clients[id].pc == Started(agent) {
          assert Holds(t.clients, id, agent);
        }
      }
    }
  }

  lemma ActKeepsRelays(w: World, id: ConnId, a: Action)
    requires Safe(w) && id in w.clients
    ensures var t := Next(w, Do(id, a)); forall i :: 0 <= i < |t.sh.relayed| ==> RelaySane(t.sh, t.sh.relayed[i])
  {
  }

  lemma EndKeepsSafe(w: World, judged: Option<Grant>)
    requires Safe(w)
    ensures Safe(w.(sh := Ended(w.sh), judged := judged))
  {
    var t := w.(sh := Ended(w.sh), judged := judged);
    forall agent | agent in t.sh.started ensures Placed(t.sh, t.clients, agent) {
      assert Placed(w.sh, w.clients, agent);
    }
  }

  lemma OpenKeepsSafe(w: World, id: ConnId, pid: Pid)
    requires Safe(w)
    ensures Safe(Next(w, Open(id, pid)))
  {
    var t := Next(w, Open(id, pid));
    forall agent | agent in t.sh.started ensures Placed(t.sh, t.clients, agent) {
      assert Placed(w.sh, w.clients, agent);
      if k :| k in w.clients && Holds(w.clients, k, agent) {
        assert Holds(t.clients, k, agent);
      }
    }
  }

  lemma StepKeepsSafe(w: World, s: Step)
    requires Safe(w)
    ensures Safe(Next(w, s))
  {
    match s
    case Open(id, pid) => OpenKeepsSafe(w, id, pid);
    case Do(id, a) =>
      if id in w.clients {
        ActKeepsClients(w, id, a);
        ActKeepsSlot(w, id, a);
        ActKeepsApart(w, id, a);
        ActKeepsAccounts(w, id, a);
        ActKeepsRelays(w, id, a);
      }
    case Sweep => EndKeepsSafe(w, None);
    case Judge(_) =>
    case Pass(_) =>
  }

  /** In every interleaving of connections, the watchdog and time: the one grant there can be belongs to a
      connection that is still there; every agent ever started is stopped, in the slot, or held by exactly
      one grant request in flight; and every request that reached an agent carried the token and the process
      its grant was opened with. */
  lemma {:induction false} EveryInterleavingIsSafe(steps: seq<Step>)
    ensures Safe(Run(START, steps))
  {
    if steps != [] {
      EveryInterleavingIsSafe(steps[..|steps| - 1]);
      StepKeepsSafe(Run(START, steps[..|steps| - 1]), steps[|steps| - 1]);
    }
  }

  // ---- agents --------------------------------------------------------------------------------------

  /** The three places of an agent exclude each other. */
  lemma OnePlaceEach(w: World, a: Agent)
    requires Safe(w) && a in w.sh.started
    ensures Placed(w.sh, w.clients, a)
    ensures InSlot(w.sh, a) ==> a !in w.sh.shut
    ensures forall id :: id in w.clients && Holds(w.clients, id, a) ==> a !in w.sh.shut && !InSlot(w.sh, a)
    ensures forall i, k :: i in w.clients && k in w.clients && Holds(w.clients, i, a) && Holds(w.clients, k, a) ==> i == k
  {
    forall id | id in w.clients && Holds(w.clients, id, a) ensures a !in w.sh.shut && !InSlot(w.sh, a) {
      assert ClientSane(w.sh, w.clients[id]);
    }
  }

  // ---- the owner's exit ----------------------------------------------------------------------------

  /** Right after the last act of a connection that ever owned a grant, no grant of its process is installed. */
  lemma ExitLeavesNothing(w: World, id: ConnId, a: Action)
    requires Safe(w) && id in w.clients && w.clients[id].isOwner && w.clients[id].pc != Gone
    ensures var t := Next(w, Do(id, a));
            t.clients[id].pc == Gone ==> !Owns(t.sh.slot, w.clients[id].pid)
  {
  }

  // ---- ending --------------------------------------------------------------------------------------

  /** The step empties the slot. */
  predicate Ends(w: World, s: Step) {
    match s
    case Sweep => w.judged.Some?
    case Do(id, a) =>
      id in w.clients && ((w.clients[id].pc.Revoking? && a == Revoke) || (w.clients[id].pc.Exiting? && a == Exit))
    case _ => false
  }

  predicate EndsWithin(w: World, steps: seq<Step>) {
    steps != [] &&
    (EndsWithin(w, steps[..|steps| - 1]) || Ends(Run(w, steps[..|steps| - 1]), steps[|steps| - 1]))
  }

  /** The grant was installed once and is not any more. */
  predicate Dead(sh: Shared, g: Grant) {
    g.token in sh.issued && sh.issued[g.token] == g && sh.slot != Some(g)
  }

  lemma StepChangesSlot(w: World, s: Step, g: Grant)
    requires Safe(w) && w.sh.slot == Some(g)
    ensures Next(w, s).sh.slot == if Ends(w, s) then None else Some(g)
    ensures g.token in Next(w, s).sh.issued && Next(w, s).sh.issued[g.token] == g
  {
  }

  lemma DeadStaysDead(w: World, s: Step, g: Grant)
    requires Safe(w) && Dead(w.sh, g)
    ensures Dead(Next(w, s).sh, g)
  {
  }

  lemma {:induction false} SafeOn(w: World, steps: seq<Step>)
    requires Safe(w)
    ensures Safe(Run(w, steps))
  {
    if steps != [] {
      SafeOn(w, steps[..|steps| - 1]);
      StepKeepsSafe(Run(w, steps[..|steps| - 1]), steps[|steps| - 1]);
    }
  }

  /** Whoever decided to end the installed grant, by revocation, exit or lapse, and then waited through any
      steps of the others, still finds that grant exactly when nobody else emptied the slot meanwhile. */
  lemma {:induction false} JudgedGrantStandsExactlyWhen(w: World, steps: seq<Step>, g: Grant)
    requires Safe(w) && w.sh.slot == Some(g)
    ensures Run(w, steps).sh.slot == Some(g) <==> !EndsWithin(w, steps)
    ensures EndsWithin(w, steps) ==> Dead(Run(w, steps).sh, g)
  {
    if steps != [] {
      var front, s := steps[..|steps| - 1], steps[|steps| - 1];
      JudgedGrantStandsExactlyWhen(w, front, g);
      SafeOn(w, front);
      if EndsWithin(w, front) {
        DeadStaysDead(Run(w, front), s, g);
      } else {
        StepChangesSlot(Run(w, front), s, g);
      }
    }
  }

  /** A grant that ended never comes back: its token is refused for ever, whoever names it. */
  lemma {:induction false} DeadForever(w: World, steps: seq<Step>, g: Grant, pid: Pid)
    requires Safe(w) && Dead(w.sh, g)
    ensures Dead(Run(w, steps).sh, g)
    ensures Current(Run(w, steps).sh.slot, g.token, pid).Missing?
  {
    if steps != [] {
      DeadForever(w, steps[..|steps| - 1], g, pid);
      SafeOn(w, steps[..|steps| - 1]);
      DeadStaysDead(Run(w, steps[..|steps| - 1]), steps[|steps| - 1], g);
    }
    SafeOn(w, steps);
  }

  // ---- the watchdog --------------------------------------------------------------------------------

  lemma {:induction false} JudgmentWaits(w: World, steps: seq<Step>)
    requires w.judged.Some? && !EndsWithin(w, steps)
    ensures Run(w, steps).judged == w.judged
  {
    if steps != [] {
      JudgmentWaits(w, steps[..|steps| - 1]);
    }
  }

  lemma RunSnoc(w: World, steps: seq<Step>, s: Step)
    ensures Run(w, steps + [s]) == Next(Run(w, steps), s)
  {
    assert (steps + [s])[..|steps|] == steps;
  }

  /** A sweep that finds the grant without a heartbeat for more than 10 s, or its agent dead, removes it,
      whatever runs between its look and its act. */
  lemma LapsedGrantIsRemoved(w: World, g: Grant, alive: bool, meanwhile: seq<Step>)
    requires Safe(w) && w.sh.slot == Some(g) && w.judged.None?
    requires !alive || w.now - w.sh.beats[g.token] > LAPSE
    ensures Dead(Run(Next(w, Judge(alive)), meanwhile + [Sweep]).sh, g)
  {
    var v := Next(w, Judge(alive));
    assert v.judged == Some(g);
    StepKeepsSafe(w, Judge(alive));
    RunSnoc(v, meanwhile, Sweep);
    JudgedGrantStandsExactlyWhen(v, meanwhile, g);
    SafeOn(v, meanwhile);
    if EndsWithin(v, meanwhile) {
      DeadStaysDead(Run(v, meanwhile), Sweep, g);
    } else {
      JudgmentWaits(v, meanwhile);
      StepChangesSlot(Run(v, meanwhile), Sweep, g);
    }
  }

  // ---- the gap between check and end ---------------------------------------------------------------

  /** The step puts a grant into the empty slot. */
  predicate Installs(w: World, s: Step) {
    s.Do? && s.id in w.clients && w.clients[s.id].pc.Started? && s.action.Install?
    && s.action.drawn !in w.sh.issued && w.sh.slot.None?
  }

  /** Somewhere among the steps a grant is installed, and nothing empties the slot after that. */
  predicate TakenOver(w: World, steps: seq<Step>) {
    steps != [] &&
    var v, s := Run(w, steps[..|steps| - 1]), steps[|steps| - 1];
    Installs(v, s) || (TakenOver(w, steps[..|steps| - 1]) && !Ends(v, s))
  }

  lemma SlotAfterStep(w: World, s: Step)
    ensures Next(w, s).sh.slot.Some? <==> Installs(w, s) || (w.sh.slot.Some? && !Ends(w, s))
    ensures w.sh.shut <= Next(w, s).sh.shut
    ensures Ends(w, s) && w.sh.slot.Some? ==> w.sh.slot.value.agent in Next(w, s).sh.shut
  {
  }

  /** What the slot holds tells whether it was taken over. */
  lemma {:induction false} SlotTakenOver(w: World, steps: seq<Step>, g: Grant)
    requires Safe(w) && w.sh.slot == Some(g)
    ensures var sh := Run(w, steps).sh;
            && (TakenOver(w, steps) <==> sh.slot.Some? && sh.slot != Some(g))
            && (sh.slot != Some(g) ==> g.agent in sh.shut)
  {
    if steps != [] {
      var front, s := steps[..|steps| - 1], steps[|steps| - 1];
      SlotTakenOver(w, front, g);
      SlotAfterStep(Run(w, front), s);
      JudgedGrantStandsExactlyWhen(w, front, g);
      JudgedGrantStandsExactlyWhen(w, steps, g);
    }
  }

  /** A connection about to act on its revocation waits for its turn. */
  lemma {:induction false} RevokingWaits(w: World, id: ConnId, steps: seq<Step>)
    requires id in w.clients && w.clients[id].pc.Revoking?
    requires forall i :: 0 <= i < |steps| ==> steps[i] != Do(id, Revoke)
    ensures id in Run(w, steps).clients && Run(w, steps).clients[id] == w.clients[id]
  {
    if steps != [] {
      RevokingWaits(w, id, steps[..|steps| - 1]);
    }
  }

  /** The step stops an agent other than this one. */
  predicate StopsOther(w: World, s: Step, agent: Agent) {
    exists a :: a in Next(w, s).sh.shut && a !in w.sh.shut && a != agent
  }

  lemma RevokeStopsSlot(w: World, id: ConnId, agent: Agent)
    requires Safe(w) && id in w.clients && w.clients[id].pc.Revoking?
    ensures StopsOther(w, Do(id, Revoke), agent) <==> w.sh.slot.Some? && w.sh.slot.value.agent != agent
  {
    if w.sh.slot.Some? && w.sh.slot.value.agent != agent {
      assert w.sh.slot.value.agent in Next(w, Do(id, Revoke)).sh.shut;
    }
  }

  /** A connection's check has found its grant `g`, and then the others run. Its revocation stops the agent of
      another grant, one it was never checked against, exactly when the slot has been emptied meanwhile, a grant
      has been installed in it, and nothing has emptied it since. */
  lemma RevokeStopsAnotherExactlyWhen(w: World, id: ConnId, g: Grant, steps: seq<Step>)
    requires Safe(w) && w.sh.slot == Some(g) && id in w.clients && w.clients[id].pc == Revoking(g)
    requires forall i :: 0 <= i < |steps| ==> steps[i] != Do(id, Revoke)
    ensures StopsOther(Run(w, steps), Do(id, Revoke), g.agent) <==> TakenOver(w, steps)
  {
    var v := Run(w, steps);
    SafeOn(w, steps);
    RevokingWaits(w, id, steps);
    RevokeStopsSlot(v, id, g.agent);
    SlotTakenOver(w, steps, g);
  }

  /** Process 10 opens a grant and asks to revoke it; its check passes. */
  const ASKED: seq<Step> := [Open(1, 10), Do(1, AskGrant), Do(1, AgentUp(0, true)), Do(1, Install(100)), Do(1, AskRevoke)]

  /** Before it acts, the watchdog ends that grant and process 20 opens another. */
  const REPLACED: seq<Step> := [Judge(false), Sweep, Open(2, 20), Do(2, AskGrant), Do(2, AgentUp(1, true)), Do(2, Install(200))]

  lemma AskedWorld()
    ensures var g := Grant(100, 10, 1, 0);
            Run(START, ASKED)
            == World(Shared(Some(g), map[100 := 0.0], {0}, {}, map[100 := g], []),
                     map[1 := Client(1, 10, Some(100), true, Revoking(g))], None, 0.0)
  {
    var w1 := Next(START, ASKED[0]);
    var w2 := Next(w1, ASKED[1]);
    var w3 := Next(w2, ASKED[2]);
    var w4 := Next(w3, ASKED[3]);
    var g := Grant(100, 10, 1, 0);
    assert w2 == World(NOTHING, map[1 := Client(1, 10, None, false, Starting)], None, 0.0);
    assert w3.clients == map[1 := Client(1, 10, None, false, Started(0))] && w3.sh.started == {0};
    assert w4.clients == map[1 := Client(1, 10, Some(100), true, Idle)] && w4.sh.slot == Some(g);
    assert ASKED[..4] == [ASKED[0], ASKED[1], ASKED[2], ASKED[3]];
    RunOfFour(START, ASKED[0], ASKED[1], ASKED[2], ASKED[3]);
  }

  lemma RunOfTwo(w: World, a: Step, b: Step)
    ensures Run(w, [a, b]) == Next(Next(w, a), b)
  {
    RunSnoc(w, [], a);
    assert [] + [a] == [a];
    RunSnoc(w, [a], b);
    assert [a] + [b] == [a, b];
  }

  lemma RunOfFour(w: World, a: Step, b: Step, c: Step, d: Step)
    ensures Run(w, [a, b, c, d]) == Next(Next(Next(Next(w, a), b), c), d)
  {
    RunOfTwo(w, a, b);
    RunSnoc(w, [a, b], c);
    assert [a, b] + [c] == [a, b, c];
    RunSnoc(w, [a, b, c], d);
    assert [a, b, c] + [d] == [a, b, c, d];
  }

  lemma HalfReplaced(w0: World, g: Grant)
    requires w0 == World(Shared(Some(g), map[100 := 0.0], {0}, {}, map[100 := g], []),
                         map[1 := Client(1, 10, Some(100), true, Revoking(g))], None, 0.0)
    requires g.agent == 0
    ensures Run(w0, REPLACED[..4])
            == World(Shared(None, map[100 := 0.0], {0}, {0}, map[100 := g], []),
                     w0.clients[2 := Client(2, 20, None, false, Starting)], None, 0.0)
  {
    RunOfFour(w0, Judge(false), Sweep, Open(2, 20), Do(2, AskGrant));
    assert REPLACED[..4] == [Judge(false), Sweep, Open(2, 20), Do(2, AskGrant)];
  }

  lemma ReplacedWorld(w0: World, g: Grant)
    requires w0 == World(Shared(Some(g), map[100 := 0.0], {0}, {}, map[100 := g], []),
                         map[1 := Client(1, 10, Some(100), true, Revoking(g))], None, 0.0)
    requires g.agent == 0
    ensures var w := Run(w0, REPLACED);
            && w.sh.slot == Some(Grant(200, 20, 2, 1))
            && 1 in w.clients && w.clients[1] == Client(1, 10, Some(100), true, Revoking(g))
  {
    HalfReplaced(w0, g);
    var w3 := Run(w0, REPLACED[..4]);
    var w4 := Next(w3, Do(2, AgentUp(1, true)));
    assert w4.clients == w0.clients[2 := Client(2, 20, None, false, Started(1))] && w4.sh.slot == None;
    RunSnoc(w0, REPLACED[..4], Do(2, AgentUp(1, true)));
    RunSnoc(w0, REPLACED[..5], Do(2, Install(200)));
    assert REPLACED[..5] == REPLACED[..4] + [Do(2, AgentUp(1, true))];
    assert REPLACED == REPLACED[..5] + [Do(2, Install(200))];
  }

  /** A revocation can end a grant of another process, whose token it never named: its check and its act are
      two critical sections. */
  lemma RevokeCanEndAnother()
    ensures var w := Run(Run(START, ASKED), REPLACED);
            && w.sh.slot == Some(Grant(200, 20, 2, 1))
            && 1 in w.clients && w.clients[1].pid == 10 && w.clients[1].token == Some(100)
            && Next(w, Do(1, Revoke)).sh.slot == None && StopsOther(w, Do(1, Revoke), 0)
  {
    AskedWorld();
    ReplacedWorld(Run(START, ASKED), Grant(100, 10, 1, 0));
    var w := Run(Run(START, ASKED), REPLACED);
    EveryInterleavingIsSafe(ASKED);
    SafeOn(Run(START, ASKED), REPLACED);
    RevokeStopsSlot(w, 1, 0);
  }
}

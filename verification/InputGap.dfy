/** Exactly when taking the slot is safe. */
module InputGap {
  import opened Wrappers
  import opened InputEvents
  import opened InputStale
  import opened InputPipeline
  import opened InputMeaning

  /** The move the host says is in force is the last one it took. */
  predicate HostSane(p: Permissions, h: Host) {
    h.meaning.at.Some? ==> p.mouse && h.meaning.at.value.num == h.lastMove
  }

  lemma {:induction false} TakeAllSane(p: Permissions, h: Host, items: seq<Inbound>)
    requires HostSane(p, h)
    ensures HostSane(p, TakeAll(p, h, items))
  {
    if items != [] {
      TakeAllSane(p, h, items[..|items| - 1]);
    }
  }

  lemma StepKeepsHostSane(p: Permissions, s: Pipe, step: Step)
    requires HostSane(p, s.host)
    ensures HostSane(p, Next(p, s, step).host)
  {
    if step.WakeUp? && s.taken + step.count <= |s.sealed| {
      var batch := Inputs(s.sealed[s.taken..s.taken + step.count]);
      TakeAllSane(p, s.host, Coalesced(AllOnWire(batch)));
    }
  }

  lemma {:induction false} RunKeepsHostSane(p: Permissions, s: Pipe, steps: seq<Step>)
    requires HostSane(p, s.host)
    ensures HostSane(p, Run(p, s, steps).host)
  {
    if steps != [] {
      RunKeepsHostSane(p, s, steps[..|steps| - 1]);
      StepKeepsHostSane(p, Run(p, s, steps[..|steps| - 1]), steps[|steps| - 1]);
    }
  }

  lemma {:induction false} RunCons(p: Permissions, s: Pipe, step: Step, rest: seq<Step>)
    ensures Run(p, s, [step] + rest) == Run(p, Next(p, s, step), rest)
    ensures Guard(p, s, step) && Guarded(p, Next(p, s, step), rest) ==> Guarded(p, s, [step] + rest)
  {
    var all := [step] + rest;
    if rest == [] {
      assert all[..|all| - 1] == [];
      assert Guarded(p, s, []);
    } else {
      assert all[..|all| - 1] == [step] + rest[..|rest| - 1];
      RunCons(p, s, step, rest[..|rest| - 1]);
    }
  }

  /** What the host would end with if everything pending reached it one by one in its present order. */
  function Outcome(p: Permissions, s: Pipe): Host
    requires s.taken <= |s.sealed|
  {
    TakeAll(p, s.host, AllOnWire(Pending(s)))
  }

  /** The writer's or host's next move when everything is passed on as eagerly as possible. */
  function EagerStep(s: Pipe): Step {
    if s.taken < |s.sealed| then WakeUp(1)
    else if s.deque != [] then SealFront
    else if s.channel != [] then DrainOne
    else TakeSlot
  }

  function Distance(s: Pipe): nat
    requires s.taken <= |s.sealed|
  {
    |s.sealed| - s.taken + 2 * |s.deque| + 3 * |s.channel| + 3 * |OptSeq(s.slot)|
  }

  lemma EagerWakeUp(p: Permissions, s: Pipe)
    requires s.taken < |s.sealed|
    ensures Outcome(p, Next(p, s, WakeUp(1))) == Outcome(p, s)
  {
    var t := Next(p, s, WakeUp(1));
    var item := s.sealed[s.taken];
    var batch := Inputs([item]);
    assert s.sealed[s.taken..s.taken + 1] == [item];
    PendingWakeUp(s, t, 1);
    CoalescedOne(item);
    assert t.host == TakeAll(p, s.host, AllOnWire(batch));
    OnWireConcat(batch, Pending(t));
    TakeAllConcat(p, s.host, AllOnWire(batch), AllOnWire(Pending(t)));
  }

  /** A batch of one has nothing to merge. */
  lemma CoalescedOne(item: Item)
    ensures Coalesced(AllOnWire(Inputs([item]))) == AllOnWire(Inputs([item]))
  {
    assert |Inputs([item])| <= 1;
  }

  lemma EagerStepKeepsOutcome(p: Permissions, s: Pipe)
    requires s.taken <= |s.sealed| && s.held.None? && !Drained(s)
    ensures var t := Next(p, s, EagerStep(s));
            && t.taken <= |t.sealed| && t.held.None? && t.sent == s.sent && Guard(p, s, EagerStep(s))
            && Outcome(p, t) == Outcome(p, s)
            && Distance(t) < Distance(s)
  {
    var t := Next(p, s, EagerStep(s));
    if s.taken < |s.sealed| {
      EagerWakeUp(p, s);
    } else if s.deque != [] {
      PendingSealFront(p, s);
    } else if s.channel != [] {
      PendingDrainOne(p, s);
      assert Pending(t) == Pending(s);
    } else {
      assert Inputs([Input(s.slot.value)]) == [s.slot.value];
      assert Pending(t) == Pending(s);
    }
  }

  /** From any moment at which no sender is inside the lock, the queues can be emptied by steps that respect
      the guard and hand the host exactly the pending order. */
  lemma {:induction false} EagerDrain(p: Permissions, s: Pipe) returns (steps: seq<Step>)
    requires s.taken <= |s.sealed| && s.held.None?
    ensures Guarded(p, s, steps) && Drained(Run(p, s, steps))
    ensures Run(p, s, steps).sent == s.sent && Run(p, s, steps).host == Outcome(p, s)
    decreases Distance(s)
  {
    if Drained(s) {
      steps := [];
      assert s.sealed[s.taken..] == [];
      assert Pending(s) == [];
    } else {
      EagerStepKeepsOutcome(p, s);
      var rest := EagerDrain(p, Next(p, s, EagerStep(s)));
      RunCons(p, s, EagerStep(s), rest);
      steps := [EagerStep(s)] + rest;
    }
  }

  // ---- the move in force ---------------------------------------------------------------------------

  lemma DistinctInWindow(a: nat, b: nat)
    requires a < b < a + HALF_WINDOW
    ensures Wrap(a) != Wrap(b)
  {
    SeqBeforeIsOrder(a, b);
    SeqBeforeIsOrder(b, a);
  }

  /** Before the newest move is taken, some other move is in force, or none. */
  lemma OlderInForce(p: Permissions, h: Host, lo: nat, items: seq<Stamped>, m: Stamped)
    requires HostSane(p, h) && h.lastMove == Wrap(lo) && Near(lo, items) && Newest(lo, items, m)
    ensures TakeAll(p, h, AllOnWire(items)).meaning.at != Some(OnWire(m))
  {
    TakeAllSane(p, h, AllOnWire(items));
    LastMoveIsTop(p, h, lo, items);
    TopIsNewest(lo, items);
    DistinctInWindow(Top(lo, items), m.n);
  }

  lemma NewestMembers(lo: nat, items: seq<Stamped>, m: Stamped, some: seq<Stamped>)
    requires Near(lo, items) && Newest(lo, items, m) && forall x :: x in some ==> x in items
    ensures Near(lo, some) && Newest(lo, some, m)
  {
  }

  // ---- a permitted event is overtaken --------------------------------------------------------------

  /** The last permitted event of the list. */
  lemma {:induction false} LastPermitted(p: Permissions, c: seq<Stamped>) returns (k: nat)
    requires !Harmless(p, c)
    ensures k < |c| && !c[k].ev.MouseMove? && Allowed(p, c[k].ev) && Harmless(p, c[k + 1..])
  {
    k := |c| - 1;
    if c[k].ev.MouseMove? || !Allowed(p, c[k].ev) {
      var front := c[..k];
      assert c == front + [c[k]];
      k := LastPermitted(p, front);
      assert c[k + 1..] == front[k + 1..] + [c[|c| - 1]];
    }
  }

  /** The log ends with `e` and what was in force before it, whatever harmless events follow. */
  lemma LogEndsWith(p: Permissions, h: Host, a: seq<Stamped>, e: Stamped, b: seq<Stamped>)
    requires !e.ev.MouseMove? && Allowed(p, e.ev) && Harmless(p, b)
    ensures var log := TakeAll(p, h, AllOnWire(a + [e] + b)).meaning.log;
            log != [] && log[|log| - 1] == Applied(OnWire(e), TakeAll(p, h, AllOnWire(a)).meaning.at)
  {
    TakeSnoc(p, h, a, e);
    TakeCat(p, h, a + [e], b);
    HarmlessLog(p, TakeAll(p, h, AllOnWire(a + [e])), b);
  }

  /** Behind the newest move, it stays in force. */
  lemma StaysInForce(p: Permissions, h: Host, lo: nat, pre: seq<Stamped>, m: Stamped, tail: seq<Stamped>)
    requires p.mouse && h.lastMove == Wrap(lo) && Near(lo, pre + tail) && Newest(lo, pre + tail, m)
    ensures TakeAll(p, h, AllOnWire(pre + [m] + tail)).meaning.at == Some(OnWire(m))
  {
    NewestMembers(lo, pre + tail, m, pre);
    NewestMembers(lo, pre + tail, m, tail);
    NewestInForce(p, h, lo, pre, m);
    TakeCat(p, h, pre + [m], tail);
    StaleTail(p, TakeAll(p, h, AllOnWire(pre + [m])), m.n, tail);
  }

  /** Two orders of the same events: with the move last, some permitted event is applied at another move. */
  lemma OvertakingChangesMeaning(
    p: Permissions, h: Host, lo: nat, pre: seq<Stamped>, c: seq<Stamped>, m: Stamped)
    requires p.mouse && HostSane(p, h) && h.lastMove == Wrap(lo)
    requires Near(lo, pre + c) && Newest(lo, pre + c, m) && !Harmless(p, c)
    ensures TakeAll(p, h, AllOnWire(pre + [m] + c)).meaning != TakeAll(p, h, AllOnWire(pre + c + [m])).meaning
  {
    var k := LastPermitted(p, c);
    var e, before, after := c[k], c[..k], c[k + 1..];
    assert forall x :: x in pre + before ==> x in pre + c;
    NewestMembers(lo, pre + c, m, pre + before);
    StaysInForce(p, h, lo, pre, m, before);
    OlderInForce(p, h, lo, pre + before, m);
    assert Harmless(p, after + [m]);
    LogEndsWith(p, h, pre + before, e, after + [m]);
    LogEndsWith(p, h, pre + [m] + before, e, after);
    AroundEvent(pre, c, k, m);
  }

  lemma AroundEvent<T>(pre: seq<T>, c: seq<T>, k: nat, m: T)
    requires k < |c|
    ensures pre + c[..k] + [c[k]] + (c[k + 1..] + [m]) == pre + c + [m]
    ensures pre + [m] + c[..k] + [c[k]] + c[k + 1..] == pre + [m] + c
  {
  }

  // ---- the newest move is overwritten --------------------------------------------------------------

  lemma {:induction false} CoalescedCat(a: seq<Inbound>, b: seq<Inbound>, tail: seq<Inbound>)
    requires Coalesced(a) == Coalesced(b)
    ensures Coalesced(a + tail) == Coalesced(b + tail)
  {
    if tail == [] {
      assert a + tail == a && b + tail == b;
    } else {
      var k := |tail| - 1;
      assert (a + tail)[..|a| + k] == a + tail[..k] && (b + tail)[..|b| + k] == b + tail[..k];
      CoalescedCat(a, b, tail[..k]);
    }
  }

  /** In one batch, a move directly in front of another one is as good as absent. */
  lemma CoalescedSkips(a: seq<Stamped>, w: Stamped, x: Stamped, b: seq<Stamped>)
    requires w.ev.MouseMove? && x.ev.MouseMove?
    ensures Coalesced(AllOnWire(a + [w, x] + b)) == Coalesced(AllOnWire(a + [x] + b))
  {
    var long, short := AllOnWire(a + [w, x]), AllOnWire(a + [x]);
    assert long[..|a| + 1] == AllOnWire(a + [w]) && AllOnWire(a + [w])[..|a|] == AllOnWire(a) == short[..|a|];
    CoalescedCat(long, short, AllOnWire(b));
    OnWireConcat(a + [w, x], b);
    OnWireConcat(a + [x], b);
  }

  lemma CoalescedPush(front: seq<Stamped>, q: seq<Item>, it: Item, rest: seq<Stamped>)
    ensures Coalesced(AllOnWire(front + Inputs(Merge(IsMoveItem, q, it)) + rest))
            == Coalesced(AllOnWire(front + Inputs(q) + Inputs([it]) + rest))
  {
    InputsOfMerge(q, it);
    if Inputs(Merge(IsMoveItem, q, it)) == Inputs(q) + Inputs([it]) {
      Regrouped(front, Inputs(q), Inputs([it]), rest);
    } else {
      var k := |Inputs(q)| - 1;
      assert Inputs([it]) == [it.event];
      SplitLast(front, Inputs(q), it.event, rest);
      CoalescedSkips(front + Inputs(q)[..k], Inputs(q)[k], it.event, rest);
    }
  }

  function SealStep(s: Pipe): Step {
    if s.deque != [] then SealFront else DrainOne
  }

  lemma SealStepMoves(p: Permissions, s: Pipe)
    requires s.taken <= |s.sealed| && s.held.None? && s.slot.None? && (s.deque != [] || s.channel != [])
    ensures var t := Next(p, s, SealStep(s));
            && t.held.None? && t.slot.None? && t.taken == s.taken <= |t.sealed| && t.host == s.host && t.sent == s.sent
            && |t.deque| + 2 * |t.channel| < |s.deque| + 2 * |s.channel|
  {
  }

  lemma CoalescedPushed(front: seq<Stamped>, q: seq<Item>, it: Item, rest: seq<Stamped>, before: seq<Stamped>,
                        after: seq<Stamped>)
    requires before == front + Inputs(q) + Inputs([it]) + rest
    requires after == front + Inputs(Merge(IsMoveItem, q, it)) + rest
    ensures Coalesced(AllOnWire(after)) == Coalesced(AllOnWire(before))
  {
    CoalescedPush(front, q, it, rest);
  }

  lemma DrainOneCoalesces(p: Permissions, s: Pipe)
    requires s.taken <= |s.sealed| && s.channel != []
    ensures Coalesced(AllOnWire(Pending(Next(p, s, DrainOne)))) == Coalesced(AllOnWire(Pending(s)))
  {
    PendingDrainOne(p, s);
    CoalescedPushed(Inputs(s.sealed[s.taken..]), s.deque, s.channel[0],
                    Inputs(s.channel[1..]) + OptSeq(s.held) + OptSeq(s.slot), Pending(s), Pending(Next(p, s, DrainOne)));
  }

  lemma SealStepKeeps(p: Permissions, s: Pipe)
    requires s.taken <= |s.sealed| && s.held.None? && s.slot.None? && (s.deque != [] || s.channel != [])
    ensures var t := Next(p, s, SealStep(s));
            t.taken <= |t.sealed| && Coalesced(AllOnWire(Pending(t))) == Coalesced(AllOnWire(Pending(s)))
  {
    if s.deque != [] {
      PendingSealFront(p, s);
    } else {
      DrainOneCoalesces(p, s);
    }
  }

  /** The writer passes everything on before the host wakes up. */
  lemma {:induction false} SealEverything(p: Permissions, s: Pipe) returns (steps: seq<Step>)
    requires s.taken <= |s.sealed| && s.held.None? && s.slot.None?
    ensures Guarded(p, s, steps)
    ensures var v := Run(p, s, steps);
            && v.deque == [] && v.channel == [] && v.held.None? && v.slot.None?
            && v.taken == s.taken <= |v.sealed| && v.host == s.host && v.sent == s.sent
            && Coalesced(AllOnWire(Pending(v))) == Coalesced(AllOnWire(Pending(s)))
    decreases |s.deque| + 2 * |s.channel|
  {
    if s.deque == [] && s.channel == [] {
      steps := [];
    } else {
      SealStepMoves(p, s);
      SealStepKeeps(p, s);
      var rest := SealEverything(p, Next(p, s, SealStep(s)));
      RunCons(p, s, SealStep(s), rest);
      steps := [SealStep(s)] + rest;
    }
  }

  lemma RunSnoc(p: Permissions, s: Pipe, steps: seq<Step>, step: Step)
    ensures Run(p, s, steps + [step]) == Next(p, Run(p, s, steps), step)
    ensures Guarded(p, s, steps) && Guard(p, Run(p, s, steps), step) ==> Guarded(p, s, steps + [step])
  {
    assert (steps + [step])[..|steps|] == steps;
  }

  lemma LastWakeUp(p: Permissions, s: Pipe)
    requires s.taken < |s.sealed| && s.deque == [] && s.channel == [] && s.held.None? && s.slot.None?
    ensures var v := Next(p, s, WakeUp(|s.sealed| - s.taken));
            Drained(v) && v.sent == s.sent && v.host == TakeBatch(p, s.host, AllOnWire(Pending(s)))
  {
    assert s.sealed[s.taken..|s.sealed|] == s.sealed[s.taken..];
    assert Pending(s) == Inputs(s.sealed[s.taken..]);
  }

  /** Everything is sealed first and reaches the host as one batch. */
  lemma BatchDrain(p: Permissions, s: Pipe) returns (steps: seq<Step>)
    requires s.taken <= |s.sealed| && s.held.None? && s.slot.None? && Pending(s) != []
    ensures Guarded(p, s, steps) && Drained(Run(p, s, steps)) && Run(p, s, steps).sent == s.sent
    ensures Run(p, s, steps).host == TakeBatch(p, s.host, AllOnWire(Pending(s)))
  {
    var sealing := SealEverything(p, s);
    var v := Run(p, s, sealing);
    CoalescedNonempty(Pending(s), Pending(v));
    LastWakeUp(p, v);
    RunSnoc(p, s, sealing, WakeUp(|v.sealed| - v.taken));
    steps := sealing + [WakeUp(|v.sealed| - v.taken)];
  }

  lemma CoalescedNonempty(a: seq<Stamped>, b: seq<Stamped>)
    requires Coalesced(AllOnWire(a)) == Coalesced(AllOnWire(b)) && a != []
    ensures b != []
  {
  }

  /** In one batch with an older move right behind it, the newest move is lost. */
  lemma BatchLosesNewest(p: Permissions, h: Host, lo: nat, pre: seq<Stamped>, c: seq<Stamped>, m: Stamped)
    requires p.mouse && HostSane(p, h) && h.lastMove == Wrap(lo)
    requires Near(lo, pre + c) && Newest(lo, pre + c, m) && c != [] && c[0].ev.MouseMove?
    ensures TakeBatch(p, h, AllOnWire(pre + [m] + c)).meaning.at != Some(OnWire(m))
    ensures TakeAll(p, h, AllOnWire(pre + c + [m])).meaning.at == Some(OnWire(m))
  {
    assert pre + [m] + c == pre + [m, c[0]] + c[1..] && pre + [c[0]] + c[1..] == pre + c;
    CoalescedSkips(pre, m, c[0], c[1..]);
    CoalescedStampsMatch(pre + c);
    CoalescedStampsMembers(pre + c);
    NewestMembers(lo, pre + c, m, CoalescedStamps(pre + c));
    OlderInForce(p, h, lo, CoalescedStamps(pre + c), m);
    NewestInForce(p, h, lo, pre + c, m);
  }

  // ---- exactly when --------------------------------------------------------------------------------

  /** What is pending in front of the channel. */
  function InFront(s: Pipe): seq<Stamped>
    requires s.taken <= |s.sealed|
  {
    Inputs(s.sealed[s.taken..]) + Inputs(s.deque)
  }

  /** A host that knows move `lo`, and a move newer than that and than everything in front of it. */
  predicate Leading(p: Permissions, h: Host, lo: nat, items: seq<Stamped>, m: Stamped) {
    p.mouse && HostSane(p, h) && h.lastMove == Wrap(lo) && Near(lo, items) && Newest(lo, items, m)
  }

  /** Pushing the newest move onto the queue makes no difference to a host that takes one by one. */
  lemma PushAlike(p: Permissions, h: Host, lo: nat, front: seq<Stamped>, q: seq<Item>, m: Stamped, c: seq<Stamped>)
    requires Leading(p, h, lo, front + Inputs(q) + c, m)
    ensures Alike(p, TakeAll(p, h, AllOnWire(front + Inputs(Merge(IsMoveItem, q, Input(m))) + c)),
                  TakeAll(p, h, AllOnWire(front + Inputs(q) + [m] + c)))
  {
    var d := Inputs(q);
    InputsOfMerge(q, Input(m));
    assert Inputs([Input(m)]) == [m];
    if Inputs(Merge(IsMoveItem, q, Input(m))) == d + [m] {
      Regrouped(front, d, [m], c);
    } else {
      var k := |d| - 1;
      SplitLast(front, d, m, c);
      assert forall x :: x in front + d[..k] + [d[k], m] ==> x in front + d + c || x == m;
      assert d[k] in front + d + c;
      LeaveOut(p, h, lo, front + d[..k], d[k], m, c);
    }
  }

  /** The move taken ahead of a permitted event, seen by a host that takes what is pending in order. */
  lemma WrongInOrder(p: Permissions, h: Host, lo: nat, front: seq<Stamped>, q: seq<Item>, c: seq<Stamped>, m: Stamped)
    requires Leading(p, h, lo, front + Inputs(q) + c, m) && !Harmless(p, c)
    ensures TakeAll(p, h, AllOnWire(front + Inputs(Merge(IsMoveItem, q, Input(m))) + c)).meaning
            != TakeAll(p, h, AllOnWire(front + Inputs(q) + c + [m])).meaning
  {
    PushAlike(p, h, lo, front, q, m, c);
    OvertakingChangesMeaning(p, h, lo, front + Inputs(q), c, m);
  }

  /** The move taken ahead of an older move, seen by a host that takes what is pending in one batch. */
  lemma WrongInOneBatch(p: Permissions, h: Host, lo: nat, front: seq<Stamped>, q: seq<Item>, c: seq<Stamped>, m: Stamped)
    requires Leading(p, h, lo, front + Inputs(q) + c, m) && c != [] && c[0].ev.MouseMove?
    ensures TakeBatch(p, h, AllOnWire(front + Inputs(Merge(IsMoveItem, q, Input(m))) + c)).meaning
            != TakeAll(p, h, AllOnWire(front + Inputs(q) + c + [m])).meaning
  {
    assert Inputs([Input(m)]) == [m];
    CoalescedPush(front, q, Input(m), c);
    BatchLosesNewest(p, h, lo, front + Inputs(q), c, m);
  }

  lemma SlotIsNewest(s: Pipe, items: seq<Stamped>, m: Stamped)
    requires s.taken <= |s.sealed| && SlotLeads(s) && Near(s.hostMove, Pending(s))
    requires s.slot == Some(m) && m.ev.MouseMove? && Ahead(s) == items && Pending(s) == items + [m]
    ensures Near(s.hostMove, items) && Newest(s.hostMove, items, m)
  {
    assert m in items + [m];
    assert forall x :: x in items ==> x in items + [m];
  }

  lemma SlotLeading(p: Permissions, s: Pipe)
    requires Coherent(p, s) && HostSane(p, s.host) && s.slot.Some? && p.mouse
    ensures Leading(p, s.host, s.hostMove, InFront(s) + Inputs(s.channel), s.slot.value)
  {
    PendingTakeSlot(p, s);
    SlotIsNewest(s, InFront(s) + Inputs(s.channel), s.slot.value);
  }

  /** If carrying on in a guarded way empties the queues, the host has the intended meaning. */
  predicate EndsAsIntended(p: Permissions, s: Pipe, steps: seq<Step>) {
    Guarded(p, s, steps) && Drained(Run(p, s, steps)) ==>
      Run(p, s, steps).host.meaning == Intended(p, Run(p, s, steps))
  }

  lemma WrongInOrderEnds(p: Permissions, t: Pipe) returns (steps: seq<Step>)
    requires t.taken <= |t.sealed| && t.held.None?
    requires TakeAll(p, t.host, AllOnWire(Pending(t))).meaning != Intended(p, t)
    ensures !EndsAsIntended(p, t, steps)
  {
    steps := EagerDrain(p, t);
  }

  lemma WrongInOneBatchEnds(p: Permissions, t: Pipe) returns (steps: seq<Step>)
    requires t.taken <= |t.sealed| && t.held.None? && t.slot.None? && Pending(t) != []
    requires TakeBatch(p, t.host, AllOnWire(Pending(t))).meaning != Intended(p, t)
    ensures !EndsAsIntended(p, t, steps)
  {
    steps := BatchDrain(p, t);
  }

  /** The move `m` has been pushed behind `q`, ahead of `c`. */
  predicate RanAhead(p: Permissions, t: Pipe, lo: nat, front: seq<Stamped>, q: seq<Item>, c: seq<Stamped>, m: Stamped) {
    && t.taken <= |t.sealed| && t.held.None? && t.slot.None?
    && Pending(t) == front + Inputs(Merge(IsMoveItem, q, Input(m))) + c
    && Leading(p, t.host, lo, front + Inputs(q) + c, m)
    && TakeAll(p, t.host, AllOnWire(front + Inputs(q) + c + [m])).meaning == Intended(p, t)
  }

  /** If what waits may not be passed, some guarded way of carrying on gives another meaning: an event applied
      at a move sent after it, or another position in force at the end. */
  lemma RunningAheadGoesWrong(
    p: Permissions, t: Pipe, lo: nat, front: seq<Stamped>, q: seq<Item>, c: seq<Stamped>, m: Stamped)
    returns (steps: seq<Step>)
    requires RanAhead(p, t, lo, front, q, c, m) && !Passable(p, c)
    ensures !EndsAsIntended(p, t, steps)
  {
    if !Harmless(p, c) {
      WrongInOrder(p, t.host, lo, front, q, c, m);
      steps := WrongInOrderEnds(p, t);
    } else {
      WrongInOneBatch(p, t.host, lo, front, q, c, m);
      assert c[0] in Pending(t);
      steps := WrongInOneBatchEnds(p, t);
    }
  }

  lemma InOrderBefore(p: Permissions, s: Pipe)
    requires s.taken <= |s.sealed| && s.held.None? && s.slot.Some?
    requires TakeAll(p, s.host, AllOnWire(Pending(s))).meaning == Intended(p, s)
    ensures TakeAll(p, s.host, AllOnWire(InFront(s) + Inputs(s.channel) + [s.slot.value])).meaning == Intended(p, s)
  {
    PendingTakeSlot(p, s);
  }

  lemma TakeLeaves(p: Permissions, s: Pipe)
    requires s.held.None? && s.slot.Some?
    ensures var t := Next(p, s, TakeSlot);
            && t.taken == s.taken && t.sealed == s.sealed && t.held.None? && t.slot.None? && t.host == s.host
            && Intended(p, t) == Intended(p, s)
  {
  }

  lemma TakePends(p: Permissions, s: Pipe)
    requires s.taken <= |s.sealed| && s.held.None? && s.slot.Some?
    ensures Pending(Next(p, s, TakeSlot))
            == Inputs(s.sealed[s.taken..]) + Inputs(Merge(IsMoveItem, s.deque, Input(s.slot.value))) + Inputs(s.channel)
  {
    PendingTakeSlot(p, s);
  }

  lemma RanAheadIs(p: Permissions, t: Pipe, lo: nat, front: seq<Stamped>, q: seq<Item>, c: seq<Stamped>, m: Stamped, goal: Meaning)
    requires t.taken <= |t.sealed| && t.held.None? && t.slot.None? && Intended(p, t) == goal
    requires Pending(t) == front + Inputs(Merge(IsMoveItem, q, Input(m))) + c
    requires Leading(p, t.host, lo, front + Inputs(q) + c, m)
    requires TakeAll(p, t.host, AllOnWire(front + Inputs(q) + c + [m])).meaning == goal
    ensures RanAhead(p, t, lo, front, q, c, m)
  {
  }

  lemma UnsafeTakeRunsAhead(p: Permissions, s: Pipe)
    requires Coherent(p, s) && HostSane(p, s.host) && s.slot.Some? && p.mouse
    ensures RanAhead(p, Next(p, s, TakeSlot), s.hostMove, Inputs(s.sealed[s.taken..]), s.deque, Inputs(s.channel),
                     s.slot.value)
  {
    SlotLeading(p, s);
    InOrderBefore(p, s);
    TakeLeaves(p, s);
    TakePends(p, s);
    RanAheadIs(p, Next(p, s, TakeSlot), s.hostMove, Inputs(s.sealed[s.taken..]), s.deque, Inputs(s.channel), s.slot.value,
               Intended(p, s));
  }

  lemma SafeTake(p: Permissions, s: Pipe, steps: seq<Step>)
    requires Coherent(p, s) && s.slot.Some? && Passable(p, Inputs(s.channel))
    ensures EndsAsIntended(p, Next(p, s, TakeSlot), steps)
  {
    var t := Next(p, s, TakeSlot);
    if Guarded(p, t, steps) && Drained(Run(p, t, steps)) {
      CoherentTakeSlot(p, s);
      GuardedRunStaysCoherent(p, t, steps);
      DrainedMeansDone(p, Run(p, t, steps));
    }
  }

  lemma SafeExactlyWhen(p: Permissions, s: Pipe)
    requires Coherent(p, s) && HostSane(p, s.host) && s.slot.Some?
    ensures Passable(p, Inputs(s.channel)) <==> forall steps :: EndsAsIntended(p, Next(p, s, TakeSlot), steps)
  {
    if Passable(p, Inputs(s.channel)) {
      forall steps ensures EndsAsIntended(p, Next(p, s, TakeSlot), steps) {
        SafeTake(p, s, steps);
      }
    } else {
      UnsafeTakeRunsAhead(p, s);
      var steps := RunningAheadGoesWrong(p, Next(p, s, TakeSlot), s.hostMove, Inputs(s.sealed[s.taken..]), s.deque,
                                         Inputs(s.channel), s.slot.value);
    }
  }

  lemma GuardedRunIsSane(p: Permissions, run: seq<Step>)
    requires Guarded(p, EMPTY, run)
    ensures Coherent(p, Run(p, EMPTY, run)) && HostSane(p, Run(p, EMPTY, run).host)
  {
    GuardedRunStaysCoherent(p, EMPTY, run);
    RunKeepsHostSane(p, EMPTY, run);
  }

  /** For every host, at every moment of every guarded run: taking the slot is safe exactly when what waits in
      the channel may be passed. Then every guarded way of carrying on that empties the queues gives the
      intended meaning, and otherwise some way does not. */
  lemma TakingTheSlotIsSafeExactlyWhen(p: Permissions, run: seq<Step>)
    requires Guarded(p, EMPTY, run) && Run(p, EMPTY, run).slot.Some?
    ensures var s := Run(p, EMPTY, run);
            Passable(p, Inputs(s.channel)) <==> forall steps :: EndsAsIntended(p, Next(p, s, TakeSlot), steps)
  {
    GuardedRunIsSane(p, run);
    SafeExactlyWhen(p, Run(p, EMPTY, run));
  }
}

/** While the writer takes the slot only when what waits in the channel may be passed, collapsing moves never
    changes what the host does. */
module InputMeaning {
  import opened Wrappers
  import opened InputEvents
  import opened InputStale
  import opened InputPipeline

  lemma {:induction false} InputsConcat(a: seq<Item>, b: seq<Item>)
    ensures Inputs(a + b) == Inputs(a) + Inputs(b)
  {
    if b == [] {
      assert a + b == a;
    } else {
      assert (a + b)[..|a + b| - 1] == a + b[..|b| - 1];
      InputsConcat(a, b[..|b| - 1]);
    }
  }

  /** Input events not taken by the host yet, in the order they would reach it. */
  function Pending(s: Pipe): seq<Stamped>
    requires s.taken <= |s.sealed|
  {
    Inputs(s.sealed[s.taken..]) + Inputs(s.deque) + Inputs(s.channel) + OptSeq(s.held) + OptSeq(s.slot)
  }

  predicate Drained(s: Pipe) {
    s.taken == |s.sealed| && s.deque == [] && s.channel == [] && s.held.None? && s.slot.None?
  }

  /** What everything sent so far means if nothing is ever dropped. */
  function Intended(p: Permissions, s: Pipe): Meaning {
    ApplyAll(p, NOTHING_APPLIED, AllOnWire(s.sent))
  }

  /** Taking `pending` in order, the host reaches exactly `goal`. Where the numbers decide what is stale, they
      are near each other and none is larger than `newest`. */
  predicate Tracks(p: Permissions, h: Host, lo: nat, newest: nat, pending: seq<Stamped>, goal: Meaning) {
    && Reaches(p, h, lo, pending)
    && (p.mouse ==> Steady(pending) && lo <= newest && forall x :: x in pending ==> x.n <= newest)
    && TakeAll(p, h, AllOnWire(pending)).meaning == goal
  }

  /** Everything pending but the position in the slot. */
  function Ahead(s: Pipe): seq<Stamped>
    requires s.taken <= |s.sealed|
  {
    Inputs(s.sealed[s.taken..]) + Inputs(s.deque) + Inputs(s.channel) + OptSeq(s.held)
  }

  /** The position in the slot is newer than everything else. */
  predicate SlotLeads(s: Pipe)
    requires s.taken <= |s.sealed|
  {
    s.slot.Some? ==> s.hostMove < s.slot.value.n && forall x :: x in Ahead(s) ==> x.n < s.slot.value.n
  }

  predicate Coherent(p: Permissions, s: Pipe) {
    && Collapsed(s)
    && s.taken <= |s.sealed|
    && Tracks(p, s.host, s.hostMove, s.newest, Pending(s), Intended(p, s))
    && (p.mouse ==> SlotLeads(s))
  }

  /** The newest move may run ahead of events `c`: the host refuses all of them but moves, and none of those
      moves would come directly behind it. */
  predicate Passable(p: Permissions, c: seq<Stamped>) {
    p.mouse ==> Harmless(p, c) && (c != [] ==> !c[0].ev.MouseMove?)
  }

  /** A new move is within half a window of the moves before it that the host can still compare it with. */
  predicate InReach(m: Stamped, s: Pipe)
    requires s.taken <= |s.sealed|
  {
    m.n < s.hostMove + HALF_WINDOW
    && forall x :: x in Pending(s) && x.ev.MouseMove? ==> m.n < x.n + HALF_WINDOW
  }

  /** The conditions on a step, for a host that may move the pointer: numbers grow, a new move is in reach, and
      the slot is taken only while what waits in the channel may be passed. */
  predicate Guard(p: Permissions, s: Pipe, step: Step) {
    p.mouse ==>
      match step
      case SendMove(m) => s.taken <= |s.sealed| && s.newest < m.n && InReach(m, s)
      case LockSend(e) => s.newest < e.n
      case TakeSlot => Passable(p, Inputs(s.channel))
      case _ => true
  }

  predicate Guarded(p: Permissions, s: Pipe, steps: seq<Step>) {
    steps == []
    || (Guarded(p, s, steps[..|steps| - 1]) && Guard(p, Run(p, s, steps[..|steps| - 1]), steps[|steps| - 1]))
  }

  /** Either the queue takes the item at its end, or the item replaces the move there. */
  lemma InputsOfMerge(q: seq<Item>, it: Item)
    ensures var r := Merge(IsMoveItem, q, it);
            || Inputs(r) == Inputs(q) + Inputs([it])
            || (&& it.Input? && it.event.ev.MouseMove? && |Inputs(q)| > 0
                && Inputs(q)[|Inputs(q)| - 1].ev.MouseMove?
                && Inputs(r) == Inputs(q)[..|Inputs(q)| - 1] + [it.event])
  {
    if IsMoveItem(it) && |q| > 0 && IsMoveItem(q[|q| - 1]) {
      var r := q[|q| - 1 := it];
      assert r[..|r| - 1] == q[..|q| - 1];
    } else {
      InputsConcat(q, [it]);
    }
  }

  // What each step does to the list of pending events.

  lemma PendingAfterSend(p: Permissions, s: Pipe, m: Stamped)
    requires Collapsed(s) && s.taken <= |s.sealed| && s.held.None? && m.ev.MouseMove?
    ensures var t := Next(p, s, SendMove(m));
            if s.slot.Some? then
              && Pending(s) != [] && Pending(s)[|Pending(s)| - 1] == s.slot.value
              && Pending(t) == Pending(s)[..|Pending(s)| - 1] + [m]
            else Pending(t) == Pending(s) + [m]
  {
    var front := Inputs(s.sealed[s.taken..]) + Inputs(s.deque) + Inputs(s.channel);
    LastSwapped(front, if s.slot.Some? then s.slot.value else m, m);
  }

  lemma LastSwapped<T>(a: seq<T>, x: T, y: T)
    ensures var l := a + [] + [x];
            l[|l| - 1] == x && a + [] + [y] == l[..|l| - 1] + [y]
    ensures a + [] + [y] == a + [] + [] + [y]
  {
  }

  lemma LockRegrouped<T>(a: seq<T>, c: seq<T>, x: seq<T>, e: T)
    ensures a + (c + x) + [e] + [] == a + c + [] + x + [e]
  {
  }

  lemma PendingAfterLock(p: Permissions, s: Pipe, e: Stamped)
    requires s.taken <= |s.sealed| && s.held.None? && !e.ev.MouseMove?
    ensures Pending(Next(p, s, LockSend(e))) == Pending(s) + [e]
  {
    var front := Inputs(s.sealed[s.taken..]) + Inputs(s.deque);
    LockRegrouped(front, Inputs(s.channel), OptSeq(s.slot), e);
    if s.slot.Some? {
      InputsConcat(s.channel, [Input(s.slot.value)]);
      assert Inputs([Input(s.slot.value)]) == [s.slot.value];
    } else {
      assert s.channel + [] == s.channel && Inputs(s.channel) + [] == Inputs(s.channel);
    }
  }

  lemma PendingIntoChannel(p: Permissions, s: Pipe, step: Step)
    requires s.taken <= |s.sealed| && (step.FinishSend? || step.SendOther?)
    requires Next(p, s, step) != s
    ensures Pending(Next(p, s, step)) == Pending(s)
  {
    var it := if step.FinishSend? then Input(s.held.value) else Other(step.id);
    InputsConcat(s.channel, [it]);
    assert Inputs([it]) == if it.Input? then [it.event] else [];
  }

  lemma PendingSealFront(p: Permissions, s: Pipe)
    requires s.taken <= |s.sealed| && s.deque != []
    ensures Pending(Next(p, s, SealFront)) == Pending(s)
  {
    var t := Next(p, s, SealFront);
    assert t.sealed[t.taken..] == s.sealed[s.taken..] + [s.deque[0]];
    InputsConcat(s.sealed[s.taken..], [s.deque[0]]);
    InputsConcat([s.deque[0]], t.deque);
    assert s.deque == [s.deque[0]] + t.deque;
    SealRegrouped(Inputs(s.sealed[s.taken..]), Inputs([s.deque[0]]), Inputs(t.deque));
  }

  lemma SealRegrouped<T>(a: seq<T>, x: seq<T>, b: seq<T>)
    ensures a + x + b == a + (x + b)
  {
  }

  lemma InputsSplit(items: seq<Item>, from: nat, k: nat)
    requires from + k <= |items|
    ensures Inputs(items[from..]) == Inputs(items[from..from + k]) + Inputs(items[from + k..])
  {
    InputsConcat(items[from..from + k], items[from + k..]);
    assert items[from..] == items[from..from + k] + items[from + k..];
  }

  lemma PendingDrainOne(p: Permissions, s: Pipe)
    requires s.taken <= |s.sealed| && s.channel != []
    ensures var t := Next(p, s, DrainOne);
            var front := Inputs(s.sealed[s.taken..]);
            var rest := Inputs(t.channel) + OptSeq(s.held) + OptSeq(s.slot);
            && Pending(s) == front + Inputs(s.deque) + Inputs([s.channel[0]]) + rest
            && Pending(t) == front + Inputs(t.deque) + rest
  {
    InputsConcat([s.channel[0]], s.channel[1..]);
    assert s.channel == [s.channel[0]] + s.channel[1..];
    var front, rest := Inputs(s.sealed[s.taken..]), Inputs(s.channel[1..]);
    HeadApart(front + Inputs(s.deque), Inputs([s.channel[0]]), rest, OptSeq(s.held), OptSeq(s.slot));
    HeadApart(front + Inputs(Next(p, s, DrainOne).deque), [], rest, OptSeq(s.held), OptSeq(s.slot));
  }

  lemma HeadApart<T>(a: seq<T>, x: seq<T>, b: seq<T>, c: seq<T>, d: seq<T>)
    ensures a + (x + b) + c + d == a + x + (b + c + d) && a + b + c + d == a + (b + c + d)
  {
  }

  // What those changes mean to the host.

  /** An event newer than everything pending is not stale by the time it is taken. */
  lemma NewerIsApplied(p: Permissions, h: Host, lo: nat, pending: seq<Stamped>, e: Stamped)
    requires Reaches(p, h, lo, pending)
    requires p.mouse && e.ev.MouseMove? ==>
               lo <= e.n < lo + HALF_WINDOW
               && forall x :: x in pending && x.ev.MouseMove? ==> x.n <= e.n < x.n + HALF_WINDOW
    ensures TakeAll(p, h, AllOnWire(pending + [e])).meaning
            == Apply(p, TakeAll(p, h, AllOnWire(pending)).meaning, OnWire(e))
  {
    TakeSnoc(p, h, pending, e);
    if p.mouse && e.ev.MouseMove? {
      LastMoveIsTop(p, h, lo, pending);
      TopIsNewest(lo, pending);
      StaleIsOlder(TakeAll(p, h, AllOnWire(pending)), Top(lo, pending), e);
    }
  }

  lemma ReachesOneMore(p: Permissions, h: Host, lo: nat, pending: seq<Stamped>, e: Stamped)
    requires Reaches(p, h, lo, pending)
    requires p.mouse && e.ev.MouseMove? ==>
               lo <= e.n < lo + HALF_WINDOW
               && forall x :: x in pending && x.ev.MouseMove? ==> x.n <= e.n < x.n + HALF_WINDOW
    ensures Reaches(p, h, lo, pending + [e])
  {
  }

  lemma TracksOneMore(p: Permissions, h: Host, lo: nat, newest: nat, pending: seq<Stamped>, sent: seq<Stamped>, e: Stamped)
    requires Tracks(p, h, lo, newest, pending, ApplyAll(p, NOTHING_APPLIED, AllOnWire(sent)))
    requires p.mouse ==> newest < e.n
    requires p.mouse && e.ev.MouseMove? ==>
               e.n < lo + HALF_WINDOW && forall x :: x in pending && x.ev.MouseMove? ==> e.n < x.n + HALF_WINDOW
    ensures Tracks(p, h, lo, e.n, pending + [e], ApplyAll(p, NOTHING_APPLIED, AllOnWire(sent + [e])))
  {
    NewerIsApplied(p, h, lo, pending, e);
    ReachesOneMore(p, h, lo, pending, e);
    ApplySnoc(p, NOTHING_APPLIED, sent, e);
    if p.mouse {
      SteadySnoc(pending, e);
    }
  }

  lemma SteadySnoc(items: seq<Stamped>, e: Stamped)
    requires Steady(items) && forall x :: x in items ==> x.n <= e.n
    ensures Steady(items + [e])
  {
  }

  lemma TracksMembers(p: Permissions, h: Host, lo: nat, newest: nat, was: seq<Stamped>, goal: Meaning, r: seq<Stamped>)
    requires Tracks(p, h, lo, newest, was, goal) && forall x :: x in r ==> x in was
    requires p.mouse ==> Steady(r)
    requires TakeAll(p, h, AllOnWire(r)).meaning == goal
    ensures Tracks(p, h, lo, newest, r, goal)
  {
  }

  /** A move followed at once by another move can be left out. */
  lemma TracksLeaveOut(
    p: Permissions, h: Host, lo: nat, newest: nat, a: seq<Stamped>, w: Stamped, x: Stamped, b: seq<Stamped>, goal: Meaning)
    requires w.ev.MouseMove? && x.ev.MouseMove?
    requires Tracks(p, h, lo, newest, a + [w, x] + b, goal)
    ensures Tracks(p, h, lo, newest, a + [x] + b, goal)
  {
    if p.mouse {
      LeaveOutStaysSteady(a, w, x, b);
      assert forall y :: y in a + [w, x] ==> y in a + [w, x] + b;
    }
    LeaveOut(p, h, lo, a, w, x, b);
    TracksMembers(p, h, lo, newest, a + [w, x] + b, goal, a + [x] + b);
  }

  lemma TracksReplaceLast(
    p: Permissions, h: Host, lo: nat, newest: nat, a: seq<Stamped>, w: Stamped, x: Stamped, goal: Meaning)
    requires w.ev.MouseMove? && x.ev.MouseMove?
    requires Tracks(p, h, lo, newest, a + [w] + [x], goal)
    ensures Tracks(p, h, lo, newest, a + [x], goal)
  {
    assert a + [w] + [x] == a + [w, x] + [] && a + [x] == a + [x] + [];
    TracksLeaveOut(p, h, lo, newest, a, w, x, [], goal);
  }

  /** Pushing an item that comes right after the queue. */
  lemma TracksPush(
    p: Permissions, h: Host, lo: nat, newest: nat, front: seq<Stamped>, q: seq<Item>, it: Item, rest: seq<Stamped>,
    goal: Meaning)
    requires Tracks(p, h, lo, newest, front + Inputs(q) + Inputs([it]) + rest, goal)
    ensures Tracks(p, h, lo, newest, front + Inputs(Merge(IsMoveItem, q, it)) + rest, goal)
  {
    InputsOfMerge(q, it);
    if Inputs(Merge(IsMoveItem, q, it)) == Inputs(q) + Inputs([it]) {
      Regrouped(front, Inputs(q), Inputs([it]), rest);
    } else {
      var k := |Inputs(q)| - 1;
      assert Inputs([it]) == [it.event];
      SplitLast(front, Inputs(q), it.event, rest);
      TracksLeaveOut(p, h, lo, newest, front + Inputs(q)[..k], Inputs(q)[k], it.event, rest, goal);
    }
  }

  lemma Regrouped<T>(a: seq<T>, b: seq<T>, c: seq<T>, d: seq<T>)
    ensures a + b + c + d == a + (b + c) + d
  {
  }

  lemma SplitLast<T>(a: seq<T>, q: seq<T>, x: T, b: seq<T>)
    requires q != []
    ensures var k := |q| - 1;
            && a + q + [x] + b == a + q[..k] + [q[k], x] + b
            && a + (q[..k] + [x]) + b == a + q[..k] + [x] + b
  {
  }

  lemma PushMembers(a: seq<Stamped>, q: seq<Item>, it: Item, b: seq<Stamped>)
    ensures forall x :: x in a + Inputs(Merge(IsMoveItem, q, it)) + b ==> x in a + Inputs(q) + Inputs([it]) + b
  {
    InputsOfMerge(q, it);
    assert it.Input? ==> Inputs([it]) == [it.event];
  }

  lemma TracksWakeUp(p: Permissions, h: Host, lo: nat, newest: nat, batch: seq<Stamped>, rest: seq<Stamped>, goal: Meaning)
    requires Tracks(p, h, lo, newest, batch + rest, goal)
    ensures Tracks(p, TakeBatch(p, h, AllOnWire(batch)), Top(lo, batch), newest, rest, goal)
  {
    var one, all := TakeAll(p, h, AllOnWire(batch)), TakeBatch(p, h, AllOnWire(batch));
    ReachesAfter(p, h, lo, batch, rest);
    if p.mouse {
      SteadyParts(batch, rest);
      TopIsNewest(lo, batch);
      assert forall x :: x in batch || x in rest ==> x in batch + rest;
    }
    BatchAlike(p, h, lo, batch);
    TakeCat(p, h, batch, rest);
    AlikeTails(p, all, one, AllOnWire(rest));
  }

  lemma SteadyParts(a: seq<Stamped>, b: seq<Stamped>)
    requires Steady(a + b)
    ensures Steady(a) && Steady(b)
  {
    assert forall i :: 0 <= i < |a| ==> (a + b)[i] == a[i];
    assert forall i :: 0 <= i < |b| ==> (a + b)[|a| + i] == b[i];
  }

  /** The newest move runs ahead of what it may pass. */
  lemma TracksRunAhead(
    p: Permissions, h: Host, lo: nat, newest: nat, pre: seq<Stamped>, c: seq<Stamped>, m: Stamped, goal: Meaning)
    requires Tracks(p, h, lo, newest, pre + c + [m], goal) && Passable(p, c) && m.ev.MouseMove?
    requires p.mouse ==> lo < m.n && forall x :: x in pre + c ==> x.n < m.n
    ensures Tracks(p, h, lo, newest, pre + [m] + c, goal)
  {
    if p.mouse {
      assert forall x :: x in pre + c ==> x in pre + c + [m];
      assert m in pre + c + [m];
      assert forall x :: x in pre ==> x in pre + c;
      RunAheadStaysSteady(pre, c, m);
    }
    RunAhead(p, h, lo, pre, c, m);
    assert forall x :: x in pre + [m] + c ==> x in pre + c + [m];
    TracksMembers(p, h, lo, newest, pre + c + [m], goal, pre + [m] + c);
  }

  // The steps.

  lemma CoherentSend(p: Permissions, s: Pipe, step: Step)
    requires Coherent(p, s) && Guard(p, s, step) && (step.SendMove? || step.LockSend?)
    requires Next(p, s, step) != s
    ensures Coherent(p, Next(p, s, step))
  {
    var t := Next(p, s, step);
    var e := if step.SendMove? then step.move else step.event;
    CollapsedStep(p, s, step);
    TracksOneMore(p, s.host, s.hostMove, s.newest, Pending(s), s.sent, e);
    AheadAndSlot(s);
    if step.LockSend? {
      PendingAfterLock(p, s, e);
    } else {
      PendingAfterSend(p, s, e);
      if s.slot.Some? {
        var a := Pending(s)[..|Pending(s)| - 1];
        assert Pending(s) == a + [s.slot.value];
        TracksReplaceLast(p, s.host, s.hostMove, e.n, a, s.slot.value, e, Intended(p, t));
      }
    }
  }

  lemma AheadAndSlot(s: Pipe)
    requires s.taken <= |s.sealed|
    ensures Pending(s) == Ahead(s) + OptSeq(s.slot)
    ensures forall x :: x in Ahead(s) ==> x in Pending(s)
    ensures Ahead(s) == Pending(s.(slot := None))
  {
  }

  lemma NothingBetween<T>(a: seq<T>, b: seq<T>, x: seq<T>)
    ensures a + b + [] + x == a + b + x
    ensures a + b + [] + [] == a + b
  {
  }

  lemma PendingTakeSlot(p: Permissions, s: Pipe)
    requires s.taken <= |s.sealed| && s.held.None? && s.slot.Some?
    ensures var t := Next(p, s, TakeSlot);
            var front := Inputs(s.sealed[s.taken..]);
            && Pending(s) == front + Inputs(s.deque) + Inputs(s.channel) + [s.slot.value]
            && Ahead(s) == front + Inputs(s.deque) + Inputs(s.channel)
            && Pending(t) == front + Inputs(t.deque) + Inputs(s.channel)
  {
    var t := Next(p, s, TakeSlot);
    var front := Inputs(s.sealed[s.taken..]);
    NothingBetween(front + Inputs(s.deque), Inputs(s.channel), [s.slot.value]);
    NothingBetween(front + Inputs(t.deque), Inputs(s.channel), []);
  }

  lemma TracksTakeSlot(p: Permissions, s: Pipe, front: seq<Stamped>, m: Stamped, c: seq<Stamped>)
    requires Tracks(p, s.host, s.hostMove, s.newest, front + Inputs(s.deque) + c + [m], Intended(p, s))
    requires p.mouse ==> s.hostMove < m.n && forall x :: x in front + Inputs(s.deque) + c ==> x.n < m.n
    requires m.ev.MouseMove? && Passable(p, c)
    ensures Tracks(p, s.host, s.hostMove, s.newest, front + Inputs(Merge(IsMoveItem, s.deque, Input(m))) + c,
                   Intended(p, s))
  {
    TracksRunAhead(p, s.host, s.hostMove, s.newest, front + Inputs(s.deque), c, m, Intended(p, s));
    assert Inputs([Input(m)]) == [m];
    TracksPush(p, s.host, s.hostMove, s.newest, front, s.deque, Input(m), c, Intended(p, s));
  }

  lemma CoherentTakeSlot(p: Permissions, s: Pipe)
    requires Coherent(p, s) && Passable(p, Inputs(s.channel)) && s.slot.Some?
    ensures Coherent(p, Next(p, s, TakeSlot))
  {
    CollapsedStep(p, s, TakeSlot);
    PendingTakeSlot(p, s);
    TracksTakeSlot(p, s, Inputs(s.sealed[s.taken..]), s.slot.value, Inputs(s.channel));
  }

  /** Pending events have only been pushed together. */
  lemma TracksAfterPush(p: Permissions, s: Pipe, front: seq<Stamped>, it: Item, rest: seq<Stamped>,
                        before: seq<Stamped>, after: seq<Stamped>)
    requires Tracks(p, s.host, s.hostMove, s.newest, before, Intended(p, s))
    requires before == front + Inputs(s.deque) + Inputs([it]) + rest
    requires after == front + Inputs(Merge(IsMoveItem, s.deque, it)) + rest
    ensures Tracks(p, s.host, s.hostMove, s.newest, after, Intended(p, s))
  {
    TracksPush(p, s.host, s.hostMove, s.newest, front, s.deque, it, rest, Intended(p, s));
  }

  lemma TracksDrainOne(p: Permissions, s: Pipe)
    requires s.taken <= |s.sealed| && s.channel != []
    requires Tracks(p, s.host, s.hostMove, s.newest, Pending(s), Intended(p, s))
    ensures var t := Next(p, s, DrainOne);
            Tracks(p, s.host, s.hostMove, s.newest, Pending(t), Intended(p, s))
  {
    PendingDrainOne(p, s);
    TracksAfterPush(p, s, Inputs(s.sealed[s.taken..]), s.channel[0],
                    Inputs(s.channel[1..]) + OptSeq(s.held) + OptSeq(s.slot), Pending(s), Pending(Next(p, s, DrainOne)));
  }

  lemma DrainOneAddsNothing(p: Permissions, s: Pipe)
    requires s.taken <= |s.sealed| && s.channel != []
    ensures forall x :: x in Pending(Next(p, s, DrainOne)) ==> x in Pending(s)
  {
    PendingDrainOne(p, s);
    PushMembers(Inputs(s.sealed[s.taken..]), s.deque, s.channel[0], Inputs(s.channel[1..]) + OptSeq(s.held) + OptSeq(s.slot));
  }

  lemma CoherentDrainOne(p: Permissions, s: Pipe)
    requires Coherent(p, s) && s.channel != []
    ensures Coherent(p, Next(p, s, DrainOne))
  {
    var t := Next(p, s, DrainOne);
    CollapsedStep(p, s, DrainOne);
    TracksDrainOne(p, s);
    DrainOneAddsNothing(p, s.(slot := None));
    AheadAndSlot(s);
    AheadAndSlot(t);
    assert t.(slot := None) == Next(p, s.(slot := None), DrainOne);
  }

  lemma PendingWakeUp(s: Pipe, t: Pipe, k: nat)
    requires s.taken + k <= |s.sealed|
    requires t.taken == s.taken + k && t.sealed == s.sealed && t.deque == s.deque && t.channel == s.channel
    requires t.held == s.held && t.slot == s.slot
    ensures Pending(s) == Inputs(s.sealed[s.taken..s.taken + k]) + Pending(t)
  {
    InputsSplit(s.sealed, s.taken, k);
    AllRegrouped(Inputs(s.sealed[s.taken..s.taken + k]), Inputs(t.sealed[t.taken..]), Inputs(s.deque), Inputs(s.channel),
                 OptSeq(s.held), OptSeq(s.slot));
  }

  lemma AllRegrouped<T>(a: seq<T>, b: seq<T>, c: seq<T>, d: seq<T>, e: seq<T>, f: seq<T>)
    ensures a + b + c + d + e + f == a + (b + c + d + e + f)
  {
  }

  lemma SlotStillLeads(s: Pipe, t: Pipe, batch: seq<Stamped>)
    requires s.taken <= |s.sealed| && t.taken <= |t.sealed| && SlotLeads(s)
    requires Ahead(s) == batch + Ahead(t) && t.slot == s.slot && t.hostMove == Top(s.hostMove, batch)
    ensures SlotLeads(t)
  {
    assert forall x :: x in batch || x in Ahead(t) ==> x in Ahead(s);
    if s.slot.Some? {
      TopBelow(s.hostMove, batch, s.slot.value.n);
    }
  }

  /** The batch has gone from the front of what is pending to the host. */
  predicate HandedOver(p: Permissions, s: Pipe, t: Pipe, batch: seq<Stamped>)
    requires s.taken <= |s.sealed| && t.taken <= |t.sealed|
  {
    && Pending(s) == batch + Pending(t) && Ahead(s) == batch + Ahead(t)
    && t.slot == s.slot && t.newest == s.newest && t.sent == s.sent
    && t.host == TakeBatch(p, s.host, AllOnWire(batch)) && t.hostMove == Top(s.hostMove, batch)
  }

  lemma WakeUpHandsOver(p: Permissions, s: Pipe, k: nat)
    requires 0 < k && s.taken + k <= |s.sealed|
    ensures var t := Next(p, s, WakeUp(k));
            t.taken <= |t.sealed| && HandedOver(p, s, t, Inputs(s.sealed[s.taken..s.taken + k]))
  {
    var t := Next(p, s, WakeUp(k));
    PendingWakeUp(s, t, k);
    PendingWakeUp(s.(slot := None), t.(slot := None), k);
    AheadAndSlot(s);
    AheadAndSlot(t);
  }

  lemma CoherentHandedOver(p: Permissions, s: Pipe, t: Pipe, batch: seq<Stamped>)
    requires Coherent(p, s) && Collapsed(t) && t.taken <= |t.sealed| && HandedOver(p, s, t, batch)
    ensures Coherent(p, t)
  {
    TracksWakeUp(p, s.host, s.hostMove, s.newest, batch, Pending(t), Intended(p, s));
    if p.mouse {
      SlotStillLeads(s, t, batch);
    }
  }

  lemma CoherentWakeUp(p: Permissions, s: Pipe, k: nat)
    requires Coherent(p, s) && 0 < k && s.taken + k <= |s.sealed|
    ensures Coherent(p, Next(p, s, WakeUp(k)))
  {
    CollapsedStep(p, s, WakeUp(k));
    WakeUpHandsOver(p, s, k);
    CoherentHandedOver(p, s, Next(p, s, WakeUp(k)), Inputs(s.sealed[s.taken..s.taken + k]));
  }

  /** Steps that leave everything pending as it is. */
  lemma CoherentQuiet(p: Permissions, s: Pipe, step: Step)
    requires Coherent(p, s) && (step.FinishSend? || step.SendOther? || step.SealFront?) && Next(p, s, step) != s
    ensures Coherent(p, Next(p, s, step))
  {
    var t := Next(p, s, step);
    CollapsedStep(p, s, step);
    AheadAndSlot(s);
    AheadAndSlot(t);
    if step.SealFront? {
      PendingSealFront(p, s);
      PendingSealFront(p, s.(slot := None));
    } else {
      PendingIntoChannel(p, s, step);
      PendingIntoChannel(p, s.(slot := None), step);
    }
  }

  lemma CoherentStep(p: Permissions, s: Pipe, step: Step)
    requires Coherent(p, s) && Guard(p, s, step)
    ensures Coherent(p, Next(p, s, step))
  {
    if Next(p, s, step) != s {
      match step
      case SendMove(_) => CoherentSend(p, s, step);
      case LockSend(_) => CoherentSend(p, s, step);
      case DrainOne => CoherentDrainOne(p, s);
      case TakeSlot => CoherentTakeSlot(p, s);
      case WakeUp(k) => CoherentWakeUp(p, s, k);
      case _ => CoherentQuiet(p, s, step);
    }
  }

  lemma {:induction false} GuardedRunStaysCoherent(p: Permissions, s: Pipe, steps: seq<Step>)
    requires Coherent(p, s) && Guarded(p, s, steps)
    ensures Coherent(p, Run(p, s, steps))
  {
    if steps != [] {
      GuardedRunStaysCoherent(p, s, steps[..|steps| - 1]);
      CoherentStep(p, Run(p, s, steps[..|steps| - 1]), steps[|steps| - 1]);
    }
  }

  lemma DrainedMeansDone(p: Permissions, s: Pipe)
    requires Coherent(p, s) && Drained(s)
    ensures s.host.meaning == Intended(p, s)
  {
    assert s.sealed[s.taken..] == [];
    assert Pending(s) == [];
  }

  /** The promise of the pipeline. Once every queue is empty after a guarded run, the host has applied every
      permitted non-move event, in the order sent, each with the newest permitted move sent before it in
      force, and the pointer rests at the newest permitted move of all. */
  lemma DroppingMovesNeverChangesMeaning(p: Permissions, steps: seq<Step>)
    requires Guarded(p, EMPTY, steps)
    ensures var s := Run(p, EMPTY, steps);
            Drained(s) ==>
            && s.host.meaning == Intended(p, s)
            && s.host.meaning == Meaning(LastMove(p, AllOnWire(s.sent)), Paired(p, AllOnWire(s.sent)))
  {
    var s := Run(p, EMPTY, steps);
    GuardedRunStaysCoherent(p, EMPTY, steps);
    ApplyAllIsPairing(p, AllOnWire(s.sent));
    if Drained(s) {
      DrainedMeansDone(p, s);
    }
  }

  /** A host that may not move the pointer needs no condition: every interleaving of steps, the gap before the
      slot included, gives the intended meaning. */
  lemma WithoutThePointerOrderIsEnough(p: Permissions, steps: seq<Step>)
    requires !p.mouse && Drained(Run(p, EMPTY, steps))
    ensures Run(p, EMPTY, steps).host.meaning == Intended(p, Run(p, EMPTY, steps))
  {
    NoConditionWithoutThePointer(p, EMPTY, steps);
    DroppingMovesNeverChangesMeaning(p, steps);
  }

  lemma {:induction false} NoConditionWithoutThePointer(p: Permissions, s: Pipe, steps: seq<Step>)
    requires !p.mouse
    ensures Guarded(p, s, steps)
  {
    if steps != [] {
      NoConditionWithoutThePointer(p, s, steps[..|steps| - 1]);
    }
  }
}

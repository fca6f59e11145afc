/** Input events, wrapping sequence numbers, run-collapsing of pointer moves, and what a stream of
    input events means to the host.

    The meaning of a stream is the list of non-move events, each paired with the pointer move in force
    when it is applied, plus the move in force at the end. A move is identified by its sequence number
    and position, so two meanings are equal only if the same moves are in force at the same events. */
module InputEvents {
  import opened Wrappers

  const SEQ_MODULUS: nat := 0x1_0000_0000
  const HALF_WINDOW: nat := 0x8000_0000

  type U32 = n: nat | n < SEQ_MODULUS

  datatype Event =
    | MouseMove(x: nat, y: nat)
    | MouseButton(button: nat, down: bool)
    | Wheel(dx: int, dy: int)
    | Key(scancode: nat, extended: bool, down: bool)
    | Text(text: string)
    | ReleaseAll

  /** An input event as the host receives it. */
  datatype Inbound = Inbound(num: U32, ev: Event)

  /** What the host currently permits the viewer to do. */
  datatype Permissions = Permissions(mouse: bool, keyboard: bool)

  /** A non-move event the host applied, with the pointer move in force at that moment. */
  datatype Applied = Applied(event: Inbound, at: Option<Inbound>)

  datatype Meaning = Meaning(at: Option<Inbound>, log: seq<Applied>)

  const NOTHING_APPLIED := Meaning(None, [])

  predicate IsMove(it: Inbound) {
    it.ev.MouseMove?
  }

  predicate Allowed(p: Permissions, e: Event) {
    match e
    case MouseMove(_, _) => p.mouse
    case MouseButton(_, _) => p.mouse
    case Wheel(_, _) => p.mouse
    case Key(_, _, _) => p.keyboard
    case Text(_) => p.keyboard
    case ReleaseAll => true
  }

  // ---- sequence numbers ----------------------------------------------------------------------------

  /** The 32-bit number that stands for the n-th stamp. */
  function Wrap(n: nat): U32 {
    n % SEQ_MODULUS
  }

  /** `a` is older than `b`: their wrapping difference, read as a signed 32-bit number, is negative. */
  predicate SeqBefore(a: U32, b: U32) {
    AsSigned((a - b) % SEQ_MODULUS) < 0
  }

  function AsSigned(d: U32): int {
    if d < HALF_WINDOW then d else d - SEQ_MODULUS
  }

  /** Inside half a window the wrapped comparison is exactly the order of the unwrapped numbers. */
  lemma SeqBeforeIsOrder(a: nat, b: nat)
    requires a < b + HALF_WINDOW && b <= a + HALF_WINDOW
    ensures SeqBefore(Wrap(a), Wrap(b)) <==> a < b
  {
    WrapDifference(a, b);
  }

  /** For any two numbers, the comparison sees only their distance modulo 2^32. */
  lemma SeqBeforeExactly(a: nat, b: nat)
    ensures SeqBefore(Wrap(a), Wrap(b)) <==> (a - b) % SEQ_MODULUS >= HALF_WINDOW
  {
    WrapDifference(a, b);
  }

  lemma WrapDifference(a: nat, b: nat)
    ensures (Wrap(a) - Wrap(b)) % SEQ_MODULUS == (a - b) % SEQ_MODULUS
  {
    var qa, qb := a / SEQ_MODULUS, b / SEQ_MODULUS;
    assert a == qa * SEQ_MODULUS + Wrap(a) && b == qb * SEQ_MODULUS + Wrap(b);
    AddMultiple(Wrap(a) - Wrap(b), qa - qb);
  }

  lemma AddMultiple(d: int, k: int)
    ensures (d + k * SEQ_MODULUS) % SEQ_MODULUS == d % SEQ_MODULUS
  {
  }

  // ---- collapsing runs of moves --------------------------------------------------------------------

  /** Appends `it`, except that a move overwrites a move already at the back. */
  function Merge<T>(isMove: T -> bool, q: seq<T>, it: T): (r: seq<T>)
    ensures |r| == |q| || |r| == |q| + 1
    ensures |r| > 0 && r[|r| - 1] == it
  {
    if isMove(it) && |q| > 0 && isMove(q[|q| - 1]) then q[|q| - 1 := it] else q + [it]
  }

  /** Every maximal run of consecutive moves replaced by its last one. */
  function Coalesced(items: seq<Inbound>): seq<Inbound> {
    if items == [] then [] else Merge(IsMove, Coalesced(items[..|items| - 1]), items[|items| - 1])
  }

  /** No two neighbours are moves. */
  predicate Separated<T>(isMove: T -> bool, q: seq<T>) {
    forall i :: 0 <= i < |q| - 1 ==> !(isMove(q[i]) && isMove(q[i + 1]))
  }

  // ---- what the host does with a stream ------------------------------------------------------------

  /** Applies one event with no staleness check. */
  function Apply(p: Permissions, m: Meaning, it: Inbound): Meaning {
    if !Allowed(p, it.ev) then m
    else if IsMove(it) then m.(at := Some(it))
    else m.(log := m.log + [Applied(it, m.at)])
  }

  function ApplyAll(p: Permissions, m: Meaning, items: seq<Inbound>): Meaning {
    if items == [] then m else Apply(p, ApplyAll(p, m, items[..|items| - 1]), items[|items| - 1])
  }

  /** The input thread: the number of the last move it took, and what it has applied so far. */
  datatype Host = Host(lastMove: U32, meaning: Meaning)

  const FRESH_HOST := Host(0, NOTHING_APPLIED)

  predicate IsStale(h: Host, it: Inbound) {
    IsMove(it) && SeqBefore(it.num, h.lastMove)
  }

  /** One event with the staleness check: an overtaken move is dropped, everything else is applied. */
  function Take(p: Permissions, h: Host, it: Inbound): Host {
    if IsStale(h, it) then h
    else Host(if IsMove(it) then it.num else h.lastMove, Apply(p, h.meaning, it))
  }

  function TakeAll(p: Permissions, h: Host, items: seq<Inbound>): Host {
    if items == [] then h else Take(p, TakeAll(p, h, items[..|items| - 1]), items[|items| - 1])
  }

  /** One wake-up of the input thread: collapse the backlog, then take it in order. */
  function TakeBatch(p: Permissions, h: Host, batch: seq<Inbound>): Host {
    TakeAll(p, h, Coalesced(batch))
  }

  function TakeBatches(p: Permissions, h: Host, batches: seq<seq<Inbound>>): Host {
    if batches == [] then h
    else TakeBatch(p, TakeBatches(p, h, batches[..|batches| - 1]), batches[|batches| - 1])
  }

  // ---- an independent reading of the meaning -------------------------------------------------------

  /** The newest permitted move of the stream. */
  function LastMove(p: Permissions, items: seq<Inbound>): Option<Inbound> {
    if items == [] then None
    else
      var it := items[|items| - 1];
      if IsMove(it) && p.mouse then Some(it) else LastMove(p, items[..|items| - 1])
  }

  /** The permitted non-move events in order, each with the newest permitted move before it. */
  function Paired(p: Permissions, items: seq<Inbound>): seq<Applied> {
    if items == [] then []
    else
      var front, it := items[..|items| - 1], items[|items| - 1];
      Paired(p, front)
      + (if !IsMove(it) && Allowed(p, it.ev) then [Applied(it, LastMove(p, front))] else [])
  }

  /** Applying a stream to a fresh host gives every permitted event with the newest move before it. */
  lemma {:induction false} ApplyAllIsPairing(p: Permissions, items: seq<Inbound>)
    ensures ApplyAll(p, NOTHING_APPLIED, items) == Meaning(LastMove(p, items), Paired(p, items))
  {
    if items != [] {
      ApplyAllIsPairing(p, items[..|items| - 1]);
    }
  }

  lemma {:induction false} ApplyAllConcat(p: Permissions, m: Meaning, a: seq<Inbound>, b: seq<Inbound>)
    ensures ApplyAll(p, m, a + b) == ApplyAll(p, ApplyAll(p, m, a), b)
  {
    if b == [] {
      assert a + b == a;
    } else {
      assert (a + b)[..|a + b| - 1] == a + b[..|b| - 1];
      ApplyAllConcat(p, m, a, b[..|b| - 1]);
    }
  }

  lemma {:induction false} TakeAllConcat(p: Permissions, h: Host, a: seq<Inbound>, b: seq<Inbound>)
    ensures TakeAll(p, h, a + b) == TakeAll(p, TakeAll(p, h, a), b)
  {
    if b == [] {
      assert a + b == a;
    } else {
      assert (a + b)[..|a + b| - 1] == a + b[..|b| - 1];
      TakeAllConcat(p, h, a, b[..|b| - 1]);
    }
  }

  // ---- collapsing keeps the meaning ----------------------------------------------------------------

  /** Overwriting a move with the move right after it changes nothing the host can observe. */
  lemma MergeKeepsMeaning(p: Permissions, m: Meaning, q: seq<Inbound>, it: Inbound)
    ensures ApplyAll(p, m, Merge(IsMove, q, it)) == ApplyAll(p, m, q + [it])
  {
    assert (q + [it])[..|q|] == q;
    if IsMove(it) && |q| > 0 && IsMove(q[|q| - 1]) {
      var r := q[|q| - 1 := it];
      assert r[..|r| - 1] == q[..|q| - 1];
    }
  }

  lemma {:induction false} CoalescingKeepsMeaning(p: Permissions, m: Meaning, items: seq<Inbound>)
    ensures ApplyAll(p, m, Coalesced(items)) == ApplyAll(p, m, items)
  {
    if items != [] {
      var front, it := items[..|items| - 1], items[|items| - 1];
      CoalescingKeepsMeaning(p, m, front);
      MergeKeepsMeaning(p, m, Coalesced(front), it);
      var q := Coalesced(front) + [it];
      assert q[..|q| - 1] == Coalesced(front);
    }
  }

  lemma MergeSeparated<T>(isMove: T -> bool, q: seq<T>, it: T)
    requires Separated(isMove, q)
    ensures Separated(isMove, Merge(isMove, q, it))
  {
  }

  function NonMoves(items: seq<Inbound>): seq<Inbound> {
    if items == [] then []
    else
      NonMoves(items[..|items| - 1])
      + (if IsMove(items[|items| - 1]) then [] else [items[|items| - 1]])
  }

  /** Collapsing leaves no two neighbouring moves, keeps every non-move in order, and keeps the last event. */
  lemma {:induction false} CoalescedShape(items: seq<Inbound>)
    ensures Separated(IsMove, Coalesced(items))
    ensures NonMoves(Coalesced(items)) == NonMoves(items)
    ensures |Coalesced(items)| <= |items|
    ensures items != [] ==> Coalesced(items) != [] && Coalesced(items)[|Coalesced(items)| - 1] == items[|items| - 1]
  {
    if items != [] {
      var front, it := items[..|items| - 1], items[|items| - 1];
      CoalescedShape(front);
      var q := Coalesced(front);
      MergeSeparated(IsMove, q, it);
      var r := Coalesced(items);
      if IsMove(it) && |q| > 0 && IsMove(q[|q| - 1]) {
        assert r[..|r| - 1] == q[..|q| - 1];
      } else {
        assert r[..|r| - 1] == q;
      }
    }
  }

  // ---- streams whose numbers only grow -------------------------------------------------------------

  /** An input event carrying its unwrapped stamp number; the wire only shows `Wrap(n)`. */
  datatype Stamped = Stamped(n: nat, ev: Event)

  function OnWire(s: Stamped): Inbound {
    Inbound(Wrap(s.n), s.ev)
  }

  function AllOnWire(items: seq<Stamped>): (r: seq<Inbound>)
    ensures |r| == |items|
    ensures forall i :: 0 <= i < |r| ==> r[i] == OnWire(items[i])
  {
    seq(|items|, i requires 0 <= i < |items| => OnWire(items[i]))
  }

  predicate Increasing(items: seq<Stamped>) {
    forall i, j :: 0 <= i < j < |items| ==> items[i].n < items[j].n
  }

  /** Every event is newer than stamp `lo`, and every move is within half a window of it. */
  predicate InWindow(lo: nat, items: seq<Stamped>) {
    forall i :: 0 <= i < |items| ==>
      lo < items[i].n && (items[i].ev.MouseMove? ==> items[i].n < lo + HALF_WINDOW)
  }

  /** The stamp number of the newest move, or `lo` when there is none. */
  function NewestMove(lo: nat, items: seq<Stamped>): nat {
    if items == [] then lo
    else if items[|items| - 1].ev.MouseMove? then items[|items| - 1].n
    else NewestMove(lo, items[..|items| - 1])
  }

  lemma {:induction false} NewestMoveBounds(lo: nat, items: seq<Stamped>)
    requires Increasing(items) && InWindow(lo, items)
    ensures lo <= NewestMove(lo, items) < lo + HALF_WINDOW
    ensures items != [] ==> NewestMove(lo, items) <= items[|items| - 1].n
  {
    if items != [] && !items[|items| - 1].ev.MouseMove? {
      NewestMoveBounds(lo, items[..|items| - 1]);
    }
  }

  lemma ApplySnoc(p: Permissions, m: Meaning, items: seq<Stamped>, e: Stamped)
    ensures ApplyAll(p, m, AllOnWire(items + [e])) == Apply(p, ApplyAll(p, m, AllOnWire(items)), OnWire(e))
  {
    assert AllOnWire(items + [e])[..|items|] == AllOnWire(items);
  }

  lemma TakeSnoc(p: Permissions, h: Host, items: seq<Stamped>, e: Stamped)
    ensures TakeAll(p, h, AllOnWire(items + [e])) == Take(p, TakeAll(p, h, AllOnWire(items)), OnWire(e))
  {
    assert AllOnWire(items + [e])[..|items|] == AllOnWire(items);
  }

  /** In-window growing numbers are never stale, so the staleness check is invisible. */
  lemma {:induction false} NothingStale(p: Permissions, h: Host, lo: nat, items: seq<Stamped>)
    requires h.lastMove == Wrap(lo) && Increasing(items) && InWindow(lo, items)
    ensures TakeAll(p, h, AllOnWire(items))
            == Host(Wrap(NewestMove(lo, items)), ApplyAll(p, h.meaning, AllOnWire(items)))
  {
    if items != [] {
      var front, it := items[..|items| - 1], items[|items| - 1];
      NothingStale(p, h, lo, front);
      assert AllOnWire(items)[..|items| - 1] == AllOnWire(front);
      NewestMoveBounds(lo, front);
      if it.ev.MouseMove? {
        assert front != [] ==> front[|front| - 1].n < it.n;
        SeqBeforeIsOrder(it.n, NewestMove(lo, front));
      }
    }
  }

  predicate MoveStamp(s: Stamped) {
    s.ev.MouseMove?
  }

  /** The unwrapped image of collapsing. */
  function CoalescedStamps(items: seq<Stamped>): seq<Stamped> {
    if items == [] then []
    else Merge(MoveStamp, CoalescedStamps(items[..|items| - 1]), items[|items| - 1])
  }

  lemma {:induction false} CoalescedStampsMatch(items: seq<Stamped>)
    ensures AllOnWire(CoalescedStamps(items)) == Coalesced(AllOnWire(items))
  {
    if items != [] {
      CoalescedStampsMatch(items[..|items| - 1]);
      assert AllOnWire(items)[..|items| - 1] == AllOnWire(items[..|items| - 1]);
    }
  }

  lemma {:induction false} CoalescedStampsMembers(items: seq<Stamped>)
    ensures items != [] ==> CoalescedStamps(items) != []
    ensures forall i :: 0 <= i < |CoalescedStamps(items)| ==> CoalescedStamps(items)[i] in items
  {
    if items != [] {
      var front := items[..|items| - 1];
      CoalescedStampsMembers(front);
      assert forall s :: s in front ==> s in items;
    }
  }

  lemma {:induction false} CoalescedStampsIncreasing(items: seq<Stamped>)
    requires Increasing(items)
    ensures Increasing(CoalescedStamps(items))
  {
    if items != [] {
      var front, it := items[..|items| - 1], items[|items| - 1];
      CoalescedStampsIncreasing(front);
      CoalescedStampsMembers(front);
      var q := CoalescedStamps(front);
      assert forall s :: s in front ==> s.n < it.n;
      assert forall i :: 0 <= i < |q| ==> q[i].n < it.n;
    }
  }

  lemma CoalescedStampsInWindow(lo: nat, items: seq<Stamped>)
    requires InWindow(lo, items)
    ensures InWindow(lo, CoalescedStamps(items))
  {
    CoalescedStampsMembers(items);
    assert forall s :: s in items ==> lo < s.n && (s.ev.MouseMove? ==> s.n < lo + HALF_WINDOW);
  }

  lemma {:induction false} CoalescedStampsNewest(lo: nat, items: seq<Stamped>)
    ensures NewestMove(lo, CoalescedStamps(items)) == NewestMove(lo, items)
  {
    if items != [] {
      var front, it := items[..|items| - 1], items[|items| - 1];
      CoalescedStampsNewest(lo, front);
      if !it.ev.MouseMove? {
        assert CoalescedStamps(items)[..|CoalescedStamps(front)|] == CoalescedStamps(front);
      }
    }
  }

  /** One wake-up on in-window growing numbers applies exactly the backlog's meaning. */
  lemma BatchKeepsMeaning(p: Permissions, h: Host, lo: nat, items: seq<Stamped>)
    requires h.lastMove == Wrap(lo) && Increasing(items) && InWindow(lo, items)
    ensures TakeBatch(p, h, AllOnWire(items))
            == Host(Wrap(NewestMove(lo, items)), ApplyAll(p, h.meaning, AllOnWire(items)))
    ensures TakeBatch(p, h, AllOnWire(items)) == TakeAll(p, h, AllOnWire(items))
  {
    CoalescedStampsMatch(items);
    CoalescedStampsIncreasing(items);
    CoalescedStampsInWindow(lo, items);
    CoalescedStampsNewest(lo, items);
    NothingStale(p, h, lo, CoalescedStamps(items));
    NothingStale(p, h, lo, items);
    CoalescingKeepsMeaning(p, h.meaning, AllOnWire(items));
  }

  // ---- batching does not matter --------------------------------------------------------------------

  function Flatten<T>(batches: seq<seq<T>>): seq<T> {
    if batches == [] then [] else Flatten(batches[..|batches| - 1]) + batches[|batches| - 1]
  }

  function BatchesOnWire(batches: seq<seq<Stamped>>): (r: seq<seq<Inbound>>)
    ensures |r| == |batches|
    ensures forall i :: 0 <= i < |r| ==> r[i] == AllOnWire(batches[i])
  {
    seq(|batches|, i requires 0 <= i < |batches| => AllOnWire(batches[i]))
  }

  /** Each batch's moves lie within half a window of the newest move before that batch. */
  predicate BatchesInWindow(lo: nat, batches: seq<seq<Stamped>>) {
    forall k :: 0 <= k < |batches| ==> InWindow(NewestMove(lo, Flatten(batches[..k])), batches[k])
  }

  lemma {:induction false} NewestMoveConcat(lo: nat, a: seq<Stamped>, b: seq<Stamped>)
    ensures NewestMove(lo, a + b) == NewestMove(NewestMove(lo, a), b)
  {
    if b == [] {
      assert a + b == a;
    } else {
      assert (a + b)[..|a + b| - 1] == a + b[..|b| - 1];
      NewestMoveConcat(lo, a, b[..|b| - 1]);
    }
  }

  lemma IncreasingParts(a: seq<Stamped>, b: seq<Stamped>)
    requires Increasing(a + b)
    ensures Increasing(a) && Increasing(b)
  {
    assert forall i :: 0 <= i < |a| ==> (a + b)[i] == a[i];
    assert forall i :: 0 <= i < |b| ==> (a + b)[|a| + i] == b[i];
  }

  /** Adding one more wake-up after the arrivals `a` have been taken. */
  lemma OneMoreBatch(p: Permissions, h: Host, lo: nat, a: seq<Stamped>, last: seq<Stamped>)
    requires Increasing(last) && InWindow(NewestMove(lo, a), last)
    requires TakeAll(p, h, AllOnWire(a)) == Host(Wrap(NewestMove(lo, a)), ApplyAll(p, h.meaning, AllOnWire(a)))
    ensures TakeBatch(p, TakeAll(p, h, AllOnWire(a)), AllOnWire(last)) == TakeAll(p, h, AllOnWire(a + last))
            == Host(Wrap(NewestMove(lo, a + last)), ApplyAll(p, h.meaning, AllOnWire(a + last)))
  {
    assert AllOnWire(a + last) == AllOnWire(a) + AllOnWire(last);
    NewestMoveConcat(lo, a, last);
    BatchKeepsMeaning(p, TakeAll(p, h, AllOnWire(a)), NewestMove(lo, a), last);
    TakeAllConcat(p, h, AllOnWire(a), AllOnWire(last));
    ApplyAllConcat(p, h.meaning, AllOnWire(a), AllOnWire(last));
  }

  lemma FrontInWindow(lo: nat, batches: seq<seq<Stamped>>)
    requires BatchesInWindow(lo, batches) && batches != []
    ensures BatchesInWindow(lo, batches[..|batches| - 1])
    ensures InWindow(NewestMove(lo, Flatten(batches[..|batches| - 1])), batches[|batches| - 1])
  {
    var front := batches[..|batches| - 1];
    forall k | 0 <= k < |front|
      ensures InWindow(NewestMove(lo, Flatten(front[..k])), front[k])
    {
      assert front[..k] == batches[..k] && front[k] == batches[k];
    }
  }

  /** However the same arrivals are cut into wake-ups, the host ends in the state it reaches when it takes
      them one by one. */
  lemma {:induction false} BatchingDoesNotMatter(p: Permissions, h: Host, lo: nat, batches: seq<seq<Stamped>>)
    requires h.lastMove == Wrap(lo) && Increasing(Flatten(batches)) && BatchesInWindow(lo, batches)
    ensures TakeBatches(p, h, BatchesOnWire(batches)) == TakeAll(p, h, AllOnWire(Flatten(batches)))
            == Host(Wrap(NewestMove(lo, Flatten(batches))), ApplyAll(p, h.meaning, AllOnWire(Flatten(batches))))
  {
    if batches != [] {
      var n := |batches| - 1;
      var front, last := batches[..n], batches[n];
      IncreasingParts(Flatten(front), last);
      FrontInWindow(lo, batches);
      BatchingDoesNotMatter(p, h, lo, front);
      assert BatchesOnWire(batches)[..n] == BatchesOnWire(front);
      OneMoreBatch(p, h, lo, Flatten(front), last);
    }
  }

  /** Two cuts of the same arrivals are indistinguishable. */
  lemma AnyTwoBatchingsAgree(
    p: Permissions, h: Host, lo: nat, one: seq<seq<Stamped>>, other: seq<seq<Stamped>>)
    requires h.lastMove == Wrap(lo) && Flatten(one) == Flatten(other) && Increasing(Flatten(one))
    requires BatchesInWindow(lo, one) && BatchesInWindow(lo, other)
    ensures TakeBatches(p, h, BatchesOnWire(one)) == TakeBatches(p, h, BatchesOnWire(other))
  {
    BatchingDoesNotMatter(p, h, lo, one);
    BatchingDoesNotMatter(p, h, lo, other);
  }

  /** Exactly when the staleness check mistakes a later move for an old one and drops it. */
  lemma FarMoveIsDropped(p: Permissions, h: Host, lo: nat, far: Stamped)
    requires h.lastMove == Wrap(lo) && far.ev.MouseMove? && lo < far.n
    ensures IsStale(h, OnWire(far)) <==> (far.n - lo) % SEQ_MODULUS >= HALF_WINDOW
    ensures IsStale(h, OnWire(far)) ==> Take(p, h, OnWire(far)) == h
  {
    SeqBeforeExactly(far.n, lo);
  }
}

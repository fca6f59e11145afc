/** The viewer-to-host input pipeline as a machine of interleaved steps.

    A mouse position waits in a one-entry slot; every other event first moves that position into the
    control channel, under the slot's lock, and then follows it there. The writer drains the channel into
    a queue that collapses neighbouring moves, takes the slot, and seals the queue's front. The host's
    input thread takes sealed events in batches. A run is any sequence of steps; a step that is not
    possible changes nothing. */
module InputPipeline {
  import opened Wrappers
  import opened InputEvents
  import opened InputStale

  /** What travels on the control lane: a numbered input event or any other control message. */
  datatype Item = Input(event: Stamped) | Other(id: nat)

  predicate IsMoveItem(it: Item) {
    it.Input? && it.event.ev.MouseMove?
  }

  datatype Pipe = Pipe(
    slot: Option<Stamped>,     // newest position not queued yet
    held: Option<Stamped>,     // non-move whose sender is inside the slot's lock, position already queued
    channel: seq<Item>,        // unbounded channel from the senders to the writer
    deque: seq<Item>,          // the writer's queue
    sealed: seq<Item>,         // everything sealed so far, in wire order
    taken: nat,                // how much of `sealed` the host has taken
    host: Host,
    hostMove: nat,             // largest number among the moves handed to the host
    newest: nat,               // largest number stamped so far
    sent: seq<Stamped>,        // every input event, in the order its sender held the slot's lock
    queued: seq<Item>,         // every control message that is not a move, in channel order
    coalesced: nat)            // moves replaced by a newer one before they were sealed

  const EMPTY := Pipe(None, None, [], [], [], 0, FRESH_HOST, 0, 0, [], [], 0)

  datatype Step =
    | SendMove(move: Stamped)
    | LockSend(event: Stamped)
    | FinishSend
    | SendOther(id: nat)
    | DrainOne
    | TakeSlot
    | SealFront
    | WakeUp(count: nat)

  function Inputs(items: seq<Item>): seq<Stamped> {
    if items == [] then []
    else
      Inputs(items[..|items| - 1])
      + (if items[|items| - 1].Input? then [items[|items| - 1].event] else [])
  }

  /** The entry at the back of the queue is about to be overwritten. */
  predicate Overwrites(q: seq<Item>, it: Item) {
    IsMoveItem(it) && |q| > 0 && IsMoveItem(q[|q| - 1])
  }

  function Pushed(s: Pipe, it: Item): Pipe {
    s.(
    deque := Merge(IsMoveItem, s.deque, it),
    coalesced := s.coalesced + if Overwrites(s.deque, it) then 1 else 0)
  }

  function OptSeq<T>(o: Option<T>): seq<T> {
    if o.Some? then [o.value] else []
  }

  function Next(p: Permissions, s: Pipe, step: Step): Pipe {
    match step
    case SendMove(m) =>
      if s.held.Some? || !m.ev.MouseMove? then s
      else s.(
        slot := Some(m),
        newest := m.n,
        sent := s.sent + [m],
        coalesced := s.coalesced + if s.slot.Some? then 1 else 0)
    case LockSend(e) =>
      if s.held.Some? || e.ev.MouseMove? then s
      else s.(
        slot := None,
        held := Some(e),
        channel := s.channel + (if s.slot.Some? then [Input(s.slot.value)] else []),
        newest := e.n,
        sent := s.sent + [e])
    case FinishSend =>
      if s.held.None? then s
      else s.(
        held := None,
        channel := s.channel + [Input(s.held.value)],
        queued := s.queued + [Input(s.held.value)])
    case SendOther(id) =>
      s.(channel := s.channel + [Other(id)], queued := s.queued + [Other(id)])
    case DrainOne =>
      if s.channel == [] then s
      else Pushed(s, s.channel[0]).(channel := s.channel[1..])
    case TakeSlot =>
      if s.held.Some? || s.slot.None? then s
      else Pushed(s, Input(s.slot.value)).(slot := None)
    case SealFront =>
      if s.deque == [] then s
      else s.(sealed := s.sealed + [s.deque[0]], deque := s.deque[1..])
    case WakeUp(k) =>
      if k == 0 || s.taken + k > |s.sealed| then s
      else
        var batch := Inputs(s.sealed[s.taken..s.taken + k]);
        s.(
        taken := s.taken + k,
        host := TakeBatch(p, s.host, AllOnWire(batch)),
        hostMove := Top(s.hostMove, batch))
  }

  function Run(p: Permissions, s: Pipe, steps: seq<Step>): Pipe {
    if steps == [] then s else Next(p, Run(p, s, steps[..|steps| - 1]), steps[|steps| - 1])
  }

  // ---- every interleaving: order and backlog -------------------------------------------------------

  function NonMoveItems(items: seq<Item>): (r: seq<Item>)
    ensures |r| <= |items|
  {
    if items == [] then []
    else
      NonMoveItems(items[..|items| - 1])
      + (if IsMoveItem(items[|items| - 1]) then [] else [items[|items| - 1]])
  }

  lemma {:induction false} NonMovesConcat(a: seq<Item>, b: seq<Item>)
    ensures NonMoveItems(a + b) == NonMoveItems(a) + NonMoveItems(b)
  {
    if b == [] {
      assert a + b == a;
    } else {
      assert (a + b)[..|a + b| - 1] == a + b[..|b| - 1];
      NonMovesConcat(a, b[..|b| - 1]);
    }
  }

  function InChannel(s: Pipe): seq<Item> {
    s.channel + (if s.held.Some? then [Input(s.held.value)] else [])
  }

  /** Non-moves are on the way in channel order. */
  predicate InOrder(s: Pipe) {
    NonMoveItems(s.sealed) + NonMoveItems(s.deque) + NonMoveItems(s.channel) == s.queued
  }

  /** No move waits where a newer one could stand for it. */
  predicate Collapsed(s: Pipe) {
    && Separated(IsMoveItem, s.deque)
    && Separated(IsMoveItem, InChannel(s))
    && (InChannel(s) != [] ==> !IsMoveItem(InChannel(s)[|InChannel(s)| - 1]))
    && (s.held.Some? ==> s.slot.None? && !s.held.value.ev.MouseMove?)
    && (s.slot.Some? ==> s.slot.value.ev.MouseMove?)
  }

  lemma NonMovesMerge(q: seq<Item>, it: Item)
    ensures NonMoveItems(Merge(IsMoveItem, q, it)) == NonMoveItems(q) + NonMoveItems([it])
  {
    assert (q + [it])[..|q|] == q;
    if IsMoveItem(it) && |q| > 0 && IsMoveItem(q[|q| - 1]) {
      var r := q[|q| - 1 := it];
      assert r[..|r| - 1] == q[..|q| - 1];
    }
  }

  lemma NonMovesSnoc(q: seq<Item>, it: Item)
    ensures NonMoveItems(q + [it]) == NonMoveItems(q) + if IsMoveItem(it) then [] else [it]
  {
    assert (q + [it])[..|q|] == q;
  }

  lemma NonMovesHead(q: seq<Item>)
    requires q != []
    ensures NonMoveItems(q) == NonMoveItems([q[0]]) + NonMoveItems(q[1..])
  {
    NonMovesConcat([q[0]], q[1..]);
    assert q == [q[0]] + q[1..];
  }

  lemma Regroup<T>(a: seq<T>, b: seq<T>, x: seq<T>, c: seq<T>)
    ensures a + b + (x + c) == a + (b + x) + c
    ensures a + (x + b) + c == (a + x) + b + c
    ensures a + b + (c + x) == (a + b + c) + x
  {
  }

  lemma InOrderIntoChannel(p: Permissions, s: Pipe, step: Step)
    requires InOrder(s) && Collapsed(s) && (step.LockSend? || step.FinishSend? || step.SendOther?)
    requires Next(p, s, step) != s
    ensures InOrder(Next(p, s, step))
  {
    match step
    case LockSend(_) =>
      if s.slot.Some? {
        NonMovesSnoc(s.channel, Input(s.slot.value));
      } else {
        assert s.channel + [] == s.channel;
      }
    case FinishSend =>
      NonMovesSnoc(s.channel, Input(s.held.value));
      Regroup(NonMoveItems(s.sealed), NonMoveItems(s.deque), [Input(s.held.value)], NonMoveItems(s.channel));
    case SendOther(id) =>
      NonMovesSnoc(s.channel, Other(id));
      Regroup(NonMoveItems(s.sealed), NonMoveItems(s.deque), [Other(id)], NonMoveItems(s.channel));
  }

  lemma InOrderMoving(p: Permissions, s: Pipe, step: Step)
    requires InOrder(s) && Collapsed(s) && (step.DrainOne? || step.TakeSlot? || step.SealFront?)
    requires Next(p, s, step) != s
    ensures InOrder(Next(p, s, step))
  {
    match step
    case DrainOne =>
      NonMovesHead(s.channel);
      NonMovesMerge(s.deque, s.channel[0]);
      Regroup(NonMoveItems(s.sealed), NonMoveItems(s.deque), NonMoveItems([s.channel[0]]), NonMoveItems(s.channel[1..]));
    case TakeSlot =>
      NonMovesMerge(s.deque, Input(s.slot.value));
      assert NonMoveItems([Input(s.slot.value)]) == [];
    case SealFront =>
      NonMovesHead(s.deque);
      NonMovesConcat(s.sealed, [s.deque[0]]);
      Regroup(NonMoveItems(s.sealed), NonMoveItems(s.deque[1..]), NonMoveItems([s.deque[0]]), NonMoveItems(s.channel));
  }

  lemma InOrderStep(p: Permissions, s: Pipe, step: Step)
    requires InOrder(s) && Collapsed(s)
    ensures InOrder(Next(p, s, step))
  {
    if Next(p, s, step) != s {
      match step
      case SendMove(_) =>
      case WakeUp(_) =>
      case DrainOne => InOrderMoving(p, s, step);
      case TakeSlot => InOrderMoving(p, s, step);
      case SealFront => InOrderMoving(p, s, step);
      case _ => InOrderIntoChannel(p, s, step);
    }
  }

  lemma SeparatedSnoc(q: seq<Item>, it: Item)
    requires Separated(IsMoveItem, q) && (q != [] ==> !IsMoveItem(q[|q| - 1]))
    ensures Separated(IsMoveItem, q + [it])
  {
  }

  lemma CollapsedIntoChannel(p: Permissions, s: Pipe, step: Step)
    requires Collapsed(s) && (step.LockSend? || step.FinishSend? || step.SendOther?)
    ensures Collapsed(Next(p, s, step))
  {
    var t := Next(p, s, step);
    if t != s {
      match step
      case LockSend(e) =>
        assert InChannel(s) == s.channel;
        if s.slot.Some? {
          SeparatedSnoc(s.channel, Input(s.slot.value));
          assert InChannel(t) == s.channel + [Input(s.slot.value)] + [Input(e)];
        }
      case FinishSend => assert InChannel(t) == InChannel(s);
      case SendOther(id) =>
        var k := |s.channel|;
        assert InChannel(t)[..k] == s.channel;
        assert forall i :: 0 <= i < k ==> InChannel(s)[i] == s.channel[i];
    }
  }

  lemma CollapsedStep(p: Permissions, s: Pipe, step: Step)
    requires Collapsed(s)
    ensures Collapsed(Next(p, s, step))
  {
    var t := Next(p, s, step);
    if t != s {
      match step
      case DrainOne =>
        MergeSeparated(IsMoveItem, s.deque, s.channel[0]);
        assert InChannel(t) == InChannel(s)[1..];
      case TakeSlot => MergeSeparated(IsMoveItem, s.deque, Input(s.slot.value));
      case SealFront =>
      case WakeUp(_) =>
      case SendMove(_) =>
      case _ => CollapsedIntoChannel(p, s, step);
    }
  }

  lemma {:induction false} RunStaysCollapsed(p: Permissions, s: Pipe, steps: seq<Step>)
    requires InOrder(s) && Collapsed(s)
    ensures InOrder(Run(p, s, steps)) && Collapsed(Run(p, s, steps))
  {
    if steps != [] {
      RunStaysCollapsed(p, s, steps[..|steps| - 1]);
      InOrderStep(p, Run(p, s, steps[..|steps| - 1]), steps[|steps| - 1]);
      CollapsedStep(p, Run(p, s, steps[..|steps| - 1]), steps[|steps| - 1]);
    }
  }
}

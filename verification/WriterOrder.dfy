/** The scheduling loop as a run of the input pipeline: whatever video, bulk and the bucket do in between, control
    messages go the pipeline's way, so its order, completeness and bounds hold of the loop. */
module WriterOrder {
  import opened Wrappers
  import opened InputEvents
  import P = InputPipeline
  import InputBacklog
  import opened Runs
  import opened WriterLoop

  function Items(q: seq<Queued>): (r: seq<P.Item>)
    ensures |r| == |q| && forall i :: 0 <= i < |r| ==> r[i] == q[i].item
  {
    seq(|q|, i requires 0 <= i < |q| => q[i].item)
  }

  /** What the pipeline does in a turn of the loop, if anything. */
  function StepsIn(w: Writer, turn: Turn): seq<P.Step> {
    match turn
    case Queue(id) => [P.SendOther(id)]
    case Position(m) => [P.SendMove(m)]
    case Flush(e) => [P.LockSend(e)]
    case Finish => [P.FinishSend]
    case Receive => if w.phase.Gather? || w.phase.Drain? then [P.DrainOne] else []
    case WakeControl => if w.phase.Idle? then [P.DrainOne] else []
    case TakePosition => if w.phase.TakeFirst? || w.phase.TakeAgain? then [P.TakeSlot] else []
    case Send(size) => if w.phase.Choose? && 1 <= size <= MAX_UNIT then [P.SealFront] else []
    case _ => []
  }

  function StepsOf(turns: seq<Turn>): seq<P.Step> {
    if turns == [] then []
    else StepsOf(turns[..|turns| - 1]) + StepsIn(Run(STARTED, turns[..|turns| - 1]), turns[|turns| - 1])
  }

  /** Both hold the same control messages in the same places. */
  predicate Alike(w: Writer, s: P.Pipe) {
    && s.channel == Items(w.channel) && s.deque == Items(w.deque) && s.sealed == w.sealed
    && (if w.slot.Some? then w.slot.value.item.Input? && s.slot == Some(w.slot.value.item.event) else s.slot == None)
    && (if w.held.Some? then w.held.value.item.Input? && s.held == Some(w.held.value.item.event) else s.held == None)
  }

  function Pipe(w: Writer, s: P.Pipe, p: Permissions, turn: Turn): P.Pipe {
    if StepsIn(w, turn) == [] then s else P.Next(p, s, StepsIn(w, turn)[0])
  }

  lemma ItemsSnoc(q: seq<Queued>, x: Queued)
    ensures Items(q + [x]) == Items(q) + [x.item]
  {
  }

  lemma ItemsPush(q: seq<Queued>, x: Queued)
    ensures Items(Push(q, x)) == Merge(P.IsMoveItem, Items(q), x.item)
  {
  }

  lemma ItemsTail(q: seq<Queued>)
    requires q != []
    ensures Items(q[1..]) == Items(q)[1..] && Items(q)[0] == q[0].item
  {
  }

  lemma ReceivesAlike(p: Permissions, w: Writer, s: P.Pipe)
    requires Alike(w, s) && w.channel != []
    ensures Alike(Received(w), P.Next(p, s, P.DrainOne))
  {
    ItemsTail(w.channel);
    ItemsPush(w.deque, w.channel[0]);
  }

  lemma SendersAlike(p: Permissions, w: Writer, s: P.Pipe, turn: Turn)
    requires Alike(w, s) && Sends(turn)
    ensures Alike(Next(w, turn), Pipe(w, s, p, turn))
  {
    match turn
    case Queue(id) => ItemsSnoc(w.channel, Queued(P.Other(id), w.foreign));
    case Flush(_) =>
      if w.slot.Some? {
        ItemsSnoc(w.channel, w.slot.value);
      } else {
        assert w.channel + [] == w.channel && s.channel + [] == s.channel;
      }
    case Finish =>
      if w.held.Some? {
        ItemsSnoc(w.channel, w.held.value);
      } else {
        assert w.channel + [] == w.channel;
      }
    case Position(_) =>
  }

  lemma TakeAlike(p: Permissions, w: Writer, s: P.Pipe)
    requires Alike(w, s)
    ensures Alike(Next(w, TakePosition), Pipe(w, s, p, TakePosition))
  {
    if w.slot.Some? {
      ItemsPush(w.deque, w.slot.value);
    }
  }

  lemma SendAlike(p: Permissions, w: Writer, s: P.Pipe, size: nat)
    requires Alike(w, s)
    ensures Alike(Next(w, Send(size)), Pipe(w, s, p, Send(size)))
  {
    if w.deque != [] {
      ItemsTail(w.deque);
    }
  }

  lemma TurnAlike(p: Permissions, w: Writer, s: P.Pipe, turn: Turn)
    requires Alike(w, s)
    ensures Alike(Next(w, turn), Pipe(w, s, p, turn))
  {
    if Sends(turn) {
      SendersAlike(p, w, s, turn);
    } else if (turn.Receive? || turn.WakeControl?) && w.channel != [] {
      ReceivesAlike(p, w, s);
    } else if turn.TakePosition? {
      TakeAlike(p, w, s);
    } else if turn.Send? {
      SendAlike(p, w, s, turn.size);
    }
  }

  lemma RunMore(p: Permissions, steps: seq<P.Step>, more: seq<P.Step>)
    requires |more| <= 1
    ensures var s := P.Run(p, P.EMPTY, steps);
            P.Run(p, P.EMPTY, steps + more) == if more == [] then s else P.Next(p, s, more[0])
  {
    if more == [] {
      assert steps + more == steps;
    } else {
      assert (steps + more)[..|steps|] == steps;
    }
  }

  lemma StepsSnoc(turns: seq<Turn>)
    requires turns != []
    ensures var front, turn := turns[..|turns| - 1], turns[|turns| - 1];
            StepsOf(turns) == StepsOf(front) + StepsIn(Run(STARTED, front), turn)
  {
  }

  /** The pipeline takes each turn's step. */
  lemma PipelineFollows(p: Permissions, turns: seq<Turn>)
    requires turns != []
    ensures var front, turn := turns[..|turns| - 1], turns[|turns| - 1];
            P.Run(p, P.EMPTY, StepsOf(turns)) == Pipe(Run(STARTED, front), P.Run(p, P.EMPTY, StepsOf(front)), p, turn)
  {
    var front, turn := turns[..|turns| - 1], turns[|turns| - 1];
    StepsSnoc(turns);
    RunMore(p, StepsOf(front), StepsIn(Run(STARTED, front), turn));
  }

  /** Every run of the loop is a run of the pipeline. */
  lemma {:induction false} LoopIsPipeline(p: Permissions, turns: seq<Turn>)
    ensures Alike(Run(STARTED, turns), P.Run(p, P.EMPTY, StepsOf(turns)))
  {
    if turns != [] {
      var front, turn := turns[..|turns| - 1], turns[|turns| - 1];
      var w, steps := Run(STARTED, front), StepsOf(front);
      LoopIsPipeline(p, front);
      TurnAlike(p, w, P.Run(p, P.EMPTY, steps), turn);
      PipelineFollows(p, turns);
    }
  }

  /** What the senders hand over besides moves, in the order it reaches the channel. */
  function HandedOver(turns: seq<Turn>): seq<P.Item> {
    if turns == [] then []
    else HandedOver(turns[..|turns| - 1]) + HandedIn(Run(STARTED, turns[..|turns| - 1]), turns[|turns| - 1])
  }

  function HandedIn(w: Writer, turn: Turn): seq<P.Item> {
    match turn
    case Queue(id) => [P.Other(id)]
    case Finish => if w.held.Some? then [w.held.value.item] else []
    case _ => []
  }

  lemma QueuedInTurn(p: Permissions, w: Writer, s: P.Pipe, turn: Turn)
    requires Alike(w, s)
    ensures Pipe(w, s, p, turn).queued == s.queued + HandedIn(w, turn)
  {
  }

  lemma {:induction false} QueuedIsHandedOver(p: Permissions, turns: seq<Turn>)
    ensures P.Run(p, P.EMPTY, StepsOf(turns)).queued == HandedOver(turns)
  {
    if turns != [] {
      var front, turn := turns[..|turns| - 1], turns[|turns| - 1];
      QueuedIsHandedOver(p, front);
      LoopIsPipeline(p, front);
      QueuedInTurn(p, Run(STARTED, front), P.Run(p, P.EMPTY, StepsOf(front)), turn);
      PipelineFollows(p, turns);
    }
  }

  /** Whatever the rate, and whatever video and bulk units are sealed in between: every control message that is not
      a move is sealed in the order handed over, none lost and none twice, and waits in that order until then. */
  lemma ControlKeepsItsOrder(turns: seq<Turn>)
    ensures var w := Run(STARTED, turns);
            && P.NonMoveItems(w.sealed) <= HandedOver(turns)
            && P.NonMoveItems(w.sealed + Items(w.deque) + Items(w.channel)) == HandedOver(turns)
            && Separated(P.IsMoveItem, Items(w.deque))
  {
    var p := Permissions(true, true);
    LoopIsPipeline(p, turns);
    QueuedIsHandedOver(p, turns);
    InputBacklog.EveryInterleavingKeepsOrder(p, StepsOf(turns));
  }
}

/** The writer does not sleep on work: exactly when it waits, what every pass seals, and that a waiting control
    message is always on its way out. */
module WriterProgress {
  import opened Wrappers
  import opened InputEvents
  import P = InputPipeline
  import Lanes
  import opened Rates
  import opened Runs
  import opened WriterLoop

  /** In every run and at every rate, a look leads to waiting if and only if no control message is queued, there is
      no video, and no bulk that may go: none at all, or at a limited rate less than one token, counting what the
      rate has earned since the last refill. Otherwise the writer goes on to send. */
  lemma WaitsExactlyWhen(turns: seq<Turn>, rate: real, video: nat, bulk: nat)
    requires Run(STARTED, turns).phase.Decide? && rate >= 0.0
    ensures var w := Run(STARTED, turns);
            var v := Next(w, Look(rate, video, bulk));
            && (v.phase.Idle? <==>
                  && w.deque == [] && w.video + video == 0
                  && (w.bulk + bulk == 0 || (rate > 0.0 && w.tokens + (w.now - w.last) * rate < 1.0)))
            && (!v.phase.Idle? ==> v.phase.Drain?)
            && v.deque == w.deque && v.channel == w.channel && v.slot == w.slot && v.sealed == w.sealed
            && v.video == (if w.video > 0 then w.video else video) && v.bulk == if w.bulk > 0 then w.bulk else bulk
  {
    assert Grant(rate, Run(STARTED, turns).now - Run(STARTED, turns).last)
        == (Run(STARTED, turns).now - Run(STARTED, turns).last) * rate;
  }

  /** A look leaves the bucket alone at an unlimited rate and when there is no bulk; otherwise it grants what the rate
      has earned since the last refill, up to a quarter second's worth or one fragment, whichever is more. */
  lemma LookRefillsForBulkOnly(w: Writer, rate: real, video: nat, bulk: nat)
    requires w.phase.Decide? && rate >= 0.0
    ensures var v := Next(w, Look(rate, video, bulk));
            var earned := w.tokens + (w.now - w.last) * rate;
            if rate == 0.0 || w.bulk + bulk == 0 then v.tokens == w.tokens && v.last == w.last && v.granted == w.granted
            else
              && v.last == w.now && v.granted == w.granted + (w.now - w.last) * rate
              && v.tokens <= earned && (v.tokens <= rate * 0.25 || v.tokens <= Lanes.FRAGMENT as real)
              && (v.tokens == earned || (v.tokens >= rate * 0.25 && v.tokens >= Lanes.FRAGMENT as real))
  {
    assert Grant(rate, w.now - w.last) == (w.now - w.last) * rate;
  }

  lemma {:induction false} WaitsWithNothingToSend(turns: seq<Turn>)
    ensures var w := Run(STARTED, turns);
            w.phase.Idle? ==> w.deque == [] && w.video == 0
  {
    if turns != [] {
      WaitsWithNothingToSend(turns[..|turns| - 1]);
    }
  }

  /** In every run a message in progress is never replaced: its units go only by being sealed, one at a time. And a
      writer that waits takes what wakes it. */
  lemma MessagesInProgressAreKept(turns: seq<Turn>, turn: Turn)
    ensures var w := Run(STARTED, turns);
            var v := Next(w, turn);
            && (w.video > 0 ==>
                v.video == w.video || (turn.Send? && v.video == w.video - 1 && v.foreign == w.foreign + 1 && v.log == w.log))
            && (w.bulk > 0 ==> v.bulk == w.bulk || (turn.Send? && v.bulk == w.bulk - 1 && |v.log| == |w.log| + 1))
            && (w.phase.Idle? && turn.WakeVideo? ==> v.video == turn.units && v.phase.Gather?)
            && (w.phase.Idle? && w.bulk == 0 && turn.WakeBulk? ==> v.bulk == turn.units && v.phase.Gather?)
            && (w.phase.Idle? && turn.WakeTimeout? ==> v == w.(phase := Gather))
  {
    WaitsWithNothingToSend(turns);
  }

  /** In every run, every send seals exactly one unit: the oldest control message, or with none queued the next unit
      of video, or with neither one of bulk, which is paid for in full. */
  lemma EverySendSealsOne(turns: seq<Turn>, size: nat)
    requires Run(STARTED, turns).phase.Choose? && 1 <= size <= MAX_UNIT
    ensures var w := Run(STARTED, turns);
            var v := Next(w, Send(size));
            && v.phase.Gather? && |v.sealed| + v.foreign == |w.sealed| + w.foreign + 1
            && (w.deque != [] ==> v.sealed == w.sealed + [w.deque[0].item] && v.deque == w.deque[1..])
            && (w.deque == [] ==> v.video + v.bulk == w.video + w.bulk - 1)
            && (w.deque == [] && w.video > 0 ==> v.bulk == w.bulk && v.log == w.log)
            && (w.deque == [] && w.video == 0 ==> |v.log| == |w.log| + 1 && v.tokens == w.tokens - size as real)
  {
    EveryRunIsPrompt(turns);
  }

  /** What a message has waited is counted from when it was handed over: the units sealed by then are noted, a newer
      position keeps what is noted for the one it stands for, whether in the slot or in the queue, and the sealing
      counts what has been sealed since. */
  lemma WaitsAreCounted(turns: seq<Turn>, turn: Turn)
    ensures var w := Run(STARTED, turns);
            var v := Next(w, turn);
            && (turn.Queue? ==> v.channel == w.channel + [Queued(P.Other(turn.id), w.foreign)])
            && (turn.Position? && w.held.None? && turn.move.ev.MouseMove? ==>
                  v.slot == Some(Queued(P.Input(turn.move), if w.slot.Some? then w.slot.value.since else w.foreign)))
            && (turn.Flush? && w.held.None? && !turn.event.ev.MouseMove? ==> v.held == Some(Queued(P.Input(turn.event), w.foreign)))
            && (turn.Receive? && v.channel != w.channel ==>
                  if |v.deque| > |w.deque| then v.deque == w.deque + [w.channel[0]]
                  else |v.deque| == |w.deque| && v.deque[|v.deque| - 1].since == w.deque[|w.deque| - 1].since)
            && (turn.Send? && v.sealed != w.sealed ==>
                  w.foreign >= w.deque[0].since && v.waits == w.waits + [w.foreign - w.deque[0].since])
  {
    EveryRunIsPrompt(turns);
  }

  // ---- control messages ----------------------------------------------------------------------------

  /** A control message has been sealed since `sealed`, or is queued in a pass that has not sent yet. */
  predicate OnItsWay(w: Writer, sealed: nat) {
    |w.sealed| > sealed || (|w.sealed| == sealed && w.deque != [] && (w.phase.Decide? || Reserved(w)))
  }

  lemma OnItsWayStep(w: Writer, turn: Turn, sealed: nat)
    requires OnItsWay(w, sealed)
    ensures OnItsWay(Next(w, turn), sealed)
  {
  }

  /** Whatever comes after, and at whatever rates: once a control message is queued at the look, the writer neither
      waits nor begins another pass before it has sealed one. */
  lemma {:induction false} NoSleepOnControl(w: Writer, more: seq<Turn>)
    requires w.deque != [] && (w.phase.Decide? || Reserved(w))
    ensures OnItsWay(Run(w, more), |w.sealed|)
  {
    if more != [] {
      NoSleepOnControl(w, more[..|more| - 1]);
      OnItsWayStep(Run(w, more[..|more| - 1]), more[|more| - 1], |w.sealed|);
    }
  }

  lemma TakenThenSent(w: Writer, size: nat)
    requires w.phase.TakeAgain? && w.deque != [] && w.held.None? && 1 <= size <= MAX_UNIT
    ensures var v := Next(Next(w, TakePosition), Send(size));
            && |v.sealed| == |w.sealed| + 1 && v.sealed[..|w.sealed|] == w.sealed
            && (!P.IsMoveItem(w.deque[0].item) ==> v.sealed[|w.sealed|] == w.deque[0].item)
            && |v.waits| == |w.waits| + 1 && v.foreign == w.foreign
  {
  }

  /** One complete pass, with nothing new on the channel: it seals the oldest message queued, or a newer position in
      its place, whatever the rate and whatever video and bulk are there. */
  lemma PassSealsControl(w: Writer, rate: real, video: nat, bulk: nat, size: nat)
    requires w.phase.Decide? && w.deque != [] && w.channel == [] && w.held.None? && rate >= 0.0 && 1 <= size <= MAX_UNIT
    ensures var v := Run(w, [Look(rate, video, bulk), ChannelEmpty, TakePosition, Send(size)]);
            && |v.sealed| == |w.sealed| + 1 && v.sealed[..|w.sealed|] == w.sealed
            && (!P.IsMoveItem(w.deque[0].item) ==> v.sealed[|w.sealed|] == w.deque[0].item)
            && |v.waits| == |w.waits| + 1 && v.foreign == w.foreign
  {
    FoldFour(Next, w, Look(rate, video, bulk), ChannelEmpty, TakePosition, Send(size));
    TakenThenSent(Next(Next(w, Look(rate, video, bulk)), ChannelEmpty), size);
  }

  /** What the writer does next when left to itself. */
  function OwnTurn(w: Writer): Turn {
    match w.phase
    case Gather => if w.channel != [] then Receive else ChannelEmpty
    case TakeFirst => TakePosition
    case Decide => Look(0.0, 0, 0)
    case Idle => if w.channel != [] then WakeControl else WakeTimeout
    case Drain => if w.channel != [] then Receive else ChannelEmpty
    case TakeAgain => TakePosition
    case Choose => Send(1)
  }

  /** A control message waits somewhere. */
  predicate Waiting(w: Writer) {
    w.deque != [] || w.channel != [] || w.slot.Some?
  }

  /** How far the next control message is from being sealed: first until one is queued, then until it is sent. */
  function Tier(w: Writer): nat {
    if w.deque == [] then 1 else 0
  }

  function Ahead(w: Writer): nat {
    if w.deque == [] then
      match w.phase
      case TakeAgain => if w.slot.Some? then 1 else 11
      case Choose => 10
      case TakeFirst => if w.slot.Some? then 4 else 9
      case Decide => 8
      case Idle => 7
      case Drain => 6
      case Gather => 5
    else
      match w.phase
      case Idle => 7
      case Gather => 6
      case TakeFirst => 5
      case Decide => 4
      case Drain => 3
      case TakeAgain => 2
      case Choose => 1
  }

  /** By `v` a message has been sealed, or the next one is closer than in `w`. */
  predicate Closer(w: Writer, v: Writer) {
    || |v.sealed| > |w.sealed|
    || (&& v.sealed == w.sealed && Waiting(v) && v.held.None?
        && (|| Tier(v) < Tier(w)
            || (Tier(v) == Tier(w) && Ahead(v) < Ahead(w))
            || (Tier(v) == Tier(w) && Ahead(v) == Ahead(w) && |v.channel| < |w.channel|)))
  }

  lemma ReceivedGetsCloser(w: Writer)
    requires w.channel != [] && w.held.None? && (w.phase.Gather? || w.phase.Drain?)
    ensures Closer(w, Next(w, Receive))
  {
    assert Push(w.deque, w.channel[0]) != [];
  }

  lemma QueuedGetsCloser(w: Writer)
    requires w.deque != [] && w.held.None? && !OwnTurn(w).Receive?
    ensures Closer(w, Next(w, OwnTurn(w)))
  {
  }

  lemma UnqueuedGetsCloser(w: Writer)
    requires w.deque == [] && Waiting(w) && w.held.None?
    ensures Closer(w, Next(w, OwnTurn(w)))
  {
  }

  predicate OnlyOwn(turns: seq<Turn>) {
    forall i :: 0 <= i < |turns| ==> !Sends(turns[i]) && !turns[i].Tick?
  }

  /** The writer is never stuck: wherever it is, with no sender inside the lock, its own turns alone, without any
      time passing, seal a control message if one waits anywhere. */
  lemma {:induction false} ControlGoesOut(w: Writer) returns (turns: seq<Turn>)
    requires Waiting(w) && w.held.None?
    ensures OnlyOwn(turns) && |Run(w, turns).sealed| > |w.sealed|
    decreases Tier(w), Ahead(w), |w.channel|
  {
    var v := Next(w, OwnTurn(w));
    if OwnTurn(w).Receive? {
      ReceivedGetsCloser(w);
    } else if w.deque != [] {
      QueuedGetsCloser(w);
    } else {
      UnqueuedGetsCloser(w);
    }
    FoldOne(Next, w, OwnTurn(w));
    turns := [OwnTurn(w)];
    if |v.sealed| == |w.sealed| {
      var rest := ControlGoesOut(v);
      FoldCat(Next, w, turns, rest);
      turns := turns + rest;
    }
  }
}

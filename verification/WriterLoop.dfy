/** The writer's scheduling loop: control first, then video, then bulk within a token budget.

    The loop is split at every point where other tasks can act: between single receives, between the drain
    and the slot, and across the wait for room on the link. A step that is not possible in the present
    phase changes nothing, so every sequence of steps is a run. The bulk rate is read anew at every look;
    zero means unlimited. */
module WriterLoop {
  import opened Wrappers
  import opened InputEvents
  import opened InputPipeline
  import opened Lanes
  import opened Rates
  import opened Runs

  /** Largest unit on the bulk lane: a header byte and one fragment. */
  const MAX_UNIT: nat := FRAGMENT + 1

  // ---- the token bucket ----------------------------------------------------------------------------

  /** Burst allowance: a quarter second, and never less than one fragment. */
  function Burst(rate: real): real {
    if rate * 0.25 >= FRAGMENT as real then rate * 0.25 else FRAGMENT as real
  }

  function Refill(rate: real, tokens: real, grant: real): real {
    if tokens + grant <= Burst(rate) then tokens + grant else Burst(rate)
  }

  class Bucket {
    var tokens: real
    var last: real

    constructor (now: real)
      ensures tokens == 0.0 && last == now
    {
      tokens, last := 0.0, now;
    }

    /** Whether there is a token; an unlimited rate leaves the bucket alone. */
    method HasToken(rate: real, now: real) returns (ok: bool)
      modifies this
      ensures rate == 0.0 ==> ok && tokens == old(tokens) && last == old(last)
      ensures rate != 0.0 ==>
                && tokens == Refill(rate, old(tokens), Grant(rate, now - old(last))) && last == now
                && (ok <==> tokens >= 1.0)
    {
      if rate == 0.0 {
        return true;
      }
      var cap := if rate * 0.25 >= FRAGMENT as real then rate * 0.25 else FRAGMENT as real;
      tokens := tokens + (now - last) * rate;
      if cap < tokens {
        tokens := cap;
      }
      last := now;
      ok := tokens >= 1.0;
    }
  }

  // ---- the loop ------------------------------------------------------------------------------------

  datatype Phase =
    | Gather       // receiving control messages at the top of the loop
    | TakeFirst    // channel seen empty; about to take the slot
    | Decide       // about to look at video, bulk and the bucket
    | Idle         // nothing to send: waiting for an arrival or a timeout
    | Drain        // room on the link is being waited for, then control messages are received again
    | TakeAgain    // channel seen empty again; about to take the slot
    | Choose       // about to pick what to send

  /** A control message, and how many other units had been sealed when it, or the oldest position it stands
      for, was handed over. */
  datatype Queued = Queued(item: Item, since: nat)

  /** A bulk unit sealed at `at`, for which the bucket was checked at `check`; by then the bucket had been
      granted `granted` bytes in all, not counting the cap. */
  datatype BulkUnit = BulkUnit(bytes: nat, check: real, at: real, granted: real)

  datatype Writer = Writer(
    phase: Phase,
    slot: Option<Queued>,
    held: Option<Queued>,    // an event whose sender is inside the slot's lock, position already queued
    channel: seq<Queued>,
    deque: seq<Queued>,
    video: nat,              // units left of the video message in progress
    bulk: nat,               // units left of the bulk message in progress
    rate: real,              // the bulk rate read at the last look
    tokens: real,
    last: real,              // when the bucket was last refilled
    granted: real,           // bytes granted by all refills so far, not counting the cap
    now: real,
    foreign: nat,            // video and bulk units sealed so far
    sealed: seq<Item>,       // the control messages sealed so far
    waits: seq<nat>,         // for every control message sealed, the foreign units sealed while it waited
    log: seq<BulkUnit>)

  const STARTED := Writer(Gather, None, None, [], [], 0, 0, 0.0, 0.0, 0.0, 0.0, 0.0, 0, [], [], [])

  datatype Turn =
    | Tick(dt: real)
    | Queue(id: nat)                     // a sender queues a control message that is not an input event
    | Position(move: Stamped)            // a sender replaces the waiting position
    | Flush(event: Stamped)              // a sender enters the slot's lock and queues the waiting position
    | Finish                             // and then its event, and leaves the lock
    | Receive                            // the writer receives one control message
    | ChannelEmpty                       // the writer sees the channel empty
    | TakePosition
    | Look(rate: real, video: nat, bulk: nat) // pull new messages if there is room, then check the bucket
    | WakeControl
    | WakeVideo(units: nat)
    | WakeBulk(units: nat)
    | WakeTimeout
    | Send(size: nat)                    // pick and seal one unit; `size` is its length on the bulk lane

  /** A move replaces a move at the back of the queue, but has waited as long as that one. */
  function Push(q: seq<Queued>, x: Queued): seq<Queued> {
    if IsMoveItem(x.item) && q != [] && IsMoveItem(q[|q| - 1].item)
    then q[|q| - 1 := Queued(x.item, q[|q| - 1].since)] else q + [x]
  }

  function Received(w: Writer): Writer
    requires w.channel != []
  {
    w.(deque := Push(w.deque, w.channel[0]), channel := w.channel[1..])
  }

  function Looked(rate: real, w: Writer, video: nat, bulk: nat): Writer {
    var v := if w.video == 0 then video else w.video;
    var b := if w.bulk == 0 then bulk else w.bulk;
    var limited := b > 0 && rate != 0.0;
    var grant := if limited then Grant(rate, w.now - w.last) else 0.0;
    var tokens := if limited then Refill(rate, w.tokens, grant) else w.tokens;
    var bulkOk := b > 0 && (rate == 0.0 || tokens >= 1.0);
    w.(
    video := v,
    bulk := b,
    rate := rate,
    tokens := tokens,
    last := if limited then w.now else w.last,
    granted := w.granted + grant,
    phase := if w.deque == [] && v == 0 && !bulkOk then Idle else Drain)
  }

  function Sent(w: Writer, size: nat): Writer {
    if w.deque != [] then
      w.(
      deque := w.deque[1..],
      sealed := w.sealed + [w.deque[0].item],
      waits := w.waits + [if w.foreign >= w.deque[0].since then w.foreign - w.deque[0].since else 0],
      phase := Gather)
    else if w.video > 0 then w.(video := w.video - 1, foreign := w.foreign + 1, phase := Gather)
    else if w.bulk > 0 then
      w.(
      bulk := w.bulk - 1,
      tokens := w.tokens - size as real,
      foreign := w.foreign + 1,
      log := w.log + [BulkUnit(size, w.last, w.now, w.granted)],
      phase := Gather)
    else w.(phase := Gather)
  }

  function Next(w: Writer, turn: Turn): Writer {
    match turn
    case Tick(dt) => if dt >= 0.0 then w.(now := w.now + dt) else w
    case Queue(id) => w.(channel := w.channel + [Queued(Other(id), w.foreign)])
    case Position(m) =>
      if w.held.Some? || !m.ev.MouseMove? then w
      else w.(slot := Some(Queued(Input(m), if w.slot.Some? then w.slot.value.since else w.foreign)))
    case Flush(e) =>
      if w.held.Some? || e.ev.MouseMove? then w
      else w.(channel := w.channel + OptSeq(w.slot), slot := None, held := Some(Queued(Input(e), w.foreign)))
    case Finish => w.(channel := w.channel + OptSeq(w.held), held := None)
    case Receive =>
      if w.channel != [] && (w.phase.Gather? || w.phase.Drain?) then Received(w) else w
    case ChannelEmpty =>
      if w.channel != [] then w
      else if w.phase.Gather? then w.(phase := TakeFirst)
      else if w.phase.Drain? then w.(phase := TakeAgain)
      else w
    case TakePosition =>
      if w.held.Some? || (!w.phase.TakeFirst? && !w.phase.TakeAgain?) then w
      else
        var v := w.(phase := if w.phase.TakeFirst? then Decide else Choose);
        if w.slot.Some? then v.(deque := Push(w.deque, w.slot.value), slot := None) else v
    case Look(rate, v, b) => if w.phase.Decide? && rate >= 0.0 then Looked(rate, w, v, b) else w
    case WakeControl => if w.phase.Idle? && w.channel != [] then Received(w).(phase := Gather) else w
    case WakeVideo(v) => if w.phase.Idle? then w.(video := v, phase := Gather) else w
    case WakeBulk(b) => if w.phase.Idle? && w.bulk == 0 then w.(bulk := b, phase := Gather) else w
    case WakeTimeout => if w.phase.Idle? then w.(phase := Gather) else w
    case Send(size) => if w.phase.Choose? && 1 <= size <= MAX_UNIT then Sent(w, size) else w
  }

  function Run(w: Writer, turns: seq<Turn>): Writer {
    Fold(Next, w, turns)
  }

  /** The loop's own variables: what it decides and what it picks. */
  class Scheduler {
    const bucket: Bucket
    var deque: seq<Queued>
    var video: nat
    var bulk: nat

    ghost predicate Shows(w: Writer)
      reads this, bucket
    {
      && deque == w.deque && video == w.video && bulk == w.bulk
      && bucket.tokens == w.tokens && bucket.last == w.last
    }

    constructor (now: real)
      ensures fresh(bucket) && Shows(STARTED.(now := now, last := now))
    {
      bucket := new Bucket(now);
      deque, video, bulk := [], 0, 0;
    }

    /** Pulls new messages if there is room, and says whether there is nothing to send. */
    method Look(rate: real, newVideo: nat, newBulk: nat, ghost w: Writer, now: real) returns (idle: bool)
      requires Shows(w) && now == w.now
      modifies this, bucket
      ensures Shows(Looked(rate, w, newVideo, newBulk)) && (idle <==> Looked(rate, w, newVideo, newBulk).phase.Idle?)
    {
      if video == 0 {
        video := newVideo;
      }
      if bulk == 0 {
        bulk := newBulk;
      }
      var bulkOk := false;
      if bulk > 0 {
        bulkOk := bucket.HasToken(rate, now);
      }
      idle := deque == [] && video == 0 && !bulkOk;
    }

    /** Picks one unit: control before video before bulk, which is charged for in full, into debt if need be. */
    method SendUnit(size: nat, ghost w: Writer) returns (lane: Option<nat>)
      requires Shows(w)
      modifies this, bucket`tokens
      ensures Shows(Sent(w, size))
      ensures lane == if w.deque != [] then Some(LANE_CTL) else if w.video > 0 then Some(LANE_VIDEO)
                      else if w.bulk > 0 then Some(LANE_BULK) else None
    {
      if deque != [] {
        deque := deque[1..];
        return Some(LANE_CTL);
      }
      if video > 0 {
        video := video - 1;
        return Some(LANE_VIDEO);
      }
      if bulk > 0 {
        bulk := bulk - 1;
        bucket.tokens := bucket.tokens - size as real;
        return Some(LANE_BULK);
      }
      lane := None;
    }
  }

  // ---- priority ------------------------------------------------------------------------------------

  predicate Reserved(w: Writer) {
    w.phase.Drain? || w.phase.TakeAgain? || w.phase.Choose?
  }

  /** Once past the decision, there is control or video to send, or bulk with a token or without a limit. */
  predicate WorthSending(w: Writer) {
    Reserved(w) ==> w.deque != [] || w.video > 0 || (w.bulk > 0 && (w.rate == 0.0 || w.tokens >= 1.0))
  }

  /** At most `n` foreign units have been sealed since it was handed over. */
  predicate WaitedFor(w: Writer, x: Queued, n: nat) {
    x.since <= w.foreign <= x.since + n
  }

  /** Everything still waiting has let at most one foreign unit pass, and nothing that comes after the last
      drain, or a position or a sender in the lock after the first take, any at all. */
  predicate Prompt(w: Writer) {
    && (forall i :: 0 <= i < |w.deque| ==> WaitedFor(w, w.deque[i], 1))
    && (forall i :: 0 <= i < |w.channel| ==>
          WaitedFor(w, w.channel[i], if w.phase.TakeAgain? || w.phase.Choose? then 0 else 1))
    && (w.slot.Some? ==> WaitedFor(w, w.slot.value, if w.phase.Gather? || w.phase.TakeFirst? then 1 else 0))
    && (w.held.Some? ==> WaitedFor(w, w.held.value, if w.phase.Gather? || w.phase.TakeFirst? then 1 else 0))
    && (forall i :: 0 <= i < |w.waits| ==> w.waits[i] <= 1)
  }

  lemma WorthStep(w: Writer, turn: Turn)
    requires WorthSending(w)
    ensures WorthSending(Next(w, turn))
  {
  }

  lemma PromptPush(w: Writer, x: Queued)
    requires Prompt(w) && WaitedFor(w, x, 1)
    ensures forall i :: 0 <= i < |Push(w.deque, x)| ==> WaitedFor(w, Push(w.deque, x)[i], 1)
  {
  }

  predicate Sends(turn: Turn) {
    turn.Queue? || turn.Position? || turn.Flush? || turn.Finish?
  }

  lemma PromptSends(w: Writer, turn: Turn)
    requires Prompt(w) && Sends(turn)
    ensures Prompt(Next(w, turn))
  {
  }

  lemma PromptReceives(w: Writer, turn: Turn)
    requires Prompt(w) && (turn.Receive? || turn.WakeControl? || turn.ChannelEmpty? || turn.TakePosition?)
    ensures Prompt(Next(w, turn))
  {
    if (turn.Receive? || turn.WakeControl?) && w.channel != [] {
      PromptPush(w, w.channel[0]);
    } else if turn.TakePosition? && w.slot.Some? {
      PromptPush(w, w.slot.value);
    }
  }

  lemma PromptStep(w: Writer, turn: Turn)
    requires Prompt(w)
    ensures Prompt(Next(w, turn))
  {
    if Sends(turn) {
      PromptSends(w, turn);
    } else if turn.Receive? || turn.WakeControl? || turn.ChannelEmpty? || turn.TakePosition? {
      PromptReceives(w, turn);
    }
  }

  lemma {:induction false} EveryRunIsPrompt(turns: seq<Turn>)
    ensures Prompt(Run(STARTED, turns)) && WorthSending(Run(STARTED, turns))
  {
    if turns != [] {
      EveryRunIsPrompt(turns[..|turns| - 1]);
      PromptStep(Run(STARTED, turns[..|turns| - 1]), turns[|turns| - 1]);
      WorthStep(Run(STARTED, turns[..|turns| - 1]), turns[|turns| - 1]);
    }
  }

  /** At any rates, limited or not and changing at will: between the handing over of a control message, or of
      the position it stands for, and its sealing, at most one video or bulk unit is sealed; and what still
      waits has let at most one pass. */
  lemma AtMostOneUnitOvertakesControl(turns: seq<Turn>)
    ensures var w := Run(STARTED, turns);
            && (forall i :: 0 <= i < |w.waits| ==> w.waits[i] <= 1)
            && (forall i :: 0 <= i < |w.channel| ==> WaitedFor(w, w.channel[i], 1))
            && (forall i :: 0 <= i < |w.deque| ==> WaitedFor(w, w.deque[i], 1))
            && (w.slot.Some? ==> WaitedFor(w, w.slot.value, 1))
            && (w.held.Some? ==> WaitedFor(w, w.held.value, 1))
  {
    EveryRunIsPrompt(turns);
  }

  /** A bulk unit is only ever chosen when nothing of higher priority had arrived by the last drain, and, if
      the rate read at the last look was limited, with at least one token. */
  lemma BulkNeedsToken(turns: seq<Turn>, size: nat)
    ensures var w := Run(STARTED, turns);
            var v := Next(w, Send(size));
            |v.log| > |w.log| ==> w.deque == [] && w.video == 0 && (w.rate != 0.0 ==> w.tokens >= 1.0)
  {
    EveryRunIsPrompt(turns);
  }
}

/** What every interleaving of a transfer keeps, and when a transfer succeeds. */
module TransferSafety {
  import opened Wrappers
  import opened Octets
  import opened Files
  import opened Transfer

  /** Every attempt is offered, waits and is admitted at most once. */
  predicate OnceEach(w: World) {
    && (forall id :: id in w.waiting ==> id < w.next && id !in w.admitted)
    && (forall id :: id in w.admitted ==> id < w.next)
    && (forall i :: 0 <= i < |w.control| && w.control[i].Offer? ==>
          w.control[i].id < w.next && w.control[i].id !in w.waiting && w.control[i].id !in w.admitted)
    && (forall i, k :: 0 <= i < k < |w.control| && w.control[i].Offer? && w.control[k].Offer? ==>
          w.control[i].id != w.control[k].id)
    && (w.attempt.Some? ==> w.attempt.value.id < w.next)
  }

  /** Each acceptance under way is the only one of its attempt and still states the right offset. */
  predicate AcceptsOnce(w: World) {
    && (forall i :: 0 <= i < |w.answers| && w.answers[i].Accept? ==>
          && w.answers[i].id in w.admitted && w.answers[i].id !in w.sent
          && (w.live.Some? && w.live.value.id == w.answers[i].id ==> w.answers[i].resumeFrom == w.live.value.received))
    && (forall i, k :: 0 <= i < k < |w.answers| && w.answers[i].Accept? && w.answers[k].Accept? ==>
          w.answers[i].id != w.answers[k].id)
  }

  predicate Streams(j: Job, w: World) {
    && (forall i :: 0 <= i < |w.bulk| ==> w.bulk[i].id in w.sent)
    && (forall id :: id in w.sent ==> id in w.admitted)
    && (w.attempt.Some? ==>
          match w.attempt.value.status
          case Pending => w.attempt.value.id !in w.sent
          case Streaming => w.attempt.value.id in w.sent && w.sent[w.attempt.value.id] <= |j.source|
          case _ => true)
    && (forall id :: id in w.stray ==>
          && id in w.sent && w.sent[id] <= |j.source|
          && w.attempt.Some? && (w.attempt.value.id == id ==> w.attempt.value.status == Over))
  }

  /** What is under way for the open part file continues it without a gap. */
  predicate Continues(j: Job, w: World) {
    w.live.Some? ==>
      && w.live.value.id in w.admitted
      && (w.live.value.id in w.sent ==>
            Flows(j, w.bulk, w.live.value.id, w.live.value.received, w.sent[w.live.value.id]))
  }

  /** An open part file holds exactly what was received, never more than the file. */
  predicate PartIsReceived(j: Job, w: World) {
    w.live.Some? ==> w.part.Some? && |w.part.value| == w.live.value.received <= |j.source| && w.target.None?
  }

  predicate Orderly(j: Job, w: World) {
    OnceEach(w) && AcceptsOnce(w) && Streams(j, w) && Continues(j, w) && PartIsReceived(j, w)
  }

  lemma OfferKeeps(j: Job, w: World)
    requires Orderly(j, w)
    ensures Orderly(j, Next(j, w, StartOffer))
  {
  }

  lemma TakingOfferKeeps(j: Job, w: World)
    requires Orderly(j, w) && w.control != [] && w.control[0].Offer?
    ensures Orderly(j, OnOffer(j, w.(control := w.control[1..]), w.control[0].id))
  {
  }

  lemma ControlKeeps(j: Job, w: World)
    requires Orderly(j, w)
    ensures Orderly(j, Next(j, w, TakeControl))
  {
    if w.control != [] && w.control[0].Offer? {
      TakingOfferKeeps(j, w);
    }
  }

  lemma ApproveKeeps(j: Job, w: World, id: Id)
    requires Orderly(j, w)
    ensures Orderly(j, Next(j, w, Approve(id)))
  {
    OpenedPartIsKept(w.part, |j.source|, w.part.Some?);
  }

  lemma DeclineKeeps(j: Job, w: World, id: Id)
    requires Orderly(j, w)
    ensures Orderly(j, Next(j, w, Decline(id)))
  {
  }

  lemma TakingAnswerKeeps(j: Job, w: World)
    requires Orderly(j, w) && w.answers != []
    ensures Orderly(j, w.(answers := w.answers[1..]))
    ensures forall i :: 1 <= i < |w.answers| && w.answers[i].Accept? && w.answers[0].Accept? ==> w.answers[i].id != w.answers[0].id
  {
  }

  lemma StoppingKeeps(j: Job, w: World)
    requires Orderly(j, w)
    ensures Orderly(j, Stopped(w))
  {
  }

  lemma AcceptKeeps(j: Job, w: World, id: Id, from: nat)
    requires Orderly(j, w) && id in w.admitted && id !in w.sent && w.attempt == Some(Attempt(id, Pending))
    requires w.live.Some? && w.live.value.id == id ==> from == w.live.value.received
    requires forall i :: 0 <= i < |w.answers| && w.answers[i].Accept? ==> w.answers[i].id != id
    ensures Orderly(j, OnAnswer(j, w, Accept(id, from)))
  {
    FlowsNothing(j, w.bulk, id, from);
  }

  lemma AnswerKeeps(j: Job, w: World)
    requires Orderly(j, w)
    ensures Orderly(j, Next(j, w, TakeAnswer))
  {
    if w.answers != [] {
      var rest, m := w.(answers := w.answers[1..]), w.answers[0];
      TakingAnswerKeeps(j, w);
      StoppingKeeps(j, rest);
      if m.Accept? && w.attempt == Some(Attempt(m.id, Pending)) {
        assert forall i :: 0 <= i < |rest.answers| ==> rest.answers[i] == w.answers[i + 1];
        AcceptKeeps(j, rest, m.id, m.resumeFrom);
      }
    }
  }

  lemma SentKeeps(j: Job, w: World, id: Id, length: nat)
    requires Orderly(j, w) && MayRead(j, w, id, length)
    ensures Orderly(j, Sent(j, w, id, length))
  {
    if w.live.Some? && w.live.value.id in w.sent {
      var m := Chunk(id, w.sent[id], Slice(j, w.sent[id], length));
      var live := w.live.value;
      if live.id == id {
        FlowsSnoc(j, w.bulk, m, id, live.received, w.sent[id], w.sent[id] + length);
      } else {
        FlowsPast(j, w.bulk, m, live.id, live.received, w.sent[live.id]);
      }
    }
  }

  lemma DoneKeeps(j: Job, w: World)
    requires Orderly(j, w)
    ensures Orderly(j, Next(j, w, SendDone))
  {
    if w.attempt.Some? && w.live.Some? && w.live.value.id in w.sent {
      var id, live := w.attempt.value.id, w.live.value;
      var m := Done(id, j.hash(j.source));
      if live.id == id {
        if w.sent[id] == |j.source| {
          FlowsSnoc(j, w.bulk, m, id, live.received, w.sent[id], |j.source| + 1);
        }
      } else {
        FlowsPast(j, w.bulk, m, live.id, live.received, w.sent[live.id]);
      }
    }
  }

  lemma StrayDoneKeeps(j: Job, w: World, id: Id)
    requires Orderly(j, w)
    ensures Orderly(j, Next(j, w, StrayDone(id)))
  {
    if w.live.Some? && id in w.stray && id in w.sent && w.sent[id] == |j.source| {
      var live, m := w.live.value, Done(id, j.hash(j.source));
      if live.id == id {
        FlowsSnoc(j, w.bulk, m, id, live.received, w.sent[id], |j.source| + 1);
      } else if live.id in w.sent {
        FlowsPast(j, w.bulk, m, live.id, live.received, w.sent[live.id]);
      }
    }
  }

  lemma CancelKeeps(j: Job, w: World)
    requires Orderly(j, w)
    ensures Orderly(j, Next(j, w, Cancel))
  {
  }

  /** Closing the part file, for any reason, leaves everything else in order. */
  lemma ClosingKeeps(j: Job, w: World, part: Option<Bytes>, target: Option<Bytes>, m: Answer)
    requires OnceEach(w) && AcceptsOnce(w) && Streams(j, w) && !m.Accept?
    ensures Orderly(j, w.(live := None, part := part, target := target, answers := w.answers + [m]))
  {
  }

  lemma GrowingKeeps(j: Job, w: World, received: nat, part: Bytes)
    requires OnceEach(w) && AcceptsOnce(w) && Streams(j, w) && PartIsReceived(j, w)
    requires w.live.Some? && w.live.value.id in w.sent && |part| == received <= |j.source|
    requires Flows(j, w.bulk, w.live.value.id, received, w.sent[w.live.value.id])
    ensures Orderly(j, w.(live := Some(Live(w.live.value.id, received)), part := Some(part)))
  {
  }

  lemma PoppingKeeps(j: Job, w: World)
    requires Orderly(j, w) && w.bulk != []
    ensures var rest := w.(bulk := w.bulk[1..]);
            OnceEach(rest) && AcceptsOnce(rest) && Streams(j, rest) && PartIsReceived(j, rest)
  {
  }

  /** What heads the bulk lane for the open part file continues it exactly. */
  lemma HeadContinues(j: Job, w: World) returns (next: nat)
    requires Orderly(j, w) && w.bulk != [] && w.live.Some?
    ensures var live, rest := w.live.value, w.bulk[1..];
            && (w.bulk[0].id == live.id ==>
                  live.id in w.sent && Takes(j, w.bulk[0], live.received, next) && Flows(j, rest, live.id, next, w.sent[live.id]))
            && (w.bulk[0].id != live.id && live.id in w.sent ==> Flows(j, rest, live.id, live.received, w.sent[live.id]))
  {
    if w.live.value.id in w.sent {
      assert w.bulk == [w.bulk[0]] + w.bulk[1..];
      next := FlowsPop(j, w.bulk[0], w.bulk[1..], w.live.value.id, w.live.value.received, w.sent[w.live.value.id]);
    } else {
      next := 0;
    }
  }

  lemma ChunkKeeps(j: Job, w: World, reached: nat)
    requires Orderly(j, w) && w.bulk != [] && w.bulk[0].Chunk?
    ensures Orderly(j, OnChunk(j, w.(bulk := w.bulk[1..]), w.bulk[0], reached))
  {
    var rest, m := w.(bulk := w.bulk[1..]), w.bulk[0];
    PoppingKeeps(j, w);
    if w.live.Some? {
      var next := HeadContinues(j, w);
      if w.live.value.id == m.id {
        if reached < |m.data| {
          ClosingKeeps(j, rest, Some(w.part.value + m.data[..reached]), w.target, Stop(m.id));
        } else {
          GrowingKeeps(j, rest, next, w.part.value + m.data);
        }
      }
    }
  }

  lemma DoneTakenKeeps(j: Job, w: World, fault: Fault)
    requires Orderly(j, w) && w.bulk != [] && w.bulk[0].Done?
    ensures Orderly(j, OnDone(j, w.(bulk := w.bulk[1..]), w.bulk[0], fault))
  {
    var rest, m := w.(bulk := w.bulk[1..]), w.bulk[0];
    PoppingKeeps(j, w);
    ClosingKeeps(j, rest, None, w.part, Verified(m.id, true));
    ClosingKeeps(j, rest, None, w.target, Verified(m.id, false));
    ClosingKeeps(j, rest, w.part, w.target, Verified(m.id, false));
    if w.live.Some? {
      var next := HeadContinues(j, w);
    }
  }

  lemma BulkKeeps(j: Job, w: World, reached: nat, fault: Fault)
    requires Orderly(j, w)
    ensures Orderly(j, Next(j, w, TakeBulk(reached, fault)))
  {
    if w.bulk != [] {
      if w.bulk[0].Chunk? {
        ChunkKeeps(j, w, reached);
      } else {
        DoneTakenKeeps(j, w, fault);
      }
    }
  }

  lemma StepKeeps(j: Job, w: World, s: Step)
    requires Orderly(j, w)
    ensures Orderly(j, Next(j, w, s))
  {
    match s
    case StartOffer => OfferKeeps(j, w);
    case TakeControl => ControlKeeps(j, w);
    case Approve(id) => ApproveKeeps(j, w, id);
    case Decline(id) => DeclineKeeps(j, w, id);
    case Abort =>
      if w.live.Some? {
        ClosingKeeps(j, w, w.part, w.target, Stop(w.live.value.id));
      }
    case TakeAnswer => AnswerKeeps(j, w);
    case SendChunk(length) =>
      if w.attempt.Some? && MayRead(j, w, w.attempt.value.id, length) {
        SentKeeps(j, w, w.attempt.value.id, length);
      }
    case SendDone => DoneKeeps(j, w);
    case SendStray(id, length) =>
      if MayRead(j, w, id, length) {
        SentKeeps(j, w, id, length);
      }
    case StrayDone(id) => StrayDoneKeeps(j, w, id);
    case Cancel => CancelKeeps(j, w);
    case TakeBulk(reached, fault) => BulkKeeps(j, w, reached, fault);
    case Disconnect(_) =>
  }

  lemma {:induction false} EveryRunIsOrderly(j: Job, part: Option<Bytes>, steps: seq<Step>)
    ensures Orderly(j, Run(j, Connected(part, None), steps))
  {
    if steps != [] {
      EveryRunIsOrderly(j, part, steps[..|steps| - 1]);
      StepKeeps(j, Run(j, Connected(part, None), steps[..|steps| - 1]), steps[|steps| - 1]);
    }
  }

  /** Whatever was left on disk, and across any interruptions: a chunk that reaches its open part file always
      continues it exactly, so it is accepted, and a Done finds the whole file there. */
  lemma EveryStreamedMessageFits(j: Job, part: Option<Bytes>, steps: seq<Step>)
    ensures var w := Run(j, Connected(part, None), steps);
            && PartIsReceived(j, w)
            && (w.bulk != [] && w.live.Some? && w.bulk[0].id == w.live.value.id ==>
                  match w.bulk[0]
                  case Chunk(_, offset, data) =>
                    && Fits(w.live.value.received, |j.source|, offset, data)
                    && data == j.source[offset..offset + |data|]
                  case Done(_, digest) => w.live.value.received == |j.source| && digest == j.hash(j.source))
  {
    EveryRunIsOrderly(j, part, steps);
    var w := Run(j, Connected(part, None), steps);
    if w.bulk != [] && w.live.Some? {
      var _ := HeadContinues(j, w);
    }
  }

  // ---- when a transfer succeeds --------------------------------------------------------------------

  /** A kept part file that an attempt can build on, or will throw away: a prefix of the source, or longer. */
  predicate Usable(j: Job, part: Option<Bytes>) {
    part.Some? ==> part.value <= j.source || |part.value| > |j.source|
  }

  /** The receiver rejects a finished file. */
  predicate Rejects(j: Job, w: World, s: Step) {
    && s.TakeBulk? && w.bulk != [] && w.bulk[0].Done?
    && w.live.Some? && w.live.value.id == w.bulk[0].id && w.part.Some?
    && Mismatches(w.live.value.received, |j.source|, j.hash(w.part.value), w.bulk[0].digest, s.fault)
  }

  predicate RejectsWithin(j: Job, w: World, steps: seq<Step>) {
    steps != [] &&
    (RejectsWithin(j, w, steps[..|steps| - 1]) || Rejects(j, Run(j, w, steps[..|steps| - 1]), steps[|steps| - 1]))
  }

  lemma GrowingStaysUsable(j: Job, part: Bytes, data: Bytes, reached: nat)
    requires |part| + |data| <= |j.source| && data == j.source[|part|..|part| + |data|] && reached <= |data|
    ensures Usable(j, Some(part + data[..reached])) <==> Usable(j, Some(part))
  {
    var grown := part + data[..reached];
    if part <= j.source {
      assert part == j.source[..|part|];
      assert grown == j.source[..|part| + reached];
    }
  }

  lemma ChunkStaysUsable(j: Job, w: World, m: Bulk, reached: nat)
    requires Orderly(j, w) && w.bulk != [] && w.bulk[0] == m && m.Chunk?
    ensures Usable(j, OnChunk(j, w, m, reached).part) <==> Usable(j, w.part)
    ensures OnChunk(j, w, m, reached).target == w.target
  {
    if w.live.Some? && w.live.value.id == m.id {
      var _ := HeadContinues(j, w);
      GrowingStaysUsable(j, w.part.value, m.data, if reached <= |m.data| then reached else |m.data|);
      assert m.data[..|m.data|] == m.data;
    }
  }

  /** Usable or not, a kept part file stays that way through everything but a rejection. */
  lemma StepStaysUsable(j: Job, w: World, s: Step)
    requires Orderly(j, w) && CollisionFree(j.hash)
    ensures Rejects(j, w, s) ==> Next(j, w, s).part == None
    ensures !Rejects(j, w, s) ==> (Usable(j, Next(j, w, s).part) <==> Usable(j, w.part))
    ensures Next(j, w, s).target == w.target || Next(j, w, s).target == Some(j.source)
  {
    if w.bulk != [] && w.bulk[0].Chunk? && (s.TakeBulk? || s.Disconnect?) {
      ChunkStaysUsable(j, w, w.bulk[0], s.reached);
    } else if w.bulk != [] && s.TakeBulk? && w.live.Some? {
      var _ := HeadContinues(j, w);
    }
  }

  lemma {:induction false} UsableSinceStart(j: Job, part: Option<Bytes>, steps: seq<Step>)
    requires CollisionFree(j.hash)
    ensures var w := Run(j, Connected(part, None), steps);
            && (w.target.Some? ==> w.target.value == j.source)
            && (if RejectsWithin(j, Connected(part, None), steps) then Usable(j, w.part)
                else Usable(j, w.part) <==> Usable(j, part))
  {
    if steps != [] {
      var front, s := steps[..|steps| - 1], steps[|steps| - 1];
      UsableSinceStart(j, part, front);
      EveryRunIsOrderly(j, part, front);
      StepStaysUsable(j, Run(j, Connected(part, None), front), s);
    }
  }

  /** Nothing but the source, byte for byte, is ever moved into place, whatever was left on disk. */
  lemma OnlyTheSourceArrives(j: Job, part: Option<Bytes>, steps: seq<Step>)
    requires CollisionFree(j.hash)
    ensures var w := Run(j, Connected(part, None), steps); w.target.Some? ==> w.target.value == j.source
  {
    UsableSinceStart(j, part, steps);
  }

  /** Across any interruptions, and as long as no finished file was rejected for its digest, a finished file is
      accepted if and only if the system does its part and the part file found at the very start was absent, a
      prefix of the source, or longer than it; after one rejection every later one is accepted. */
  lemma FinishSucceedsExactlyWhen(j: Job, part: Option<Bytes>, steps: seq<Step>, fault: Fault)
    requires CollisionFree(j.hash)
    requires var w := Run(j, Connected(part, None), steps);
             w.bulk != [] && w.bulk[0].Done? && w.live.Some? && w.live.value.id == w.bulk[0].id
    ensures var w := Run(j, Connected(part, None), steps);
            var t := Next(j, w, TakeBulk(0, fault));
            && (t.target == Some(j.source) <==>
                  fault.NoFault? && (Usable(j, part) || RejectsWithin(j, Connected(part, None), steps)))
            && t.answers == w.answers + [Verified(w.bulk[0].id, t.target == Some(j.source))]
  {
    var w := Run(j, Connected(part, None), steps);
    UsableSinceStart(j, part, steps);
    EveryRunIsOrderly(j, part, steps);
    var _ := HeadContinues(j, w);
    assert Usable(j, w.part) <==> w.part.value == j.source;
  }

  /** Nothing has been opened, and every answer so far was a refusal. */
  predicate Untouched(w: World, part: Option<Bytes>) {
    && w.part == part && w.target == None && w.live == None && w.waiting == {}
    && forall i :: 0 <= i < |w.answers| ==> w.answers[i].Reject?
  }

  lemma TooLargeStep(j: Job, part: Option<Bytes>, w: World, s: Step)
    requires |j.source| > j.max && Untouched(w, part)
    ensures Untouched(Next(j, w, s), part)
  {
  }

  /** A file the receiver holds to be too large is refused, and nothing on disk is touched. */
  lemma {:induction false} TooLargeTouchesNothing(j: Job, part: Option<Bytes>, steps: seq<Step>)
    requires |j.source| > j.max
    ensures Untouched(Run(j, Connected(part, None), steps), part)
  {
    if steps != [] {
      TooLargeTouchesNothing(j, part, steps[..|steps| - 1]);
      TooLargeStep(j, part, Run(j, Connected(part, None), steps[..|steps| - 1]), steps[|steps| - 1]);
    }
  }
}

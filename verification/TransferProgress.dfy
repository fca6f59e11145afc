/** A transfer gets there: after any interruptions an undisturbed attempt sends exactly what is missing and delivers the
    file; and what stopping, refusing, cancelling and a failing disk do to an attempt at both ends. */
module TransferProgress {
  import opened Wrappers
  import opened Octets
  import opened Files
  import opened Transfer
  import opened TransferSafety

  // ---- an undisturbed attempt ----------------------------------------------------------------------

  /** Nothing is going on, nothing is under way, and the file is not in place. */
  ghost predicate Quiet(j: Job, w: World) {
    && Orderly(j, w) && w.live == None && w.target == None && w.control == [] && w.bulk == [] && w.answers == []
    && (w.attempt.Some? ==> w.attempt.value.status == Over)
  }

  /** The part file after the next `n` bytes of the source. */
  function Grown(j: Job, part: Bytes, n: nat): Bytes
    requires |part| + n <= |j.source|
  {
    part + j.source[|part|..|part| + n]
  }

  /** Attempt `id` is streaming, and everything sent has been received: `n` bytes more than `part`, and nothing else is
      under way. */
  predicate Midway(j: Job, w: World, id: Id, part: Bytes, n: nat) {
    && w.attempt == Some(Attempt(id, Streaming)) && w.live == Some(Live(id, |part| + n))
    && |part| + n <= |j.source| && w.part == Some(Grown(j, part, n)) && id in w.sent && w.sent[id] == |part| + n
    && w.target == None && w.control == [] && w.bulk == [] && w.answers == []
  }

  /** The reads of the sender: each of at least one byte and at most a chunk. */
  predicate Lengths(lengths: seq<nat>) {
    forall i :: 0 <= i < |lengths| ==> 1 <= lengths[i] <= CHUNK
  }

  function Total(lengths: seq<nat>): nat {
    if lengths == [] then 0 else Total(lengths[..|lengths| - 1]) + lengths[|lengths| - 1]
  }

  function Offered(id: Id): seq<Step> {
    [StartOffer, TakeControl, Approve(id), TakeAnswer]
  }

  function Streamed(lengths: seq<nat>): seq<Step> {
    if lengths == [] then []
    else
      var n := lengths[|lengths| - 1];
      Streamed(lengths[..|lengths| - 1]) + [SendChunk(n), TakeBulk(n, NoFault)]
  }

  const CLOSED: seq<Step> := [SendDone, TakeBulk(0, NoFault), TakeAnswer]

  function Undisturbed(id: Id, lengths: seq<nat>): seq<Step> {
    Offered(id) + Streamed(lengths) + CLOSED
  }

  lemma RunSnoc(j: Job, w: World, steps: seq<Step>, s: Step)
    ensures Run(j, w, steps + [s]) == Next(j, Run(j, w, steps), s)
  {
    assert (steps + [s])[..|steps|] == steps;
  }

  lemma {:induction false} RunCat(j: Job, w: World, a: seq<Step>, b: seq<Step>)
    ensures Run(j, w, a + b) == Run(j, Run(j, w, a), b)
  {
    if b == [] {
      assert a + b == a;
    } else {
      RunCat(j, w, a, b[..|b| - 1]);
      assert (a + b)[..|a + b| - 1] == a + b[..|b| - 1];
    }
  }

  lemma RunTwo(j: Job, w: World, s: Step, t: Step)
    ensures Run(j, w, [s, t]) == Next(j, Next(j, w, s), t)
  {
    assert [s, t] == [] + [s] + [t];
    RunSnoc(j, w, [], s);
    RunSnoc(j, w, [] + [s], t);
  }

  lemma RunThree(j: Job, w: World, s: Step, t: Step, u: Step)
    ensures Run(j, w, [s, t, u]) == Next(j, Next(j, Next(j, w, s), t), u)
  {
    RunTwo(j, w, s, t);
    assert [s, t, u] == [s, t] + [u];
    RunSnoc(j, w, [s, t], u);
  }

  lemma Offering(j: Job, w: World)
    requires Quiet(j, w) && |j.source| <= j.max
    ensures var t := Next(j, Next(j, w, StartOffer), TakeControl);
            && t.attempt == Some(Attempt(w.next, Pending)) && w.next in t.waiting && w.next !in t.sent
            && t == w.(attempt := t.attempt, waiting := t.waiting, next := t.next)
  {
  }

  lemma NothingGrown(j: Job, part: Bytes)
    requires |part| <= |j.source|
    ensures Grown(j, part, 0) == part
  {
  }

  /** An offer that waits is approved, and the sender hears of it. */
  lemma Accepting(j: Job, w: World, id: Id, part: Bytes)
    requires |j.source| <= j.max && id in w.waiting && id !in w.sent && w.attempt == Some(Attempt(id, Pending))
    requires w.live == None && w.target == None && w.control == [] && w.bulk == [] && w.answers == []
    requires part == OpenedPart(w.part, |j.source|, w.part.Some?) && |part| <= |j.source|
    ensures Midway(j, Next(j, Next(j, w, Approve(id)), TakeAnswer), id, part, 0)
  {
    assert Next(j, w, Approve(id)).answers == [Accept(id, |part|)];
    NothingGrown(j, part);
  }

  lemma OfferedSteps(j: Job, w: World, id: Id)
    ensures Run(j, w, Offered(id))
            == Next(j, Next(j, Next(j, Next(j, w, StartOffer), TakeControl), Approve(id)), TakeAnswer)
  {
    RunTwo(j, w, StartOffer, TakeControl);
    RunTwo(j, Next(j, Next(j, w, StartOffer), TakeControl), Approve(id), TakeAnswer);
    RunCat(j, w, [StartOffer, TakeControl], [Approve(id), TakeAnswer]);
    assert Offered(id) == [StartOffer, TakeControl] + [Approve(id), TakeAnswer];
  }

  lemma OpenedAnyway(part: Option<Bytes>, expected: nat)
    ensures OpenedPart(part, expected, part.Some?) == OpenedPart(part, expected, true)
  {
  }

  lemma Opening(j: Job, w: World)
    requires Quiet(j, w) && |j.source| <= j.max
    ensures Midway(j, Run(j, w, Offered(w.next)), w.next, OpenedPart(w.part, |j.source|, true), 0)
  {
    Offering(j, w);
    OpenedPartIsKept(w.part, |j.source|, true);
    OpenedAnyway(w.part, |j.source|);
    Accepting(j, Next(j, Next(j, w, StartOffer), TakeControl), w.next, OpenedPart(w.part, |j.source|, true));
    OfferedSteps(j, w, w.next);
  }

  /** A read of `n` bytes is sent and received. */
  function Passed(j: Job, w: World, n: nat): World {
    Next(j, Next(j, w, SendChunk(n)), TakeBulk(n, NoFault))
  }

  lemma GrownMore(j: Job, part: Bytes, n: nat, m: nat)
    requires |part| + n + m <= |j.source|
    ensures Grown(j, part, n) + Slice(j, |part| + n, m) == Grown(j, part, n + m)
  {
  }

  lemma OneChunk(j: Job, w: World, id: Id, part: Bytes, n: nat, m: nat)
    requires Midway(j, w, id, part, n) && 1 <= m <= CHUNK && |part| + n + m <= |j.source|
    ensures Midway(j, Passed(j, w, m), id, part, n + m)
  {
    assert Next(j, w, SendChunk(m)).bulk == [Chunk(id, |part| + n, Slice(j, |part| + n, m))];
    GrownMore(j, part, n, m);
  }

  lemma StreamedMore(j: Job, w: World, front: seq<nat>, n: nat)
    ensures Run(j, w, Streamed(front + [n])) == Passed(j, Run(j, w, Streamed(front)), n)
    ensures Total(front + [n]) == Total(front) + n
  {
    assert (front + [n])[..|front|] == front;
    assert Streamed(front + [n]) == Streamed(front) + [SendChunk(n), TakeBulk(n, NoFault)];
    RunCat(j, w, Streamed(front), [SendChunk(n), TakeBulk(n, NoFault)]);
    RunTwo(j, Run(j, w, Streamed(front)), SendChunk(n), TakeBulk(n, NoFault));
  }

  lemma {:induction false} StreamingOn(j: Job, w: World, id: Id, part: Bytes, lengths: seq<nat>)
    requires Midway(j, w, id, part, 0) && Lengths(lengths) && |part| + Total(lengths) <= |j.source|
    ensures Midway(j, Run(j, w, Streamed(lengths)), id, part, Total(lengths))
  {
    if lengths != [] {
      var front, n := lengths[..|lengths| - 1], lengths[|lengths| - 1];
      assert lengths == front + [n];
      StreamedMore(j, w, front, n);
      StreamingOn(j, w, id, part, front);
      OneChunk(j, Run(j, w, Streamed(front)), id, part, Total(front), n);
    }
  }

  lemma Closing(j: Job, w: World, id: Id, part: Bytes, n: nat)
    requires Midway(j, w, id, part, n) && |part| + n == |j.source|
    ensures var t, whole := Run(j, w, CLOSED), Grown(j, part, n);
            && t.target == (if j.hash(whole) == j.hash(j.source) then Some(whole) else None) && t.part == None
            && t.attempt == Some(Attempt(id, Over))
            && t.live == None && t.control == [] && t.bulk == [] && t.answers == []
  {
    RunThree(j, w, SendDone, TakeBulk(0, NoFault), TakeAnswer);
    assert Next(j, w, SendDone).bulk == [Done(id, j.hash(j.source))];
  }

  /** What is missing after a part file has been opened again. */
  function Missing(j: Job, part: Option<Bytes>): nat {
    if part.Some? && |part.value| <= |j.source| then |j.source| - |part.value| else |j.source|
  }

  /** From any quiet moment, in reads of any lengths: an attempt that nothing disturbs sends exactly the bytes the
      part file lacks. Then the file is in place and the part file gone, if that was usable; if it was not, it
      is thrown away, and the sender can try again. */
  lemma AttemptDelivers(j: Job, w: World, lengths: seq<nat>)
    requires Quiet(j, w) && |j.source| <= j.max && CollisionFree(j.hash)
    requires Lengths(lengths) && Total(lengths) == Missing(j, w.part)
    ensures var t := Run(j, w, Undisturbed(w.next, lengths));
            && t.part == None && t.attempt == Some(Attempt(w.next, Over))
            && t.target == (if Usable(j, w.part) then Some(j.source) else None)
            && (!Usable(j, w.part) ==> Quiet(j, t))
  {
    var id, part := w.next, OpenedPart(w.part, |j.source|, true);
    OpenedPartIsKept(w.part, |j.source|, true);
    Opening(j, w);
    StreamingOn(j, Run(j, w, Offered(id)), id, part, lengths);
    var whole := Grown(j, part, Total(lengths));
    Closing(j, Run(j, Run(j, w, Offered(id)), Streamed(lengths)), id, part, Total(lengths));
    RunCat(j, w, Offered(id), Streamed(lengths));
    RunCat(j, w, Offered(id) + Streamed(lengths), CLOSED);
    WholeWhenUsable(j, w.part, whole);
    OrderlyOn(j, w, Undisturbed(id, lengths));
  }

  lemma WholeWhenUsable(j: Job, part: Option<Bytes>, whole: Bytes)
    requires var kept := OpenedPart(part, |j.source|, true);
             |kept| <= |j.source| && whole == kept + j.source[|kept|..]
    ensures whole == j.source <==> Usable(j, part)
  {
    var kept := OpenedPart(part, |j.source|, true);
    assert whole[..|kept|] == kept;
    assert kept == j.source[..|kept|] ==> whole == j.source;
  }

  lemma {:induction false} OrderlyOn(j: Job, w: World, steps: seq<Step>)
    requires Orderly(j, w)
    ensures Orderly(j, Run(j, w, steps))
  {
    if steps != [] {
      OrderlyOn(j, w, steps[..|steps| - 1]);
      StepKeeps(j, Run(j, w, steps[..|steps| - 1]), steps[|steps| - 1]);
    }
  }

  /** Reads that make up `n` bytes. */
  lemma {:induction false} SomeLengths(n: nat) returns (lengths: seq<nat>)
    ensures Lengths(lengths) && Total(lengths) == n
  {
    lengths := [];
    if n > 0 {
      var last := if n < CHUNK then n else CHUNK;
      var front := SomeLengths(n - last);
      lengths := front + [last];
      assert lengths[..|front|] == front;
    }
  }

  /** No interruption among them. */
  predicate Calm(steps: seq<Step>) {
    forall i :: 0 <= i < |steps| ==> !steps[i].Disconnect?
  }

  lemma {:induction false} StreamedSpares(lengths: seq<nat>)
    ensures Calm(Streamed(lengths))
  {
    if lengths != [] {
      StreamedSpares(lengths[..|lengths| - 1]);
    }
  }

  lemma StepsSpare(id: Id, lengths: seq<nat>)
    ensures Calm(Undisturbed(id, lengths))
  {
    StreamedSpares(lengths);
  }

  lemma OneAttempt(j: Job, w: World) returns (more: seq<Step>)
    requires Quiet(j, w) && |j.source| <= j.max && CollisionFree(j.hash)
    ensures Calm(more)
    ensures var t := Run(j, w, more); t.target == Some(j.source) || (Quiet(j, t) && t.part == None && !Usable(j, w.part))
  {
    var lengths := SomeLengths(Missing(j, w.part));
    AttemptDelivers(j, w, lengths);
    StepsSpare(w.next, lengths);
    more := Undisturbed(w.next, lengths);
  }

  lemma AtMostTwo(j: Job, w: World) returns (more: seq<Step>)
    requires Quiet(j, w) && |j.source| <= j.max && CollisionFree(j.hash)
    ensures Calm(more) && Run(j, w, more).target == Some(j.source)
  {
    more := OneAttempt(j, w);
    if Run(j, w, more).target == None {
      var second := OneAttempt(j, Run(j, w, more));
      RunCat(j, w, more, second);
      more := more + second;
    }
  }

  /** Whatever was left on disk at the start and whatever has happened since: unless the file is in place already, a
      new session and at most two undisturbed attempts put the source in place. */
  lemma TwoAttemptsDeliver(j: Job, part: Option<Bytes>, steps: seq<Step>, reached: nat) returns (more: seq<Step>)
    requires |j.source| <= j.max && CollisionFree(j.hash)
    ensures Calm(more)
    ensures Run(j, Connected(part, None), steps + [Disconnect(reached)] + more).target == Some(j.source)
  {
    var broken := steps + [Disconnect(reached)];
    var w := Run(j, Connected(part, None), broken);
    RunSnoc(j, Connected(part, None), steps, Disconnect(reached));
    OnlyTheSourceArrives(j, part, broken);
    more := [];
    if w.target == None {
      EveryRunIsOrderly(j, part, broken);
      more := AtMostTwo(j, w);
    }
    RunCat(j, Connected(part, None), broken, more);
  }
}

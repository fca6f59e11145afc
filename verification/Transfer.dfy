/** One file sent over a session, attempt after attempt, with every interleaving of the two sides, the
    control and bulk lanes, failing writes and lost connections.

    Control messages and bulk messages are delivered in order within their lane, but not across lanes: a
    cancellation can overtake the chunks sent before it. Attempts carry fresh ids. */
module Transfer {
  import opened Wrappers
  import opened Octets
  import opened Files

  type Id = nat

  /** The file to send, the digest function both sides use, and the largest size the receiver accepts. */
  datatype Job = Job(source: Bytes, hash: Bytes -> Digest, max: nat)

  ghost predicate CollisionFree(hash: Bytes -> Digest) {
    forall a, b :: hash(a) == hash(b) ==> a == b
  }

  datatype Control = Offer(id: Id) | Withdraw(id: Id)

  datatype Bulk = Chunk(id: Id, offset: nat, data: Bytes) | Done(id: Id, digest: Digest)

  datatype Answer = Accept(id: Id, resumeFrom: nat) | Reject(id: Id) | Stop(id: Id) | Verified(id: Id, ok: bool)

  datatype Status = Pending | Streaming | AllSent | Over

  datatype Attempt = Attempt(id: Id, status: Status)

  /** The receiver's open part file and the attempt it belongs to. */
  datatype Live = Live(id: Id, received: nat)

  /** `sent` is how far each attempt's stream has come, one past the end once its Done is sent; `stray` are the
      stopped streams that may still send what they were reading, a chunk or the digest. */
  datatype World = World(
    part: Option<Bytes>, target: Option<Bytes>, live: Option<Live>, waiting: set<Id>, admitted: set<Id>,
    control: seq<Control>, bulk: seq<Bulk>, answers: seq<Answer>,
    next: Id, attempt: Option<Attempt>, sent: map<Id, nat>, stray: set<Id>)

  datatype Step =
    | StartOffer
    | TakeControl
    | Approve(id: Id)
    | Decline(id: Id)
    | Abort
    | TakeAnswer
    | SendChunk(length: nat)
    | SendDone
    | SendStray(id: Id, length: nat)
    | StrayDone(id: Id)
    | Cancel
    | TakeBulk(reached: nat, fault: Fault)
    | Disconnect(reached: nat)

  /** A new session over whatever is on disk. */
  function Connected(part: Option<Bytes>, target: Option<Bytes>): World {
    World(part, target, None, {}, {}, [], [], [], 0, None, map[], {})
  }

  function Stopped(w: World): World {
    match w.attempt
    case None => w
    case Some(a) =>
      w.(attempt := Some(a.(status := Over)), stray := if a.status == Streaming then w.stray + {a.id} else w.stray)
  }

  /** An offer arrives: it waits for an answer, unless the file is too large. */
  function OnOffer(j: Job, w: World, id: Id): World {
    if |j.source| > j.max then w.(answers := w.answers + [Reject(id)]) else w.(waiting := w.waiting + {id})
  }

  function Declined(w: World, id: Id): World {
    if id in w.waiting then w.(waiting := w.waiting - {id}, answers := w.answers + [Reject(id)]) else w
  }

  /** Opens the part file for an offer; the sender is told where to continue. */
  function Approved(j: Job, w: World, id: Id): World {
    if |j.source| > j.max then w.(waiting := w.waiting - {id}, answers := w.answers + [Reject(id)])
    else
      var part := OpenedPart(w.part, |j.source|, w.part.Some?);
      w.(part := Some(part), live := Some(Live(id, |part|)), waiting := w.waiting - {id}, admitted := w.admitted + {id},
         answers := w.answers + [Accept(id, |part|)])
  }

  function OnAnswer(j: Job, w: World, m: Answer): World {
    if w.attempt.None? || w.attempt.value.id != m.id then w
    else
      match m
      case Accept(id, from) =>
        if w.attempt.value.status != Pending then w
        else if from > |j.source| then w.(attempt := Some(Attempt(id, Over)))
        else w.(attempt := Some(Attempt(id, Streaming)), sent := w.sent[id := from])
      case _ => Stopped(w)
  }

  function Slice(j: Job, from: nat, length: nat): Bytes
    requires from + length <= |j.source|
  {
    j.source[from..from + length]
  }

  predicate MayRead(j: Job, w: World, id: Id, length: nat) {
    id in w.sent && 1 <= length <= CHUNK && w.sent[id] + length <= |j.source|
  }

  function Sent(j: Job, w: World, id: Id, length: nat): World
    requires MayRead(j, w, id, length)
  {
    w.(bulk := w.bulk + [Chunk(id, w.sent[id], Slice(j, w.sent[id], length))],
       sent := w.sent[id := w.sent[id] + length])
  }

  /** The receiver takes a chunk; the disk takes its first `reached` bytes. */
  function OnChunk(j: Job, w: World, m: Bulk, reached: nat): World
    requires m.Chunk?
  {
    if w.live.None? || w.live.value.id != m.id || w.part.None? then w
    else if !Fits(w.live.value.received, |j.source|, m.offset, m.data) then
      w.(live := None, answers := w.answers + [Stop(m.id)])
    else if reached < |m.data| then
      w.(live := None, part := Some(w.part.value + m.data[..reached]), answers := w.answers + [Stop(m.id)])
    else
      w.(live := Some(Live(m.id, w.live.value.received + |m.data|)), part := Some(w.part.value + m.data))
  }

  /** The receiver finishes the file; whatever goes wrong, the sender hears that it was not verified. */
  function OnDone(j: Job, w: World, m: Bulk, fault: Fault): World
    requires m.Done?
  {
    if w.live.None? || w.live.value.id != m.id || w.part.None? then w
    else if Mismatches(w.live.value.received, |j.source|, j.hash(w.part.value), m.digest, fault) then
      w.(live := None, part := None, answers := w.answers + [Verified(m.id, false)])
    else if w.live.value.received != |j.source| || fault != NoFault then
      w.(live := None, answers := w.answers + [Verified(m.id, false)])
    else
      w.(live := None, part := None, target := w.part, answers := w.answers + [Verified(m.id, true)])
  }

  function OnBulk(j: Job, w: World, m: Bulk, reached: nat, fault: Fault): World {
    if m.Chunk? then OnChunk(j, w, m, reached) else OnDone(j, w, m, fault)
  }

  function Next(j: Job, w: World, s: Step): World {
    match s
    case StartOffer =>
      if w.attempt.Some? && w.attempt.value.status != Over then w
      else w.(attempt := Some(Attempt(w.next, Pending)), next := w.next + 1, control := w.control + [Offer(w.next)])
    case TakeControl =>
      if w.control == [] then w
      else
        var rest := w.(control := w.control[1..]);
        (match w.control[0]
         case Offer(id) => OnOffer(j, rest, id)
         case Withdraw(id) => if w.live.Some? && w.live.value.id == id then rest.(live := None) else rest)
    case Approve(id) => if id in w.waiting && w.live.None? && w.target.None? then Approved(j, w, id) else w
    case Decline(id) => Declined(w, id)
    case Abort =>
      if w.live.None? then w else w.(live := None, answers := w.answers + [Stop(w.live.value.id)])
    case TakeAnswer =>
      if w.answers == [] then w else OnAnswer(j, w.(answers := w.answers[1..]), w.answers[0])
    case SendChunk(length) =>
      if w.attempt.Some? && w.attempt.value.status == Streaming && MayRead(j, w, w.attempt.value.id, length)
      then Sent(j, w, w.attempt.value.id, length) else w
    case SendDone =>
      if w.attempt.Some? && w.attempt.value.status == Streaming && w.attempt.value.id in w.sent
         && w.sent[w.attempt.value.id] == |j.source|
      then
        var id := w.attempt.value.id;
        w.(attempt := Some(Attempt(id, AllSent)), bulk := w.bulk + [Done(id, j.hash(j.source))],
           sent := w.sent[id := |j.source| + 1])
      else w
    case SendStray(id, length) =>
      if id in w.stray && MayRead(j, w, id, length) then Sent(j, w, id, length).(stray := w.stray - {id}) else w
    case StrayDone(id) =>
      if id in w.stray && id in w.sent && w.sent[id] == |j.source|
      then w.(bulk := w.bulk + [Done(id, j.hash(j.source))], sent := w.sent[id := |j.source| + 1], stray := w.stray - {id})
      else w
    case Cancel =>
      if w.attempt.None? || w.attempt.value.status == Over then w
      else
        var t := Stopped(w);
        t.(control := w.control + [Withdraw(w.attempt.value.id)])
    case TakeBulk(reached, fault) =>
      if w.bulk == [] then w else OnBulk(j, w.(bulk := w.bulk[1..]), w.bulk[0], reached, fault)
    case Disconnect(reached) =>
      if w.bulk != [] && w.bulk[0].Chunk? then
        var t := OnChunk(j, w, w.bulk[0], reached);
        Connected(t.part, t.target)
      else Connected(w.part, w.target)
  }

  function Run(j: Job, w: World, steps: seq<Step>): World {
    if steps == [] then w else Next(j, Run(j, w, steps[..|steps| - 1]), steps[|steps| - 1])
  }

  // ---- the stream in flight ------------------------------------------------------------------------

  /** The messages of attempt `id` under way are the source from `from` to `to` in order, without a gap; the
      Done at the end takes `to` one past the source. */
  predicate Flows(j: Job, bulk: seq<Bulk>, id: Id, from: nat, to: nat) {
    if bulk == [] then from == to
    else
      var front, m := bulk[..|bulk| - 1], bulk[|bulk| - 1];
      if m.id != id then Flows(j, front, id, from, to)
      else
        match m
        case Chunk(_, offset, data) =>
          && offset + |data| == to <= |j.source| && data == j.source[offset..to]
          && Flows(j, front, id, from, offset)
        case Done(_, digest) =>
          to == |j.source| + 1 && digest == j.hash(j.source) && Flows(j, front, id, from, |j.source|)
  }

  /** Where the stream stands once message `m` has been taken at `from`. */
  predicate Takes(j: Job, m: Bulk, from: nat, next: nat) {
    match m
    case Chunk(_, offset, data) =>
      offset == from && next == from + |data| <= |j.source| && data == j.source[from..next]
    case Done(_, digest) => from == |j.source| && next == from + 1 && digest == j.hash(j.source)
  }

  lemma {:induction false} FlowsPop(j: Job, m: Bulk, rest: seq<Bulk>, id: Id, from: nat, to: nat) returns (next: nat)
    requires Flows(j, [m] + rest, id, from, to)
    ensures m.id != id ==> Flows(j, rest, id, from, to)
    ensures m.id == id ==> Takes(j, m, from, next) && Flows(j, rest, id, next, to)
    decreases |rest|
  {
    var bulk := [m] + rest;
    if rest == [] {
      assert bulk[..0] == [] && bulk[0] == m;
      next := to;
    } else {
      var last := rest[|rest| - 1];
      assert bulk[..|bulk| - 1] == [m] + rest[..|rest| - 1] && bulk[|bulk| - 1] == last;
      var upTo := if last.id != id then to else if last.Chunk? then last.offset else |j.source|;
      next := FlowsPop(j, m, rest[..|rest| - 1], id, from, upTo);
    }
  }

  lemma FlowsSnoc(j: Job, bulk: seq<Bulk>, m: Bulk, id: Id, from: nat, to: nat, next: nat)
    requires Flows(j, bulk, id, from, to) && m.id == id && Takes(j, m, to, next)
    ensures Flows(j, bulk + [m], id, from, next)
  {
    assert (bulk + [m])[..|bulk|] == bulk;
  }

  lemma FlowsPast(j: Job, bulk: seq<Bulk>, m: Bulk, id: Id, from: nat, to: nat)
    requires Flows(j, bulk, id, from, to) && m.id != id
    ensures Flows(j, bulk + [m], id, from, to)
  {
    assert (bulk + [m])[..|bulk|] == bulk;
  }

  lemma {:induction false} FlowsNothing(j: Job, bulk: seq<Bulk>, id: Id, from: nat)
    requires forall i :: 0 <= i < |bulk| ==> bulk[i].id != id
    ensures Flows(j, bulk, id, from, from)
  {
    if bulk != [] {
      FlowsNothing(j, bulk[..|bulk| - 1], id, from);
    }
  }
}

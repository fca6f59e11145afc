/** What ends an attempt, and what that leaves at both ends: refusals, cancellations, a failing disk, a lost connection,
    and messages that do not fit. */
module TransferStops {
  import opened Wrappers
  import opened Octets
  import opened Files
  import opened Transfer
  import opened TransferSafety

  // ---- what is sent --------------------------------------------------------------------------------

  /** Every chunk under way is a piece of the source, not empty and no longer than a chunk may be. */
  predicate PiecesOnly(j: Job, bulk: seq<Bulk>) {
    forall i :: 0 <= i < |bulk| && bulk[i].Chunk? ==>
      && 1 <= |bulk[i].data| <= CHUNK && bulk[i].offset + |bulk[i].data| <= |j.source|
      && bulk[i].data == j.source[bulk[i].offset..bulk[i].offset + |bulk[i].data|]
  }

  lemma {:induction false} OnlyPiecesAreSent(j: Job, w: World, steps: seq<Step>)
    requires PiecesOnly(j, w.bulk)
    ensures PiecesOnly(j, Run(j, w, steps).bulk)
  {
    if steps != [] {
      OnlyPiecesAreSent(j, w, steps[..|steps| - 1]);
      PiecesAfter(j, Run(j, w, steps[..|steps| - 1]), steps[|steps| - 1]);
    }
  }

  lemma PiecesMore(j: Job, bulk: seq<Bulk>, m: Bulk)
    requires PiecesOnly(j, bulk) && PiecesOnly(j, [m])
    ensures PiecesOnly(j, bulk + [m])
  {
    assert [m][0] == m;
  }

  lemma SentIsPiece(j: Job, w: World, id: Id, length: nat)
    requires PiecesOnly(j, w.bulk) && MayRead(j, w, id, length)
    ensures PiecesOnly(j, Sent(j, w, id, length).bulk)
  {
    PiecesMore(j, w.bulk, Chunk(id, w.sent[id], Slice(j, w.sent[id], length)));
  }

  lemma TakingKeepsPieces(j: Job, w: World, s: Step)
    requires PiecesOnly(j, w.bulk) && (s.TakeBulk? || s.Disconnect?)
    ensures PiecesOnly(j, Next(j, w, s).bulk)
  {
    var rest := if w.bulk == [] then [] else w.bulk[1..];
    assert Next(j, w, s).bulk == if s.Disconnect? then [] else rest;
  }

  lemma PiecesAfter(j: Job, w: World, s: Step)
    requires PiecesOnly(j, w.bulk)
    ensures PiecesOnly(j, Next(j, w, s).bulk)
  {
    match s
    case SendChunk(length) =>
      if w.attempt.Some? && MayRead(j, w, w.attempt.value.id, length) {
        SentIsPiece(j, w, w.attempt.value.id, length);
      }
    case SendStray(id, length) =>
      if MayRead(j, w, id, length) {
        SentIsPiece(j, w, id, length);
      }
    case TakeBulk(_, _) => TakingKeepsPieces(j, w, s);
    case Disconnect(_) => TakingKeepsPieces(j, w, s);
    case _ =>
  }

  /** This step sends something of attempt `id`. */
  predicate SendsOf(j: Job, w: World, s: Step, id: Id) {
    (s.SendChunk? || s.SendDone? || s.SendStray? || s.StrayDone?)
    && var after := Next(j, w, s).bulk; |after| > |w.bulk| && after[|after| - 1].id == id
  }

  function Sends(j: Job, w: World, steps: seq<Step>, id: Id): nat {
    if steps == [] then 0
    else
      var front, s := steps[..|steps| - 1], steps[|steps| - 1];
      Sends(j, w, front, id) + if SendsOf(j, Run(j, w, front), s, id) then 1 else 0
  }

  /** The sender has stopped attempt `id`, or gone on to another one. */
  predicate HasStopped(w: World, id: Id) {
    id < w.next && (w.attempt.Some? && w.attempt.value.id == id ==> w.attempt.value.status == Over)
  }

  function Strays(w: World, id: Id): nat {
    if id in w.stray then 1 else 0
  }

  lemma StoppedStep(j: Job, w: World, s: Step, id: Id)
    requires HasStopped(w, id) && !s.Disconnect?
    ensures var t := Next(j, w, s);
            HasStopped(t, id) && Strays(t, id) + (if SendsOf(j, w, s, id) then 1 else 0) <= Strays(w, id)
  {
  }

  /** A stopped attempt sends at most one more message, the chunk it was reading or the digest it was computing, whatever
      happens as long as the session lasts. */
  lemma {:induction false} StoppedSendsAtMostOne(j: Job, w: World, steps: seq<Step>, id: Id)
    requires HasStopped(w, id) && forall i :: 0 <= i < |steps| ==> !steps[i].Disconnect?
    ensures HasStopped(Run(j, w, steps), id)
    ensures Sends(j, w, steps, id) + Strays(Run(j, w, steps), id) <= Strays(w, id)
  {
    if steps != [] {
      var front := steps[..|steps| - 1];
      StoppedSendsAtMostOne(j, w, front, id);
      StoppedStep(j, Run(j, w, front), steps[|steps| - 1], id);
    }
  }

  // ---- the sender stops ----------------------------------------------------------------------------

  /** The attempt is over; what it was reading may still come. */
  predicate Ended(was: World, now: World) {
    && was.attempt.Some? && now.attempt == Some(Attempt(was.attempt.value.id, Over))
    && now.stray == was.stray + (if was.attempt.value.status == Streaming then {was.attempt.value.id} else {})
  }

  predicate SameDisk(was: World, now: World) {
    now.part == was.part && now.target == was.target
  }

  /** Unless an attempt is under way a cancellation does nothing. Otherwise it ends the attempt, and when the other side
      hears of it, it closes this attempt's part file and no other, and keeps it. */
  lemma CancelEndsBothSides(j: Job, w: World)
    requires w.control == []
    ensures var t := Next(j, w, Cancel);
            var u := Next(j, t, TakeControl);
            if w.attempt.None? || w.attempt.value.status == Over then t == w && u == w else
            && Ended(w, t) && SameDisk(w, u) && u == t.(live := u.live, control := [])
            && u.live == (if w.live.Some? && w.live.value.id == w.attempt.value.id then None else w.live)
  {
  }

  /** A sender that has an attempt under way offers nothing else; one that has not makes a new attempt. */
  lemma OneOfferAtATime(j: Job, w: World)
    requires OnceEach(w)
    ensures var t := Next(j, w, StartOffer);
            if w.attempt.Some? && w.attempt.value.status != Over then t == w
            else
              && t.control == w.control + [Offer(w.next)] && t.attempt == Some(Attempt(w.next, Pending))
              && w.next !in t.waiting && w.next !in t.admitted && Offer(w.next) !in w.control
              && t == w.(control := t.control, attempt := t.attempt, next := t.next)
  {
  }

  /** What a stopped stream was reading may still go out, or its digest if it had read everything. */
  lemma StrayGoesOut(j: Job, w: World, id: Id, length: nat)
    requires id in w.stray && id in w.sent && 1 <= length <= CHUNK
    ensures w.sent[id] + length <= |j.source| ==> SendsOf(j, w, SendStray(id, length), id)
    ensures w.sent[id] == |j.source| ==> SendsOf(j, w, StrayDone(id), id)
  {
  }

  // ---- the receiver stops --------------------------------------------------------------------------

  /** The attempt's sender has heard: it is over, if it is the one under way. */
  predicate Heard(was: World, now: World, id: Id) {
    if was.attempt.Some? && was.attempt.value.id == id then Ended(was, now)
    else now.attempt == was.attempt && now.stray == was.stray
  }

  /** An offer waits for its answer if and only if the file is not too large; otherwise the sender hears a refusal. */
  lemma OfferWaitsExactlyWhen(j: Job, w: World, id: Id)
    requires w.control == [Offer(id)] && w.answers == []
    ensures var t := Next(j, w, TakeControl);
            var u := Next(j, t, TakeAnswer);
            if |j.source| <= j.max then t == w.(control := [], waiting := w.waiting + {id}) && u == t
            else t.waiting == w.waiting && Heard(w, u, id) && SameDisk(w, u) && u.live == w.live
  {
  }

  /** An offer that waits, while no file is open or in place, is accepted if and only if the file is not too large: a part
      file no longer than the file is continued at its end, and otherwise a new one begun. Else it is refused. */
  lemma ApprovalOpensExactlyWhen(j: Job, w: World, id: Id)
    ensures Approved(j, w, id)
            == if |j.source| > j.max then w.(waiting := w.waiting - {id}, answers := w.answers + [Reject(id)])
               else
                 var kept := if w.part.Some? && |w.part.value| <= |j.source| then w.part.value else [];
                 w.(waiting := w.waiting - {id}, admitted := w.admitted + {id}, part := Some(kept),
                    live := Some(Live(id, |kept|)), answers := w.answers + [Accept(id, |kept|)])
    ensures Next(j, w, Approve(id))
            == if id in w.waiting && w.live == None && w.target == None then Approved(j, w, id) else w
  {
  }

  /** A refusal, or a cancellation by the receiver's user, ends the attempt at both ends and leaves the disk alone. */
  lemma RefusalEndsBothSides(j: Job, w: World, id: Id)
    requires w.answers == []
    ensures var t := Next(j, Next(j, w, Decline(id)), TakeAnswer);
            if id !in w.waiting then t == w
            else Heard(w, t, id) && SameDisk(w, t) && t.waiting == w.waiting - {id} && t.live == w.live && t.answers == []
    ensures var t := Next(j, Next(j, w, Abort), TakeAnswer);
            if w.live.None? then t == w
            else Heard(w, t, w.live.value.id) && SameDisk(w, t) && t.live == None && t.answers == []
  {
  }

  /** The chunk at the head of the lane, for the open part file. */
  predicate Arrives(w: World, m: Bulk) {
    w.bulk != [] && w.bulk[0] == m && w.live.Some? && w.live.value.id == m.id && w.part.Some?
  }

  /** A chunk that does not continue the file, or is too much for it, is not written at all; one the disk cannot take is
      written as far as it goes. Either ends the attempt at both ends and keeps the part file; any other is written
      whole and ends nothing. */
  lemma ChunkIsWrittenExactlyWhen(j: Job, w: World, m: Bulk, reached: nat, fault: Fault)
    requires Arrives(w, m) && m.Chunk? && w.answers == []
    ensures var t := Next(j, w, TakeBulk(reached, fault));
            var u := Next(j, t, TakeAnswer);
            var continues := m.offset == w.live.value.received && m.offset + |m.data| <= |j.source|;
            && t.target == w.target && t.bulk == w.bulk[1..]
            && t.part == Some(w.part.value + if !continues then [] else if reached < |m.data| then m.data[..reached] else m.data)
            && (if continues && reached >= |m.data|
                then t.live == Some(Live(m.id, w.live.value.received + |m.data|)) && t.answers == []
                else t.live == None && Heard(w, u, m.id) && SameDisk(t, u))
  {
    assert w.part.value + [] == w.part.value;
  }

  /** What has no open part file of its own to go to is thrown away. */
  lemma LateMessagesAreThrownAway(j: Job, w: World, reached: nat, fault: Fault)
    requires w.bulk != [] && (w.live.None? || w.live.value.id != w.bulk[0].id)
    ensures Next(j, w, TakeBulk(reached, fault)) == w.(bulk := w.bulk[1..])
  {
  }

  /** At the end of a file: it is put in place if and only if all of it is there, its digest is the one named, and the
      system writes it out, reads it back and moves it. The part file is thrown away if and only if all of it is
      there, it could be read back, and its digest is another. In every other case it is kept, and the sender hears
      which it was. */
  lemma FinishLeaves(j: Job, w: World, m: Bulk, reached: nat, fault: Fault)
    requires Arrives(w, m) && m.Done? && w.answers == []
    ensures var t := Next(j, w, TakeBulk(reached, fault));
            var complete, right := w.live.value.received == |j.source|, j.hash(w.part.value) == m.digest;
            var thrown := complete && !right && (fault == NoFault || fault == Move);
            var placed := complete && right && fault == NoFault;
            && t.live == None && t.bulk == w.bulk[1..] && t.answers == [Verified(m.id, placed)]
            && t.target == (if placed then w.part else w.target)
            && t.part == (if placed || thrown then None else w.part)
            && Heard(w, Next(j, t, TakeAnswer), m.id)
  {
  }

  /** A lost connection forgets everything but the disk, where the chunk being written may be cut short. */
  lemma LostConnectionKeepsTheDisk(j: Job, w: World, reached: nat)
    requires Orderly(j, w)
    ensures var t := Next(j, w, Disconnect(reached));
            && t == Connected(t.part, t.target) && t.target == w.target
            && (!(w.bulk != [] && w.bulk[0].Chunk? && Arrives(w, w.bulk[0])) ==> t.part == w.part)
            && (w.bulk != [] && w.bulk[0].Chunk? && Arrives(w, w.bulk[0]) ==>
                  t.part == Some(w.part.value + if reached < |w.bulk[0].data| then w.bulk[0].data[..reached] else w.bulk[0].data))
  {
    if w.bulk != [] && w.live.Some? {
      var _ := HeadContinues(j, w);
    }
  }
}

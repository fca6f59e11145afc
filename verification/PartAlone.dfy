/** One transfer at a time on a part file, among any number under other names: seen through the file's two names it
    does what the plain receiver does, and the others do nothing. */
module PartAlone {
  import opened Wrappers
  import opened Octets
  import opened Files
  import opened PartSharing
  import T = Transfer

  // ---- writing -------------------------------------------------------------------------------------

  /** Byte by byte: what is written stands where it was written, the rest of the file is as it was, and a gap before it
      is zeros. Writing nothing changes nothing. */
  lemma WrittenByteByByte(file: Bytes, offset: nat, data: Bytes, i: nat)
    requires data != []
    ensures var r := Written(file, offset, data);
            && |r| == (if offset + |data| <= |file| then |file| else offset + |data|)
            && (i < |r| ==> r[i] == if offset <= i < offset + |data| then data[i - offset] else if i < |file| then file[i] else 0)
    ensures Written(file, offset, []) == file
  {
  }

  // ---- through the two names -----------------------------------------------------------------------

  function Content(w: World, name: Option<nat>): Option<Bytes> {
    if name.Some? && name.value < |w.files| then Some(w.files[name.value]) else None
  }

  /** What the plain receiver knows of transfer `id` of file `j`. */
  predicate Shows(w: World, id: Id, j: T.Job, v: T.World) {
    && v.part == Content(w, w.part) && v.target == Content(w, w.target)
    && v.live == if id in w.live && w.live[id].named then Some(T.Live(id, w.live[id].received)) else None
  }

  /** An open transfer with the part name has the part file, and that holds what it has received. */
  predicate Received(w: World) {
    forall id :: id in w.live && w.live[id].named ==>
      w.part == Some(w.live[id].file) && w.live[id].file < |w.files| && |w.files[w.live[id].file]| == w.live[id].received
  }

  /** What every guarded run keeps. */
  predicate Tidy(w: World) {
    Sound(w) && OneWriter(w) && Received(w)
  }

  lemma AppendsWhatFits(file: Bytes, data: Bytes)
    ensures Written(file, |file|, data) == file + data
  {
    AppendsAtTheEnd(file, data);
    if data == [] {
      assert file + data == file;
    }
  }

  lemma TakenIsTidy(w: World, id: Id, offset: nat, data: Bytes, reached: nat)
    requires Tidy(w) && id in w.live
    ensures Received(Taken(w, id, offset, data, reached))
  {
    var h := w.live[id];
    if h.named {
      AppendsWhatFits(w.files[h.file], data);
    }
  }

  lemma StartedIsTidy(w: World, id: Id, expected: nat)
    requires Tidy(w) && id !in w.live && Guard(w, Start(id, expected))
    ensures Received(Started(w, id, expected))
  {
  }

  lemma StepIsTidy(hash: Bytes -> Digest, w: World, s: Step)
    requires Tidy(w) && Guard(w, s)
    ensures Tidy(Next(hash, w, s))
  {
    StepKeepsSound(hash, w, s);
    StepKeepsOneWriter(hash, w, s);
    match s
    case Start(id, expected) =>
      if id !in w.live {
        StartedIsTidy(w, id, expected);
      }
    case Chunk(id, offset, data, reached) =>
      if id in w.live {
        TakenIsTidy(w, id, offset, data, reached);
      }
    case _ =>
  }

  lemma {:induction false} GuardedRunIsTidy(hash: Bytes -> Digest, steps: seq<Step>)
    requires Guarded(hash, steps)
    ensures Tidy(Run(hash, NOTHING_YET, steps))
  {
    if steps != [] {
      GuardedRunIsTidy(hash, steps[..|steps| - 1]);
      StepIsTidy(hash, Run(hash, NOTHING_YET, steps[..|steps| - 1]), steps[|steps| - 1]);
    }
  }

  // ---- the steps of the transfer -------------------------------------------------------------------

  lemma ChunkIsPlain(hash: Bytes -> Digest, w: World, id: Id, j: T.Job, v: T.World, offset: nat, data: Bytes, reached: nat)
    requires Tidy(w) && Shows(w, id, j, v) && id in w.live && w.live[id].named && w.live[id].expected == |j.source|
    ensures Shows(Next(hash, w, Chunk(id, offset, data, reached)), id, j, T.OnChunk(j, v, T.Chunk(id, offset, data), reached))
  {
    var file := w.files[w.live[id].file];
    AppendsWhatFits(file, data);
    if reached < |data| {
      AppendsWhatFits(file, data[..reached]);
    }
  }

  lemma FinishIsPlain(hash: Bytes -> Digest, w: World, id: Id, j: T.Job, v: T.World, digest: Digest, fault: Fault)
    requires Tidy(w) && Shows(w, id, j, v) && id in w.live && w.live[id].named && w.live[id].expected == |j.source|
    requires j.hash == hash
    ensures Shows(Next(hash, w, Finish(id, digest, fault)), id, j, T.OnDone(j, v, T.Done(id, digest), fault))
  {
  }

  lemma StartIsPlain(hash: Bytes -> Digest, w: World, id: Id, j: T.Job, v: T.World)
    requires Tidy(w) && Shows(w, id, j, v) && id !in w.live && w.target.None? && |j.source| <= j.max
    ensures Shows(Next(hash, w, Start(id, |j.source|)), id, j, T.Approved(j, v, id))
    ensures Next(hash, w, Start(id, |j.source|)).live[id].expected == |j.source|
  {
  }

  function IdOf(s: Step): Id {
    match s
    case Start(id, _) => id
    case Chunk(id, _, _, _) => id
    case Close(id) => id
    case Finish(id, _, _) => id
  }

  /** A step of another transfer, which has another name or gets one. */
  predicate Elsewhere(w: World, s: Step, id: Id) {
    && IdOf(s) != id
    && (if s.Start? then w.target.Some? || IdOf(s) in w.live else IdOf(s) in w.live ==> !w.live[IdOf(s)].named)
  }

  lemma ElsewhereIsNothing(hash: Bytes -> Digest, w: World, s: Step, id: Id, j: T.Job, v: T.World)
    requires Tidy(w) && Shows(w, id, j, v) && Elsewhere(w, s, id)
    ensures Shows(Next(hash, w, s), id, j, v)
  {
  }

  /** After any run in which no transfer starts on a part file another one has open, and seen through the two names: the
      transfer's start, chunks and end do exactly what the plain receiver does, closing it keeps the part file, and
      transfers under other names do nothing at all. */
  lemma AloneIsPlain(hash: Bytes -> Digest, steps: seq<Step>, s: Step, id: Id, j: T.Job, v: T.World)
    requires Guarded(hash, steps) && j.hash == hash && |j.source| <= j.max
    requires Shows(Run(hash, NOTHING_YET, steps), id, j, v)
    ensures var w := Run(hash, NOTHING_YET, steps);
            var t := Next(hash, w, s);
            && (id !in w.live && w.target.None? && s == Start(id, |j.source|) ==> Shows(t, id, j, T.Approved(j, v, id)))
            && (id in w.live && w.live[id].named && w.live[id].expected == |j.source| ==>
                  match s
                  case Chunk(i, offset, data, reached) =>
                    i == id ==> Shows(t, id, j, T.OnChunk(j, v, T.Chunk(id, offset, data), reached))
                  case Finish(i, digest, fault) =>
                    i == id ==> Shows(t, id, j, T.OnDone(j, v, T.Done(id, digest), fault))
                  case Close(i) => i == id ==> Shows(t, id, j, v.(live := None))
                  case Start(i, _) => i == id ==> t == w)
            && (Elsewhere(w, s, id) ==> Shows(t, id, j, v))
  {
    var w := Run(hash, NOTHING_YET, steps);
    GuardedRunIsTidy(hash, steps);
    if Elsewhere(w, s, id) {
      ElsewhereIsNothing(hash, w, s, id, j, v);
    }
    if id !in w.live && w.target.None? {
      StartIsPlain(hash, w, id, j, v);
    }
    if id in w.live && w.live[id].named && w.live[id].expected == |j.source| {
      match s
      case Chunk(_, offset, data, reached) => ChunkIsPlain(hash, w, id, j, v, offset, data, reached);
      case Finish(_, digest, fault) => FinishIsPlain(hash, w, id, j, v, digest, fault);
      case _ =>
    }
  }
}

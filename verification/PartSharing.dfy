/** Transfers of one name at the same time. A part file that is there is resumed even while another transfer
    has it open, so two transfers can write to one file, and one of them can finish and move it into place
    under the other.

    Files are told apart from their names here: a handle stays on the file it was opened on, while finishing
    goes by name. Transfers that are given another name write to files that never come to bear this one. */
module PartSharing {
  import opened Wrappers
  import opened Octets
  import opened Files

  type Id = nat

  /** An open incoming file: `named` if it was opened under the name in question. */
  datatype Handle = Handle(file: nat, named: bool, expected: nat, received: nat)

  /** The two names of the file in question, what every file ever created holds, and the open transfers. */
  datatype World = World(part: Option<nat>, target: Option<nat>, files: seq<Bytes>, live: map<Id, Handle>)

  const NOTHING_YET := World(None, None, [], map[])

  datatype Step =
    | Start(id: Id, expected: nat)
    | Chunk(id: Id, offset: nat, data: Bytes, reached: nat)
    | Close(id: Id)
    | Finish(id: Id, digest: Digest, fault: Fault)

  function Zeros(n: nat): Bytes {
    seq(n, _ => 0)
  }

  /** A file after writing `data` at `offset`; a gap before it is filled with zeros. */
  function Written(file: Bytes, offset: nat, data: Bytes): Bytes {
    if data == [] then file
    else
      var full := if offset <= |file| then file else file + Zeros(offset - |file|);
      Overwritten(full, offset, data)
  }

  /** A transfer starts: a part file is resumed if there is no finished file, and emptied if it is too long;
      with nothing there it is created, and otherwise another name is used. */
  function Started(w: World, id: Id, expected: nat): World {
    if w.part.Some? && w.part.value < |w.files| && w.target.None? then
      var n := w.part.value;
      var kept := OpenedPart(Some(w.files[n]), expected, true);
      w.(files := w.files[n := kept], live := w.live[id := Handle(n, true, expected, |kept|)])
    else
      var n, free := |w.files|, w.part.None? && w.target.None?;
      w.(
      part := if free then Some(n) else w.part,
      files := w.files + [[]],
      live := w.live[id := Handle(n, free, expected, 0)])
  }

  function Taken(w: World, id: Id, offset: nat, data: Bytes, reached: nat): World
    requires id in w.live && w.live[id].file < |w.files|
  {
    var h := w.live[id];
    if !Fits(h.received, h.expected, offset, data) then w.(live := w.live - {id})
    else if reached < |data| then
      w.(files := w.files[h.file := Written(w.files[h.file], offset, data[..reached])], live := w.live - {id})
    else
      w.(files := w.files[h.file := Written(w.files[h.file], offset, data)],
         live := w.live[id := h.(received := h.received + |data|)])
  }

  /** Finishing reads back, and moves, whatever bears the part name by then. */
  function Finished(hash: Bytes -> Digest, w: World, id: Id, digest: Digest, fault: Fault): World
    requires id in w.live
  {
    var h, rest := w.live[id], w.(live := w.live - {id});
    if !h.named || w.part.None? || w.part.value >= |w.files| then rest
    else if Mismatches(h.received, h.expected, hash(w.files[w.part.value]), digest, fault) then rest.(part := None)
    else if h.received != h.expected || fault != NoFault then rest
    else rest.(target := w.part, part := None)
  }

  function Next(hash: Bytes -> Digest, w: World, s: Step): World {
    match s
    case Start(id, expected) => if id in w.live then w else Started(w, id, expected)
    case Chunk(id, offset, data, reached) =>
      if id in w.live && w.live[id].file < |w.files| then Taken(w, id, offset, data, reached) else w
    case Close(id) => w.(live := w.live - {id})
    case Finish(id, digest, fault) => if id in w.live then Finished(hash, w, id, digest, fault) else w
  }

  function Run(hash: Bytes -> Digest, w: World, steps: seq<Step>): World {
    if steps == [] then w else Next(hash, Run(hash, w, steps[..|steps| - 1]), steps[|steps| - 1])
  }

  // ---- what holds in every run ---------------------------------------------------------------------

  /** Names and handles refer to files, and the two names to different ones. */
  predicate Sound(w: World) {
    && (w.part.Some? ==> w.part.value < |w.files| && w.part != w.target)
    && (w.target.Some? ==> w.target.value < |w.files|)
    && (forall id :: id in w.live ==> w.live[id].file < |w.files| && w.live[id].received <= w.live[id].expected)
  }

  lemma StepKeepsSound(hash: Bytes -> Digest, w: World, s: Step)
    requires Sound(w)
    ensures Sound(Next(hash, w, s)) && |w.files| <= |Next(hash, w, s).files|
  {
  }

  lemma {:induction false} RunKeepsSound(hash: Bytes -> Digest, w: World, steps: seq<Step>)
    requires Sound(w)
    ensures Sound(Run(hash, w, steps)) && |w.files| <= |Run(hash, w, steps).files|
  {
    if steps != [] {
      RunKeepsSound(hash, w, steps[..|steps| - 1]);
      StepKeepsSound(hash, Run(hash, w, steps[..|steps| - 1]), steps[|steps| - 1]);
    }
  }

  // ---- when a finished file is safe ----------------------------------------------------------------

  predicate Writes(w: World, n: nat, id: Id) {
    id in w.live && w.live[id].file == n && w.live[id].received < w.live[id].expected
  }

  /** No open transfer has anything left to write to file `n`. */
  predicate Quiet(w: World, n: nat) {
    forall id :: id in w.live ==> !Writes(w, n, id)
  }

  /** Nobody writes to it, and nobody can open it for writing. */
  predicate Settled(w: World, n: nat) {
    Quiet(w, n) && w.part != Some(n) && n < |w.files|
  }

  lemma SettledStep(hash: Bytes -> Digest, w: World, s: Step, n: nat)
    requires Sound(w) && Settled(w, n)
    ensures Settled(Next(hash, w, s), n) && Next(hash, w, s).files[n] == w.files[n]
  {
    var t := Next(hash, w, s);
    forall id | id in t.live ensures !Writes(t, n, id) {
      assert id in w.live ==> !Writes(w, n, id);
    }
  }

  predicate StaysAsIs(hash: Bytes -> Digest, w: World, n: nat, steps: seq<Step>)
    requires n < |w.files|
  {
    n < |Run(hash, w, steps).files| && Run(hash, w, steps).files[n] == w.files[n]
  }

  lemma {:induction false} SettledStays(hash: Bytes -> Digest, w: World, n: nat, steps: seq<Step>)
    requires Sound(w) && Settled(w, n)
    ensures Settled(Run(hash, w, steps), n) && StaysAsIs(hash, w, n, steps)
  {
    if steps != [] {
      SettledStays(hash, w, n, steps[..|steps| - 1]);
      RunKeepsSound(hash, w, steps[..|steps| - 1]);
      SettledStep(hash, Run(hash, w, steps[..|steps| - 1]), steps[|steps| - 1], n);
    }
  }

  /** A byte that is not there yet. */
  function Other(file: Bytes, offset: nat): Byte {
    if offset < |file| && file[offset] == 0 then 1 else 0
  }

  lemma WritingChanges(file: Bytes, offset: nat)
    ensures Written(file, offset, [Other(file, offset)]) != file
  {
    var r := Written(file, offset, [Other(file, offset)]);
    assert |r| > offset && r[offset] == Other(file, offset);
  }

  lemma WriterChanges(hash: Bytes -> Digest, w: World, n: nat, id: Id) returns (steps: seq<Step>)
    requires Sound(w) && Writes(w, n, id) && n < |w.files|
    ensures !StaysAsIs(hash, w, n, steps)
  {
    var h := w.live[id];
    var data := [Other(w.files[n], h.received)];
    WritingChanges(w.files[n], h.received);
    steps := [Chunk(id, h.received, data, 1)];
    assert Run(hash, w, steps[..0]) == w;
  }

  /** A finished file stays as it was verified, whatever is sent from then on, exactly when no open transfer
      has anything left to write to it. */
  lemma FinishedFileIsSafeExactlyWhen(hash: Bytes -> Digest, w: World, n: nat)
    requires Sound(w) && w.target == Some(n)
    ensures (forall steps :: StaysAsIs(hash, w, n, steps)) <==> Quiet(w, n)
  {
    if Quiet(w, n) {
      forall steps ensures StaysAsIs(hash, w, n, steps) {
        SettledStays(hash, w, n, steps);
      }
    } else {
      var id :| id in w.live && Writes(w, n, id);
      var steps := WriterChanges(hash, w, n, id);
    }
  }

  // ---- one at a time -------------------------------------------------------------------------------

  /** The condition on a start: no open transfer has the part file. */
  predicate Guard(w: World, s: Step) {
    s.Start? && w.part.Some? && w.target.None? ==> forall id :: id in w.live ==> w.live[id].file != w.part.value
  }

  predicate Guarded(hash: Bytes -> Digest, steps: seq<Step>) {
    steps == []
    || (&& Guarded(hash, steps[..|steps| - 1])
        && Guard(Run(hash, NOTHING_YET, steps[..|steps| - 1]), steps[|steps| - 1]))
  }

  /** The part file has at most one open transfer, and no open transfer has the finished file. */
  predicate OneWriter(w: World) {
    && (forall id :: id in w.live && w.live[id].named ==> w.part == Some(w.live[id].file))
    && (forall id :: id in w.live && !w.live[id].named ==> w.part != Some(w.live[id].file))
    && (forall a, b :: a in w.live && b in w.live && w.live[a].named && w.live[b].named ==> a == b)
    && (forall id :: id in w.live ==> w.target != Some(w.live[id].file))
  }

  lemma StepKeepsOneWriter(hash: Bytes -> Digest, w: World, s: Step)
    requires Sound(w) && OneWriter(w) && Guard(w, s)
    ensures OneWriter(Next(hash, w, s))
  {
  }

  lemma {:induction false} GuardedRunHasOneWriter(hash: Bytes -> Digest, steps: seq<Step>)
    requires Guarded(hash, steps)
    ensures OneWriter(Run(hash, NOTHING_YET, steps))
  {
    if steps != [] {
      GuardedRunHasOneWriter(hash, steps[..|steps| - 1]);
      RunKeepsSound(hash, NOTHING_YET, steps[..|steps| - 1]);
      StepKeepsOneWriter(hash, Run(hash, NOTHING_YET, steps[..|steps| - 1]), steps[|steps| - 1]);
    }
  }

  /** If no transfer ever starts on a part file that another one has open, every finished file stays as it was
      verified, whatever comes after. */
  lemma OneAtATimeIsSafe(hash: Bytes -> Digest, steps: seq<Step>, more: seq<Step>, n: nat)
    requires Guarded(hash, steps) && Run(hash, NOTHING_YET, steps).target == Some(n)
    ensures var w := Run(hash, NOTHING_YET, steps); n < |w.files| && StaysAsIs(hash, w, n, more)
  {
    GuardedRunHasOneWriter(hash, steps);
    RunKeepsSound(hash, NOTHING_YET, steps);
    SettledStays(hash, Run(hash, NOTHING_YET, steps), n, more);
  }

  // ---- two at a time -------------------------------------------------------------------------------

  /** Two files of one name and size are sent; the second starts while the first has its part file open. */
  function Both(hash: Bytes -> Digest, a: Bytes): seq<Step> {
    [Start(0, |a|), Start(1, |a|), Chunk(0, 0, a, |a|), Finish(0, hash(a), NoFault)]
  }

  lemma RunSnoc(hash: Bytes -> Digest, w: World, steps: seq<Step>, s: Step)
    ensures Run(hash, w, steps + [s]) == Next(hash, Run(hash, w, steps), s)
  {
    assert (steps + [s])[..|steps|] == steps;
  }

  lemma BothStart(hash: Bytes -> Digest, size: nat)
    ensures Run(hash, NOTHING_YET, [Start(0, size), Start(1, size)])
            == World(Some(0), None, [[]], map[0 := Handle(0, true, size, 0), 1 := Handle(0, true, size, 0)])
  {
    RunSnoc(hash, NOTHING_YET, [], Start(0, size));
    RunSnoc(hash, NOTHING_YET, [Start(0, size)], Start(1, size));
    assert [] + [Start(0, size)] == [Start(0, size)];
    assert [Start(0, size)] + [Start(1, size)] == [Start(0, size), Start(1, size)];
  }

  lemma WrittenOver(file: Bytes, data: Bytes)
    requires |file| <= |data|
    ensures Written(file, 0, data) == data
  {
    if data != [] {
      assert Overwritten(file, 0, data) == data;
    }
  }

  lemma FirstFinishes(hash: Bytes -> Digest, a: Bytes)
    requires a != []
    ensures Run(hash, NOTHING_YET, Both(hash, a)) == World(None, Some(0), [a], map[1 := Handle(0, true, |a|, 0)])
  {
    var starts := [Start(0, |a|), Start(1, |a|)];
    BothStart(hash, |a|);
    WrittenOver([], a);
    RunSnoc(hash, NOTHING_YET, starts, Chunk(0, 0, a, |a|));
    RunSnoc(hash, NOTHING_YET, starts + [Chunk(0, 0, a, |a|)], Finish(0, hash(a), NoFault));
    assert Both(hash, a) == starts + [Chunk(0, 0, a, |a|)] + [Finish(0, hash(a), NoFault)];
  }

  /** The first is verified and moved into place; then the second, still writing to the same file, replaces
      every byte of it. */
  lemma VerifiedFileIsOverwritten(hash: Bytes -> Digest, a: Bytes, b: Bytes)
    requires |a| == |b| > 0
    ensures var w := Run(hash, NOTHING_YET, Both(hash, a));
            var t := Run(hash, NOTHING_YET, Both(hash, a) + [Chunk(1, 0, b, |b|)]);
            && w.target == Some(0) && w.files == [a]
            && t.target == Some(0) && t.files == [b]
  {
    FirstFinishes(hash, a);
    WrittenOver(a, b);
    RunSnoc(hash, NOTHING_YET, Both(hash, a), Chunk(1, 0, b, |b|));
  }
}

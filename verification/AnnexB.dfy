/** Annex-B byte streams (ITU-T H.264): splitting at start codes, and emulation prevention. */
module AnnexB {
  import opened Octets

  // ---- splitting -----------------------------------------------------------------------------------

  predicate StartsWithCode(d: Bytes) {
    |d| >= 3 && d[0] == 0 && d[1] == 0 && d[2] == 1
  }

  /** Where the first start code begins; the length if there is none. */
  function FindCode(d: Bytes): (i: nat)
    ensures i == |d| || i + 3 <= |d|
  {
    if |d| < 3 then |d|
    else if StartsWithCode(d) then 0
    else 1 + FindCode(d[1..])
  }

  lemma {:induction false} CodeIsThere(d: Bytes)
    requires FindCode(d) < |d|
    ensures var e := FindCode(d); d == d[..e] + [0, 0, 1] + d[e + 3..]
  {
    if !StartsWithCode(d) {
      CodeIsThere(d[1..]);
      Prepended(d, FindCode(d[1..]));
    }
  }

  lemma Prepended(d: Bytes, e: nat)
    requires d != [] && e + 3 <= |d| - 1 && d[1..] == d[1..][..e] + [0, 0, 1] + d[1..][e + 3..]
    ensures d == d[..e + 1] + [0, 0, 1] + d[e + 4..]
  {
    assert d[1..][..e] == d[1..e + 1] && d[1..][e + 3..] == d[e + 4..];
    assert d == [d[0]] + d[1..];
    assert d[..e + 1] == [d[0]] + d[1..e + 1];
  }

  /** Trailing zeros belong to the next start code, or to nobody. */
  function Trim(d: Bytes): Bytes {
    if d != [] && d[|d| - 1] == 0 then Trim(d[..|d| - 1]) else d
  }

  /** The units of a stream that begins just after a start code. */
  function Units(d: Bytes): seq<Bytes>
    decreases |d|
  {
    var e := FindCode(d);
    [Trim(d[..e])] + if e < |d| then Units(d[e + 3..]) else []
  }

  /** The units of a stream: what lies between start codes, without the zeros before the next one. */
  function Split(d: Bytes): seq<Bytes> {
    var e := FindCode(d);
    if e < |d| then Units(d[e + 3..]) else []
  }

  /** Where the unit after a position ends: before the next start code, or at the end. */
  function LimitOf(d: Bytes, starts: seq<nat>, n: nat): int {
    if n + 1 < |starts| then starts[n + 1] - 3 else |d|
  }

  /** `starts` are the positions just after each start code, in order, and there are no others. */
  predicate Finds(d: Bytes, starts: seq<nat>) {
    && (if starts == [] then FindCode(d) == |d| else FindCode(d) + 3 == starts[0])
    && forall n :: 0 <= n < |starts| ==> FindsNext(d, starts, n)
  }

  predicate FindsNext(d: Bytes, starts: seq<nat>, n: nat)
    requires n < |starts|
  {
    starts[n] <= |d| && starts[n] + FindCode(d[starts[n]..]) == LimitOf(d, starts, n)
  }

  lemma DropTwice<T>(d: seq<T>, s: nat, k: nat)
    requires s + k <= |d|
    ensures d[s..][k..] == d[s + k..] && d[s..][..k] == d[s..s + k]
  {
  }

  /** The units from the one at `starts[n]` on. */
  function Rest(d: Bytes, starts: seq<nat>, n: nat): seq<Bytes>
    requires n < |starts| ==> starts[n] <= |d|
  {
    if n < |starts| then Units(d[starts[n]..]) else []
  }

  lemma RestStep(d: Bytes, starts: seq<nat>, n: nat)
    requires Finds(d, starts) && n < |starts|
    ensures starts[n] <= LimitOf(d, starts, n) <= |d| && (n + 1 < |starts| ==> starts[n + 1] <= |d|)
    ensures Rest(d, starts, n) == [Trim(d[starts[n]..LimitOf(d, starts, n)])] + Rest(d, starts, n + 1)
  {
    assert FindsNext(d, starts, n);
    var s, e := starts[n], FindCode(d[starts[n]..]);
    DropTwice(d, s, e);
    if n + 1 < |starts| {
      assert FindsNext(d, starts, n + 1);
      DropTwice(d, s, e + 3);
    }
  }

  /** The scan has found everything before `i`, and nothing since its last find. */
  predicate Scanned(d: Bytes, starts: seq<nat>, i: nat) {
    var last := if starts == [] then 0 else starts[|starts| - 1];
    && last <= i <= |d| && last + FindCode(d[last..]) == i + FindCode(d[i..])
    && (starts != [] ==> FindCode(d) + 3 == starts[0])
    && forall n :: 0 <= n < |starts| - 1 ==> FindsNext(d, starts, n)
  }

  lemma ScanMiss(d: Bytes, starts: seq<nat>, i: nat)
    requires Scanned(d, starts, i) && i + 3 <= |d| && !StartsWithCode(d[i..])
    ensures Scanned(d, starts, i + 1)
  {
    DropTwice(d, i, 1);
  }

  lemma ScanHit(d: Bytes, starts: seq<nat>, i: nat, more: seq<nat>)
    requires Scanned(d, starts, i) && i + 3 <= |d| && StartsWithCode(d[i..]) && more == starts + [i + 3]
    ensures Scanned(d, more, i + 3)
  {
    assert d[0..] == d;
    forall n | 0 <= n < |more| - 1 ensures FindsNext(d, more, n) {
      if n < |starts| - 1 {
        assert FindsNext(d, starts, n);
      }
    }
  }

  lemma ScanEnd(d: Bytes, starts: seq<nat>, i: nat)
    requires Scanned(d, starts, i) && i + 3 > |d|
    ensures Finds(d, starts)
  {
    assert d[0..] == d;
    forall n | 0 <= n < |starts| ensures FindsNext(d, starts, n) {
      if n < |starts| - 1 {
        assert FindsNext(d, starts, n);
      }
    }
  }

  /** The scan for start codes. */
  method ScanStarts(data: Bytes) returns (starts: seq<nat>)
    ensures Finds(data, starts)
  {
    starts := [];
    var i := 0;
    while i + 3 <= |data|
      invariant Scanned(data, starts, i)
    {
      if data[i] == 0 && data[i + 1] == 0 && data[i + 2] == 1 {
        ScanHit(data, starts, i, starts + [i + 3]);
        starts := starts + [i + 3];
        i := i + 3;
      } else {
        ScanMiss(data, starts, i);
        i := i + 1;
      }
    }
    ScanEnd(data, starts, i);
  }

  /** Where the unit between two positions ends, without its trailing zeros. */
  method UnitEnd(data: Bytes, s: nat, limit: nat) returns (e: nat)
    requires s <= limit <= |data|
    ensures s <= e <= limit && data[s..e] == Trim(data[s..limit])
  {
    e := limit;
    while e > s && data[e - 1] == 0
      invariant s <= e <= limit
      invariant Trim(data[s..e]) == Trim(data[s..limit])
    {
      assert data[s..e][..e - s - 1] == data[s..e - 1];
      e := e - 1;
    }
  }

  lemma Regroup<T>(done: seq<T>, x: T, rest: seq<T>)
    ensures done + ([x] + rest) == done + [x] + rest
  {
  }

  /** Splits a buffer into its units, without start codes. */
  method SplitNals(data: Bytes) returns (nals: seq<Bytes>)
    ensures nals == Split(data)
  {
    var starts := ScanStarts(data);
    nals := [];
    SplitIsRest(data, starts);
    for n := 0 to |starts|
      invariant n < |starts| ==> starts[n] <= |data|
      invariant nals + Rest(data, starts, n) == Split(data)
    {
      RestStep(data, starts, n);
      var e := UnitEnd(data, starts[n], if n + 1 < |starts| then starts[n + 1] - 3 else |data|);
      Regroup(nals, data[starts[n]..e], Rest(data, starts, n + 1));
      nals := nals + [data[starts[n]..e]];
    }
  }

  lemma SplitIsRest(d: Bytes, starts: seq<nat>)
    requires Finds(d, starts)
    ensures (starts != [] ==> starts[0] <= |d|) && [] + Rest(d, starts, 0) == Split(d)
  {
    if starts != [] {
      assert FindsNext(d, starts, 0);
    }
  }

  // ---- what splitting means ------------------------------------------------------------------------

  function Zeros(n: nat): (z: Bytes)
    ensures |z| == n
  {
    if n == 0 then [] else [0] + Zeros(n - 1)
  }

  lemma {:induction false} ZerosSnoc(k: nat)
    ensures Zeros(k) + [0] == Zeros(k + 1)
  {
    if k > 0 {
      ZerosSnoc(k - 1);
      assert Zeros(k) + [0] == [0] + (Zeros(k - 1) + [0]);
    }
  }

  /** No start code, and no three zeros, inside. */
  predicate Clean(u: Bytes) {
    forall i :: 0 <= i < |u| - 2 && u[i] == 0 && u[i + 1] == 0 ==> u[i + 2] != 0 && u[i + 2] != 1
  }

  predicate EndsFirm(u: Bytes) {
    u != [] && u[|u| - 1] != 0
  }

  /** A unit and the zeros before it: two or more, then a one. Two make a three-byte start code, three a
      four-byte one, and more are padding. */
  datatype Framed = Framed(zeros: nat, nal: Bytes)

  function Frame(units: seq<Framed>, trailing: nat): Bytes {
    if units == [] then Zeros(trailing)
    else Zeros(units[0].zeros) + [1] + units[0].nal + Frame(units[1..], trailing)
  }

  function NalsOf(units: seq<Framed>): seq<Bytes> {
    if units == [] then [] else [units[0].nal] + NalsOf(units[1..])
  }

  predicate WellFramed(units: seq<Framed>) {
    forall i :: 0 <= i < |units| ==> units[i].zeros >= 2 && Clean(units[i].nal) && EndsFirm(units[i].nal)
  }

  lemma {:induction false} FindAfter(u: Bytes, n: nat, rest: Bytes)
    requires Clean(u) && n >= 2
    ensures FindCode(u + Zeros(n) + [1] + rest) == |u| + n - 2
    decreases |u| + n
  {
    var d := u + Zeros(n) + [1] + rest;
    if u != [] {
      assert d[1..] == u[1..] + Zeros(n) + [1] + rest;
      FindAfter(u[1..], n, rest);
    } else if n > 2 {
      assert Zeros(n)[1..] == Zeros(n - 1);
      assert d[1..] == u + Zeros(n - 1) + [1] + rest;
      FindAfter(u, n - 1, rest);
    }
  }

  lemma {:induction false} FindNone(u: Bytes, n: nat)
    requires Clean(u)
    ensures FindCode(u + Zeros(n)) == |u| + n
    decreases |u| + n
  {
    var d := u + Zeros(n);
    if u != [] {
      assert d[1..] == u[1..] + Zeros(n);
      FindNone(u[1..], n);
    } else if n > 0 {
      assert d[1..] == u + Zeros(n - 1);
      FindNone(u, n - 1);
    }
  }

  lemma {:induction false} TrimZeros(u: Bytes, n: nat)
    requires EndsFirm(u)
    ensures Trim(u + Zeros(n)) == u
  {
    if n == 0 {
      assert u + Zeros(0) == u;
    } else {
      ZerosSnoc(n - 1);
      assert u + Zeros(n) == (u + Zeros(n - 1)) + [0];
      TrimZeros(u, n - 1);
    }
  }

  /** Where the search cuts a unit, its start code and the rest apart. */
  lemma CutAtCode(u: Bytes, n: nat, rest: Bytes, d: Bytes)
    requires Clean(u) && n >= 2 && d == u + (Zeros(n) + [1] + rest)
    ensures var e := |u| + n - 2;
            FindCode(d) == e && |d| == e + 3 + |rest| && d[..e] == u + Zeros(n - 2) && d[e + 3..] == rest
  {
    assert d == u + Zeros(n) + [1] + rest;
    FindAfter(u, n, rest);
    ZerosSnoc(n - 1);
    ZerosSnoc(n - 2);
    assert d == (u + Zeros(n - 2)) + ([0, 0, 1] + rest);
    assert d[|u| + n + 1..] == rest;
  }

  lemma UnitsCut(d: Bytes, e: nat, head: Bytes, after: Bytes)
    requires FindCode(d) == e && e + 3 <= |d| && d[..e] == head && d[e + 3..] == after
    ensures Units(d) == [Trim(head)] + Units(after)
    ensures Split(d) == Units(after)
  {
  }

  lemma CutUnits(u: Bytes, n: nat, after: Bytes, d: Bytes, head: Bytes)
    requires Clean(u) && n >= 2 && d == u + (Zeros(n) + [1] + after) && head == u + Zeros(n - 2)
    ensures Units(d) == [Trim(head)] + Units(after)
    ensures Split(d) == Units(after)
  {
    CutAtCode(u, n, after, d);
    UnitsCut(d, |u| + n - 2, head, after);
  }

  lemma NextUnit(u: Bytes, n: nat, after: Bytes, d: Bytes)
    requires Clean(u) && EndsFirm(u) && n >= 2 && d == u + (Zeros(n) + [1] + after)
    ensures Units(d) == [u] + Units(after)
  {
    assert Units(d) == [Trim(u + Zeros(n - 2))] + Units(after) by {
      CutUnits(u, n, after, d, u + Zeros(n - 2));
    }
    assert Trim(u + Zeros(n - 2)) == u by {
      TrimZeros(u, n - 2);
    }
  }

  lemma LastUnit(u: Bytes, n: nat)
    requires Clean(u) && EndsFirm(u)
    ensures Units(u + Zeros(n)) == [u]
  {
    FindNone(u, n);
    TrimZeros(u, n);
    assert (u + Zeros(n))[..|u| + n] == u + Zeros(n);
  }

  lemma {:induction false} UnitsOfFrame(u: Bytes, rest: seq<Framed>, trailing: nat)
    requires Clean(u) && EndsFirm(u) && WellFramed(rest)
    ensures Units(u + Frame(rest, trailing)) == [u] + NalsOf(rest)
    decreases |rest|
  {
    if rest == [] {
      LastUnit(u, trailing);
    } else {
      var f, tail := rest[0], rest[1..];
      var after := f.nal + Frame(tail, trailing);
      assert Frame(rest, trailing) == Zeros(f.zeros) + [1] + after;
      NextUnit(u, f.zeros, after, u + Frame(rest, trailing));
      UnitsOfFrame(f.nal, tail, trailing);
    }
  }

  lemma SplitAfterFirst(n: nat, after: Bytes, d: Bytes)
    requires n >= 2 && d == [] + (Zeros(n) + [1] + after)
    ensures Split(d) == Units(after)
  {
    CutUnits([], n, after, d, [] + Zeros(n - 2));
  }

  lemma FrameNext(units: seq<Framed>, trailing: nat)
    requires units != []
    ensures Frame(units, trailing) == [] + (Zeros(units[0].zeros) + [1] + (units[0].nal + Frame(units[1..], trailing)))
  {
  }

  /** Splitting undoes framing: for start codes of any length, and any zeros at the end. */
  lemma SplitUndoesFrame(units: seq<Framed>, trailing: nat)
    requires WellFramed(units)
    ensures Split(Frame(units, trailing)) == NalsOf(units)
  {
    if units == [] {
      FindNone([], trailing);
      assert [] + Zeros(trailing) == Zeros(trailing);
    } else {
      var after := units[0].nal + Frame(units[1..], trailing);
      FrameNext(units, trailing);
      SplitAfterFirst(units[0].zeros, after, Frame(units, trailing));
      UnitsOfFrame(units[0].nal, units[1..], trailing);
    }
  }

  /** Units put back, each with `pads` zeros after it. */
  function Joined(units: seq<Bytes>, pads: seq<nat>): Bytes
    requires |units| == |pads|
  {
    if units == [] then [] else [0, 0, 1] + units[0] + Zeros(pads[0]) + Joined(units[1..], pads[1..])
  }

  lemma {:induction false} TrimDropsZeros(d: Bytes) returns (n: nat)
    ensures d == Trim(d) + Zeros(n) && (Trim(d) == [] || EndsFirm(Trim(d)))
  {
    if d != [] && d[|d| - 1] == 0 {
      var front := d[..|d| - 1];
      var k := TrimDropsZeros(front);
      n := k + 1;
      assert d == front + [0];
      ZerosSnoc(k);
    } else {
      n := 0;
    }
  }

  lemma JoinedCons(u: Bytes, us: seq<Bytes>, n: nat, pads: seq<nat>)
    requires |us| == |pads|
    ensures Joined([u] + us, [n] + pads) == [0, 0, 1] + u + Zeros(n) + Joined(us, pads)
  {
    assert ([u] + us)[1..] == us && ([n] + pads)[1..] == pads;
  }

  predicate FirmOrEmpty(units: seq<Bytes>) {
    forall i :: 0 <= i < |units| ==> units[i] == [] || EndsFirm(units[i])
  }

  lemma Reassociate<T>(code: seq<T>, u: seq<T>, zeros: seq<T>, rest: seq<T>)
    ensures code + (u + zeros + code + rest) == code + u + zeros + (code + rest)
  {
  }

  lemma CoverStep(d: Bytes, e: nat, u: Bytes, n: nat, us: seq<Bytes>, more: seq<nat>)
    requires e + 3 <= |d| && d == d[..e] + [0, 0, 1] + d[e + 3..] && d[..e] == u + Zeros(n)
    requires |us| == |more| && [0, 0, 1] + d[e + 3..] == Joined(us, more)
    ensures [0, 0, 1] + d == Joined([u] + us, [n] + more)
  {
    JoinedCons(u, us, n, more);
    Reassociate([0, 0, 1], u, Zeros(n), d[e + 3..]);
  }

  lemma CoverEnd(d: Bytes, u: Bytes, n: nat)
    requires d == u + Zeros(n)
    ensures [0, 0, 1] + d == Joined([u], [n])
  {
    JoinedCons(u, [], n, []);
    assert [u] + [] == [u] && [n] + [] == [n];
    assert [0, 0, 1] + d == [0, 0, 1] + u + Zeros(n) + [];
  }

  lemma {:induction false} UnitsCover(d: Bytes) returns (pads: seq<nat>)
    ensures |pads| == |Units(d)| && [0, 0, 1] + d == Joined(Units(d), pads)
    ensures FirmOrEmpty(Units(d))
    decreases |d|
  {
    var e := FindCode(d);
    var n := TrimDropsZeros(d[..e]);
    if e < |d| {
      CodeIsThere(d);
      var rest := d[e + 3..];
      var more := UnitsCover(rest);
      pads := [n] + more;
      UnitsCut(d, e, d[..e], rest);
      CoverStep(d, e, Trim(d[..e]), n, Units(rest), more);
    } else {
      pads := [n];
      assert d[..e] == d;
      CoverEnd(d, Trim(d), n);
    }
  }

  /** For any bytes at all, splitting drops only what precedes the first start code, the start codes, and zeros
      at the end of units: put back, they give the input. */
  lemma SplitLosesOnlyCodesAndZeros(d: Bytes) returns (lead: Bytes, pads: seq<nat>)
    ensures |pads| == |Split(d)| && d == lead + Joined(Split(d), pads)
    ensures FindCode(lead) == |lead|
    ensures FirmOrEmpty(Split(d))
  {
    var e := FindCode(d);
    lead, pads := d[..e], [];
    LeadHasNoCode(d);
    if e < |d| {
      CodeIsThere(d);
      pads := UnitsCover(d[e + 3..]);
      assert d == d[..e] + ([0, 0, 1] + d[e + 3..]);
    } else {
      assert d == d[..e] + [];
    }
  }

  lemma {:induction false} LeadHasNoCode(d: Bytes)
    ensures FindCode(d[..FindCode(d)]) == FindCode(d)
  {
    var e := FindCode(d);
    if |d| >= 3 && !StartsWithCode(d) {
      LeadHasNoCode(d[1..]);
      if e >= 3 {
        assert d[..e][1..] == d[1..][..e - 1];
      }
    }
  }

  // ---- unit types ----------------------------------------------------------------------------------

  function TypeOf(header: Byte, hevc: bool): Byte {
    if hevc then header / 2 % 64 else header % 32
  }

  function TypesOf(nals: seq<Bytes>, hevc: bool): seq<Byte> {
    if nals == [] then []
    else TypesOf(nals[..|nals| - 1], hevc) + TypeIn(nals[|nals| - 1], hevc)
  }

  function TypeIn(nal: Bytes, hevc: bool): seq<Byte> {
    if nal == [] then [] else [TypeOf(nal[0], hevc)]
  }

  method NalTypes(data: Bytes, hevc: bool) returns (types: seq<Byte>)
    ensures types == TypesOf(Split(data), hevc)
  {
    var nals := SplitNals(data);
    types := [];
    var n := 0;
    while n < |nals|
      invariant 0 <= n <= |nals|
      invariant types == TypesOf(nals[..n], hevc)
    {
      assert nals[..n + 1][..n] == nals[..n];
      if nals[n] != [] {
        types := types + [TypeOf(nals[n][0], hevc)];
      }
      n := n + 1;
    }
    assert nals[..n] == nals;
  }

  lemma {:induction false} TypesOfUnits(nals: seq<Bytes>, hevc: bool)
    requires forall i :: 0 <= i < |nals| ==> nals[i] != []
    ensures |TypesOf(nals, hevc)| == |nals|
    ensures forall i :: 0 <= i < |nals| ==> TypesOf(nals, hevc)[i] == TypeOf(nals[i][0], hevc)
  {
    if nals != [] {
      TypesOfUnits(nals[..|nals| - 1], hevc);
    }
  }

  lemma {:induction false} NalsAt(units: seq<Framed>)
    ensures |NalsOf(units)| == |units| && forall i :: 0 <= i < |units| ==> NalsOf(units)[i] == units[i].nal
  {
    if units != [] {
      NalsAt(units[1..]);
    }
  }

  /** A framed stream has one type per unit, in order: the type its header says. */
  lemma EveryUnitHasItsType(units: seq<Framed>, trailing: nat, hevc: bool)
    requires WellFramed(units)
    ensures var types := TypesOf(Split(Frame(units, trailing)), hevc);
            && |types| == |units|
            && forall i :: 0 <= i < |units| ==> types[i] == TypeOf(units[i].nal[0], hevc)
  {
    SplitUndoesFrame(units, trailing);
    NalsAt(units);
    TypesOfUnits(NalsOf(units), hevc);
  }

  /** The type is the header's low five bits in H.264, after a forbidden bit and two of priority, and its bits one to six
      in HEVC, between a forbidden bit and the first of the layer. */
  lemma TypesAreHeaderBits(forbidden: nat, priority: nat, layer: nat, avc: nat, hevc: nat)
    requires forbidden < 2 && priority < 4 && layer < 2 && avc < 32 && hevc < 64
    ensures TypeOf(forbidden * 128 + priority * 32 + avc, false) == avc
    ensures TypeOf(forbidden * 128 + hevc * 2 + layer, true) == hevc
  {
  }
}

/** The viewer's side of the video stream: units of an Annex-B keyframe and their raw payloads. */
module CodecStrings {
  import opened Octets
  import opened AnnexB

  // ---- splitting, the viewer's way -----------------------------------------------------------------

  /** The same units as the sender's splitter. */
  method SplitNals(data: Bytes) returns (nals: seq<Bytes>)
    ensures nals == Split(data)
  {
    var starts := FindStarts(data);
    SplitIsRest(data, starts);
    nals := [];
    for n := 0 to |starts|
      invariant n < |starts| ==> starts[n] <= |data|
      invariant nals + Rest(data, starts, n) == Split(data)
    {
      RestStep(data, starts, n);
      var e := UnitEnd(data, starts[n], if n + 1 < |starts| then starts[n + 1] - 3 else |data|);
      Regroup(nals, data[starts[n]..e], Rest(data, starts, n + 1));
      nals := nals + [data[starts[n]..e]];
    }
  }

  /** A scan whose loop steps by one, after two more past a start code. */
  method FindStarts(data: Bytes) returns (starts: seq<nat>)
    ensures Finds(data, starts)
  {
    starts := [];
    var i := 0;
    while i + 2 < |data|
      invariant Scanned(data, starts, i)
    {
      if data[i] == 0 && data[i + 1] == 0 && data[i + 2] == 1 {
        ScanHit(data, starts, i, starts + [i + 3]);
        starts := starts + [i + 3];
        i := i + 2;
      } else {
        ScanMiss(data, starts, i);
      }
      i := i + 1;
    }
    ScanEnd(data, starts, i);
  }

  // ---- emulation prevention ------------------------------------------------------------------------

  predicate TwoZerosEnd(d: Bytes) {
    |d| >= 2 && d[|d| - 1] == 0 && d[|d| - 2] == 0
  }

  /** Section 7.4.1 of ITU-T H.264: two zeros are never followed by a byte up to three, unless that three was
      put in between. */
  function Escape(p: Bytes): Bytes {
    if p == [] then [] else Escaped(Escape(p[..|p| - 1]), p[|p| - 1])
  }

  /** One more byte of payload after an escaped beginning. */
  function Escaped(e: Bytes, b: Byte): Bytes {
    if TwoZerosEnd(e) && b <= 3 then e + [3, b] else e + [b]
  }

  /** Every three after two zeros dropped. */
  function Unescaped(d: Bytes): Bytes {
    if d == [] then []
    else
      var front, b := d[..|d| - 1], d[|d| - 1];
      if b == 3 && TwoZerosEnd(front) then Unescaped(front) else Unescaped(front) + [b]
  }

  method Unescape(nal: Bytes) returns (out: Bytes)
    ensures out == Unescaped(nal)
  {
    out := [];
    for i := 0 to |nal|
      invariant out == Unescaped(nal[..i])
    {
      assert nal[..i + 1][..i] == nal[..i];
      if i >= 2 && nal[i] == 3 && nal[i - 1] == 0 && nal[i - 2] == 0 {
        continue;
      }
      out := out + [nal[i]];
    }
    assert nal[..|nal|] == nal;
  }

  lemma UnescapedSnoc(d: Bytes, b: Byte)
    ensures Unescaped(d + [b]) == Unescaped(d) + if b == 3 && TwoZerosEnd(d) then [] else [b]
  {
    assert (d + [b])[..|d|] == d;
  }

  /** One more escaped byte of payload is one more byte unescaped. */
  lemma UnescapedNext(e: Bytes, b: Byte, p: Bytes)
    requires Unescaped(e) == p
    ensures Unescaped(Escaped(e, b)) == p + [b]
  {
    if TwoZerosEnd(e) && b <= 3 {
      UnescapedSnoc(e, 3);
      UnescapedSnoc(e + [3], b);
      assert !TwoZerosEnd(e + [3]);
      assert e + [3, b] == e + [3] + [b];
    } else {
      UnescapedSnoc(e, b);
    }
  }

  lemma EscapeSnoc(p: Bytes)
    requires p != []
    ensures Escape(p) == Escaped(Escape(p[..|p| - 1]), p[|p| - 1])
  {
  }

  lemma FrontAndLast(p: Bytes)
    requires p != []
    ensures p[..|p| - 1] + [p[|p| - 1]] == p
  {
  }

  /** Unescaping undoes escaping, for every payload. */
  lemma {:induction false} UnescapeUndoesEscape(p: Bytes)
    ensures Unescaped(Escape(p)) == p
  {
    if p != [] {
      var front, b := p[..|p| - 1], p[|p| - 1];
      UnescapeUndoesEscape(front);
      UnescapedNext(Escape(front), b, front);
      EscapeSnoc(p);
      FrontAndLast(p);
    }
  }

  lemma CleanSnoc(e: Bytes, b: Byte)
    requires Clean(e) && (TwoZerosEnd(e) ==> b != 0 && b != 1)
    ensures Clean(e + [b])
  {
    var d := e + [b];
    forall i | 0 <= i < |d| - 2 && d[i] == 0 && d[i + 1] == 0 ensures d[i + 2] != 0 && d[i + 2] != 1 {
      if i + 2 < |e| {
        assert e[i] == 0 && e[i + 1] == 0;
      }
    }
  }

  lemma EscapedStaysClean(e: Bytes, b: Byte)
    requires Clean(e)
    ensures Clean(Escaped(e, b)) && Escaped(e, b) != [] && Escaped(e, b)[|Escaped(e, b)| - 1] == b
  {
    if TwoZerosEnd(e) && b <= 3 {
      CleanSnoc(e, 3);
      CleanSnoc(e + [3], b);
      assert e + [3, b] == e + [3] + [b];
    } else {
      CleanSnoc(e, b);
    }
  }

  /** Escaped payloads hold no start code, and end as the payload does. */
  lemma {:induction false} EscapedIsClean(p: Bytes)
    ensures Clean(Escape(p)) && (EndsFirm(p) ==> EndsFirm(Escape(p)))
  {
    if p != [] {
      EscapedIsClean(p[..|p| - 1]);
      EscapeSnoc(p);
      EscapedStaysClean(Escape(p[..|p| - 1]), p[|p| - 1]);
    }
  }

  // ---- the whole way -------------------------------------------------------------------------------

  /** A raw payload, and the zeros of the start code before it. */
  datatype Raw = Raw(zeros: nat, payload: Bytes)

  function Encoded(raws: seq<Raw>): seq<Framed> {
    if raws == [] then [] else [Framed(raws[0].zeros, Escape(raws[0].payload))] + Encoded(raws[1..])
  }

  function AllUnescaped(nals: seq<Bytes>): seq<Bytes> {
    if nals == [] then [] else [Unescaped(nals[0])] + AllUnescaped(nals[1..])
  }

  function Payloads(raws: seq<Raw>): seq<Bytes> {
    if raws == [] then [] else [raws[0].payload] + Payloads(raws[1..])
  }

  predicate Encodable(raws: seq<Raw>) {
    forall i :: 0 <= i < |raws| ==> raws[i].zeros >= 2 && EndsFirm(raws[i].payload)
  }

  lemma {:induction false} EncodedIsWellFramed(raws: seq<Raw>)
    requires Encodable(raws)
    ensures WellFramed(Encoded(raws))
  {
    if raws != [] {
      EncodedIsWellFramed(raws[1..]);
      EscapedIsClean(raws[0].payload);
    }
  }

  lemma PayloadNext(raw: Raw, rest: seq<Framed>)
    ensures AllUnescaped(NalsOf([Framed(raw.zeros, Escape(raw.payload))] + rest))
            == [raw.payload] + AllUnescaped(NalsOf(rest))
  {
    var first := Framed(raw.zeros, Escape(raw.payload));
    UnescapeUndoesEscape(raw.payload);
    assert ([first] + rest)[1..] == rest;
    assert ([first.nal] + NalsOf(rest))[1..] == NalsOf(rest);
  }

  lemma {:induction false} EncodedKeepsPayloads(raws: seq<Raw>)
    ensures AllUnescaped(NalsOf(Encoded(raws))) == Payloads(raws)
  {
    if raws != [] {
      EncodedKeepsPayloads(raws[1..]);
      PayloadNext(raws[0], Encoded(raws[1..]));
    }
  }

  /** Escaping, framing with start codes of any length, splitting and unescaping gives back every payload, for
      all lists of payloads that do not end in a zero byte. */
  lemma AnnexBRoundTrip(raws: seq<Raw>, trailing: nat)
    requires Encodable(raws)
    ensures AllUnescaped(Split(Frame(Encoded(raws), trailing))) == Payloads(raws)
  {
    EncodedIsWellFramed(raws);
    EncodedKeepsPayloads(raws);
    SplitUndoesFrame(Encoded(raws), trailing);
  }
}

/** The reader on its own, whatever arrives: exactly when it closes, and what it holds and hands up; and that the
    writer gets a message out. */
module LaneReading {
  import opened Wrappers
  import opened Octets
  import opened Lanes

  // ---- the reader ----------------------------------------------------------------------------------

  /** What a unit's lane holds before its body is added: a first fragment starts anew. */
  function Held(r: Reader, unit: Bytes): Bytes
    requires ReaderOk(r) && unit != [] && unit[0] / 4 < LANES
  {
    if unit[0] % 4 == FIRST || unit[0] % 4 == WHOLE then [] else r.partial[unit[0] / 4]
  }

  /** A listening reader closes if and only if a unit is empty, names no lane, is a later fragment of nothing, or is a
      fragment that makes its message too long, or if it completes a message that is not accepted. An accepted message
      is handed up on its lane; other lanes are not touched at all. */
  lemma ClosesExactlyWhen(accept: Bytes -> bool, r: Reader, unit: Bytes)
    requires ReaderOk(r) && r.listening
    ensures unit == [] || unit[0] / 4 >= LANES ==> Receive(accept, r, unit) == r.(listening := false)
    ensures unit != [] && unit[0] / 4 < LANES ==>
              var t, lane, flag, body := Receive(accept, r, unit), unit[0] / 4, unit[0] % 4, unit[1..];
              var complete := Held(r, unit) + body;
              && (!t.listening <==>
                    || ((flag == MID || flag == LAST) && r.partial[lane] == [])
                    || (flag != WHOLE && |complete| > MAX_FRAME)
                    || ((flag == WHOLE || flag == LAST) && !accept(complete)))
              && t.delivered == (if t.listening && (flag == WHOLE || flag == LAST)
                                 then r.delivered[lane := r.delivered[lane] + [complete]] else r.delivered)
              && (t.listening ==>
                    t.partial == if flag == WHOLE then r.partial
                                 else if flag == LAST then r.partial[lane := []] else r.partial[lane := complete])
              && (forall l :: 0 <= l < LANES && l != lane ==> t.partial[l] == r.partial[l])
  {
    if unit != [] {
      assert [] + unit[1..] == unit[1..];
    }
  }

  predicate HoldsLittle(r: Reader)
    requires ReaderOk(r)
  {
    forall l :: 0 <= l < LANES ==> |r.partial[l]| <= MAX_FRAME
  }

  predicate OnlyAccepted(accept: Bytes -> bool, r: Reader)
    requires ReaderOk(r)
  {
    forall l, i :: 0 <= l < LANES && 0 <= i < |r.delivered[l]| ==> accept(r.delivered[l][i])
  }

  lemma UnitKeepsWithin(accept: Bytes -> bool, r: Reader, unit: Bytes)
    requires ReaderOk(r) && HoldsLittle(r) && OnlyAccepted(accept, r)
    ensures HoldsLittle(Receive(accept, r, unit)) && OnlyAccepted(accept, Receive(accept, r, unit))
  {
  }

  /** Whatever units arrive, the reader never holds more than one frame limit on a lane, and hands up only messages that
      are accepted. */
  lemma {:induction false} ReaderStaysWithin(accept: Bytes -> bool, units: seq<Bytes>)
    ensures HoldsLittle(ReceiveAll(accept, units)) && OnlyAccepted(accept, ReceiveAll(accept, units))
  {
    if units != [] {
      ReaderStaysWithin(accept, units[..|units| - 1]);
      UnitKeepsWithin(accept, ReceiveAll(accept, units[..|units| - 1]), units[|units| - 1]);
    }
  }

  // ---- the writer ----------------------------------------------------------------------------------

  /** How many units a message takes: one for every FRAGMENT bytes begun, and one if it is empty. */
  function Needed(length: nat): nat {
    if length <= FRAGMENT then 1 else 1 + Needed(length - FRAGMENT)
  }

  function Continued(m: Mux, steps: seq<Step>): (r: Mux)
    requires WellFormed(m)
    ensures WellFormed(r)
    decreases |steps|
  {
    if steps == [] then m else Continued(Next(m, steps[0]), steps[1..])
  }

  function Repeated(l: nat, n: nat): (steps: seq<Step>)
    ensures |steps| == n
  {
    if n == 0 then [] else [Fragment(l)] + Repeated(l, n - 1)
  }

  /** The message on lane `l` that is sent as far as `off`. */
  predicate IsUnderWay(m: Mux, l: nat, msg: Bytes, off: nat)
    requires WellFormed(m)
  {
    l < LANES && m.current[l] == Some(Current(msg, off)) && off <= |msg|
  }

  lemma OneFragment(m: Mux, l: nat, msg: Bytes, off: nat)
    requires WellFormed(m) && IsUnderWay(m, l, msg, off) && |m.units| < SEAL_LIMIT
    ensures var t := Next(m, Fragment(l));
            && |t.units| == |m.units| + 1 && t.committed == m.committed
            && (forall k :: 0 <= k < LANES && k != l ==> t.current[k] == m.current[k])
            && (if |msg| - off <= FRAGMENT then t.current[l] == None else IsUnderWay(t, l, msg, off + FRAGMENT))
  {
  }

  lemma {:induction false} TheRestGoesOut(m: Mux, l: nat, msg: Bytes, off: nat)
    requires WellFormed(m) && IsUnderWay(m, l, msg, off) && |m.units| + Needed(|msg| - off) <= SEAL_LIMIT
    ensures var t := Continued(m, Repeated(l, Needed(|msg| - off)));
            && t.current[l] == None && t.committed == m.committed && |t.units| == |m.units| + Needed(|msg| - off)
            && forall k :: 0 <= k < LANES && k != l ==> t.current[k] == m.current[k]
    decreases |msg| - off
  {
    var n := Needed(|msg| - off);
    OneFragment(m, l, msg, off);
    assert Repeated(l, n)[0] == Fragment(l) && Repeated(l, n)[1..] == Repeated(l, n - 1);
    if |msg| - off <= FRAGMENT {
      assert Repeated(l, 0) == [];
    } else {
      TheRestGoesOut(Next(m, Fragment(l)), l, msg, off + FRAGMENT);
    }
  }

  /** From any moment at which a lane of fragments is free: a message within the frame limit that is started there is
      committed, and out after one unit for every FRAGMENT bytes begun, unless the counter is used up first. */
  lemma MessageGoesOut(m: Mux, l: nat, msg: Bytes)
    requires WellFormed(m) && (l == LANE_VIDEO || l == LANE_BULK) && m.current[l] == None && |msg| <= MAX_FRAME
    requires |m.units| + Needed(|msg|) <= SEAL_LIMIT
    ensures var t := Continued(m, [Start(l, msg)] + Repeated(l, Needed(|msg|)));
            && t.current[l] == None && t.committed == m.committed[l := m.committed[l] + [msg]]
            && |t.units| == |m.units| + Needed(|msg|)
  {
    var started := Next(m, Start(l, msg));
    var steps := [Start(l, msg)] + Repeated(l, Needed(|msg|));
    assert steps[0] == Start(l, msg) && steps[1..] == Repeated(l, Needed(|msg|));
    TheRestGoesOut(started, l, msg, 0);
  }
}

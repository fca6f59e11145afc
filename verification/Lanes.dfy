/** Three message lanes cut into units, interleaved on one ordered stream, and put together again.

    A unit is a header byte, lane * 4 + flag, followed by payload. Control messages always travel whole;
    video and bulk messages are cut into fragments, one message per lane at a time. */
module Lanes {
  import opened Wrappers
  import opened Octets

  const FRAGMENT: nat := 8 * 1024
  const MAX_FRAME: nat := 8 * 1024 * 1024

  const LANES: nat := 3
  const LANE_CTL: nat := 0
  const LANE_VIDEO: nat := 1
  const LANE_BULK: nat := 2

  const WHOLE: nat := 0
  const FIRST: nat := 1
  const MID: nat := 2
  const LAST: nat := 3

  // ---- sending -------------------------------------------------------------------------------------

  function FlagAt(data: Bytes, off: nat): nat
    requires off <= |data|
  {
    var remaining := |data| - off;
    if off == 0 && remaining <= FRAGMENT then WHOLE
    else if off == 0 then FIRST
    else if remaining <= FRAGMENT then LAST
    else MID
  }

  function TakeAt(data: Bytes, off: nat): (take: nat)
    requires off <= |data|
    ensures off + take <= |data|
  {
    var remaining := |data| - off;
    if remaining <= FRAGMENT then remaining else FRAGMENT
  }

  function Header(lane: nat, flag: nat): Byte
    requires lane < LANES && flag < 4
  {
    lane * 4 + flag
  }

  /** The unit that carries `data` from `off` on. */
  function UnitAt(lane: nat, data: Bytes, off: nat): Bytes
    requires lane < LANES && off <= |data|
  {
    [Header(lane, FlagAt(data, off))] + data[off..off + TakeAt(data, off)]
  }

  function WholeUnit(lane: nat, data: Bytes): Bytes
    requires lane < LANES
  {
    [Header(lane, WHOLE)] + data
  }

  /** A long message and how much of it has gone out. */
  class Outgoing {
    const lane: nat
    const data: Bytes
    var off: nat

    ghost predicate Valid()
      reads this
    {
      lane < LANES && off <= |data|
    }

    constructor (lane: nat, data: Bytes)
      requires lane < LANES
      ensures Valid() && this.lane == lane && this.data == data && off == 0
    {
      this.lane, this.data, off := lane, data, 0;
    }

    /** Cuts off the next unit; `done` if nothing remains. */
    method NextUnit() returns (unit: Bytes, done: bool)
      requires Valid()
      modifies this
      ensures Valid()
      ensures unit == UnitAt(lane, data, old(off)) && off == old(off) + |unit| - 1
      ensures done <==> off == |data|
      ensures |unit| <= FRAGMENT + 1
    {
      var remaining := |data| - off;
      var flag, take := MID, FRAGMENT;
      if off == 0 && remaining <= FRAGMENT {
        flag, take := WHOLE, remaining;
      } else if off == 0 {
        flag := FIRST;
      } else if remaining <= FRAGMENT {
        flag, take := LAST, remaining;
      }
      unit := [Header(lane, flag)] + data[off..off + take];
      off := off + take;
      done := off >= |data|;
    }
  }

  /** A message on its way on one lane, and how much of it has been sealed. */
  datatype Current = Current(data: Bytes, off: nat)

  /** The writer: what is being sent per lane, the units sealed, and the messages committed per lane. */
  datatype Mux = Mux(current: seq<Option<Current>>, units: seq<Bytes>, committed: seq<seq<Bytes>>)

  const IDLE := Mux([None, None, None], [], [[], [], []])

  datatype Step =
    | Control(msg: Bytes)             // seal a control message
    | Start(lane: nat, msg: Bytes)    // begin a video or bulk message
    | Fragment(lane: nat)             // seal the next unit of that lane's message

  /** The number of units one key can seal. */
  const SEAL_LIMIT: nat := 0xffff_ffff_ffff_ffff

  predicate WellFormed(m: Mux) {
    |m.current| == LANES && |m.committed| == LANES && |m.units| <= SEAL_LIMIT
    && forall l :: 0 <= l < LANES && m.current[l].Some? ==> m.current[l].value.off <= |m.current[l].value.data|
  }

  /** A message that does not encode within the frame limit is dropped; with the counter used up the writer
      has stopped. */
  function Next(m: Mux, step: Step): (r: Mux)
    requires WellFormed(m)
    ensures WellFormed(r)
  {
    match step
    case Control(msg) =>
      if |msg| > MAX_FRAME || |m.units| == SEAL_LIMIT then m
      else m.(
        units := m.units + [WholeUnit(LANE_CTL, msg)],
        committed := m.committed[LANE_CTL := m.committed[LANE_CTL] + [msg]])
    case Start(l, msg) =>
      if !(l == LANE_VIDEO || l == LANE_BULK) || m.current[l].Some? || |msg| > MAX_FRAME then m
      else m.(
        current := m.current[l := Some(Current(msg, 0))],
        committed := m.committed[l := m.committed[l] + [msg]])
    case Fragment(l) =>
      if l >= LANES || m.current[l].None? || |m.units| == SEAL_LIMIT then m
      else
        var c := m.current[l].value;
        var off := c.off + TakeAt(c.data, c.off);
        m.(
        units := m.units + [UnitAt(l, c.data, c.off)],
        current := m.current[l := if off == |c.data| then None else Some(c.(off := off))])
  }

  function Run(steps: seq<Step>): (m: Mux)
    ensures WellFormed(m)
  {
    if steps == [] then IDLE else Next(Run(steps[..|steps| - 1]), steps[|steps| - 1])
  }

  // ---- receiving -----------------------------------------------------------------------------------

  /** The reader: whether it is still listening, its partial buffers and what it has handed up per lane. */
  datatype Reader = Reader(listening: bool, partial: seq<Bytes>, delivered: seq<seq<Bytes>>)

  const LISTENING := Reader(true, [[], [], []], [[], [], []])

  predicate ReaderOk(r: Reader) {
    |r.partial| == LANES && |r.delivered| == LANES
  }

  function Closed(r: Reader): Reader {
    r.(listening := false)
  }

  /** A complete message is handed up if it decodes and validates, otherwise the session closes. */
  function HandUp(accept: Bytes -> bool, r: Reader, lane: nat, msg: Bytes): Reader
    requires ReaderOk(r) && lane < LANES
  {
    if accept(msg) then r.(delivered := r.delivered[lane := r.delivered[lane] + [msg]]) else Closed(r)
  }

  function Receive(accept: Bytes -> bool, r: Reader, unit: Bytes): (t: Reader)
    requires ReaderOk(r)
    ensures ReaderOk(t)
  {
    if !r.listening then r
    else if unit == [] then Closed(r)
    else
      var lane, flag, body := unit[0] / 4, unit[0] % 4, unit[1..];
      if lane > 2 then Closed(r)
      else if flag == WHOLE then HandUp(accept, r, lane, body)
      else if flag != FIRST && r.partial[lane] == [] then Closed(r)
      else
        var buffer := if flag == FIRST then [] else r.partial[lane];
        if |buffer| + |body| > MAX_FRAME then Closed(r.(partial := r.partial[lane := buffer]))
        else if flag == LAST then HandUp(accept, r.(partial := r.partial[lane := []]), lane, buffer + body)
        else r.(partial := r.partial[lane := buffer + body])
  }

  function ReceiveAll(accept: Bytes -> bool, units: seq<Bytes>): (r: Reader)
    ensures ReaderOk(r)
  {
    if units == [] then LISTENING
    else Receive(accept, ReceiveAll(accept, units[..|units| - 1]), units[|units| - 1])
  }

  class LaneReader {
    const accept: Bytes -> bool
    var listening: bool
    var partial: seq<Bytes>
    var delivered: seq<seq<Bytes>>

    ghost function State(): Reader
      reads this
    {
      Reader(listening, partial, delivered)
    }

    constructor (accept: Bytes -> bool)
      ensures this.accept == accept && State() == LISTENING
    {
      this.accept := accept;
      listening, partial, delivered := true, [[], [], []], [[], [], []];
    }

    /** One authenticated unit: reassemble it into its lane, or close on the first thing that is wrong. */
    method OnUnit(plain: Bytes)
      requires ReaderOk(State())
      modifies this
      ensures ReaderOk(State()) && State() == Receive(accept, old(State()), plain)
    {
      if !listening {
        return;
      }
      if plain == [] {
        listening := false;
        return;
      }
      var lane, flag, body := plain[0] / 4, plain[0] % 4, plain[1..];
      if lane > 2 {
        listening := false;
        return;
      }
      var complete := body;
      if flag != WHOLE {
        if flag == FIRST {
          partial := partial[lane := []];
        } else if partial[lane] == [] {
          listening := false;
          return;
        }
        if |partial[lane]| + |body| > MAX_FRAME {
          listening := false;
          return;
        }
        partial := partial[lane := partial[lane] + body];
        if flag != LAST {
          return;
        }
        complete := partial[lane];
        partial := partial[lane := []];
      }
      if accept(complete) {
        delivered := delivered[lane := delivered[lane] + [complete]];
      } else {
        listening := false;
      }
    }
  }

  // ---- the round trip ------------------------------------------------------------------------------

  /** The messages of a lane whose last unit has been sealed. */
  function Completed(m: Mux, l: nat): seq<Bytes>
    requires WellFormed(m) && l < LANES
  {
    if m.current[l].Some? && m.committed[l] != [] then m.committed[l][..|m.committed[l]| - 1] else m.committed[l]
  }

  /** A lane's message in progress is the last one committed there, and is not finished. */
  predicate LaneInProgress(m: Mux, l: nat)
    requires WellFormed(m) && l < LANES
  {
    m.current[l].Some? ==>
      var c := m.current[l].value;
      && l != LANE_CTL
      && m.committed[l] != [] && m.committed[l][|m.committed[l]| - 1] == c.data
      && |c.data| <= MAX_FRAME && (c.off == 0 || c.off < |c.data|)
  }

  function Buffered(m: Mux, l: nat): Bytes
    requires WellFormed(m) && l < LANES
  {
    if m.current[l].Some? then m.current[l].value.data[..m.current[l].value.off] else []
  }

  predicate LaneMatches(m: Mux, r: Reader, l: nat)
    requires WellFormed(m) && ReaderOk(r) && l < LANES
  {
    r.delivered[l] == Completed(m, l) && r.partial[l] == Buffered(m, l)
  }

  predicate Matches(accept: Bytes -> bool, m: Mux, r: Reader) {
    && WellFormed(m) && ReaderOk(r)
    && (forall l :: 0 <= l < LANES ==> LaneInProgress(m, l))
    && (r.listening ==> forall l :: 0 <= l < LANES ==> LaneMatches(m, r, l))
    && (forall l :: 0 <= l < LANES ==> r.delivered[l] <= m.committed[l])
  }

  predicate AllAccepted(accept: Bytes -> bool, m: Mux)
    requires WellFormed(m)
  {
    forall l, i :: 0 <= l < LANES && 0 <= i < |m.committed[l]| ==> accept(m.committed[l][i])
  }

  lemma HeaderFields(lane: nat, flag: nat)
    requires lane < LANES && flag < 4
    ensures Header(lane, flag) / 4 == lane && Header(lane, flag) % 4 == flag
  {
  }

  lemma PrefixGrows<T>(a: seq<T>, b: seq<T>, x: T)
    requires a <= b
    ensures a <= b + [x]
  {
  }

  lemma ControlMatches(accept: Bytes -> bool, m: Mux, r: Reader, msg: Bytes)
    requires Matches(accept, m, r) && |msg| <= MAX_FRAME && |m.units| < SEAL_LIMIT
    ensures var t := Receive(accept, r, WholeUnit(LANE_CTL, msg));
            Matches(accept, Next(m, Control(msg)), t) && (r.listening && accept(msg) ==> t.listening)
  {
    var unit := WholeUnit(LANE_CTL, msg);
    HeaderFields(LANE_CTL, WHOLE);
    assert unit[1..] == msg;
    var n, t := Next(m, Control(msg)), Receive(accept, r, unit);
    assert LaneInProgress(m, LANE_CTL);
    PrefixGrows(r.delivered[LANE_CTL], m.committed[LANE_CTL], msg);
    forall l | 0 <= l < LANES
      ensures LaneInProgress(n, l) && t.delivered[l] <= n.committed[l]
      ensures t.listening ==> LaneMatches(n, t, l)
    {
      assert LaneInProgress(m, l) && r.delivered[l] <= m.committed[l];
      if r.listening {
        assert LaneMatches(m, r, l);
      }
    }
  }

  lemma StartMatches(accept: Bytes -> bool, m: Mux, r: Reader, lane: nat, msg: Bytes)
    requires Matches(accept, m, r)
    ensures Matches(accept, Next(m, Start(lane, msg)), r)
  {
    var n := Next(m, Start(lane, msg));
    if n != m {
      forall l | 0 <= l < LANES
        ensures LaneInProgress(n, l) && r.delivered[l] <= n.committed[l]
        ensures r.listening ==> LaneMatches(n, r, l)
      {
        assert LaneInProgress(m, l);
        PrefixGrows(r.delivered[l], m.committed[l], msg);
        if r.listening {
          assert LaneMatches(m, r, l);
        }
      }
    }
  }

  /** Receiving the next unit of a message continues that lane and leaves the others alone. */
  lemma FragmentReceived(accept: Bytes -> bool, r: Reader, l: nat, data: Bytes, off: nat)
    requires ReaderOk(r) && r.listening && l < LANES && |data| <= MAX_FRAME && off <= |data|
    requires r.partial[l] == data[..off] && (off == 0 || off < |data|)
    ensures var t, end := Receive(accept, r, UnitAt(l, data, off)), off + TakeAt(data, off);
            if end < |data| then t == r.(partial := r.partial[l := data[..end]])
            else if accept(data) then
              t == r.(partial := r.partial[l := []], delivered := r.delivered[l := r.delivered[l] + [data]])
            else t == Closed(r.(partial := r.partial[l := []]))
  {
    var unit, take := UnitAt(l, data, off), TakeAt(data, off);
    HeaderFields(l, FlagAt(data, off));
    assert unit[1..] == data[off..off + take];
    assert data[..off] + data[off..off + take] == data[..off + take];
    assert data[..|data|] == data;
    if off == 0 {
      assert data[..0] + data[0..take] == data[..take];
      assert r.partial[l := []] == r.partial;
    }
  }

  lemma FragmentMatches(accept: Bytes -> bool, m: Mux, r: Reader, lane: nat)
    requires Matches(accept, m, r) && lane < LANES && m.current[lane].Some? && |m.units| < SEAL_LIMIT
    ensures var c := m.current[lane].value;
            var t := Receive(accept, r, UnitAt(lane, c.data, c.off));
            && Matches(accept, Next(m, Fragment(lane)), t)
            && (r.listening && accept(c.data) ==> t.listening)
  {
    var c, n := m.current[lane].value, Next(m, Fragment(lane));
    var t := Receive(accept, r, UnitAt(lane, c.data, c.off));
    assert LaneInProgress(m, lane);
    assert r.delivered[lane] <= m.committed[lane];
    if r.listening {
      assert LaneMatches(m, r, lane);
      FragmentReceived(accept, r, lane, c.data, c.off);
      var done := m.committed[lane];
      assert done[..|done| - 1] + [c.data] == done;
    }
    forall l | 0 <= l < LANES
      ensures LaneInProgress(n, l) && t.delivered[l] <= n.committed[l]
      ensures t.listening ==> LaneMatches(n, t, l)
    {
      assert LaneInProgress(m, l) && r.delivered[l] <= m.committed[l];
      if r.listening {
        assert LaneMatches(m, r, l);
      }
    }
  }

  lemma CommittedGrows(m: Mux, step: Step, accept: Bytes -> bool)
    requires WellFormed(m)
    ensures AllAccepted(accept, Next(m, step)) ==> AllAccepted(accept, m)
    ensures forall l :: 0 <= l < LANES ==> m.committed[l] <= Next(m, step).committed[l]
  {
    var n := Next(m, step);
    if AllAccepted(accept, n) {
      forall l, i | 0 <= l < LANES && 0 <= i < |m.committed[l]|
        ensures accept(m.committed[l][i])
      {
        assert m.committed[l][i] == n.committed[l][i];
      }
    }
  }

  lemma LastAccepted(accept: Bytes -> bool, m: Mux, l: nat)
    requires WellFormed(m) && l < LANES && m.committed[l] != [] && AllAccepted(accept, m)
    ensures accept(m.committed[l][|m.committed[l]| - 1])
  {
  }

  /** What the reader does while the writer takes one step. */
  function Follow(accept: Bytes -> bool, m: Mux, step: Step, r: Reader): (t: Reader)
    requires WellFormed(m) && ReaderOk(r)
    ensures ReaderOk(t)
  {
    var n := Next(m, step);
    if n.units == m.units then r else Receive(accept, r, n.units[|n.units| - 1])
  }

  lemma StepMatches(accept: Bytes -> bool, m: Mux, step: Step, r: Reader)
    requires Matches(accept, m, r)
    ensures Matches(accept, Next(m, step), Follow(accept, m, step, r))
    ensures r.listening && AllAccepted(accept, Next(m, step)) ==> Follow(accept, m, step, r).listening
  {
    var n := Next(m, step);
    if n != m {
      match step
      case Control(msg) =>
        ControlMatches(accept, m, r, msg);
        if AllAccepted(accept, n) {
          LastAccepted(accept, n, LANE_CTL);
        }
      case Start(lane, msg) => StartMatches(accept, m, r, lane, msg);
      case Fragment(lane) =>
        assert LaneInProgress(m, lane);
        FragmentMatches(accept, m, r, lane);
        if AllAccepted(accept, n) {
          LastAccepted(accept, n, lane);
        }
    }
  }

  lemma UnitsGrow(accept: Bytes -> bool, m: Mux, step: Step)
    requires WellFormed(m)
    ensures ReceiveAll(accept, Next(m, step).units) == Follow(accept, m, step, ReceiveAll(accept, m.units))
  {
    var n := Next(m, step);
    if n.units != m.units {
      assert n.units[..|n.units| - 1] == m.units;
    }
  }

  /** A reader that gets exactly the sealed units is in step with the writer on every lane, whatever the
      schedule; it stops listening only if it does not accept one of the messages. */
  lemma {:induction false} ReaderInStep(accept: Bytes -> bool, steps: seq<Step>)
    ensures var m := Run(steps);
            && Matches(accept, m, ReceiveAll(accept, m.units))
            && (AllAccepted(accept, m) ==> ReceiveAll(accept, m.units).listening)
  {
    if steps != [] {
      var front, step := steps[..|steps| - 1], steps[|steps| - 1];
      ReaderInStep(accept, front);
      var m := Run(front);
      UnitsGrow(accept, m, step);
      StepMatches(accept, m, step, ReceiveAll(accept, m.units));
      CommittedGrows(m, step, accept);
    }
  }

  /** The round trip: for any schedule of control, video and bulk messages within the frame limit, the
      reader hands up exactly the completed messages of each lane in order, and no honest stream closes it. */
  lemma FragmentationRoundTrip(accept: Bytes -> bool, steps: seq<Step>)
    requires AllAccepted(accept, Run(steps))
    ensures var m, r := Run(steps), ReceiveAll(accept, Run(steps).units);
            && r.listening
            && (forall l :: 0 <= l < LANES ==> r.delivered[l] == Completed(m, l))
            && (forall l :: 0 <= l < LANES && m.current[l].None? ==> r.delivered[l] == m.committed[l])
  {
    ReaderInStep(accept, steps);
    var m, r := Run(steps), ReceiveAll(accept, Run(steps).units);
    forall l | 0 <= l < LANES
      ensures r.delivered[l] == Completed(m, l)
    {
      assert LaneMatches(m, r, l);
    }
  }

  predicate UnitFits(u: Bytes) {
    |u| >= 1 && u[0] / 4 < LANES && (u[0] / 4 == LANE_CTL || |u| - 1 <= FRAGMENT)
  }

  /** Every unit names a lane, and outside the control lane its payload is at most one fragment. */
  lemma {:induction false} UnitsFit(steps: seq<Step>)
    ensures forall i :: 0 <= i < |Run(steps).units| ==> UnitFits(Run(steps).units[i])
  {
    if steps != [] {
      var front := steps[..|steps| - 1];
      UnitsFit(front);
      var m, n := Run(front), Run(steps);
      if n.units != m.units {
        match steps[|steps| - 1]
        case Control(_) => HeaderFields(LANE_CTL, WHOLE);
        case Fragment(l) => HeaderFields(l, FlagAt(m.current[l].value.data, m.current[l].value.off));
      }
    }
  }

  /** A message's first unit is at most one fragment long unless it is a control message longer than that. */
  lemma FirstUnitFits(lane: nat, msg: Bytes)
    requires lane < LANES
    ensures |if lane == LANE_CTL then WholeUnit(lane, msg) else UnitAt(lane, msg, 0)| - 1 <= FRAGMENT
            <==> lane != LANE_CTL || |msg| <= FRAGMENT
  {
  }
}

/** What the order of the stamps costs: the slip is reached exactly, so the plain shaping bounds hold just for
    the stamp orders named here, and a run of the hub's shaper that breaks them. */
module RelayStamps {
  import opened Rates
  import opened Totals
  import opened RelayShaper

  /** Frames with the given stamps: a large first one, some bytes more at the end, and nothing in between. */
  function Loaded(stamps: seq<real>, first: nat, more: nat): (arrivals: seq<Arrival>)
    ensures StampsOf(arrivals) == stamps
  {
    var arrivals := seq(|stamps|, i requires 0 <= i < |stamps| =>
                          Arrival(stamps[i], (if i == 0 then first else 0) + if i == |stamps| - 1 then more else 0));
    assert StampsOf(arrivals) == stamps;
    arrivals
  }

  lemma {:induction false} SameSteps(one: seq<Arrival>, other: seq<Arrival>)
    requires StampsOf(one) == StampsOf(other)
    ensures Slip(one) == Slip(other) && Forward(one) == Forward(other)
    ensures |one| == |other| && (one != [] ==> one[0].at == other[0].at)
  {
    assert forall i :: 0 <= i < |one| ==> StampsOf(one)[i] == StampsOf(other)[i];
    if |one| > 1 {
      var n := |one| - 1;
      assert StampsOf(one[..n]) == StampsOf(one)[..n] == StampsOf(other[..n]);
      SameSteps(one[..n], other[..n]);
    }
  }

  /** Only the first frame weighs anything, and enough that the bucket never fills up again. */
  predicate OnlyFirst(rate: real, arrivals: seq<Arrival>, first: nat) {
    && arrivals != [] && arrivals[0].len == first && first as real >= Grant(rate, Forward(arrivals))
    && forall i :: 0 < i < |arrivals| ==> arrivals[i].len == 0
  }

  lemma {:induction false} Carried(rate: real, start: real, arrivals: seq<Arrival>, first: nat)
    requires rate > 0.0 && OnlyFirst(rate, arrivals, first)
    ensures Shape(rate, start, arrivals).bucket
            == Bucket(Cap(rate) - first as real + Grant(rate, Forward(arrivals)), arrivals[|arrivals| - 1].at)
  {
    var n := |arrivals| - 1;
    ShapedNext(rate, start, arrivals);
    if n == 0 {
      GrantNonnegative(rate, Elapsed(start, arrivals[0].at));
    } else {
      var front := arrivals[..n];
      StepsGrow(arrivals, n);
      GrantMonotone(rate, Forward(front), Forward(arrivals));
      Carried(rate, start, front, first);
      GrantAdds(rate, Forward(front), Forward(arrivals));
    }
  }

  lemma LoadedLens(stamps: seq<real>, first: nat, more: nat)
    ensures var arrivals, n := Loaded(stamps, first, more), |stamps| - 1;
            && (forall i :: 0 < i < n ==> arrivals[i].len == 0)
            && (stamps != [] ==> arrivals[0].len == first + (if n == 0 then more else 0))
            && (stamps != [] ==> arrivals[n].len == more + (if n == 0 then first else 0))
  {
  }

  /** What the last frame of a load finds. */
  lemma EndFinds(rate: real, start: real, stamps: seq<real>, first: nat, more: nat)
    requires rate > 0.0 && |stamps| >= 2
    requires first as real >= Grant(rate, Forward(Loaded(stamps, first, more)))
    ensures var arrivals := Loaded(stamps, first, more);
            Releases(rate, start, arrivals)[|stamps| - 1].available
            == Cap(rate) - first as real + Grant(rate, Forward(arrivals))
  {
    var arrivals, n := Loaded(stamps, first, more), |stamps| - 1;
    var front := arrivals[..n];
    LoadedLens(stamps, first, more);
    StepsGrow(arrivals, n);
    GrantMonotone(rate, Forward(front), Forward(arrivals));
    Carried(rate, start, front, first);
    ShapedNext(rate, start, arrivals);
    GrantAdds(rate, Forward(front), Forward(arrivals));
  }

  /** The last frame of a load leaves when the rate has paid for all of it, counting the slip as time. */
  lemma EndOfLoad(rate: real, start: real, stamps: seq<real>, first: nat, more: nat)
    requires rate > 0.0 && stamps != []
    requires first as real >= Cap(rate) + Grant(rate, Forward(Loaded(stamps, first, more)))
    ensures var arrivals := Loaded(stamps, first, more);
            Grant(rate, Releases(rate, start, arrivals)[|stamps| - 1].release - Begin(arrivals))
            == (first + more) as real - Cap(rate)
  {
    var arrivals, n := Loaded(stamps, first, more), |stamps| - 1;
    LoadedLens(stamps, first, more);
    FrameAt(rate, start, arrivals, n);
    ForwardIsTime(arrivals);
    if n > 0 {
      EndFinds(rate, start, stamps, first, more);
    } else {
      FirstFindsFull(rate, start, arrivals);
    }
    var wait := Releases(rate, start, arrivals)[n].release - stamps[n];
    GrantAdds(rate, Forward(arrivals), Forward(arrivals) + wait);
    assert Grant(rate, 0.0) == 0.0;
    assert Releases(rate, start, arrivals)[n].release - Begin(arrivals) == Forward(arrivals) + wait;
  }

  lemma StartOfLoad(rate: real, start: real, stamps: seq<real>, first: nat, more: nat)
    requires rate > 0.0 && |stamps| >= 2 && first as real >= Cap(rate)
    ensures Grant(rate, Releases(rate, start, Loaded(stamps, first, more))[0].release - stamps[0])
            == first as real - Cap(rate)
  {
    var arrivals := Loaded(stamps, first, more);
    LoadedLens(stamps, first, more);
    FrameAt(rate, start, arrivals, 0);
    FirstFindsFull(rate, start, arrivals);
  }

  /** A window that holds the first and the last release of a load holds all its bytes. */
  lemma WindowOfLoad(rate: real, start: real, stamps: seq<real>, first: nat, more: nat, a: real, b: real)
    requires rate > 0.0 && stamps != []
    requires var log := Releases(rate, start, Loaded(stamps, first, more));
             a <= log[0].release <= b && a <= log[|log| - 1].release <= b
    ensures BytesBetween(Releases(rate, start, Loaded(stamps, first, more)), a, b) >= first + more
  {
    var arrivals := Loaded(stamps, first, more);
    LoadedLens(stamps, first, more);
    FrameAt(rate, start, arrivals, 0);
    FrameAt(rate, start, arrivals, |stamps| - 1);
    BetweenHoldsBoth(Releases(rate, start, arrivals), a, b);
  }

  lemma FirstFindsFull(rate: real, start: real, arrivals: seq<Arrival>)
    requires rate > 0.0 && arrivals != []
    ensures Releases(rate, start, arrivals)[0].available == Cap(rate)
  {
    ShapePrefix(rate, start, arrivals, 1);
    ShapedNext(rate, start, arrivals[..1]);
    GrantNonnegative(rate, Elapsed(start, arrivals[0].at));
  }

  lemma {:induction false} BetweenHolds(log: seq<Shaped>, a: real, b: real, i: nat)
    requires i < |log| && a <= log[i].release <= b
    ensures BytesBetween(log, a, b) >= log[i].len
  {
    if i < |log| - 1 {
      BetweenHolds(log[..|log| - 1], a, b, i);
    }
  }

  lemma BetweenHoldsBoth(log: seq<Shaped>, a: real, b: real)
    requires log != [] && a <= log[0].release <= b && a <= log[|log| - 1].release <= b
    ensures BytesBetween(log, a, b) >= log[0].len + if |log| > 1 then log[|log| - 1].len else 0
  {
    if |log| > 1 {
      BetweenHolds(log[..|log| - 1], a, b, 0);
    } else {
      BetweenHolds(log, a, b, 0);
    }
  }

  // ---- the window bound ----------------------------------------------------------------------------

  /** Between its first and its last release, a load pays for its last frame, counting the slip as time. */
  lemma SpanOfLoad(rate: real, start: real, stamps: seq<real>, first: nat, more: nat)
    requires rate > 0.0 && stamps != [] && (|stamps| == 1 ==> more == 0)
    requires first as real >= Cap(rate) + Grant(rate, Forward(Loaded(stamps, first, more)))
    requires more as real >= Grant(rate, Slip(Loaded(stamps, first, more)))
    ensures var arrivals := Loaded(stamps, first, more);
            var log := Releases(rate, start, arrivals);
            var t := log[|stamps| - 1].release - log[0].release;
            t >= 0.0 && Grant(rate, t + Slip(arrivals)) == more as real
  {
    var arrivals, n := Loaded(stamps, first, more), |stamps| - 1;
    var log, slip := Releases(rate, start, arrivals), Slip(arrivals);
    if n > 0 {
      EndOfLoad(rate, start, stamps, first, more);
      StepsGrow(arrivals, 0);
      GrantNonnegative(rate, Forward(arrivals));
      StartOfLoad(rate, start, stamps, first, more);
      GrantAdds(rate, log[0].release - stamps[0], log[n].release - Begin(arrivals));
      GrantOrder(rate, slip, log[n].release - log[0].release + slip);
    } else {
      assert Grant(rate, 0.0) == 0.0;
    }
  }

  /** A load that fits the slip of its stamps. */
  lemma LoadFor(rate: real, stamps: seq<real>) returns (first: nat, more: nat)
    requires rate > 0.0 && stamps != []
    ensures |stamps| == 1 ==> more == 0
    ensures first >= more && first as real >= Cap(rate) + Grant(rate, Forward(Loaded(stamps, first, more)))
    ensures more as real >= Grant(rate, Slip(Loaded(stamps, first, more)))
  {
    var bare := Loaded(stamps, 0, 0);
    more := if |stamps| > 1 then Above(Grant(rate, Slip(bare))) else 0;
    first := Above(Cap(rate)) + Above(Grant(rate, Forward(bare))) + more;
    SameSteps(Loaded(stamps, first, more), bare);
    assert Grant(rate, 0.0) == 0.0;
  }

  /** For every order of stamps there are frames that reach the window bound, slip included. */
  lemma SlipIsReached(rate: real, start: real, stamps: seq<real>)
    returns (arrivals: seq<Arrival>, from: real, t: real, largest: nat)
    requires rate > 0.0 && stamps != []
    ensures StampsOf(arrivals) == stamps && LensUpTo(arrivals, largest) && t >= 0.0
    ensures BytesBetween(Releases(rate, start, arrivals), from, from + t) as real
            == Max(Cap(rate), largest as real) + Grant(rate, t + Slip(arrivals))
  {
    var first, more := LoadFor(rate, stamps);
    arrivals, largest := Loaded(stamps, first, more), first;
    var log := Releases(rate, start, arrivals);
    from, t := log[0].release, log[|log| - 1].release - log[0].release;
    SpanOfLoad(rate, start, stamps, first, more);
    StepsGrow(arrivals, 0);
    GrantNonnegative(rate, Forward(arrivals));
    LoadedLens(stamps, first, more);
    WindowOfLoad(rate, start, stamps, first, more, from, from + t);
    ReleasedInWindow(rate, start, arrivals, from, t, largest);
  }

  predicate Within(rate: real, start: real, arrivals: seq<Arrival>, from: real, t: real, largest: nat)
    requires rate > 0.0
  {
    BytesBetween(Releases(rate, start, arrivals), from, from + t) as real
    <= Max(Cap(rate), largest as real) + Grant(rate, t)
  }

  /** The plain bound: the rate over the window and the larger of the burst and the largest frame. */
  ghost predicate PlainInWindows(rate: real, start: real, arrivals: seq<Arrival>)
    requires rate > 0.0
  {
    forall from, t, largest :: t >= 0.0 && LensUpTo(arrivals, largest) ==> Within(rate, start, arrivals, from, t, largest)
  }

  lemma PlainWhenInOrder(rate: real, start: real, arrivals: seq<Arrival>)
    requires rate > 0.0 && InOrder(StampsOf(arrivals))
    ensures PlainInWindows(rate, start, arrivals)
  {
    NoSlipInOrder(arrivals);
    forall from, t, largest: nat | t >= 0.0 && LensUpTo(arrivals, largest)
      ensures Within(rate, start, arrivals, from, t, largest)
    {
      ReleasedInWindow(rate, start, arrivals, from, t, largest);
    }
  }

  /** Frames of all lengths with these stamps keep the plain window bound if and only if no frame is charged
      with a stamp older than the one before it. */
  lemma PlainInWindowsExactlyWhen(rate: real, start: real, stamps: seq<real>)
    requires rate > 0.0
    ensures (forall arrivals :: StampsOf(arrivals) == stamps ==> PlainInWindows(rate, start, arrivals))
            <==> InOrder(stamps)
  {
    if InOrder(stamps) {
      forall arrivals | StampsOf(arrivals) == stamps ensures PlainInWindows(rate, start, arrivals) {
        PlainWhenInOrder(rate, start, arrivals);
      }
    } else {
      var arrivals, from, t, largest := SlipIsReached(rate, start, stamps);
      StepsGrow(arrivals, 0);
      if Slip(arrivals) == 0.0 {
        OrderWithoutSlip(arrivals);
        assert false;
      }
      GrantStrict(rate, t, t + Slip(arrivals));
      assert !Within(rate, start, arrivals, from, t, largest);
    }
  }

  lemma GrantStrict(rate: real, a: real, b: real)
    requires rate > 0.0 && a < b
    ensures Grant(rate, a) < Grant(rate, b)
  {
    GrantMonotone(rate, a, b);
    if Grant(rate, b) <= Grant(rate, a) {
      GrantOrder(rate, b, a);
    }
  }

  // ---- the bound since the start -------------------------------------------------------------------

  predicate OnTime(rate: real, start: real, arrivals: seq<Arrival>, t: real)
    requires rate > 0.0
  {
    BytesBetween(Releases(rate, start, arrivals), start, start + t) as real <= Cap(rate) + Grant(rate, t)
  }

  ghost predicate PlainSinceStart(rate: real, start: real, arrivals: seq<Arrival>)
    requires rate > 0.0
  {
    forall t :: t >= 0.0 ==> OnTime(rate, start, arrivals, t)
  }

  /** Frames of all lengths with these stamps keep the plain bound since the start if and only if the slip is
      no longer than the time that passed before the first frame. */
  lemma PlainSinceStartExactlyWhen(rate: real, start: real, stamps: seq<real>)
    requires rate > 0.0
    ensures (forall arrivals :: StampsOf(arrivals) == stamps ==> PlainSinceStart(rate, start, arrivals))
            <==> stamps == [] || Slip(Loaded(stamps, 0, 0)) <= stamps[0] - start
  {
    var bare := Loaded(stamps, 0, 0);
    if stamps == [] || start <= Begin(bare) {
      forall arrivals | StampsOf(arrivals) == stamps ensures PlainSinceStart(rate, start, arrivals) {
        SameSteps(arrivals, bare);
        forall t | t >= 0.0 ensures OnTime(rate, start, arrivals, t) {
          ReleasedByTime(rate, start, arrivals, start, start + t);
          GrantNonnegative(rate, t);
          if stamps != [] {
            GrantMonotone(rate, Max(0.0, start + t - Begin(arrivals)), t);
          }
        }
      }
    } else {
      var arrivals, t := LateStart(rate, start, stamps);
      assert !OnTime(rate, start, arrivals, t);
    }
  }

  /** A load that is heavy enough for `LoadIsLate`. */
  lemma HeavyLoad(rate: real, start: real, stamps: seq<real>) returns (first: nat, more: nat)
    requires rate > 0.0 && stamps != []
    ensures first as real >= Cap(rate) + Max(0.0, Grant(rate, start - stamps[0]))
    ensures first as real >= Cap(rate) + Grant(rate, Forward(Loaded(stamps, first, more)))
    ensures more as real >= Grant(rate, Slip(Loaded(stamps, first, more)))
  {
    var bare := Loaded(stamps, 0, 0);
    more := Above(Grant(rate, Slip(bare)));
    first := Above(Cap(rate)) + Above(Grant(rate, Forward(bare))) + Above(Max(0.0, Grant(rate, start - stamps[0])));
    SameSteps(Loaded(stamps, first, more), bare);
  }

  lemma LateStart(rate: real, start: real, stamps: seq<real>) returns (arrivals: seq<Arrival>, t: real)
    requires rate > 0.0 && stamps != [] && Begin(Loaded(stamps, 0, 0)) < start
    ensures StampsOf(arrivals) == stamps && t >= 0.0 && !OnTime(rate, start, arrivals, t)
  {
    var first, more := HeavyLoad(rate, start, stamps);
    arrivals := Loaded(stamps, first, more);
    SameSteps(arrivals, Loaded(stamps, 0, 0));
    StepsGrow(arrivals, 0);
    GrantNonnegative(rate, Forward(arrivals));
    EndOfLoad(rate, start, stamps, first, more);
    LoadIsLate(rate, start, stamps, first, more);
    var log := Releases(rate, start, arrivals);
    t := log[|stamps| - 1].release - start;
    WindowOfLoad(rate, start, stamps, first, more, start, start + t);
    GrantStrict(rate, t, log[|stamps| - 1].release - Begin(arrivals));
  }

  /** A heavy enough load is released no earlier than the session starts, and its last frame last. */
  lemma LoadIsLate(rate: real, start: real, stamps: seq<real>, first: nat, more: nat)
    requires rate > 0.0 && stamps != []
    requires first as real >= Cap(rate) + Max(0.0, Grant(rate, start - stamps[0]))
    requires first as real >= Cap(rate) + Grant(rate, Forward(Loaded(stamps, first, more)))
    requires more as real >= Grant(rate, Slip(Loaded(stamps, first, more)))
    ensures var log := Releases(rate, start, Loaded(stamps, first, more));
            start <= log[0].release <= log[|log| - 1].release
  {
    var arrivals, n := Loaded(stamps, first, more), |stamps| - 1;
    EndOfLoad(rate, start, stamps, first, more);
    var log, begin := Releases(rate, start, arrivals), Begin(arrivals);
    if n > 0 {
      StartOfLoad(rate, start, stamps, first, more);
      GrantOrder(rate, start - stamps[0], log[0].release - stamps[0]);
      LaterBy(rate, log[0].release - stamps[0], log[n].release - begin, Slip(arrivals));
    } else {
      GrantOrder(rate, start - stamps[0], log[n].release - begin);
    }
  }

  lemma LaterBy(rate: real, a: real, b: real, gap: real)
    requires rate > 0.0 && Grant(rate, b) - Grant(rate, a) >= Grant(rate, gap)
    ensures b - a >= gap
  {
    GrantAdds(rate, a, b);
    GrantOrder(rate, gap, b - a);
  }

  // ---- the order of releases -----------------------------------------------------------------------

  predicate ReleasedInOrder(rate: real, start: real, arrivals: seq<Arrival>)
    requires rate > 0.0
  {
    var log := Releases(rate, start, arrivals);
    forall i, k :: 0 <= i <= k < |log| ==> log[i].release <= log[k].release
  }

  lemma {:induction false} EmptyFramesGoAtOnce(rate: real, start: real, arrivals: seq<Arrival>)
    requires rate > 0.0 && forall i :: 0 <= i < |arrivals| ==> arrivals[i].len == 0
    ensures var line := Shape(rate, start, arrivals);
            && line.bucket.tokens == Cap(rate)
            && forall i :: 0 <= i < |arrivals| ==> line.log[i].release == arrivals[i].at
  {
    if arrivals != [] {
      var n := |arrivals| - 1;
      EmptyFramesGoAtOnce(rate, start, arrivals[..n]);
      ShapedNext(rate, start, arrivals);
      GrantNonnegative(rate, Elapsed(Shape(rate, start, arrivals[..n]).bucket.last, arrivals[n].at));
    }
  }

  lemma OrderlyReleases(rate: real, start: real, arrivals: seq<Arrival>)
    requires rate > 0.0 && InOrder(StampsOf(arrivals))
    ensures ReleasedInOrder(rate, start, arrivals)
  {
    var log := Releases(rate, start, arrivals);
    NoSlipInOrder(arrivals);
    forall i, k | 0 <= i <= k < |log| ensures log[i].release <= log[k].release {
      NoLaterRelease(rate, start, arrivals, i, k);
    }
  }

  lemma NoLaterRelease(rate: real, start: real, arrivals: seq<Arrival>, i: nat, k: nat)
    requires rate > 0.0 && Slip(arrivals) == 0.0 && i <= k < |arrivals|
    ensures var log := Releases(rate, start, arrivals); log[i].release <= log[k].release
  {
    ReleasesSlipNoMore(rate, start, arrivals, i, k);
    StepsGrow(arrivals, i + 1);
    StepsGrow(arrivals, k + 1);
  }

  lemma DisorderlyReleases(rate: real, start: real, stamps: seq<real>)
    requires rate > 0.0 && !InOrder(stamps)
    ensures StampsOf(Loaded(stamps, 0, 0)) == stamps && !ReleasedInOrder(rate, start, Loaded(stamps, 0, 0))
  {
    var bare := Loaded(stamps, 0, 0);
    LoadedLens(stamps, 0, 0);
    EmptyFramesGoAtOnce(rate, start, bare);
    var i, k :| 0 <= i < k < |stamps| && stamps[i] > stamps[k];
    var log := Releases(rate, start, bare);
    assert StampsOf(bare)[i] == stamps[i] && StampsOf(bare)[k] == stamps[k];
    assert log[i].release > log[k].release;
  }

  /** Frames of all lengths with these stamps are released in the order they are charged if and only if no
      frame is charged with a stamp older than the one before it. */
  lemma ReleasedInOrderExactlyWhen(rate: real, start: real, stamps: seq<real>)
    requires rate > 0.0
    ensures (forall arrivals :: StampsOf(arrivals) == stamps ==> ReleasedInOrder(rate, start, arrivals))
            <==> InOrder(stamps)
  {
    if InOrder(stamps) {
      forall arrivals | StampsOf(arrivals) == stamps ensures ReleasedInOrder(rate, start, arrivals) {
        OrderlyReleases(rate, start, arrivals);
      }
    } else {
      DisorderlyReleases(rate, start, stamps);
    }
  }

  // ---- one family of runs --------------------------------------------------------------------------

  /** The rate whose burst is one frame of `c` bytes. */
  function RateOf(c: nat): real {
    4.0 * c as real
  }

  /** One peer sends `n` frames of `c` bytes, a quarter second apart. */
  function InTime(c: nat, n: nat): seq<Arrival> {
    if n == 0 then [] else InTime(c, n - 1) + [Arrival((n - 1) as real * 0.25, c)]
  }

  /** Then the other peer's frame, stamped at the beginning but charged last, and one more of the first. */
  function Overtaken(c: nat, n: nat): seq<Arrival>
    requires n > 0
  {
    InTime(c, n) + [Arrival(0.0, c)] + [Arrival((n - 1) as real * 0.25, c)]
  }

  /** What one more frame does, and whether it is gone by `end`. */
  lemma OneFrame(c: nat, front: seq<Arrival>, at: real, tokens: real, last: real, end: real, gone: nat)
    requires c > 0 && Shape(RateOf(c), 0.0, front).bucket == Bucket(tokens, last)
    requires BytesBetween(Releases(RateOf(c), 0.0, front), 0.0, end) == gone
    ensures var next := Shape(RateOf(c), 0.0, front + [Arrival(at, c)]);
            var b := Bucket(Min(tokens + Grant(RateOf(c), Elapsed(last, at)), c as real) - c as real, at);
            && next.bucket == b
            && BytesBetween(next.log, 0.0, end) == gone + if 0.0 <= at + Delay(RateOf(c), b) <= end then c else 0
  {
    var arrivals := front + [Arrival(at, c)];
    assert arrivals[..|front|] == front;
    ShapedNext(RateOf(c), 0.0, arrivals);
    var line := Shape(RateOf(c), 0.0, front);
    assert (line.log + [Shape(RateOf(c), 0.0, arrivals).log[|front|]])[..|front|] == line.log;
  }

  /** What the rate earns in a quarter second, in nothing, and in longer. */
  lemma Quarters(c: nat)
    requires c > 0
    ensures Grant(RateOf(c), 0.25) == c as real && Grant(RateOf(c), 0.0) == 0.0
    ensures TimeFor(RateOf(c), c as real) == 0.25
    ensures forall t :: t >= 0.5 ==> Grant(RateOf(c), t) >= 2.0 * c as real
  {
    GrantTimeFor(RateOf(c), c as real);
    GrantOrder(RateOf(c), TimeFor(RateOf(c), c as real), 0.25);
    GrantOrder(RateOf(c), 0.25, TimeFor(RateOf(c), c as real));
    forall t | t >= 0.5 ensures Grant(RateOf(c), t) >= 2.0 * c as real {
      GrantMonotone(RateOf(c), 0.5, t);
    }
  }

  /** A frame that finds a full bucket goes at once and leaves it empty. */
  lemma FrameInTime(c: nat, front: seq<Arrival>, at: real, tokens: real, last: real, end: real, gone: nat)
    requires c > 0 && Shape(RateOf(c), 0.0, front).bucket == Bucket(tokens, last) && 0.0 <= at <= end
    requires BytesBetween(Releases(RateOf(c), 0.0, front), 0.0, end) == gone
    requires tokens + Grant(RateOf(c), Elapsed(last, at)) >= c as real
    ensures var next := Shape(RateOf(c), 0.0, front + [Arrival(at, c)]);
            next.bucket == Bucket(0.0, at) && BytesBetween(next.log, 0.0, end) == gone + c
  {
    OneFrame(c, front, at, tokens, last, end, gone);
  }

  /** Sent in time, they go as they come. */
  lemma {:induction false} GoInTime(c: nat, n: nat, end: real)
    requires c > 0 && 1 <= n && (n - 1) as real * 0.25 <= end
    ensures var line := Shape(RateOf(c), 0.0, InTime(c, n));
            line.bucket == Bucket(0.0, (n - 1) as real * 0.25) && BytesBetween(line.log, 0.0, end) == n * c
  {
    Quarters(c);
    if n == 1 {
      assert InTime(c, 0) == [];
      FrameInTime(c, [], 0.0, Cap(RateOf(c)), 0.0, end, 0);
    } else {
      GoInTime(c, n - 1, end);
      assert Elapsed((n - 2) as real * 0.25, (n - 1) as real * 0.25) == 0.25;
      FrameInTime(c, InTime(c, n - 1), (n - 1) as real * 0.25, 0.0, (n - 2) as real * 0.25, end, (n - 1) * c);
      OneMore(c, n - 1);
    }
  }

  lemma OneMore(c: nat, n: nat)
    ensures n * c + c == (n + 1) * c && n as real * c as real + c as real == (n + 1) as real * c as real
  {
  }

  /** An old stamp earns the time since then again, enough for its own frame and the next. */
  lemma TwoMore(c: nat, front: seq<Arrival>, end: real, gone: nat)
    requires c > 0 && end >= 0.5 && Shape(RateOf(c), 0.0, front).bucket == Bucket(0.0, end)
    requires BytesBetween(Releases(RateOf(c), 0.0, front), 0.0, end) == gone
    ensures BytesBetween(Releases(RateOf(c), 0.0, front + [Arrival(0.0, c)] + [Arrival(end, c)]), 0.0, end) == gone + 2 * c
  {
    Quarters(c);
    OneFrame(c, front, 0.0, 0.0, end, end, gone);
    FrameInTime(c, front + [Arrival(0.0, c)], end, -(c as real), 0.0, end, gone + c);
  }

  /** At every rate whose burst is a whole number of bytes: by the last stamp, two frames more than burst and rate
      allow are gone; with five frames in time, seven within a second. */
  lemma OldStampBreaksTheBound(c: nat, n: nat)
    requires c > 0 && n >= 3
    ensures var end := (n - 1) as real * 0.25;
            && BytesBetween(Releases(RateOf(c), 0.0, Overtaken(c, n)), 0.0, end) == (n + 2) * c
            && Cap(RateOf(c)) + Grant(RateOf(c), end) == (n * c) as real
  {
    var end := (n - 1) as real * 0.25;
    GoInTime(c, n, end);
    TwoMore(c, InTime(c, n), end, n * c);
    OneMore(c, n);
    OneMore(c, n + 1);
    EarnedBy(c, n);
  }

  lemma {:induction false} EarnedBy(c: nat, n: nat)
    requires c > 0 && n > 0
    ensures Cap(RateOf(c)) + Grant(RateOf(c), (n - 1) as real * 0.25) == (n * c) as real
  {
    Quarters(c);
    if n > 1 {
      EarnedBy(c, n - 1);
      GrantAdds(RateOf(c), (n - 2) as real * 0.25, (n - 1) as real * 0.25);
      OneMore(c, n - 1);
    }
  }
}

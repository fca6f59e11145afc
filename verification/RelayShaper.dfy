/** The relay server's per-session shaping: a token bucket that may go into debt and answers every frame
    with the delay until that debt is paid.

    A frame is stamped before the hub's lock is taken, so stamps can run backwards in the order in which
    frames are charged. The bucket then earns nothing, but moves its clock back and earns the same time
    again; `Slip` adds up those backward steps. */
module RelayShaper {
  import opened Rates
  import opened Totals

  datatype Bucket = Bucket(tokens: real, last: real)

  function Cap(rate: real): real {
    rate * 0.25
  }

  function Opened(rate: real, now: real): Bucket {
    Bucket(Cap(rate), now)
  }

  function Min(a: real, b: real): real {
    if a <= b then a else b
  }

  function Max(a: real, b: real): real {
    if a >= b then a else b
  }

  /** Time from `last` to `now`, zero if the stamp is older. */
  function Elapsed(last: real, now: real): real {
    if now >= last then now - last else 0.0
  }

  function Available(rate: real, b: Bucket, now: real): real {
    Min(b.tokens + Grant(rate, Elapsed(b.last, now)), Cap(rate))
  }

  function Charge(rate: real, b: Bucket, now: real, len: nat): Bucket {
    Bucket(Available(rate, b, now) - len as real, now)
  }

  function Delay(rate: real, b: Bucket): real
    requires rate > 0.0
  {
    if b.tokens < 0.0 then TimeFor(rate, -b.tokens) else 0.0
  }

  /** A frame of `len` bytes that came from either peer, stamped `at`, in the order of the charges. */
  datatype Arrival = Arrival(at: real, len: nat)

  /** A shaped frame: `release` is its stamp plus the delay it was given, `available` the tokens it found, and
      `granted` the bytes earned by then, not counting the cap. */
  datatype Shaped = Shaped(len: nat, release: real, available: real, granted: real)

  function LenOf(x: Shaped): nat {
    x.len
  }

  function ReleaseOf(x: Shaped): real {
    x.release
  }

  datatype Line = Line(bucket: Bucket, granted: real, log: seq<Shaped>)

  function Shape(rate: real, start: real, arrivals: seq<Arrival>): (line: Line)
    requires rate > 0.0
    ensures |line.log| == |arrivals|
  {
    if arrivals == [] then Line(Opened(rate, start), 0.0, [])
    else
      var line := Shape(rate, start, arrivals[..|arrivals| - 1]);
      var a := arrivals[|arrivals| - 1];
      var granted := line.granted + Grant(rate, Elapsed(line.bucket.last, a.at));
      var b := Charge(rate, line.bucket, a.at, a.len);
      Line(b, granted,
           line.log + [Shaped(a.len, a.at + Delay(rate, b), Available(rate, line.bucket, a.at), granted)])
  }

  function Releases(rate: real, start: real, arrivals: seq<Arrival>): seq<Shaped>
    requires rate > 0.0
  {
    Shape(rate, start, arrivals).log
  }

  // ---- stamps --------------------------------------------------------------------------------------

  function StampsOf(arrivals: seq<Arrival>): (stamps: seq<real>)
    ensures |stamps| == |arrivals|
    ensures forall i :: 0 <= i < |stamps| ==> stamps[i] == arrivals[i].at
  {
    seq(|arrivals|, i requires 0 <= i < |arrivals| => arrivals[i].at)
  }

  predicate InOrder(stamps: seq<real>) {
    forall i, k :: 0 <= i < k < |stamps| ==> stamps[i] <= stamps[k]
  }

  /** All forward steps of the stamps together: the time they earn. */
  function Forward(arrivals: seq<Arrival>): real {
    if |arrivals| <= 1 then 0.0
    else Forward(arrivals[..|arrivals| - 1]) + Elapsed(arrivals[|arrivals| - 2].at, arrivals[|arrivals| - 1].at)
  }

  /** All backward steps of the stamps together: the time they earn twice. */
  function Slip(arrivals: seq<Arrival>): real {
    if |arrivals| <= 1 then 0.0
    else Slip(arrivals[..|arrivals| - 1]) + Elapsed(arrivals[|arrivals| - 1].at, arrivals[|arrivals| - 2].at)
  }

  lemma {:induction false} ForwardIsTime(arrivals: seq<Arrival>)
    requires arrivals != []
    ensures Forward(arrivals) == arrivals[|arrivals| - 1].at - arrivals[0].at + Slip(arrivals)
  {
    if |arrivals| > 1 {
      ForwardIsTime(arrivals[..|arrivals| - 1]);
    }
  }

  lemma {:induction false} StepsGrow(arrivals: seq<Arrival>, k: nat)
    requires k <= |arrivals|
    ensures 0.0 <= Forward(arrivals[..k]) <= Forward(arrivals) && 0.0 <= Slip(arrivals[..k]) <= Slip(arrivals)
  {
    if |arrivals| <= 1 {
      assert |arrivals[..k]| <= 1;
    } else {
      var front := arrivals[..|arrivals| - 1];
      if k == |arrivals| {
        StepsGrow(front, |front|);
        assert arrivals[..k] == arrivals && front[..|front|] == front;
      } else {
        StepsGrow(front, k);
        assert front[..k] == arrivals[..k];
      }
    }
  }

  lemma {:induction false} NoSlipInOrder(arrivals: seq<Arrival>)
    requires InOrder(StampsOf(arrivals))
    ensures Slip(arrivals) == 0.0
  {
    if |arrivals| > 1 {
      var n, stamps := |arrivals| - 1, StampsOf(arrivals);
      assert stamps[n - 1] <= stamps[n];
      assert forall i :: 0 <= i < n ==> StampsOf(arrivals[..n])[i] == stamps[i];
      NoSlipInOrder(arrivals[..n]);
    }
  }

  lemma {:induction false} OrderWithoutSlip(arrivals: seq<Arrival>)
    requires Slip(arrivals) == 0.0
    ensures InOrder(StampsOf(arrivals))
  {
    if |arrivals| > 1 {
      var n, stamps := |arrivals| - 1, StampsOf(arrivals);
      StepsGrow(arrivals, n);
      OrderWithoutSlip(arrivals[..n]);
      assert forall i :: 0 <= i < n ==> StampsOf(arrivals[..n])[i] == stamps[i];
      assert stamps[n - 1] <= stamps[n];
    }
  }

  // ---- the books -----------------------------------------------------------------------------------

  lemma ShapedNext(rate: real, start: real, arrivals: seq<Arrival>)
    requires rate > 0.0 && arrivals != []
    ensures var line, a := Shape(rate, start, arrivals[..|arrivals| - 1]), arrivals[|arrivals| - 1];
            var next := Shape(rate, start, arrivals);
            && next.bucket == Charge(rate, line.bucket, a.at, a.len)
            && next.granted == line.granted + Grant(rate, Elapsed(line.bucket.last, a.at))
            && next.log == line.log + [Shaped(a.len, a.at + Delay(rate, next.bucket),
                                              Available(rate, line.bucket, a.at), next.granted)]
  {
  }

  lemma {:induction false} ShapePrefix(rate: real, start: real, arrivals: seq<Arrival>, k: nat)
    requires rate > 0.0 && k <= |arrivals|
    ensures Releases(rate, start, arrivals[..k]) == Releases(rate, start, arrivals)[..k]
  {
    if k == |arrivals| {
      assert arrivals[..k] == arrivals;
    } else {
      var front := arrivals[..|arrivals| - 1];
      ShapePrefix(rate, start, front, k);
      ShapedNext(rate, start, arrivals);
      assert front[..k] == arrivals[..k];
    }
  }

  /** What has been sent since frame `i`, against what that frame found and what has been earned since. */
  lemma {:induction false} Owed(rate: real, start: real, arrivals: seq<Arrival>, i: nat)
    requires rate > 0.0 && i < |arrivals|
    ensures var line := Shape(rate, start, arrivals);
            Total(LenOf, line.log, i, |arrivals|) as real
            <= line.log[i].available + line.granted - line.log[i].granted - line.bucket.tokens
  {
    var n := |arrivals| - 1;
    var line, next := Shape(rate, start, arrivals[..n]), Shape(rate, start, arrivals);
    ShapedNext(rate, start, arrivals);
    TotalSnoc(LenOf, line.log, next.log[n], i);
    if i < n {
      Owed(rate, start, arrivals[..n], i);
    }
  }

  lemma DelayIsDebt(rate: real, b: Bucket)
    requires rate > 0.0
    ensures Grant(rate, Delay(rate, b)) == Max(0.0, -b.tokens)
  {
    GrantTimeFor(rate, -b.tokens);
    assert Grant(rate, 0.0) == 0.0;
  }

  /** What is known of the last frame. */
  lemma {:induction false} LastFrame(rate: real, start: real, arrivals: seq<Arrival>)
    requires rate > 0.0 && arrivals != []
    ensures var line, n := Shape(rate, start, arrivals), |arrivals| - 1;
            && line.bucket.last == arrivals[n].at && line.log[n].granted == line.granted
            && line.log[n].len == arrivals[n].len && line.log[n].available <= Cap(rate)
            && line.bucket.tokens == line.log[n].available - arrivals[n].len as real
            && Grant(rate, line.log[n].release - arrivals[n].at) == Max(0.0, -line.bucket.tokens)
            && line.granted == line.log[0].granted + Grant(rate, Forward(arrivals))
  {
    var n := |arrivals| - 1;
    ShapedNext(rate, start, arrivals);
    DelayIsDebt(rate, Shape(rate, start, arrivals).bucket);
    if n > 0 {
      LastFrame(rate, start, arrivals[..n]);
      var gain := Elapsed(arrivals[n - 1].at, arrivals[n].at);
      GrantAdds(rate, Forward(arrivals[..n]), Forward(arrivals));
    }
  }

  /** What is known of every frame. */
  lemma FrameAt(rate: real, start: real, arrivals: seq<Arrival>, i: nat)
    requires rate > 0.0 && i < |arrivals|
    ensures var log := Releases(rate, start, arrivals);
            && log[i].len == arrivals[i].len && log[i].available <= Cap(rate)
            && log[i].granted == log[0].granted + Grant(rate, Forward(arrivals[..i + 1]))
            && Grant(rate, log[i].release - arrivals[i].at) == Max(0.0, arrivals[i].len as real - log[i].available)
            && log[i].release >= arrivals[i].at
  {
    var front := arrivals[..i + 1];
    ShapePrefix(rate, start, arrivals, i + 1);
    LastFrame(rate, start, front);
    var log := Releases(rate, start, front);
    GrantOrder(rate, 0.0, log[i].release - arrivals[i].at);
  }

  /** The frames `i..k`, against the time from the stamp of the first to the release of the last. */
  lemma StretchFromStamp(rate: real, start: real, arrivals: seq<Arrival>, i: nat, k: nat)
    requires rate > 0.0 && i < k <= |arrivals|
    ensures var log := Releases(rate, start, arrivals);
            Total(LenOf, log, i, k) as real
            <= log[i].available
               + Grant(rate, log[k - 1].release - arrivals[i].at + Slip(arrivals[..k]) - Slip(arrivals[..i + 1]))
  {
    var log, front := Releases(rate, start, arrivals), arrivals[..k];
    ShapePrefix(rate, start, arrivals, k);
    TotalPrefix(LenOf, log[..k], log[k..], i, k);
    assert log[..k] + log[k..] == log;
    Owed(rate, start, front, i);
    LastFrame(rate, start, front);
    FrameAt(rate, start, arrivals, i);
    ForwardIsTime(front);
    ForwardIsTime(arrivals[..i + 1]);
    GrantAdds(rate, Forward(arrivals[..i + 1]), Forward(front));
    GrantAdds(rate, Forward(front) - Forward(arrivals[..i + 1]),
              Forward(front) - Forward(arrivals[..i + 1]) + (log[k - 1].release - front[k - 1].at));
  }

  // ---- the promises, for every order of stamps -----------------------------------------------------

  /** The frames `i..k`, against the time between the first and the last release and the slip in between. */
  lemma StretchBound(rate: real, start: real, arrivals: seq<Arrival>, i: nat, k: nat)
    requires rate > 0.0 && i < k <= |arrivals|
    ensures var log := Releases(rate, start, arrivals);
            Total(LenOf, log, i, k) as real
            <= Max(Cap(rate), arrivals[i].len as real)
               + Grant(rate, log[k - 1].release - log[i].release + Slip(arrivals[..k]) - Slip(arrivals[..i + 1]))
  {
    var log := Releases(rate, start, arrivals);
    StretchFromStamp(rate, start, arrivals, i, k);
    FrameAt(rate, start, arrivals, i);
    var slip := Slip(arrivals[..k]) - Slip(arrivals[..i + 1]);
    GrantAdds(rate, log[i].release - arrivals[i].at, log[k - 1].release - arrivals[i].at + slip);
  }

  /** Releases step back by no more than the stamps do. */
  lemma {:induction false} ReleasesSlipNoMore(rate: real, start: real, arrivals: seq<Arrival>, i: nat, k: nat)
    requires rate > 0.0 && i <= k < |arrivals|
    ensures var log := Releases(rate, start, arrivals);
            log[i].release + Slip(arrivals[..i + 1]) <= log[k].release + Slip(arrivals[..k + 1])
    decreases k
  {
    if i < k {
      ReleasesSlipNoMore(rate, start, arrivals, i, k - 1);
      NextRelease(rate, start, arrivals[..k + 1]);
      ShapePrefix(rate, start, arrivals, k + 1);
      assert arrivals[..k + 1][..k] == arrivals[..k];
    }
  }

  /** The wait for the earlier debt is over no later than the wait for the present one. */
  lemma DebtsInOrder(rate: real, t1: real, t2: real, gain: real, was: real, now: real)
    requires rate > 0.0 && gain >= 0.0 && t2 <= t1 + Grant(rate, gain)
    requires Grant(rate, was) == Max(0.0, -t1) && Grant(rate, now) == Max(0.0, -t2)
    ensures was <= gain + now
  {
    GrantAdds(rate, gain, gain + now);
    GrantNonnegative(rate, gain);
    GrantOrder(rate, was, gain + now);
  }

  lemma LastDebt(rate: real, start: real, arrivals: seq<Arrival>)
    requires rate > 0.0 && arrivals != []
    ensures var line, n := Shape(rate, start, arrivals), |arrivals| - 1;
            && line.bucket.last == arrivals[n].at
            && Grant(rate, line.log[n].release - arrivals[n].at) == Max(0.0, -line.bucket.tokens)
  {
    LastFrame(rate, start, arrivals);
  }

  lemma NextRelease(rate: real, start: real, arrivals: seq<Arrival>)
    requires rate > 0.0 && |arrivals| >= 2
    ensures var log, n := Releases(rate, start, arrivals), |arrivals| - 1;
            log[n - 1].release + Slip(arrivals[..n]) <= log[n].release + Slip(arrivals)
  {
    var n := |arrivals| - 1;
    var front := arrivals[..n];
    var log, before, after := Releases(rate, start, arrivals), Shape(rate, start, front), Shape(rate, start, arrivals);
    ShapedNext(rate, start, arrivals);
    LastDebt(rate, start, arrivals);
    LastDebt(rate, start, front);
    DebtsInOrder(rate, before.bucket.tokens, after.bucket.tokens, Elapsed(arrivals[n - 1].at, arrivals[n].at),
                 log[n - 1].release - arrivals[n - 1].at, log[n].release - arrivals[n].at);
  }

  /** Bytes released no earlier than `a` and no later than `b`. */
  function BytesBetween(log: seq<Shaped>, a: real, b: real): nat {
    Between(LenOf, ReleaseOf, log, a, b)
  }

  lemma StretchInTime(rate: real, start: real, arrivals: seq<Arrival>, i: nat, k: nat, t: real, largest: nat)
    requires rate > 0.0 && i < k <= |arrivals| && LensUpTo(arrivals, largest)
    requires var log := Releases(rate, start, arrivals); log[k - 1].release - log[i].release <= t
    ensures Total(LenOf, Releases(rate, start, arrivals), i, k) as real
            <= Max(Cap(rate), largest as real) + Grant(rate, t + Slip(arrivals))
  {
    var log := Releases(rate, start, arrivals);
    StretchBound(rate, start, arrivals, i, k);
    StepsGrow(arrivals, k);
    StepsGrow(arrivals, i + 1);
    GrantMonotone(rate, log[k - 1].release - log[i].release + Slip(arrivals[..k]) - Slip(arrivals[..i + 1]),
                  t + Slip(arrivals));
  }

  /** In any window of length `t`, at most the larger of the burst and the largest frame, and the rate over
      the window and the slip. */
  lemma ReleasedInWindow(rate: real, start: real, arrivals: seq<Arrival>, from: real, t: real, largest: nat)
    requires rate > 0.0 && t >= 0.0 && LensUpTo(arrivals, largest)
    ensures BytesBetween(Releases(rate, start, arrivals), from, from + t) as real
            <= Max(Cap(rate), largest as real) + Grant(rate, t + Slip(arrivals))
  {
    StepsGrow(arrivals, 0);
    GrantNonnegative(rate, t + Slip(arrivals));
    var lo, hi := WindowStretch(LenOf, ReleaseOf, Releases(rate, start, arrivals), from, from + t);
    if lo < hi {
      StretchInTime(rate, start, arrivals, lo, hi, t, largest);
    }
  }

  predicate LensUpTo(arrivals: seq<Arrival>, largest: nat) {
    forall i :: 0 <= i < |arrivals| ==> arrivals[i].len <= largest
  }

  /** The stream earns as if it had begun at this time, with a full bucket and a clock that only moves on. */
  function Begin(arrivals: seq<Arrival>): real
    requires arrivals != []
  {
    arrivals[0].at - Slip(arrivals)
  }

  /** By any time `b`, at most the burst and the rate since the beginning. */
  lemma ReleasedByTime(rate: real, start: real, arrivals: seq<Arrival>, a: real, b: real)
    requires rate > 0.0
    ensures var bytes := BytesBetween(Releases(rate, start, arrivals), a, b) as real;
            if arrivals == [] then bytes == 0.0 else bytes <= Cap(rate) + Grant(rate, Max(0.0, b - Begin(arrivals)))
  {
    var log := Releases(rate, start, arrivals);
    var lo, hi := WindowStretch(LenOf, ReleaseOf, log, a, b);
    if arrivals != [] {
      GrantNonnegative(rate, Max(0.0, b - Begin(arrivals)));
      if lo < hi {
        FewerBytes(log, lo, hi);
        StretchFromStamp(rate, start, arrivals, 0, hi);
        FrameAt(rate, start, arrivals, 0);
        StepsGrow(arrivals, hi);
        assert Slip(arrivals[..1]) == 0.0;
        GrantMonotone(rate, log[hi - 1].release - arrivals[0].at + Slip(arrivals[..hi]),
                      Max(0.0, b - Begin(arrivals)));
      }
    }
  }

  lemma {:induction false} FewerBytes(log: seq<Shaped>, from: nat, to: nat)
    requires to <= |log|
    ensures Total(LenOf, log, from, to) <= Total(LenOf, log, 0, to)
  {
    if from < to {
      FewerBytes(log, from, to - 1);
    }
  }

  predicate KeepsWindow(rate: real, log: seq<Shaped>, arrivals: seq<Arrival>, from: real, t: real, largest: nat) {
    BytesBetween(log, from, from + t) as real <= Max(Cap(rate), largest as real) + Grant(rate, t + Slip(arrivals))
  }

  predicate KeepsTime(rate: real, log: seq<Shaped>, arrivals: seq<Arrival>, a: real, b: real) {
    arrivals != [] ==> BytesBetween(log, a, b) as real <= Cap(rate) + Grant(rate, Max(0.0, b - Begin(arrivals)))
  }

  /** Both promises together. */
  predicate KeepsPromises(rate: real, log: seq<Shaped>, arrivals: seq<Arrival>, from: real, t: real, largest: nat) {
    KeepsWindow(rate, log, arrivals, from, t, largest) && KeepsTime(rate, log, arrivals, from, from + t)
  }

  lemma ShapingKeepsPromises(rate: real, start: real, arrivals: seq<Arrival>, from: real, t: real, largest: nat)
    requires rate > 0.0 && t >= 0.0 && LensUpTo(arrivals, largest)
    ensures KeepsPromises(rate, Shape(rate, start, arrivals).log, arrivals, from, t, largest)
  {
    assert KeepsWindow(rate, Releases(rate, start, arrivals), arrivals, from, t, largest) by {
      ReleasedInWindow(rate, start, arrivals, from, t, largest);
    }
    assert KeepsTime(rate, Releases(rate, start, arrivals), arrivals, from, from + t) by {
      ReleasedByTime(rate, start, arrivals, from, from + t);
    }
  }
}

/** What the controller makes of raw measurements: exactly when it gives something up or takes something back, and
    where the smoothed round trip lies. */
module AdapterSignals {
  import opened Wrappers
  import opened Adapter

  // ---- the smoothed round trip ---------------------------------------------------------------------

  /** One measurement: none leaves it alone, the first is taken as it is, a shorter one too, and a longer one moves it
      by a fiftieth of the difference, which counts for no more than twice what it was. */
  lemma SmoothedStep(p: Plan, raise: Raise, s: Tuning, x: Sample)
    requires p.quality.adaptive && OnSteps(s) && (s.baseline.Some? ==> s.baseline.value > 0.0)
    ensures var was, now := s.baseline, Updated(p, raise, s, x).baseline;
            && (x.rtt <= 0.0 ==> now == was)
            && (x.rtt > 0.0 ==> now.Some?)
            && (x.rtt > 0.0 && was.None? ==> now == Some(x.rtt))
            && (x.rtt > 0.0 && was.Some? && x.rtt <= was.value ==> now == Some(x.rtt))
            && (was.Some? && was.value < x.rtt <= 3.0 * was.value ==> 50.0 * (now.value - was.value) == x.rtt - was.value)
            && (was.Some? && x.rtt > 3.0 * was.value ==> 50.0 * (now.value - was.value) == 2.0 * was.value)
  {
    var t := Steered(p, raise, s, x);
    assert t.baseline == Baseline(s.baseline, x.rtt);
  }

  predicate Measured(samples: seq<Sample>) {
    exists i :: 0 <= i < |samples| && samples[i].rtt > 0.0
  }

  predicate Between(lo: real, hi: real, b: Option<real>) {
    b.Some? ==> lo <= b.value <= hi
  }

  predicate RoundTripsBetween(lo: real, hi: real, samples: seq<Sample>) {
    forall i :: 0 <= i < |samples| && samples[i].rtt > 0.0 ==> lo <= samples[i].rtt <= hi
  }

  lemma {:induction false} SmoothedFrom(p: Plan, raise: Raise, s: Tuning, samples: seq<Sample>, lo: real, hi: real)
    requires p.quality.adaptive && OnSteps(s) && 0.0 < lo <= hi && Between(lo, hi, s.baseline)
    requires RoundTripsBetween(lo, hi, samples)
    ensures var b := Run(p, raise, s, samples).baseline;
            Between(lo, hi, b) && (b.Some? <==> s.baseline.Some? || Measured(samples))
    decreases |samples|
  {
    if samples != [] {
      var x, rest := samples[0], samples[1..];
      assert forall i :: 0 <= i < |rest| ==> rest[i] == samples[i + 1];
      SmoothedStep(p, raise, s, x);
      SmoothedFrom(p, raise, Updated(p, raise, s, x), rest, lo, hi);
      MeasuredTail(samples);
    }
  }

  lemma MeasuredTail(samples: seq<Sample>)
    requires samples != []
    ensures Measured(samples) <==> samples[0].rtt > 0.0 || Measured(samples[1..])
  {
    var rest := samples[1..];
    assert forall i :: 0 <= i < |rest| ==> rest[i] == samples[i + 1];
    if i :| 0 <= i < |samples| && samples[i].rtt > 0.0 && i > 0 {
      assert rest[i - 1].rtt > 0.0;
    }
    if i :| 0 <= i < |rest| && rest[i].rtt > 0.0 {
      assert samples[i + 1].rtt > 0.0;
    }
  }

  /** Over every run of an adaptive setting, there is a smoothed round trip from the first measurement on, and it
      lies between the shortest and the longest ones measured. */
  lemma SmoothedIsBetween(q: Quality, w: nat, h: nat, raise: Raise, now: real, samples: seq<Sample>, lo: real, hi: real)
    requires q.adaptive && 0.0 < lo <= hi && RoundTripsBetween(lo, hi, samples)
    ensures var p := MakePlan(q, w, h);
            var b := Run(p, raise, Start(p, now), samples).baseline;
            (b.Some? <==> Measured(samples)) && (b.Some? ==> lo <= b.value <= hi)
  {
    var p := MakePlan(q, w, h);
    SmoothedFrom(p, raise, Start(p, now), samples, lo, hi);
  }

  // ---- giving up and taking back -------------------------------------------------------------------

  /** Fewer pixels, fewer frames, or with as many of both less bitrate. */
  predicate Worse(a: Target, b: Target) {
    || b.fps < a.fps || b.scalePercent < a.scalePercent
    || (b.fps == a.fps && b.scalePercent == a.scalePercent && b.bitrate < a.bitrate)
  }

  /** Something is left that the user has not fixed. */
  predicate CanGiveUp(p: Plan, t: Target) {
    var q := p.quality;
    || (q.bitrateKbps == 0 && t.bitrate > p.minBitrate)
    || (q.fps == 0 && q.preset != BestQuality && t.fps > 15)
    || (q.maxHeight == 0 && t.scalePercent > 33)
  }

  /** Something can be taken back: resolution, the frame rate at twice the minimum bitrate, or bitrate. */
  predicate CanTakeBack(p: Plan, t: Target) {
    var q := p.quality;
    || (q.maxHeight == 0 && t.scalePercent < 100)
    || (q.fps == 0 && q.preset != BestQuality && t.fps < 60 && t.bitrate >= 2 * p.minBitrate)
    || (q.bitrateKbps == 0 && t.bitrate < p.maxBitrate)
  }

  lemma SmoothedIsBaseline(p: Plan, raise: Raise, s: Tuning, x: Sample)
    requires p.quality.adaptive && OnSteps(s)
    ensures Updated(p, raise, s, x).baseline == Baseline(s.baseline, x.rtt)
  {
    assert Steered(p, raise, s, x).baseline == Baseline(s.baseline, x.rtt);
  }

  lemma DegradingIsWorse(p: Plan, s: Tuning)
    requires Adaptive(p) && Kept(p, s)
    ensures Worse(TargetOf(s), TargetOf(Degraded(p, s))) <==> CanGiveUp(p, TargetOf(s))
  {
  }

  lemma ImprovingIsBetter(p: Plan, raise: Raise, s: Tuning)
    requires Adaptive(p) && Kept(p, s)
    ensures Worse(TargetOf(Improved(p, raise, s)), TargetOf(s)) <==> CanTakeBack(p, TargetOf(s))
    ensures !Worse(TargetOf(s), TargetOf(Improved(p, raise, s)))
  {
    ScaleCapGrows(p, if s.scaleIdx > 0 then s.scaleIdx - 1 else 0);
  }

  lemma DegradesWhen(p: Plan, raise: Raise, s: Tuning, x: Sample)
    requires Adaptive(p) && Kept(p, s)
    ensures var t := Updated(p, raise, s, x);
            Worse(TargetOf(s), TargetOf(t)) <==>
              x.at - s.lastChange >= 1.5 && CanGiveUp(p, TargetOf(s))
              && (x.sendDelay > 60.0 || x.dropped >= 3
                  || (x.rtt > 0.0 && t.baseline.Some? && x.rtt > 2.0 * t.baseline.value + 60.0))
  {
    SmoothedIsBaseline(p, raise, s, x);
    BaselineStaysPositive(s.baseline, x.rtt);
    var measured := s.(baseline := Baseline(s.baseline, x.rtt));
    DegradingIsWorse(p, measured.(streak := 0));
    ImprovingIsBetter(p, raise, measured.(streak := 3));
  }

  /** A send delay under 25 ms, no frame dropped, and a round trip that was not measured or is under one and a half
      times the smoothed one and 30 ms. */
  predicate Unburdened(x: Sample, smoothed: Option<real>) {
    && x.sendDelay < 25.0 && x.dropped == 0
    && (x.rtt == 0.0 || x.rtt < (if smoothed.Some? then 1.5 * smoothed.value else 0.0) + 30.0)
  }

  lemma CleanIsUnburdened(p: Plan, raise: Raise, s: Tuning, x: Sample)
    requires Adaptive(p) && Kept(p, s)
    ensures var smoothed := Updated(p, raise, s, x).baseline;
            && (Clean(s, x) <==> Unburdened(x, smoothed)) && (Clean(s, x) ==> !Congested(s, x))
  {
    SmoothedIsBaseline(p, raise, s, x);
    BaselineStaysPositive(s.baseline, x.rtt);
    if Clean(s, x) {
      CleanIsNotCongested(s, x);
    }
  }

  lemma StreakCounts(p: Plan, raise: Raise, s: Tuning, x: Sample)
    requires Adaptive(p) && Kept(p, s)
    ensures Updated(p, raise, s, x).streak
            == if !Unburdened(x, Updated(p, raise, s, x).baseline) then 0
               else if x.at - s.lastChange >= 5.0 && s.streak >= 5 then 3 else s.streak + 1
  {
    CleanIsUnburdened(p, raise, s, x);
  }

  /** What one sample makes of the target. */
  lemma TargetAfterSample(p: Plan, raise: Raise, s: Tuning, x: Sample)
    requires Adaptive(p) && Kept(p, s)
    ensures var measured := s.(baseline := Baseline(s.baseline, x.rtt));
            TargetOf(Updated(p, raise, s, x))
            == if Congested(s, x) && x.at - s.lastChange >= 1.5 then TargetOf(Degraded(p, measured.(streak := 0)))
               else if Clean(s, x) && s.streak >= 5 && x.at - s.lastChange >= 5.0
               then TargetOf(Improved(p, raise, measured.(streak := 3)))
               else TargetOf(s)
  {
  }

  lemma ImprovesWhen(p: Plan, raise: Raise, s: Tuning, x: Sample)
    requires Adaptive(p) && Kept(p, s)
    ensures var t := Updated(p, raise, s, x);
            Worse(TargetOf(t), TargetOf(s)) && !Worse(TargetOf(s), TargetOf(t)) <==>
              x.at - s.lastChange >= 5.0 && CanTakeBack(p, TargetOf(s)) && s.streak >= 5 && Unburdened(x, t.baseline)
  {
    CleanIsUnburdened(p, raise, s, x);
    TargetAfterSample(p, raise, s, x);
    var measured := s.(baseline := Baseline(s.baseline, x.rtt));
    DegradingIsWorse(p, measured.(streak := 0));
    ImprovingIsBetter(p, raise, measured.(streak := 3));
  }

  // ---- over runs -----------------------------------------------------------------------------------

  lemma {:induction false} RunSnoc(p: Plan, raise: Raise, s: Tuning, samples: seq<Sample>, x: Sample)
    requires OnSteps(s)
    ensures Run(p, raise, s, samples + [x]) == Updated(p, raise, Run(p, raise, s, samples), x)
    decreases |samples|
  {
    var more := samples + [x];
    if samples == [] {
      assert more[1..] == [];
    } else {
      assert more[1..] == samples[1..] + [x];
      RunSnoc(p, raise, Updated(p, raise, s, samples[0]), samples[1..], x);
    }
  }

  function After(p: Plan, raise: Raise, now: real, history: seq<Sample>): Tuning
    requires p.firstFps <= LOWEST_FPS
  {
    Run(p, raise, Start(p, now), history)
  }

  /** When the target last changed, or the stream began. */
  function ChangedAt(p: Plan, raise: Raise, now: real, history: seq<Sample>): real
    requires p.firstFps <= LOWEST_FPS
  {
    if history == [] then now
    else
      var front, x := history[..|history| - 1], history[|history| - 1];
      if TargetOf(After(p, raise, now, history)) != TargetOf(After(p, raise, now, front)) then x.at
      else ChangedAt(p, raise, now, front)
  }

  /** How many unburdened samples in a row have been counted: a burdened one starts again, and a sixth one five seconds
      after the last change leaves the count at three. */
  function Counted(p: Plan, raise: Raise, now: real, history: seq<Sample>): nat
    requires p.firstFps <= LOWEST_FPS
  {
    if history == [] then 0
    else
      var front, x := history[..|history| - 1], history[|history| - 1];
      var was := Counted(p, raise, now, front);
      if !Unburdened(x, After(p, raise, now, history).baseline) then 0
      else if was >= 5 && x.at - ChangedAt(p, raise, now, front) >= 5.0 then 3
      else was + 1
  }

  lemma AfterIsKept(q: Quality, w: nat, h: nat, raise: Raise, now: real, history: seq<Sample>)
    requires q.adaptive
    ensures var p := MakePlan(q, w, h); Adaptive(p) && Kept(p, After(p, raise, now, history))
  {
    EveryPlanIsAdaptive(q, w, h, now);
    RunKeeps(MakePlan(q, w, h), raise, Start(MakePlan(q, w, h), now), history);
  }

  predicate Counts(p: Plan, raise: Raise, now: real, history: seq<Sample>)
    requires p.firstFps <= LOWEST_FPS
  {
    var s := After(p, raise, now, history);
    s.lastChange == ChangedAt(p, raise, now, history) && s.streak == Counted(p, raise, now, history)
  }

  lemma CountsOneMore(p: Plan, raise: Raise, now: real, front: seq<Sample>, x: Sample)
    requires Adaptive(p) && p.firstFps <= LOWEST_FPS && Kept(p, After(p, raise, now, front)) && Counts(p, raise, now, front)
    ensures Counts(p, raise, now, front + [x])
  {
    RunSnoc(p, raise, Start(p, now), front, x);
    assert (front + [x])[..|front|] == front;
    StreakCounts(p, raise, After(p, raise, now, front), x);
    ChangeIsNoted(p, raise, After(p, raise, now, front), x);
  }

  lemma {:induction false} CountsAreTheRuns(q: Quality, w: nat, h: nat, raise: Raise, now: real, history: seq<Sample>)
    requires q.adaptive
    ensures Counts(MakePlan(q, w, h), raise, now, history)
  {
    if history != [] {
      var front, x := history[..|history| - 1], history[|history| - 1];
      CountsAreTheRuns(q, w, h, raise, now, front);
      AfterIsKept(q, w, h, raise, now, front);
      CountsOneMore(MakePlan(q, w, h), raise, now, front, x);
      assert history == front + [x];
    }
  }

  lemma ChangeIsNoted(p: Plan, raise: Raise, s: Tuning, x: Sample)
    requires p.quality.adaptive && OnSteps(s)
    ensures var t := Updated(p, raise, s, x);
            t.lastChange == if TargetOf(t) != TargetOf(s) then x.at else s.lastChange
  {
    assert Steered(p, raise, s, x).lastChange == s.lastChange;
  }

  /** For every adaptive setting and after any history: the stream gives something up if and only if at least a second
      and a half has passed since the last change, something is left to give up, and the send delay is over 60 ms, or
      three or more frames were dropped, or the round trip is over twice the smoothed one and 60 ms. */
  lemma DegradesExactlyWhen(q: Quality, w: nat, h: nat, raise: Raise, now: real, history: seq<Sample>, x: Sample)
    requires q.adaptive
    ensures var p := MakePlan(q, w, h);
            var s := After(p, raise, now, history);
            var t := Updated(p, raise, s, x);
            Worse(TargetOf(s), TargetOf(t)) <==>
              x.at - ChangedAt(p, raise, now, history) >= 1.5 && CanGiveUp(p, TargetOf(s))
              && (x.sendDelay > 60.0 || x.dropped >= 3
                  || (x.rtt > 0.0 && t.baseline.Some? && x.rtt > 2.0 * t.baseline.value + 60.0))
  {
    var p := MakePlan(q, w, h);
    AfterIsKept(q, w, h, raise, now, history);
    CountsAreTheRuns(q, w, h, raise, now, history);
    DegradesWhen(p, raise, After(p, raise, now, history), x);
  }

  /** For every adaptive setting and after any history: the stream takes something back, and gives nothing up for it,
      if and only if this sample and the five counted before it were unburdened, at least five seconds have passed
      since the last change, and something can be taken back. */
  lemma ImprovesExactlyWhen(q: Quality, w: nat, h: nat, raise: Raise, now: real, history: seq<Sample>, x: Sample)
    requires q.adaptive
    ensures var p := MakePlan(q, w, h);
            var s := After(p, raise, now, history);
            var t := Updated(p, raise, s, x);
            Worse(TargetOf(t), TargetOf(s)) && !Worse(TargetOf(s), TargetOf(t)) <==>
              && x.at - ChangedAt(p, raise, now, history) >= 5.0 && CanTakeBack(p, TargetOf(s))
              && Counted(p, raise, now, history) >= 5 && Unburdened(x, t.baseline)
  {
    var p := MakePlan(q, w, h);
    AfterIsKept(q, w, h, raise, now, history);
    CountsAreTheRuns(q, w, h, raise, now, history);
    ImprovesWhen(p, raise, After(p, raise, now, history), x);
  }

  // ---- the plan ------------------------------------------------------------------------------------

  /** The height of the picture: that of the screen, unless the setting's limit, or without an effective one 720 for the
      low-bandwidth preset, is less. */
  function Height(q: Quality, h: nat): nat {
    if 0 < q.maxHeight < h then q.maxHeight else if q.preset == LowBandwidth && 720 < h then 720 else h
  }

  /** A smaller picture keeps the screen's shape. */
  function Pixels(w: nat, h: nat, height: nat): nat {
    if height < h then Div(Mul(Mul(w, height), height), h) else Mul(w, h)
  }

  /** A manual bitrate is taken as it is. An automatic one allows for each frame of a second, at the first frame rate and
      in thousandths of a bit a pixel, what the preset grants: 40, 60 for a balanced picture, 100 for the best and 15 for
      low bandwidth; rounded down to a kilobit, but from 500 to 60,000. The minimum is an eighth, or 300. */
  lemma PlanAllows(q: Quality, w: nat, h: nat, grant: nat)
    requires grant == match q.preset
                      case Auto => 40 case LowLatency => 40 case Balanced => 60 case BestQuality => 100 case LowBandwidth => 15
    ensures var p := MakePlan(q, w, h);
            var ideal := Div(Mul(Mul(Pixels(w, h, Height(q, h)), FPS_STEPS[p.firstFps]), grant), 1_000_000);
            && (q.bitrateKbps > 0 ==> p.maxBitrate == q.bitrateKbps)
            && (q.bitrateKbps == 0 ==>
                  p.maxBitrate == if ideal < 500 then 500 else if ideal > 60_000 then 60_000 else ideal)
            && (p.minBitrate == p.maxBitrate / 8 || p.minBitrate == 300)
            && p.minBitrate >= p.maxBitrate / 8 && p.minBitrate >= 300
  {
    assert CappedPixels(q, w, h) == Pixels(w, h, Height(q, h));
    assert Budget(q.preset) == grant;
  }

  /** The first frame rate is the fastest step within the setting's, or without one within 30 for low bandwidth and 60
      else. */
  lemma FirstRate(q: Quality, w: nat, h: nat)
    ensures var first := FPS_STEPS[MakePlan(q, w, h).firstFps];
            var cap := if q.fps > 0 then q.fps else if q.preset == LowBandwidth then 30 else 60;
            && first in FPS_STEPS && (first <= cap || first == FPS_STEPS[LOWEST_FPS])
            && forall step :: step in FPS_STEPS && step <= cap ==> step <= first
  {
  }
}

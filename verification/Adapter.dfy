/** The adaptive streaming controller: quick, ordered degradation and slow recovery with a hold-off. */
module Adapter {
  import opened Wrappers

  datatype Preset = Auto | BestQuality | Balanced | LowLatency | LowBandwidth

  /** What the user asked for; zero means automatic. */
  datatype Quality = Quality(preset: Preset, fps: nat, maxHeight: nat, bitrateKbps: nat, adaptive: bool)

  datatype Sample = Sample(rtt: real, sendDelay: real, dropped: nat, at: real)

  datatype Target = Target(bitrate: nat, fps: nat, scalePercent: nat)

  const FPS_STEPS: seq<nat> := [60, 30, 15]
  const SCALE_STEPS: seq<nat> := [100, 75, 50, 33]
  const LOWEST_FPS: nat := 2
  const LOWEST_SCALE: nat := 3

  const SHORT_HOLD: real := 1.5
  const LONG_HOLD: real := 5.0

  /** How recovery raises a bitrate: any function that makes real progress from 300 kbit/s up. */
  type Raise = f: nat -> nat | forall b :: b >= 300 ==> b < f(b) witness (b: nat) => b + 1

  function Max(a: nat, b: nat): nat {
    if a >= b then a else b
  }

  function Min(a: nat, b: nat): nat {
    if a <= b then a else b
  }

  // ---- the fixed part ------------------------------------------------------------------------------

  datatype Plan = Plan(quality: Quality, maxBitrate: nat, minBitrate: nat, firstFps: nat)

  /** Thousandths of a bit per pixel. */
  function Budget(p: Preset): nat {
    match p
    case Auto => 40
    case LowLatency => 40
    case Balanced => 60
    case BestQuality => 100
    case LowBandwidth => 15
  }

  function FpsCap(q: Quality): nat {
    if q.fps > 0 then q.fps else if q.preset == LowBandwidth then 30 else 60
  }

  /** The fastest step within the cap, or the slowest step when even that is above it. */
  function FirstFps(cap: nat): (i: nat)
    ensures i <= LOWEST_FPS
    ensures FPS_STEPS[i] <= cap || i == LOWEST_FPS
    ensures forall k :: 0 <= k < i ==> FPS_STEPS[k] > cap
  {
    if FPS_STEPS[0] <= cap then 0 else if FPS_STEPS[1] <= cap then 1 else 2
  }

  function Mul(a: nat, b: nat): nat {
    a * b
  }

  function Div(a: nat, b: nat): nat
    requires b > 0
  {
    a / b
  }

  function CappedPixels(q: Quality, w: nat, h: nat): nat {
    if 0 < q.maxHeight < h then Div(Mul(Mul(w, q.maxHeight), q.maxHeight), h)
    else if q.preset == LowBandwidth && h > 720 then Div(Mul(Mul(w, 720), 720), h)
    else Mul(w, h)
  }

  function IdealBitrate(q: Quality, w: nat, h: nat): nat {
    Div(Mul(Mul(CappedPixels(q, w, h), FPS_STEPS[FirstFps(FpsCap(q))]), Budget(q.preset)), 1_000_000)
  }

  function MakePlan(q: Quality, w: nat, h: nat): (p: Plan)
    ensures p.minBitrate >= 300 && p.firstFps <= LOWEST_FPS
    ensures q.bitrateKbps == 0 ==> 500 <= p.maxBitrate <= 60_000 && p.minBitrate <= p.maxBitrate
  {
    var maxBitrate := if q.bitrateKbps > 0 then q.bitrateKbps else Min(Max(IdealBitrate(q, w, h), 500), 60_000);
    Plan(q, maxBitrate, Max(maxBitrate / 8, 300), FirstFps(FpsCap(q)))
  }

  predicate AutoBitrate(q: Quality) {
    q.bitrateKbps == 0
  }

  predicate AutoFps(q: Quality) {
    q.fps == 0 && q.preset != BestQuality
  }

  predicate AutoScale(q: Quality) {
    q.maxHeight == 0
  }

  predicate FullyAutomatic(q: Quality) {
    q.adaptive && AutoBitrate(q) && AutoFps(q) && AutoScale(q)
  }

  // ---- the moving part -----------------------------------------------------------------------------

  datatype Tuning = Tuning(bitrate: nat, fpsIdx: nat, scaleIdx: nat, baseline: Option<real>, streak: nat,
                           lastChange: real)

  function Start(p: Plan, now: real): Tuning {
    Tuning(p.maxBitrate, p.firstFps, 0, None, 0, now)
  }

  predicate OnSteps(s: Tuning) {
    s.fpsIdx <= LOWEST_FPS && s.scaleIdx <= LOWEST_SCALE
  }

  function TargetOf(s: Tuning): Target
    requires OnSteps(s)
  {
    Target(s.bitrate, FPS_STEPS[s.fpsIdx], SCALE_STEPS[s.scaleIdx])
  }

  /** The rate is cut with the number of pixels, down to the minimum at most. */
  function ScaleCap(p: Plan, scaleIdx: nat): nat
    requires scaleIdx <= LOWEST_SCALE
  {
    Max(p.maxBitrate * SCALE_STEPS[scaleIdx] * SCALE_STEPS[scaleIdx] / 10_000, p.minBitrate)
  }

  function AtScale(p: Plan, s: Tuning, scaleIdx: nat): Tuning
    requires scaleIdx <= LOWEST_SCALE
  {
    s.(scaleIdx := scaleIdx, bitrate := Min(s.bitrate, ScaleCap(p, scaleIdx)))
  }

  function Degraded(p: Plan, s: Tuning): Tuning
    requires OnSteps(s)
  {
    if AutoBitrate(p.quality) && s.bitrate > p.minBitrate then
      s.(bitrate := Max(3 * s.bitrate / 4, p.minBitrate))
    else if AutoFps(p.quality) && s.fpsIdx < LOWEST_FPS then
      s.(fpsIdx := s.fpsIdx + 1, bitrate := Max(s.bitrate, p.minBitrate))
    else if AutoScale(p.quality) && s.scaleIdx < LOWEST_SCALE then
      AtScale(p, s, s.scaleIdx + 1)
    else s
  }

  function Improved(p: Plan, raise: Raise, s: Tuning): Tuning
    requires OnSteps(s)
  {
    if s.scaleIdx > 0 && AutoScale(p.quality) then AtScale(p, s, s.scaleIdx - 1)
    else if s.fpsIdx > 0 && AutoFps(p.quality) && s.bitrate >= p.minBitrate * 2 then s.(fpsIdx := s.fpsIdx - 1)
    else if AutoBitrate(p.quality) && s.bitrate < p.maxBitrate then
      s.(bitrate := Min(raise(s.bitrate), p.maxBitrate))
    else s
  }

  function RealMin(a: real, b: real): real {
    if a <= b then a else b
  }

  function Baseline(known: Option<real>, rtt: real): Option<real> {
    if rtt <= 0.0 then known
    else if known.None? then Some(rtt)
    else Some(RealMin(known.value, rtt) * 0.98 + RealMin(rtt, known.value * 3.0) * 0.02)
  }

  /** The smoothed round trip a sample is judged against, itself included. */
  function Base(s: Tuning, x: Sample): real {
    match Baseline(s.baseline, x.rtt)
    case Some(b) => b
    case None => 0.0
  }

  predicate Congested(s: Tuning, x: Sample) {
    x.sendDelay > 60.0 || x.dropped >= 3 || (x.rtt > 0.0 && x.rtt > Base(s, x) * 2.0 + 60.0)
  }

  predicate Clean(s: Tuning, x: Sample) {
    x.sendDelay < 25.0 && x.dropped == 0 && (x.rtt == 0.0 || x.rtt < Base(s, x) * 1.5 + 30.0)
  }

  /** Time since the last change; zero for a clock that went backwards. */
  function Hold(s: Tuning, now: real): real {
    if now >= s.lastChange then now - s.lastChange else 0.0
  }

  function SteeredBy(p: Plan, raise: Raise, s: Tuning, congested: bool, clean: bool, hold: real): Tuning
    requires OnSteps(s)
  {
    if congested && hold >= SHORT_HOLD then Degraded(p, s.(streak := 0))
    else if clean then
      if s.streak + 1 >= 6 && hold >= LONG_HOLD then Improved(p, raise, s.(streak := 3))
      else s.(streak := s.streak + 1)
    else s.(streak := 0)
  }

  /** The controller's decision, before it notes whether anything changed. */
  function Steered(p: Plan, raise: Raise, s: Tuning, x: Sample): Tuning
    requires OnSteps(s)
  {
    SteeredBy(p, raise, s.(baseline := Baseline(s.baseline, x.rtt)), Congested(s, x), Clean(s, x), Hold(s, x.at))
  }

  function Updated(p: Plan, raise: Raise, s: Tuning, x: Sample): (t: Tuning)
    requires OnSteps(s)
    ensures OnSteps(t)
  {
    if !p.quality.adaptive then s
    else
      var t := Steered(p, raise, s, x);
      if TargetOf(t) != TargetOf(s) then t.(lastChange := x.at) else t
  }

  class Adapter {
    const plan: Plan
    const raise: Raise
    var bitrate: nat
    var fpsIdx: nat
    var scaleIdx: nat
    var baseline: Option<real>
    var streak: nat
    var lastChange: real

    ghost function State(): Tuning
      reads this
    {
      Tuning(bitrate, fpsIdx, scaleIdx, baseline, streak, lastChange)
    }

    constructor (quality: Quality, nativeWidth: nat, nativeHeight: nat, raise: Raise, now: real)
      ensures plan == MakePlan(quality, nativeWidth, nativeHeight) && this.raise == raise
      ensures State() == Start(plan, now) && OnSteps(State())
    {
      var p := MakePlan(quality, nativeWidth, nativeHeight);
      plan, this.raise := p, raise;
      bitrate, fpsIdx, scaleIdx := p.maxBitrate, p.firstFps, 0;
      baseline, streak, lastChange := None, 0, now;
    }

    method CurrentTarget() returns (t: Target)
      requires OnSteps(State())
      ensures t == TargetOf(State())
    {
      t := Target(bitrate, FPS_STEPS[fpsIdx], SCALE_STEPS[scaleIdx]);
    }

    /** Takes in one measurement; there is an answer only if the target is another one now. */
    method Update(x: Sample) returns (changed: Option<Target>)
      requires OnSteps(State())
      modifies this
      ensures State() == Updated(plan, raise, old(State()), x)
      ensures changed == if TargetOf(State()) != old(TargetOf(State())) then Some(TargetOf(State())) else None
    {
      if !plan.quality.adaptive {
        return None;
      }
      var before := CurrentTarget();
      var base := Measure(x.rtt);
      var congested := x.sendDelay > 60.0 || x.dropped >= 3 || (x.rtt > 0.0 && x.rtt > base * 2.0 + 60.0);
      var clean := x.sendDelay < 25.0 && x.dropped == 0 && (x.rtt == 0.0 || x.rtt < base * 1.5 + 30.0);
      Steer(congested, clean, if x.at >= lastChange then x.at - lastChange else 0.0);
      var after := CurrentTarget();
      if after != before {
        lastChange := x.at;
        changed := Some(after);
      } else {
        changed := None;
      }
    }

    /** Folds a round trip into the baseline; zero as long as there is none. */
    method Measure(rtt: real) returns (base: real)
      modifies this`baseline
      ensures baseline == Baseline(old(baseline), rtt)
      ensures base == if baseline.Some? then baseline.value else 0.0
    {
      if rtt > 0.0 {
        match baseline {
          case Some(b) => baseline := Some(RealMin(b, rtt) * 0.98 + RealMin(rtt, b * 3.0) * 0.02);
          case None => baseline := Some(rtt);
        }
      }
      base := match baseline case Some(b) => b case None => 0.0;
    }

    method Steer(congested: bool, clean: bool, hold: real)
      requires OnSteps(State())
      modifies this
      ensures State() == SteeredBy(plan, raise, old(State()), congested, clean, hold)
      ensures OnSteps(State())
    {
      if congested && hold >= SHORT_HOLD {
        streak := 0;
        Degrade();
      } else if clean {
        streak := streak + 1;
        if streak >= 6 && hold >= LONG_HOLD {
          streak := 3;
          Improve();
        }
      } else {
        streak := 0;
      }
    }

    method Degrade()
      requires OnSteps(State())
      modifies this
      ensures State() == Degraded(plan, old(State()))
      ensures OnSteps(State())
    {
      if AutoBitrate(plan.quality) && bitrate > plan.minBitrate {
        bitrate := 3 * bitrate / 4;
        bitrate := Max(bitrate, plan.minBitrate);
      } else if AutoFps(plan.quality) && fpsIdx + 1 < |FPS_STEPS| {
        fpsIdx := fpsIdx + 1;
        bitrate := Max(bitrate, plan.minBitrate);
      } else if AutoScale(plan.quality) && scaleIdx + 1 < |SCALE_STEPS| {
        scaleIdx := scaleIdx + 1;
        CapBitrateForScale();
      }
    }

    method Improve()
      requires OnSteps(State())
      modifies this
      ensures State() == Improved(plan, raise, old(State()))
      ensures OnSteps(State())
    {
      if scaleIdx > 0 && AutoScale(plan.quality) {
        scaleIdx := scaleIdx - 1;
        CapBitrateForScale();
      } else if fpsIdx > 0 && AutoFps(plan.quality) && bitrate >= plan.minBitrate * 2 {
        fpsIdx := fpsIdx - 1;
      } else if AutoBitrate(plan.quality) && bitrate < plan.maxBitrate {
        bitrate := Min(raise(bitrate), plan.maxBitrate);
      }
    }

    method CapBitrateForScale()
      requires OnSteps(State())
      modifies this`bitrate
      ensures bitrate == Min(old(bitrate), ScaleCap(plan, scaleIdx))
    {
      var percent := SCALE_STEPS[scaleIdx];
      bitrate := Min(bitrate, Max(plan.maxBitrate * percent * percent / 10_000, plan.minBitrate));
    }
  }

  // ---- runs ----------------------------------------------------------------------------------------

  function Run(p: Plan, raise: Raise, s: Tuning, samples: seq<Sample>): (t: Tuning)
    requires OnSteps(s)
    ensures OnSteps(t)
    decreases |samples|
  {
    if samples == [] then s else Run(p, raise, Updated(p, raise, s, samples[0]), samples[1..])
  }

  // ---- bounds and order ----------------------------------------------------------------------------

  /** What every reachable state of a fully automatic stream satisfies: each dimension is given up only when
      the ones before it are exhausted. */
  predicate Ordered(p: Plan, s: Tuning) {
    && OnSteps(s)
    && p.minBitrate <= s.bitrate <= p.maxBitrate
    && (s.scaleIdx > 0 ==> s.fpsIdx == LOWEST_FPS && s.bitrate == p.minBitrate)
    && (s.baseline.Some? ==> s.baseline.value > 0.0)
  }

  predicate Sound(p: Plan) {
    300 <= p.minBitrate <= p.maxBitrate && p.firstFps <= LOWEST_FPS && FullyAutomatic(p.quality)
  }

  lemma DegradingKeepsOrder(p: Plan, s: Tuning)
    requires Sound(p) && Ordered(p, s)
    ensures Ordered(p, Degraded(p, s))
  {
  }

  lemma ImprovingKeepsOrder(p: Plan, raise: Raise, s: Tuning)
    requires Sound(p) && Ordered(p, s)
    ensures Ordered(p, Improved(p, raise, s))
  {
  }

  lemma BaselineStaysPositive(known: Option<real>, rtt: real)
    requires known.Some? ==> known.value > 0.0
    ensures Baseline(known, rtt).Some? ==> Baseline(known, rtt).value > 0.0
  {
  }

  lemma SteeringKeepsOrder(p: Plan, raise: Raise, s: Tuning, x: Sample)
    requires Sound(p) && Ordered(p, s)
    ensures Ordered(p, Steered(p, raise, s, x))
  {
    BaselineStaysPositive(s.baseline, x.rtt);
    var measured := s.(baseline := Baseline(s.baseline, x.rtt));
    if Congested(s, x) && Hold(s, x.at) >= SHORT_HOLD {
      DegradingKeepsOrder(p, measured.(streak := 0));
    } else if Clean(s, x) && s.streak + 1 >= 6 && Hold(s, x.at) >= LONG_HOLD {
      ImprovingKeepsOrder(p, raise, measured.(streak := 3));
    }
  }

  lemma UpdateKeepsOrder(p: Plan, raise: Raise, s: Tuning, x: Sample)
    requires Sound(p) && Ordered(p, s)
    ensures Ordered(p, Updated(p, raise, s, x))
  {
    SteeringKeepsOrder(p, raise, s, x);
    var t := Steered(p, raise, s, x);
    assert Updated(p, raise, s, x) == t || Updated(p, raise, s, x) == t.(lastChange := x.at);
  }

  lemma {:induction false} OrderHolds(p: Plan, raise: Raise, s: Tuning, samples: seq<Sample>)
    requires Sound(p) && Ordered(p, s)
    ensures Ordered(p, Run(p, raise, s, samples))
    decreases |samples|
  {
    if samples != [] {
      UpdateKeepsOrder(p, raise, s, samples[0]);
      OrderHolds(p, raise, Updated(p, raise, s, samples[0]), samples[1..]);
    }
  }

  /** Every reachable state of a fully automatic stream keeps its bitrate within bounds, and lowers the
      resolution only at the lowest frame rate and the minimum bitrate. */
  lemma EveryRunKeepsOrder(q: Quality, w: nat, h: nat, raise: Raise, now: real, samples: seq<Sample>)
    requires FullyAutomatic(q)
    ensures var p := MakePlan(q, w, h);
            Sound(p) && Ordered(p, Run(p, raise, Start(p, now), samples))
  {
    var p := MakePlan(q, w, h);
    OrderHolds(p, raise, Start(p, now), samples);
  }

  /** One update moves one dimension, and each only once the cheaper ones are used up. */
  lemma DegradesInOrder(p: Plan, raise: Raise, s: Tuning, x: Sample)
    requires Sound(p) && Ordered(p, s)
    ensures var t := Updated(p, raise, s, x);
            && (t.fpsIdx > s.fpsIdx ==>
                  s.bitrate == p.minBitrate && t == t.(bitrate := s.bitrate, scaleIdx := s.scaleIdx))
            && (t.scaleIdx > s.scaleIdx ==>
                  s.bitrate == p.minBitrate && s.fpsIdx == LOWEST_FPS && t == t.(bitrate := s.bitrate, fpsIdx := s.fpsIdx))
            && (t.bitrate < s.bitrate ==> t == t.(fpsIdx := s.fpsIdx, scaleIdx := s.scaleIdx))
            && (t.bitrate < s.bitrate ==> 4 * t.bitrate <= 3 * s.bitrate < 4 * t.bitrate + 4 || t.bitrate == p.minBitrate)
  {
  }

  // ---- manual bitrates -----------------------------------------------------------------------------

  /** A manual bitrate below the 300 kbit/s floor, with a frame rate that may drop. */
  predicate BelowFloor(q: Quality) {
    q.adaptive && 0 < q.bitrateKbps < 300 && AutoFps(q)
  }

  lemma {:induction false} StaysWithinMaximum(p: Plan, raise: Raise, s: Tuning, samples: seq<Sample>)
    requires OnSteps(s) && s.bitrate <= p.maxBitrate
    requires p.minBitrate <= p.maxBitrate || !AutoFps(p.quality) || !p.quality.adaptive
    ensures Run(p, raise, s, samples).bitrate <= p.maxBitrate
    decreases |samples|
  {
    if samples != [] {
      StaysWithinMaximum(p, raise, Updated(p, raise, s, samples[0]), samples[1..]);
    }
  }

  lemma FloorLiftsManualBitrate(q: Quality, w: nat, h: nat, raise: Raise, now: real, x: Sample)
    requires BelowFloor(q) && x.sendDelay > 60.0 && x.at == now + SHORT_HOLD
    ensures var p := MakePlan(q, w, h);
            Run(p, raise, Start(p, now), [x]).bitrate == 300 > p.maxBitrate
  {
    var p := MakePlan(q, w, h);
    var t := Updated(p, raise, Start(p, now), x);
    assert Run(p, raise, t, [x][1..]) == t;
    assert p.firstFps < LOWEST_FPS;
  }

  /** The bitrate stays within its maximum in every run, for every setting, exactly when the user did not pick
      a bitrate below the floor and leave the frame rate automatic: then congestion raises it. */
  lemma NeverOvershootsExactlyWhen(q: Quality, w: nat, h: nat, raise: Raise, now: real)
    ensures var p := MakePlan(q, w, h);
            (forall samples :: Run(p, raise, Start(p, now), samples).bitrate <= p.maxBitrate) <==> !BelowFloor(q)
  {
    var p := MakePlan(q, w, h);
    if BelowFloor(q) {
      var x := Sample(0.0, 100.0, 0, now + SHORT_HOLD);
      FloorLiftsManualBitrate(q, w, h, raise, now, x);
    } else {
      forall samples ensures Run(p, raise, Start(p, now), samples).bitrate <= p.maxBitrate {
        StaysWithinMaximum(p, raise, Start(p, now), samples);
      }
    }
  }

  // ---- hysteresis ----------------------------------------------------------------------------------

  datatype Change = Change(at: real, better: bool)

  /** More pixels, more frames, or more bits for the same of both. */
  predicate Better(before: Target, after: Target) {
    || after.scalePercent > before.scalePercent
    || after.fps > before.fps
    || (after.scalePercent == before.scalePercent && after.fps == before.fps && after.bitrate > before.bitrate)
  }

  function ChangeIn(s: Tuning, t: Tuning, x: Sample): seq<Change>
    requires OnSteps(s) && OnSteps(t)
  {
    if TargetOf(t) == TargetOf(s) then [] else [Change(x.at, Better(TargetOf(s), TargetOf(t)))]
  }

  /** Every change of target in a run. */
  function Changes(p: Plan, raise: Raise, s: Tuning, samples: seq<Sample>): seq<Change>
    requires OnSteps(s)
    decreases |samples|
  {
    if samples == [] then []
    else
      var t := Updated(p, raise, s, samples[0]);
      ChangeIn(s, t, samples[0]) + Changes(p, raise, t, samples[1..])
  }

  /** The change comes late enough after `since`. */
  predicate Held(since: real, c: Change) {
    c.at - since >= if c.better then LONG_HOLD else SHORT_HOLD
  }

  lemma ChangeIsHeld(p: Plan, raise: Raise, s: Tuning, x: Sample)
    requires OnSteps(s)
    ensures var t := Updated(p, raise, s, x);
            forall c :: c in ChangeIn(s, t, x) ==> Held(s.lastChange, c) && t.lastChange == c.at
    ensures ChangeIn(s, Updated(p, raise, s, x), x) == [] ==> Updated(p, raise, s, x).lastChange == s.lastChange
  {
  }

  predicate AllHeld(since: real, cs: seq<Change>) {
    && (forall i :: 0 <= i < |cs| ==> Held(since, cs[i]))
    && (forall i, k :: 0 <= i < k < |cs| ==> Held(cs[i].at, cs[k]))
  }

  lemma HeldOneMore(since: real, c: Change, cs: seq<Change>)
    requires Held(since, c) && AllHeld(c.at, cs)
    ensures AllHeld(since, [c] + cs)
  {
  }

  lemma {:induction false} ChangesAreHeld(p: Plan, raise: Raise, s: Tuning, samples: seq<Sample>)
    requires OnSteps(s)
    ensures AllHeld(s.lastChange, Changes(p, raise, s, samples))
    decreases |samples|
  {
    if samples != [] {
      var t := Updated(p, raise, s, samples[0]);
      ChangeIsHeld(p, raise, s, samples[0]);
      ChangesAreHeld(p, raise, t, samples[1..]);
      var first, rest := ChangeIn(s, t, samples[0]), Changes(p, raise, t, samples[1..]);
      if first == [] {
        assert first + rest == rest;
      } else {
        assert first[0] in first;
        HeldOneMore(s.lastChange, first[0], rest);
      }
    }
  }

  /** For every setting and every run, the first change comes at least 1.5 s after the start, any two changes
      are at least 1.5 s apart, and an improvement waits at least 5 s after every earlier change. */
  lemma Hysteresis(q: Quality, w: nat, h: nat, raise: Raise, now: real, samples: seq<Sample>)
    ensures var p := MakePlan(q, w, h);
            AllHeld(now, Changes(p, raise, Start(p, now), samples))
  {
    var p := MakePlan(q, w, h);
    ChangesAreHeld(p, raise, Start(p, now), samples);
  }

  // ---- recovery ------------------------------------------------------------------------------------

  /** Clean samples, each at least a second after the one before. */
  predicate CleanRun(p: Plan, raise: Raise, s: Tuning, prev: real, samples: seq<Sample>)
    requires OnSteps(s)
    decreases |samples|
  {
    samples != [] ==>
      && samples[0].at >= prev + 1.0 && Clean(s, samples[0])
      && CleanRun(p, raise, Updated(p, raise, s, samples[0]), samples[0].at, samples[1..])
  }

  /** What every reachable state satisfies, whichever dimensions are manual: a manual frame rate or resolution
      stays, and the bitrate fits the resolution. */
  predicate Kept(p: Plan, s: Tuning) {
    && OnSteps(s)
    && (!AutoFps(p.quality) ==> s.fpsIdx == p.firstFps)
    && (!AutoScale(p.quality) ==> s.scaleIdx == 0)
    && s.bitrate <= ScaleCap(p, s.scaleIdx)
    && (AutoBitrate(p.quality) ==> p.minBitrate <= s.bitrate <= p.maxBitrate)
    && (s.baseline.Some? ==> s.baseline.value > 0.0)
  }

  predicate Adaptive(p: Plan) {
    && p.quality.adaptive && p.minBitrate >= 300 && p.firstFps <= LOWEST_FPS
    && (AutoBitrate(p.quality) ==> p.minBitrate <= p.maxBitrate)
  }

  lemma ScaleCapGrows(p: Plan, i: nat)
    requires i < LOWEST_SCALE
    ensures p.minBitrate <= ScaleCap(p, i + 1) <= ScaleCap(p, i) && p.maxBitrate <= ScaleCap(p, 0)
  {
  }

  lemma DegradingKeeps(p: Plan, s: Tuning)
    requires Adaptive(p) && Kept(p, s)
    ensures Kept(p, Degraded(p, s))
  {
    if s.scaleIdx < LOWEST_SCALE {
      ScaleCapGrows(p, s.scaleIdx);
    }
  }

  lemma ImprovingKeeps(p: Plan, raise: Raise, s: Tuning)
    requires Adaptive(p) && Kept(p, s)
    ensures Kept(p, Improved(p, raise, s))
  {
    ScaleCapGrows(p, if s.scaleIdx > 0 then s.scaleIdx - 1 else 0);
  }

  lemma SteeringKeeps(p: Plan, raise: Raise, s: Tuning, x: Sample)
    requires Adaptive(p) && Kept(p, s)
    ensures Kept(p, Steered(p, raise, s, x))
  {
    BaselineStaysPositive(s.baseline, x.rtt);
    var measured := s.(baseline := Baseline(s.baseline, x.rtt));
    if Congested(s, x) && Hold(s, x.at) >= SHORT_HOLD {
      DegradingKeeps(p, measured.(streak := 0));
    } else if Clean(s, x) && s.streak + 1 >= 6 && Hold(s, x.at) >= LONG_HOLD {
      ImprovingKeeps(p, raise, measured.(streak := 3));
    }
  }

  lemma UpdateKeeps(p: Plan, raise: Raise, s: Tuning, x: Sample)
    requires Adaptive(p) && Kept(p, s)
    ensures Kept(p, Updated(p, raise, s, x))
  {
    var t := Steered(p, raise, s, x);
    assert Updated(p, raise, s, x) == t || Updated(p, raise, s, x) == t.(lastChange := x.at);
    SteeringKeeps(p, raise, s, x);
  }

  lemma {:induction false} RunKeeps(p: Plan, raise: Raise, s: Tuning, samples: seq<Sample>)
    requires Adaptive(p) && Kept(p, s)
    ensures Kept(p, Run(p, raise, s, samples))
    decreases |samples|
  {
    if samples != [] {
      UpdateKeeps(p, raise, s, samples[0]);
      RunKeeps(p, raise, Updated(p, raise, s, samples[0]), samples[1..]);
    }
  }

  lemma EveryPlanIsAdaptive(q: Quality, w: nat, h: nat, now: real)
    requires q.adaptive
    ensures Adaptive(MakePlan(q, w, h)) && Kept(MakePlan(q, w, h), Start(MakePlan(q, w, h), now))
  {
  }

  /** The bitrate a clean link comes to: an automatic one rises to the maximum, a manual one stays. */
  function Regained(p: Plan, s: Tuning): nat {
    if AutoBitrate(p.quality) then p.maxBitrate else s.bitrate
  }

  /** The frame rate recovers only if it is automatic, and only at twice the minimum bitrate. */
  predicate FpsRecovers(p: Plan, s: Tuning) {
    AutoFps(p.quality) && (Regained(p, s) >= p.minBitrate * 2 || s.fpsIdx == 0)
  }

  /** The steps of recovery still to take. */
  function Work(p: Plan, s: Tuning): int {
    s.scaleIdx + (Regained(p, s) - s.bitrate) + if FpsRecovers(p, s) then s.fpsIdx else 0
  }

  /** `due` more clean samples are enough for the next improvement. */
  predicate Waits(s: Tuning, prev: real, due: nat) {
    1 <= due <= 6 && s.streak + due >= 6 && prev - s.lastChange + due as real >= LONG_HOLD
  }

  predicate SettledAs(p: Plan, s: Tuning, t: Tuning) {
    && t.bitrate == Regained(p, s) && t.scaleIdx == 0
    && t.fpsIdx == if FpsRecovers(p, s) then 0 else s.fpsIdx
  }

  /** What one state can come to, the other can. */
  predicate SameEnd(p: Plan, s: Tuning, t: Tuning) {
    && Regained(p, t) == Regained(p, s) && FpsRecovers(p, t) == FpsRecovers(p, s)
    && (!FpsRecovers(p, s) ==> t.fpsIdx == s.fpsIdx)
  }

  lemma ImprovementWorks(p: Plan, raise: Raise, s: Tuning)
    requires Adaptive(p) && Kept(p, s)
    ensures var t := Improved(p, raise, s);
            && Kept(p, t) && SameEnd(p, s, t)
            && if Work(p, s) > 0 then Work(p, t) < Work(p, s) else t == s
  {
    ImprovingKeeps(p, raise, s);
    ScaleCapGrows(p, if s.scaleIdx > 0 then s.scaleIdx - 1 else 0);
  }

  lemma ImprovementShows(p: Plan, raise: Raise, s: Tuning)
    requires Adaptive(p) && Kept(p, s)
    ensures TargetOf(Improved(p, raise, s)) == TargetOf(s) ==> Improved(p, raise, s) == s
  {
  }

  lemma CleanIsNotCongested(s: Tuning, x: Sample)
    requires Clean(s, x) && (s.baseline.Some? ==> s.baseline.value > 0.0)
    ensures !Congested(s, x)
  {
    BaselineStaysPositive(s.baseline, x.rtt);
  }

  lemma CleanFires(p: Plan, raise: Raise, s: Tuning, x: Sample)
    requires Adaptive(p) && Kept(p, s) && Clean(s, x)
    requires s.streak + 1 >= 6 && Hold(s, x.at) >= LONG_HOLD
    ensures var measured := s.(baseline := Baseline(s.baseline, x.rtt), streak := 3);
            var better := Improved(p, raise, measured);
            && Kept(p, measured)
            && Updated(p, raise, s, x) == if better == measured then better else better.(lastChange := x.at)
  {
    BaselineStaysPositive(s.baseline, x.rtt);
    CleanIsNotCongested(s, x);
    ImprovementShows(p, raise, s.(baseline := Baseline(s.baseline, x.rtt), streak := 3));
  }

  lemma CleanCounts(p: Plan, raise: Raise, s: Tuning, x: Sample)
    requires Adaptive(p) && Kept(p, s) && Clean(s, x)
    requires !(s.streak + 1 >= 6 && Hold(s, x.at) >= LONG_HOLD)
    ensures Updated(p, raise, s, x) == s.(baseline := Baseline(s.baseline, x.rtt), streak := s.streak + 1)
    ensures Kept(p, Updated(p, raise, s, x))
  {
    BaselineStaysPositive(s.baseline, x.rtt);
    CleanIsNotCongested(s, x);
  }

  lemma FiresStep(p: Plan, raise: Raise, s: Tuning, x: Sample)
    requires Adaptive(p) && Kept(p, s) && Clean(s, x)
    requires s.streak + 1 >= 6 && Hold(s, x.at) >= LONG_HOLD
    ensures var t := Updated(p, raise, s, x);
            && Kept(p, t) && SameEnd(p, s, t)
            && (if Work(p, s) > 0 then Work(p, t) < Work(p, s) else Work(p, t) <= 0)
            && t.streak == 3 && (t.lastChange == s.lastChange || t.lastChange == x.at)
  {
    UpdateKeeps(p, raise, s, x);
    CleanFires(p, raise, s, x);
    ImprovementWorks(p, raise, s.(baseline := Baseline(s.baseline, x.rtt), streak := 3));
  }

  /** A clean sample either fires the improvement that is due or brings it one sample closer. */
  lemma CleanStep(p: Plan, raise: Raise, s: Tuning, prev: real, due: nat, x: Sample) returns (rest: nat)
    requires Adaptive(p) && Kept(p, s) && (Work(p, s) > 0 ==> Waits(s, prev, due))
    requires x.at >= prev + 1.0 && Clean(s, x)
    ensures var t := Updated(p, raise, s, x);
            && Kept(p, t) && SameEnd(p, s, t)
            && (Work(p, s) > 0 ==> Waits(t, x.at, rest) && 6 * Work(p, t) + rest < 6 * Work(p, s) + due)
            && (Work(p, s) <= 0 ==> Work(p, t) <= 0)
  {
    if s.streak + 1 >= 6 && Hold(s, x.at) >= LONG_HOLD {
      FiresStep(p, raise, s, x);
      rest := 5;
    } else {
      CleanCounts(p, raise, s, x);
      rest := if Work(p, s) > 0 then due - 1 else 0;
    }
  }

  lemma {:induction false} Settles(p: Plan, raise: Raise, s: Tuning, prev: real, due: nat, samples: seq<Sample>)
    requires Adaptive(p) && Kept(p, s) && CleanRun(p, raise, s, prev, samples)
    requires Work(p, s) > 0 ==> Waits(s, prev, due) && |samples| + 6 >= 6 * Work(p, s) + due
    ensures SettledAs(p, s, Run(p, raise, s, samples))
    decreases |samples|
  {
    if samples != [] {
      var t := Updated(p, raise, s, samples[0]);
      var rest := CleanStep(p, raise, s, prev, due, samples[0]);
      Settles(p, raise, t, samples[0].at, rest, samples[1..]);
    }
  }

  /** The samples come in order, none before `from`. */
  predicate InOrder(from: real, samples: seq<Sample>)
    decreases |samples|
  {
    samples != [] ==> samples[0].at >= from && InOrder(samples[0].at, samples[1..])
  }

  function LastTime(from: real, samples: seq<Sample>): real
    decreases |samples|
  {
    if samples == [] then from else LastTime(samples[0].at, samples[1..])
  }

  lemma {:induction false} ChangesAreBehind(p: Plan, raise: Raise, s: Tuning, from: real, samples: seq<Sample>)
    requires OnSteps(s) && s.lastChange <= from && InOrder(from, samples)
    ensures Run(p, raise, s, samples).lastChange <= LastTime(from, samples)
    decreases |samples|
  {
    if samples != [] {
      ChangesAreBehind(p, raise, Updated(p, raise, s, samples[0]), samples[0].at, samples[1..]);
    }
  }

  /** Whether a clean link brings back the start: a manual bitrate must not have been lost, and the frame rate
      must be able to recover and have started at the top, or be where it started. */
  predicate RegainsStart(p: Plan, s: Tuning) {
    && Regained(p, s) == p.maxBitrate
    && if FpsRecovers(p, s) then p.firstFps == 0 else s.fpsIdx == p.firstFps
  }

  /** With an automatic frame rate, every preset but the low-bandwidth one starts at the top. */
  lemma StartsAtTop(q: Quality, w: nat, h: nat)
    requires AutoFps(q)
    ensures MakePlan(q, w, h).firstFps == 0 <==> q.preset != LowBandwidth
  {
  }

  /** For every adaptive setting and after any history: enough clean samples at least a second apart, six for each
      step of recovery, bring the stream back to its exact starting target if and only if it can regain it. */
  lemma RecoversExactlyWhen(q: Quality, w: nat, h: nat, raise: Raise, now: real, history: seq<Sample>, clean: seq<Sample>)
    requires q.adaptive && InOrder(now, history)
    requires var p := MakePlan(q, w, h);
             var s := Run(p, raise, Start(p, now), history);
             CleanRun(p, raise, s, LastTime(now, history), clean) && |clean| >= 6 * Work(p, s)
    ensures var p := MakePlan(q, w, h);
            var s := Run(p, raise, Start(p, now), history);
            TargetOf(Run(p, raise, s, clean)) == TargetOf(Start(p, now)) <==> RegainsStart(p, s)
  {
    var p := MakePlan(q, w, h);
    var s := Run(p, raise, Start(p, now), history);
    EveryPlanIsAdaptive(q, w, h, now);
    RunKeeps(p, raise, Start(p, now), history);
    ChangesAreBehind(p, raise, Start(p, now), now, history);
    Settles(p, raise, s, LastTime(now, history), 6, clean);
  }

  /** The common case, after any history at all: an automatic bitrate, and a frame rate that is manual, or starts at
      the top with a budget of at least twice the minimum. */
  lemma FullRecovery(q: Quality, w: nat, h: nat, raise: Raise, now: real, history: seq<Sample>, clean: seq<Sample>)
    requires q.adaptive && AutoBitrate(q) && InOrder(now, history)
    requires var p := MakePlan(q, w, h);
             && (AutoFps(q) ==> p.firstFps == 0 && p.maxBitrate >= 2 * p.minBitrate)
             && |clean| >= 6 * (LOWEST_SCALE + LOWEST_FPS + p.maxBitrate - p.minBitrate)
             && CleanRun(p, raise, Run(p, raise, Start(p, now), history), LastTime(now, history), clean)
    ensures var p := MakePlan(q, w, h);
            TargetOf(Run(p, raise, Run(p, raise, Start(p, now), history), clean)) == TargetOf(Start(p, now))
  {
    var p := MakePlan(q, w, h);
    EveryPlanIsAdaptive(q, w, h, now);
    RunKeeps(p, raise, Start(p, now), history);
    RecoversExactlyWhen(q, w, h, raise, now, history, clean);
  }

  // ---- a manual bitrate that is lost ---------------------------------------------------------------

  /** A manual bitrate is never raised again. */
  lemma {:induction false} ManualBitrateOnlyFalls(p: Plan, raise: Raise, s: Tuning, samples: seq<Sample>)
    requires Adaptive(p) && !AutoBitrate(p.quality) && OnSteps(s) && p.minBitrate <= s.bitrate
    ensures p.minBitrate <= Run(p, raise, s, samples).bitrate <= s.bitrate
    decreases |samples|
  {
    if samples != [] {
      ManualUpdate(p, raise, s, samples[0]);
      ManualBitrateOnlyFalls(p, raise, Updated(p, raise, s, samples[0]), samples[1..]);
    }
  }

  lemma ManualUpdate(p: Plan, raise: Raise, s: Tuning, x: Sample)
    requires Adaptive(p) && !AutoBitrate(p.quality) && OnSteps(s) && p.minBitrate <= s.bitrate
    ensures p.minBitrate <= Updated(p, raise, s, x).bitrate <= s.bitrate
  {
  }

  lemma FirstCongestion(p: Plan, raise: Raise, now: real, x: Sample)
    requires Adaptive(p) && !AutoBitrate(p.quality) && !AutoFps(p.quality) && AutoScale(p.quality)
    requires x.sendDelay > 60.0 && x.at >= now + SHORT_HOLD && p.minBitrate <= p.maxBitrate
    ensures Updated(p, raise, Start(p, now), x).bitrate == Min(p.maxBitrate, ScaleCap(p, 1))
  {
  }

  /** With a manual bitrate above the floor, a manual frame rate and an automatic resolution, one congested sample
      lowers the resolution, and the bitrate cut with it never comes back, however clean the link is from then on. */
  lemma CongestionCostsManualBitrate(q: Quality, w: nat, h: nat, raise: Raise, now: real, x: Sample, samples: seq<Sample>)
    requires q.adaptive && q.bitrateKbps > 300 && !AutoFps(q) && AutoScale(q)
    requires x.sendDelay > 60.0 && x.at >= now + SHORT_HOLD
    ensures var p := MakePlan(q, w, h);
            Run(p, raise, Start(p, now), [x] + samples).bitrate < q.bitrateKbps
  {
    var p := MakePlan(q, w, h);
    var t := Updated(p, raise, Start(p, now), x);
    EveryPlanIsAdaptive(q, w, h, now);
    FirstCongestion(p, raise, now, x);
    assert ScaleCap(p, 1) < q.bitrateKbps;
    ManualBitrateOnlyFalls(p, raise, t, samples);
    assert ([x] + samples)[1..] == samples;
  }

  // ---- congestion ----------------------------------------------------------------------------------

  /** Congested samples, each at least the short hold after the one before. */
  predicate CongestedRun(p: Plan, raise: Raise, s: Tuning, prev: real, samples: seq<Sample>)
    requires OnSteps(s)
    decreases |samples|
  {
    samples != [] ==>
      && samples[0].at >= prev + SHORT_HOLD && Congested(s, samples[0])
      && CongestedRun(p, raise, Updated(p, raise, s, samples[0]), samples[0].at, samples[1..])
  }

  /** The steps of degradation still possible, counting one for each kbit/s. */
  function Height(p: Plan, s: Tuning): int {
    (s.bitrate - p.minBitrate) + (LOWEST_FPS - s.fpsIdx) + (LOWEST_SCALE - s.scaleIdx)
  }

  lemma CongestionDescends(p: Plan, raise: Raise, s: Tuning, x: Sample)
    requires Sound(p) && Ordered(p, s) && Congested(s, x) && Hold(s, x.at) >= SHORT_HOLD
    ensures Height(p, Updated(p, raise, s, x)) < Height(p, s) || Height(p, s) == 0
    ensures Height(p, s) == 0 ==> Height(p, Updated(p, raise, s, x)) == 0
  {
  }

  /** Unbroken congestion takes a fully automatic stream all the way down, one step a sample. */
  lemma {:induction false} ReachesTheBottom(p: Plan, raise: Raise, s: Tuning, prev: real, samples: seq<Sample>)
    requires Sound(p) && Ordered(p, s) && s.lastChange <= prev && CongestedRun(p, raise, s, prev, samples)
    requires |samples| >= Height(p, s)
    ensures TargetOf(Run(p, raise, s, samples)) == Target(p.minBitrate, 15, 33)
    decreases |samples|
  {
    if samples != [] {
      var t := Updated(p, raise, s, samples[0]);
      UpdateKeepsOrder(p, raise, s, samples[0]);
      CongestionDescends(p, raise, s, samples[0]);
      ReachesTheBottom(p, raise, t, samples[0].at, samples[1..]);
    }
  }
}

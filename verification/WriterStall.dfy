/** The pacing bound is exact: for every rate and every limit on stalls there is a run that needs all of it. */
module WriterStall {
  import opened Wrappers
  import Lanes
  import opened Rates
  import opened Runs
  import opened Totals
  import opened WriterLoop
  import opened WriterPacing

  /** One pass of the loop with nothing but a bulk message of one full fragment: `wait` seconds go by before
      there is room on the link. */
  function Pass(rate: real, wait: real): seq<Turn> {
    LookFor(rate) + [Tick(wait), ChannelEmpty, TakePosition, Send(MAX_UNIT)]
  }

  function LookFor(rate: real): seq<Turn> {
    [ChannelEmpty, TakePosition, Look(rate, 0, 1)]
  }

  predicate BulkOnly(w: Writer) {
    w.phase.Gather? && w.slot.None? && w.held.None? && w.channel == [] && w.deque == [] && w.video == 0 && w.bulk == 0
  }

  function Earned(rate: real, w: Writer): real {
    Grant(rate, w.now - w.last)
  }

  lemma LookForBulk(rate: real, w: Writer)
    requires rate > 0.0 && BulkOnly(w) && Refill(rate, w.tokens, Earned(rate, w)) >= 1.0
    ensures Run(w, LookFor(rate))
            == w.(phase := Drain, bulk := 1, rate := rate, tokens := Refill(rate, w.tokens, Earned(rate, w)),
                  last := w.now, granted := w.granted + Earned(rate, w))
  {
    FoldTwo(Next, w, ChannelEmpty, TakePosition);
    FoldSnoc(Next, w, [ChannelEmpty, TakePosition], Look(rate, 0, 1));
    assert [ChannelEmpty, TakePosition] + [Look(rate, 0, 1)] == LookFor(rate);
  }

  lemma PassSends(rate: real, w: Writer, wait: real)
    requires rate > 0.0 && BulkOnly(w) && wait >= 0.0 && Refill(rate, w.tokens, Earned(rate, w)) >= 1.0
    ensures var v := Run(w, Pass(rate, wait));
            && BulkOnly(v) && v.now == w.now + wait && v.last == w.now
            && v.tokens == Refill(rate, w.tokens, Earned(rate, w)) - MAX_UNIT as real
            && v.log == w.log + [BulkUnit(MAX_UNIT, w.now, v.now, w.granted + Earned(rate, w))]
  {
    var looked := Run(w, LookFor(rate));
    LookForBulk(rate, w);
    FoldCat(Next, w, LookFor(rate), [Tick(wait), ChannelEmpty, TakePosition, Send(MAX_UNIT)]);
    FoldFour(Next, looked, Tick(wait), ChannelEmpty, TakePosition, Send(MAX_UNIT));
  }

  /** A stalled unit, checked at `c` with a full bucket and sealed `e` later, and units sealed at once since:
      nothing the bucket earned was lost. */
  predicate Emptying(rate: real, w: Writer, c: real, e: real) {
    && BulkOnly(w) && w.last <= w.now && w.tokens + Earned(rate, w) <= Burst(rate)
    && w.log != [] && w.log[0].check == c && w.log[0].at == c + e && w.log[0].at <= w.now
    && (forall i :: 0 < i < |w.log| ==> w.log[i].at == w.log[i].check)
    && (forall i :: 0 <= i < |w.log| ==> c + e <= w.log[i].at <= w.now)
    && Total(BytesOf, w.log, 0, |w.log|) as real == Burst(rate) + Grant(rate, w.last - c) - w.tokens
  }

  lemma PassEmpties(rate: real, w: Writer, c: real, e: real)
    requires rate > 0.0 && Emptying(rate, w, c, e) && w.tokens + Earned(rate, w) >= 1.0
    ensures var v := Run(w, Pass(rate, 0.0));
            && Emptying(rate, v, c, e) && v.last == v.now == w.now && v.log[|v.log| - 1].at == w.now
            && v.tokens == w.tokens + Earned(rate, w) - MAX_UNIT as real && Earned(rate, v) == 0.0
  {
    PassSends(rate, w, 0.0);
    var v := Run(w, Pass(rate, 0.0));
    TotalSnoc(BytesOf, w.log, v.log[|w.log|], 0);
    GrantAdds(rate, w.last - c, w.now - c);
    assert Grant(rate, 0.0) == 0.0;
  }

  lemma WaitEarns(rate: real, w: Writer, c: real, e: real, dt: real)
    requires rate > 0.0 && Emptying(rate, w, c, e) && dt >= 0.0
    requires w.tokens + Earned(rate, w) + Grant(rate, dt) <= Burst(rate)
    ensures var v := Run(w, [Tick(dt)]);
            && Emptying(rate, v, c, e) && v.tokens == w.tokens && v.last == w.last && v.now == w.now + dt
            && Earned(rate, v) == Earned(rate, w) + Grant(rate, dt)
  {
    FoldOne(Next, w, Tick(dt));
    GrantAdds(rate, w.now - w.last, w.now - w.last + dt);
  }

  /** Waiting for exactly one token and spending it leaves a whole fragment of debt. */
  lemma LastPass(rate: real, w: Writer, c: real, e: real) returns (turns: seq<Turn>)
    requires rate > 0.0 && Emptying(rate, w, c, e) && w.tokens + Earned(rate, w) < 1.0
    ensures AtRate(rate, turns)
    ensures var v := Run(w, turns);
            Emptying(rate, v, c, e) && v.tokens == -(Lanes.FRAGMENT as real) && v.last == v.now
  {
    var dt := TimeFor(rate, 1.0 - w.tokens - Earned(rate, w));
    GrantTimeFor(rate, 1.0 - w.tokens - Earned(rate, w));
    WaitEarns(rate, w, c, e, dt);
    PassEmpties(rate, Run(w, [Tick(dt)]), c, e);
    turns := [Tick(dt)] + Pass(rate, 0.0);
    FoldCat(Next, w, [Tick(dt)], Pass(rate, 0.0));
  }

  /** From any such state the bucket can be emptied down to a whole fragment of debt. */
  lemma {:induction false} EmptyOut(rate: real, w: Writer, c: real, e: real, n: nat) returns (turns: seq<Turn>)
    requires rate > 0.0 && Emptying(rate, w, c, e) && w.tokens + Earned(rate, w) <= n as real
    ensures AtRate(rate, turns)
    ensures var v := Run(w, turns);
            Emptying(rate, v, c, e) && v.tokens == -(Lanes.FRAGMENT as real) && v.last == v.now
    decreases n
  {
    if w.tokens + Earned(rate, w) < 1.0 {
      turns := LastPass(rate, w, c, e);
    } else {
      PassEmpties(rate, w, c, e);
      var v := Run(w, Pass(rate, 0.0));
      var rest := EmptyOut(rate, v, c, e, n - 1);
      turns := Pass(rate, 0.0) + rest;
      FoldCat(Next, w, Pass(rate, 0.0), rest);
    }
  }

  /** The beginning: the bucket fills up, and then a unit is held up for `e`. */
  lemma Stalled(rate: real, e: real) returns (turns: seq<Turn>)
    requires rate > 0.0 && 0.0 <= e && Grant(rate, e) <= MAX_UNIT as real
    ensures AtRate(rate, turns)
    ensures Emptying(rate, Run(STARTED, turns), TimeFor(rate, Burst(rate)), e)
  {
    var c := TimeFor(rate, Burst(rate));
    GrantTimeFor(rate, Burst(rate));
    turns := [Tick(c)] + Pass(rate, e);
    FoldOne(Next, STARTED, Tick(c));
    FoldCat(Next, STARTED, [Tick(c)], Pass(rate, e));
    var w := STARTED.(now := c);
    PassSends(rate, w, e);
    var v := Run(w, Pass(rate, e));
    assert v.log == [] + [v.log[0]];
    TotalSnoc(BytesOf, [], v.log[0], 0);
    assert Grant(rate, 0.0) == 0.0;
  }

  /** The stall that adds as much as stalls of at most `d` can. */
  function Stall(rate: real, d: real): real
    requires rate > 0.0
  {
    if Grant(rate, d) <= MAX_UNIT as real then d else TimeFor(rate, MAX_UNIT as real)
  }

  lemma StallEarnsExcess(rate: real, d: real)
    requires rate > 0.0 && d >= 0.0
    ensures 0.0 <= Stall(rate, d) <= d && Grant(rate, Stall(rate, d)) == Excess(rate, d)
  {
    if Grant(rate, d) > MAX_UNIT as real {
      GrantTimeFor(rate, MAX_UNIT as real);
      GrantOrder(rate, TimeFor(rate, MAX_UNIT as real), d);
    }
  }

  /** All that such a state has sealed, over the time since the stalled unit was sealed. */
  lemma EmptiedTotal(rate: real, w: Writer, c: real, e: real)
    requires rate > 0.0 && Emptying(rate, w, c, e) && w.tokens == -(Lanes.FRAGMENT as real)
    requires w.last == w.now
    ensures var start, t := w.log[0].at, w.last - w.log[0].at;
            && t >= 0.0
            && SealedBetween(w.log, start, start + t) as real
               == Burst(rate) + Grant(rate, t) + Lanes.FRAGMENT as real + Grant(rate, e)
  {
    var start, t := w.log[0].at, w.last - w.log[0].at;
    AllBetween(w.log, start, start + t);
    GrantAdds(rate, t, t + e);
  }

  lemma EmptyingStalls(rate: real, w: Writer, c: real, e: real, d: real)
    requires Emptying(rate, w, c, e) && 0.0 <= e <= d
    ensures StallsWithin(w.log, d)
  {
  }

  /** A unit held up for `e` with a full bucket, and then the bucket emptied. */
  lemma Emptied(rate: real, e: real) returns (turns: seq<Turn>)
    requires rate > 0.0 && 0.0 <= e && Grant(rate, e) <= MAX_UNIT as real
    ensures AtRate(rate, turns)
    ensures var v := Run(STARTED, turns);
            Emptying(rate, v, TimeFor(rate, Burst(rate)), e) && v.tokens == -(Lanes.FRAGMENT as real) && v.last == v.now
  {
    var head := Stalled(rate, e);
    var w := Run(STARTED, head);
    var tail := EmptyOut(rate, w, TimeFor(rate, Burst(rate)), e, Above(w.tokens + Earned(rate, w)));
    turns := head + tail;
    FoldCat(Next, STARTED, head, tail);
  }

  /** For every rate and every limit on stalls: a run within the limit with a window that needs the whole
      bound. */
  lemma ExcessIsReached(rate: real, d: real) returns (turns: seq<Turn>, start: real, t: real)
    requires rate > 0.0 && d >= 0.0
    ensures AtRate(rate, turns) && StallsWithin(Run(STARTED, turns).log, d) && t >= 0.0
    ensures SealedBetween(Run(STARTED, turns).log, start, start + t) as real
            == Burst(rate) + Grant(rate, t) + Lanes.FRAGMENT as real + Excess(rate, d)
  {
    var e, c := Stall(rate, d), TimeFor(rate, Burst(rate));
    StallEarnsExcess(rate, d);
    turns := Emptied(rate, e);
    var v := Run(STARTED, turns);
    EmptiedTotal(rate, v, c, e);
    EmptyingStalls(rate, v, c, e, d);
    start, t := v.log[0].at, v.last - v.log[0].at;
  }

  lemma {:induction false} AllBetween(log: seq<BulkUnit>, a: real, b: real)
    requires forall i :: 0 <= i < |log| ==> a <= log[i].at <= b
    ensures SealedBetween(log, a, b) == Total(BytesOf, log, 0, |log|)
  {
    if log != [] {
      var n := |log| - 1;
      AllBetween(log[..n], a, b);
      TotalSnoc(BytesOf, log[..n], log[n], 0);
      assert log[..n] + [log[n]] == log;
    }
  }

  /** Every run at this rate with stalls of at most `d` keeps its windows within burst, rate, one fragment and
      `extra`. */
  ghost predicate Suffices(rate: real, d: real, extra: real) {
    forall turns :: AtRate(rate, turns) && StallsWithin(Run(STARTED, turns).log, d) ==>
      WindowsWithin(rate, Run(STARTED, turns).log, extra)
  }

  /** For every rate and every limit on stalls, an extra term suffices if and only if it is at least what the
      rate earns in that time, or one unit. */
  lemma SufficesExactlyWhen(rate: real, d: real, extra: real)
    requires rate > 0.0 && d >= 0.0
    ensures Suffices(rate, d, extra) <==> extra >= Excess(rate, d)
  {
    if extra >= Excess(rate, d) {
      forall turns | AtRate(rate, turns) && StallsWithin(Run(STARTED, turns).log, d)
        ensures WindowsWithin(rate, Run(STARTED, turns).log, extra)
      {
        var log := Run(STARTED, turns).log;
        BulkWindows(rate, STARTED, turns, d);
        forall start, t | t >= 0.0 ensures Within(rate, log, start, t, extra) {
          assert Within(rate, log, start, t, Excess(rate, d));
        }
      }
    } else {
      var turns, start, t := ExcessIsReached(rate, d);
      assert !Within(rate, Run(STARTED, turns).log, start, t, extra);
    }
  }

  /** The bound of burst, rate and one fragment holds of every window of every run with stalls of at most `d`
      if and only if nothing ever stalls. */
  lemma NarrowBoundExactlyWhen(rate: real, d: real)
    requires rate > 0.0 && d >= 0.0
    ensures Suffices(rate, d, 0.0) <==> d == 0.0
  {
    SufficesExactlyWhen(rate, d, 0.0);
    assert Grant(rate, 0.0) == 0.0;
    if d > 0.0 {
      GrantNonnegative(rate, d);
      if Grant(rate, d) <= 0.0 {
        GrantOrder(rate, d, 0.0);
      }
    }
  }
}

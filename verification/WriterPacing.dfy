/** How fast bulk is sealed at a constant rate, whatever came before, and how much a wait for room on the link
    between a unit's bucket check and its sealing can add: the bound is exact for every rate and every limit on
    such waits. */
module WriterPacing {
  import opened Wrappers
  import Lanes
  import opened Rates
  import opened Runs
  import opened Totals
  import opened WriterLoop

  function BytesOf(u: BulkUnit): nat {
    u.bytes
  }

  function SealedAt(u: BulkUnit): real {
    u.at
  }

  predicate AtRate(rate: real, turns: seq<Turn>) {
    forall i :: 0 <= i < |turns| && turns[i].Look? ==> turns[i].rate == rate
  }

  /** Between two passes of the loop, with a fresh record of bulk units: any moment before the next look, after
      any history at any rates. */
  predicate Between(w: Writer) {
    !Reserved(w) && w.last <= w.now && w.log == []
  }

  // ---- the budget ----------------------------------------------------------------------------------

  /** From the first look on, the bucket holds no more than the burst, and what is about to be sent was looked
      at at this rate. */
  predicate Limited(rate: real, w: Writer) {
    && ((Reserved(w) && w.bulk > 0) || w.log != [] ==> w.tokens <= Burst(rate))
    && (Reserved(w) ==> w.rate == rate)
  }

  /** What has been sealed since unit `i` was checked is covered by the burst, the grants since, and the
      tokens spent. */
  ghost predicate WithinBudget(rate: real, w: Writer) {
    forall i :: 0 <= i < |w.log| ==>
      Total(BytesOf, w.log, i, |w.log|) as real <= Burst(rate) + w.granted - w.log[i].granted - w.tokens
  }

  ghost predicate PairsWithinBudget(rate: real, log: seq<BulkUnit>) {
    forall i, k :: 0 <= i <= k < |log| ==>
      Total(BytesOf, log, i, k + 1) as real <= Burst(rate) + log[k].granted - log[i].granted + Lanes.FRAGMENT as real
  }

  /** Every unit is checked before it is sealed and after its predecessor was. */
  predicate LogInOrder(w: Writer) {
    && w.last <= w.now
    && (forall i :: 0 <= i < |w.log| ==> w.log[i].check <= w.log[i].at <= w.now && w.log[i].bytes <= MAX_UNIT)
    && (forall i, k :: 0 <= i < k < |w.log| ==> w.log[i].at <= w.log[k].check)
    && (Reserved(w) && w.bulk > 0 ==> forall i :: 0 <= i < |w.log| ==> w.log[i].at <= w.last)
  }

  /** All grants together are the rate times the time covered. */
  predicate GrantsAddUp(rate: real, from: Writer, w: Writer) {
    && w.granted == from.granted + Grant(rate, w.last - from.last)
    && (forall i :: 0 <= i < |w.log| ==> w.log[i].granted == from.granted + Grant(rate, w.log[i].check - from.last))
  }

  lemma LimitedStep(rate: real, w: Writer, turn: Turn)
    requires rate > 0.0 && Limited(rate, w) && (turn.Look? ==> turn.rate == rate)
    ensures Limited(rate, Next(w, turn))
  {
  }

  lemma BudgetLook(rate: real, w: Writer, video: nat, bulk: nat)
    requires rate > 0.0 && WithinBudget(rate, w) && w.last <= w.now
    ensures WithinBudget(rate, Looked(rate, w, video, bulk))
  {
    GrantNonnegative(rate, w.now - w.last);
  }

  lemma BudgetSend(rate: real, w: Writer, size: nat)
    requires WithinBudget(rate, w) && Limited(rate, w) && w.phase.Choose?
    ensures WithinBudget(rate, Sent(w, size))
  {
    var v := Sent(w, size);
    if v.log != w.log {
      var u := BulkUnit(size, w.last, w.now, w.granted);
      forall i | 0 <= i < |v.log|
        ensures Total(BytesOf, v.log, i, |v.log|) as real <= Burst(rate) + v.granted - v.log[i].granted - v.tokens
      {
        TotalSnoc(BytesOf, w.log, u, i);
      }
    }
  }

  lemma PairsSend(rate: real, w: Writer, size: nat)
    requires rate > 0.0 && WithinBudget(rate, Sent(w, size)) && PairsWithinBudget(rate, w.log) && Limited(rate, w)
    requires WorthSending(w) && w.phase.Choose? && size <= MAX_UNIT
    ensures PairsWithinBudget(rate, Sent(w, size).log)
  {
    var v := Sent(w, size);
    if v.log != w.log {
      var u := BulkUnit(size, w.last, w.now, w.granted);
      assert v.log == w.log + [u];
      forall i, k | 0 <= i <= k < |v.log|
        ensures Total(BytesOf, v.log, i, k + 1) as real
                <= Burst(rate) + v.log[k].granted - v.log[i].granted + Lanes.FRAGMENT as real
      {
        if k < |w.log| {
          PairsPrefix(rate, w.log, u, i, k);
        }
      }
    }
  }

  lemma PairsPrefix(rate: real, log: seq<BulkUnit>, u: BulkUnit, i: nat, k: nat)
    requires PairsWithinBudget(rate, log) && i <= k < |log|
    ensures var more := log + [u];
            Total(BytesOf, more, i, k + 1) as real <= Burst(rate) + more[k].granted - more[i].granted + Lanes.FRAGMENT as real
  {
    TotalPrefix(BytesOf, log, [u], i, k + 1);
  }

  lemma OrderSend(w: Writer, size: nat)
    requires LogInOrder(w) && w.phase.Choose? && size <= MAX_UNIT
    ensures LogInOrder(Sent(w, size))
  {
    var v := Sent(w, size);
    if v.log != w.log {
      assert v.log == w.log + [BulkUnit(size, w.last, w.now, w.granted)];
    }
  }

  /** Everything but sealing leaves the record alone, and time only moves on. */
  lemma QuietTurn(rate: real, w: Writer, turn: Turn)
    requires rate > 0.0 && !turn.Send? && w.last <= w.now && (turn.Look? ==> turn.rate == rate)
    ensures var v := Next(w, turn);
            && v.log == w.log && w.now <= v.now && v.last <= v.now
            && (Reserved(v) && v.bulk > 0 ==> v.last == v.now || (Reserved(w) && w.bulk > 0 && v.last == w.last))
            && (!turn.Look? ==> v.tokens == w.tokens && v.granted == w.granted && v.last == w.last)
  {
  }

  lemma OrderStep(rate: real, w: Writer, turn: Turn)
    requires rate > 0.0 && LogInOrder(w) && (turn.Look? ==> turn.rate == rate)
    ensures LogInOrder(Next(w, turn))
  {
    if turn.Send? {
      if Next(w, turn) != w {
        OrderSend(w, turn.size);
      }
    } else {
      QuietTurn(rate, w, turn);
    }
  }

  lemma GrantsStep(rate: real, from: Writer, w: Writer, turn: Turn)
    requires rate > 0.0 && GrantsAddUp(rate, from, w) && w.last <= w.now && (turn.Look? ==> turn.rate == rate)
    ensures GrantsAddUp(rate, from, Next(w, turn))
  {
    if turn.Look? {
      GrantAdds(rate, w.last - from.last, w.now - from.last);
    } else if turn.Send? {
      var v := Next(w, turn);
      assert v.log == w.log || v.log == w.log + [BulkUnit(turn.size, w.last, w.now, w.granted)];
    } else {
      QuietTurn(rate, w, turn);
    }
  }

  lemma BudgetStep(rate: real, w: Writer, turn: Turn)
    requires rate > 0.0 && w.last <= w.now && Limited(rate, w) && WorthSending(w)
    requires WithinBudget(rate, w) && PairsWithinBudget(rate, w.log) && (turn.Look? ==> turn.rate == rate)
    ensures WithinBudget(rate, Next(w, turn)) && PairsWithinBudget(rate, Next(w, turn).log)
  {
    var v := Next(w, turn);
    if turn.Look? {
      BudgetLook(rate, w, turn.video, turn.bulk);
    } else if turn.Send? {
      if v != w {
        BudgetSend(rate, w, turn.size);
        PairsSend(rate, w, turn.size);
      }
    } else {
      QuietTurn(rate, w, turn);
    }
  }

  /** Everything the bounds rest on. */
  ghost predicate Paced(rate: real, from: Writer, w: Writer) {
    && Limited(rate, w) && WorthSending(w) && WithinBudget(rate, w) && PairsWithinBudget(rate, w.log)
    && LogInOrder(w) && GrantsAddUp(rate, from, w)
  }

  lemma PacedStep(rate: real, from: Writer, w: Writer, turn: Turn)
    requires rate > 0.0 && Paced(rate, from, w) && (turn.Look? ==> turn.rate == rate)
    ensures Paced(rate, from, Next(w, turn))
  {
    LimitedStep(rate, w, turn);
    WorthStep(w, turn);
    BudgetStep(rate, w, turn);
    OrderStep(rate, w, turn);
    GrantsStep(rate, from, w, turn);
  }

  lemma {:induction false} EveryRunIsPaced(rate: real, from: Writer, turns: seq<Turn>)
    requires rate > 0.0 && Between(from) && AtRate(rate, turns)
    ensures Paced(rate, from, Run(from, turns))
  {
    if turns == [] {
      assert Grant(rate, from.last - from.last) == 0.0;
    } else {
      EveryRunIsPaced(rate, from, turns[..|turns| - 1]);
      PacedStep(rate, from, Run(from, turns[..|turns| - 1]), turns[|turns| - 1]);
    }
  }

  lemma PacedStretch(rate: real, from: Writer, w: Writer, i: nat, k: nat)
    requires rate > 0.0 && Paced(rate, from, w) && i <= k < |w.log|
    ensures Total(BytesOf, w.log, i, k + 1) as real
            <= Burst(rate) + Grant(rate, w.log[k].check - w.log[i].check) + Lanes.FRAGMENT as real
  {
    GrantAdds(rate, w.log[i].check - from.last, w.log[k].check - from.last);
  }

  /** After any history, and for as long as the rate stays the same: the bulk bytes of any units `i..k` are at
      most the burst, one fragment of debt, and the rate over the time between the two units' bucket checks. */
  lemma BulkPacing(rate: real, from: Writer, turns: seq<Turn>, i: nat, k: nat)
    requires rate > 0.0 && Between(from) && AtRate(rate, turns) && i <= k < |Run(from, turns).log|
    ensures var log := Run(from, turns).log;
            Total(BytesOf, log, i, k + 1) as real
            <= Burst(rate) + Grant(rate, log[k].check - log[i].check) + Lanes.FRAGMENT as real
  {
    EveryRunIsPaced(rate, from, turns);
    PacedStretch(rate, from, Run(from, turns), i, k);
  }

  // ---- windows -------------------------------------------------------------------------------------

  /** No unit waits longer than `d` between its check and its sealing. */
  predicate StallsWithin(log: seq<BulkUnit>, d: real) {
    forall i :: 0 <= i < |log| ==> log[i].at - log[i].check <= d
  }

  /** Bytes sealed no earlier than `a` and no later than `b`. */
  function SealedBetween(log: seq<BulkUnit>, a: real, b: real): nat {
    Totals.Between(BytesOf, SealedAt, log, a, b)
  }

  predicate Within(rate: real, log: seq<BulkUnit>, start: real, t: real, extra: real) {
    SealedBetween(log, start, start + t) as real <= Burst(rate) + Grant(rate, t) + Lanes.FRAGMENT as real + extra
  }

  /** In every window of length `t`: burst, rate times `t`, one fragment, and `extra`. */
  ghost predicate WindowsWithin(rate: real, log: seq<BulkUnit>, extra: real) {
    forall start, t :: t >= 0.0 ==> Within(rate, log, start, t, extra)
  }

  /** What stalls of at most `d` add: what the rate earns in that time, but never more than one unit. */
  function Excess(rate: real, d: real): real {
    if Grant(rate, d) <= MAX_UNIT as real then Grant(rate, d) else MAX_UNIT as real
  }

  /** One unit on its own. */
  lemma UnitWithin(rate: real, w: Writer, d: real, i: nat, t: real)
    requires rate > 0.0 && d >= 0.0 && t >= 0.0 && LogInOrder(w) && i < |w.log|
    ensures Total(BytesOf, w.log, i, i + 1) as real
            <= Burst(rate) + Grant(rate, t) + Lanes.FRAGMENT as real + Excess(rate, d)
  {
    TotalFromFirst(BytesOf, w.log, i, i + 1);
    GrantNonnegative(rate, t);
    GrantNonnegative(rate, d);
  }

  /** A stretch bounded by the time its first unit may have waited. */
  lemma StretchWithStall(rate: real, from: Writer, w: Writer, d: real, i: nat, k: nat, t: real)
    requires rate > 0.0 && Paced(rate, from, w) && StallsWithin(w.log, d)
    requires i < k < |w.log| && w.log[k].at - w.log[i].at <= t
    ensures Total(BytesOf, w.log, i, k + 1) as real
            <= Burst(rate) + Grant(rate, t) + Lanes.FRAGMENT as real + Grant(rate, d)
  {
    PacedStretch(rate, from, w, i, k);
    GrantMonotone(rate, w.log[k].check - w.log[i].check, t + d);
    GrantAdds(rate, t, t + d);
  }

  lemma LaterCheck(w: Writer, i: nat, k: nat)
    requires LogInOrder(w) && i < k < |w.log|
    ensures w.log[k].check - w.log[i + 1].check <= w.log[k].at - w.log[i].at && BytesOf(w.log[i]) <= MAX_UNIT
  {
  }

  /** A stretch without its first unit, whose checks lie within the window. */
  lemma StretchAfter(rate: real, from: Writer, w: Writer, i: nat, k: nat, t: real)
    requires rate > 0.0 && Paced(rate, from, w) && i < k < |w.log| && w.log[k].at - w.log[i].at <= t
    ensures Total(BytesOf, w.log, i + 1, k + 1) as real <= Burst(rate) + Grant(rate, t) + Lanes.FRAGMENT as real
  {
    var checked := w.log[k].check - w.log[i + 1].check;
    assert checked <= t by {
      LaterCheck(w, i, k);
    }
    assert Total(BytesOf, w.log, i + 1, k + 1) as real <= Burst(rate) + Grant(rate, checked) + Lanes.FRAGMENT as real by {
      PacedStretch(rate, from, w, i + 1, k);
    }
    GrantMonotone(rate, checked, t);
  }

  /** The whole stretch is at most one unit more. */
  lemma StretchWithoutFirst(rate: real, from: Writer, w: Writer, i: nat, k: nat, t: real)
    requires rate > 0.0 && Paced(rate, from, w) && i < k < |w.log| && w.log[k].at - w.log[i].at <= t
    ensures Total(BytesOf, w.log, i, k + 1) as real
            <= Burst(rate) + Grant(rate, t) + Lanes.FRAGMENT as real + MAX_UNIT as real
  {
    StretchAfter(rate, from, w, i, k, t);
    LaterCheck(w, i, k);
    TotalFromFirst(BytesOf, w.log, i, k + 1);
  }

  lemma StretchWithin(rate: real, from: Writer, w: Writer, d: real, i: nat, k: nat, t: real)
    requires rate > 0.0 && d >= 0.0 && t >= 0.0 && Paced(rate, from, w) && StallsWithin(w.log, d)
    requires i <= k < |w.log| && w.log[k].at - w.log[i].at <= t
    ensures Total(BytesOf, w.log, i, k + 1) as real
            <= Burst(rate) + Grant(rate, t) + Lanes.FRAGMENT as real + Excess(rate, d)
  {
    if i < k {
      StretchWithStall(rate, from, w, d, i, k, t);
      StretchWithoutFirst(rate, from, w, i, k, t);
    } else {
      UnitWithin(rate, w, d, i, t);
    }
  }

  /** After any history, at a constant rate, with stalls of at most `d`: every window is within the bound. */
  lemma BulkWindows(rate: real, from: Writer, turns: seq<Turn>, d: real)
    requires rate > 0.0 && d >= 0.0 && Between(from) && AtRate(rate, turns) && StallsWithin(Run(from, turns).log, d)
    ensures WindowsWithin(rate, Run(from, turns).log, Excess(rate, d))
  {
    var log := Run(from, turns).log;
    EveryRunIsPaced(rate, from, turns);
    GrantNonnegative(rate, d);
    forall start, t | t >= 0.0 ensures Within(rate, log, start, t, Excess(rate, d)) {
      GrantNonnegative(rate, t);
      var lo, hi := WindowStretch(BytesOf, SealedAt, log, start, start + t);
      if lo < hi {
        StretchWithin(rate, from, Run(from, turns), d, lo, hi - 1, t);
      }
    }
  }

  // ---- any history ---------------------------------------------------------------------------------

  lemma RecordStep(w: Writer, turn: Turn, was: seq<BulkUnit>, since: seq<BulkUnit>)
    requires w.log == since
    ensures var v := Next(w, turn);
            && |v.log| >= |since| && v.log[..|since|] == since
            && Next(w.(log := was + since), turn) == v.(log := was + v.log)
  {
    if turn.Send? && Next(w, turn).log != w.log {
      var u := BulkUnit(turn.size, w.last, w.now, w.granted);
      assert (was + since) + [u] == was + (since + [u]);
    }
  }

  /** The record decides nothing: it can be started afresh at any moment. */
  lemma {:induction false} RecordStartsAfresh(w: Writer, turns: seq<Turn>)
    ensures var v := Run(w.(log := []), turns); Run(w, turns) == v.(log := w.log + v.log)
  {
    if turns == [] {
      assert w.log + [] == w.log;
    } else {
      var front, turn := turns[..|turns| - 1], turns[|turns| - 1];
      RecordStartsAfresh(w, front);
      var v := Run(w.(log := []), front);
      RecordStep(v, turn, w.log, v.log);
    }
  }

  lemma {:induction false} RefillsArePast(turns: seq<Turn>)
    ensures Run(STARTED, turns).last <= Run(STARTED, turns).now
  {
    if turns != [] {
      RefillsArePast(turns[..|turns| - 1]);
    }
  }

  /** The bulk units sealed from `w` on. */
  function RecordSince(w: Writer, turns: seq<Turn>): seq<BulkUnit> {
    Run(w.(log := []), turns).log
  }

  /** The pacing promise: after any run at any rates, limited or not, from the next look on and for as long as
      the rate stays the same, every window is within burst, rate, one fragment and what stalls add. */
  lemma PacedAfterAnyHistory(rate: real, history: seq<Turn>, turns: seq<Turn>, d: real)
    requires rate > 0.0 && d >= 0.0 && AtRate(rate, turns) && !Reserved(Run(STARTED, history))
    requires StallsWithin(RecordSince(Run(STARTED, history), turns), d)
    ensures var w := Run(STARTED, history);
            && Run(w, turns).log == w.log + RecordSince(w, turns)
            && WindowsWithin(rate, RecordSince(w, turns), Excess(rate, d))
  {
    var w := Run(STARTED, history);
    RefillsArePast(history);
    RecordStartsAfresh(w, turns);
    BulkWindows(rate, w.(log := []), turns, d);
  }
}

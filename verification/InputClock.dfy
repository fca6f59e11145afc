/** Send timestamps of recent input events, kept in 1024 packed cells.

    A cell holds the microsecond of the stamp in its upper 48 bits and the low 16 bits of the number
    below. Numbers wrap at 2^32 and never are 0. The specification counts stamps without wrapping, and
    remembers every stamp's time, so a cell can be compared with the truth. */
module InputClock {
  import opened Wrappers
  import opened InputEvents

  const CLOCK_SLOTS := 1024
  const LOW_BITS: nat := 0x1_0000
  const CELL_MODULUS: nat := 0x1_0000_0000_0000_0000
  const TIME_LIMIT: nat := 0x1_0000_0000_0000

  /** Packs a time and the low 16 bits of a number; the shift drops what does not fit 64 bits. */
  function Cell(us: nat, num: U32): nat {
    us * LOW_BITS % CELL_MODULUS + num % LOW_BITS
  }

  datatype Clock = Clock(count: nat, times: map<nat, nat>, cells: seq<nat>)

  /** The number after `count`, skipping the one that wraps to 0. */
  function Successor(count: nat): nat {
    if Wrap(count + 1) == 0 then count + 2 else count + 1
  }

  function AfterStamp(c: Clock, now: nat): Clock
    requires |c.cells| == CLOCK_SLOTS
  {
    var n := Successor(c.count);
    Clock(n, c.times[n := now], c.cells[Wrap(n) % CLOCK_SLOTS := Cell(now, Wrap(n))])
  }

  function Age(c: Clock, num: U32, now: nat): Option<nat>
    requires |c.cells| == CLOCK_SLOTS
  {
    var v := c.cells[num % CLOCK_SLOTS];
    if v != 0 && v % LOW_BITS == num % LOW_BITS then
      Some(if v / LOW_BITS <= now then now - v / LOW_BITS else 0)
    else None
  }

  function StampAll(us: seq<nat>): (c: Clock)
    ensures |c.cells| == CLOCK_SLOTS
  {
    if us == [] then Clock(0, map[], seq(CLOCK_SLOTS, _ => 0))
    else AfterStamp(StampAll(us[..|us| - 1]), us[|us| - 1])
  }

  // ---- what the cells hold -------------------------------------------------------------------------

  predicate IsNumber(n: nat) {
    n >= 1 && Wrap(n) != 0
  }

  /** The newest number up to `count` that falls into cell `j`; 0 when there is none. */
  function Latest(count: nat, j: nat): nat {
    if count == 0 then 0
    else if count % CLOCK_SLOTS == j && IsNumber(count) then count
    else Latest(count - 1, j)
  }

  predicate GoodTime(us: nat) {
    0 < us < TIME_LIMIT
  }

  ghost predicate Faithful(c: Clock) {
    && |c.cells| == CLOCK_SLOTS
    && (forall n: nat :: n in c.times <==> IsNumber(n) && n <= c.count)
    && (forall n: nat :: n in c.times ==> GoodTime(c.times[n]))
    && (forall j :: 0 <= j < CLOCK_SLOTS ==>
          var l: nat := Latest(c.count, j);
          c.cells[j] == if l in c.times then Cell(c.times[l], Wrap(l)) else 0)
  }

  lemma {:induction false} LatestBounds(count: nat, j: nat)
    requires j < CLOCK_SLOTS
    ensures Latest(count, j) <= count
    ensures Latest(count, j) != 0 ==> IsNumber(Latest(count, j)) && Latest(count, j) % CLOCK_SLOTS == j
    ensures forall n :: Latest(count, j) < n <= count && IsNumber(n) ==> n % CLOCK_SLOTS != j
  {
    if count != 0 && !(count % CLOCK_SLOTS == j && IsNumber(count)) {
      LatestBounds(count - 1, j);
    }
  }

  lemma SlotOfSum(a: nat, r: nat)
    ensures (a * CLOCK_SLOTS + r) % CLOCK_SLOTS == r % CLOCK_SLOTS
  {
  }

  lemma LowBitsOfSum(a: nat, r: nat)
    ensures (a * LOW_BITS + r) % LOW_BITS == r % LOW_BITS
  {
  }

  lemma WrapKeepsLowBits(n: nat)
    ensures Wrap(n) % CLOCK_SLOTS == n % CLOCK_SLOTS && Wrap(n) % LOW_BITS == n % LOW_BITS
  {
    var q := n / SEQ_MODULUS;
    SlotOfSum(q * 0x400000, Wrap(n));
    LowBitsOfSum(q * 0x10000, Wrap(n));
  }

  /** Within the time limit the cell gives back both halves, and is never 0. */
  lemma CellFields(us: nat, n: nat)
    requires GoodTime(us)
    ensures Cell(us, Wrap(n)) != 0
    ensures Cell(us, Wrap(n)) / LOW_BITS == us
    ensures Cell(us, Wrap(n)) % LOW_BITS == n % LOW_BITS
  {
    WrapKeepsLowBits(n);
    assert us * LOW_BITS < CELL_MODULUS;
  }

  lemma LatestAfter(count: nat, j: nat)
    requires j < CLOCK_SLOTS
    ensures var n := Successor(count);
            && IsNumber(n)
            && Latest(n, j) == if n % CLOCK_SLOTS == j then n else Latest(count, j)
  {
    var n := Successor(count);
    if Wrap(count + 1) == 0 {
      assert Wrap(count + 2) == 1;
      assert !IsNumber(count + 1);
      assert Latest(count + 1, j) == Latest(count, j);
    }
  }

  /** Every stamp gives the next number: larger than all before, not wrapping to 0, and none left out but those that do. */
  lemma NumbersAreNew(c: Clock, now: nat)
    requires |c.cells| == CLOCK_SLOTS
    ensures var n := AfterStamp(c, now).count;
            c.count < n && IsNumber(n) && forall m :: c.count < m < n ==> Wrap(m) == 0
  {
    LatestAfter(c.count, 0);
  }

  lemma StampKeepsFaithful(c: Clock, now: nat)
    requires Faithful(c) && GoodTime(now)
    ensures Faithful(AfterStamp(c, now))
  {
    var d, n := AfterStamp(c, now), Successor(c.count);
    WrapKeepsLowBits(n);
    LatestAfter(c.count, 0);
    forall j | 0 <= j < CLOCK_SLOTS
      ensures var l := Latest(n, j);
              d.cells[j] == if l in d.times then Cell(d.times[l], Wrap(l)) else 0
    {
      LatestAfter(c.count, j);
      LatestBounds(c.count, j);
    }
    forall m: nat
      ensures m in d.times <==> IsNumber(m) && m <= n
    {
      if c.count < m < n {
        assert m == c.count + 1 && Wrap(m) == 0;
      }
    }
  }

  lemma {:induction false} StampingIsFaithful(us: seq<nat>)
    requires forall i :: 0 <= i < |us| ==> GoodTime(us[i])
    ensures Faithful(StampAll(us))
  {
    if us == [] {
      forall j | 0 <= j < CLOCK_SLOTS
        ensures Latest(0, j) == 0
      {
      }
    } else {
      StampingIsFaithful(us[..|us| - 1]);
      StampKeepsFaithful(StampAll(us[..|us| - 1]), us[|us| - 1]);
    }
  }

  // ---- soundness -----------------------------------------------------------------------------------

  /** Two numbers less than 65536 apart agree in their low 16 bits only if they are the same. */
  lemma SameLowBits(a: nat, b: nat)
    requires a <= b < a + LOW_BITS && a % LOW_BITS == b % LOW_BITS
    ensures a == b
  {
  }

  lemma SameCell(a: nat, b: nat)
    requires a < b && a % CLOCK_SLOTS == b % CLOCK_SLOTS
    ensures a + CLOCK_SLOTS <= b && (b < a + 2 * CLOCK_SLOTS ==> b == a + CLOCK_SLOTS)
  {
  }

  /** A number's cell still belongs to it exactly while no later number has fallen into that cell: the next
      1023 numbers do not, and the 1024th does unless it is the one skipped because it would wrap to 0. */
  lemma StillInItsCell(count: nat, n: nat)
    requires IsNumber(n) && n <= count
    ensures Latest(count, n % CLOCK_SLOTS) == n <==>
            count < n + CLOCK_SLOTS || (Wrap(n + CLOCK_SLOTS) == 0 && count < n + 2 * CLOCK_SLOTS)
  {
    var j := n % CLOCK_SLOTS;
    var l: nat := Latest(count, j);
    LatestBounds(count, j);
    assert n <= l;
    if l == n {
      assert (n + CLOCK_SLOTS) % CLOCK_SLOTS == j;
      assert (n + 2 * CLOCK_SLOTS) % CLOCK_SLOTS == j;
      NotBothSkipped(n);
    } else {
      SameCell(n, l);
    }
  }

  /** Among the last 65,535 numbers, a cell answers for `n` exactly when it belongs to `n`. */
  lemma AnswerMeansOwn(c: Clock, n: nat, now: nat)
    requires Faithful(c) && n in c.times && c.count < n + 65535
    ensures Latest(c.count, n % CLOCK_SLOTS) == n <==> Age(c, Wrap(n), now).Some?
    ensures Age(c, Wrap(n), now).Some? ==>
              Age(c, Wrap(n), now).value == if c.times[n] <= now then now - c.times[n] else 0
  {
    var j := n % CLOCK_SLOTS;
    var l: nat := Latest(c.count, j);
    WrapKeepsLowBits(n);
    LatestBounds(c.count, j);
    assert n <= l && l in c.times;
    CellFields(c.times[l], l);
    if l % LOW_BITS == n % LOW_BITS {
      SameLowBits(n, l);
    }
  }

  /** Among the last 65,535 numbers, an answer is always the age of that number's own stamp, and exactly
      the numbers whose cell has not been reused get one. */
  lemma AgeIsOwnAge(us: seq<nat>, n: nat, now: nat)
    requires forall i :: 0 <= i < |us| ==> GoodTime(us[i])
    requires var c := StampAll(us); n in c.times && c.count < n + 65535
    ensures var c := StampAll(us);
            && (Age(c, Wrap(n), now).Some? ==>
                  Age(c, Wrap(n), now).value == if c.times[n] <= now then now - c.times[n] else 0)
            && (Age(c, Wrap(n), now).Some? <==>
                c.count < n + CLOCK_SLOTS || (Wrap(n + CLOCK_SLOTS) == 0 && c.count < n + 2 * CLOCK_SLOTS))
  {
    StampingIsFaithful(us);
    AnswerMeansOwn(StampAll(us), n, now);
    StillInItsCell(StampAll(us).count, n);
  }

  lemma NotBothSkipped(n: nat)
    ensures Wrap(n + CLOCK_SLOTS) != 0 || Wrap(n + 2 * CLOCK_SLOTS) != 0
  {
  }

  /** How many numbers were stamped after `n`, up to `count`. */
  function StampedAfter(n: nat, count: nat): int {
    (count - n) - (count / SEQ_MODULUS - n / SEQ_MODULUS)
  }

  /** Each of the last 1023 stamped events is remembered, with its own age. */
  lemma LastThousandRemembered(us: seq<nat>, n: nat, now: nat)
    requires forall i :: 0 <= i < |us| ==> GoodTime(us[i])
    requires n in StampAll(us).times && StampedAfter(n, StampAll(us).count) < 1023
    ensures var c := StampAll(us);
            Age(c, Wrap(n), now) == Some(if c.times[n] <= now then now - c.times[n] else 0)
  {
    var c := StampAll(us);
    StampingIsFaithful(us);
    FewStampsFewNumbers(n, c.count);
    AgeIsOwnAge(us, n, now);
  }

  lemma FewStampsFewNumbers(n: nat, count: nat)
    requires n <= count && StampedAfter(n, count) < 1023
    ensures count < n + CLOCK_SLOTS
  {
    var d := count - n;
    assert count / SEQ_MODULUS - n / SEQ_MODULUS <= d / SEQ_MODULUS + 1;
  }

  // ---- the implementation --------------------------------------------------------------------------

  class InputClock {
    var next: U32
    const slots: array<nat>
    ghost var count: nat
    ghost var times: map<nat, nat>

    ghost function State(): Clock
      reads this, slots
    {
      Clock(count, times, slots[..])
    }

    ghost predicate Valid()
      reads this, slots
    {
      slots.Length == CLOCK_SLOTS && next == Wrap(count)
    }

    constructor ()
      ensures Valid() && fresh(slots) && State() == StampAll([])
    {
      next := 0;
      slots := new nat[CLOCK_SLOTS](_ => 0);
      count, times := 0, map[];
    }

    /** Numbers the event and notes its time; zero stays free to mean "no number". */
    method Stamp(now: nat) returns (num: U32)
      requires Valid()
      modifies this, slots
      ensures Valid() && State() == AfterStamp(old(State()), now)
      ensures num == Wrap(State().count) && num != 0
    {
      WrapNext(count);
      num := (next + 1) % SEQ_MODULUS;
      if num == 0 {
        WrapNext(count + 1);
        num := (num + 1) % SEQ_MODULUS;
      }
      next := num;
      count := Successor(count);
      times := times[count := now];
      slots[num % CLOCK_SLOTS] := Cell(now, num);
    }

    /** The age of an event, unless its cell has been written again since. */
    method AgeUs(num: U32, now: nat) returns (age: Option<nat>)
      requires Valid()
      ensures age == Age(State(), num, now)
    {
      var v := slots[num % CLOCK_SLOTS];
      if v != 0 && v % LOW_BITS == num % LOW_BITS {
        var at := v / LOW_BITS;
        age := Some(if at <= now then now - at else 0);
      } else {
        age := None;
      }
    }
  }

  lemma WrapNext(n: nat)
    ensures (Wrap(n) + 1) % SEQ_MODULUS == Wrap(n + 1)
  {
  }

  /** A number whose cell no number has fallen into yet has no age. */
  lemma UnusedCellHasNoAge(us: seq<nat>, num: U32, now: nat)
    requires forall i :: 0 <= i < |us| ==> GoodTime(us[i])
    requires forall n :: 1 <= n <= StampAll(us).count && IsNumber(n) ==> n % CLOCK_SLOTS != num % CLOCK_SLOTS
    ensures Age(StampAll(us), num, now) == None
  {
    StampingIsFaithful(us);
    LatestBounds(StampAll(us).count, num % CLOCK_SLOTS);
  }
}

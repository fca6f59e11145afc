/** How many failures of one key are let through while stamps come in any order, and exactly how old or how new
    they may be for the quota to hold. */
module LimiterQuota {
  import opened Wrappers
  import opened AttemptLimiter

  /** A failure of this key stamped from `from` on and before `until`. */
  predicate Counts<K(==)>(e: Event<K>, key: K, from: real, until: real) {
    e.Called? && e.key == key && e.deed.kind == Fail && from <= e.deed.now < until
  }

  /** What must not come between two such failures: a sweep or a call of this key stamped at `until` or later, a
      success, or a failure stamped before `oldest`. */
  predicate Disturbs<K(==)>(e: Event<K>, key: K, oldest: real, until: real) {
    match e
    case Swept(at) => at >= until
    case Called(k, d) => k == key && (d.now >= until || d.kind == Succeed || (d.kind == Fail && d.now < oldest))
  }

  predicate Undisturbed<K(==)>(events: seq<Event<K>>, key: K, oldest: real, from: real, until: real) {
    forall i, j, k ::
      0 <= i < j < k < |events| && Counts(events[i], key, from, until) && Counts(events[k], key, from, until) ==>
        !Disturbs(events[j], key, oldest, until)
  }

  /** How many of these failures were let through. */
  function LetThrough<K(==)>(rules: Rules, events: seq<Event<K>>, key: K, from: real, until: real): nat {
    if events == [] then 0
    else
      var front, e := events[..|events| - 1], events[|events| - 1];
      LetThrough(rules, front, key, from, until) + LetNow(rules, Run(rules, front).state, e, key, from, until)
  }

  function LetNow<K(==)>(rules: Rules, state: map<K, Entry>, e: Event<K>, key: K, from: real, until: real): nat {
    if Counts(e, key, from, until) && CallOn(rules, state, key, Fail, e.deed.now).1.Admitted? then 1 else 0
  }

  function Quota(rules: Rules): nat {
    if rules.maxFailures == 0 then 1 else rules.maxFailures
  }

  /** No lockout that follows a failure at `from`, or one as old as `oldest`, ends before `until`, and no failure
      since `from` is forgotten before. Where one failure locks out, only the former matters. */
  predicate Room(rules: Rules, oldest: real, from: real, until: real) {
    && until <= from + rules.lockout
    && (rules.maxFailures <= 1 || (until <= from + rules.window && until <= oldest + rules.lockout))
  }

  // ---- the quota holds -----------------------------------------------------------------------------

  function CountFrom(f: seq<real>, from: real): (c: nat)
    ensures c <= |f|
  {
    if f == [] then 0 else CountFrom(f[..|f| - 1], from) + if f[|f| - 1] >= from then 1 else 0
  }

  lemma CountSnoc(f: seq<real>, x: real, from: real)
    ensures CountFrom(f + [x], from) == CountFrom(f, from) + if x >= from then 1 else 0
  {
    assert (f + [x])[..|f|] == f;
  }

  /** Failures since `from` stay recent while less than a window has passed. */
  lemma {:induction false} RecentKeepsCount(window: real, f: seq<real>, now: real, from: real)
    requires now - from < window
    ensures CountFrom(Recent(window, f, now), from) == CountFrom(f, from)
  {
    if f != [] {
      var n := |f| - 1;
      RecentKeepsCount(window, f[..n], now, from);
      if now - f[n] < window {
        CountSnoc(Recent(window, f[..n], now), f[n], from);
      } else {
        assert Recent(window, f, now) == Recent(window, f[..n], now);
      }
    }
  }

  lemma {:induction false} CountedIsThere(f: seq<real>, from: real)
    requires CountFrom(f, from) > 0
    ensures exists i :: 0 <= i < |f| && f[i] >= from
  {
    if f[|f| - 1] < from {
      CountedIsThere(f[..|f| - 1], from);
    }
  }

  /** What the entry says about the `n` failures let through so far. */
  predicate Bounded(rules: Rules, e: Entry, n: nat, from: real, until: real) {
    match e.lockedUntil
    case Some(t) => e.failures == [] && n <= Quota(rules) && (n > 0 ==> t >= until)
    case None => n <= CountFrom(e.failures, from) && (e.failures == [] || |e.failures| < rules.maxFailures)
  }

  /** One more failure on an entry without a lockout. */
  lemma RecordKeepsBounded(rules: Rules, f: seq<real>, now: real, n: nat, oldest: real, from: real, until: real)
    requires Bounded(rules, Entry(f, None), n, from, until) && Room(rules, oldest, from, until) && oldest <= from < until
    requires n == 0 || oldest <= now < until
    ensures Bounded(rules, Recorded(rules, Entry(f, None), now), n + if from <= now < until then 1 else 0, from, until)
  {
    var r := Recent(rules.window, f, now);
    if n > 0 {
      RecentKeepsCount(rules.window, f, now, from);
    }
    CountSnoc(r, now, from);
  }

  lemma CallKeepsBounded<K>(rules: Rules, state: map<K, Entry>, key: K, d: Deed, n: nat, oldest: real, from: real,
                            until: real)
    requires Bounded(rules, EntryOf(state, key), n, from, until) && Room(rules, oldest, from, until) && oldest <= from < until
    requires n == 0 || !Disturbs(Called(key, d), key, oldest, until)
    ensures Bounded(rules, EntryOf(CallOn(rules, state, key, d.kind, d.now).0, key),
                    n + LetNow(rules, state, Called(key, d), key, from, until), from, until)
  {
    var e := EntryOf(state, key);
    if LockLeft(state, key, d.now).None? && d.kind == Fail {
      RecordKeepsBounded(rules, if e.lockedUntil.Some? then [] else e.failures, d.now, n, oldest, from, until);
    }
  }

  lemma SweepKeepsBounded<K>(rules: Rules, state: map<K, Entry>, key: K, at: real, n: nat, oldest: real, from: real,
                             until: real)
    requires Bounded(rules, EntryOf(state, key), n, from, until) && Room(rules, oldest, from, until) && oldest <= from < until
    requires n == 0 || at < until
    ensures Bounded(rules, EntryOf(AfterSweep(rules, state, at), key), n, from, until)
  {
    var e := EntryOf(state, key);
    if n > 0 && e.lockedUntil.None? {
      CountedIsThere(e.failures, from);
    }
  }

  /** Something has disturbed the key since it began. */
  predicate Broken<K(==)>(events: seq<Event<K>>, key: K, oldest: real, from: real, until: real) {
    exists i, j :: 0 <= i < j < |events| && Counts(events[i], key, from, until) && Disturbs(events[j], key, oldest, until)
  }

  predicate Begun<K(==)>(events: seq<Event<K>>, key: K, from: real, until: real) {
    exists i :: 0 <= i < |events| && Counts(events[i], key, from, until)
  }

  lemma UndisturbedFront<K>(events: seq<Event<K>>, key: K, oldest: real, from: real, until: real)
    requires events != [] && Undisturbed(events, key, oldest, from, until)
    ensures var front, e := events[..|events| - 1], events[|events| - 1];
            && Undisturbed(front, key, oldest, from, until)
            && (Counts(e, key, from, until) ==> !Broken(front, key, oldest, from, until))
            && (!Broken(events, key, oldest, from, until) ==>
                  && !Broken(front, key, oldest, from, until)
                  && (Begun(front, key, from, until) ==> !Disturbs(e, key, oldest, until)))
  {
    var front := events[..|events| - 1];
    assert forall i :: 0 <= i < |front| ==> front[i] == events[i];
  }

  lemma EventKeepsBounded<K>(rules: Rules, state: map<K, Entry>, e: Event<K>, key: K, n: nat, oldest: real, from: real,
                             until: real, l: Log<K>)
    requires Bounded(rules, EntryOf(state, key), n, from, until) && Room(rules, oldest, from, until) && oldest <= from < until
    requires l.state == state && (n == 0 || !Disturbs(e, key, oldest, until))
    ensures Bounded(rules, EntryOf(After(rules, l, e).state, key), n + LetNow(rules, state, e, key, from, until), from, until)
  {
    match e
    case Swept(at) => SweepKeepsBounded(rules, state, key, at, n, oldest, from, until);
    case Called(k, d) =>
      if k == key {
        CallKeepsBounded(rules, state, key, d, n, oldest, from, until);
      } else {
        CallLeavesOthers(rules, state, k, d, key);
      }
  }

  lemma {:induction false} RunIsBounded<K>(rules: Rules, events: seq<Event<K>>, key: K, oldest: real, from: real, until: real)
    requires Undisturbed(events, key, oldest, from, until) && Room(rules, oldest, from, until) && oldest <= from < until
    ensures var n := LetThrough(rules, events, key, from, until);
            && n <= Quota(rules) && (n > 0 ==> Begun(events, key, from, until))
            && (Broken(events, key, oldest, from, until) || Bounded(rules, EntryOf(Run(rules, events).state, key), n, from, until))
  {
    if events != [] {
      var front, e := events[..|events| - 1], events[|events| - 1];
      UndisturbedFront(events, key, oldest, from, until);
      RunIsBounded(rules, front, key, oldest, from, until);
      var l, n := Run(rules, front), LetThrough(rules, front, key, from, until);
      BegunMore(front, e, key, from, until);
      if !Broken(front, key, oldest, from, until) && (n == 0 || !Disturbs(e, key, oldest, until)) {
        EventKeepsBounded(rules, l.state, e, key, n, oldest, from, until, l);
        WithinQuota(rules, EntryOf(After(rules, l, e).state, key), n + LetNow(rules, l.state, e, key, from, until), from, until);
      }
    }
  }

  lemma BegunMore<K>(front: seq<Event<K>>, e: Event<K>, key: K, from: real, until: real)
    ensures Begun(front, key, from, until) || Counts(e, key, from, until) ==> Begun(front + [e], key, from, until)
  {
    assert (front + [e])[|front|] == e;
    assert forall i :: 0 <= i < |front| ==> (front + [e])[i] == front[i];
  }

  lemma WithinQuota(rules: Rules, e: Entry, n: nat, from: real, until: real)
    requires Bounded(rules, e, n, from, until)
    ensures n <= Quota(rules)
  {
  }

  /** Whatever other keys do, and in any order of stamps: as long as nothing disturbs the key between two of these
      failures, at most its quota of them is let through. */
  lemma QuotaHolds<K>(rules: Rules, events: seq<Event<K>>, key: K, oldest: real, from: real, until: real)
    requires Undisturbed(events, key, oldest, from, until) && Room(rules, oldest, from, until) && oldest <= from < until
    ensures LetThrough(rules, events, key, from, until) <= Quota(rules)
  {
    RunIsBounded(rules, events, key, oldest, from, until);
  }

  // ---- and not any longer --------------------------------------------------------------------------

  predicate AllRecent(window: real, f: seq<real>, now: real) {
    forall i :: 0 <= i < |f| ==> now - f[i] < window
  }

  lemma {:induction false} AllRecentStay(window: real, f: seq<real>, now: real)
    requires AllRecent(window, f, now)
    ensures Recent(window, f, now) == f
  {
    if f != [] {
      AllRecentStay(window, f[..|f| - 1], now);
      assert f[..|f| - 1] + [f[|f| - 1]] == f;
    }
  }

  /** A check at `now` finds nothing that still matters. */
  predicate Clear(rules: Rules, e: Entry, now: real) {
    match e.lockedUntil
    case Some(t) => t <= now
    case None => forall i :: 0 <= i < |e.failures| ==> now - e.failures[i] >= rules.window
  }

  /** `k` failures, all at one moment, and no lockout. */
  predicate Holds(e: Entry, at: real, k: nat) {
    e.lockedUntil.None? && |e.failures| == k && forall i :: 0 <= i < k ==> e.failures[i] == at
  }

  function Locked(rules: Rules, now: real): Entry {
    Entry([], Some(now + rules.lockout))
  }

  /** The entry after one more failure. */
  function Landed(rules: Rules, e: Entry, now: real): Entry {
    Recorded(rules, if e.lockedUntil.Some? then Entry([], None) else e, now)
  }

  lemma FirstLands(rules: Rules, e: Entry, now: real)
    requires Clear(rules, e, now)
    ensures if Quota(rules) == 1 then Landed(rules, e, now) == Locked(rules, now) else Holds(Landed(rules, e, now), now, 1)
  {
    NoneRecent(rules.window, if e.lockedUntil.Some? then [] else e.failures, now);
  }

  lemma NextLands(rules: Rules, e: Entry, at: real, k: nat, now: real)
    requires Holds(e, at, k) && now - at < rules.window && 0 < k < Quota(rules)
    ensures if k + 1 == Quota(rules) then Landed(rules, e, now) == Locked(rules, now)
            else now == at ==> Holds(Landed(rules, e, now), at, k + 1)
  {
    AllRecentStay(rules.window, e.failures, now);
  }

  /** A run that leaves the key with this entry has let through at least `n` of the failures in question. */
  predicate Leaves<K(==)>(rules: Rules, events: seq<Event<K>>, key: K, from: real, until: real, e: Entry, n: nat) {
    EntryOf(Run(rules, events).state, key) == e && LetThrough(rules, events, key, from, until) >= n
  }

  lemma OneLands<K>(rules: Rules, events: seq<Event<K>>, key: K, from: real, until: real, e: Entry, n: nat, now: real)
    requires Leaves(rules, events, key, from, until, e, n) && (e.lockedUntil.None? || e.lockedUntil.value <= now)
    ensures Leaves(rules, events + [Called(key, Deed(Fail, now))], key, from, until, Landed(rules, e, now),
                   n + if from <= now < until then 1 else 0)
  {
    EventSnoc(rules, events, Called(key, Deed(Fail, now)), key, from, until);
  }

  /** `n` failures at one moment. */
  function Round<K>(key: K, now: real, n: nat): (r: seq<Event<K>>)
    ensures forall i :: 0 <= i < |r| ==> r[i] == Called(key, Deed(Fail, now))
  {
    if n == 0 then [] else Round(key, now, n - 1) + [Called(key, Deed(Fail, now))]
  }

  lemma RoundSnoc<K>(events: seq<Event<K>>, key: K, now: real, n: nat)
    ensures events + Round(key, now, n + 1) == events + Round(key, now, n) + [Called(key, Deed(Fail, now))]
    ensures events + Round(key, now, 0) == events
  {
  }

  /** All of them are let through, and the quota's last one locks the key out. */
  lemma {:induction false} RoundLands<K>(rules: Rules, events: seq<Event<K>>, key: K, from: real, until: real, e: Entry, n: nat,
                                         now: real, k: nat) returns (t: Entry)
    requires rules.window > 0.0 && from <= now < until && 0 < k <= Quota(rules)
    requires Leaves(rules, events, key, from, until, e, n) && Clear(rules, e, now)
    ensures Leaves(rules, events + Round(key, now, k), key, from, until, t, n + k)
    ensures if k == Quota(rules) then t == Locked(rules, now) else Holds(t, now, k)
  {
    RoundSnoc(events, key, now, k - 1);
    if k == 1 {
      t := Landed(rules, e, now);
      FirstLands(rules, e, now);
      OneLands(rules, events, key, from, until, e, n, now);
    } else {
      var before := RoundLands(rules, events, key, from, until, e, n, now, k - 1);
      t := Landed(rules, before, now);
      NextLands(rules, before, now, k - 1, now);
      OneLands(rules, events + Round(key, now, k - 1), key, from, until, before, n + k - 1, now);
    }
  }

  lemma NothingYet<K>(rules: Rules, key: K, from: real, until: real)
    ensures Leaves<K>(rules, [], key, from, until, Entry([], None), 0) && Clear(rules, Entry([], None), from)
  {
  }

  /** Nothing but failures of the key, stamped where they disturb nothing. */
  predicate OnlyFailures<K(==)>(events: seq<Event<K>>, key: K, oldest: real, until: real) {
    forall i :: 0 <= i < |events| ==>
      events[i].Called? && events[i].key == key && events[i].deed.kind == Fail && oldest <= events[i].deed.now < until
  }

  /** A run of nothing but such failures that exceeds the quota. */
  predicate Exceeds<K(==)>(rules: Rules, events: seq<Event<K>>, key: K, oldest: real, from: real, until: real) {
    OnlyFailures(events, key, oldest, until) && LetThrough(rules, events, key, from, until) > Quota(rules)
  }

  /** A full round after anything that has let through at least one such failure. */
  lemma RoundExceeds<K>(rules: Rules, first: seq<Event<K>>, key: K, oldest: real, from: real, until: real, e: Entry, n: nat,
                        at: real) returns (events: seq<Event<K>>)
    requires rules.window > 0.0 && oldest <= from <= at < until && n > 0
    requires Leaves(rules, first, key, from, until, e, n) && Clear(rules, e, at)
    ensures events == first + Round(key, at, Quota(rules)) && LetThrough(rules, events, key, from, until) > Quota(rules)
    ensures OnlyFailures(first, key, oldest, until) ==> OnlyFailures(events, key, oldest, until)
  {
    var _ := RoundLands(rules, first, key, from, until, e, n, at, Quota(rules));
    events := first + Round(key, at, Quota(rules));
  }

  /** `k` failures at the beginning. */
  lemma FirstRound<K>(rules: Rules, key: K, oldest: real, from: real, until: real, k: nat) returns (first: seq<Event<K>>, e: Entry)
    requires rules.window > 0.0 && oldest <= from < until && 0 < k <= Quota(rules)
    ensures first == Round(key, from, k) && OnlyFailures(first, key, oldest, until)
    ensures Leaves(rules, first, key, from, until, e, k)
    ensures if k == Quota(rules) then e == Locked(rules, from) else Holds(e, from, k)
  {
    NothingYet(rules, key, from, until);
    e := RoundLands(rules, [], key, from, until, Entry([], None), 0, from, k);
    first := Round(key, from, k);
    assert [] + first == first;
  }

  /** Two full rounds: the key is locked out, and the lockout ends in time for the second. */
  lemma TwoRounds<K>(rules: Rules, key: K, oldest: real, from: real, until: real) returns (events: seq<Event<K>>)
    requires rules.window > 0.0 && rules.lockout > 0.0 && oldest <= from && from + rules.lockout < until
    ensures Exceeds(rules, events, key, oldest, from, until)
  {
    var first, e := FirstRound(rules, key, oldest, from, until, Quota(rules));
    events := RoundExceeds(rules, first, key, oldest, from, until, e, Quota(rules), from + rules.lockout);
  }

  /** All but one at the beginning, and a full round when they are forgotten. */
  lemma ForgottenRound<K>(rules: Rules, key: K, oldest: real, from: real, until: real) returns (events: seq<Event<K>>)
    requires rules.window > 0.0 && rules.maxFailures >= 2 && oldest <= from && from + rules.window < until
    ensures Exceeds(rules, events, key, oldest, from, until)
  {
    var first, e := FirstRound(rules, key, oldest, from, until, Quota(rules) - 1);
    events := RoundExceeds(rules, first, key, oldest, from, until, e, Quota(rules) - 1, from + rules.window);
  }

  /** All but one, and an old failure that locks the key out. */
  lemma OldFailureLocks<K>(rules: Rules, key: K, oldest: real, from: real, until: real) returns (events: seq<Event<K>>)
    requires rules.window > 0.0 && rules.maxFailures >= 2 && oldest <= from < until
    ensures OnlyFailures(events, key, oldest, until)
    ensures Leaves(rules, events, key, from, until, Locked(rules, oldest), Quota(rules) - 1)
  {
    var k := Quota(rules) - 1;
    var first, e := FirstRound(rules, key, oldest, from, until, k);
    NextLands(rules, e, from, k, oldest);
    OneLands(rules, first, key, from, until, e, k, oldest);
    events := first + [Called(key, Deed(Fail, oldest))];
  }

  /** All but one at the beginning, an old failure that locks the key out too early, and a full round after it. */
  lemma OldLockRound<K>(rules: Rules, key: K, oldest: real, from: real, until: real) returns (events: seq<Event<K>>)
    requires rules.window > 0.0 && rules.lockout > 0.0 && rules.maxFailures >= 2
    requires oldest <= from < until && oldest + rules.lockout < until
    ensures Exceeds(rules, events, key, oldest, from, until)
  {
    var at := if oldest + rules.lockout <= from then from else oldest + rules.lockout;
    var first := OldFailureLocks(rules, key, oldest, from, until);
    events := RoundExceeds(rules, first, key, oldest, from, until, Locked(rules, oldest), Quota(rules) - 1, at);
  }

  /** In this run, an undisturbed key gets no more than its quota. */
  predicate KeepsQuota<K(==)>(rules: Rules, events: seq<Event<K>>, key: K, oldest: real, from: real, until: real) {
    Undisturbed(events, key, oldest, from, until) ==> LetThrough(rules, events, key, from, until) <= Quota(rules)
  }

  /** For every interval and every age of failures between: the quota holds in all runs if and only if there is
      room for it. */
  lemma QuotaHoldsExactlyWhen<K(!new)>(rules: Rules, key: K, oldest: real, from: real, until: real)
    requires rules.window > 0.0 && rules.lockout > 0.0 && oldest <= from < until
    ensures (forall events :: KeepsQuota(rules, events, key, oldest, from, until)) <==> Room(rules, oldest, from, until)
  {
    if Room(rules, oldest, from, until) {
      forall events ensures KeepsQuota(rules, events, key, oldest, from, until) {
        if Undisturbed(events, key, oldest, from, until) {
          QuotaHolds(rules, events, key, oldest, from, until);
        }
      }
    } else {
      var events := TooMany(rules, key, oldest, from, until);
      assert !KeepsQuota(rules, events, key, oldest, from, until);
    }
  }

  lemma TooMany<K>(rules: Rules, key: K, oldest: real, from: real, until: real) returns (events: seq<Event<K>>)
    requires rules.window > 0.0 && rules.lockout > 0.0 && oldest <= from < until && !Room(rules, oldest, from, until)
    ensures Exceeds(rules, events, key, oldest, from, until)
  {
    if until > from + rules.lockout {
      events := TwoRounds(rules, key, oldest, from, until);
    } else if until > from + rules.window {
      events := ForgottenRound(rules, key, oldest, from, until);
    } else {
      events := OldLockRound(rules, key, oldest, from, until);
    }
  }

  lemma SweptClean<K>(rules: Rules, events: seq<Event<K>>, key: K, from: real, until: real, e: Entry, n: nat, at: real)
    requires Leaves(rules, events, key, from, until, e, n) && !SurvivesSweep(rules, e, at)
    ensures Leaves(rules, events + [Swept(at)], key, from, until, Entry([], None), n)
  {
    EventSnoc(rules, events, Swept(at), key, from, until);
  }

  /** A sweep stamped when the failures are past the window, though made before a call with an older stamp, is
      enough to exceed it. */
  lemma LateSweepExceeds<K>(rules: Rules, key: K, from: real, until: real, at: real) returns (events: seq<Event<K>>)
    requires rules.window > 0.0 && rules.maxFailures >= 2 && from < until && at >= from + rules.window
    ensures events == Round(key, from, Quota(rules) - 1) + [Swept(at)] + Round(key, from, Quota(rules))
    ensures LetThrough(rules, events, key, from, until) > Quota(rules)
  {
    var first, e := FirstRound(rules, key, from, from, until, Quota(rules) - 1);
    SweptClean(rules, first, key, from, until, e, Quota(rules) - 1, at);
    events := RoundExceeds(rules, first + [Swept(at)], key, from, from, until, Entry([], None), Quota(rules) - 1, from);
  }

  lemma EventSnoc<K>(rules: Rules, events: seq<Event<K>>, e: Event<K>, key: K, from: real, until: real)
    ensures var l := Run(rules, events);
            && Run(rules, events + [e]) == After(rules, l, e)
            && LetThrough(rules, events + [e], key, from, until)
               == LetThrough(rules, events, key, from, until) + LetNow(rules, l.state, e, key, from, until)
  {
    assert (events + [e])[..|events|] == events;
  }
}

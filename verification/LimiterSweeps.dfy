/** Callers that record a failure without asking first: exactly when a sweep makes a difference to them. */
module LimiterSweeps {
  import opened Wrappers
  import opened AttemptLimiter
  import opened LimiterQuota

  predicate ExpiredLock(e: Entry, now: real) {
    e.lockedUntil.Some? && e.lockedUntil.value <= now
  }

  lemma RecordedUnderLock(rules: Rules, e: Entry, now: real)
    requires ExpiredLock(e, now) && rules.maxFailures >= 2 && rules.lockout > 0.0
    ensures var v := EntryView(rules, Recorded(rules, e, now), now); v == Counting([]) || v == Blocked(now + rules.lockout)
  {
  }

  lemma RecordedAfresh(rules: Rules, now: real)
    requires rules.window > 0.0 && rules.lockout > 0.0 && rules.maxFailures >= 2
    ensures EntryView(rules, Recorded(rules, Entry([], None), now), now) == Counting([now])
  {
    RecordedView(rules, Entry([], None), now);
  }

  /** What a sweep just before an unasked record does to the view it leaves. Failures that were written under a
      lockout earlier can make the record lock the key out again. */
  lemma SweepChangesViewExactlyWhen<K>(rules: Rules, state: map<K, Entry>, key: K, now: real)
    requires rules.window > 0.0 && rules.lockout > 0.0
    ensures var swept := ViewOf(rules, AfterRecord(rules, AfterSweep(rules, state, now), key, now), key, now);
            var unswept := ViewOf(rules, AfterRecord(rules, state, key, now), key, now);
            if rules.maxFailures >= 2 && ExpiredLock(EntryOf(state, key), now)
            then swept == Counting([now]) && (unswept == Counting([]) || unswept == Blocked(now + rules.lockout))
            else swept == unswept
  {
    var e, f := EntryOf(state, key), EntryOf(AfterSweep(rules, state, now), key);
    if rules.maxFailures >= 2 {
      if ExpiredLock(e, now) {
        RecordedUnderLock(rules, e, now);
        RecordedAfresh(rules, now);
      } else if e != f {
        assert f == Entry([], None) && e.lockedUntil.None?;
        NoneRecent(rules.window, e.failures, now);
        RecordedView(rules, e, now);
        RecordedView(rules, f, now);
      }
    }
  }

  /** The answers to later calls with one key. */
  function Serve<K>(rules: Rules, state: map<K, Entry>, key: K, deeds: seq<Deed>): (map<K, Entry>, seq<Answer>) {
    if deeds == [] then (state, [])
    else
      var n := |deeds| - 1;
      var (t, answers) := Serve(rules, state, key, deeds[..n]);
      var (t', a) := CallOn(rules, t, key, deeds[n].kind, deeds[n].now);
      (t', answers + [a])
  }

  predicate Ordered(deeds: seq<Deed>) {
    forall i, k :: 0 <= i < k < |deeds| ==> deeds[i].now <= deeds[k].now
  }

  predicate Follow(deeds: seq<Deed>, now: real) {
    Ordered(deeds) && forall i :: 0 <= i < |deeds| ==> deeds[i].now >= now
  }

  /** Whatever the table holds, a key that asks first is served as its view says. */
  lemma {:induction false} ServedByView<K>(rules: Rules, state: map<K, Entry>, key: K, now: real, deeds: seq<Deed>, at: real)
    requires rules.window > 0.0 && rules.lockout > 0.0 && Follow(deeds, now) && now <= at
    requires forall i :: 0 <= i < |deeds| ==> deeds[i].now <= at
    ensures var (t, answers) := Serve(rules, state, key, deeds);
            var (v, alone) := AloneFrom(rules, ViewOf(rules, state, key, now), deeds);
            answers == alone && ViewOf(rules, t, key, at) == Later(rules, v, at)
  {
    if deeds == [] {
      EntryViewLater(rules, EntryOf(state, key), now, at);
    } else {
      var n := |deeds| - 1;
      var d := deeds[n];
      ServedByView(rules, state, key, now, deeds[..n], d.now);
      var t := Serve(rules, state, key, deeds[..n]).0;
      var v := AloneFrom(rules, ViewOf(rules, state, key, now), deeds[..n]).0;
      CallMatchesAlone(rules, t, key, d);
      LaterTwice(rules, v, d.now, d.now);
      assert DoneAlone(rules, Later(rules, v, d.now), d) == DoneAlone(rules, v, d);
      EntryViewLater(rules, EntryOf(CallOn(rules, t, key, d.kind, d.now).0, key), d.now, at);
    }
  }

  lemma FailureAlone(rules: Rules, f: seq<real>, now: real)
    requires rules.window > 0.0 && AllRecent(rules.window, f, now) && |f| < rules.maxFailures
    ensures DoneAlone(rules, Counting(f), Deed(Fail, now))
            == if |f| + 1 == rules.maxFailures then (Blocked(now + rules.lockout), Admitted(true))
               else (Counting(f + [now]), Admitted(false))
  {
    assert Later(rules, Counting(f), now) == Counting(f) by {
      AllRecentStay(rules.window, f, now);
    }
  }

  /** Failures at one moment: the last one triggers a lockout if and only if it completes the count. */
  lemma {:induction false} FailuresAlone(rules: Rules, f: seq<real>, now: real, n: nat)
    requires rules.window > 0.0 && AllRecent(rules.window, f, now) && |f| + n <= rules.maxFailures
    ensures var (v, answers) := AloneFrom(rules, Counting(f), Failures(n, now));
            && |answers| == n
            && (|f| + n < rules.maxFailures ==>
                  v.Counting? && |v.recent| == |f| + n && AllRecent(rules.window, v.recent, now))
            && (n > 0 ==> answers[n - 1] == Admitted(|f| + n == rules.maxFailures))
            && (n > 0 && |f| + n == rules.maxFailures ==> v == Blocked(now + rules.lockout))
  {
    if n > 0 {
      FailuresAlone(rules, f, now, n - 1);
      FailuresOneMore(n - 1, now);
      AloneSnoc(rules, Counting(f), Failures(n - 1, now), Deed(Fail, now));
      FailureAlone(rules, AloneFrom(rules, Counting(f), Failures(n - 1, now)).0.recent, now);
    }
  }

  /** Calls that follow are answered differently. */
  predicate TellsApart<K>(rules: Rules, a: map<K, Entry>, b: map<K, Entry>, key: K, now: real, deeds: seq<Deed>) {
    Follow(deeds, now) && Serve(rules, a, key, deeds).1 != Serve(rules, b, key, deeds).1
  }

  /** Two views that the same failures tell apart. */
  lemma OneFailureApart(rules: Rules, now: real)
    requires rules.window > 0.0 && rules.lockout > 0.0 && rules.maxFailures >= 2
    ensures var deeds := Failures(rules.maxFailures - 1, now);
            AloneFrom(rules, Counting([now]), deeds).1 != AloneFrom(rules, Counting([]), deeds).1
  {
    FailuresAlone(rules, [now], now, rules.maxFailures - 1);
    FailuresAlone(rules, [], now, rules.maxFailures - 1);
  }

  /** The calls that show it: one more look if the unswept record locked the key out, and otherwise one failure
      less than the quota. */
  function Telling<K>(rules: Rules, state: map<K, Entry>, key: K, now: real): seq<Deed> {
    if ViewOf(rules, AfterRecord(rules, state, key, now), key, now).Blocked? then [Deed(Look, now)]
    else Failures(if rules.maxFailures == 0 then 0 else rules.maxFailures - 1, now)
  }

  lemma LookApart(rules: Rules, now: real, until: real)
    requires rules.window > 0.0 && until > now
    ensures AloneFrom(rules, Counting([now]), [Deed(Look, now)]).1 != AloneFrom(rules, Blocked(until), [Deed(Look, now)]).1
  {
    var look := Deed(Look, now);
    AloneSnoc(rules, Counting([now]), [], look);
    AloneSnoc(rules, Blocked(until), [], look);
    assert [] + [look] == [look];
    assert AloneFrom(rules, Counting([now]), [look]).1 == [Admitted(false)];
    assert AloneFrom(rules, Blocked(until), [look]).1 == [Refused(until - now)];
  }

  lemma SweepShowsLater<K>(rules: Rules, state: map<K, Entry>, key: K, now: real)
    requires rules.window > 0.0 && rules.lockout > 0.0 && rules.maxFailures >= 2 && ExpiredLock(EntryOf(state, key), now)
    ensures TellsApart(rules, AfterRecord(rules, AfterSweep(rules, state, now), key, now),
                       AfterRecord(rules, state, key, now), key, now, Telling(rules, state, key, now))
  {
    var deeds := Telling(rules, state, key, now);
    SweepChangesViewExactlyWhen(rules, state, key, now);
    if ViewOf(rules, AfterRecord(rules, state, key, now), key, now).Blocked? {
      LookApart(rules, now, now + rules.lockout);
    } else {
      OneFailureApart(rules, now);
    }
    ServedByView(rules, AfterRecord(rules, AfterSweep(rules, state, now), key, now), key, now, deeds, now);
    ServedByView(rules, AfterRecord(rules, state, key, now), key, now, deeds, now);
  }

  lemma SameViewSameAnswers<K>(rules: Rules, a: map<K, Entry>, b: map<K, Entry>, key: K, now: real, deeds: seq<Deed>)
    requires rules.window > 0.0 && rules.lockout > 0.0 && ViewOf(rules, a, key, now) == ViewOf(rules, b, key, now)
    ensures !TellsApart(rules, a, b, key, now, deeds)
  {
    if Follow(deeds, now) {
      var at := if deeds == [] then now else deeds[|deeds| - 1].now;
      ServedByView(rules, a, key, now, deeds, at);
      ServedByView(rules, b, key, now, deeds, at);
    }
  }

  /** For a caller that records without asking, whatever is on file, a sweep just before changes the answer to
      some later call exactly when an expired lockout is on file and one failure alone does not lock out: unswept,
      the failure is written under the lockout and forgotten at the next check, or locks the key out together with
      others written there; swept, it counts on its own. */
  lemma SweepMattersExactlyWhen<K>(rules: Rules, state: map<K, Entry>, key: K, now: real)
    requires rules.window > 0.0 && rules.lockout > 0.0
    ensures var swept := AfterRecord(rules, AfterSweep(rules, state, now), key, now);
            var unswept := AfterRecord(rules, state, key, now);
            (exists deeds :: TellsApart(rules, swept, unswept, key, now, deeds))
            <==> rules.maxFailures >= 2 && ExpiredLock(EntryOf(state, key), now)
  {
    if rules.maxFailures >= 2 && ExpiredLock(EntryOf(state, key), now) {
      SweepShowsLater(rules, state, key, now);
    } else {
      var swept := AfterRecord(rules, AfterSweep(rules, state, now), key, now);
      var unswept := AfterRecord(rules, state, key, now);
      SweepChangesViewExactlyWhen(rules, state, key, now);
      forall deeds ensures !TellsApart(rules, swept, unswept, key, now, deeds) {
        SameViewSameAnswers(rules, swept, unswept, key, now, deeds);
      }
    }
  }

  /** It happens to every key of a limiter, unless one failure alone locks it out: enough failures at time zero
      lock it out, the lockout expires, one failure is recorded without asking, and of as many failures again, less
      one, the last one locks the key out if there was a sweep in between and does not if there was none. */
  lemma SweepMattersFromTheStart<K(!new)>(rules: Rules, key: K)
    requires rules.window > 0.0 && rules.lockout > 0.0 && rules.maxFailures >= 2
    ensures var state, now := Run(rules, Calls(key, Failures(rules.maxFailures, 0.0))).state, rules.lockout;
            && ExpiredLock(EntryOf(state, key), now)
            && TellsApart(rules, AfterRecord(rules, AfterSweep(rules, state, now), key, now),
                          AfterRecord(rules, state, key, now), key, now, Telling(rules, state, key, now))
  {
    var deeds := Failures(rules.maxFailures, 0.0);
    var events := Calls(key, deeds);
    EveryKeyAgrees(rules, events, key, 0.0);
    DeedsOfCalls(key, deeds);
    FailuresAlone(rules, [], 0.0, rules.maxFailures);
    SweepShowsLater(rules, Run(rules, events).state, key, rules.lockout);
  }
}

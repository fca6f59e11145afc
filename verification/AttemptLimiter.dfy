/** Failure counting with temporary lockout, per key.

    A caller that asks `Locked` before it records is refused while the key is locked out; what such callers
    see of one key depends on that key's own past alone. */
module AttemptLimiter {
  import opened Wrappers

  datatype Rules = Rules(maxFailures: nat, window: real, lockout: real)

  datatype Entry = Entry(failures: seq<real>, lockedUntil: Option<real>)

  /** What a caller that was let through does next: nothing, record a failure, or record a success. */
  datatype Kind = Look | Fail | Succeed

  datatype Answer = Refused(left: real) | Admitted(triggered: bool)

  /** The failures still inside the window at `now`. */
  function Recent(window: real, failures: seq<real>, now: real): (r: seq<real>)
    ensures |r| <= |failures|
  {
    if failures == [] then []
    else
      var n := |failures| - 1;
      Recent(window, failures[..n], now) + if now - failures[n] < window then [failures[n]] else []
  }

  // ---- the table -----------------------------------------------------------------------------------

  /** How long `key` is still locked out; an expired lockout is forgotten on the way. */
  function LockLeft<K>(state: map<K, Entry>, key: K, now: real): Option<real> {
    if key in state && state[key].lockedUntil.Some? && state[key].lockedUntil.value > now
    then Some(state[key].lockedUntil.value - now) else None
  }

  function AfterCheck<K>(state: map<K, Entry>, key: K, now: real): map<K, Entry> {
    if key in state && state[key].lockedUntil.Some? && state[key].lockedUntil.value <= now
    then state - {key} else state
  }

  function Recorded(rules: Rules, e: Entry, now: real): Entry {
    var failures := Recent(rules.window, e.failures, now) + [now];
    if |failures| >= rules.maxFailures then Entry([], Some(now + rules.lockout)) else e.(failures := failures)
  }

  function EntryOf<K>(state: map<K, Entry>, key: K): Entry {
    if key in state then state[key] else Entry([], None)
  }

  function AfterRecord<K>(rules: Rules, state: map<K, Entry>, key: K, now: real): map<K, Entry> {
    state[key := Recorded(rules, EntryOf(state, key), now)]
  }

  predicate TriggersLock<K>(rules: Rules, state: map<K, Entry>, key: K, now: real) {
    |Recent(rules.window, EntryOf(state, key).failures, now)| + 1 >= rules.maxFailures
  }

  /** A sweep keeps an entry while its lockout runs, or while any of its failures is recent. */
  predicate SurvivesSweep(rules: Rules, e: Entry, now: real) {
    match e.lockedUntil
    case Some(t) => t > now
    case None => exists i :: 0 <= i < |e.failures| && now - e.failures[i] < rules.window
  }

  function AfterSweep<K>(rules: Rules, state: map<K, Entry>, now: real): map<K, Entry> {
    map key | key in state && SurvivesSweep(rules, state[key], now) :: state[key]
  }

  function CallOn<K>(rules: Rules, state: map<K, Entry>, key: K, kind: Kind, now: real): (map<K, Entry>, Answer) {
    var checked, left := AfterCheck(state, key, now), LockLeft(state, key, now);
    if left.Some? then (checked, Refused(left.value))
    else
      match kind
      case Look => (checked, Admitted(false))
      case Fail => (AfterRecord(rules, checked, key, now), Admitted(TriggersLock(rules, checked, key, now)))
      case Succeed => (checked - {key}, Admitted(false))
  }

  class AttemptLimiter<K(==)> {
    const rules: Rules
    var state: map<K, Entry>

    constructor (rules: Rules)
      ensures this.rules == rules && state == map[]
    {
      this.rules, state := rules, map[];
    }

    /** How long this key must still wait; a lockout that is over goes off the books here. */
    method Locked(key: K, now: real) returns (left: Option<real>)
      modifies this
      ensures left == LockLeft(old(state), key, now) && state == AfterCheck(old(state), key, now)
    {
      if key !in state {
        return None;
      }
      match state[key].lockedUntil {
        case Some(t) =>
          if t > now {
            return Some(t - now);
          }
          state := state - {key};
          return None;
        case None =>
          return None;
      }
    }

    /** One more failure for this key, which may be the one that locks it out. */
    method RecordFailure(key: K, now: real) returns (triggered: bool)
      modifies this
      ensures triggered == TriggersLock(rules, old(state), key, now)
      ensures state == AfterRecord(rules, old(state), key, now)
    {
      var e := if key in state then state[key] else Entry([], None);
      var failures := Recent(rules.window, e.failures, now) + [now];
      if |failures| >= rules.maxFailures {
        state := state[key := Entry([], Some(now + rules.lockout))];
        triggered := true;
      } else {
        state := state[key := Entry(failures, e.lockedUntil)];
        triggered := false;
      }
    }

    method RecordSuccess(key: K)
      modifies this
      ensures state == old(state) - {key}
    {
      state := state - {key};
    }

    /** Keeps only what can still matter to a caller that asks first. */
    method Sweep(now: real)
      modifies this
      ensures state == AfterSweep(rules, old(state), now)
    {
      state := map key | key in state && SurvivesSweep(rules, state[key], now) :: state[key];
    }

    /** A caller that asks first: refused while the key is locked out, otherwise done and recorded. */
    method Call(key: K, kind: Kind, now: real) returns (answer: Answer)
      modifies this
      ensures (state, answer) == CallOn(rules, old(state), key, kind, now)
    {
      var left := Locked(key, now);
      if left.Some? {
        return Refused(left.value);
      }
      answer := Admitted(false);
      match kind {
        case Look =>
        case Fail =>
          var triggered := RecordFailure(key, now);
          answer := Admitted(triggered);
        case Succeed =>
          RecordSuccess(key);
      }
    }
  }

  // ---- one key on its own --------------------------------------------------------------------------

  /** What the table knows about one key that can still matter: a running lockout or the recent failures. */
  datatype View = Blocked(until: real) | Counting(recent: seq<real>)

  datatype Deed = Deed(kind: Kind, now: real)

  function Later(rules: Rules, v: View, now: real): View {
    match v
    case Blocked(t) => if t > now then v else Counting([])
    case Counting(f) => Counting(Recent(rules.window, f, now))
  }

  /** One call seen by its key alone. */
  function DoneAlone(rules: Rules, v: View, d: Deed): (View, Answer) {
    match Later(rules, v, d.now)
    case Blocked(t) => (Blocked(t), Refused(t - d.now))
    case Counting(f) =>
      match d.kind
      case Look => (Counting(f), Admitted(false))
      case Succeed => (Counting([]), Admitted(false))
      case Fail =>
        if |f| + 1 >= rules.maxFailures then (Blocked(d.now + rules.lockout), Admitted(true))
        else (Counting(f + [d.now]), Admitted(false))
  }

  /** From a view on, a key that lives alone. */
  function AloneFrom(rules: Rules, v: View, deeds: seq<Deed>): (View, seq<Answer>) {
    if deeds == [] then (v, [])
    else
      var n := |deeds| - 1;
      var (u, answers) := AloneFrom(rules, v, deeds[..n]);
      var (u', a) := DoneAlone(rules, u, deeds[n]);
      (u', answers + [a])
  }

  /** The reference: a key that lives alone. */
  function Alone(rules: Rules, deeds: seq<Deed>): (View, seq<Answer>) {
    AloneFrom(rules, Counting([]), deeds)
  }

  // ---- the table seen by one key -------------------------------------------------------------------

  datatype Event<K> = Called(key: K, deed: Deed) | Swept(at: real)

  function TimeOf<K>(e: Event<K>): real {
    match e
    case Called(_, d) => d.now
    case Swept(at) => at
  }

  /** The table after some events, and the answer to every call so far with its key. */
  datatype Log<K> = Log(state: map<K, Entry>, answers: seq<(K, Answer)>)

  function After<K>(rules: Rules, l: Log<K>, e: Event<K>): Log<K> {
    match e
    case Swept(at) => l.(state := AfterSweep(rules, l.state, at))
    case Called(key, d) =>
      var (state, answer) := CallOn(rules, l.state, key, d.kind, d.now);
      Log(state, l.answers + [(key, answer)])
  }

  function Run<K>(rules: Rules, events: seq<Event<K>>): Log<K> {
    if events == [] then Log(map[], []) else After(rules, Run(rules, events[..|events| - 1]), events[|events| - 1])
  }

  function AnswersTo<K(==)>(answers: seq<(K, Answer)>, key: K): seq<Answer> {
    if answers == [] then []
    else
      AnswersTo(answers[..|answers| - 1], key)
      + if answers[|answers| - 1].0 == key then [answers[|answers| - 1].1] else []
  }

  /** What is done under `key`, and when. */
  function DeedsOf<K(==)>(events: seq<Event<K>>, key: K): seq<Deed> {
    if events == [] then []
    else DeedsOf(events[..|events| - 1], key) + DeedIn(events[|events| - 1], key)
  }

  function DeedIn<K(==)>(e: Event<K>, key: K): seq<Deed> {
    if e.Called? && e.key == key then [e.deed] else []
  }

  function EntryView(rules: Rules, e: Entry, now: real): View {
    match e.lockedUntil
    case Some(t) => if t > now then Blocked(t) else Counting([])
    case None => Counting(Recent(rules.window, e.failures, now))
  }

  function ViewOf<K>(rules: Rules, state: map<K, Entry>, key: K, now: real): View {
    EntryView(rules, EntryOf(state, key), now)
  }

  /** An entry holds failures or a lockout, never both. */
  ghost predicate Disciplined<K(!new)>(state: map<K, Entry>) {
    forall key :: key in state && state[key].lockedUntil.Some? ==> state[key].failures == []
  }

  /** The clock never runs backwards. */
  predicate TimesGrow<K>(events: seq<Event<K>>) {
    forall i, k :: 0 <= i < k < |events| ==> TimeOf(events[i]) <= TimeOf(events[k])
  }

  predicate NotAfter<K>(events: seq<Event<K>>, at: real) {
    events != [] ==> TimeOf(events[|events| - 1]) <= at
  }

  lemma {:induction false} RecentLater(window: real, f: seq<real>, now: real, later: real)
    requires now <= later
    ensures Recent(window, Recent(window, f, now), later) == Recent(window, f, later)
  {
    if f != [] {
      var n := |f| - 1;
      RecentLater(window, f[..n], now, later);
      var r := Recent(window, f[..n], now);
      if now - f[n] < window {
        assert (r + [f[n]])[..|r|] == r;
      } else {
        assert Recent(window, f, now) == r;
      }
    }
  }

  lemma RecentSnoc(window: real, f: seq<real>, x: real, now: real)
    ensures Recent(window, f + [x], now) == Recent(window, f, now) + if now - x < window then [x] else []
  {
    assert (f + [x])[..|f|] == f;
  }

  lemma LaterTwice(rules: Rules, v: View, now: real, later: real)
    requires now <= later
    ensures Later(rules, Later(rules, v, now), later) == Later(rules, v, later)
  {
    if v.Counting? {
      RecentLater(rules.window, v.recent, now, later);
    }
  }

  lemma EntryViewLater(rules: Rules, e: Entry, now: real, later: real)
    requires now <= later
    ensures EntryView(rules, e, later) == Later(rules, EntryView(rules, e, now), later)
  {
    RecentLater(rules.window, e.failures, now, later);
  }

  lemma {:induction false} NoneRecent(window: real, f: seq<real>, now: real)
    requires forall i :: 0 <= i < |f| ==> now - f[i] >= window
    ensures Recent(window, f, now) == []
  {
    if f != [] {
      NoneRecent(window, f[..|f| - 1], now);
    }
  }

  /** Sweeping forgets nothing that can still matter to a caller that asks first. */
  lemma SweepKeepsView<K>(rules: Rules, state: map<K, Entry>, key: K, now: real)
    ensures ViewOf(rules, AfterSweep(rules, state, now), key, now) == ViewOf(rules, state, key, now)
  {
    if key in state && !SurvivesSweep(rules, state[key], now) && state[key].lockedUntil.None? {
      NoneRecent(rules.window, state[key].failures, now);
    }
  }

  /** The failure that locks the key out. */
  lemma LockingView(rules: Rules, f: seq<real>, now: real)
    requires rules.lockout > 0.0 && |Recent(rules.window, f, now)| + 1 >= rules.maxFailures
    ensures EntryView(rules, Recorded(rules, Entry(f, None), now), now)
            == Blocked(now + rules.lockout)
            == DoneAlone(rules, Counting(Recent(rules.window, f, now)), Deed(Fail, now)).0
  {
    RecentLater(rules.window, f, now, now);
  }

  lemma RecentAndNow(window: real, f: seq<real>, now: real)
    requires window > 0.0
    ensures Recent(window, Recent(window, f, now) + [now], now) == Recent(window, f, now) + [now]
    ensures Recent(window, Recent(window, f, now), now) == Recent(window, f, now)
  {
    var r := Recent(window, f, now);
    RecentLater(window, f, now, now);
    RecentSnoc(window, r, now, now);
  }

  /** A failure that only counts. */
  lemma CountingView(rules: Rules, f: seq<real>, now: real)
    requires rules.window > 0.0 && |Recent(rules.window, f, now)| + 1 < rules.maxFailures
    ensures EntryView(rules, Recorded(rules, Entry(f, None), now), now)
            == Counting(Recent(rules.window, f, now) + [now])
            == DoneAlone(rules, Counting(Recent(rules.window, f, now)), Deed(Fail, now)).0
  {
    RecentAndNow(rules.window, f, now);
    var r := Recent(rules.window, f, now);
    assert Recorded(rules, Entry(f, None), now) == Entry(r + [now], None);
    CountsOnItsOwn(rules, r, now);
  }

  lemma CountsOnItsOwn(rules: Rules, f: seq<real>, now: real)
    requires Recent(rules.window, f, now) == f && |f| + 1 < rules.maxFailures
    ensures DoneAlone(rules, Counting(f), Deed(Fail, now)) == (Counting(f + [now]), Admitted(false))
  {
  }

  /** A failure on an entry without a running lockout leaves the view a lone key would have. */
  lemma RecordedView(rules: Rules, e: Entry, now: real)
    requires rules.window > 0.0 && rules.lockout > 0.0 && e.lockedUntil.None?
    ensures EntryView(rules, Recorded(rules, e, now), now) == DoneAlone(rules, EntryView(rules, e, now), Deed(Fail, now)).0
  {
    assert e == Entry(e.failures, None);
    if |Recent(rules.window, e.failures, now)| + 1 < rules.maxFailures {
      CountingView(rules, e.failures, now);
    } else {
      LockingView(rules, e.failures, now);
    }
  }

  /** What the check leaves is the view at that moment. */
  lemma CheckedView<K>(rules: Rules, state: map<K, Entry>, key: K, now: real)
    ensures var e := EntryOf(AfterCheck(state, key, now), key);
            && EntryView(rules, e, now) == ViewOf(rules, state, key, now)
            && Later(rules, EntryView(rules, e, now), now) == EntryView(rules, e, now)
            && (LockLeft(state, key, now).None? ==> e.lockedUntil.None?)
  {
    EntryViewLater(rules, EntryOf(AfterCheck(state, key, now), key), now, now);
  }

  /** A call answers, and leaves its key's view, as if the key lived alone. */
  lemma CallMatchesAlone<K>(rules: Rules, state: map<K, Entry>, key: K, d: Deed)
    requires rules.window > 0.0 && rules.lockout > 0.0
    ensures var (t, a) := CallOn(rules, state, key, d.kind, d.now);
            (ViewOf(rules, t, key, d.now), a) == DoneAlone(rules, ViewOf(rules, state, key, d.now), d)
  {
    CheckedView(rules, state, key, d.now);
    if LockLeft(state, key, d.now).None? {
      RecordedView(rules, EntryOf(AfterCheck(state, key, d.now), key), d.now);
    }
  }

  lemma CallKeepsDiscipline<K(!new)>(rules: Rules, state: map<K, Entry>, key: K, d: Deed)
    requires Disciplined(state)
    ensures Disciplined(CallOn(rules, state, key, d.kind, d.now).0)
  {
  }

  lemma CallLeavesOthers<K>(rules: Rules, state: map<K, Entry>, key: K, d: Deed, other: K)
    requires key != other
    ensures EntryOf(CallOn(rules, state, key, d.kind, d.now).0, other) == EntryOf(state, other)
  {
  }

  lemma AnswersSnoc<K>(answers: seq<(K, Answer)>, x: (K, Answer), key: K)
    ensures AnswersTo(answers + [x], key) == AnswersTo(answers, key) + if x.0 == key then [x.1] else []
  {
    assert (answers + [x])[..|answers|] == answers;
  }

  lemma AloneSnoc(rules: Rules, v: View, deeds: seq<Deed>, d: Deed)
    ensures var (u, answers) := AloneFrom(rules, v, deeds);
            var (u', a) := DoneAlone(rules, u, d);
            AloneFrom(rules, v, deeds + [d]) == (u', answers + [a])
  {
    assert (deeds + [d])[..|deeds|] == deeds;
  }

  /** The table and a key living alone have told the same story up to `at`. */
  ghost predicate Agrees<K(!new)>(rules: Rules, l: Log<K>, key: K, deeds: seq<Deed>, at: real) {
    && AnswersTo(l.answers, key) == Alone(rules, deeds).1
    && ViewOf(rules, l.state, key, at) == Later(rules, Alone(rules, deeds).0, at)
    && Disciplined(l.state)
  }

  lemma AgreesLater<K(!new)>(rules: Rules, l: Log<K>, key: K, deeds: seq<Deed>, now: real, at: real)
    requires Agrees(rules, l, key, deeds, now) && now <= at
    ensures Agrees(rules, l, key, deeds, at)
  {
    EntryViewLater(rules, EntryOf(l.state, key), now, at);
    LaterTwice(rules, Alone(rules, deeds).0, now, at);
  }

  lemma SweepAgrees<K(!new)>(rules: Rules, l: Log<K>, key: K, deeds: seq<Deed>, now: real)
    requires Agrees(rules, l, key, deeds, now)
    ensures Agrees(rules, After(rules, l, Swept(now)), key, deeds, now)
  {
    SweepKeepsView(rules, l.state, key, now);
  }

  lemma OwnCallAgrees<K(!new)>(rules: Rules, l: Log<K>, key: K, deeds: seq<Deed>, d: Deed)
    requires Agrees(rules, l, key, deeds, d.now) && rules.window > 0.0 && rules.lockout > 0.0
    ensures Agrees(rules, After(rules, l, Called(key, d)), key, deeds + [d], d.now)
  {
    var v := Alone(rules, deeds).0;
    LaterTwice(rules, v, d.now, d.now);
    assert DoneAlone(rules, Later(rules, v, d.now), d) == DoneAlone(rules, v, d);
    CallMatchesAlone(rules, l.state, key, d);
    CallKeepsDiscipline(rules, l.state, key, d);
    var (state, answer) := CallOn(rules, l.state, key, d.kind, d.now);
    AnswersSnoc(l.answers, (key, answer), key);
    AloneSnoc(rules, Counting([]), deeds, d);
    EntryViewLater(rules, EntryOf(state, key), d.now, d.now);
  }

  lemma OtherCallAgrees<K(!new)>(rules: Rules, l: Log<K>, key: K, deeds: seq<Deed>, other: K, d: Deed)
    requires Agrees(rules, l, key, deeds, d.now) && other != key
    ensures Agrees(rules, After(rules, l, Called(other, d)), key, deeds, d.now)
  {
    CallLeavesOthers(rules, l.state, other, d, key);
    CallKeepsDiscipline(rules, l.state, other, d);
    AnswersSnoc(l.answers, (other, CallOn(rules, l.state, other, d.kind, d.now).1), key);
  }

  lemma AgreesAfter<K(!new)>(rules: Rules, l: Log<K>, key: K, deeds: seq<Deed>, e: Event<K>)
    requires Agrees(rules, l, key, deeds, TimeOf(e)) && rules.window > 0.0 && rules.lockout > 0.0
    ensures Agrees(rules, After(rules, l, e), key, deeds + DeedIn(e, key), TimeOf(e))
  {
    match e
    case Swept(now) =>
      SweepAgrees(rules, l, key, deeds, now);
      assert deeds + DeedIn(e, key) == deeds;
    case Called(k, d) =>
      if k == key {
        OwnCallAgrees(rules, l, key, deeds, d);
      } else {
        OtherCallAgrees(rules, l, key, deeds, k, d);
        assert deeds + DeedIn(e, key) == deeds;
      }
  }

  /** In every run with stamps in order, the table tells each key what the reference tells it. */
  lemma {:induction false} EveryKeyAgrees<K(!new)>(rules: Rules, events: seq<Event<K>>, key: K, at: real)
    requires TimesGrow(events) && NotAfter(events, at) && rules.window > 0.0 && rules.lockout > 0.0
    ensures Agrees(rules, Run(rules, events), key, DeedsOf(events, key), at)
  {
    if events != [] {
      var n := |events| - 1;
      var front, e := events[..n], events[n];
      EveryKeyAgrees(rules, front, key, TimeOf(e));
      AgreesAfter(rules, Run(rules, front), key, DeedsOf(front, key), e);
      AgreesLater(rules, Run(rules, events), key, DeedsOf(events, key), TimeOf(e), at);
    }
  }

  // ---- other keys and sweeps -----------------------------------------------------------------------

  /** The calls with this key, and nothing else. */
  function Own<K(==)>(events: seq<Event<K>>, key: K): seq<Event<K>> {
    if events == [] then []
    else
      var e := events[|events| - 1];
      Own(events[..|events| - 1], key) + if e.Called? && e.key == key then [e] else []
  }

  /** No call with this key bears a stamp older than that of a sweep before it. */
  predicate SweepsFirst<K(==)>(events: seq<Event<K>>, key: K) {
    forall i, k :: 0 <= i < k < |events| && events[i].Swept? && events[k].Called? && events[k].key == key ==>
      events[i].at <= events[k].deed.now
  }

  predicate SweptBy<K>(events: seq<Event<K>>, now: real) {
    forall i :: 0 <= i < |events| && events[i].Swept? ==> events[i].at <= now
  }

  /** From `now` on, the two entries are as good as the same: the first may have been swept. */
  predicate AsGood(rules: Rules, e: Entry, f: Entry, now: real) {
    e == f || (e == Entry([], None) && !SurvivesSweep(rules, f, now))
  }

  lemma NothingLeft(rules: Rules, e: Entry, now: real)
    requires !SurvivesSweep(rules, e, now) && e.lockedUntil.None?
    ensures Recorded(rules, e, now) == Recorded(rules, Entry([], None), now)
  {
    NoneRecent(rules.window, e.failures, now);
  }

  lemma CallAsGood<K>(rules: Rules, s: map<K, Entry>, t: map<K, Entry>, key: K, d: Deed, now: real)
    requires AsGood(rules, EntryOf(s, key), EntryOf(t, key), d.now) && AsGood(rules, EntryOf(s, key), EntryOf(t, key), now)
    ensures var (s', a) := CallOn(rules, s, key, d.kind, d.now);
            var (t', b) := CallOn(rules, t, key, d.kind, d.now);
            a == b && AsGood(rules, EntryOf(s', key), EntryOf(t', key), now)
  {
    if EntryOf(s, key) != EntryOf(t, key) && EntryOf(t, key).lockedUntil.None? {
      NothingLeft(rules, EntryOf(t, key), d.now);
      NoneRecent(rules.window, EntryOf(t, key).failures, d.now);
    }
  }

  lemma SweepAsGood<K>(rules: Rules, s: map<K, Entry>, key: K, f: Entry, at: real, now: real)
    requires AsGood(rules, EntryOf(s, key), f, now) && at <= now
    ensures AsGood(rules, EntryOf(AfterSweep(rules, s, at), key), f, now)
  {
  }

  lemma RunSnoc<K>(rules: Rules, events: seq<Event<K>>, e: Event<K>)
    ensures Run(rules, events + [e]) == After(rules, Run(rules, events), e)
  {
    assert (events + [e])[..|events|] == events;
  }

  lemma {:induction false} OwnIsAsGood<K>(rules: Rules, events: seq<Event<K>>, key: K, now: real)
    requires SweepsFirst(events, key) && SweptBy(events, now)
    ensures var all, own := Run(rules, events), Run(rules, Own(events, key));
            && AnswersTo(all.answers, key) == AnswersTo(own.answers, key)
            && AsGood(rules, EntryOf(all.state, key), EntryOf(own.state, key), now)
  {
    if events != [] {
      var n := |events| - 1;
      var front, e := events[..n], events[n];
      var all, own := Run(rules, front), Run(rules, Own(front, key));
      OwnIsAsGood(rules, front, key, now);
      match e
      case Swept(at) =>
        SweepAsGood(rules, all.state, key, EntryOf(own.state, key), at, now);
        assert Own(events, key) == Own(front, key);
      case Called(k, d) =>
        AnswersSnoc(all.answers, (k, CallOn(rules, all.state, k, d.kind, d.now).1), key);
        if k == key {
          assert SweptBy(front, d.now);
          OwnIsAsGood(rules, front, key, d.now);
          CallAsGood(rules, all.state, own.state, key, d, now);
          RunSnoc(rules, Own(front, key), e);
          AnswersSnoc(own.answers, (k, CallOn(rules, own.state, k, d.kind, d.now).1), key);
        } else {
          CallLeavesOthers(rules, all.state, k, d, key);
          assert Own(events, key) == Own(front, key);
        }
    }
  }

  /** Whatever the order of the stamps, as long as none of this key's is older than a sweep before it: the key
      gets exactly the answers it would get if it were the only key and nobody ever swept. */
  lemma EveryKeyLivesAlone<K>(rules: Rules, events: seq<Event<K>>, key: K)
    requires SweepsFirst(events, key)
    ensures AnswersTo(Run(rules, events).answers, key) == AnswersTo(Run(rules, Own(events, key)).answers, key)
  {
    OwnIsAsGood(rules, events, key, LatestSweep(events));
  }

  function LatestSweep<K>(events: seq<Event<K>>): (at: real)
    ensures SweptBy(events, at)
  {
    if events == [] then 0.0
    else
      var e, t := events[|events| - 1], LatestSweep(events[..|events| - 1]);
      if e.Swept? && t < e.at then e.at else t
  }

  function WithoutSweeps<K>(events: seq<Event<K>>): seq<Event<K>> {
    if events == [] then []
    else
      WithoutSweeps(events[..|events| - 1])
      + if events[|events| - 1].Swept? then [] else [events[|events| - 1]]
  }

  lemma {:induction false} OwnWithoutSweeps<K>(events: seq<Event<K>>, key: K)
    ensures Own(WithoutSweeps(events), key) == Own(events, key)
    ensures forall i :: 0 <= i < |WithoutSweeps(events)| ==> !WithoutSweeps(events)[i].Swept?
  {
    if events != [] {
      var front, e := events[..|events| - 1], events[|events| - 1];
      OwnWithoutSweeps(front, key);
      if e.Called? {
        assert (WithoutSweeps(front) + [e])[..|WithoutSweeps(front)|] == WithoutSweeps(front);
      } else {
        assert WithoutSweeps(events) == WithoutSweeps(front);
      }
    }
  }

  /** Sweeping changes no answer to a key none of whose calls is older than a sweep before it. */
  lemma SweepsChangeNoAnswer<K>(rules: Rules, events: seq<Event<K>>, key: K)
    requires SweepsFirst(events, key)
    ensures AnswersTo(Run(rules, events).answers, key) == AnswersTo(Run(rules, WithoutSweeps(events)).answers, key)
  {
    OwnWithoutSweeps(events, key);
    EveryKeyLivesAlone(rules, events, key);
    EveryKeyLivesAlone(rules, WithoutSweeps(events), key);
  }

  /** An older call can see a sweep: it finds no lockout that it would otherwise have found running. */
  lemma OlderCallSeesSweep<K>(rules: Rules, state: map<K, Entry>, key: K, swept: real, now: real)
    requires key in state && state[key].lockedUntil.Some? && now < state[key].lockedUntil.value <= swept
    ensures CallOn(rules, state, key, Look, now).1.Refused?
    ensures CallOn(rules, AfterSweep(rules, state, swept), key, Look, now).1 == Admitted(false)
  {
  }

  // ---- runs of one key -----------------------------------------------------------------------------

  function Calls<K>(key: K, deeds: seq<Deed>): (r: seq<Event<K>>)
    ensures |r| == |deeds|
  {
    seq(|deeds|, i requires 0 <= i < |deeds| => Called(key, deeds[i]))
  }

  lemma {:induction false} DeedsOfCalls<K>(key: K, deeds: seq<Deed>)
    ensures DeedsOf(Calls(key, deeds), key) == deeds
  {
    if deeds != [] {
      var n := |deeds| - 1;
      DeedsOfCalls(key, deeds[..n]);
      assert Calls(key, deeds)[..n] == Calls(key, deeds[..n]);
    }
  }

  function Failures(n: nat, now: real): seq<Deed> {
    seq(n, _ => Deed(Fail, now))
  }

  lemma FailuresOneMore(n: nat, now: real)
    ensures Failures(n + 1, now) == Failures(n, now) + [Deed(Fail, now)]
  {
  }
}

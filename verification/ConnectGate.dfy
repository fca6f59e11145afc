/** What stands before a connect request: four attempt limiters, asked in order, and what they learn from it. */
module ConnectGate {
  import opened Wrappers
  import L = AttemptLimiter
  import Q = LimiterQuota
  import T = SessionTable

  const CONNECTS: L.Rules := L.Rules(30, 60.0, 300.0)
  const VIEWERS: L.Rules := L.Rules(5, 600.0, 1800.0)
  const ADDRESSES: L.Rules := L.Rules(10, 600.0, 1800.0)
  const UNKNOWNS: L.Rules := L.Rules(15, 600.0, 1800.0)

  /** Requests per viewer, wrong passwords per viewer and per address, and unknown targets per address. */
  datatype Gates = Gates(
    connects: map<T.Device, L.Entry>,
    viewers: map<T.Device, L.Entry>,
    addresses: map<T.Address, L.Entry>,
    unknowns: map<T.Address, L.Entry>)

  const OPEN := Gates(map[], map[], map[], map[])

  /** The request is counted for its viewer, and then refused while any of the others is locked. */
  function Asked(g: Gates, viewer: T.Device, ip: T.Address, now: real): (Gates, T.Admission) {
    var (connects, answer) := L.CallOn(CONNECTS, g.connects, viewer, L.Fail, now);
    var g1 := g.(connects := connects);
    if answer.Refused? then (g1, T.RateLimited)
    else
      var g2 := g1.(viewers := L.AfterCheck(g.viewers, viewer, now));
      if L.LockLeft(g.viewers, viewer, now).Some? then (g2, T.Banned)
      else
        var g3 := g2.(addresses := L.AfterCheck(g.addresses, ip, now));
        if L.LockLeft(g.addresses, ip, now).Some? then (g3, T.Banned)
        else
          var g4 := g3.(unknowns := L.AfterCheck(g.unknowns, ip, now));
          (g4, if L.LockLeft(g.unknowns, ip, now).Some? then T.Banned else T.Admitted)
  }

  /** A request that was let through, for a device that is not there, counts against its address. */
  function Requested(g: Gates, viewer: T.Device, ip: T.Address, unknown: bool, now: real): Gates {
    var (asked, admission) := Asked(g, viewer, ip, now);
    if admission.Admitted? && unknown then asked.(unknowns := L.AfterRecord(UNKNOWNS, asked.unknowns, ip, now))
    else asked
  }

  /** The id cannot be read, or no such device is online. */
  predicate Unknown(t: T.Table, viewer: T.Device, target: Option<T.Device>) {
    target.None? || (target.value != viewer && target.value !in t.devices)
  }

  function AfterRequest(t: T.Table, g: Gates, viewer: T.Device, target: Option<T.Device>, now: real): Gates {
    if viewer !in t.devices then g
    else Requested(g, viewer, t.devices[viewer].ip, Unknown(t, viewer, target), now)
  }

  function AdmissionOf(t: T.Table, g: Gates, viewer: T.Device, now: real): T.Admission {
    if viewer !in t.devices then T.Admitted else Asked(g, viewer, t.devices[viewer].ip, now).1
  }

  /** A wrong password counts without asking. */
  function WrongPassword(g: Gates, viewer: T.Device, ip: T.Address, now: real): Gates {
    g.(viewers := L.AfterRecord(VIEWERS, g.viewers, viewer, now),
       addresses := L.AfterRecord(ADDRESSES, g.addresses, ip, now))
  }

  function Swept(g: Gates, now: real): Gates {
    Gates(L.AfterSweep(CONNECTS, g.connects, now), L.AfterSweep(VIEWERS, g.viewers, now),
          L.AfterSweep(ADDRESSES, g.addresses, now), L.AfterSweep(UNKNOWNS, g.unknowns, now))
  }

  // ---- what an address can find out ----------------------------------------------------------------

  datatype Knock =
    | Request(viewer: T.Device, ip: T.Address, unknown: bool, now: real)
    | Password(viewer: T.Device, ip: T.Address, now: real)
    | Sweep(now: real)

  function After(g: Gates, k: Knock): Gates {
    match k
    case Request(viewer, ip, unknown, now) => Requested(g, viewer, ip, unknown, now)
    case Password(viewer, ip, now) => WrongPassword(g, viewer, ip, now)
    case Sweep(now) => Swept(g, now)
  }

  function Run(knocks: seq<Knock>): Gates {
    if knocks == [] then OPEN else After(Run(knocks[..|knocks| - 1]), knocks[|knocks| - 1])
  }

  /** This request is answered by the truth that its target is unknown. */
  predicate Tells(g: Gates, k: Knock) {
    k.Request? && k.unknown && Asked(g, k.viewer, k.ip, k.now).1.Admitted?
  }

  /** A request of this address for an unknown target, stamped from `from` on and before `until`. */
  predicate Guesses(k: Knock, ip: T.Address, from: real, until: real) {
    k.Request? && k.ip == ip && k.unknown && from <= k.now < until
  }

  /** What must not come between two of them: a sweep or a request of this address stamped at `until` or later,
      or a request for an unknown target stamped before `oldest`. */
  predicate Upsets(k: Knock, ip: T.Address, oldest: real, until: real) {
    match k
    case Sweep(now) => now >= until
    case Request(_, from, unknown, now) => from == ip && (now >= until || (unknown && now < oldest))
    case Password(_, _, _) => false
  }

  predicate Calm(knocks: seq<Knock>, ip: T.Address, oldest: real, from: real, until: real) {
    forall i, j, k ::
      0 <= i < j < k < |knocks| && Guesses(knocks[i], ip, from, until) && Guesses(knocks[k], ip, from, until) ==>
        !Upsets(knocks[j], ip, oldest, until)
  }

  function ToldNow(g: Gates, k: Knock, ip: T.Address, from: real, until: real): nat {
    if Guesses(k, ip, from, until) && Tells(g, k) then 1 else 0
  }

  /** How many of these requests were answered so. */
  function Told(knocks: seq<Knock>, ip: T.Address, from: real, until: real): nat {
    if knocks == [] then 0
    else
      var front, k := knocks[..|knocks| - 1], knocks[|knocks| - 1];
      Told(front, ip, from, until) + ToldNow(Run(front), k, ip, from, until)
  }

  /** The request comes as far as the limiter of unknown targets. */
  predicate Arrives(g: Gates, k: Knock) {
    k.Request?
    && L.CallOn(CONNECTS, g.connects, k.viewer, L.Fail, k.now).1.Admitted?
    && L.LockLeft(g.viewers, k.viewer, k.now).None? && L.LockLeft(g.addresses, k.ip, k.now).None?
  }

  function SeenIn(g: Gates, k: Knock): seq<L.Event<T.Address>> {
    if k.Sweep? then [L.Swept(k.now)]
    else if Arrives(g, k) then [L.Called(k.ip, L.Deed(if k.unknown then L.Fail else L.Look, k.now))]
    else []
  }

  /** What that limiter sees of it all. */
  function Seen(knocks: seq<Knock>): seq<L.Event<T.Address>> {
    if knocks == [] then []
    else Seen(knocks[..|knocks| - 1]) + SeenIn(Run(knocks[..|knocks| - 1]), knocks[|knocks| - 1])
  }

  /** One knock, as the limiter sees it. */
  lemma SeenOne(g: Gates, k: Knock, events: seq<L.Event<T.Address>>, ip: T.Address, from: real, until: real)
    requires g.unknowns == L.Run(UNKNOWNS, events).state
    ensures var seen := SeenIn(g, k);
            if seen == [] then After(g, k).unknowns == g.unknowns && ToldNow(g, k, ip, from, until) == 0
            else
              && After(g, k).unknowns == L.After(UNKNOWNS, L.Run(UNKNOWNS, events), seen[0]).state
              && ToldNow(g, k, ip, from, until) == Q.LetNow(UNKNOWNS, g.unknowns, seen[0], ip, from, until)
  {
  }

  /** The limiter's own count of failures let through, and its state. */
  predicate Matches(g: Gates, told: nat, events: seq<L.Event<T.Address>>, ip: T.Address, from: real, until: real) {
    g.unknowns == L.Run(UNKNOWNS, events).state && told == Q.LetThrough(UNKNOWNS, events, ip, from, until)
  }

  lemma KnockMatches(g: Gates, k: Knock, told: nat, events: seq<L.Event<T.Address>>, ip: T.Address, from: real, until: real)
    requires Matches(g, told, events, ip, from, until)
    ensures Matches(After(g, k), told + ToldNow(g, k, ip, from, until), events + SeenIn(g, k), ip, from, until)
  {
    SeenOne(g, k, events, ip, from, until);
    if SeenIn(g, k) == [] {
      assert events + [] == events;
    } else {
      assert events + SeenIn(g, k) == events + [SeenIn(g, k)[0]];
      Q.EventSnoc(UNKNOWNS, events, SeenIn(g, k)[0], ip, from, until);
    }
  }

  /** The count of answers is the limiter's own count of failures let through. */
  lemma {:induction false} ToldIsLetThrough(knocks: seq<Knock>, ip: T.Address, from: real, until: real)
    ensures Matches(Run(knocks), Told(knocks, ip, from, until), Seen(knocks), ip, from, until)
  {
    if knocks != [] {
      var front, k := knocks[..|knocks| - 1], knocks[|knocks| - 1];
      ToldIsLetThrough(front, ip, from, until);
      KnockMatches(Run(front), k, Told(front, ip, from, until), Seen(front), ip, from, until);
    }
  }

  // ---- what does not upset the knocks does not disturb the limiter -----------------------------------

  predicate Begun(knocks: seq<Knock>, ip: T.Address, from: real, until: real) {
    exists i :: 0 <= i < |knocks| && Guesses(knocks[i], ip, from, until)
  }

  predicate Broken(knocks: seq<Knock>, ip: T.Address, oldest: real, from: real, until: real) {
    exists i, j :: 0 <= i < j < |knocks| && Guesses(knocks[i], ip, from, until) && Upsets(knocks[j], ip, oldest, until)
  }

  lemma CalmFront(front: seq<Knock>, k: Knock, ip: T.Address, oldest: real, from: real, until: real)
    ensures var all := front + [k];
            && (Begun(front, ip, from, until) || Guesses(k, ip, from, until) ==> Begun(all, ip, from, until))
            && (Broken(front, ip, oldest, from, until) ==> Broken(all, ip, oldest, from, until))
            && (Begun(front, ip, from, until) && Upsets(k, ip, oldest, until) ==> Broken(all, ip, oldest, from, until))
            && (Calm(all, ip, oldest, from, until) ==>
                  && Calm(front, ip, oldest, from, until)
                  && (Guesses(k, ip, from, until) ==> !Broken(front, ip, oldest, from, until)))
  {
    var all := front + [k];
    assert all[|front|] == k;
    assert forall i :: 0 <= i < |front| ==> all[i] == front[i];
  }

  lemma UndisturbedSnoc(events: seq<L.Event<T.Address>>, e: L.Event<T.Address>, ip: T.Address, oldest: real, from: real,
                        until: real)
    requires Q.Undisturbed(events, ip, oldest, from, until)
    requires Q.Counts(e, ip, from, until) ==> !Q.Broken(events, ip, oldest, from, until)
    ensures var more := events + [e];
            && Q.Undisturbed(more, ip, oldest, from, until)
            && (Q.Begun(more, ip, from, until) ==> Q.Begun(events, ip, from, until) || Q.Counts(e, ip, from, until))
            && (Q.Broken(more, ip, oldest, from, until) ==>
                  || Q.Broken(events, ip, oldest, from, until)
                  || (Q.Begun(events, ip, from, until) && Q.Disturbs(e, ip, oldest, until)))
  {
  }

  lemma {:induction false} CalmIsUndisturbed(knocks: seq<Knock>, ip: T.Address, oldest: real, from: real, until: real)
    requires Calm(knocks, ip, oldest, from, until)
    ensures Q.Undisturbed(Seen(knocks), ip, oldest, from, until)
    ensures Q.Begun(Seen(knocks), ip, from, until) ==> Begun(knocks, ip, from, until)
    ensures Q.Broken(Seen(knocks), ip, oldest, from, until) ==> Broken(knocks, ip, oldest, from, until)
  {
    if knocks != [] {
      var front, k := knocks[..|knocks| - 1], knocks[|knocks| - 1];
      assert front + [k] == knocks;
      CalmFront(front, k, ip, oldest, from, until);
      CalmIsUndisturbed(front, ip, oldest, from, until);
      var seen := SeenIn(Run(front), k);
      if seen == [] {
        assert Seen(knocks) == Seen(front);
      } else {
        assert Seen(knocks) == Seen(front) + [seen[0]];
        UndisturbedSnoc(Seen(front), seen[0], ip, oldest, from, until);
      }
    }
  }

  /** However many viewers ask from one address, whatever other addresses do, and in any order of stamps: of its
      requests stamped in an interval of at most ten minutes, at most fifteen learn that their target is unknown,
      unless between them comes a sweep or a request stamped after the interval, or a request for an unknown
      target stamped half an hour before its end. */
  lemma UnknownsAreFew(knocks: seq<Knock>, ip: T.Address, oldest: real, from: real, until: real)
    requires Calm(knocks, ip, oldest, from, until) && oldest <= from < until <= from + 600.0 && until <= oldest + 1800.0
    ensures Told(knocks, ip, from, until) <= 15
  {
    ToldIsLetThrough(knocks, ip, from, until);
    CalmIsUndisturbed(knocks, ip, oldest, from, until);
    Q.QuotaHolds(UNKNOWNS, Seen(knocks), ip, oldest, from, until);
  }

  // ---- and no less will do -------------------------------------------------------------------------

  /** One viewer for every number. */
  function Name(n: nat): (d: T.Device)
    ensures |d| == n
  {
    seq(n, _ => 'v')
  }

  /** Each failure is a request of another viewer. */
  function AsKnocks(events: seq<L.Event<T.Address>>, ip: T.Address): seq<Knock> {
    if events == [] then []
    else
      var n := |events| - 1;
      AsKnocks(events[..n], ip) + [Request(Name(n), ip, true, L.TimeOf(events[n]))]
  }

  /** No wrong passwords yet, and fewer than `n` viewers. */
  predicate Few(g: Gates, n: nat) {
    g.viewers == map[] && g.addresses == map[] && forall v :: v in g.connects ==> |v| < n
  }

  lemma StrangerArrives(g: Gates, n: nat, ip: T.Address, now: real)
    requires Few(g, n)
    ensures var k := Request(Name(n), ip, true, now);
            SeenIn(g, k) == [L.Called(ip, L.Deed(L.Fail, now))] && Few(After(g, k), n + 1)
  {
    assert Name(n) !in g.connects;
  }

  /** The limiter has seen exactly these. */
  predicate Shows(knocks: seq<Knock>, events: seq<L.Event<T.Address>>) {
    Seen(knocks) == events && Few(Run(knocks), |events|)
  }

  lemma OneMoreShows(knocks: seq<Knock>, events: seq<L.Event<T.Address>>, ip: T.Address, now: real)
    requires Shows(knocks, events)
    ensures Shows(knocks + [Request(Name(|events|), ip, true, now)], events + [L.Called(ip, L.Deed(L.Fail, now))])
  {
    StrangerArrives(Run(knocks), |events|, ip, now);
    KnockSnoc(knocks, Request(Name(|events|), ip, true, now));
  }

  lemma {:induction false} AsKnocksAreSeen(events: seq<L.Event<T.Address>>, ip: T.Address, oldest: real, until: real)
    requires Q.OnlyFailures(events, ip, oldest, until)
    ensures Shows(AsKnocks(events, ip), events)
  {
    if events != [] {
      var n := |events| - 1;
      AsKnocksAreSeen(events[..n], ip, oldest, until);
      OneMoreShows(AsKnocks(events[..n], ip), events[..n], ip, events[n].deed.now);
      assert events == events[..n] + [events[n]];
    }
  }

  lemma {:induction false} AsKnocksUpsetNothing(events: seq<L.Event<T.Address>>, ip: T.Address, oldest: real, until: real)
    requires Q.OnlyFailures(events, ip, oldest, until)
    ensures forall k :: k in AsKnocks(events, ip) ==> !Upsets(k, ip, oldest, until)
  {
    if events != [] {
      AsKnocksUpsetNothing(events[..|events| - 1], ip, oldest, until);
    }
  }

  lemma KnockSnoc(knocks: seq<Knock>, k: Knock)
    ensures Run(knocks + [k]) == After(Run(knocks), k)
    ensures Seen(knocks + [k]) == Seen(knocks) + SeenIn(Run(knocks), k)
  {
    assert (knocks + [k])[..|knocks|] == knocks;
  }

  predicate TellsFew(knocks: seq<Knock>, ip: T.Address, oldest: real, from: real, until: real) {
    Calm(knocks, ip, oldest, from, until) ==> Told(knocks, ip, from, until) <= 15
  }

  /** For every interval and every age of requests between: at most fifteen of its requests learn that in all runs
      if and only if the interval is no longer than ten minutes and ends within half an hour of that age. */
  lemma UnknownsAreFewExactlyWhen(ip: T.Address, oldest: real, from: real, until: real)
    requires oldest <= from < until
    ensures (forall knocks :: TellsFew(knocks, ip, oldest, from, until)) <==> until <= from + 600.0 && until <= oldest + 1800.0
  {
    if until <= from + 600.0 && until <= oldest + 1800.0 {
      forall knocks ensures TellsFew(knocks, ip, oldest, from, until) {
        if Calm(knocks, ip, oldest, from, until) {
          UnknownsAreFew(knocks, ip, oldest, from, until);
        }
      }
    } else {
      var events := Q.TooMany(UNKNOWNS, ip, oldest, from, until);
      var knocks := AsKnocks(events, ip);
      AsKnocksAreSeen(events, ip, oldest, until);
      AsKnocksUpsetNothing(events, ip, oldest, until);
      ToldIsLetThrough(knocks, ip, from, until);
      assert !TellsFew(knocks, ip, oldest, from, until);
    }
  }
}

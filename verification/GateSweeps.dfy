/** A run of the hub's limiters in which a sweep decides whether an address may connect: wrong passwords are
    recorded without asking, and one of them is recorded after the address's lockout has expired. */
module GateSweeps {
  import opened Wrappers
  import L = AttemptLimiter
  import Q = LimiterQuota
  import T = SessionTable
  import opened ConnectGate

  const LIMIT: nat := ADDRESSES.maxFailures

  /** When the first lockout expires. */
  const LATER: real := ADDRESSES.lockout

  /** Sessions of one address report wrong passwords, none of them the viewer's `v`. */
  predicate Reports(knocks: seq<Knock>, ip: T.Address, at: real, v: T.Device) {
    forall i :: 0 <= i < |knocks| ==> knocks[i].Password? && knocks[i].ip == ip && knocks[i].now == at && knocks[i].viewer != v
  }

  /** The address's entry after `j` wrong passwords at one moment, and nothing else. */
  predicate Stage(e: L.Entry, at: real, j: nat) {
    if j == 0 then e == L.Entry([], None)
    else if j < LIMIT then Q.Holds(e, at, j)
    else e == Q.Locked(ADDRESSES, at)
  }

  /** As far as the viewer `v` is concerned, only its address matters. */
  predicate Innocent(g: Gates, v: T.Device, ip: T.Address) {
    && v !in g.viewers && ip !in g.unknowns
    && L.EntryOf(g.connects, v).lockedUntil.None? && |L.EntryOf(g.connects, v).failures| <= 1
  }

  lemma StageNext(e: L.Entry, at: real, j: nat)
    requires Stage(e, at, j) && j < LIMIT
    ensures Stage(L.Recorded(ADDRESSES, e, at), at, j + 1)
  {
    if j == 0 {
      Q.FirstLands(ADDRESSES, e, at);
    } else {
      Q.NextLands(ADDRESSES, e, at, j, at);
    }
  }

  lemma RunSnoc(knocks: seq<Knock>, k: Knock)
    ensures Run(knocks + [k]) == After(Run(knocks), k)
  {
    KnockSnoc(knocks, k);
  }

  lemma WrongOne(g: Gates, v: T.Device, ip: T.Address, at: real, j: nat, w: T.Device)
    requires Stage(L.EntryOf(g.addresses, ip), at, j) && Innocent(g, v, ip) && j < LIMIT && w != v
    ensures var t := After(g, Password(w, ip, at)); Stage(L.EntryOf(t.addresses, ip), at, j + 1) && Innocent(t, v, ip)
  {
    StageNext(L.EntryOf(g.addresses, ip), at, j);
  }

  /** After a run, the address has reached this stage. */
  predicate Reaches(knocks: seq<Knock>, v: T.Device, ip: T.Address, at: real, j: nat) {
    Stage(L.EntryOf(Run(knocks).addresses, ip), at, j) && Innocent(Run(knocks), v, ip)
  }

  lemma OneMoreReaches(knocks: seq<Knock>, v: T.Device, ip: T.Address, at: real, j: nat, k: Knock)
    requires Reaches(knocks, v, ip, at, j) && j < LIMIT && Reports([k], ip, at, v)
    ensures Reaches(knocks + [k], v, ip, at, j + 1)
  {
    RunSnoc(knocks, k);
    assert [k][0] == k;
    WrongOne(Run(knocks), v, ip, at, j, k.viewer);
  }

  lemma {:induction false} ReportsCount(knocks: seq<Knock>, v: T.Device, ip: T.Address, at: real, j: nat, reports: seq<Knock>)
    requires Reaches(knocks, v, ip, at, j) && j + |reports| <= LIMIT && Reports(reports, ip, at, v)
    ensures Reaches(knocks + reports, v, ip, at, j + |reports|)
  {
    if reports == [] {
      assert knocks + reports == knocks;
    } else {
      var front, k := reports[..|reports| - 1], reports[|reports| - 1];
      ReportsCount(knocks, v, ip, at, j, front);
      OneMoreReaches(knocks + front, v, ip, at, j + |front|, k);
      assert knocks + reports == knocks + front + [k];
    }
  }

  /** The first ten lock the address out for half an hour. */
  lemma TenLock(v: T.Device, ip: T.Address, reports: seq<Knock>)
    requires Reports(reports, ip, 0.0, v) && |reports| == LIMIT
    ensures L.EntryOf(Run(reports).addresses, ip) == L.Entry([], Some(LATER)) && Innocent(Run(reports), v, ip)
  {
    ReportsCount([], v, ip, 0.0, 0, reports);
    assert [] + reports == reports;
  }

  /** A late report, and a request that is let through. */
  function Late(w: T.Device, v: T.Device, ip: T.Address): seq<Knock> {
    [Password(w, ip, LATER), Request(v, ip, false, LATER)]
  }

  lemma LateSteps(knocks: seq<Knock>, w: T.Device, v: T.Device, ip: T.Address)
    ensures Run(knocks + Late(w, v, ip)) == After(After(Run(knocks), Late(w, v, ip)[0]), Late(w, v, ip)[1])
  {
    RunSnoc(knocks, Late(w, v, ip)[0]);
    RunSnoc(knocks + [Late(w, v, ip)[0]], Late(w, v, ip)[1]);
    assert knocks + Late(w, v, ip) == knocks + [Late(w, v, ip)[0]] + [Late(w, v, ip)[1]];
  }

  /** Unswept, the report is written under the expired lockout, and the request's check forgets both. */
  lemma LateUnswept(g: Gates, w: T.Device, v: T.Device, ip: T.Address)
    requires L.EntryOf(g.addresses, ip) == L.Entry([], Some(LATER)) && Innocent(g, v, ip) && w != v
    requires L.EntryOf(g.connects, v) == L.Entry([], None)
    ensures var t := After(After(g, Late(w, v, ip)[0]), Late(w, v, ip)[1]);
            Stage(L.EntryOf(t.addresses, ip), LATER, 0) && Innocent(t, v, ip)
  {
  }

  /** Swept, it counts. */
  lemma LateSwept(g: Gates, w: T.Device, v: T.Device, ip: T.Address)
    requires Stage(L.EntryOf(g.addresses, ip), LATER, 0) && Innocent(g, v, ip) && w != v
    requires L.EntryOf(g.connects, v) == L.Entry([], None)
    ensures var t := After(After(g, Late(w, v, ip)[0]), Late(w, v, ip)[1]);
            Stage(L.EntryOf(t.addresses, ip), LATER, 1) && Innocent(t, v, ip)
  {
    StageNext(L.EntryOf(g.addresses, ip), LATER, 0);
  }

  lemma {:induction false} ReportsLeaveConnects(reports: seq<Knock>, ip: T.Address, at: real, v: T.Device)
    requires Reports(reports, ip, at, v)
    ensures Run(reports).connects == map[]
  {
    if reports != [] {
      ReportsLeaveConnects(reports[..|reports| - 1], ip, at, v);
    }
  }

  /** The viewer's next request is let through or refused, as its address is locked out or not. */
  lemma NextRequest(g: Gates, v: T.Device, ip: T.Address, j: nat)
    requires Stage(L.EntryOf(g.addresses, ip), LATER, j) && Innocent(g, v, ip) && j <= LIMIT
    ensures Asked(g, v, ip, LATER).1 == if j < LIMIT then T.Admitted else T.Banned
  {
  }

  /** Ten wrong passwords lock an address out, and it stays away until the lockout has expired. Of its sessions
      still open, one reports a wrong password; a viewer of this address connects; and nine more sessions report
      wrong passwords. If there was a sweep before the first of these, the viewer's next request is banned; if
      there was none, it is let through. */
  lemma SweepDecidesAboutAnAddress(v: T.Device, w: T.Device, ip: T.Address, ten: seq<Knock>, nine: seq<Knock>)
    requires w != v && Reports(ten, ip, 0.0, v) && |ten| == LIMIT && Reports(nine, ip, LATER, v) && |nine| == LIMIT - 1
    ensures Asked(Run(ten + Late(w, v, ip) + nine), v, ip, LATER).1 == T.Admitted
    ensures Asked(Run(ten + [Sweep(LATER)] + Late(w, v, ip) + nine), v, ip, LATER).1 == T.Banned
  {
    TenLock(v, ip, ten);
    ReportsLeaveConnects(ten, ip, 0.0, v);
    UnsweptEnd(ten, w, v, ip, nine);
    RunSnoc(ten, Sweep(LATER));
    SweptEnd(ten + [Sweep(LATER)], w, v, ip, nine);
  }

  lemma UnsweptEnd(knocks: seq<Knock>, w: T.Device, v: T.Device, ip: T.Address, nine: seq<Knock>)
    requires L.EntryOf(Run(knocks).addresses, ip) == L.Entry([], Some(LATER)) && Innocent(Run(knocks), v, ip) && w != v
    requires L.EntryOf(Run(knocks).connects, v) == L.Entry([], None)
    requires Reports(nine, ip, LATER, v) && |nine| == LIMIT - 1
    ensures Asked(Run(knocks + Late(w, v, ip) + nine), v, ip, LATER).1 == T.Admitted
  {
    LateSteps(knocks, w, v, ip);
    LateUnswept(Run(knocks), w, v, ip);
    ReportsCount(knocks + Late(w, v, ip), v, ip, LATER, 0, nine);
    NextRequest(Run(knocks + Late(w, v, ip) + nine), v, ip, LIMIT - 1);
  }

  lemma SweptEnd(knocks: seq<Knock>, w: T.Device, v: T.Device, ip: T.Address, nine: seq<Knock>)
    requires Stage(L.EntryOf(Run(knocks).addresses, ip), LATER, 0) && Innocent(Run(knocks), v, ip) && w != v
    requires L.EntryOf(Run(knocks).connects, v) == L.Entry([], None)
    requires Reports(nine, ip, LATER, v) && |nine| == LIMIT - 1
    ensures Asked(Run(knocks + Late(w, v, ip) + nine), v, ip, LATER).1 == T.Banned
  {
    LateSteps(knocks, w, v, ip);
    LateSwept(Run(knocks), w, v, ip);
    ReportsCount(knocks + Late(w, v, ip), v, ip, LATER, 1, nine);
    NextRequest(Run(knocks + Late(w, v, ip) + nine), v, ip, LIMIT);
  }
}

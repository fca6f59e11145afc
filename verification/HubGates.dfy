/** The hub with its limiters: over every run, what each limiter sees, told by what the devices did; and whom wrong
    passwords shut out. */
module HubGates {
  import opened Wrappers
  import L = AttemptLimiter
  import Q = LimiterQuota
  import G = ConnectGate
  import T = SessionTable
  import O = SessionOpening

  // ---- the hub's runs ------------------------------------------------------------------------------

  datatype Event =
    | Asks(viewer: T.Device, target: Option<T.Device>, session: T.SessionId, now: real)
    | WrongPassword(session: T.SessionId, host: T.Device, now: real)
    | Sweeps(now: real, order: seq<T.SessionId>)
    | Other(op: T.Op)

  datatype State = State(table: T.Table, gates: G.Gates)

  function Next(lim: T.Limits, s: State, e: Event): State {
    match e
    case Asks(viewer, target, sid, now) =>
      State(T.Next(lim, s.table, T.Connect(viewer, target, G.AdmissionOf(s.table, s.gates, viewer, now), sid, now)),
            G.AfterRequest(s.table, s.gates, viewer, target, now))
    case WrongPassword(sid, host, now) =>
      if sid in s.table.sessions && s.table.sessions[sid].host == host then
        s.(gates := G.WrongPassword(s.gates, s.table.sessions[sid].viewer, s.table.sessions[sid].viewerIp, now))
      else s
    case Sweeps(now, order) => State(T.Next(lim, s.table, T.Sweep(now, order)), G.Swept(s.gates, now))
    case Other(op) => if op.Connect? || op.Sweep? then s else s.(table := T.Next(lim, s.table, op))
  }

  function Run(lim: T.Limits, events: seq<Event>): State {
    if events == [] then State(T.EMPTY, G.OPEN) else Next(lim, Run(lim, events[..|events| - 1]), events[|events| - 1])
  }

  // ---- as the tables and as the limiters see it ----------------------------------------------------

  /** The operations on the tables, and what the limiters are told. */
  datatype Trace = Trace(ops: seq<T.Op>, knocks: seq<G.Knock>)

  /** The id cannot be read, or it is that of another device that is not online. */
  predicate Nobody(ops: seq<T.Op>, viewer: T.Device, target: Option<T.Device>) {
    target == None || (target != Some(viewer) && O.LastWord(ops, target.value).None?)
  }

  /** An offline viewer is not heard; a request comes from the address of its connection. */
  function AskTrace(tr: Trace, viewer: T.Device, target: Option<T.Device>, sid: T.SessionId, now: real): Trace {
    match O.LastWord(tr.ops, viewer)
    case None => tr.(ops := tr.ops + [T.Connect(viewer, target, T.Admitted, sid, now)])
    case Some(conn) =>
      var admission := G.Asked(G.Run(tr.knocks), viewer, conn.ip, now).1;
      Trace(tr.ops + [T.Connect(viewer, target, admission, sid, now)],
            tr.knocks + [G.Request(viewer, conn.ip, Nobody(tr.ops, viewer, target), now)])
  }

  /** Only the session's host is heard: it counts against the viewer and the address it connected from. */
  function WrongTrace(lim: T.Limits, tr: Trace, sid: T.SessionId, host: T.Device, now: real): Trace {
    var sessions := T.Run(lim, tr.ops).sessions;
    if sid in sessions && sessions[sid].host == host
    then tr.(knocks := tr.knocks + [G.Password(sessions[sid].viewer, sessions[sid].viewerIp, now)]) else tr
  }

  function Traced(lim: T.Limits, tr: Trace, e: Event): Trace {
    match e
    case Asks(viewer, target, sid, now) => AskTrace(tr, viewer, target, sid, now)
    case WrongPassword(sid, host, now) => WrongTrace(lim, tr, sid, host, now)
    case Sweeps(now, order) => Trace(tr.ops + [T.Sweep(now, order)], tr.knocks + [G.Sweep(now)])
    case Other(op) => if op.Connect? || op.Sweep? then tr else tr.(ops := tr.ops + [op])
  }

  function TraceOf(lim: T.Limits, events: seq<Event>): Trace {
    if events == [] then Trace([], []) else Traced(lim, TraceOf(lim, events[..|events| - 1]), events[|events| - 1])
  }

  /** The hub's state is that of the two sides on their own. */
  predicate Agree(lim: T.Limits, s: State, tr: Trace) {
    s.table == T.Run(lim, tr.ops) && s.gates == G.Run(tr.knocks)
  }

  lemma OfflineIsScreened(lim: T.Limits, t: T.Table, viewer: T.Device, target: Option<T.Device>, a: T.Admission,
                          sid: T.SessionId, now: real)
    requires viewer !in t.devices
    ensures T.Next(lim, t, T.Connect(viewer, target, a, sid, now)) == t
  {
  }

  lemma AsksAgrees(lim: T.Limits, s: State, tr: Trace, e: Event)
    requires Agree(lim, s, tr) && e.Asks?
    ensures Agree(lim, Next(lim, s, e), Traced(lim, tr, e))
  {
    O.DevicesAreLastWords(lim, tr.ops, e.viewer);
    if e.target.Some? {
      O.DevicesAreLastWords(lim, tr.ops, e.target.value);
    }
    match O.LastWord(tr.ops, e.viewer)
    case None =>
      OfflineIsScreened(lim, s.table, e.viewer, e.target, T.Admitted, e.session, e.now);
      T.RunSnoc(lim, tr.ops, T.Connect(e.viewer, e.target, T.Admitted, e.session, e.now));
    case Some(conn) =>
      T.RunSnoc(lim, tr.ops, T.Connect(e.viewer, e.target, G.Asked(s.gates, e.viewer, conn.ip, e.now).1, e.session, e.now));
      G.KnockSnoc(tr.knocks, G.Request(e.viewer, conn.ip, Nobody(tr.ops, e.viewer, e.target), e.now));
  }

  lemma EventAgrees(lim: T.Limits, s: State, tr: Trace, e: Event)
    requires Agree(lim, s, tr)
    ensures Agree(lim, Next(lim, s, e), Traced(lim, tr, e))
  {
    match e
    case Asks(_, _, _, _) => AsksAgrees(lim, s, tr, e);
    case WrongPassword(sid, host, now) =>
      if sid in s.table.sessions {
        G.KnockSnoc(tr.knocks, G.Password(s.table.sessions[sid].viewer, s.table.sessions[sid].viewerIp, now));
      }
    case Sweeps(now, order) =>
      T.RunSnoc(lim, tr.ops, T.Sweep(now, order));
      G.KnockSnoc(tr.knocks, G.Sweep(now));
    case Other(op) => T.RunSnoc(lim, tr.ops, op);
  }

  /** In every run the hub is its tables and its limiters side by side: the tables see a request with the admission
      the limiters gave it, and the limiters see the viewer and address it came from, whether its target is a
      device that is online, and every wrong password a session's own host reports. */
  lemma {:induction false} HubIsTablesAndGates(lim: T.Limits, events: seq<Event>)
    ensures Agree(lim, Run(lim, events), TraceOf(lim, events))
  {
    if events != [] {
      HubIsTablesAndGates(lim, events[..|events| - 1]);
      EventAgrees(lim, Run(lim, events[..|events| - 1]), TraceOf(lim, events[..|events| - 1]), events[|events| - 1]);
    }
  }

  // ---- wrong passwords within one window -----------------------------------------------------------

  /** What `n` failures within the window that begins at `from` leave of an entry, if nothing else touched it. */
  predicate Tally(rules: L.Rules, e: L.Entry, n: nat, from: real) {
    && (forall i :: 0 <= i < |e.failures| ==> from <= e.failures[i] < from + rules.window)
    && (n < rules.maxFailures ==> e.lockedUntil == None && |e.failures| == n)
    && (n >= rules.maxFailures ==> e.lockedUntil.Some? && e.lockedUntil.value >= from + rules.lockout)
  }

  lemma {:induction false} AllRecent(window: real, f: seq<real>, from: real, now: real)
    requires now < from + window && forall i :: 0 <= i < |f| ==> from <= f[i]
    ensures L.Recent(window, f, now) == f
  {
    if f != [] {
      AllRecent(window, f[..|f| - 1], from, now);
    }
  }

  lemma TallyFailure(rules: L.Rules, e: L.Entry, n: nat, from: real, now: real)
    requires Tally(rules, e, n, from) && from <= now < from + rules.window
    ensures Tally(rules, L.Recorded(rules, e, now), n + 1, from)
  {
    AllRecent(rules.window, e.failures, from, now);
  }

  lemma TallyCheck<K>(rules: L.Rules, state: map<K, L.Entry>, key: K, n: nat, from: real, now: real)
    requires Tally(rules, L.EntryOf(state, key), n, from) && now < from + rules.window && rules.lockout >= rules.window
    ensures L.EntryOf(L.AfterCheck(state, key, now), key) == L.EntryOf(state, key)
    ensures L.LockLeft(state, key, now).Some? <==> n >= rules.maxFailures
  {
  }

  lemma TallySweep<K>(rules: L.Rules, state: map<K, L.Entry>, key: K, n: nat, from: real, now: real)
    requires Tally(rules, L.EntryOf(state, key), n, from) && now < from + rules.window && rules.lockout >= rules.window
    ensures Tally(rules, L.EntryOf(L.AfterSweep(rules, state, now), key), n, from)
  {
    var e := L.EntryOf(state, key);
    if e.failures != [] {
      assert now - e.failures[0] < rules.window;
    }
  }

  /** A wrong password for this viewer, or reported from this address. */
  predicate ByViewer(k: G.Knock, v: T.Device) {
    k.Password? && k.viewer == v
  }

  predicate ByAddress(k: G.Knock, ip: T.Address) {
    k.Password? && k.ip == ip
  }

  function WrongByViewer(knocks: seq<G.Knock>, v: T.Device): nat {
    if knocks == [] then 0
    else WrongByViewer(knocks[..|knocks| - 1], v) + if ByViewer(knocks[|knocks| - 1], v) then 1 else 0
  }

  function WrongByAddress(knocks: seq<G.Knock>, ip: T.Address): nat {
    if knocks == [] then 0
    else WrongByAddress(knocks[..|knocks| - 1], ip) + if ByAddress(knocks[|knocks| - 1], ip) then 1 else 0
  }

  /** All of it within the ten minutes from `from` on. */
  predicate Within(knocks: seq<G.Knock>, from: real) {
    forall i :: 0 <= i < |knocks| ==> from <= knocks[i].now < from + 600.0
  }

  /** A viewer and an address, and how many wrong passwords are on their books. */
  predicate Booked(g: G.Gates, v: T.Device, n: nat, ip: T.Address, m: nat, from: real) {
    Tally(G.VIEWERS, L.EntryOf(g.viewers, v), n, from) && Tally(G.ADDRESSES, L.EntryOf(g.addresses, ip), m, from)
  }

  lemma CheckBooked<K>(rules: L.Rules, state: map<K, L.Entry>, key: K, n: nat, from: real, asked: K, now: real)
    requires Tally(rules, L.EntryOf(state, key), n, from) && now < from + rules.window && rules.lockout >= rules.window
    ensures Tally(rules, L.EntryOf(L.AfterCheck(state, asked, now), key), n, from)
  {
    if asked == key {
      TallyCheck(rules, state, key, n, from, now);
    }
  }

  predicate OnlyChecked<K(==)>(was: map<K, L.Entry>, now: map<K, L.Entry>, key: K, at: real) {
    now == was || now == L.AfterCheck(was, key, at)
  }

  lemma AskedOnlyChecks(g: G.Gates, viewer: T.Device, ip: T.Address, now: real)
    ensures var t := G.Asked(g, viewer, ip, now).0;
            OnlyChecked(g.viewers, t.viewers, viewer, now) && OnlyChecked(g.addresses, t.addresses, ip, now)
  {
  }

  /** A request leaves the two limiters alone or asks them. */
  lemma RequestOnlyChecks(g: G.Gates, k: G.Knock)
    requires k.Request?
    ensures var t := G.After(g, k);
            OnlyChecked(g.viewers, t.viewers, k.viewer, k.now) && OnlyChecked(g.addresses, t.addresses, k.ip, k.now)
  {
    AskedOnlyChecks(g, k.viewer, k.ip, k.now);
  }

  lemma RequestBooked(g: G.Gates, k: G.Knock, v: T.Device, n: nat, ip: T.Address, m: nat, from: real)
    requires Booked(g, v, n, ip, m, from) && k.Request? && from <= k.now < from + 600.0
    ensures Booked(G.After(g, k), v, n, ip, m, from)
  {
    RequestOnlyChecks(g, k);
    CheckBooked(G.VIEWERS, g.viewers, v, n, from, k.viewer, k.now);
    CheckBooked(G.ADDRESSES, g.addresses, ip, m, from, k.ip, k.now);
  }

  lemma KnockBooked(g: G.Gates, k: G.Knock, v: T.Device, n: nat, ip: T.Address, m: nat, from: real)
    requires Booked(g, v, n, ip, m, from) && from <= k.now < from + 600.0
    ensures Booked(G.After(g, k), v, if ByViewer(k, v) then n + 1 else n, ip, if ByAddress(k, ip) then m + 1 else m, from)
  {
    match k
    case Request(_, _, _, _) => RequestBooked(g, k, v, n, ip, m, from);
    case Password(_, _, now) =>
      TallyFailure(G.VIEWERS, L.EntryOf(g.viewers, v), n, from, now);
      TallyFailure(G.ADDRESSES, L.EntryOf(g.addresses, ip), m, from, now);
    case Sweep(now) =>
      TallySweep(G.VIEWERS, g.viewers, v, n, from, now);
      TallySweep(G.ADDRESSES, g.addresses, ip, m, from, now);
  }

  lemma {:induction false} AllBooked(was: seq<G.Knock>, knocks: seq<G.Knock>, v: T.Device, ip: T.Address, from: real)
    requires v !in G.Run(was).viewers && ip !in G.Run(was).addresses && Within(knocks, from)
    ensures Booked(G.Run(was + knocks), v, WrongByViewer(knocks, v), ip, WrongByAddress(knocks, ip), from)
  {
    if knocks == [] {
      assert was + knocks == was;
    } else {
      var front, k := knocks[..|knocks| - 1], knocks[|knocks| - 1];
      AllBooked(was, front, v, ip, from);
      assert was + knocks == was + front + [k];
      G.KnockSnoc(was + front, k);
      KnockBooked(G.Run(was + front), k, v, WrongByViewer(front, v), ip, WrongByAddress(front, ip), from);
    }
  }

  /** Whatever came before, as long as it left nothing on their books, and whatever else happens, in any order of
      stamps within ten minutes: a viewer's request from an address, if it does not come too often and no
      unknown targets have shut the address out, is turned away if and only if five wrong passwords were reported for
      that viewer or ten for sessions from that address. */
  lemma BannedExactlyWhen(was: seq<G.Knock>, knocks: seq<G.Knock>, v: T.Device, ip: T.Address, from: real, now: real)
    requires v !in G.Run(was).viewers && ip !in G.Run(was).addresses
    requires Within(knocks, from) && from <= now < from + 600.0
    ensures var g := G.Run(was + knocks);
            var answer := G.Asked(g, v, ip, now).1;
            && (answer == T.RateLimited <==> L.LockLeft(g.connects, v, now).Some?)
            && (answer == T.Banned <==>
                  && L.LockLeft(g.connects, v, now).None?
                  && (|| WrongByViewer(knocks, v) >= 5 || WrongByAddress(knocks, ip) >= 10
                      || L.LockLeft(g.unknowns, ip, now).Some?))
  {
    var g := G.Run(was + knocks);
    AllBooked(was, knocks, v, ip, from);
    TallyCheck(G.VIEWERS, g.viewers, v, WrongByViewer(knocks, v), from, now);
    TallyCheck(G.ADDRESSES, g.addresses, ip, WrongByAddress(knocks, ip), from, now);
  }

  // ---- requests of one viewer ----------------------------------------------------------------------

  /** Every request counts for its viewer, before anything else is asked. */
  function RequestsIn(k: G.Knock): seq<L.Event<T.Device>> {
    match k
    case Request(viewer, _, _, now) => [L.Called(viewer, L.Deed(L.Fail, now))]
    case Password(_, _, _) => []
    case Sweep(now) => [L.Swept(now)]
  }

  function Requests(knocks: seq<G.Knock>): seq<L.Event<T.Device>> {
    if knocks == [] then [] else Requests(knocks[..|knocks| - 1]) + RequestsIn(knocks[|knocks| - 1])
  }

  lemma KnockConnects(g: G.Gates, k: G.Knock, log: L.Log<T.Device>)
    requires g.connects == log.state
    ensures G.After(g, k).connects
            == if RequestsIn(k) == [] then log.state else L.After(G.CONNECTS, log, RequestsIn(k)[0]).state
  {
  }

  /** In every run the limiter of requests is the one that sees exactly the requests and the sweeps. */
  lemma {:induction false} RequestsAreCounted(knocks: seq<G.Knock>)
    ensures G.Run(knocks).connects == L.Run(G.CONNECTS, Requests(knocks)).state
  {
    if knocks != [] {
      var front, k := knocks[..|knocks| - 1], knocks[|knocks| - 1];
      RequestsAreCounted(front);
      KnockConnects(G.Run(front), k, L.Run(G.CONNECTS, Requests(front)));
      if k.Password? {
        assert Requests(knocks) == Requests(front);
      } else {
        assert Requests(knocks) == Requests(front) + [RequestsIn(k)[0]];
        L.RunSnoc(G.CONNECTS, Requests(front), RequestsIn(k)[0]);
      }
    }
  }

  /** And it alone decides who comes too often. */
  lemma TooOftenExactlyWhen(knocks: seq<G.Knock>, v: T.Device, ip: T.Address, now: real)
    ensures G.Asked(G.Run(knocks), v, ip, now).1 == T.RateLimited
            <==> L.CallOn(G.CONNECTS, L.Run(G.CONNECTS, Requests(knocks)).state, v, L.Fail, now).1.Refused?
  {
    RequestsAreCounted(knocks);
  }

  /** So of one viewer's requests stamped within a minute at most thirty come further, if nothing disturbs the limiter
      between them. */
  lemma RequestsAreFew(knocks: seq<G.Knock>, v: T.Device, oldest: real, from: real, until: real)
    requires Q.Undisturbed(Requests(knocks), v, oldest, from, until)
    requires oldest <= from < until <= from + 60.0 && until <= oldest + 300.0
    ensures Q.LetThrough(G.CONNECTS, Requests(knocks), v, from, until) <= 30
  {
    Q.QuotaHolds(G.CONNECTS, Requests(knocks), v, oldest, from, until);
  }
}

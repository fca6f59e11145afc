/** The server's presence and session tables as values: what every operation does to them, and what every
    run keeps. */
module SessionTable {
  import opened Wrappers
  import opened Rates
  import opened RelayShaper

  type Device = string
  type SessionId = nat

  datatype Mode = Pending | Relay | Direct

  type Address = nat

  datatype Conn = Conn(connId: nat, ip: Address, incomingEnabled: bool)

  datatype Session = Session(
    viewer: Device,
    host: Device,
    viewerIp: Address,
    created: real,
    lastActivity: real,
    mode: Mode,
    bytes: nat,
    bucket: Bucket)

  /** `past` adds up the bytes of the sessions that have ended; `used` holds every id ever given out. */
  datatype Table = Table(
    devices: map<Device, Conn>,
    sessions: map<SessionId, Session>,
    inSession: map<Device, SessionId>,
    relayBytes: nat,
    past: nat,
    used: set<SessionId>)

  const EMPTY := Table(map[], map[], map[], 0, 0, {})

  /** What the attempt limiters say about a connect request. */
  datatype Admission = Admitted | RateLimited | Banned

  datatype Refusal = Limited | Forbidden | InvalidId | Offline | NotAccepting | Busy

  datatype Op =
    | Attach(id: Device, conn: Conn)
    | UpdateIncoming(id: Device, connId: nat, enabled: bool)
    | Detach(id: Device, connId: nat)
    | Connect(viewer: Device, target: Option<Device>, admission: Admission, session: SessionId, now: real)
    | RelayFrame(session: SessionId, from: Device, len: nat, now: real)
    | SetMode(session: SessionId, from: Device, direct: bool, now: real)
    | EndBy(session: SessionId, who: Device)
    | Sweep(now: real, order: seq<SessionId>)

  datatype Limits = Limits(maxSessions: nat, rate: real)

  // ---- the operations ------------------------------------------------------------------------------

  function EndLocked(t: Table, sid: SessionId): Table {
    if sid !in t.sessions then t
    else
      var s := t.sessions[sid];
      t.(
      sessions := t.sessions - {sid},
      inSession := t.inSession - {s.viewer, s.host},
      past := t.past + s.bytes)
  }

  function EndEach(t: Table, order: seq<SessionId>): Table {
    if order == [] then t else EndLocked(EndEach(t, order[..|order| - 1]), order[|order| - 1])
  }

  /** The session a viewer's new request replaces: its own, if it is the viewer there. */
  predicate Replaces(t: Table, viewer: Device) {
    viewer in t.inSession && t.inSession[viewer] in t.sessions
    && t.sessions[t.inSession[viewer]].viewer == viewer
  }

  /** Why a request is turned down before the session tables are touched. */
  function Screened(t: Table, viewer: Device, target: Option<Device>, admission: Admission): Option<Refusal> {
    if viewer !in t.devices then Some(Offline)
    else if admission.RateLimited? then Some(Limited)
    else if admission.Banned? then Some(Forbidden)
    else if target.None? || target.value == viewer then Some(InvalidId)
    else if target.value !in t.devices then Some(Offline)
    else if !t.devices[target.value].incomingEnabled then Some(NotAccepting)
    else None
  }

  function Cleared(t: Table, viewer: Device): Table {
    if Replaces(t, viewer) then EndLocked(t, t.inSession[viewer]) else t
  }

  function ConnectRefusal(lim: Limits, t: Table, viewer: Device, target: Option<Device>, admission: Admission)
    : Option<Refusal>
  {
    var screened := Screened(t, viewer, target, admission);
    if screened.Some? then screened
    else
      var u := Cleared(t, viewer);
      if target.value in u.inSession || viewer in u.inSession || |u.sessions| >= lim.maxSessions then Some(Busy)
      else None
  }

  function Opened(lim: Limits, t: Table, viewer: Device, host: Device, sid: SessionId, now: real): Table {
    var ip := if viewer in t.devices then t.devices[viewer].ip else 0;
    var s := Session(viewer, host, ip, now, now, Pending, 0, RelayShaper.Opened(lim.rate, now));
    t.(
    sessions := t.sessions[sid := s],
    inSession := t.inSession[viewer := sid][host := sid],
    used := t.used + {sid})
  }

  function Connected(lim: Limits, t: Table, viewer: Device, target: Option<Device>, admission: Admission,
                     sid: SessionId, now: real): Table
  {
    if Screened(t, viewer, target, admission).Some? then t
    else if ConnectRefusal(lim, t, viewer, target, admission).Some? then Cleared(t, viewer)
    else Opened(lim, Cleared(t, viewer), viewer, target.value, sid, now)
  }

  predicate TakesPart(s: Session, d: Device) {
    s.viewer == d || s.host == d
  }

  predicate Relays(t: Table, sid: SessionId, from: Device) {
    sid in t.sessions && TakesPart(t.sessions[sid], from) && !t.sessions[sid].mode.Direct?
  }

  function Relayed(lim: Limits, t: Table, sid: SessionId, from: Device, len: nat, now: real): Table {
    if sid !in t.sessions || !TakesPart(t.sessions[sid], from) then t
    else
      var s := t.sessions[sid];
      if s.mode.Direct? then t
      else
        var s' := s.(
            mode := Relay,
            lastActivity := now,
            bytes := s.bytes + len,
            bucket := Charge(lim.rate, s.bucket, now, len));
        t.(sessions := t.sessions[sid := s'], relayBytes := t.relayBytes + len)
  }

  predicate IsStale(s: Session, now: real) {
    match s.mode
    case Pending => now - s.created > 60.0
    case Relay => now - s.lastActivity > 120.0
    case Direct => false
  }

  /** `order` lists exactly the sessions the sweep finds stale, each once. */
  predicate ListsStale(t: Table, now: real, order: seq<SessionId>) {
    && (forall i :: 0 <= i < |order| ==> order[i] in t.sessions && IsStale(t.sessions[order[i]], now))
    && (forall sid :: sid in t.sessions && IsStale(t.sessions[sid], now) ==> sid in order)
    && (forall i, k :: 0 <= i < k < |order| ==> order[i] != order[k])
  }

  function Next(lim: Limits, t: Table, op: Op): Table {
    match op
    case Attach(id, conn) => t.(devices := t.devices[id := conn])
    case UpdateIncoming(id, connId, enabled) =>
      if id in t.devices && t.devices[id].connId == connId then
        t.(devices := t.devices[id := t.devices[id].(incomingEnabled := enabled)])
      else t
    case Detach(id, connId) =>
      if id !in t.devices || t.devices[id].connId != connId then t
      else
        var u := t.(devices := t.devices - {id});
        if id in t.inSession then EndLocked(u, t.inSession[id]) else u
    case Connect(viewer, target, admission, sid, now) =>
      if sid in t.used then t else Connected(lim, t, viewer, target, admission, sid, now)
    case RelayFrame(sid, from, len, now) => Relayed(lim, t, sid, from, len, now)
    case SetMode(sid, from, direct, now) =>
      if sid in t.sessions && t.sessions[sid].viewer == from && t.sessions[sid].mode.Pending? then
        t.(sessions := t.sessions[sid := t.sessions[sid].(mode := if direct then Direct else Relay, lastActivity := now)])
      else t
    case EndBy(sid, who) =>
      if sid in t.sessions && TakesPart(t.sessions[sid], who) then EndLocked(t, sid) else t
    case Sweep(now, order) => if ListsStale(t, now, order) then EndEach(t, order) else t
  }

  function Run(lim: Limits, ops: seq<Op>): Table {
    if ops == [] then EMPTY else Next(lim, Run(lim, ops[..|ops| - 1]), ops[|ops| - 1])
  }

  // ---- bytes of the live sessions ------------------------------------------------------------------

  ghost function LiveBytes(m: map<SessionId, Session>): nat {
    if m == map[] then 0
    else
      var sid :| sid in m;
      m[sid].bytes + LiveBytes(m - {sid})
  }

  lemma {:induction false} LiveBytesWithout(m: map<SessionId, Session>, sid: SessionId)
    requires sid in m
    ensures LiveBytes(m) == m[sid].bytes + LiveBytes(m - {sid})
    decreases |m|
  {
    var first :| first in m && LiveBytes(m) == m[first].bytes + LiveBytes(m - {first});
    if first != sid {
      LiveBytesWithout(m - {first}, sid);
      assert m - {first} - {sid} == m - {sid} - {first};
      LiveBytesWithout(m - {sid}, first);
    }
  }

  lemma LiveBytesSet(m: map<SessionId, Session>, sid: SessionId, s: Session)
    ensures LiveBytes(m[sid := s]) == s.bytes + LiveBytes(m - {sid})
  {
    LiveBytesWithout(m[sid := s], sid);
    assert m[sid := s] - {sid} == m - {sid};
  }

  // ---- what every operation keeps ------------------------------------------------------------------

  /** Both participants of a session are distinct, online, and mapped to it. */
  predicate Seated(t: Table, sid: SessionId)
    requires sid in t.sessions
  {
    var s := t.sessions[sid];
    && s.viewer != s.host
    && s.viewer in t.devices && s.host in t.devices
    && s.viewer in t.inSession && t.inSession[s.viewer] == sid
    && s.host in t.inSession && t.inSession[s.host] == sid
  }

  /** The two maps mirror each other. */
  ghost predicate Mirrored(t: Table) {
    && (forall sid :: sid in t.sessions ==> sid in t.used && Seated(t, sid))
    && (forall d :: d in t.inSession ==> t.inSession[d] in t.sessions && TakesPart(t.sessions[t.inSession[d]], d))
  }

  predicate BytesOnlyWhenRelaying(t: Table) {
    forall sid :: sid in t.sessions && !t.sessions[sid].mode.Relay? ==> t.sessions[sid].bytes == 0
  }

  ghost predicate CounterAddsUp(t: Table) {
    t.relayBytes == t.past + LiveBytes(t.sessions)
  }

  ghost predicate Consistent(lim: Limits, t: Table) {
    Mirrored(t) && |t.sessions| <= lim.maxSessions && BytesOnlyWhenRelaying(t) && CounterAddsUp(t)
  }

  lemma EndKeepsConsistent(lim: Limits, t: Table, sid: SessionId)
    requires Consistent(lim, t)
    ensures Consistent(lim, EndLocked(t, sid))
    ensures sid in t.sessions ==> |EndLocked(t, sid).sessions| == |t.sessions| - 1
  {
    if sid in t.sessions {
      var u := EndLocked(t, sid);
      LiveBytesWithout(t.sessions, sid);
      assert u.sessions.Keys == t.sessions.Keys - {sid};
      assert Seated(t, sid);
      forall x | x in u.sessions
        ensures Seated(u, x)
      {
        assert Seated(t, x);
      }
    }
  }

  lemma {:induction false} EndEachKeepsConsistent(lim: Limits, t: Table, order: seq<SessionId>)
    requires Consistent(lim, t)
    ensures Consistent(lim, EndEach(t, order))
  {
    if order != [] {
      EndEachKeepsConsistent(lim, t, order[..|order| - 1]);
      EndKeepsConsistent(lim, EndEach(t, order[..|order| - 1]), order[|order| - 1]);
    }
  }

  lemma LiveBytesAdded(m: map<SessionId, Session>, sid: SessionId, s: Session)
    requires sid !in m
    ensures LiveBytes(m[sid := s]) == s.bytes + LiveBytes(m) && |m[sid := s]| == |m| + 1
  {
    LiveBytesSet(m, sid, s);
    assert m - {sid} == m;
    assert m[sid := s].Keys == m.Keys + {sid};
  }

  lemma OpenKeepsConsistent(lim: Limits, t: Table, viewer: Device, host: Device, sid: SessionId, now: real)
    requires Consistent(lim, t) && sid !in t.used && viewer != host
    requires viewer in t.devices && host in t.devices && viewer !in t.inSession && host !in t.inSession
    requires |t.sessions| < lim.maxSessions
    ensures Consistent(lim, Opened(lim, t, viewer, host, sid, now))
  {
    assert sid !in t.sessions;
    LiveBytesAdded(t.sessions, sid, Opened(lim, t, viewer, host, sid, now).sessions[sid]);
    OpenKeepsMirrored(lim, t, viewer, host, sid, now);
  }

  lemma OpenKeepsMirrored(lim: Limits, t: Table, viewer: Device, host: Device, sid: SessionId, now: real)
    requires Mirrored(t) && sid !in t.used && viewer != host
    requires viewer in t.devices && host in t.devices && viewer !in t.inSession && host !in t.inSession
    ensures Mirrored(Opened(lim, t, viewer, host, sid, now))
  {
    var u := Opened(lim, t, viewer, host, sid, now);
    forall x | x in u.sessions
      ensures x in u.used && Seated(u, x)
    {
      if x != sid {
        assert Seated(t, x);
      }
    }
  }

  lemma ConnectKeepsConsistent(lim: Limits, t: Table, viewer: Device, target: Option<Device>, admission: Admission,
                               sid: SessionId, now: real)
    requires Consistent(lim, t) && sid !in t.used
    ensures Consistent(lim, Connected(lim, t, viewer, target, admission, sid, now))
  {
    if Screened(t, viewer, target, admission).None? {
      if Replaces(t, viewer) {
        EndKeepsConsistent(lim, t, t.inSession[viewer]);
      }
      if ConnectRefusal(lim, t, viewer, target, admission).None? {
        OpenKeepsConsistent(lim, Cleared(t, viewer), viewer, target.value, sid, now);
      }
    }
  }

  /** Changing a session without moving its participants, with the counter following its bytes. */
  lemma UpdateKeepsConsistent(lim: Limits, t: Table, sid: SessionId, s: Session, more: nat)
    requires Consistent(lim, t) && sid in t.sessions
    requires s.viewer == t.sessions[sid].viewer && s.host == t.sessions[sid].host
    requires s.bytes == t.sessions[sid].bytes + more && (!s.mode.Relay? ==> s.bytes == 0)
    ensures Consistent(lim, t.(sessions := t.sessions[sid := s], relayBytes := t.relayBytes + more))
  {
    UpdateKeepsBytes(t.sessions, sid, s, more);
    UpdateKeepsMirrored(t, sid, s, t.relayBytes + more);
  }

  lemma UpdateKeepsBytes(m: map<SessionId, Session>, sid: SessionId, s: Session, more: nat)
    requires sid in m && s.bytes == m[sid].bytes + more
    ensures LiveBytes(m[sid := s]) == LiveBytes(m) + more && |m[sid := s]| == |m|
  {
    LiveBytesWithout(m, sid);
    LiveBytesSet(m, sid, s);
    assert m[sid := s].Keys == m.Keys;
  }

  lemma UpdateKeepsMirrored(t: Table, sid: SessionId, s: Session, counter: nat)
    requires Mirrored(t) && sid in t.sessions
    requires s.viewer == t.sessions[sid].viewer && s.host == t.sessions[sid].host
    ensures Mirrored(t.(sessions := t.sessions[sid := s], relayBytes := counter))
  {
    var u := t.(sessions := t.sessions[sid := s], relayBytes := counter);
    forall x | x in u.sessions
      ensures x in u.used && Seated(u, x)
    {
      assert Seated(t, x);
    }
  }

  lemma DevicesKeepConsistent(lim: Limits, t: Table, devices: map<Device, Conn>)
    requires Consistent(lim, t)
    requires forall d :: d in t.inSession ==> d in devices
    ensures Consistent(lim, t.(devices := devices))
  {
    var u := t.(devices := devices);
    forall x | x in u.sessions
      ensures Seated(u, x)
    {
      assert Seated(t, x);
    }
  }

  lemma OnlineInSession(lim: Limits, t: Table, d: Device)
    requires Consistent(lim, t) && d in t.inSession
    ensures d in t.devices
  {
    assert Seated(t, t.inSession[d]);
  }

  lemma OfflineKeepsConsistent(lim: Limits, t: Table, id: Device)
    requires Consistent(lim, t) && id !in t.inSession
    ensures Consistent(lim, t.(devices := t.devices - {id}))
  {
    forall d | d in t.inSession
      ensures d in t.devices - {id}
    {
      OnlineInSession(lim, t, d);
    }
    DevicesKeepConsistent(lim, t, t.devices - {id});
  }

  lemma DetachKeepsConsistent(lim: Limits, t: Table, id: Device)
    requires Consistent(lim, t)
    ensures var u := t.(devices := t.devices - {id});
            Consistent(lim, if id in t.inSession then EndLocked(u, t.inSession[id]) else u)
  {
    if id in t.inSession {
      var v := EndLocked(t, t.inSession[id]);
      EndKeepsConsistent(lim, t, t.inSession[id]);
      assert Seated(t, t.inSession[id]);
      OfflineKeepsConsistent(lim, v, id);
    } else {
      OfflineKeepsConsistent(lim, t, id);
    }
  }

  lemma AttachKeepsConsistent(lim: Limits, t: Table, id: Device, conn: Conn)
    requires Consistent(lim, t)
    ensures Consistent(lim, t.(devices := t.devices[id := conn]))
  {
    forall d | d in t.inSession
      ensures d in t.devices[id := conn]
    {
      OnlineInSession(lim, t, d);
    }
    DevicesKeepConsistent(lim, t, t.devices[id := conn]);
  }

  lemma RelayKeepsConsistent(lim: Limits, t: Table, sid: SessionId, from: Device, len: nat, now: real)
    requires Consistent(lim, t)
    ensures Consistent(lim, Relayed(lim, t, sid, from, len, now))
  {
    var u := Relayed(lim, t, sid, from, len, now);
    if u != t {
      UpdateKeepsConsistent(lim, t, sid, u.sessions[sid], len);
    }
  }

  lemma ModeKeepsConsistent(lim: Limits, t: Table, sid: SessionId, from: Device, direct: bool, now: real)
    requires Consistent(lim, t)
    ensures Consistent(lim, Next(lim, t, SetMode(sid, from, direct, now)))
  {
    var u := Next(lim, t, SetMode(sid, from, direct, now));
    if u != t {
      UpdateKeepsConsistent(lim, t, sid, u.sessions[sid], 0);
    }
  }

  lemma IncomingKeepsConsistent(lim: Limits, t: Table, id: Device, connId: nat, enabled: bool)
    requires Consistent(lim, t)
    ensures Consistent(lim, Next(lim, t, UpdateIncoming(id, connId, enabled)))
  {
    if id in t.devices {
      AttachKeepsConsistent(lim, t, id, t.devices[id].(incomingEnabled := enabled));
    }
  }

  lemma LeaveKeepsConsistent(lim: Limits, t: Table, id: Device, connId: nat)
    requires Consistent(lim, t)
    ensures Consistent(lim, Next(lim, t, Detach(id, connId)))
  {
    DetachKeepsConsistent(lim, t, id);
  }

  lemma EveryOpKeepsConsistent(lim: Limits, t: Table, op: Op)
    requires Consistent(lim, t)
    ensures Consistent(lim, Next(lim, t, op))
  {
    match op
    case Attach(id, conn) => AttachKeepsConsistent(lim, t, id, conn);
    case UpdateIncoming(id, connId, enabled) => IncomingKeepsConsistent(lim, t, id, connId, enabled);
    case Detach(id, connId) => LeaveKeepsConsistent(lim, t, id, connId);
    case Connect(viewer, target, admission, sid, now) =>
      if sid !in t.used {
        ConnectKeepsConsistent(lim, t, viewer, target, admission, sid, now);
      }
    case RelayFrame(sid, from, len, now) => RelayKeepsConsistent(lim, t, sid, from, len, now);
    case SetMode(sid, from, direct, now) => ModeKeepsConsistent(lim, t, sid, from, direct, now);
    case EndBy(sid, _) => EndKeepsConsistent(lim, t, sid);
    case Sweep(_, order) => EndEachKeepsConsistent(lim, t, order);
  }

  /** Over every run: each session has two distinct participants, both online, both mapped back to it and
      nobody else mapped to anything; the limit holds; only relayed sessions have bytes; and the relay
      counter is the bytes of all sessions, live and past. */
  lemma {:induction false} EveryRunIsConsistent(lim: Limits, ops: seq<Op>)
    ensures Consistent(lim, Run(lim, ops))
  {
    if ops != [] {
      EveryRunIsConsistent(lim, ops[..|ops| - 1]);
      EveryOpKeepsConsistent(lim, Run(lim, ops[..|ops| - 1]), ops[|ops| - 1]);
    }
  }

  // ---- modes ---------------------------------------------------------------------------------------

  /** A session that is still there keeps its participants and, once decided, its mode. */
  predicate Settles(was: Session, now: Session) {
    && now.viewer == was.viewer && now.host == was.host
    && (was.mode.Pending? || now.mode == was.mode)
    && now.bytes >= was.bytes
  }

  predicate Develops(t: Table, u: Table) {
    && t.used <= u.used
    && (forall sid :: sid in u.sessions && sid in t.sessions ==> Settles(t.sessions[sid], u.sessions[sid]))
    && (forall sid :: sid in u.sessions && sid in t.used ==> sid in t.sessions)
  }

  predicate KnownIds(t: Table) {
    forall sid :: sid in t.sessions ==> sid in t.used
  }

  lemma {:induction false} EndEachOnlyRemoves(t: Table, order: seq<SessionId>)
    ensures var u := EndEach(t, order);
            && u.used == t.used && u.devices == t.devices && u.relayBytes == t.relayBytes
            && (forall sid :: sid in u.sessions <==> sid in t.sessions && sid !in order)
            && (forall sid :: sid in u.sessions ==> u.sessions[sid] == t.sessions[sid])
  {
    if order != [] {
      EndEachOnlyRemoves(t, order[..|order| - 1]);
      assert forall sid :: sid in order <==> sid in order[..|order| - 1] || sid == order[|order| - 1];
    }
  }

  lemma EndDevelops(t: Table, u: Table, sid: SessionId)
    requires KnownIds(t) && u.sessions == t.sessions && u.used == t.used
    ensures Develops(t, EndLocked(u, sid)) && KnownIds(EndLocked(u, sid))
  {
  }

  lemma ConnectDevelops(lim: Limits, t: Table, viewer: Device, target: Option<Device>, admission: Admission,
                        sid: SessionId, now: real)
    requires KnownIds(t) && sid !in t.used
    ensures var u := Connected(lim, t, viewer, target, admission, sid, now);
            Develops(t, u) && KnownIds(u)
  {
    if Replaces(t, viewer) {
      EndDevelops(t, t, t.inSession[viewer]);
    }
  }

  lemma EveryOpDevelops(lim: Limits, t: Table, op: Op)
    requires KnownIds(t)
    ensures Develops(t, Next(lim, t, op)) && KnownIds(Next(lim, t, op))
  {
    match op
    case Detach(id, _) =>
      if id in t.inSession {
        EndDevelops(t, t.(devices := t.devices - {id}), t.inSession[id]);
      }
    case Connect(viewer, target, admission, sid, now) =>
      if sid !in t.used {
        ConnectDevelops(lim, t, viewer, target, admission, sid, now);
      }
    case EndBy(sid, _) => EndDevelops(t, t, sid);
    case Sweep(_, order) => EndEachOnlyRemoves(t, order);
    case _ =>
  }

  lemma DevelopsTransitive(t: Table, u: Table, v: Table)
    requires KnownIds(t) && Develops(t, u) && Develops(u, v)
    ensures Develops(t, v)
  {
    forall sid | sid in v.sessions && sid in t.sessions
      ensures Settles(t.sessions[sid], v.sessions[sid])
    {
      assert sid in t.used && sid in u.used;
      assert sid in u.sessions;
    }
  }

  lemma {:induction false} RunDevelops(lim: Limits, ops: seq<Op>, k: nat)
    requires k <= |ops|
    ensures Develops(Run(lim, ops[..k]), Run(lim, ops))
    ensures KnownIds(Run(lim, ops[..k])) && KnownIds(Run(lim, ops))
    decreases |ops|
  {
    if ops == [] {
    } else {
      var front := ops[..|ops| - 1];
      if k < |ops| {
        assert front[..k] == ops[..k];
        RunDevelops(lim, front, k);
        EveryOpDevelops(lim, Run(lim, front), ops[|ops| - 1]);
        DevelopsTransitive(Run(lim, ops[..k]), Run(lim, front), Run(lim, ops));
      } else {
        assert ops[..k] == ops;
        RunDevelops(lim, front, k - 1);
        EveryOpDevelops(lim, Run(lim, front), ops[|ops| - 1]);
      }
    }
  }

  /** Over any part of a run: modes only go from Pending to Relay or Direct, a session's participants never
      change, its bytes never shrink, and no ended session returns. */
  lemma ModesOnlySettle(lim: Limits, ops: seq<Op>, k: nat, sid: SessionId)
    requires k <= |ops|
    ensures var t, u := Run(lim, ops[..k]), Run(lim, ops);
            && (sid in t.sessions && sid in u.sessions ==> Settles(t.sessions[sid], u.sessions[sid]))
            && (sid in t.used && sid !in t.sessions ==> sid !in u.sessions)
  {
    RunDevelops(lim, ops, k);
  }

  // ---- every session is shaped on its own ----------------------------------------------------------

  /** The frames a session accepted over a run, from either peer, in order. */
  function ArrivalsOf(lim: Limits, ops: seq<Op>, sid: SessionId): seq<Arrival> {
    if ops == [] then []
    else
      var front, op := ops[..|ops| - 1], ops[|ops| - 1];
      ArrivalsOf(lim, front, sid)
      + (if op.RelayFrame? && op.session == sid && Relays(Run(lim, front), sid, op.from)
         then [Arrival(op.now, op.len)] else [])
  }

  function TotalBytes(arrivals: seq<Arrival>): nat {
    if arrivals == [] then 0 else TotalBytes(arrivals[..|arrivals| - 1]) + arrivals[|arrivals| - 1].len
  }

  /** Every live session's bucket is exactly the shaper's after that session's own frames, and its byte count
      is exactly theirs; other sessions never interfere. */
  lemma {:induction false} SessionsAreShapedApart(lim: Limits, ops: seq<Op>, sid: SessionId)
    requires lim.rate > 0.0
    ensures var t, arrivals := Run(lim, ops), ArrivalsOf(lim, ops, sid);
            && (sid in t.sessions ==>
                  && t.sessions[sid].bucket == Shape(lim.rate, t.sessions[sid].created, arrivals).bucket
                  && t.sessions[sid].bytes == TotalBytes(arrivals))
            && (sid !in t.used ==> arrivals == [])
            && KnownIds(t)
  {
    if ops != [] {
      var front, op := ops[..|ops| - 1], ops[|ops| - 1];
      SessionsAreShapedApart(lim, front, sid);
      var t, u := Run(lim, front), Run(lim, ops);
      EveryOpDevelops(lim, t, op);
      if sid in u.sessions {
        SessionAfterOp(lim, t, op, sid);
      }
      var before, arrivals := ArrivalsOf(lim, front, sid), ArrivalsOf(lim, ops, sid);
      if arrivals != before {
        assert arrivals[..|arrivals| - 1] == before;
      }
    }
  }

  /** Nothing the shaper works with has changed. */
  predicate SameShape(was: Session, now: Session) {
    now.created == was.created && now.bucket == was.bucket && now.bytes == was.bytes
  }

  predicate Untouched(t: Table, u: Table) {
    forall sid :: sid in u.sessions ==> sid in t.sessions && SameShape(t.sessions[sid], u.sessions[sid])
  }

  lemma OtherOpsDoNotTouch(lim: Limits, t: Table, op: Op)
    requires !op.RelayFrame? && !op.Connect?
    ensures Untouched(t, Next(lim, t, op))
  {
    match op
    case Sweep(_, order) => EndEachOnlyRemoves(t, order);
    case _ =>
  }

  lemma ConnectTouchesOnlyNew(lim: Limits, t: Table, op: Op, sid: SessionId)
    requires op.Connect? && sid in Next(lim, t, op).sessions && KnownIds(t)
    ensures var s := Next(lim, t, op).sessions[sid];
            if sid in t.sessions then SameShape(t.sessions[sid], s)
            else sid !in t.used && s.bucket == RelayShaper.Opened(lim.rate, s.created) && s.bytes == 0
  {
  }

  /** One operation leaves a surviving session's bucket alone unless it relays a frame for that session. */
  lemma SessionAfterOp(lim: Limits, t: Table, op: Op, sid: SessionId)
    requires KnownIds(t) && sid in Next(lim, t, op).sessions
    ensures var s := Next(lim, t, op).sessions[sid];
            if sid !in t.sessions then
              sid !in t.used && s.bucket == RelayShaper.Opened(lim.rate, s.created) && s.bytes == 0
            else if op.RelayFrame? && op.session == sid && Relays(t, sid, op.from) then
              && s.created == t.sessions[sid].created
              && s.bucket == Charge(lim.rate, t.sessions[sid].bucket, op.now, op.len)
              && s.bytes == t.sessions[sid].bytes + op.len
            else SameShape(t.sessions[sid], s)
  {
    if op.Connect? {
      ConnectTouchesOnlyNew(lim, t, op, sid);
    } else if !op.RelayFrame? {
      OtherOpsDoNotTouch(lim, t, op);
    }
  }

  /** The shaping promise at the hub: over any run, whatever the two peers of a session send, in whatever
      order their stamps come under the lock, and whatever else happens, the frames released for that session
      in a window of `w` seconds stay within the larger of the burst and the largest frame and the rate over
      the window and the slip of that session's own stamps; and by any time, within the burst and the rate
      since its stream began. */
  lemma HubShapesEverySession(lim: Limits, ops: seq<Op>, sid: SessionId, from: real, w: real, largest: nat)
    requires lim.rate > 0.0 && w >= 0.0 && sid in Run(lim, ops).sessions
    requires LensUpTo(ArrivalsOf(lim, ops, sid), largest)
    ensures var s, arrivals := Run(lim, ops).sessions[sid], ArrivalsOf(lim, ops, sid);
            var line := Shape(lim.rate, s.created, arrivals);
            && s.bucket == line.bucket && s.bytes == TotalBytes(arrivals)
            && KeepsPromises(lim.rate, line.log, arrivals, from, w, largest)
  {
    SessionsAreShapedApart(lim, ops, sid);
    ShapingKeepsPromises(lim.rate, Run(lim, ops).sessions[sid].created, ArrivalsOf(lim, ops, sid), from, w, largest);
  }

  // ---- reports of ended sessions -------------------------------------------------------------------

  /** A request that is refused has nevertheless ended the viewer's own session, with nobody told, exactly
      when it passed the screening, the viewer was viewing, and the target is busy in some other session. */
  lemma RefusedConnectEndsSessionExactlyWhen(
    lim: Limits, t: Table, viewer: Device, target: Option<Device>, admission: Admission, sid: SessionId, now: real)
    requires Consistent(lim, t) && sid !in t.used
    ensures (&& ConnectRefusal(lim, t, viewer, target, admission).Some?
             && |Connected(lim, t, viewer, target, admission, sid, now).sessions| < |t.sessions|)
            <==>
            (&& Screened(t, viewer, target, admission).None?
             && Replaces(t, viewer)
             && target.value in t.inSession && t.inSession[target.value] != t.inSession[viewer])
  {
    if Screened(t, viewer, target, admission).None? && Replaces(t, viewer) {
      EndKeepsConsistent(lim, t, t.inSession[viewer]);
      assert Seated(t, t.inSession[viewer]);
      if target.value in t.inSession {
        assert Seated(t, t.inSession[target.value]);
      }
    }
  }

  lemma RunSnoc(lim: Limits, ops: seq<Op>, op: Op)
    ensures Run(lim, ops + [op]) == Next(lim, Run(lim, ops), op)
  {
    assert (ops + [op])[..|ops|] == ops;
  }

  function AllOnline(devices: seq<Device>): seq<Op> {
    if devices == [] then []
    else
      var n := |devices| - 1;
      AllOnline(devices[..n]) + [Attach(devices[n], Conn(n, n, true))]
  }

  /** Nothing has happened yet but that these devices have come online. */
  predicate JustOnline(t: Table, devices: seq<Device>) {
    && t == EMPTY.(devices := t.devices)
    && forall i :: 0 <= i < |devices| ==> devices[i] in t.devices && t.devices[devices[i]].incomingEnabled
  }

  lemma OneMoreOnline(lim: Limits, t: Table, front: seq<Device>, d: Device, conn: Conn)
    requires JustOnline(t, front) && conn.incomingEnabled
    ensures JustOnline(Next(lim, t, Attach(d, conn)), front + [d])
  {
  }

  lemma {:induction false} AllComeOnline(lim: Limits, devices: seq<Device>)
    ensures JustOnline(Run(lim, AllOnline(devices)), devices)
  {
    if devices != [] {
      var n := |devices| - 1;
      var front, d := devices[..n], devices[n];
      AllComeOnline(lim, front);
      RunSnoc(lim, AllOnline(front), Attach(d, Conn(n, n, true)));
      OneMoreOnline(lim, Run(lim, AllOnline(front)), front, d, Conn(n, n, true));
      assert front + [d] == devices;
    }
  }

  /** Four devices come online, and each of two viewers opens a session with a host of its own. */
  function TwoSessions(v: Device, h: Device, w: Device, g: Device, a: SessionId, b: SessionId): seq<Op> {
    AllOnline([v, h, w, g]) + [Connect(v, Some(h), Admitted, a, 0.0)] + [Connect(w, Some(g), Admitted, b, 0.0)]
  }

  /** A request that nothing stands in the way of. */
  lemma ConnectOpens(lim: Limits, t: Table, viewer: Device, host: Device, sid: SessionId, now: real)
    requires viewer in t.devices && host in t.devices && t.devices[host].incomingEnabled && viewer != host
    requires viewer !in t.inSession && host !in t.inSession && |t.sessions| < lim.maxSessions && sid !in t.used
    ensures Next(lim, t, Connect(viewer, Some(host), Admitted, sid, now)) == Opened(lim, t, viewer, host, sid, now)
  {
  }

  lemma TwoSessionsOpen(lim: Limits, v: Device, h: Device, w: Device, g: Device, a: SessionId, b: SessionId)
    requires lim.maxSessions >= 2 && a != b
    requires v != h && v != w && v != g && h != w && h != g && w != g
    ensures var t, u := Run(lim, AllOnline([v, h, w, g])), Run(lim, TwoSessions(v, h, w, g, a, b));
            u == Opened(lim, Opened(lim, t, v, h, a, 0.0), w, g, b, 0.0)
  {
    var d := [v, h, w, g];
    AllComeOnline(lim, d);
    var t := Run(lim, AllOnline(d));
    assert v == d[0] && h == d[1] && w == d[2] && g == d[3];
    ConnectOpens(lim, t, v, h, a, 0.0);
    RunSnoc(lim, AllOnline(d), Connect(v, Some(h), Admitted, a, 0.0));
    var u := Opened(lim, t, v, h, a, 0.0);
    assert u.sessions.Keys == {a} && |u.sessions| == |u.sessions.Keys|;
    ConnectOpens(lim, u, w, g, b, 0.0);
    RunSnoc(lim, AllOnline(d) + [Connect(v, Some(h), Admitted, a, 0.0)], Connect(w, Some(g), Admitted, b, 0.0));
  }

  lemma BusyHostCosts(lim: Limits, t: Table, v: Device, g: Device, a: SessionId, b: SessionId, c: SessionId, now: real)
    requires Mirrored(t) && v in t.devices && g in t.devices && t.devices[g].incomingEnabled && v != g
    requires v in t.inSession && t.inSession[v] == a && t.sessions[a].viewer == v
    requires g in t.inSession && t.inSession[g] == b && a != b && c !in t.used
    ensures ConnectRefusal(lim, t, v, Some(g), Admitted) == Some(Busy)
    ensures Next(lim, t, Connect(v, Some(g), Admitted, c, now)) == EndLocked(t, a)
  {
    assert Seated(t, a);
  }

  lemma TwoSessionsTable(lim: Limits, v: Device, h: Device, w: Device, g: Device, a: SessionId, b: SessionId)
    requires lim.maxSessions >= 2 && a != b
    requires v != h && v != w && v != g && h != w && h != g && w != g
    ensures var t := Run(lim, TwoSessions(v, h, w, g, a, b));
            && Mirrored(t) && v in t.devices && g in t.devices && t.devices[g].incomingEnabled
            && t.sessions.Keys == t.used == {a, b} && t.sessions[a].viewer == v
            && v in t.inSession && t.inSession[v] == a && g in t.inSession && t.inSession[g] == b
  {
    var d := [v, h, w, g];
    TwoSessionsOpen(lim, v, h, w, g, a, b);
    AllComeOnline(lim, d);
    assert v == d[0] && g == d[3];
    EveryRunIsConsistent(lim, TwoSessions(v, h, w, g, a, b));
  }

  lemma EndLockedKeys(t: Table, sid: SessionId)
    requires sid in t.sessions
    ensures EndLocked(t, sid).sessions.Keys == t.sessions.Keys - {sid}
  {
  }

  /** It happens: two sessions are open, and the viewer of the first asks for the host of the second. The
      answer is that the host is busy, and the viewer's own session is gone. */
  lemma AskingForABusyHostCostsTheSession(
    lim: Limits, v: Device, h: Device, w: Device, g: Device, a: SessionId, b: SessionId, c: SessionId, now: real)
    requires lim.maxSessions >= 2 && a != b && a != c && b != c
    requires v != h && v != w && v != g && h != w && h != g && w != g
    ensures var t := Run(lim, TwoSessions(v, h, w, g, a, b));
            var u := Run(lim, TwoSessions(v, h, w, g, a, b) + [Connect(v, Some(g), Admitted, c, now)]);
            && ConnectRefusal(lim, t, v, Some(g), Admitted) == Some(Busy)
            && t.sessions.Keys == {a, b} && u.sessions.Keys == {b}
  {
    var t := Run(lim, TwoSessions(v, h, w, g, a, b));
    TwoSessionsTable(lim, v, h, w, g, a, b);
    RunSnoc(lim, TwoSessions(v, h, w, g, a, b), Connect(v, Some(g), Admitted, c, now));
    BusyHostCosts(lim, t, v, g, a, b, c, now);
    EndLockedKeys(t, a);
  }
}

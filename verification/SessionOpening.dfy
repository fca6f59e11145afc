/** When a connect request opens a session, told by what the devices did in the run, and how a session's mode comes
    about. */
module SessionOpening {
  import opened Wrappers
  import RelayShaper
  import opened SessionTable

  // ---- who is online, and accepts ------------------------------------------------------------------

  /** The device's connection by its own last word: attached, changed by the same connection, gone with it. */
  function LastWord(ops: seq<Op>, d: Device): Option<Conn> {
    if ops == [] then None
    else
      var was := LastWord(ops[..|ops| - 1], d);
      match ops[|ops| - 1]
      case Attach(id, conn) => if id == d then Some(conn) else was
      case UpdateIncoming(id, connId, enabled) =>
        if id == d && was.Some? && was.value.connId == connId
        then Some(Conn(connId, was.value.ip, enabled)) else was
      case Detach(id, connId) => if id == d && was.Some? && was.value.connId == connId then None else was
      case _ => was
  }

  lemma OthersLeaveDevices(lim: Limits, t: Table, op: Op)
    requires !op.Attach? && !op.UpdateIncoming? && !op.Detach?
    ensures Next(lim, t, op).devices == t.devices
  {
    match op
    case Sweep(_, order) => EndEachOnlyRemoves(t, order);
    case _ =>
  }

  lemma {:induction false} DevicesAreLastWords(lim: Limits, ops: seq<Op>, d: Device)
    ensures var devices := Run(lim, ops).devices;
            LastWord(ops, d) == if d in devices then Some(devices[d]) else None
  {
    if ops != [] {
      var front, op := ops[..|ops| - 1], ops[|ops| - 1];
      DevicesAreLastWords(lim, front, d);
      if !op.Attach? && !op.UpdateIncoming? && !op.Detach? {
        OthersLeaveDevices(lim, Run(lim, front), op);
      }
    }
  }

  // ---- who is free ---------------------------------------------------------------------------------

  /** The sessions that are not this viewer's own. */
  function Others(t: Table, viewer: Device): set<SessionId> {
    set sid | sid in t.sessions && t.sessions[sid].viewer != viewer
  }

  /** The device takes part in one of them. */
  predicate Taken(t: Table, d: Device, viewer: Device) {
    exists sid :: sid in Others(t, viewer) && (t.sessions[sid].viewer == d || t.sessions[sid].host == d)
  }

  lemma OwnIsReplaced(t: Table, viewer: Device)
    requires Mirrored(t)
    ensures Cleared(t, viewer).sessions.Keys == Others(t, viewer)
    ensures forall sid :: sid in Others(t, viewer) ==> Cleared(t, viewer).sessions[sid] == t.sessions[sid]
  {
    forall sid | sid in t.sessions ensures Seated(t, sid) {
    }
  }

  lemma TakenIsMapped(t: Table, viewer: Device, d: Device)
    requires Mirrored(t)
    ensures d in Cleared(t, viewer).inSession <==> Taken(t, d, viewer)
  {
    var u := Cleared(t, viewer);
    OwnIsReplaced(t, viewer);
    if Taken(t, d, viewer) {
      var sid :| sid in Others(t, viewer) && (t.sessions[sid].viewer == d || t.sessions[sid].host == d);
      assert Seated(t, sid);
      if Replaces(t, viewer) {
        assert Seated(t, t.inSession[viewer]);
      }
    }
    if d in u.inSession {
      var sid := t.inSession[d];
      if Replaces(t, viewer) {
        assert Seated(t, t.inSession[viewer]);
      }
      assert Seated(t, sid) && TakesPart(t.sessions[sid], d);
      assert sid in Others(t, viewer);
    }
  }

  /** What a viewer is told, by the first of the conditions that fails. */
  lemma RefusedBecause(lim: Limits, ops: seq<Op>, viewer: Device, target: Option<Device>, admission: Admission)
    ensures var t, asks := Run(lim, ops), LastWord(ops, viewer);
            var host := if target.Some? then LastWord(ops, target.value) else None;
            ConnectRefusal(lim, t, viewer, target, admission)
            == if asks.None? then Some(Offline)
               else if admission == RateLimited then Some(Limited)
               else if admission == Banned then Some(Forbidden)
               else if target == None || target == Some(viewer) then Some(InvalidId)
               else if host.None? then Some(Offline)
               else if !host.value.incomingEnabled then Some(NotAccepting)
               else if Taken(t, target.value, viewer) || Taken(t, viewer, viewer) then Some(Busy)
               else if |Others(t, viewer)| >= lim.maxSessions then Some(Busy)
               else None
  {
    var t := Run(lim, ops);
    EveryRunIsConsistent(lim, ops);
    DevicesAreLastWords(lim, ops, viewer);
    OwnIsReplaced(t, viewer);
    assert |Cleared(t, viewer).sessions| == |Cleared(t, viewer).sessions.Keys|;
    TakenIsMapped(t, viewer, viewer);
    if target.Some? {
      DevicesAreLastWords(lim, ops, target.value);
      TakenIsMapped(t, viewer, target.value);
    }
  }

  /** Over every run: a request opens a session if and only if the limiters admit it, the viewer and another device are
      online, that device's last word was that it accepts, neither takes part in a session but one the viewer is
      itself viewing, and without that one there is room. */
  lemma OpensExactlyWhen(lim: Limits, ops: seq<Op>, viewer: Device, target: Option<Device>, admission: Admission,
                         sid: SessionId, now: real)
    requires sid !in Run(lim, ops).used
    ensures var t := Run(lim, ops);
            sid in Run(lim, ops + [Connect(viewer, target, admission, sid, now)]).sessions <==>
              && admission == Admitted && LastWord(ops, viewer).Some?
              && target.Some? && target.value != viewer && LastWord(ops, target.value).Some?
              && LastWord(ops, target.value).value.incomingEnabled
              && !Taken(t, viewer, viewer) && !Taken(t, target.value, viewer)
              && |Others(t, viewer)| < lim.maxSessions
  {
    var t := Run(lim, ops);
    EveryRunIsConsistent(lim, ops);
    RefusedBecause(lim, ops, viewer, target, admission);
    RunSnoc(lim, ops, Connect(viewer, target, admission, sid, now));
    OwnIsReplaced(t, viewer);
  }

  /** The session that is opened: the two participants, undecided, with no bytes and a full bucket; the viewer's own
      one is gone, and the others are as they were. */
  lemma OpenedSession(lim: Limits, ops: seq<Op>, viewer: Device, host: Device, sid: SessionId, now: real)
    requires var op := Connect(viewer, Some(host), Admitted, sid, now);
             sid !in Run(lim, ops).used && sid in Run(lim, ops + [op]).sessions
    ensures var t, u := Run(lim, ops), Run(lim, ops + [Connect(viewer, Some(host), Admitted, sid, now)]);
            var s := u.sessions[sid];
            && s.viewer == viewer && s.host == host && s.mode == Pending && s.bytes == 0
            && s.created == s.lastActivity == now && s.bucket == RelayShaper.Bucket(lim.rate * 0.25, now)
            && LastWord(ops, viewer).Some? && s.viewerIp == LastWord(ops, viewer).value.ip
            && u.sessions.Keys == Others(t, viewer) + {sid}
            && (forall id :: id in Others(t, viewer) ==> u.sessions[id] == t.sessions[id])
            && u.devices == t.devices
  {
    var t := Run(lim, ops);
    EveryRunIsConsistent(lim, ops);
    DevicesAreLastWords(lim, ops, viewer);
    OwnIsReplaced(t, viewer);
    RunSnoc(lim, ops, Connect(viewer, Some(host), Admitted, sid, now));
    NewSession(lim, t, viewer, host, sid, now);
  }

  lemma NewSession(lim: Limits, t: Table, viewer: Device, host: Device, sid: SessionId, now: real)
    requires Mirrored(t) && sid !in t.used && sid in Next(lim, t, Connect(viewer, Some(host), Admitted, sid, now)).sessions
    ensures Next(lim, t, Connect(viewer, Some(host), Admitted, sid, now))
            == Opened(lim, Cleared(t, viewer), viewer, host, sid, now)
    ensures viewer in t.devices && Cleared(t, viewer).devices == t.devices
  {
  }

  // ---- how a session is decided --------------------------------------------------------------------

  /** The session's viewer reports, while it is undecided, a direct link or the lack of one. */
  predicate Reports(t: Table, op: Op, sid: SessionId, direct: bool) {
    op.SetMode? && op.session == sid && op.direct == direct
    && sid in t.sessions && t.sessions[sid].viewer == op.from && t.sessions[sid].mode == Pending
  }

  /** A participant's frame is relayed while it is undecided. */
  predicate FirstFrame(t: Table, op: Op, sid: SessionId) {
    op.RelayFrame? && op.session == sid
    && sid in t.sessions && (t.sessions[sid].viewer == op.from || t.sessions[sid].host == op.from)
    && t.sessions[sid].mode == Pending
  }

  /** How the session was decided, if it was. */
  function Decision(lim: Limits, ops: seq<Op>, sid: SessionId): Mode {
    if ops == [] then Pending
    else
      var front, op := ops[..|ops| - 1], ops[|ops| - 1];
      var t := Run(lim, front);
      if Reports(t, op, sid, true) then Direct
      else if Reports(t, op, sid, false) || FirstFrame(t, op, sid) then Relay
      else Decision(lim, front, sid)
  }

  lemma OpDecides(lim: Limits, t: Table, op: Op, sid: SessionId)
    requires KnownIds(t) && sid in Next(lim, t, op).sessions
    ensures var mode := Next(lim, t, op).sessions[sid].mode;
            if Reports(t, op, sid, true) then mode == Direct
            else if Reports(t, op, sid, false) || FirstFrame(t, op, sid) then mode == Relay
            else if sid in t.sessions then mode == t.sessions[sid].mode
            else mode == Pending && sid !in t.used
  {
    match op
    case Sweep(_, order) => EndEachOnlyRemoves(t, order);
    case Connect(_, _, _, _, _) => ConnectTouchesOnlyNew(lim, t, op, sid);
    case _ =>
  }

  /** Over every run: a session is Direct if and only if its viewer was the first to decide and reported a direct link,
      and Relay if and only if it reported none, or a frame was relayed first. */
  lemma {:induction false} DecidedByFirst(lim: Limits, ops: seq<Op>, sid: SessionId)
    ensures var t := Run(lim, ops);
            && KnownIds(t) && (sid !in t.used ==> Decision(lim, ops, sid) == Pending)
            && (sid in t.sessions ==> t.sessions[sid].mode == Decision(lim, ops, sid))
  {
    if ops != [] {
      var front, op := ops[..|ops| - 1], ops[|ops| - 1];
      DecidedByFirst(lim, front, sid);
      EveryOpDevelops(lim, Run(lim, front), op);
      if sid in Run(lim, ops).sessions {
        OpDecides(lim, Run(lim, front), op, sid);
      }
    }
  }
}

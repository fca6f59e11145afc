/** The server hub: presence, sessions and relay routing, updated under one lock. */
module Hub {
  import opened Wrappers
  import opened RelayShaper
  import L = AttemptLimiter
  import G = ConnectGate
  import T = SessionTable

  /** What the peers and the database are told about a session that is over. */
  datatype Ended = Ended(session: T.SessionId, viewer: T.Device, host: T.Device, mode: T.Mode, bytes: nat)

  datatype ConnectResult = Started(session: T.SessionId, replaced: Option<Ended>) | Refused(why: T.Refusal)

  datatype RelayRoute = RelayRoute(peer: T.Device, delay: real)

  function Report(t: T.Table, sid: T.SessionId): Ended
    requires sid in t.sessions
  {
    var s := t.sessions[sid];
    Ended(sid, s.viewer, s.host, s.mode, s.bytes)
  }

  function PeerOf(s: T.Session, from: T.Device): T.Device {
    if s.viewer == from then s.host else s.viewer
  }

  /** In a consistent table a relayed frame always finds its peer online. */
  lemma RelayedFrameFindsPeer(lim: T.Limits, t: T.Table, sid: T.SessionId, from: T.Device)
    requires T.Consistent(lim, t) && T.Relays(t, sid, from)
    ensures PeerOf(t.sessions[sid], from) in t.devices && PeerOf(t.sessions[sid], from) != from
    ensures T.TakesPart(t.sessions[sid], PeerOf(t.sessions[sid], from))
  {
    assert T.Seated(t, sid);
  }

  class Hub {
    const lim: T.Limits
    var devices: map<T.Device, T.Conn>
    var sessions: map<T.SessionId, T.Session>
    var inSession: map<T.Device, T.SessionId>
    var relayBytes: nat
    const connects: L.AttemptLimiter<T.Device>
    const viewers: L.AttemptLimiter<T.Device>
    const addresses: L.AttemptLimiter<T.Address>
    const unknowns: L.AttemptLimiter<T.Address>
    ghost var past: nat
    ghost var used: set<T.SessionId>

    ghost function State(): T.Table
      reads this
    {
      T.Table(devices, sessions, inSession, relayBytes, past, used)
    }

    /** What the limiters of connect requests hold. */
    ghost function Gates(): G.Gates
      reads connects, viewers, addresses, unknowns
    {
      G.Gates(connects.state, viewers.state, addresses.state, unknowns.state)
    }

    /** Four limiters, each with its own rules. */
    predicate Gated() {
      && connects != viewers && addresses != unknowns
      && connects.rules == G.CONNECTS && viewers.rules == G.VIEWERS
      && addresses.rules == G.ADDRESSES && unknowns.rules == G.UNKNOWNS
    }

    constructor (lim: T.Limits)
      ensures this.lim == lim && State() == T.EMPTY && Gated() && Gates() == G.OPEN
      ensures fresh(connects) && fresh(viewers) && fresh(addresses) && fresh(unknowns)
    {
      this.lim := lim;
      devices, sessions, inSession, relayBytes := map[], map[], map[], 0;
      connects := new L.AttemptLimiter(G.CONNECTS);
      viewers := new L.AttemptLimiter(G.VIEWERS);
      addresses := new L.AttemptLimiter(G.ADDRESSES);
      unknowns := new L.AttemptLimiter(G.UNKNOWNS);
      past, used := 0, {};
    }

    /** Registers the connection in place of any earlier one for the same device. */
    method Attach(id: T.Device, conn: T.Conn) returns (kicked: Option<T.Conn>)
      modifies this
      ensures State() == T.Next(lim, old(State()), T.Attach(id, conn))
      ensures kicked == if id in old(devices) then Some(old(devices)[id]) else None
    {
      kicked := if id in devices then Some(devices[id]) else None;
      devices := devices[id := conn];
    }

    method UpdateIncoming(id: T.Device, connId: nat, enabled: bool)
      modifies this
      ensures State() == T.Next(lim, old(State()), T.UpdateIncoming(id, connId, enabled))
    {
      if id in devices && devices[id].connId == connId {
        devices := devices[id := devices[id].(incomingEnabled := enabled)];
      }
    }

    /** Removes a session and both its participants' entries. */
    method EndLocked(sid: T.SessionId) returns (ended: Option<Ended>)
      modifies this
      ensures State() == T.EndLocked(old(State()), sid)
      ensures ended == if sid in old(sessions) then Some(Report(old(State()), sid)) else None
    {
      if sid !in sessions {
        return None;
      }
      var s := sessions[sid];
      sessions := sessions - {sid};
      inSession := inSession - {s.viewer};
      inSession := inSession - {s.host};
      past := past + s.bytes;
      assert inSession == old(inSession) - {s.viewer, s.host};
      ended := Some(Ended(sid, s.viewer, s.host, s.mode, s.bytes));
    }

    /** A connection that has been replaced takes nothing with it when it goes. */
    method Detach(id: T.Device, connId: nat) returns (ended: Option<Ended>)
      modifies this
      ensures State() == T.Next(lim, old(State()), T.Detach(id, connId))
      ensures ended == if id in old(devices) && old(devices)[id].connId == connId
                          && id in old(inSession) && old(inSession)[id] in old(sessions)
                       then Some(Report(old(State()), old(inSession)[id])) else None
    {
      ended := None;
      if id in devices && devices[id].connId == connId {
        devices := devices - {id};
        if id in inSession {
          ended := EndLocked(inSession[id]);
        }
      }
    }

    /** Asks the limiters; every request that is not refused for coming too often counts. */
    method Admit(viewer: T.Device, ip: T.Address, now: real) returns (admission: T.Admission)
      requires Gated()
      modifies connects, viewers, addresses, unknowns
      ensures (Gates(), admission) == G.Asked(old(Gates()), viewer, ip, now)
    {
      var left := connects.Locked(viewer, now);
      if left.Some? {
        return T.RateLimited;
      }
      var _ := connects.RecordFailure(viewer, now);
      left := viewers.Locked(viewer, now);
      if left.Some? {
        return T.Banned;
      }
      left := addresses.Locked(ip, now);
      if left.Some? {
        return T.Banned;
      }
      left := unknowns.Locked(ip, now);
      admission := if left.Some? then T.Banned else T.Admitted;
    }

    /** Why a request is turned down before the sessions are looked at, if it is. */
    method Screen(viewer: T.Device, target: Option<T.Device>, now: real) returns (why: Option<T.Refusal>)
      requires Gated()
      modifies connects, viewers, addresses, unknowns
      ensures Gates() == G.AfterRequest(State(), old(Gates()), viewer, target, now)
      ensures why == T.Screened(State(), viewer, target, G.AdmissionOf(State(), old(Gates()), viewer, now))
    {
      if viewer !in devices {
        return Some(T.Offline);
      }
      var ip := devices[viewer].ip;
      var admission := Admit(viewer, ip, now);
      if admission.RateLimited? {
        return Some(T.Limited);
      }
      if admission.Banned? {
        return Some(T.Forbidden);
      }
      if target.None? {
        var _ := unknowns.RecordFailure(ip, now);
        return Some(T.InvalidId);
      }
      if target.value == viewer {
        return Some(T.InvalidId);
      }
      if target.value !in devices {
        var _ := unknowns.RecordFailure(ip, now);
        return Some(T.Offline);
      }
      why := if devices[target.value].incomingEnabled then None else Some(T.NotAccepting);
    }

    /** A new request replaces the session its viewer is viewing. */
    method EndOwn(viewer: T.Device) returns (replaced: Option<Ended>)
      modifies this
      ensures State() == T.Cleared(old(State()), viewer)
      ensures replaced == if T.Replaces(old(State()), viewer)
                          then Some(Report(old(State()), old(inSession)[viewer])) else None
    {
      replaced := None;
      if viewer in inSession {
        var prior := inSession[viewer];
        if prior in sessions && sessions[prior].viewer == viewer {
          replaced := EndLocked(prior);
        }
      }
    }

    /** Opens the session, unless somebody is busy or there are too many. */
    method Open(viewer: T.Device, host: T.Device, sid: T.SessionId, now: real) returns (r: ConnectResult)
      requires sid !in used && T.Screened(State(), viewer, Some(host), T.Admitted).None?
      modifies this
      ensures State() == T.Connected(lim, old(State()), viewer, Some(host), T.Admitted, sid, now)
      ensures var why := T.ConnectRefusal(lim, old(State()), viewer, Some(host), T.Admitted);
              r == if why.Some? then Refused(why.value)
                   else Started(sid, if T.Replaces(old(State()), viewer)
                                     then Some(Report(old(State()), old(inSession)[viewer])) else None)
    {
      // Even if the request is refused below, this session is over.
      var replaced := EndOwn(viewer);
      if host in inSession || viewer in inSession {
        return Refused(T.Busy);
      }
      if |sessions| >= lim.maxSessions {
        return Refused(T.Busy);
      }
      var ip := devices[viewer].ip;
      sessions := sessions[sid := T.Session(viewer, host, ip, now, now, T.Pending, 0, Bucket(lim.rate * 0.25, now))];
      inSession := inSession[viewer := sid];
      inSession := inSession[host := sid];
      used := used + {sid};
      r := Started(sid, replaced);
    }

    /** A viewer asks for a session with `target`. `sid` is the random id the session gets if it starts. */
    method Connect(viewer: T.Device, target: Option<T.Device>, sid: T.SessionId, now: real) returns (r: ConnectResult)
      requires sid !in used && Gated()
      modifies this, connects, viewers, addresses, unknowns
      ensures Gates() == G.AfterRequest(old(State()), old(Gates()), viewer, target, now)
      ensures var admission := G.AdmissionOf(old(State()), old(Gates()), viewer, now);
              State() == T.Next(lim, old(State()), T.Connect(viewer, target, admission, sid, now))
      ensures var admission := G.AdmissionOf(old(State()), old(Gates()), viewer, now);
              var why := T.ConnectRefusal(lim, old(State()), viewer, target, admission);
              r == if why.Some? then Refused(why.value)
                   else Started(sid, if T.Replaces(old(State()), viewer)
                                     then Some(Report(old(State()), old(inSession)[viewer])) else None)
    {
      var why := Screen(viewer, target, now);
      if why.Some? {
        return Refused(why.value);
      }
      r := Open(viewer, target.value, sid, now);
    }

    /** Where a relayed frame goes and how long it must wait first. */
    method RelayFrame(sid: T.SessionId, from: T.Device, len: nat, now: real) returns (r: Option<RelayRoute>)
      requires lim.rate > 0.0
      modifies this
      ensures State() == T.Next(lim, old(State()), T.RelayFrame(sid, from, len, now))
      ensures r == if T.Relays(old(State()), sid, from) && PeerOf(old(sessions)[sid], from) in devices
                   then Some(RelayRoute(PeerOf(old(sessions)[sid], from), Delay(lim.rate, sessions[sid].bucket)))
                   else None
    {
      if sid !in sessions {
        return None;
      }
      var s := sessions[sid];
      var peer;
      if s.viewer == from {
        peer := s.host;
      } else if s.host == from {
        peer := s.viewer;
      } else {
        return None;
      }
      if s.mode.Pending? {
        s := s.(mode := T.Relay);
      }
      if !s.mode.Relay? {
        return None;
      }
      relayBytes := relayBytes + len;
      var b := Charge(lim.rate, s.bucket, now, len);
      sessions := sessions[sid := s.(lastActivity := now, bytes := s.bytes + len, bucket := b)];
      if peer !in devices {
        return None;
      }
      r := Some(RelayRoute(peer, Delay(lim.rate, b)));
    }

    /** The host of a session reports a wrong password; true if that locks out the viewer or its address. */
    method ReportPasswordFailure(sid: T.SessionId, host: T.Device, now: real) returns (r: Option<(T.Device, bool)>)
      requires Gated()
      modifies viewers, addresses
      ensures r.Some? <==> sid in sessions && sessions[sid].host == host
      ensures r.None? ==> Gates() == old(Gates())
      ensures r.Some? ==>
                var s := sessions[sid];
                && Gates() == G.WrongPassword(old(Gates()), s.viewer, s.viewerIp, now)
                && r.value.0 == s.viewer
                && (r.value.1 <==>
                    || L.TriggersLock(G.VIEWERS, old(Gates()).viewers, s.viewer, now)
                    || L.TriggersLock(G.ADDRESSES, old(Gates()).addresses, s.viewerIp, now))
    {
      if sid !in sessions || sessions[sid].host != host {
        return None;
      }
      var s := sessions[sid];
      var a := viewers.RecordFailure(s.viewer, now);
      var b := addresses.RecordFailure(s.viewerIp, now);
      r := Some((s.viewer, a || b));
    }

    method SetMode(sid: T.SessionId, from: T.Device, direct: bool, now: real)
      modifies this
      ensures State() == T.Next(lim, old(State()), T.SetMode(sid, from, direct, now))
    {
      if sid in sessions {
        var s := sessions[sid];
        if s.viewer == from && s.mode.Pending? {
          sessions := sessions[sid := s.(mode := if direct then T.Direct else T.Relay, lastActivity := now)];
        }
      }
    }

    method EndBy(sid: T.SessionId, who: T.Device) returns (ended: Option<Ended>)
      modifies this
      ensures State() == T.Next(lim, old(State()), T.EndBy(sid, who))
      ensures ended == if sid in old(sessions) && T.TakesPart(old(sessions)[sid], who)
                       then Some(Report(old(State()), sid)) else None
    {
      if sid !in sessions {
        return None;
      }
      if sessions[sid].viewer != who && sessions[sid].host != who {
        return None;
      }
      ended := EndLocked(sid);
    }

    /** Ends every abandoned session, in whatever order the table lists them. */
    method EndStale(now: real) returns (ended: seq<Ended>, ghost order: seq<T.SessionId>)
      modifies this
      ensures T.ListsStale(old(State()), now, order)
      ensures State() == T.Next(lim, old(State()), T.Sweep(now, order))
      ensures |ended| == |order|
      ensures forall i :: 0 <= i < |ended| ==> ended[i] == Report(old(State()), order[i])
    {
      ghost var was := State();
      var stale := set sid | sid in sessions && T.IsStale(sessions[sid], now);
      var rest := stale;
      ended, order := [], [];
      while rest != {}
        invariant EndedSoFar(stale, rest, order)
        invariant State() == T.EndEach(was, order) && Reported(was, order, ended)
        decreases rest
      {
        var sid :| sid in rest;
        EndsOneMore(was, stale, rest, order, sid);
        rest := rest - {sid};
        var e := EndLocked(sid);
        ReportOneMore(was, order, ended, sid);
        ended := ended + [e.value];
        order := order + [sid];
      }
      assert forall i :: 0 <= i < |order| ==> order[i] in order;
    }

    /** Ends abandoned sessions and sweeps the limiters. */
    method Sweep(now: real) returns (ended: seq<Ended>, ghost order: seq<T.SessionId>)
      requires Gated()
      modifies this, connects, viewers, addresses, unknowns
      ensures Gates() == G.Swept(old(Gates()), now)
      ensures T.ListsStale(old(State()), now, order)
      ensures State() == T.Next(lim, old(State()), T.Sweep(now, order))
      ensures |ended| == |order|
      ensures forall i :: 0 <= i < |ended| ==> ended[i] == Report(old(State()), order[i])
    {
      ended, order := EndStale(now);
      connects.Sweep(now);
      unknowns.Sweep(now);
      viewers.Sweep(now);
      addresses.Sweep(now);
    }
  }

  /** The stale sessions not in `rest` have been ended, each once. */
  predicate EndedSoFar(stale: set<T.SessionId>, rest: set<T.SessionId>, order: seq<T.SessionId>) {
    && rest <= stale
    && (forall sid :: sid in order ==> sid in stale && sid !in rest)
    && (forall sid :: sid in stale && sid !in rest ==> sid in order)
    && (forall i, k :: 0 <= i < k < |order| ==> order[i] != order[k])
  }

  lemma EndOneMore(stale: set<T.SessionId>, rest: set<T.SessionId>, order: seq<T.SessionId>, sid: T.SessionId)
    requires EndedSoFar(stale, rest, order) && sid in rest
    ensures sid !in order && EndedSoFar(stale, rest - {sid}, order + [sid])
  {
  }

  /** The next one to end is still there, as it was. */
  lemma EndsOneMore(t: T.Table, stale: set<T.SessionId>, rest: set<T.SessionId>, order: seq<T.SessionId>, sid: T.SessionId)
    requires EndedSoFar(stale, rest, order) && sid in rest && stale <= t.sessions.Keys
    ensures sid !in order && EndedSoFar(stale, rest - {sid}, order + [sid])
    ensures T.EndEach(t, order + [sid]) == T.EndLocked(T.EndEach(t, order), sid)
    ensures sid in T.EndEach(t, order).sessions && T.EndEach(t, order).sessions[sid] == t.sessions[sid]
  {
    EndOneMore(stale, rest, order, sid);
    T.EndEachOnlyRemoves(t, order);
    assert (order + [sid])[..|order|] == order;
  }

  predicate Reported(t: T.Table, order: seq<T.SessionId>, ended: seq<Ended>) {
    |ended| == |order|
    && forall i :: 0 <= i < |order| ==> order[i] in t.sessions && ended[i] == Report(t, order[i])
  }

  lemma ReportOneMore(t: T.Table, order: seq<T.SessionId>, ended: seq<Ended>, sid: T.SessionId)
    requires Reported(t, order, ended) && sid in t.sessions
    ensures Reported(t, order + [sid], ended + [Report(t, sid)])
  {
  }
}

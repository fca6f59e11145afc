/** When a session ends, and that it ends in no other case, told by what the devices did in the run. */
module SessionEndings {
  import opened Wrappers
  import opened SessionTable
  import opened SessionOpening
  import H = Hub

  // ---- when it was opened and last used ------------------------------------------------------------

  predicate Opens(lim: Limits, t: Table, op: Op, sid: SessionId) {
    op.Connect? && op.session == sid && sid !in t.used && sid in Next(lim, t, op).sessions
  }

  /** Its undecided mode is reported by its viewer, or a participant's frame is relayed. */
  predicate Uses(t: Table, op: Op, sid: SessionId) {
    && sid in t.sessions
    && (|| (op.SetMode? && op.session == sid && op.from == t.sessions[sid].viewer && t.sessions[sid].mode == Pending)
        || (&& op.RelayFrame? && op.session == sid && t.sessions[sid].mode != Direct
            && (op.from == t.sessions[sid].viewer || op.from == t.sessions[sid].host)))
  }

  function OpenedAt(lim: Limits, ops: seq<Op>, sid: SessionId): real {
    if ops == [] then 0.0
    else
      var front, op := ops[..|ops| - 1], ops[|ops| - 1];
      if Opens(lim, Run(lim, front), op, sid) then op.now else OpenedAt(lim, front, sid)
  }

  function UsedAt(lim: Limits, ops: seq<Op>, sid: SessionId): real {
    if ops == [] then 0.0
    else
      var front, op := ops[..|ops| - 1], ops[|ops| - 1];
      if Opens(lim, Run(lim, front), op, sid) || Uses(Run(lim, front), op, sid) then op.now
      else UsedAt(lim, front, sid)
  }

  lemma ConnectDates(lim: Limits, t: Table, op: Op, sid: SessionId)
    requires KnownIds(t) && op.Connect? && sid in Next(lim, t, op).sessions
    ensures var s := Next(lim, t, op).sessions[sid];
            if sid in t.sessions then s == t.sessions[sid] else Opens(lim, t, op, sid) && s.created == s.lastActivity == op.now
  {
    ConnectTouchesOnlyNew(lim, t, op, sid);
  }

  lemma OtherDates(lim: Limits, t: Table, op: Op, sid: SessionId)
    requires !op.Connect? && sid in Next(lim, t, op).sessions
    ensures sid in t.sessions && Next(lim, t, op).sessions[sid].created == t.sessions[sid].created
    ensures Next(lim, t, op).sessions[sid].lastActivity == if Uses(t, op, sid) then op.now else t.sessions[sid].lastActivity
  {
    match op
    case Sweep(_, order) => EndEachOnlyRemoves(t, order);
    case _ =>
  }

  lemma OpDates(lim: Limits, t: Table, op: Op, sid: SessionId)
    requires KnownIds(t) && sid in Next(lim, t, op).sessions
    ensures sid !in t.sessions ==> Opens(lim, t, op, sid)
    ensures var s := Next(lim, t, op).sessions[sid];
            if Opens(lim, t, op, sid) then s.created == s.lastActivity == op.now
            else
              && s.created == t.sessions[sid].created
              && s.lastActivity == (if Uses(t, op, sid) then op.now else t.sessions[sid].lastActivity)
  {
    if op.Connect? {
      ConnectDates(lim, t, op, sid);
    } else {
      OtherDates(lim, t, op, sid);
    }
  }

  lemma {:induction false} DatesAreTheRuns(lim: Limits, ops: seq<Op>, sid: SessionId)
    ensures var t := Run(lim, ops);
            && KnownIds(t)
            && (sid in t.sessions ==>
                t.sessions[sid].created == OpenedAt(lim, ops, sid) && t.sessions[sid].lastActivity == UsedAt(lim, ops, sid))
  {
    if ops != [] {
      var front, op := ops[..|ops| - 1], ops[|ops| - 1];
      DatesAreTheRuns(lim, front, sid);
      EveryOpDevelops(lim, Run(lim, front), op);
      if sid in Run(lim, ops).sessions {
        OpDates(lim, Run(lim, front), op, sid);
      }
    }
  }

  // ---- what a sweep finds --------------------------------------------------------------------------

  /** Undecided for over a minute since it was opened, or relayed and unused for over two. */
  predicate Overdue(lim: Limits, ops: seq<Op>, sid: SessionId, now: real) {
    && sid in Run(lim, ops).sessions
    && (|| (Decision(lim, ops, sid) == Pending && now > OpenedAt(lim, ops, sid) + 60.0)
        || (Decision(lim, ops, sid) == Relay && now > UsedAt(lim, ops, sid) + 120.0))
  }

  lemma StaleIsOverdue(lim: Limits, ops: seq<Op>, sid: SessionId, now: real)
    ensures var t := Run(lim, ops);
            sid in t.sessions && IsStale(t.sessions[sid], now) <==> Overdue(lim, ops, sid, now)
  {
    DatesAreTheRuns(lim, ops, sid);
    DecidedByFirst(lim, ops, sid);
  }

  /** The overdue sessions, in some order, each once. */
  ghost predicate AllOverdue(lim: Limits, ops: seq<Op>, now: real, order: seq<SessionId>) {
    && (forall sid :: sid in order <==> Overdue(lim, ops, sid, now))
    && (forall i, k :: 0 <= i < |order| && 0 <= k < |order| && order[i] == order[k] ==> i == k)
  }

  lemma SweepListsTheOverdue(lim: Limits, ops: seq<Op>, now: real, order: seq<SessionId>)
    ensures ListsStale(Run(lim, ops), now, order) <==> AllOverdue(lim, ops, now, order)
  {
    forall sid ensures sid in Run(lim, ops).sessions && IsStale(Run(lim, ops).sessions[sid], now)
                       <==> Overdue(lim, ops, sid, now)
    {
      StaleIsOverdue(lim, ops, sid, now);
    }
  }

  // ---- when it ends --------------------------------------------------------------------------------

  /** The viewer's own new request, admitted, for another device that is online and accepts. */
  predicate AsksAnew(lim: Limits, ops: seq<Op>, op: Op, viewer: Device) {
    && op.Connect? && op.viewer == viewer && op.session !in Run(lim, ops).used && op.admission == Admitted
    && op.target.Some? && op.target.value != viewer
    && LastWord(ops, op.target.value).Some? && LastWord(ops, op.target.value).value.incomingEnabled
  }

  /** The connection that is the device's last word is closed. */
  predicate Leaves(ops: seq<Op>, op: Op, d: Device) {
    op.Detach? && op.id == d && LastWord(ops, d).Some? && LastWord(ops, d).value.connId == op.connId
  }

  ghost predicate Ends(lim: Limits, ops: seq<Op>, op: Op, sid: SessionId, viewer: Device, host: Device) {
    || Leaves(ops, op, viewer) || Leaves(ops, op, host)
    || (op.EndBy? && op.session == sid && (op.who == viewer || op.who == host))
    || AsksAnew(lim, ops, op, viewer)
    || (op.Sweep? && AllOverdue(lim, ops, op.now, op.order) && Overdue(lim, ops, sid, op.now))
  }

  lemma DetachEnds(t: Table, op: Op, lim: Limits, sid: SessionId)
    requires Mirrored(t) && op.Detach? && sid in t.sessions
    ensures sid !in Next(lim, t, op).sessions <==>
              op.id in t.devices && t.devices[op.id].connId == op.connId && TakesPart(t.sessions[sid], op.id)
  {
    assert Seated(t, sid);
    if op.id in t.inSession {
      assert Seated(t, t.inSession[op.id]);
    }
  }

  lemma ConnectClears(lim: Limits, t: Table, op: Op, sid: SessionId)
    requires op.Connect? && sid in t.sessions && sid in t.used
    ensures sid !in Next(lim, t, op).sessions <==>
              && op.session !in t.used && Screened(t, op.viewer, op.target, op.admission).None?
              && sid !in Cleared(t, op.viewer).sessions
  {
  }

  lemma ScreenedByLastWord(lim: Limits, ops: seq<Op>, op: Op)
    requires op.Connect? && op.viewer in Run(lim, ops).devices && op.session !in Run(lim, ops).used
    ensures Screened(Run(lim, ops), op.viewer, op.target, op.admission).None? <==> AsksAnew(lim, ops, op, op.viewer)
  {
    if op.target.Some? {
      DevicesAreLastWords(lim, ops, op.target.value);
    }
  }

  lemma ConnectEnds(lim: Limits, ops: seq<Op>, op: Op, sid: SessionId)
    requires op.Connect? && sid in Run(lim, ops).sessions
    ensures sid !in Next(lim, Run(lim, ops), op).sessions <==> AsksAnew(lim, ops, op, Run(lim, ops).sessions[sid].viewer)
  {
    var t := Run(lim, ops);
    EveryRunIsConsistent(lim, ops);
    DatesAreTheRuns(lim, ops, sid);
    assert Seated(t, sid);
    ConnectClears(lim, t, op, sid);
    OwnIsReplaced(t, op.viewer);
    if op.viewer == t.sessions[sid].viewer && op.session !in t.used {
      ScreenedByLastWord(lim, ops, op);
    }
  }

  lemma OthersEndNothing(lim: Limits, t: Table, op: Op, sid: SessionId)
    requires sid in t.sessions && !op.Detach? && !op.Connect? && !op.Sweep?
    ensures sid !in Next(lim, t, op).sessions
            <==> op.EndBy? && op.session == sid && (op.who == t.sessions[sid].viewer || op.who == t.sessions[sid].host)
  {
  }

  /** Over every run and for every session: an operation ends it if and only if a participant ends it or goes offline
      with its current connection, its viewer asks for another host that accepts, or a sweep finds it undecided
      over a minute after it was opened or relayed and unused for over two. A direct one no sweep ends. */
  lemma EndsExactlyWhen(lim: Limits, ops: seq<Op>, op: Op, sid: SessionId)
    requires sid in Run(lim, ops).sessions
    ensures var s := Run(lim, ops).sessions[sid];
            sid !in Run(lim, ops + [op]).sessions <==> Ends(lim, ops, op, sid, s.viewer, s.host)
  {
    var t := Run(lim, ops);
    RunSnoc(lim, ops, op);
    EveryRunIsConsistent(lim, ops);
    match op
    case Detach(id, _) =>
      DetachEnds(t, op, lim, sid);
      DevicesAreLastWords(lim, ops, id);
    case Connect(_, _, _, _, _) => ConnectEnds(lim, ops, op, sid);
    case Sweep(now, order) =>
      SweepListsTheOverdue(lim, ops, now, order);
      EndEachOnlyRemoves(t, order);
    case _ => OthersEndNothing(lim, t, op, sid);
  }

  // ---- what a sweep leaves -------------------------------------------------------------------------

  /** After a sweep no undecided session is older than a minute and no relayed one unused for longer than two. */
  lemma SweepLeavesNoneOverdue(lim: Limits, ops: seq<Op>, now: real, order: seq<SessionId>, sid: SessionId)
    requires AllOverdue(lim, ops, now, order)
    ensures var after := ops + [Sweep(now, order)];
            && !Overdue(lim, after, sid, now)
            && (sid in Run(lim, ops).sessions && !Overdue(lim, ops, sid, now) ==>
                sid in Run(lim, after).sessions && Run(lim, after).sessions[sid] == Run(lim, ops).sessions[sid])
  {
    var t := Run(lim, ops);
    RunSnoc(lim, ops, Sweep(now, order));
    SweepListsTheOverdue(lim, ops, now, order);
    EndEachOnlyRemoves(t, order);
    StaleIsOverdue(lim, ops, sid, now);
    StaleIsOverdue(lim, ops + [Sweep(now, order)], sid, now);
  }

  /** What is told of a session that ends: who asked for it, whom it was with, how it was decided and what it relayed. */
  lemma ReportIsTrue(lim: Limits, ops: seq<Op>, sid: SessionId)
    requires sid in Run(lim, ops).sessions
    ensures var s := Run(lim, ops).sessions[sid];
            H.Report(Run(lim, ops), sid) == H.Ended(sid, s.viewer, s.host, Decision(lim, ops, sid), s.bytes)
  {
    DecidedByFirst(lim, ops, sid);
  }
}

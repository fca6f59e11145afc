# RemoteX session engine: a verified model

This project models the stateful protocols of RemoteX, a remote-desktop system, and proves what their
comments and tests promise, over every run and every interleaving instead of on samples. Code that updates
fields in place is a class whose methods are proved against specification functions; protocols between
threads or peers are machines whose steps are exactly the critical sections of the code, and the same
specification functions drive both.

| part | modules |
| --- | --- |
| Input pipeline: slot, control queue, batching, staleness | `InputEvents`, `InputStale`, `InputPipeline`, `InputBacklog`, `InputMeaning`, `InputGap`, `InputRace`, `ControlLane`, `InputThread`, `InputPermissions` |
| Latency clock | `InputClock` |
| Lanes, fragmentation, encrypted stream | `Lanes`, `LaneReading`, `SecureLink` |
| Writer loop: priority and bulk pacing | `WriterLoop`, `WriterProgress`, `WriterOrder`, `WriterPacing`, `WriterStall` |
| Server hub: presence, sessions, relay shaping, lockouts | `SessionTable`, `SessionOpening`, `SessionEndings`, `Hub`, `ConnectGate`, `HubGates`, `RelayShaper`, `RelayStamps`, `AttemptLimiter`, `LimiterQuota`, `LimiterSweeps`, `GateSweeps` |
| Adaptive streaming controller | `Adapter`, `AdapterSignals` |
| Elevation broker and its connections | `Broker`, `Elevation`, `ServiceServer`, `GrantTokens`, `Heartbeats` |
| Resumable file transfer | `Files`, `Transfer`, `TransferSafety`, `TransferProgress`, `TransferStops`, `FileReceiver`, `FileSender`, `PartSharing`, `PartAlone`, `PartReceiver` |
| Clipboard synchronisation | `Clipboard`, `ClipboardMemory` |
| Annex-B streams | `AnnexB`, `CodecStrings` |
| Shared by several parts | `Wrappers`, `Octets`, `Rates`, `Runs`, `Totals` |

`dafny verify dfyconfig.toml` checks everything.

## What the proofs found

Where a comment promises more than the code does, the code is modelled and the exact condition is proved.

- "A click always follows the position it was made at" (`crates/session/src/secure.rs:158-159`) depends on when the
  writer takes the slot. It drains the channel and takes the slot in two steps (lines 364-367 and 412-415), so a
  click and a newer move can come in between; the newer move then overtakes the click and is itself overwritten
  by the older one (`InputRace.RaceLosesNewestMove`). For every set of host permissions, taking the slot is safe
  exactly when the host may not move the pointer, or refuses every waiting event but moves and the first one
  waiting is not a move (`InputGap.TakingTheSlotIsSafeExactlyWhen`). Order, completeness and the backlog bound hold in
  every interleaving regardless, and without permission to move the pointer the meaning does too.
- Bulk pacing: the bucket is checked before the wait for room on the link and charged after it. Burst, rate and one
  fragment of debt bound every window exactly when nothing waits in between; with waits of at most `d`, exactly
  what the rate earns in `d`, but at most one unit, must be added (`WriterStall.SufficesExactlyWhen`).
- Relay shaping: a frame is stamped before the hub's lock is taken (`server/src/hub.rs:370-371`), so the two peers'
  stamps can be charged out of order. An older stamp earns nothing but sets the bucket's clock back, and the same
  time is earned again: seven bytes can go where five are allowed (`RelayStamps.OldStampBreaksTheBound`). The
  bounds hold with the backward steps added to the time, that much is needed, and the plain bound holds for all
  frames with given stamps exactly when none is older than the one charged before it.
- A manual bitrate under 300 kbit/s with an automatic frame rate is raised by congestion
  (`Adapter.NeverOvershootsExactlyWhen`). A manual bitrate above that is cut when the resolution is lowered and never
  raised again (`Adapter.CongestionCostsManualBitrate`). A frame rate comes back only at twice the minimum bitrate.
  `Adapter.RecoversExactlyWhen` says for every setting when a clean link restores the start.
- A revocation can end another process's grant, because check and end are two critical sections
  (`Elevation.RevokeCanEndAnother`): exactly when the slot has been emptied in between, a grant has been installed,
  and nothing has emptied it since (`Elevation.RevokeStopsAnotherExactlyWhen`).
- A refused connect can end the caller's own session without a report to anybody
  (`SessionTable.RefusedConnectEndsSessionExactlyWhen`); four devices and two sessions suffice
  (`SessionTable.AskingForABusyHostCostsTheSession`).
- The limiter's quota depends on more than the order of stamps. A failure stamped long before an interval but charged
  in it can lock a key out so early that the lockout ends in time for another full round
  (`LimiterQuota.OldLockRound`). `LimiterQuota.QuotaHoldsExactlyWhen` says for every interval how old such a failure may
  be; for unknown targets of connect requests, within ten minutes, twenty minutes older than its beginning
  (`ConnectGate.UnknownsAreFewExactlyWhen`).
- Sweeping the limiter is invisible to callers that ask before they record. To others it changes a later answer
  exactly when an expired lockout is on file and one failure alone does not lock out
  (`LimiterSweeps.SweepMattersExactlyWhen`). In the hub that happens to an address: a report ends its viewer's session
  and a locked viewer gets no other, but other sessions of the address go on, and a sweep can decide whether a
  viewer there may connect (`GateSweeps.SweepDecidesAboutAnAddress`). A call stamped before a sweep but made after
  it can see it even if it asks (`AttemptLimiter.OlderCallSeesSweep`).
- A file that was verified and moved into place can still be written to: a second transfer of the same name
  resumes a part file that the first one has open. It stays as verified exactly when no open transfer has anything
  left to write to it (`PartSharing.FinishedFileIsSafeExactlyWhen`).
- A suppression that outlives its echo swallows a genuine copy (`Clipboard.OldSuppressionSwallowsACopy`).

## Assumptions

- Numbers are stamped in the order senders take the slot's lock: the number is drawn before that lock, but the viewer
  keeps its own lock on the session's input across the whole call (`crates/session/src/engine.rs:328-343`). Where the host may move the pointer, a move is sent
  less than 2^31 numbers after the last move the host took and the moves still under way; what happens to a move
  further ahead is in `InputEvents.FarMoveIsDropped`. Host permissions do not change during a run.
- The cipher is ideal: a frame opens only under the key and counter it was sealed with. Digests of files and
  clipboard contents do not collide. Encoding followed by decoding is the identity.
- Times, rates and tokens are real numbers. No clock runs backwards, but a stamp read before a lock can come under
  it late: relayed frames and limiter calls are taken in any order of stamps. Where a limiter's promise limits that
  order, the limit is part of the statement.
- Session ids, grant tokens and agent processes are fresh. The source file of a transfer does not change. In
  `Transfer`, attempts to send one file do not overlap at the receiver; `PartSharing` is about those that do.

## Model

| member | source | states |
|---|---|---|
| InputEvents.SeqBeforeIsOrder | crates/session/src/input_thread.rs:99-102 | for numbers less than 2^31 apart, the wrapped comparison is the order of the unwrapped numbers (section 3.2 of RFC 1982) |
| InputEvents.SeqBeforeExactly | crates/session/src/input_thread.rs:99-102 | for any two numbers, older means exactly that the forward distance modulo 2^32 is at least 2^31 |
| InputEvents.FarMoveIsDropped | crates/session/src/input_thread.rs:187-193 | when a newer move further ahead than half the number space is taken for stale |
| InputEvents.ApplyAllIsPairing | crates/session/src/input_thread.rs:186-215 | applying events one by one gives each allowed non-move event the last allowed move before it, and the last move at the end |
| InputEvents.CoalescingKeepsMeaning | crates/session/src/input_thread.rs:116-129 | collapsing runs of moves changes neither any event's position nor the final one |
| InputEvents.CoalescedShape | crates/session/src/input_thread.rs:116-129 | what is left has no two adjacent moves, and all non-move events in order |
| InputEvents.NothingStale | crates/session/src/input_thread.rs:186-195 | increasing numbers inside half a window are never judged stale |
| InputEvents.BatchKeepsMeaning | crates/session/src/input_thread.rs:182-215 | one collapsed and checked batch does what its events do one by one |
| InputEvents.BatchingDoesNotMatter | crates/session/src/input_thread.rs:169-215 | any cut of the arrivals into batches does what no batching at all does |
| InputStale.LastMoveIsTop | crates/session/src/input_thread.rs:187-193 | however moves less than half a window apart are ordered, the host ends with the newest as its last one |
| InputStale.BatchAlike | crates/session/src/input_thread.rs:182-215 | even with overtaken moves among them, one collapsed and checked batch does what its events do one by one, as long as no move directly follows a newer one |
| InputStale.RunAhead | crates/session/src/input_thread.rs:187-215 | the newest move may run ahead of moves and refused events: the host ends in the same state |
| InputEvents.AnyTwoBatchingsAgree | crates/session/src/input_thread.rs:169-215 | two cuts of the same arrivals end in the same state |
| InputThread.CoalesceMoves | crates/session/src/input_thread.rs:116-129 | the loop computes the collapsed list and counts what it dropped |
| InputThread.InputThread.WakeUp | crates/session/src/input_thread.rs:169-215 | one wake-up takes the host from its state to the state after the collapsed, checked batch |
| InputPermissions.AppliedExactlyWhenPermitted | crates/session/src/input_thread.rs:88-97 | for all permissions, streams and batchings: every key and text is applied as often as it was sent if the keyboard is permitted and never otherwise, every button and wheel event likewise with the mouse, and every release in any case |
| InputPermissions.BatchesLetThrough | crates/session/src/input_thread.rs:197-203 | the events applied are exactly the permitted ones among those sent, in order |
| InputPermissions.PointerNeedsMouse | crates/session/src/input_thread.rs:187-200 | without the mouse no position is ever in force; with it, a first move takes the pointer along |
| InputBacklog.EveryInterleavingKeepsOrder | crates/session/src/secure.rs:160-190 | in every interleaving, non-move messages are sealed in the order queued, none lost or doubled; no two adjacent queue entries are moves; waiting moves are at most waiting non-moves plus two |
| InputPipeline.RunStaysCollapsed | crates/session/src/secure.rs:238-263 | the queue never holds two adjacent moves, and the channel's moves are each followed by an event |
| InputBacklog.EveryMoveIsAccountedFor | crates/session/src/secure.rs:160-263 | every move sent is waiting, sealed, or counted as collapsed: the counter balances |
| InputMeaning.CoherentStep | crates/session/src/secure.rs:160-263 | every step under the guard keeps what the host has done plus what is under way equal to what the sender meant |
| InputMeaning.GuardedRunStaysCoherent | crates/session/src/secure.rs:349-425 | so does every run |
| InputMeaning.DroppingMovesNeverChangesMeaning | crates/session/src/secure.rs:156-190 | under the guard, once all queues drain, each non-move event the host permits has been applied in sent order at the position in force had nothing been dropped, and the final position is the last one sent |
| InputMeaning.WithoutThePointerOrderIsEnough | crates/session/src/secure.rs:156-190 | for a host that may not move the pointer, the same in every interleaving, guarded or not |
| InputGap.RunKeepsHostSane | crates/session/src/input_thread.rs:187-215 | in every run, a position is in force only if the host permits moves, and it is that of the last move taken |
| InputGap.EagerDrain | crates/session/src/secure.rs:362-425 | from any moment with the lock free, the queues can be emptied under the guard, giving the host exactly what is pending |
| InputGap.OvertakingChangesMeaning | crates/session/src/secure.rs:349-353 | with a permitted event among those overtaken by the newest move, taking the events in that order has another meaning |
| InputGap.BatchLosesNewest | crates/session/src/secure.rs:349-353 | with a move directly behind the newest one, taking them in one batch leaves another position in force |
| InputGap.TakingTheSlotIsSafeExactlyWhen | crates/session/src/secure.rs:349-367 | for every host, at every moment of every guarded run, taking the slot leaves every guarded continuation with the intended meaning if and only if the host may not move the pointer, or refuses all waiting events but moves and the first one waiting is not a move |
| InputRace.RaceLosesNewestMove | crates/session/src/secure.rs:364-367 | a run of the code in which the newest position is lost for good |
| InputRace.PermittedMoveMayWait | crates/session/src/secure.rs:349-367 | a permitted move may wait in the channel when the slot is taken: behind a refused key it does no harm, however the run goes on |
| ControlLane.ControlLane.SendMove | crates/session/src/secure.rs:174-181 | a position replaces the waiting one |
| ControlLane.ControlLane.LockSend | crates/session/src/secure.rs:173-186 | any other event first flushes the waiting position into the channel, under the lock |
| ControlLane.ControlLane.FinishSend | crates/session/src/secure.rs:186-188 | and then follows it |
| ControlLane.ControlLane.Send | crates/session/src/secure.rs:160-190 | the whole call is those sections in sequence |
| ControlLane.ControlLane.PushCtl | crates/session/src/secure.rs:237-263 | a move replaces a move at the back of the queue, and everything else is appended |
| ControlLane.ControlLane.DrainOne | crates/session/src/secure.rs:364-366 | one message from the channel into the queue |
| ControlLane.ControlLane.TakeSlot | crates/session/src/secure.rs:349-353 | the waiting position into the queue |
| ControlLane.ControlLane.SealFront | crates/session/src/secure.rs:417-425 | the front of the queue is sealed |
| InputClock.StampingIsFaithful | crates/session/src/secure.rs:71-80 | after any stamps, across wrap-around and the skipped zero, each cell holds its latest number's low bits and time |
| InputClock.AgeIsOwnAge | crates/session/src/secure.rs:71-86 | for any of the last 65,535 numbers an answer is the age of its own stamp, and there is one if and only if its cell has not been reused |
| InputClock.NumbersAreNew | crates/session/src/secure.rs:71-80 | every stamp gives the next number, larger than all before; only those that wrap to 0 are left out |
| InputClock.LastThousandRemembered | crates/session/src/secure.rs:82-86 | each of the last 1023 stamped events is remembered with its own age |
| InputClock.UnusedCellHasNoAge | crates/session/src/secure.rs:82-86 | a number whose cell no number has fallen into yet has no age |
| InputClock.InputClock.Stamp | crates/session/src/secure.rs:71-80 | allocates the next number, never zero, and records its time in the cell |
| InputClock.InputClock.AgeUs | crates/session/src/secure.rs:82-86 | answers from the cell if it holds the number's low bits |
| Lanes.Outgoing.NextUnit | crates/session/src/secure.rs:283-300 | the next unit is the next slice of the message with the right flag, and completion is reported with the last |
| Lanes.LaneReader.OnUnit | crates/session/src/secure.rs:475-500 | one unit takes the reader from its state to the next, or stops it for good |
| Lanes.UnitsFit | crates/session/src/secure.rs:283-300 | every video or bulk unit carries at most FRAGMENT bytes, under every schedule |
| Lanes.FirstUnitFits | crates/session/src/secure.rs:283-300 | a message's first unit carries at most FRAGMENT bytes if and only if it is not a control message longer than that |
| Lanes.ReaderInStep | crates/session/src/secure.rs:475-493 | under every schedule of the lanes the reader has rebuilt exactly the completed messages and holds exactly the sent part of the others |
| LaneReading.ClosesExactlyWhen | crates/session/src/secure.rs:468-500 | a listening reader closes if and only if a unit is empty, names no lane, is a later fragment of nothing or one that makes its message too long, or completes a message that is not accepted; other lanes are never touched |
| LaneReading.ReaderStaysWithin | crates/session/src/secure.rs:475-500 | whatever units arrive, the reader holds at most one frame limit a lane and hands up only accepted messages |
| LaneReading.MessageGoesOut | crates/session/src/secure.rs:283-300 | from any moment with the lane free, a message within the frame limit is out after one unit for every FRAGMENT bytes begun, unless the counter is used up |
| Lanes.FragmentationRoundTrip | crates/session/src/secure.rs:283-493 | for messages of at most MAX_FRAME bytes the reader never closes and hands up each lane's messages, whole and in completion order |
| SecureLink.Sealer.Seal | crates/security/src/channel.rs:31-38 | seals under the counter and advances it, or reports exhaustion |
| SecureLink.Opener.Open | crates/security/src/channel.rs:42-51 | opens only the frame sealed at its counter, and advances only then |
| SecureLink.OnlyGenuineFramesCount | crates/session/src/secure.rs:458-500 | under any delivery, the receiver is where the sender's own first frames, in order, would have put it |
| SecureLink.HandedUpIsPrefix | crates/security/src/channel.rs:1-2 | at every moment each lane has handed up a prefix of what the sender committed to it, whatever the network replays, reorders, drops or makes up |
| SecureLink.NothingAfterRejection | crates/session/src/secure.rs:468-474 | after the first frame that is not the sender's next one nothing more is handed up |
| SecureLink.UndisturbedStreamDeliversAll | crates/session/src/secure.rs:428-510 | an undisturbed stream delivers every completed message on every lane |
| SecureLink.EveryDisturbanceIsNoticed | crates/security/src/channel.rs:1-2 | a receiver that is still listening has received exactly the sender's first frames |
| SecureLink.CounterStaysInRange | crates/security/src/channel.rs:42-51 | whatever is delivered the counter stays within 64 bits, and once it is used up nothing more opens |
| WriterLoop.Bucket.HasToken | crates/session/src/secure.rs:308-319 | refills by rate and time up to a quarter second's worth or one fragment, and says whether a token is there; a rate of zero asks nothing and leaves the bucket alone |
| WriterLoop.Scheduler.Look | crates/session/src/secure.rs:368-382 | pulls messages where there is room and checks the bucket for bulk; idle exactly when there is nothing to send |
| WriterLoop.Scheduler.SendUnit | crates/session/src/secure.rs:417-444 | picks control before video before bulk, and charges a bulk unit in full, into debt if need be |
| WriterLoop.AtMostOneUnitOvertakesControl | crates/session/src/secure.rs:357-445 | at any rates, limited or not and changing at will: between the handing over of each control message, or of the position it stands for, and its sealing, at most one video or bulk unit is sealed |
| WriterProgress.WaitsAreCounted | crates/session/src/secure.rs:160-263 | what is counted there: the units sealed between the handing over of a message, or of the first position it stands for, and its own sealing |
| WriterLoop.BulkNeedsToken | crates/session/src/secure.rs:378-444 | a bulk unit is chosen only with nothing of higher priority there at the last drain, and at a limited rate only with a token |
| WriterProgress.WaitsExactlyWhen | crates/session/src/secure.rs:378-402 | in every run, at every rate: a look leads to waiting if and only if no control message is queued, there is no video, and no bulk, or at a limited rate less than one token with what was earned since |
| WriterProgress.LookRefillsForBulkOnly | crates/session/src/secure.rs:308-319 | a look grants what the rate has earned, up to a quarter second's worth or one fragment, only where there is bulk and the rate is limited |
| WriterProgress.MessagesInProgressAreKept | crates/session/src/secure.rs:368-402 | in every run a message in progress loses units only by their being sealed, one at a time, and a waiting writer takes what wakes it |
| WriterProgress.EverySendSealsOne | crates/session/src/secure.rs:417-444 | in every run every send seals exactly one unit, the oldest control message first, then video, then bulk |
| WriterProgress.NoSleepOnControl | crates/session/src/secure.rs:362-445 | whatever comes after: once a control message is queued at the look, the writer neither waits nor begins another pass before it has sealed one |
| WriterProgress.PassSealsControl | crates/session/src/secure.rs:378-425 | one complete pass from the look on, at any rate and with any video and bulk there, seals the oldest control message |
| WriterProgress.ControlGoesOut | crates/session/src/secure.rs:362-425 | wherever the loop is and wherever a control message waits, its own turns alone, without time passing, seal one |
| WriterOrder.LoopIsPipeline | crates/session/src/secure.rs:357-425 | every run of the loop is a run of the control pipeline with the same queue, slot and sealed messages |
| WriterOrder.ControlKeepsItsOrder | crates/session/src/secure.rs:357-425 | in every run, at any rates and with any video and bulk: the control messages sealed and still under way are those handed over, in order |
| WriterPacing.BulkPacing | crates/session/src/secure.rs:308-319 | from any moment between two passes on, bulk bytes of any stretch of units are at most burst, rate times the time between their checks, and one fragment of debt |
| WriterPacing.BulkWindows | crates/session/src/secure.rs:378-444 | with waits of at most `d` between check and sealing: in every window, burst, rate times its length, one fragment, and what the rate earns in `d` or one unit if that is less |
| WriterPacing.PacedAfterAnyHistory | crates/session/src/secure.rs:378-444 | the same after any history at any rates, limited or not, for as long as the rate stays the same |
| WriterStall.ExcessIsReached | crates/session/src/secure.rs:404-436 | for every rate and every `d`, a run with waits of at most `d` and a window that needs all of that |
| WriterStall.SufficesExactlyWhen | crates/session/src/secure.rs:378-444 | for every rate and every `d`, an extra term bounds all windows of all such runs if and only if it is at least that |
| WriterStall.NarrowBoundExactlyWhen | crates/session/src/secure.rs:404-436 | burst, rate and one fragment bound all windows of all such runs if and only if `d` is zero |
| RelayShaper.ReleasesSlipNoMore | server/src/hub.rs:390-402 | for every order of stamps, releases step back by no more than the stamps do |
| RelayShaper.ReleasedByTime | server/src/hub.rs:390-402 | by any time, at most a quarter second's worth, and the rate over the time since the first stamp and all backward steps of the stamps |
| RelayShaper.ReleasedInWindow | server/src/hub.rs:390-402 | in any window, the larger of the burst and the largest frame, and the rate over its length and the backward steps |
| RelayShaper.StretchBound | server/src/hub.rs:390-402 | the same for any stretch of frames, by their release times and the backward steps among them |
| RelayStamps.SlipIsReached | server/src/hub.rs:369-402 | for every order of stamps there are frames that reach the window bound, backward steps included |
| RelayStamps.PlainInWindowsExactlyWhen | server/src/hub.rs:369-402 | all frames with given stamps keep the window bound without the backward steps if and only if none has a stamp older than the one charged before it |
| RelayStamps.PlainSinceStartExactlyWhen | server/src/hub.rs:369-402 | all frames with given stamps keep burst and rate since the session started if and only if the backward steps together are no longer than the time before the first stamp |
| RelayStamps.ReleasedInOrderExactlyWhen | server/src/hub.rs:369-402 | all frames with given stamps are released in the order charged if and only if the stamps are in that order |
| RelayStamps.OldStampBreaksTheBound | server/src/hub.rs:370-402 | at every rate whose burst is a whole number of bytes, runs with one old stamp in which two full bursts more than burst and rate allow are released in time |
| SessionTable.EveryOpKeepsConsistent | server/src/hub.rs:234-484 | each operation keeps the two maps mirrored, the limit, zero bytes outside Relay, and the relay counter |
| SessionTable.EveryRunIsConsistent | server/src/hub.rs:234-484 | over every run each session has two distinct participants, online, mapped to it and nobody else is mapped; the counter is the bytes of all sessions, live and past |
| SessionTable.ModesOnlySettle | server/src/hub.rs:369-413 | modes go only from Pending to Relay or Direct, participants never change, bytes never shrink, and no ended session returns |
| SessionTable.SessionsAreShapedApart | server/src/hub.rs:369-402 | over every run a session's bucket and bytes are those of its own frames alone |
| SessionTable.HubShapesEverySession | server/src/hub.rs:369-402 | the shaping bounds hold for each session of every run, whatever the order of the stamps and whatever else happens |
| SessionTable.RefusedConnectEndsSessionExactlyWhen | server/src/hub.rs:319-331 | a refused request has ended the viewer's own session if and only if it passed the screening, the viewer was viewing, and the target is busy in another session |
| SessionTable.AskingForABusyHostCostsTheSession | server/src/hub.rs:319-331 | from an empty table, for any four devices: two sessions, and a viewer that asks for the other host is told it is busy and has lost its own session |
| SessionOpening.DevicesAreLastWords | server/src/hub.rs:234-263 | over every run a device is online, at the address and with the setting of its own last word: attached, changed by the same connection, gone with it |
| SessionOpening.OpensExactlyWhen | server/src/hub.rs:274-366 | over every run a request opens a session if and only if it is admitted, the viewer and another device are online, that device's last word was that it accepts, neither is in a session but one the viewer is viewing, and there is room |
| SessionOpening.RefusedBecause | server/src/hub.rs:274-331 | over every run, what a viewer is told, for each of these conditions that fails first |
| SessionOpening.OpenedSession | server/src/hub.rs:333-366 | the new session is between the two, undecided, with no bytes and a full bucket; of the others only the viewer's own is gone |
| SessionOpening.DecidedByFirst | server/src/hub.rs:369-413 | over every run a session is Direct if and only if its viewer reported a direct link before any frame was relayed, and Relay if and only if it reported none or a frame came first |
| SessionEndings.EndsExactlyWhen | server/src/hub.rs:250-484 | over every run an operation ends a session if and only if a participant ends it or goes offline with its current connection, its viewer asks for another host that accepts, or a sweep finds it undecided over a minute after it was opened or relayed and unused for over two |
| SessionEndings.SweepLeavesNoneOverdue | server/src/hub.rs:459-474 | after a sweep no session is overdue, and those that were not are as they were |
| SessionEndings.DatesAreTheRuns | server/src/hub.rs:340-413 | over every run a session's dates are those of its opening and of its last report or relayed frame |
| SessionEndings.ReportIsTrue | server/src/hub.rs:439-455 | over every run, what is told of a session that ends: its viewer and host, how it was decided, and what it relayed |
| Hub.RelayedFrameFindsPeer | server/src/hub.rs:369-402 | an accepted frame's peer is the other participant and is online |
| Hub.Hub.Attach | server/src/hub.rs:234-239 | registers a connection in place of an earlier one |
| Hub.Hub.UpdateIncoming | server/src/hub.rs:241-247 | only the device's current connection changes its setting |
| Hub.Hub.Detach | server/src/hub.rs:250-263 | only the current connection goes offline, and its session ends with a report |
| Hub.Hub.Admit | server/src/hub.rs:288-296 | the limiters are asked in order, each request counts for its viewer, and the first that refuses decides |
| Hub.Hub.Screen | server/src/hub.rs:274-310 | the order of refusals before the sessions are looked at, and what an unknown target adds to its address |
| Hub.Hub.EndOwn | server/src/hub.rs:319-325 | exactly the session the viewer is viewing is ended |
| Hub.Hub.Open | server/src/hub.rs:319-366 | busy, full, or a new session with both its participants |
| Hub.Hub.Connect | server/src/hub.rs:274-366 | the whole request: limiters, refusals, the replaced session, and the new one |
| Hub.Hub.ReportPasswordFailure | server/src/hub.rs:426-437 | only the session's host is heard; the viewer and its address are counted without asking |
| ConnectGate.ToldIsLetThrough | server/src/hub.rs:288-308 | over every run, the requests answered by an unknown target are the failures the address's limiter let through |
| ConnectGate.UnknownsAreFew | server/src/hub.rs:288-308 | of the requests from one address stamped in an interval of at most ten minutes, at most fifteen learn that their target is unknown, in any order of stamps and whatever viewers and others do, unless between two of them comes a sweep or request stamped after the interval, or one for an unknown target stamped half an hour or more before its end |
| ConnectGate.UnknownsAreFewExactlyWhen | server/src/hub.rs:288-308 | for every interval and every age allowed to requests between, that holds in all runs if and only if the interval is at most ten minutes long and ends within half an hour of that age |
| HubGates.HubIsTablesAndGates | server/src/hub.rs:274-437 | over every run of the hub with its limiters: the tables see each request with the admission the limiters gave it, and the limiters see its viewer and address, whether its target is a device online, and each wrong password reported by a session's own host |
| HubGates.BannedExactlyWhen | server/src/hub.rs:288-437 | whatever came before, if it left nothing on their books: within ten minutes, in any order of stamps and with sweeps and others' requests in between, a request is banned if and only if it does not come too often and five wrong passwords were reported for its viewer, ten for its address, or unknown targets have shut the address out |
| HubGates.RequestsAreFew | server/src/hub.rs:288-290 | of one viewer's requests stamped within a minute at most thirty come further, if nothing disturbs the limiter between them |
| HubGates.TooOftenExactlyWhen | server/src/hub.rs:288-290 | a request is rate-limited if and only if the limiter that sees exactly the requests and the sweeps refuses it |
| GateSweeps.SweepDecidesAboutAnAddress | server/src/hub.rs:426-482 | runs from the start, alike but for one sweep, after which a viewer's request is banned in one and let through in the other |
| Hub.Hub.RelayFrame | server/src/hub.rs:369-403 | counts and shapes a participant's frame, and answers its peer and delay |
| Hub.Hub.SetMode | server/src/hub.rs:405-413 | only the viewer of a pending session decides its mode |
| Hub.Hub.EndBy | server/src/hub.rs:416-423 | only a participant ends a session |
| Hub.Hub.EndLocked | server/src/hub.rs:439-455 | removes a session and both its participants, and reports it |
| Hub.Hub.EndStale | server/src/hub.rs:459-474 | ends exactly the stale sessions, each once, each reported as it was |
| Hub.Hub.Sweep | server/src/hub.rs:458-484 | so, and sweeps the limiters |
| AttemptLimiter.AttemptLimiter.Locked | crates/security/src/limiter.rs:31-42 | the time left of a running lockout; an expired one is forgotten |
| AttemptLimiter.AttemptLimiter.RecordFailure | crates/security/src/limiter.rs:44-59 | keeps recent failures, adds one, and locks at the threshold |
| AttemptLimiter.AttemptLimiter.Sweep | crates/security/src/limiter.rs:65-72 | keeps exactly the entries with a running lockout or a recent failure |
| AttemptLimiter.AttemptLimiter.Call | server/src/hub.rs:209-217 | asking first, then recording: refused or done |
| AttemptLimiter.EveryKeyLivesAlone | crates/security/src/limiter.rs:31-72 | in every run, in any order of stamps, a key none of whose calls is older than a sweep before it gets the answers it would get if it were the only key and nobody swept |
| AttemptLimiter.SweepsChangeNoAnswer | crates/security/src/limiter.rs:65-72 | sweeps change no answer to such a key |
| AttemptLimiter.OlderCallSeesSweep | server/src/hub.rs:459-482 | a call older than a sweep before it can find a lockout gone that still runs by its own stamp |
| AttemptLimiter.EveryKeyAgrees | crates/security/src/limiter.rs:31-72 | in every run with stamps in order, each key gets the answers of an independent reference that knows only its running lockout or its recent failures |
| LimiterQuota.QuotaHolds | crates/security/src/limiter.rs:31-59 | in any order of stamps: of a key's failures stamped in an interval, at most the threshold's number is let through, if nothing disturbs the key between two of them (a success, a failure stamped before `oldest`, a call or sweep stamped after the interval) and the interval ends within a lockout of its beginning and, where one failure alone does not lock out, within a window of its beginning and a lockout of `oldest` |
| LimiterQuota.QuotaHoldsExactlyWhen | crates/security/src/limiter.rs:31-59 | for every interval and every `oldest`, that bound holds in all runs undisturbed in this sense if and only if the interval ends so |
| LimiterQuota.LateSweepExceeds | crates/security/src/limiter.rs:65-72 | a sweep stamped a window after the failures, but made between them, lets through more |
| LimiterSweeps.SweepMattersExactlyWhen | server/src/hub.rs:426-437 | whatever is on file, for a caller that records without asking, a sweep just before changes the answer to some later call if and only if an expired lockout is on file and one failure alone does not lock out |
| LimiterSweeps.SweepMattersFromTheStart | crates/security/src/limiter.rs:44-72 | in a limiter by whose rules one failure alone does not lock out, for every key, a run from an empty table that comes to such a lockout, and the calls that are answered differently |
| Adapter.MakePlan | crates/session/src/adapt.rs:56-93 | the minimum is at least 300 kbit/s, and an automatic maximum lies between 500 and 60,000 and above it |
| Adapter.FirstFps | crates/session/src/adapt.rs:57-65 | the fastest frame rate within the cap, or the slowest |
| Adapter.Adapter.constructor | crates/session/src/adapt.rs:56-93 | a fresh controller is at its maximum, at full resolution |
| Adapter.Adapter.Update | crates/session/src/adapt.rs:119-158 | one sample's decision, and the new target exactly when it changed |
| Adapter.Adapter.Degrade | crates/session/src/adapt.rs:160-171 | bitrate, then frame rate, then resolution |
| Adapter.Adapter.Improve | crates/session/src/adapt.rs:173-183 | resolution, then frame rate, then bitrate |
| Adapter.Adapter.CapBitrateForScale | crates/session/src/adapt.rs:185-191 | the bitrate is capped by the share of pixels, never below the minimum |
| Adapter.EveryRunKeepsOrder | crates/session/src/adapt.rs:119-183 | in every reachable state of a fully automatic stream the bitrate is within bounds, and the resolution is lowered only at the lowest frame rate and minimum bitrate |
| Adapter.DegradesInOrder | crates/session/src/adapt.rs:160-171 | one update moves one dimension, the next one only when the cheaper are used up, and bitrate by a quarter |
| AdapterSignals.DegradesExactlyWhen | crates/session/src/adapt.rs:119-142 | after any history, once the hold has passed, a sample worsens an adaptive stream that has something left to give up if and only if the send delay is over 60 ms, three or more frames were dropped, or the round trip is over twice the smoothed one plus 60 ms |
| AdapterSignals.ImprovesExactlyWhen | crates/session/src/adapt.rs:143-158 | after any history, a sample improves the stream if and only if it and the five counted before it were clean by the raw measurements, 5 s have passed since the last change, and something can be won back |
| AdapterSignals.CountsAreTheRuns | crates/session/src/adapt.rs:138-157 | over every run the last change and the count of clean samples are those of the samples: a burdened one starts the count again, and a sixth one five seconds after the last change leaves it at three |
| AdapterSignals.SmoothedStep | crates/session/src/adapt.rs:122-130 | no measurement leaves the smoothed round trip alone, the first and any shorter one is taken as it is, and a longer one moves it by a fiftieth of the difference, counted up to twice its value |
| AdapterSignals.SmoothedIsBetween | crates/session/src/adapt.rs:122-130 | over every run the smoothed round trip lies between the smallest and the largest measured |
| AdapterSignals.PlanAllows | crates/session/src/adapt.rs:45-93 | a manual bitrate is the maximum as it is; an automatic one is the preset's bits a pixel for every frame of a second, at the screen's shape within the height allowed, from 500 to 60,000; the minimum is an eighth, or 300 |
| AdapterSignals.FirstRate | crates/session/src/adapt.rs:57-65 | the first frame rate is the fastest step within the setting's cap, 30 for low bandwidth or 60 |
| Adapter.ReachesTheBottom | crates/session/src/adapt.rs:160-171 | unbroken congestion ends at minimum bitrate, 15 fps and 33 percent |
| Adapter.NeverOvershootsExactlyWhen | crates/session/src/adapt.rs:160-191 | for every setting, the bitrate stays within its maximum in all runs if and only if no manual bitrate below 300 is combined with an automatic frame rate |
| Adapter.Hysteresis | crates/session/src/adapt.rs:134-157 | for every setting and run, changes are at least 1.5 s apart and an improvement at least 5 s after any change |
| Adapter.RecoversExactlyWhen | crates/session/src/adapt.rs:136-183 | for every adaptive setting, whichever dimensions are manual, and after any history: six clean samples a second apart for each step of recovery restore the exact starting target if and only if a manual bitrate has not been lost, and the frame rate can recover and started at the top, or cannot and is where it started |
| Adapter.FullRecovery | crates/session/src/adapt.rs:136-183 | after any history, with an automatic bitrate, and a frame rate that is manual or starts at the top with a maximum of at least twice the minimum, they always do |
| Adapter.CongestionCostsManualBitrate | crates/session/src/adapt.rs:160-191 | with a manual bitrate above 300, a manual frame rate and an automatic resolution, one congested sample costs bitrate that no later run brings back |
| Adapter.StartsAtTop | crates/session/src/adapt.rs:57-65 | every preset but the low-bandwidth one starts at the top rate |
| Broker.Broker.Install | crates/service/src/broker.rs:182-196 | the slot is taken, unless somebody was faster: then the new agent is stopped |
| Broker.Broker.StartAgent | crates/service/src/broker.rs:290-353 | an agent that fails its handshake is stopped |
| Broker.Broker.Find | crates/service/src/broker.rs:200-208 | the live grant with this token and process, or why not |
| Broker.Broker.EndGrant | crates/service/src/broker.rs:119-124 | empties the slot, whatever it holds, and stops its agent |
| Broker.Broker.SweepCheck | crates/service/src/broker.rs:105-112 | a grant is dead after more than 10 s without a heartbeat, or when its agent is |
| Elevation.StepKeepsSafe | crates/service/src/broker.rs:105-232 | every critical section of any connection or the watchdog keeps the invariant |
| Elevation.EveryInterleavingIsSafe | crates/service/src/broker.rs:3-8 | in every interleaving the one grant belongs to a connection still there, every agent is accounted for, and every relayed request carried its grant's token and process |
| Elevation.OnePlaceEach | crates/service/src/broker.rs:168-198 | every agent ever started is stopped, in the slot, or held by exactly one request in flight, and only one of these |
| Elevation.ExitLeavesNothing | crates/service/src/server.rs:156-160 | right after the last act of a connection that owned a grant, no grant of its process is installed |
| Elevation.LapsedGrantIsRemoved | crates/service/src/broker.rs:105-117 | a sweep that finds no heartbeat for more than 10 s removes that grant, whatever runs between its look and its act |
| Heartbeats.JudgedExactlyWhen | crates/service/src/broker.rs:105-112 | in every interleaving the watchdog judges the installed grant dead if and only if its agent is dead or more than 10 s have passed since the later of its installation and the last heartbeat completed by a connection with its token and process |
| Heartbeats.KeptAliveIsNeverJudged | crates/service/src/broker.rs:227-232 | in every interleaving a grant whose agent lives and whose last sign is never older than 10 s at a look is never judged, and no sweep ends it |
| Heartbeats.SilenceIsNoticed | crates/service/src/broker.rs:105-117 | in every interleaving, after more than 10 s of silence the watchdog judges the grant and ends it |
| Heartbeats.HolderCanBeat | crates/service/src/broker.rs:227-232 | in every interleaving a holder's heartbeat needs only its own two sections to count |
| Elevation.JudgedGrantStandsExactlyWhen | crates/service/src/broker.rs:214-226 | whoever decided to end the installed grant still finds it if and only if nobody emptied the slot meanwhile |
| Elevation.RevokeStopsAnotherExactlyWhen | crates/service/src/broker.rs:214-218 | after any steps of the others, a checked revocation stops another grant's agent if and only if meanwhile the slot was emptied, a grant was installed, and nothing emptied the slot since |
| Elevation.DeadForever | crates/service/src/broker.rs:200-212 | a grant that ended never comes back, and its token is refused for ever |
| Elevation.RevokeCanEndAnother | crates/service/src/broker.rs:214-218 | a run in which a revocation ends another process's grant |
| ServiceServer.Connection.RequestGrant | crates/service/src/server.rs:95-108 | a grant request is its critical sections in sequence, with the reply they imply |
| ServiceServer.Connection.AttachTo | crates/service/src/server.rs:109-118 | joining needs the live token of the same process |
| ServiceServer.Connection.RequestRevoke | crates/service/src/server.rs:119-125 | check and end, and the token is dropped either way |
| ServiceServer.Connection.SendHeartbeat | crates/service/src/server.rs:126-129 | only the live grant's own holder keeps it alive |
| ServiceServer.Connection.RelayInput | crates/service/src/server.rs:130-134 | input reaches the agent only after the check |
| ServiceServer.Connection.Close | crates/service/src/server.rs:155-161 | the exit path of an owner leaves no grant of its process |
| GrantTokens.EveryTokenIsHonest | crates/service/src/server.rs:95-118 | in every interleaving a connection carries only tokens issued to its own process, and counts as an owner only after a grant of its own was installed |
| GrantTokens.TokensAreTheRuns | crates/service/src/server.rs:95-125 | in every interleaving a connection carries the token of the last grant it installed or joined, unless it has revoked since |
| GrantTokens.SlotIsTheRuns | crates/service/src/broker.rs:119-196 | in every interleaving the slot holds the last grant installed, until a revocation, an owner's exit or the watchdog empties it |
| GrantTokens.StoppedExactlyWhen | crates/service/src/broker.rs:119-188 | a step stops an agent if and only if it failed its handshake, came too late for the slot, or was in the slot when that was emptied |
| GrantTokens.GrantedExactlyWhen | crates/service/src/server.rs:95-108 | a request is granted if and only if the connection carries no token, nothing is installed, and an agent came up and proved itself; otherwise nothing changes but that its agent is stopped |
| GrantTokens.GetsThroughExactlyWhen | crates/service/src/server.rs:126-134 | input and heartbeats get through if and only if the connection carries the token of the installed grant of its process, and else the reply says why |
| GrantTokens.JoinAndRevokeExactlyWhen | crates/service/src/server.rs:109-125 | joining succeeds exactly with the installed grant's token and process; a revocation ends the grant exactly for its holder, and drops the token in any case |
| GrantTokens.ExitTakesTheGrantExactlyWhen | crates/service/src/server.rs:155-161 | a connection that ends takes the installed grant with it if and only if it ever owned one and that grant is its process's |
| Files.IncomingFile.constructor | crates/files/src/lib.rs:117-136 | the part file is reused unless longer than the file, and the returned offset is its length |
| Files.OpenIncoming | crates/files/src/lib.rs:105-108 | refuses exactly a file announced larger than the limit, and then touches nothing |
| Files.IncomingFile.WriteChunk | crates/files/src/lib.rs:139-147 | accepts exactly a chunk that continues the file and fits; a failing disk leaves a prefix |
| Files.IncomingFile.Finish | crates/files/src/lib.rs:149-164 | succeeds if and only if length and digest match and the system flushes, reads and moves; a wrong digest removes the part file, and every other failure keeps it |
| Files.OutgoingFile.SeekTo | crates/files/src/lib.rs:204-208 | continues from the given offset |
| Files.OutgoingFile.NextChunk | crates/files/src/lib.rs:210-221 | the next bytes with their offset, or the end |
| Transfer.FlowsPop | crates/session/src/transfer.rs:541-577 | the first message of a gapless stream continues it exactly, and the rest is gapless |
| FileSender.StreamFile | crates/session/src/transfer.rs:526-577 | streams the file from the requested offset in chunks of at most 64 KiB without a gap, then its digest |
| FileReceiver.FileReceiver.OnOffer | crates/session/src/transfer.rs:403-409 | an offer waits for an answer, unless the file is too large |
| FileReceiver.FileReceiver.Decline | crates/session/src/transfer.rs:310-327 | an offer is answered at most once |
| FileReceiver.FileReceiver.StartIncoming | crates/session/src/transfer.rs:448-490 | resumes a part file that is there and tells the sender where to continue, or refuses |
| FileReceiver.FileReceiver.OnChunk | crates/session/src/transfer.rs:579-598 | writes a chunk of the open file or closes it |
| FileReceiver.FileReceiver.OnDone | crates/session/src/transfer.rs:600-627 | verifies, moves into place, removes or keeps, and answers |
| FileReceiver.FileReceiver.OnWithdraw | crates/session/src/transfer.rs:365-374 | a transfer the sender cancels keeps its part file |
| FileReceiver.FileReceiver.Abort | crates/session/src/transfer.rs:267-282 | a transfer cancelled at the receiver keeps its part file, and the sender is told |
| TransferSafety.StepKeeps | crates/session/src/transfer.rs:448-627 | every step of either side, of the network and of a failing disk keeps the invariant |
| TransferSafety.EveryStreamedMessageFits | crates/session/src/transfer.rs:526-598 | across any interruptions the part file is as long as what was received, and every chunk or Done that reaches it continues it exactly |
| TransferSafety.OnlyTheSourceArrives | crates/files/src/lib.rs:149-164 | nothing but the source, byte for byte, is ever moved into place, whatever was left on disk |
| TransferSafety.FinishSucceedsExactlyWhen | crates/files/src/lib.rs:104-164 | across any interruptions a finished file is accepted if and only if the system flushes, reads and moves it, and the part file found at the start was absent, a prefix of the source or longer, or one was rejected before |
| TransferSafety.TooLargeTouchesNothing | crates/session/src/transfer.rs:403-409 | a file over the receiver's limit is only ever refused, and nothing on disk is touched |
| TransferProgress.AttemptDelivers | crates/session/src/transfer.rs:388-627 | from any quiet moment and in reads of any lengths, an undisturbed attempt sends exactly the bytes the part file lacks; then the file is in place and the part file gone, or, if that was not usable, it is thrown away |
| TransferProgress.TwoAttemptsDeliver | crates/session/src/transfer.rs:301-314 | whatever was left on disk and whatever has happened: a new session and at most two undisturbed attempts put the source in place |
| TransferStops.StoppedSendsAtMostOne | crates/session/src/transfer.rs:536-577 | a stopped attempt sends at most one more message, the chunk it was reading or the digest it was computing |
| TransferStops.StrayGoesOut | crates/session/src/transfer.rs:536-577 | that message may indeed still go out: the next chunk, or the digest if everything had been read |
| TransferStops.OnlyPiecesAreSent | crates/session/src/transfer.rs:541-565 | in every run, every chunk under way is a piece of the source, not empty and at most 64 KiB |
| TransferStops.CancelEndsBothSides | crates/session/src/transfer.rs:267-282 | a cancellation by the sender ends an attempt under way; the other side closes that attempt's part file and no other, and keeps it |
| TransferStops.OneOfferAtATime | crates/session/src/transfer.rs:217-224 | with an attempt under way nothing else is offered; otherwise a new one is, under an id never used |
| TransferStops.OfferWaitsExactlyWhen | crates/session/src/transfer.rs:388-434 | an offer waits for an answer if and only if the file is not too large; otherwise the sender hears a refusal, and its attempt is over |
| TransferStops.ApprovalOpensExactlyWhen | crates/session/src/transfer.rs:436-490 | a waiting offer is accepted if and only if the file is not too large: a part file no longer than the file is continued at its end, and otherwise a new one begun |
| TransferStops.RefusalEndsBothSides | crates/session/src/transfer.rs:267-335 | a refusal or a cancellation at the receiver ends the attempt at both ends and leaves the disk alone |
| TransferStops.ChunkIsWrittenExactlyWhen | crates/session/src/transfer.rs:579-598 | a chunk that does not continue the file is not written at all, and one the disk cannot take as far as it goes; either ends the attempt at both ends and keeps the part file, and any other is written whole |
| TransferStops.LateMessagesAreThrownAway | crates/session/src/transfer.rs:579-606 | what has no open part file of its own changes nothing |
| TransferStops.FinishLeaves | crates/files/src/lib.rs:149-164 | exactly when a finished file is put in place, when its part file is thrown away, and when it is kept, and what the sender hears |
| TransferStops.LostConnectionKeepsTheDisk | crates/session/src/transfer.rs:284-299 | in every orderly state a lost connection forgets everything but the disk, where the chunk being written may be cut short |
| PartSharing.FinishedFileIsSafeExactlyWhen | crates/files/src/lib.rs:139-164 | with any number of transfers of one name, a file moved into place stays as verified, whatever is sent, if and only if no open transfer has anything left to write to it |
| PartSharing.OneAtATimeIsSafe | crates/session/src/transfer.rs:448-490 | if no transfer ever starts on a part file another one has open, every file moved into place stays as verified |
| PartSharing.VerifiedFileIsOverwritten | crates/session/src/transfer.rs:448-490 | for any two files of one size, a run of the code in which the first is verified and every byte of it is then replaced by the second |
| PartAlone.AloneIsPlain | crates/session/src/transfer.rs:448-627 | after any run in which no transfer starts on a part file another one has open: seen through the file's two names, the start, chunks and end of its transfer do exactly what the plain receiver does, and transfers under other names do nothing |
| PartAlone.WrittenByteByByte | crates/files/src/lib.rs:139-147 | after a write, what was written stands where it was written, the rest of the file is as it was, and a gap before it is zeros |
| PartReceiver.PartReceiver.StartIncoming | crates/session/src/transfer.rs:448-484 | with a file in place or not and any number of transfers open: a part file is resumed only if no file is in place, and otherwise a new file is begun |
| PartReceiver.PartReceiver.OnChunk | crates/files/src/lib.rs:139-147 | writes where its own handle points, and nowhere else |
| PartReceiver.PartReceiver.OnDone | crates/files/src/lib.rs:149-164 | verifies and moves what bears the part name by then |
| Clipboard.ClipboardSync.PollLocal | crates/input/src/clipboard.rs:70-91 | what a look at the clipboard sends and remembers |
| Clipboard.ClipboardSync.ApplyRemote | crates/input/src/clipboard.rs:93-104 | remote content is written and remembered; oversized content changes nothing |
| Clipboard.NeverEchoes | crates/input/src/clipboard.rs:3-4 | whatever arrives, a peer sends, in order and once each, only its own user's copies, what was there at the start, and what a failed write left standing |
| Clipboard.NoPingPong | crates/input/src/clipboard.rs:70-104 | of two connected peers each sends at most one message for each copy of its own user, each write its own system refused, and what was there at the start |
| Clipboard.CopyIsSentExactlyWhen | crates/input/src/clipboard.rs:77-90 | a copy is sent at the next look if and only if it is sendable, not the last thing sent or received, and not suppressed |
| ClipboardMemory.MemoryIsTheRuns | crates/input/src/clipboard.rs:70-104 | over every run, what is remembered is the counter last seen, the last content sent or received, and the received content whose echo is still awaited |
| ClipboardMemory.LookSendsExactlyWhen | crates/input/src/clipboard.rs:70-91 | over every run a look sends what the clipboard shows if and only if the counter has moved since it was last seen, the content is neither empty nor too large, was not the last to cross, and no echo of it is awaited |
| ClipboardMemory.UnmovedLookIsIdle | crates/input/src/clipboard.rs:70-74 | over every run a look at a clipboard that has not moved changes nothing |
| ClipboardMemory.UnwrittenIsNotSentBack | crates/input/src/clipboard.rs:93-104 | what was received but could not be written is not sent back when the user copies it |
| Clipboard.OldSuppressionSwallowsACopy | crates/input/src/clipboard.rs:82-85 | a run in which a genuine copy is not sent |
| AnnexB.ScanStarts | crates/codec/src/annexb.rs:5-14 | the scan finds every start code and nothing else |
| AnnexB.UnitEnd | crates/codec/src/annexb.rs:19-23 | trailing zeros are cut off a unit |
| AnnexB.SplitNals | crates/codec/src/annexb.rs:3-27 | the buffer's units in order |
| AnnexB.SplitUndoesFrame | crates/codec/src/annexb.rs:3-27 | splitting undoes framing with start codes of three, four or more bytes (section B.1 of ITU-T H.264) |
| AnnexB.SplitLosesOnlyCodesAndZeros | crates/codec/src/annexb.rs:3-27 | for any bytes at all, the units with their start codes and zeros put back are the input |
| AnnexB.NalTypes | crates/codec/src/annexb.rs:29-36 | the types of the non-empty units, in order |
| AnnexB.EveryUnitHasItsType | crates/codec/src/annexb.rs:29-36 | a framed stream has one type per unit: the one its header says |
| AnnexB.TypesAreHeaderBits | crates/codec/src/annexb.rs:29-36 | the type is the low five bits of the header in H.264 and bits one to six in HEVC, whatever the other bits are |
| CodecStrings.SplitNals | apps/desktop/src/lib/codec.ts:3-16 | the viewer's splitter finds the same units as the sender's |
| CodecStrings.Unescape | apps/desktop/src/lib/codec.ts:18-26 | drops every three after two zeros |
| CodecStrings.UnescapeUndoesEscape | apps/desktop/src/lib/codec.ts:18-26 | unescaping undoes the escaping of section 7.4.1 of ITU-T H.264, for every payload |
| CodecStrings.EscapedIsClean | apps/desktop/src/lib/codec.ts:18-26 | escaped payloads contain no start code |
| CodecStrings.AnnexBRoundTrip | apps/desktop/src/lib/codec.ts:3-26 | for all payloads that do not end in zero: escape, frame, split, unescape gives them back |

## Left out

- InputMeaning.DroppingMovesNeverChangesMeaning: assumes that the slot is taken only while what waits in the channel may be passed, which the code does not enforce; exactly what happens otherwise is in `InputGap`.
- InputThread.InputThread.WakeUp: the permission check stands for everything that decides whether an event is applied; a missing display, the elevated route and acknowledgements are not modelled.
- The limiters of registrations, failed logins and administrators, which nothing else in the hub asks; the limiter itself is `AttemptLimiter`.
- FileReceiver.FileReceiver.StartIncoming: called with no file in place and no other attempt open; for those cases see `PartReceiver`, whose proofs follow files and names but not the messages.
- Files.IncomingFile.constructor: names the system refuses, and failures to create or read the part file, are not modelled.
- Lanes.UnitsFit: covers video and bulk units; a control message always travels whole, however long it is.
- Rounding: 64-bit floating point in the bucket, the shaper and the controller is modelled by real numbers and exact fractions; growth by 15 percent is any function that makes progress from 300 kbit/s up.
- Throughput: only upper bounds are proved; bulk sent at an unlimited rate is still charged, and how long the bucket then stays in debt is not stated.
- Queue-delay and round-trip statistics, acknowledgements, and the choice between normal and elevated injection on the host's input thread.
- Control messages that fail to encode: the writer skips them; the model has none.
- Exhaustion of the 32-bit counters for dropped moves and clean samples.
- Cryptography: SPAKE2, HKDF, SHA-256 and ChaCha20-Poly1305 are idealised, and the handshake is not modelled.
- The device database, password checks, notifications and WebSocket sending of the hub, and the generation of ids.
- The limit of eight service connections, the checks of the caller's executable, console session and installation directory, and the agent's own pipes.
- File names: sanitising, folders and the 10,000-name fallback; a file is followed under one name.
- Transfers in a list: pausing, queueing limits, speed, and progress events; a queued transfer may wait for ever.
- Changes of the source file while it is sent, and a failed read at the sender, after which only a new session tries again.
- Convergence of the two clipboards, which the code does not promise.
- Video packet layout, codec strings beyond splitting and unescaping, output size, and all capture, encoding, injection, desktop, settings and user-interface code.

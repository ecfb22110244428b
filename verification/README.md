# Verified model of Agent Work OS

A Dafny model of the parts of Agent Work OS that keep several processes, machines and agents in step, with proofs
about all of their runs. `dafny verify dfyconfig.toml` checks the whole project.

Asynchronous JavaScript runs without interruption between two awaits, so the models step from await to await; every
SQL statement, or every transaction where the code opens one, is one step; a transaction that claims commands is two,
because its SELECT locks rows. Everything else may interleave. Timers and the network become nondeterministic steps,
clocks become values that never go back, and SHA-256 is an injective function. Where the code updates fields in place there is a class, proved equal to a specification function; what the
code promises is then proved about that function and about whole runs of it.

| module | what it models |
|---|---|
| `RealtimeClients`, `RealtimeFanout`, `RealtimeDelivery`, `RealtimeLosses`, `RealtimeSockets` | the shared event log, the polling drain of one API instance, and the snapshot, replay and live delivery of each client connection |
| `PublishQueue` | the bounded queue that feeds the event log, and its overflow markers |
| `RealtimeEndToEnd` | the two joined: from a publish call to the client |
| `CommandRows`, `CommandOutbox`, `CommandDispatch`, `CommandRouter` | the daemon command protocol: the command table, the runs of any number of instances with their connections, polls, leases, failure reconciliation and close, what one instance can bring about, and the router's own methods |
| `CommandReceipts`, `SessionEvents` | the daemon's receipt cache, and the events the protocol leaves in sessions |
| `ShippingLog`, `ShippingSupervisor`, `ShippingProofs` | the release loop with its nested repairs, and its hash-chained run log and receipts |
| `WorkItems`, `JsonWorkItems`, `PostgresWorkItems` | the work-item command log as a specification, and the two repositories that implement it |
| `WebSocketFraming` | the frame codec of section 5.2 of RFC 6455 and the buffered receive loop |
| `CapabilityInstall` | installing a capability over existing files and rolling it back |
| `SessionHandoff` | serializing a session for another agent and parsing it back |
| `RateLimit` | the fixed-window limiter of sign-in attempts |

## What was found

Each of these is a lemma with a concrete run, next to the theorem that holds instead.

- A gap raised while a client is resyncing is not remembered: `resyncClients` passes the client by
  (services/control-api/src/index.js:111) and an update can be lost (`GapDuringResyncLosesUpdate`).
- A client that resumes from a cursor while another instance has an insert in flight that `lastEventId` has already
  passed never gets that event (`ReplayBesideInsertLosesUpdate`).
- These two and a skipping drain are the only ways: in every run, an event that is due and concerns a client is
  missing if and only if one of the three took it past the client and no new resync of the client began since
  (`NoLostUpdate`, `MissedExactly`). A gap does so exactly when the resync had read the tables before the event's state
  was written, or ends its replay before the event (`TooLateForResync`).
- The drain can skip an event silently: the bounds query sees a table that retention has emptied and a new row commits
  before the rows query (`EmptiedTableSkipsEvent`). A batch skips something exactly when the newest event pruned before
  the rows were read is beyond `lastEventId` and no gap is raised (`SkipsExactlyInARace`).
- After a failed release repair the supervisor redeploys without verifying
  (services/control-api/src/shipping-supervisor.js:114), although docs/SHIPPING_OS.md:15 promises repair, verification,
  redeploy (`RedeployAfterFailedRepair`); this happens exactly on runs in which a release repair failed
  (`RedeployedOnlyVerified`).
- A capability that contains a file called `install-receipt.json` loses that file's backup to the install receipt, and
  its rollback stops with a digest mismatch (`ReceiptNameLosesBackup`). A rollback restores everything exactly when no
  backup is overwritten with something else (`RollbackRestores`). A rollback that stopped does not resume: it takes the
  files it restored itself for drift (`StoppedRollbackDoesNotResume`).
- A retry announced by the rate limiter can be rejected once more (`PunctualRetryCanBeRejected`). A lone retry is
  admitted if and only if it comes at or after the end of the window (`LoneRetryIsAdmitted`); made exactly at the
  announced time it is rejected if and only if a whole number of seconds was left and the cut to milliseconds took more
  from the window's start than from the clock (`PunctualRetry`). Others can use up the new window first
  (`CrowdedRetryCanBeRejected`).
- A transition sent before its item exists is answered "missing" and commits when it is retried after the creation, so
  a retried request sequence need not end like its de-duplicated form (`EarlyTransitionRetryCommits`). It does if and
  only if no retry meets what a commit needs when its turn comes: a new command id, and a missing item to create or a
  visible one at the expected version with a legal move (`RetriesAreInvisible`).
- A WebSocket peer that has closed goes on reading frames from the next packet, so packet boundaries can show after an
  early stop, in the outputs or in the bytes left in the buffer (`SplitAtStopShows`).
- Two tool calls with one id come back from a handoff with one result (`ReusedIdChangesResult`).

## Model

| member | source | states |
|---|---|---|
| RealtimeDelivery.NoLostUpdate | services/control-api/src/index.js:60-206 | In every run, for every client: a committed event up to lastEventId that concerns it was sent, is in its buffer, is covered by its first cursor or last finished snapshot, or is on its way with the resync in progress, if and only if none of the three mishaps took the event past the client since its last resync began. |
| RealtimeDelivery.MissedExactly | services/control-api/src/index.js:109-115 | Over every run the missed ids are those of the mishaps since the client last began to read, all of them and no others. |
| RealtimeDelivery.SettledClientHasEverything | services/control-api/src/index.js:77-96 | A client that is no longer resyncing was sent such an event or had its state write covered, if and only if no mishap hit it. |
| RealtimeDelivery.StepMisses | services/control-api/src/index.js:109-115 | A step makes a client miss an event exactly in one of three cases: a gap over it during a resync that read too early, a batch that skips it, a replay whose bounds are read while it is in flight behind lastEventId. |
| RealtimeDelivery.TooLateForResync | services/control-api/src/index.js:109-115 | When a resync in progress does not bring an event that a gap passes: exactly if the tables were read before its state was written, or the replay ends before it. |
| RealtimeDelivery.EveryConnectionIsInOrder | services/control-api/src/index.js:117-141 | In every run each event sent on a connection is beyond its position at that moment; a user's connection never carries an event of an organization the user is not in, one without an organization, or a marker. |
| RealtimeClients.BeyondEverythingBefore | services/control-api/src/index.js:77-206 | Between two snapshots event ids strictly increase and exceed the last snapshot and replay cursors. |
| RealtimeClients.DeliveryByMembership | services/control-api/src/index.js:124-138 | A live event leaves a stranger's connection as it is; a legacy client or a member of its organization is sent it, or has it buffered while resyncing, unless the client is past it. |
| RealtimeClients.ReplayKeepsWire | services/control-api/src/index.js:181-198 | A finished replay keeps the order although replayed and pending events overlap, and sends nothing the client may not see. |
| RealtimeClients.SnapshotKeepsWire | services/control-api/src/index.js:77-96 | So does a finished snapshot. |
| RealtimeDelivery.StepKeepsInv | services/control-api/src/index.js:60-206 | Every step of writers, pruning, drain and connections keeps the invariants of log, drain and each client. |
| RealtimeDelivery.EveryRunKeepsInv | services/control-api/src/realtime-events.js:302-350 | So does every run from a started instance. |
| RealtimeDelivery.FinishSnapshotKeepsClient | services/control-api/src/index.js:77-96 | Finishing a resync loses nothing: what it drops from the buffer is older than the snapshot's cursor, so its state was read. |
| RealtimeDelivery.FinishReplayKeepsClient | services/control-api/src/index.js:173-206 | Finishing a replay loses nothing although replayed, pending and live events overlap. |
| RealtimeDelivery.ReplaySends | services/control-api/src/index.js:181-198 | All replayed rows the client may see and all pending events beyond the replay cursor are sent. |
| RealtimeDelivery.SnapshotSends | services/control-api/src/index.js:77-96 | All pending events beyond the snapshot's cursor are sent, and the position ends at the larger of cursor and last event. |
| RealtimeDelivery.HandedKeepsClient | services/control-api/src/realtime-events.js:338-342 | Of the ids a handed row newly passes, a client is told of all but the overlooked ones. |
| RealtimeDelivery.DrainAccountsForEveryEvent | services/control-api/src/realtime-events.js:302-350 | Every event lastEventId has passed was handed on, or jumped by a raised gap, or skipped: exactly one of the three. |
| RealtimeDelivery.DrainSkipsNothing | services/control-api/src/realtime-events.js:310-342 | A run without a race skips nothing, whatever the writers, rollbacks, burnt ids and pruning do. |
| RealtimeFanout.SkipsExactlyInARace | services/control-api/src/realtime-events.js:310-342 | A batch skips an event if and only if the newest event pruned before the rows query is beyond lastEventId and no gap is raised. |
| RealtimeFanout.RacesAreRare | services/control-api/src/realtime-events.js:311-333 | That takes a deletion between the two queries, or a table seen empty below the high-water mark and filled again. |
| RealtimeFanout.GapExactlyOverHole | services/control-api/src/realtime-events.js:321-336 | A gap is raised exactly when some id right behind lastEventId was missing before the table's first row when the bounds were read, or when no rows are left below the sequence's last value; otherwise nothing is jumped. |
| RealtimeFanout.RowsAreHandedOn | services/control-api/src/realtime-events.js:338-342 | Without such a hole every row of a batch is handed on, in order, up to the last. |
| RealtimeFanout.RowsReadAreNext | services/control-api/src/realtime-events.js:317-320 | A batch is what the table has beyond lastEventId: all of it, or its first 500 rows. |
| RealtimeDelivery.JumpedExactly | services/control-api/src/realtime-events.js:321-336 | Over every run an id is jumped if and only if some step raised a gap over it for one of those two reasons. |
| RealtimeFanout.ReplayServedExactly | services/control-api/src/realtime-events.js:106-138 | A replay is served exactly when the cursor is in the table's reach and at most maxEvents plain events lie beyond it, and gets them all. |
| RealtimeFanout.ReplayedOrResynced | services/control-api/src/index.js:173-180 | So a client that comes back is replayed with up to 5000 events, and otherwise resynced. |
| RealtimeFanout.DrainStepKeepsFanout | services/control-api/src/realtime-events.js:302-350 | Each step of the drain keeps the classification of all passed ids. |
| RealtimeFanout.StepKeepsLog | services/control-api/src/realtime-events.js:140-160 | The advisory write lock makes commit order the order of the ids. |
| RealtimeFanout.ReplayIsExact | services/control-api/src/realtime-events.js:106-138 | Without a gap, replayAfter returns exactly the events ever committed beyond the cursor, pruned ones included, in order, no marker, at most maxEvents. |
| RealtimeFanout.RetainedCursorIsServed | services/control-api/src/realtime-events.js:106-138 | A cursor still in the table with few enough plain events behind it is never answered with a gap. |
| RealtimeLosses.GapDuringResyncLosesUpdate | services/control-api/src/index.js:109-115 | A run from a started instance in which a gap mid-resync loses an update for good. |
| RealtimeLosses.ReplayBesideInsertLosesUpdate | services/control-api/src/index.js:173-206 | A run in which a resumed client misses an event that was in flight when the instance started. |
| RealtimeLosses.EmptiedTableSkipsEvent | services/control-api/src/realtime-events.js:310-342 | A run in which the drain skips a committed event without a gap. |
| RealtimeSockets.ClientSockets.BroadcastLocal | services/control-api/src/index.js:117-141 | The loop over the connections changes nothing for a user outside the event's organization, sends or buffers it for every member and legacy client that is not past it, and drops exactly the clients whose socket breaks under the write. |
| RealtimeSockets.ClientSockets.ResyncClients | services/control-api/src/index.js:109-115 | Starts a resync for every client that is not in one. |
| RealtimeSockets.ClientSockets.FinishClientResync | services/control-api/src/index.js:77-96 | The shift loop computes the specified flush, or drops a broken client. |
| RealtimeSockets.ClientSockets.FinishReplay | services/control-api/src/index.js:181-198 | The two loops compute the specified replay, or drop a broken client. |
| RealtimeSockets.EventDrain.Handle | services/control-api/src/realtime-events.js:321-342 | The code after the three queries: beyond a missing id it jumps to the last one and resyncs all, without rows it jumps to the sequence's last value or rests, else it hands on every row in order. |
| RealtimeSockets.BatchIsRowByRow | services/control-api/src/realtime-events.js:338-342 | A handled batch does to each working client what the row steps of the run model do. |
| PublishQueue.EventQueue.Publish | services/control-api/src/realtime-events.js:82-99 | Accepts only what keeps the queue within its two limits, starts an overflow or drops otherwise, says what the queue then is, starts a flush, and keeps the record of all calls. |
| PublishQueue.EventQueue.Flush | services/control-api/src/realtime-events.js:213-245 | Starting a flush keeps the record; only one flush runs. |
| PublishQueue.EventQueue.Advance | services/control-api/src/realtime-events.js:219-230 | The marker of an overflow is queued exactly when the queue has run empty. |
| PublishQueue.EventQueue.TransactionCommits | services/control-api/src/realtime-events.js:140-160 | A commit stores the head once, also when an earlier attempt had stored it unheard. |
| PublishQueue.EventQueue.PersistReturns | services/control-api/src/realtime-events.js:229-237 | A heard commit moves exactly the head to the stored ones and goes on; a failure keeps the queue and ends the flush. |
| PublishQueue.EventQueue.CloseEnds | services/control-api/src/realtime-events.js:162-203 | Dropping the queue at the deadline leaves what is stored as it was. |
| PublishQueue.EventQueue.AnotherInstanceInserts | services/control-api/src/realtime-events.js:145-151 | Rows of other instances do not disturb the record. |
| PublishQueue.EventQueue.QueueRefinesCalls | services/control-api/src/realtime-events.js:82-99 | Stored rows, then the queue, then the marker still owed, are exactly the publish calls with each overflow replaced by one marker in its place. |
| PublishQueue.EventQueue.IdleQueueHasStoredAll | services/control-api/src/realtime-events.js:213-245 | An idle queue has stored everything it took, each event once. |
| PublishQueue.EventQueue.TableIsAlwaysAPrefix | services/control-api/src/realtime-events.js:189-193 | Even after dropped events, the table holds a beginning of what was published. |
| PublishQueue.InsertKeeps | services/control-api/src/realtime-events.js:145-151 | The conflict clause on the event key makes a repeated insert harmless. |
| RealtimeEndToEnd.EveryCallArrives | services/control-api/src/realtime-events.js:82-99 | Every publish call whose payload is stored, the calls dropped in an overflow included, has reached each settled client as its event, or in a snapshot or starting cursor, unless a mishap took its row past the client; a dropped call concerns every client and only a snapshot can bring it. |
| RealtimeEndToEnd.EveryCallHasPayload | services/control-api/src/realtime-events.js:219-227 | Each call has exactly its payload among those written; all calls dropped in one overflow share its marker. |
| CommandRows.UpdateIsSafe | services/control-api/src/daemon-command-router.js:50-149 | Whatever statement hits a row: verdicts and completed reconciliations are final, only a matching owner's acknowledgement gives a verdict, only an instance's own claim gives it a lease. |
| CommandRows.LeaseIsSafe | services/control-api/src/daemon-command-router.js:94-97 | Until its time no statement but the holder's own return, acknowledgement or close changes the status, owner or lease of a dispatched command. |
| CommandRows.ReconciliationIsSafe | services/control-api/src/daemon-command-router.js:151-158 | The same for a reconciliation lease. |
| CommandRows.OldLeaseIsSwept | services/control-api/src/daemon-command-router.js:94-97 | From its time on the sweep of any instance ends a lease of either kind. |
| CommandRows.HoldersAckCounts | services/control-api/src/daemon-command-router.js:50-65 | The holder's acknowledgement for the command's machine gives the verdict, the error text cut to 2000 characters and the reconciliation status; any other changes nothing. |
| CommandRows.OldestFifty | services/control-api/src/daemon-command-router.js:104-113 | Written out: at most fifty, all when there are fewer, and nothing left out comes before anything taken. |
| CommandRows.ExecuteFollows | migrations/008_daemon_commands.sql:38-67 | The same for a whole table, trigger included: each row by itself, no row disappears, and an insert never overwrites. |
| CommandRows.SomeIsOldest | services/control-api/src/daemon-command-router.js:104-113 | The ordered SELECT with its limit of 50 always has an answer: the oldest rows it may return, all of them when they are fewer. |
| CommandOutbox.EveryRunKeepsInv | services/control-api/src/daemon-command-router.js:45-203 | All invariants of table, instances, messages, daemons and sessions hold in every run of any number of instances and daemons, whatever connects, disconnects, polls, fails and closes. |
| CommandOutbox.StepKeepsInstances | services/control-api/src/daemon-command-router.js:87-127 | Every step keeps the instances in order: no row is in two open transactions, selected rows stay selectable, and a closing instance gives back what it holds. |
| CommandOutbox.VerdictIsFinal | services/control-api/src/daemon-command-router.js:50-65 | An acked or failed row keeps its verdict and error text in every continuation of every run. |
| CommandOutbox.FinishedOnlyByOwnersAck | services/control-api/src/daemon-command-router.js:50-65 | A command finishes only through the current lease owner's acknowledgement of something the daemon began. |
| CommandOutbox.BegunAgainOnlyAfterEviction | runtime/daemon/src/index.js:51-104 | A daemon process begins a command twice only if it completed it and inserted at least maxEntries newer receipts since. |
| CommandOutbox.FailureIsRecordedOnce | services/control-api/src/daemon-command-router.js:151-203 | A failed command whose reconciliation is complete was handled at least once and left exactly one event in its session, or moved its run on. |
| CommandOutbox.FailedStartStaysFailed | services/control-api/src/index.js:146-168 | Re-processing a failed start puts its session back to failed whatever was added in between. |
| CommandOutbox.ClosedHoldsNothing | services/control-api/src/daemon-command-router.js:67-85 | Once close() of an instance has ended, in every continuation it never again holds a lease of either kind, and no acknowledgement of its can match. |
| CommandOutbox.LeaseLasts | services/control-api/src/daemon-command-router.js:94-97 | Over every run, whatever all the others do, a lease of either kind lasts until its own time unless its holder ends it. |
| CommandOutbox.AckInTimeIsAccepted | services/control-api/src/daemon-command-router.js:50-65 | So an acknowledgement that comes back to the holder before that time is accepted. |
| CommandOutbox.ClaimGivesLease | services/control-api/src/daemon-command-router.js:114-122 | A claim of either kind gives its instance the lease for fifteen seconds. |
| CommandOutbox.PollTakesOldest | services/control-api/src/daemon-command-router.js:104-113 | A poll takes the oldest fifty pending commands of the machines connected when it began, skipping locked rows. |
| CommandOutbox.DuplicateIsAnswered | runtime/daemon/src/index.js:61-68 | A daemon answers a command it has finished with the receipt it remembers, and begins a new one. |
| CommandOutbox.FailureIsShown | services/control-api/src/index.js:146-168 | What the first handling of a failure leaves where the user sees it: a failed session, an error event with the text, or a failed run. |
| CommandDispatch.OpenInstanceComesToHold | services/control-api/src/daemon-command-router.js:87-149 | From every reachable state an open instance connected to the machine of an unfinished command can come to hold and send it, by its own polls and time alone, after at most the end of another transaction that has the row locked. |
| CommandDispatch.EveryCommandCanFinish | services/control-api/src/daemon-command-router.js:50-149 | From every such state the command can come to its verdict: sent, begun or answered from the cache, acknowledged and accepted. |
| CommandDispatch.ItsTurnComes | services/control-api/src/daemon-command-router.js:97-142 | Poll after poll the oldest fifty are claimed and sent, until it is the turn of any given command. |
| CommandDispatch.ComesToRest | services/control-api/src/daemon-command-router.js:87-149 | Whatever a poll is in the middle of, it can end without touching a lease. |
| CommandRouter.Router.Enqueue | services/control-api/src/daemon-command-router.js:45-49 | Inserts once per command id, pending and unleased, and leaves a stored one as it is; refuses exactly after close or for an id that is no UUID. |
| CommandRouter.Router.AcknowledgeCommand | services/control-api/src/daemon-command-router.js:50-65 | True exactly when this instance holds the lease of that machine's command; otherwise nothing changes. |
| CommandRouter.Router.PollBegins | services/control-api/src/daemon-command-router.js:87-90 | One poll at a time, none after close, for the machines connected at that moment. |
| CommandRouter.Router.ClaimSelected | services/control-api/src/daemon-command-router.js:100-127 | Leases exactly the rows the SELECT returned to this instance: the oldest pending ones of its connected machines that nobody has locked. |
| CommandRouter.Router.CloseReturnsLeases | services/control-api/src/daemon-command-router.js:67-78 | The first statement of close() returns every command lease of this instance and nothing else. |
| CommandRouter.Router.CloseReturnsReconciliations | services/control-api/src/daemon-command-router.js:79-85 | The second returns every reconciliation lease. |
| CommandReceipts.RememberedUntilPushedOut | runtime/daemon/src/command-receipts.js:6-16 | A completed command is in the cache if and only if fewer than maxEntries receipts were inserted after its own, and then answers with its last receipt. |
| CommandReceipts.BegunTwiceOnlyAfterEviction | runtime/daemon/src/command-receipts.js:6-16 | The same, for one process, about a second beginning. |
| CommandReceipts.EveryHistoryIsOk | runtime/daemon/src/command-receipts.js:1-18 | Every history of receives and completions keeps the ledger that these statements rest on. |
| CommandReceipts.CompletedShape | runtime/daemon/src/command-receipts.js:12-16 | Completing inserts at the end, keeps the place of a repeated one, and evicts exactly the oldest. |
| CommandReceipts.CreateCommandReceiptCache | runtime/daemon/src/command-receipts.js:1-5 | Fails exactly for a limit below one; otherwise an empty cache. |
| CommandReceipts.CommandReceiptCache.Begin | runtime/daemon/src/command-receipts.js:6-11 | Duplicate, in flight or new, and only a new one is marked. |
| CommandReceipts.CommandReceiptCache.Complete | runtime/daemon/src/command-receipts.js:12-16 | The eviction loop computes the specified cache. |
| CommandReceipts.Daemon.OnCommand | runtime/daemon/src/index.js:61-73 | Begins a new command, answers a duplicate from the cache, ignores one in flight. |
| CommandReceipts.Daemon.Acknowledge | runtime/daemon/src/index.js:69-73 | Caches the receipt and sends it, one message for one receipt. |
| CommandReceipts.Daemon.OnHandled | runtime/daemon/src/index.js:75-102 | However handling ends, the command is completed with one receipt. |
| SessionEvents.AtMostOnePerCommand | services/control-api/src/store.js:388-428 | Whatever is added, in whatever order, a command id has at most one event in a session. |
| SessionEvents.AddingAgainIsSilent | services/control-api/src/store.js:413-428 | Adding again under the same command id changes nothing, even with another text or time. |
| SessionEvents.RetryRestoresStatus | services/control-api/src/store.js:415-421 | A recorded status is re-asserted by a retry whatever happened in between. |
| SessionEvents.NewEventTakesEffect | services/control-api/src/store.js:413-428 | A new event is kept at the end and changes exactly what its kind is about. |
| SessionEvents.SessionStore.AddEventTo | services/control-api/src/store.js:388-428 | addEvent on the stored session, or null for a missing one. |
| ShippingProofs.ShippedIsEarned | services/control-api/src/shipping-supervisor.js:18-133 | A run that ends SHIPPED ends with a complete passing release of one sha that its probes printed, every required deploy and UAT in order, a full verification after its last successful change, and no event after the terminal one. |
| ShippingProofs.ShippedShaWasPrintedTwice | services/control-api/src/shipping-supervisor.js:95-106 | Under an exact match both probes of that release printed, in white space, the one complete sha that is recorded as tested and deployed. |
| ShippingProofs.AttemptPassesExactly | services/control-api/src/shipping-supervisor.js:62-106 | A release attempt passes if and only if what it did is a complete passing release. |
| ShippingProofs.DifferentShasNeverPass | services/control-api/src/shipping-supervisor.js:97-105 | Two probes that print different shas never end an attempt well. |
| ShippingProofs.ShaOfPrints | services/control-api/src/shipping-supervisor.js:170-176 | resolveSha answers a sha exactly when its probe succeeded and printed it: 7 to 64 hexadecimal digits with only white space around. |
| ShippingProofs.RepairWorkIsBounded | services/control-api/src/shipping-supervisor.js:60-154 | At most R*R + 2R repairs and R + 1 production deployments, and neither fallthrough after a loop is reached. |
| ShippingProofs.BoundsAreTight | services/control-api/src/shipping-supervisor.js:60-154 | Both bounds are reached for every R by a valid contract. |
| ShippingProofs.EverySavedRunIsValid | services/control-api/src/shipping-supervisor.js:184-189 | Every version of the run handed to the store passes verifyShippingRun. |
| ShippingProofs.RedeployedOnlyVerified | services/control-api/src/shipping-supervisor.js:108-119 | Repair, verification, redeploy holds on a run if and only if no release repair failed on it; for successful changes it always holds. |
| ShippingProofs.RedeployAfterFailedRepair | services/control-api/src/shipping-supervisor.js:112-114 | A run that deploys again straight after a failed release repair. |
| ShippingProofs.SuperviseRelease | services/control-api/src/shipping-supervisor.js:18-133 | run() computes the specified run, and on the SHIPPED path the receipt is always issued, for this run. |
| ShippingProofs.Launch | services/control-api/src/shipping-supervisor.js:18-58 | Contract, worktree, build and first verification, blocked when there is no worktree. |
| ShippingSupervisor.Supervisor.VerifyWithRepair | services/control-api/src/shipping-supervisor.js:135-154 | The bounded verify-and-repair loop equals its recursive specification. |
| ShippingSupervisor.Supervisor.ReleaseLoop | services/control-api/src/shipping-supervisor.js:60-133 | The release loop equals its recursive specification. |
| ShippingSupervisor.Supervisor.TryRelease | services/control-api/src/shipping-supervisor.js:62-106 | One release attempt: sha probe, preview gate, production gate, sha match. |
| ShippingSupervisor.Supervisor.RunCommandList | services/control-api/src/shipping-supervisor.js:156-164 | Runs a list up to its first failure. |
| ShippingLog.VerifyShippingRun | services/control-api/src/shipping-receipts.js:79-99 | Reports nothing if and only if the chain, identities, sequence and shas are in order, and otherwise exactly the faults there are. |
| ShippingLog.AppendedKeepsValid | services/control-api/src/shipping-receipts.js:28-50 | Appending keeps a run valid if and only if it does not claim SHIPPED without shas. |
| ShippingLog.AppendedSays | services/control-api/src/shipping-receipts.js:28-50 | An append adds the next event of the chain with what the caller says and changes nothing before it. |
| ShippingLog.FinalDigestDeterminesHistory | services/control-api/src/shipping-receipts.js:79-99 | Two valid runs with equal final digests have equal histories. |
| ShippingLog.ReceiptDeterminesHistory | services/control-api/src/shipping-receipts.js:52-77 | A receipt digest pins down the receipt and the history behind it. |
| ShippingLog.BuildReleaseReceipt | services/control-api/src/shipping-receipts.js:52-71 | Succeeds exactly for a valid shipped run with a golden path, and copies the run's facts. |
| ShippingLog.RestartIsHonest | services/control-api/src/shipping-receipts.js:101-110 | A restart keeps the chain valid, adds at most its own event, and never makes or unmakes SHIPPED. |
| WorkItems.LogIsTheState | services/control-api/src/store.js:191-241 | Each item's events have versions 1..n with chained legal statuses, and replaying them gives the item. |
| WorkItems.EveryLogIsOk | packages/domain/src/index.js:16-25 | Every reachable log is in that order. |
| WorkItems.OneCommitPerVersion | packages/domain/src/index.js:109-122 | Of commands that expect one version of an item at most one commits, and command ids are unique. |
| WorkItems.RejectedStaysRejected | packages/domain/src/index.js:109-122 | A command rejected with an expected version up to the current one can never succeed later. |
| WorkItems.CompleteIsFinal | packages/domain/src/index.js:16-25 | Nothing ever happens to a complete item again. |
| WorkItems.CompleteTookTheWay | packages/domain/src/index.js:16-25 | A complete item was ready, then running, then verifying just before it was completed. |
| WorkItems.OtherOrganizationsSeeNothing | services/control-api/src/store.js:222-223 | A transition of another organization's item is answered like that of a missing one and adds nothing; one of the own organization never is. |
| WorkItems.SameDigest | services/control-api/src/store.js:213-218 | Two requests have one digest exactly when they differ in nothing but command id and times. |
| WorkItems.CreationKeepsDraft | services/control-api/src/store.js:195-210 | A creation leaves the item as drafted, in the backlog at version 1, and an event that says who made it when. |
| WorkItems.MoveChangesStatusOnly | packages/domain/src/index.js:109-122 | A transition changes status, version and time, nothing else, and its event says who moved it and why. |
| WorkItems.RefusalSaysWhy | packages/domain/src/index.js:109-122 | A refused transition of a visible item is told the first of the four reasons that applies. |
| WorkItems.RetryChangesNothing | services/control-api/src/store.js:715-720 | A retry of a settled request changes nothing and gets the original result. |
| WorkItems.RetriesAreInvisible | services/control-api/src/store.js:191-241 | A retried request sequence ends like its de-duplicated form if and only if no retry is acceptable when its turn comes. |
| WorkItems.CommitsWhenAcceptable | services/control-api/src/store.js:195-233 | A request commits exactly when its command id is new and it creates a missing item, or moves a visible one at the expected version to a legal status. |
| WorkItems.SettledRetriesComeLate | services/control-api/src/store.js:191-241 | Requests that settle the first time they are made have harmless retries. |
| WorkItems.EarlyTransitionRetryCommits | services/control-api/src/store.js:213-241 | A transition answered "missing" can commit on its retry. |
| WorkItems.ApplyAdds | services/control-api/src/store.js:191-241 | A request adds nothing, or one event that fits the log, under its own id, digest and item. |
| JsonWorkItems.JsonStore.Mutate | services/control-api/src/store.js:646-654 | One operation of the write chain applies the specification to the log and keeps the item map its state; a refusal is thrown before the file is written, any other answer comes after it. |
| PostgresWorkItems.TransactionsAreAtomic | services/control-api/src/work-item-store.js:37-126 | Interleaved transactions refine the specification: the log is what the committed requests give one by one, every answer is the specification's answer at a moment during the call, only a lost connection is thrown raw. |
| PostgresWorkItems.UndisturbedCallIsAnswered | services/control-api/src/work-item-store.js:37-126 | A call that no lost connection hits is never thrown raw: it ends with an answer, and that is the specification's at some moment of the call. |
| PostgresWorkItems.CommittedCommandIsReplayed | services/control-api/src/work-item-store.js:155-161 | A command committed before the call gets its original result whatever its transaction ran into. |
| PostgresWorkItems.CommittedCommandIsAnswered | services/control-api/src/work-item-store.js:155-161 | As long as the query of the catch block works, such a call always ends with the original result, a lost connection included. |
| PostgresWorkItems.LostCommitIsReplayed | services/control-api/src/work-item-store.js:57-66 | A commit whose answer is lost is found by the catch block and answered as a replay of the committed event. |
| PostgresWorkItems.EveryTraceKeepsInv | services/control-api/src/work-item-store.js:140-153 | Row locks, the key wait and the two unique constraints keep every pending write what the specification would do. |
| PostgresWorkItems.InsertKeepsTx | services/control-api/src/work-item-store.js:196-204 | While the row is held only the command id can collide. |
| PostgresWorkItems.UpdateKeepsTx | services/control-api/src/work-item-store.js:107-114 | The version test of the UPDATE never fails behind the row lock. |
| WebSocketFraming.StreamingEqualsBatch | packages/protocol/src/websocket.js:61-95 | Packet boundaries change neither outputs nor leftover buffer if and only if the stream has no early stop with a frame behind it. |
| WebSocketFraming.FeedJoins | packages/protocol/src/websocket.js:61-95 | Feeding two packets is feeding their concatenation, leftover buffer included. |
| WebSocketFraming.SplitAtStopShows | packages/protocol/src/websocket.js:90-93 | Otherwise a split at the stop changes the outputs or the leftover buffer. |
| WebSocketFraming.EncodeThenParse | packages/protocol/src/websocket.js:34-48 | Parsing inverts encoding for all three length encodings, masked or not, whatever follows. |
| WebSocketFraming.SentIsReceived | packages/protocol/src/websocket.js:34-48 | Any list of texts sent and fed in any packets arrives as that list. |
| WebSocketFraming.VerdictIgnoresLaterBytes | packages/protocol/src/websocket.js:64-88 | A verdict on the head of the buffer does not change when bytes arrive behind it. |
| WebSocketFraming.ParseFrame | packages/protocol/src/websocket.js:64-88 | A complete frame takes at least two bytes and no more than there are. |
| WebSocketFraming.Drain | packages/protocol/src/websocket.js:61-95 | Every pass over a complete frame shortens the buffer. |
| WebSocketFraming.MaskedUndoesItself | packages/protocol/src/websocket.js:89-89 | Masking twice gives the payload back. |
| WebSocketFraming.MaskedBitByBit | packages/protocol/src/websocket.js:89-89 | Masking is bitwise exclusive or with the four mask bytes in turn. |
| WebSocketFraming.OneFrame | packages/protocol/src/websocket.js:88-95 | Text is emitted, a ping is answered with its payload, a close frame is answered and ends the loop, anything else is passed over. |
| WebSocketFraming.TooLargeExactly | packages/protocol/src/websocket.js:74-79 | A frame is too large exactly when it announces more than 2^53 - 1 bytes. |
| WebSocketFraming.ExamplesOfTheRfc | packages/protocol/src/websocket.js:34-48 | The unmasked examples of section 5.7 of RFC 6455 are encoded as they stand there. |
| WebSocketFraming.Unmask | packages/protocol/src/websocket.js:89-89 | The in-place loop masks every byte. |
| WebSocketFraming.DecodeHead | packages/protocol/src/websocket.js:64-89 | The decoding code computes the specified verdict. |
| WebSocketFraming.WebSocketPeer.Send | packages/protocol/src/websocket.js:34-48 | Writes one text frame with the shortest length encoding, or nothing when closed. |
| WebSocketFraming.WebSocketPeer.CloseWith | packages/protocol/src/websocket.js:50-59 | Closes once. |
| WebSocketFraming.WebSocketPeer.Consume | packages/protocol/src/websocket.js:61-95 | The receive loop equals its specification. |
| CapabilityInstall.RollbackRestores | packages/capability-fabric/src/runtime.js:122-164 | A rollback restores every file outside the backups, absence included, if and only if no backup is overwritten with something else. |
| CapabilityInstall.SurvivingBackupsHold | packages/capability-fabric/src/runtime.js:78-119 | That condition, which looks only at the plan and the files before, says exactly when every backup still holds what it backed up. |
| CapabilityInstall.PlainPlansSurvive | packages/capability-fabric/src/runtime.js:43-66 | Different paths not named like the receipt are enough. |
| CapabilityInstall.InstallsUnwind | packages/capability-fabric/src/runtime.js:68-164 | Any sequence of installs with different ids, rolled back in reverse, restores every file outside the backups. |
| CapabilityInstall.RollbackStopsAtDrift | packages/capability-fabric/src/runtime.js:128-161 | A rollback stops at the last drifted file having restored exactly the files after it and touched nothing else; with force it restores all. |
| CapabilityInstall.ForcedRollbackSucceeds | packages/capability-fabric/src/runtime.js:122-164 | A forced rollback succeeds exactly when the backups it needs are there, whatever their digests. |
| CapabilityInstall.StoppedRollbackDoesNotResume | packages/capability-fabric/src/runtime.js:142-144 | A second run stops at the file the first one restored. |
| CapabilityInstall.ReceiptNameLosesBackup | packages/capability-fabric/src/runtime.js:117-118 | A file named like the receipt cannot be rolled back. |
| CapabilityInstall.TargetRoot.ApplyInstallPlan | packages/capability-fabric/src/runtime.js:68-120 | The install loop computes the specified files and operations, or refuses without approval. |
| CapabilityInstall.TargetRoot.RollbackInstall | packages/capability-fabric/src/runtime.js:122-164 | The reversed loop computes the specified rollback. |
| SessionHandoff.CodexKeepsTrace | apps/context-workbench/lib/session-fabric.js:153-211 | A handoff to Codex keeps the flattened trace, arguments and results stringified, if and only if calls that share an id have the same result. |
| SessionHandoff.ClaudeKeepsSession | apps/context-workbench/lib/session-fabric.js:89-151 | A handoff to Claude keeps every non-empty message, content joined with reasoning, if and only if the same holds. |
| SessionHandoff.MessageThroughClaude | apps/context-workbench/lib/session-fabric.js:330-356 | One message through the format: only the results depend on the rest of the session. |
| SessionHandoff.JoinLaysOut | apps/context-workbench/lib/session-fabric.js:19-27 | The joined text is every non-empty part, in order, each in its place, with one newline between two. |
| SessionHandoff.MapRecoversIffAgree | apps/context-workbench/lib/session-fabric.js:34-44 | The result map gives every call its own result back exactly when equal ids agree. |
| SessionHandoff.DistinctIdsAgree | apps/context-workbench/lib/session-fabric.js:34-44 | Distinct ids are enough. |
| SessionHandoff.ReusedIdChangesResult | apps/context-workbench/lib/session-fabric.js:99-103 | A reused id changes an earlier result. |
| SessionHandoff.MessageToClaudeRows | apps/context-workbench/lib/session-fabric.js:330-356 | The serializer loop computes the specified row. |
| SessionHandoff.MessageToCodexRows | apps/context-workbench/lib/session-fabric.js:358-398 | The serializer loop computes the specified items. |
| SessionHandoff.NormalizeClaude | apps/context-workbench/lib/session-fabric.js:89-151 | The two parser loops compute the specified messages. |
| SessionHandoff.NormalizeCodex | apps/context-workbench/lib/session-fabric.js:153-211 | The two parser loops compute the specified messages. |
| RateLimit.TwiceTheLimit | services/control-api/src/identity-store.js:102-128 | Any closed interval as long as the window admits at most twice the limit. |
| RateLimit.TwiceTheLimitIsReached | services/control-api/src/identity-store.js:102-128 | That bound is reached. |
| RateLimit.CleanupIsUnobservable | services/control-api/src/identity-store.js:122-124 | The random cleanup cannot be observed if and only if the window is at most a day. |
| RateLimit.CleanedIsSwept | services/control-api/src/identity-store.js:122-124 | The DELETE forgets exactly the windows that began more than 24 hours before, key by key. |
| RateLimit.AdmittedAfterReset | services/control-api/src/identity-store.js:107-121 | After the rejected window, an attempt is admitted if and only if fewer than limit attempts were made since the reset. |
| RateLimit.RejectedUntilWindowEnds | services/control-api/src/identity-store.js:107-121 | After a rejection every attempt is rejected until the window ends, however many come, and the first one from then on is admitted. |
| RateLimit.LoneRetryIsAdmitted | services/control-api/src/identity-store.js:107-121 | The next attempt after a rejection is admitted if and only if it comes at or after the window's end. |
| RateLimit.PunctualRetry | services/control-api/src/identity-store.js:125-127 | A lone retry exactly at the announced time is admitted unless whole seconds were left and the cut to milliseconds took more from the window's start than from the clock; then it is rejected. |
| RateLimit.RetryAfterReachesWindowEnd | services/control-api/src/identity-store.js:125-127 | The announced time ends less than a millisecond before the window does. |
| RateLimit.PatientRetryIsAdmitted | services/control-api/src/identity-store.js:125-127 | Whoever waits it out and a millisecond more, with nobody else trying, is admitted. |
| RateLimit.PunctualRetryCanBeRejected | services/control-api/src/identity-store.js:125-127 | Without the extra millisecond a lone retry can be rejected. |
| RateLimit.CrowdedRetryCanBeRejected | services/control-api/src/identity-store.js:125-127 | Others can use up the new window first. |
| RateLimit.AuthRateLimits.ConsumeAuthAttempt | services/control-api/src/identity-store.js:102-128 | The upsert, the cleanup and the verdict, or a configuration error that changes nothing. |

## Left out

- RealtimeDelivery.NoLostUpdate: a client's memberships do not change while it is connected; the code reloads them at
  every resync.
- RealtimeDelivery.NoLostUpdate: "covered" means that the state write precedes the snapshot's first table read. The
  snapshot of a legacy client leaves out work items and capability verifications (services/control-api/src/index.js:75),
  so for these kinds a legacy client is covered in time but not in content.
- RealtimeDelivery.NoLostUpdate: starting cursors are ones an instance issued; the cursor codec is taken as exact.
- RealtimeFanout.StepKeepsLog: retention deletes by age; it is modelled as deleting a prefix of the ids.
- RealtimeFanout.DrainStepKeepsFanout: the rows of a batch are separate steps, which allows more runs than the code has.
- RealtimeSockets.EventDrain.Handle: the flags draining and pendingDrain, the listener and its reconnects only decide
  when the next drain starts; any drain may start at any time here.
- PublishQueue.EventQueue.TransactionCommits: retention is assumed not to delete a row whose key is still queued.
- PublishQueue.EventQueue.Publish: the `ready` flag and the retry timer are left out; a flush may start at any time.
- CommandOutbox.EveryRunKeepsInv: a shipping run is read and updated in one step, and the broadcasts and capability
  verifications that follow a failure are left out; so are failures to send an acknowledgement other than its loss.
- CommandDispatch.OpenInstanceComesToHold: says that such a run exists from every state; that timers fire, commits are
  answered and a daemon stays connected long enough is not part of this model.
- RealtimeEndToEnd.EveryCallArrives: that the log is the table the queues write, and that a call's state is written before
  its row, are conditions of the lemma.
- CommandRouter.Router.ClaimSelected: #poll is not one method, because its statements interleave with those of other
  instances; each of them is a statement or step of the run model.
- JsonWorkItems.JsonStore.Mutate: writing the state file is a result the caller passes in; the change stays in memory
  when it fails, as in the code.
- WorkItems.ApplyAdds: field validation and the format of ids are left out; a request digest is the digested body.
- PostgresWorkItems.TransactionsAreAtomic: statements at the default isolation level, one snapshot each; unique event
  ids are taken for granted.
- ShippingProofs.SuperviseRelease: commands are requests to an environment that may answer anything; files, worktree
  commands and evidence texts are abstract, and a failing save is left out.
- ShippingLog.VerifyShippingRun: problems carry the event's position, not the original message text; canonical JSON and
  SHA-256 are one function.
- WebSocketFraming.StreamingEqualsBatch: UTF-8 decoding is left out; messages are byte sequences.
- CapabilityInstall.RollbackRestores: directories, symbolic links, atomic renames and path normalization are left out;
  an install id is one path segment.
- SessionHandoff.ClaudeKeepsSession: JSON text is taken as a faithful carrier; block and row spellings that no
  serializer writes, row timestamps and generated ids are left out.
- RateLimit.TwiceTheLimit: one clock for the database; the attempts of one key all use the same window and limit.
- HTTP routing, cookies, browser UI, native verifiers, research and portfolio heuristics: no state shared between
  processes, single-branch claims only.
- The generic transcript format, session slicing and forking: no inverse to prove.

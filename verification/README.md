# Verification of the fitz-py client

fitz-py is an asyncio client for the Fitz message broker. What is hard in it is not the I/O but what may
happen between two `await`s. This project models its concurrent state machines and three of its sequential
algorithms in Dafny and proves what every run of them keeps. It is checked with `dafny verify dfyconfig.toml`.

Each state machine is a transition system. One event is the code between two suspension points of one task; a run is
any sequence of events, so the scheduler, the broker, timers and cancellation are unrestricted unless a hypothesis
says otherwise. An event that the source could not take in a state leaves the state alone. `Apply` is total, `Run` folds it, and the
theorems quantify over every run, or over every `Reachable` state. Beside each transition system stands a class with the source's own
fields, whose methods are proved to carry out exactly those steps. What the steps themselves have to do is stated apart from them:
histories (`Told`, `Heard`, `Consumers`, `ClosedBy`, ...) say from the events of a run what the records must be, and progress
theorems say that what nothing stands in the way of happens.

| module | source file | what it is about |
|---|---|---|
| `RequestGates` | `_runtime.py` | the admission gate: a FIFO semaphore with direct hand-over, cancellation races and close |
| `GateCallers` | `_runtime.py` | what the gate's callers get: who may wait, who is let in, who is next, cancellation and close |
| `AsyncSubscriptions` | `_runtime.py` | the bounded queue of one subscription consumer |
| `SubscriptionRegistries` | `domains/_subscriptions.py` | one wire subscription shared by many consumers, early notifications, restore |
| `SubscriptionRuns` | `domains/_subscriptions.py` | exactly when consumers are served, and exactly when a registration is stranded |
| `Publications` | `domains/_subscriptions.py` | the registry and its consumers, told from the events of the run alone |
| `Multiplexers` | `multiplexer.py` | correlation ids, tombstones, late replies, over any number of sessions |
| `RequestOutcomes` | `multiplexer.py` | what becomes of a request, told from the events of the run |
| `Connections` | `connection.py` | open attempts, HELLO, generations, loss, restore, close, the operations beside them, and the multiplexer inside |
| `ConnectionRuns` | `connection.py` | what every run of the connection keeps, and exactly when handles and sessions stay fenced off |
| `ConnectionOutcomes` | `connection.py` | when the connection is closed, what takes a session down, and that attempts, requests and replies go through |
| `MultiplexerUse` | `connection.py` | exactly when the connection uses its multiplexer as that assumes |
| `OrderlyConnections` | `connection.py` | runs in which attempts, reconnect loop and broker keep to an order, and what those never do |
| `StaleHandles` | `connection.py` | the runs of the connection that go wrong |
| `RpcCalls` | `domains/rpc.py` | the caller's side of RPC: frames, deadlines, cancellation outcomes |
| `RpcHistories` | `domains/rpc.py` | what becomes of a call, told from the events of the run, and that reads go on |
| `LeaseObservers`, `LeaseObserverRuns` | `domains/lease.py` | the lease inventory observer, alone and in its world of broker, channel and tasks |
| `ObserverProgress` | `domains/lease.py` | undisturbed passes install, and an attached observer can always become ready |
| `ExtensionEnvelopes` | `protocol/extensions.py` | the Wire 3 extension envelope and capability lists |
| `KvScans` | `domains/kv.py` | `scan_all` over a paged, adversarially paginated store |
| `Routes` | `domains/_routes.py`, `domains/rpc.py` | selector grammar and worker patterns against glob semantics |
| `Bytes`, `Options` | | lexicographic byte order, optional values |

## Assumptions

- Broker ids are fresh: a subscription id is not handed out twice (`SubscribeAcked`, `RestoreAcked` with a used id
  are ignored). `RestoreRekeysExactly` drops this assumption and shows exactly what is lost without it.
- The broker finally answers each transmitted request at most once per session, and a request is cancelled at most
  once while its send is in flight. The theorems of `Multiplexers` about a `Reachable` state are about timely runs: no
  request is numbered while no session is up, and no session begins over the entries of another. `OwnEntriesExactly` says
  exactly what that buys, `DrivenExactly` exactly when the connection's runs are timely.
- Open attempts of one connection do not overlap. The theorems of `ConnectionRuns` assume nothing else of a run.
- The theorems of `OrderlyConnections` are about orderly runs, which `Orderly` defines event by event. An attempt opens
  only with no session up and no send task still to take its first step; the reconnect loop changes the state only
  with no session up and no attempt under way; only `close` cancels an attempt while it restores registrations; and the
  broker answers only requests it was sent. asyncio grants the part about send tasks, because it runs ready tasks in
  the order they became ready. The source does not enforce the part about sessions: see finding 3.
- After an unsubscribe that failed the broker may or may not go on sending. `SharedWireSubscriptions` counts such a
  `Doubtful` subscription as neither ended nor served for sure; `ServedExactly` says exactly when a consumer sits on one.
- A call's random 16-byte key is not drawn twice; a subscription or a call has one reader at a time.
- Configured limits are at least 1 where the configuration demands it (`types.py:167-178`).

## What the proofs found in the source

1. **Admission gate.** A release that meets a cancelled waiter still in the queue skips it, and the waiter releases
   once more when it resumes, so two callers can hold one slot. `CapacityLawExactly` says exactly when,
   `PhantomRunOverAdmits` is such a run.
2. **Late replies.** A send that fails after a cancellation, or with anything but a connection or timeout error, makes
   the multiplexer forget the id even if the frame went out (the TCP transport can fail after writing), and the
   late reply is then rejected: `RejectsExactlyDropped`, `CancelledFailedSendRejectsItsReply`. Forgetting is by id, so a
   straggler of an earlier session can evict a new session's request, whose caller the next disconnect then leaves
   waiting. `EvictsExactly` gives the exact condition on the event, `NoneEvictedIffStragglerFree` that on the run,
   `StragglerEvictsNewRequest` such a run. And a request is let through as soon as a HELLO has named a version
   (`multiplexer.py:104`), while `set_connected` restarts the ids only later (`37-39`), so a request numbered in between loses
   its entry: `EarlyRequestIsOverwritten`. `OwnEntriesExactly` and `DrivenExactly` say exactly which runs do that.
3. **Stale handles.** `_connection_lost` starts the reconnect loop after two waits without looking at the state
   (`connection.py:562-569`), and neither the loop nor `_open_and_authenticate` looks at it either (`333-345`, `575-584`). If
   the user has reconnected meanwhile, the loop opens a transport over the live session and abandons its gate unclosed.
   An operation parked in that gate then goes out in the next session (`ReconnectOverALiveSessionBreaksTheFence`), takes an id
   while no session is up (`EarlyRequest`), can be answered across sessions (`ReplyCrossesSessions`), and is admitted even
   after `close` (`ClosedConnectionAdmits`). `FenceKeptExactly`, `IsolationKeptExactly`, `ClosedAdmitsExactly` and `DrivenExactly`
   say exactly which runs go wrong in these ways, and `HandlesAreFenced`, `SessionsAreIsolated`, `ClosedAdmitsNobody` and
   `DrivesItsMultiplexer` that orderly ones do not. `LateSendTaskBreaksTheFence` is no failure of the source: asyncio never
   starts tasks in that order. It shows that the fence rests on that order.
4. **RPC cancellation.** Cancelling a task that awaits `call.cancellation` cancels the future itself; a later `cancel`
   then never asks the broker. `OnePlaceExactly`, `CancelAsksExactly`, `CancelledAwaiterSilencesCancel`.
5. **RPC deadlines.** A call that completed in time but is read after its deadline raises a timeout at every read and
   never gives its frames or its end: the deadline is checked before the queue, and `_close_and_cancel` does nothing
   once the terminal frame has come (`rpc.py:183-188`, `226-228`). `LateReadsWithholdExactly`, `ReadTimesOutExactly`,
   `LateReaderLosesACompleteCall`.
6. **Subscription registry.** A consumer whose `aclose` is cancelled while it waits for the registry's lock is finished
   without leaving its registration, and its `_wire_closed` flag keeps it from ever leaving (`_runtime.py:319-328`):
   `CancelledCloseStrands`, `StrandedExactly`. After an unsubscribe that failed, the next subscriber joins the registration
   without asking the broker again: `FailedUnsubscribeIsShared`, and `ServedExactly` for the exact condition.
7. **Restore.** A new id equal to the old id of a registration restored later loses the first mapping.
   `RestoreRekeysExactly`.
8. **Observer.** `ready` alone does not mean fresh; ready and steady does. `ReadyAloneIsNotFresh`, and
   `ViewIsTheReportedInventory` for which inventory a ready view is.
9. **Selectors.** The default grammar refuses a wild realm unless it is allowed, except `**/**`, which passes.
   `RealmWildcardSlipsThroughExactly`.
10. **Worker patterns.** The check for an interior double star looks only at the last segment, so `**/b/**` is accepted,
    and `_matches` stops at the first double star. `MatchesDecidesGlobExactly`, `WorkerPatternIsMisread`.

## Model

| member | source | states |
|---|---|---|
| `RequestGates.EveryRun` | src/fitz_py/_runtime.py:112-175 | in every run slots are granted in arrival order with no newcomer overtaking; while open, `_active` never exceeds the maximum, equals it whenever anyone is queued, and never undercounts the holders by more than the skipped waiters |
| `RequestGates.NoSkipsNoSlotLostOrDuplicated` | src/fitz_py/_runtime.py:120-175 | in every run whose releases never met a cancelled waiter, unreleased tokens plus reserved slots equal `_active`: none lost, none duplicated |
| `RequestGates.CapacityLawExactly` | src/fitz_py/_runtime.py:134-141 | the capacity law survives an event if and only if the event is not a skipped cancelled waiter resuming while a slot is counted as taken |
| `RequestGates.PhantomRunOverAdmits` | src/fitz_py/_runtime.py:134-141 | a concrete run in which two callers hold tokens of a gate of capacity one |
| `RequestGates.ClosedGateAdmitsNobody` | src/fitz_py/_runtime.py:120-146 | after close nobody who did not hold a token ever gets one, including callers parked or already granted when it closed |
| `RequestGates.ReleaseSlotKeeps` | src/fitz_py/_runtime.py:166-175 | a release passes exactly one slot: to the oldest waiter not yet cancelled, or back |
| `GateCallers.QueueIsBounded` | src/fitz_py/_runtime.py:126-131 | in every run no more callers wait than the queue size allows |
| `GateCallers.RefusesExactly` | src/fitz_py/_runtime.py:120-131 | an open gate refuses a caller exactly when every slot is taken and as many wait as may, and then nothing changes |
| `GateCallers.AdmitsExactly` | src/fitz_py/_runtime.py:125-146 | a caller is let in exactly by arriving at an open gate with a free slot and nobody waiting, or by resuming there with a slot reserved for it and without having been cancelled |
| `GateCallers.SlotGoesToTheOldest` | src/fitz_py/_runtime.py:166-175 | a slot given up is reserved for the caller that has waited longest among those not cancelled, or goes back to the pool |
| `GateCallers.ReleasePassesTheSlotOn` | src/fitz_py/_runtime.py:154-164 | releasing a token does that, and once |
| `GateCallers.OnlyItsOwn` | src/fitz_py/_runtime.py:132-141 | only its own cancellation cancels a caller, and only close fails one |
| `GateCallers.ResumedIsGone` | src/fitz_py/_runtime.py:134-146 | a resumed caller is no longer parked |
| `GateCallers.CancelledIsNeverAdmitted` | src/fitz_py/_runtime.py:132-141 | a caller cancelled while parked never gets a token, whatever follows |
| `GateCallers.CloseWakesEverybody` | src/fitz_py/_runtime.py:177-185 | close leaves nobody parked: the future of every waiter is completed, as failed unless its caller was cancelled |
| `RequestGates.RequestGate.constructor` | src/fitz_py/_runtime.py:113-118 | a fresh gate is open, with no slot taken and nobody waiting |
| `RequestGates.RequestGate.Acquire` | src/fitz_py/_runtime.py:120-133 | closed gates refuse; a token at once only with spare capacity and nobody queued; a full queue is an error that changes nothing; else the caller queues last |
| `RequestGates.RequestGate.Cancel` | src/fitz_py/_runtime.py:132-135 | cancelling a caller completes a waiting future at once, and dooms one that is already complete |
| `RequestGates.RequestGate.RemoveWaiter` | src/fitz_py/_runtime.py:136-138 | removes exactly the given waiter from the queue |
| `RequestGates.RequestGate.Resume` | src/fitz_py/_runtime.py:134-146 | a resumed caller is admitted exactly if its slot was reserved, it was not cancelled and the gate is still open; otherwise its slot, if any, goes on |
| `RequestGates.RequestGate.ReleaseOneSlot` | src/fitz_py/_runtime.py:166-175 | the pop loop reserves the slot for the first waiter that is not done, or gives it back |
| `RequestGates.RequestGate.Release` | src/fitz_py/_runtime.py:154-164 | only the first call of a token gives its slot back |
| `RequestGates.RequestGate.Close` | src/fitz_py/_runtime.py:177-185 | every waiter that is not done fails, and the queue is empty |
| `AsyncSubscriptions.ReaderSeesAPrefix` | src/fitz_py/_runtime.py:266-314 | over every interleaving the reader gets a prefix of the accepted items in order, then at most one error, then only the end; while open nothing accepted is lost |
| `AsyncSubscriptions.EndIsFinal` | src/fitz_py/_runtime.py:266-275 | once the reader got the error or the end, every later read stops and nothing is accepted any more |
| `AsyncSubscriptions.EndsAsTheRunSays` | src/fitz_py/_runtime.py:283-314 | over every run, what was accepted is what was pushed before the end with room for it, and the consumer is closed exactly by the first failure, finish or overflow, which is what its reader is told after the items |
| `AsyncSubscriptions.ReadsGoOn` | src/fitz_py/_runtime.py:266-275 | a read yields the next accepted item, or tells what ended the consumer and then stops; it waits only on an open consumer with nothing left |
| `AsyncSubscriptions.AsyncSubscription.Drain` | src/fitz_py/_runtime.py:295-314 | the drain loop leaves the queue empty and nothing else changed |
| `AsyncSubscriptions.AsyncSubscription.FailWith` | src/fitz_py/_runtime.py:295-304 | the first failure drops what is queued and leaves only the error |
| `AsyncSubscriptions.AsyncSubscription.FinishNow` | src/fitz_py/_runtime.py:306-314 | the first finish drops what is queued and leaves only the end |
| `AsyncSubscriptions.AsyncSubscription.PushItem` | src/fitz_py/_runtime.py:283-293 | an item is accepted exactly if the consumer is open and has room; overflow fails the consumer |
| `AsyncSubscriptions.AsyncSubscription.ReadNext` | src/fitz_py/_runtime.py:266-275 | a read takes the oldest queued thing, and a closed empty queue stops |
| `SubscriptionRegistries.SharedWireSubscriptions` | src/fitz_py/domains/_subscriptions.py:41-150 | in every run the two dictionaries are mutually inverse, no registration with a consumer has an unsubscribe in flight or acknowledged since its last subscribe, and every open consumer that has not left its registration belongs to it |
| `SubscriptionRuns.ServedExactly` | src/fitz_py/domains/_subscriptions.py:48-50 | over every run, at every point the last wire request of a registration with a consumer is a subscribe if and only if no subscriber ever finds it registered while its last unsubscribe is one that failed |
| `SubscriptionRuns.ConsumersAreServed` | src/fitz_py/domains/_subscriptions.py:84-95 | so as long as no unsubscribe of that registration itself has failed, its last wire request is a subscribe whenever it has a consumer |
| `SubscriptionRuns.FailedUnsubscribeIsShared` | src/fitz_py/domains/_subscriptions.py:48-50 | a concrete run: after a failed unsubscribe the next subscriber joins the doubtful wire subscription and asks the broker for nothing |
| `SubscriptionRuns.StrandedExactly` | src/fitz_py/_runtime.py:319-328 | in every reachable state without an operation on a registration, something that can follow, short of a new subscriber or a reconnect, asks the broker to unsubscribe it if and only if some consumer of it has not been asked to close or still waits for the lock |
| `SubscriptionRuns.SomebodyStays` | src/fitz_py/domains/_subscriptions.py:70-95 | as long as no unsubscribe of a registration has failed, some consumer has not left it unless it is being unsubscribed |
| `SubscriptionRuns.OnlyCancelledClosesStrand` | src/fitz_py/_runtime.py:319-328 | so only a close cancelled while it waited for the lock strands a registration none of whose unsubscribes failed |
| `SubscriptionRuns.StrandedStays` | src/fitz_py/_runtime.py:319-328 | a stranded registration stays so whatever happens, until the next subscriber or reconnect |
| `SubscriptionRuns.CancelledCloseStrands` | src/fitz_py/_runtime.py:319-328 | a concrete run: the only consumer ends and its registration stays subscribed |
| `SubscriptionRegistries.ReadersSeeTheirPublications` | src/fitz_py/domains/_subscriptions.py:107-118 | a consumer's reader gets, in publication order and once each, a prefix of what was published for its registration since it was attached, then at most one error, then the end; an open consumer was handed all of it |
| `Publications.RegistryFollowsTheRun` | src/fitz_py/domains/_subscriptions.py:41-150 | over every run, told from its events alone: the operation under way, the id each registration goes by, the early notifications that wait, bounded, and what was published to each registration: the items under the id it went by, and the early ones when it was given the id or somebody joined, in order |
| `Publications.ConsumersFollowTheRun` | src/fitz_py/domains/_subscriptions.py:70-150 | over every run, told from its events alone: who has joined, and that each consumer holds what a fresh queue holds after being pushed what was published to its registration until it left, failed with its resubscribe, finished with its close, and read as it was read |
| `SubscriptionRegistries.RestoreRekeysExactly` | src/fitz_py/domains/_subscriptions.py:120-150 | with distinct new ids `_by_id` ends up mapping exactly the new ids to the surviving registrations if and only if no registration was given an id that one restored after it still had |
| `SubscriptionRegistries.RestoreKeepsSurvivors` | src/fitz_py/domains/_subscriptions.py:127-150 | whatever the ids, each registration ends with its own new id or is dropped, and the others are untouched |
| `SubscriptionRegistries.RestoreWithCollision` | src/fitz_py/domains/_subscriptions.py:139-142 | on a collision the id of the registration restored first is lost from `_by_id` |
| `SubscriptionRegistries.SubscriptionRegistry.PushToMembers` | src/fitz_py/domains/_subscriptions.py:114-118 | the push loop hands the item once to every member and to nobody else |
| `SubscriptionRegistries.SubscriptionRegistry.PublishItem` | src/fitz_py/domains/_subscriptions.py:107-118 | unknown ids are buffered up to capacity, oldest dropped; known ones are delivered and consumers that refused leave |
| `SubscriptionRegistries.SubscriptionRegistry.FlushPending` | src/fitz_py/domains/_subscriptions.py:174-183 | the flush loop delivers the buffered items of the id in order and keeps the others in order |
| `SubscriptionRegistries.SubscriptionRegistry.BeginSubscribe` | src/fitz_py/domains/_subscriptions.py:41-52 | a known registration is shared without a wire request, an unknown one asks the broker |
| `SubscriptionRegistries.SubscriptionRegistry.AddConsumer` | src/fitz_py/domains/_subscriptions.py:96-105 | the new consumer is a member before early notifications are flushed to it |
| `SubscriptionRegistries.SubscriptionRegistry.WireSubscribed` | src/fitz_py/domains/_subscriptions.py:52-68 | the acknowledged registration enters both dictionaries, unless the caller was cancelled, in which case the broker is asked to undo it |
| `SubscriptionRegistries.SubscriptionRegistry.WireUndone` | src/fitz_py/domains/_subscriptions.py:58-65 | a failed undo keeps the registration, without consumers and doubtful |
| `SubscriptionRegistries.SubscriptionRegistry.AskToClose` | src/fitz_py/_runtime.py:319-323 | only the first `aclose` of a consumer goes on to wait for the lock of the registry |
| `SubscriptionRegistries.SubscriptionRegistry.GiveUpClosing` | src/fitz_py/_runtime.py:324-328 | a close cancelled while it waits finishes the consumer and leaves it a member |
| `SubscriptionRegistries.SubscriptionRegistry.BeginClose` | src/fitz_py/domains/_subscriptions.py:70-83 | with the lock, a closing consumer leaves its registration, and only the last one asks the broker to unsubscribe |
| `SubscriptionRegistries.SubscriptionRegistry.WireUnsubscribed` | src/fitz_py/domains/_subscriptions.py:84-95 | an acknowledged unsubscribe drops the registration from both dictionaries, a failed one keeps it, doubtful; the consumer is finished either way |
| `SubscriptionRegistries.SubscriptionRegistry.FailRegistration` | src/fitz_py/domains/_subscriptions.py:144-150 | the registration leaves both dictionaries and each of its consumers fails |
| `SubscriptionRegistries.SubscriptionRegistry.RestoreOne` | src/fitz_py/domains/_subscriptions.py:127-142 | one registration is re-keyed and flushed, or failed, and the loop goes on with the next |
| `Multiplexers.OwnEntriesExactly` | src/fitz_py/multiplexer.py:37-47 | over every run, at every point each entry of the table is a request of the session that is up, under its own id, if and only if no request is numbered while no session is up and no session begins over entries of another |
| `Multiplexers.EarlyRequestIsOverwritten` | src/fitz_py/multiplexer.py:103-111 | a concrete run: a request numbered between HELLO and `set_connected` loses its entry to the session's first request, and the next disconnect leaves its caller waiting |
| `Multiplexers.TombstonesAbsorbLateReplies` | src/fitz_py/multiplexer.py:95-159 | in every timely run a rejected reply belongs to a transmitted request whose entry was dropped; an entry is forgotten exactly when its send failed after a cancellation or with neither a connection nor a timeout error |
| `Multiplexers.NoReplyIsRejectedWithoutStragglers` | src/fitz_py/multiplexer.py:65-206 | in timely runs of any number of sessions, if nothing straggles and forgotten sends transmitted nothing, `dispatch_correlated` never rejects a reply |
| `Multiplexers.RejectsExactlyDropped` | src/fitz_py/multiplexer.py:190-202 | a reply the broker may send is rejected if and only if its request's entry was dropped |
| `Multiplexers.EvictsExactly` | src/fitz_py/multiplexer.py:112-159 | in any state an event evicts a request if and only if it resumes another task whose failed send makes it forget the id under which the table holds that request |
| `Multiplexers.NoneEvictedIffStragglerFree` | src/fitz_py/multiplexer.py:112-159 | over every run, of any number of sessions, no request is ever evicted if and only if no such event happens |
| `Multiplexers.StragglersAreFromEarlierSessions` | src/fitz_py/multiplexer.py:37-47 | the task that evicts belongs to an earlier session and its victim to the current one |
| `Multiplexers.NobodyStragglesWithinASession` | src/fitz_py/multiplexer.py:144-159 | removal by id only hits the own entry unless a request of an earlier session is still sending |
| `Multiplexers.FrameReachesOnlyItsOwnSession` | src/fitz_py/multiplexer.py:190-206 | a frame changes no request but the one of the current session with its id |
| `Multiplexers.ReplyReachesItsCaller` | src/fitz_py/multiplexer.py:190-206 | the final reply resolves the caller still waiting for it, and a frame that is not final resolves nobody |
| `Multiplexers.CallersGetTheirOwnReply` | src/fitz_py/multiplexer.py:125-129 | a caller that returns, returns the final payload sent for its own id |
| `RequestOutcomes.RecordsFollowTheRun` | src/fitz_py/multiplexer.py:95-206 | over every timely run, a request's interruption, transmission, send result, final reply and what came to its caller first are what the events say |
| `RequestOutcomes.OutcomeFollowsTheRun` | src/fitz_py/multiplexer.py:112-142 | in every timely run a finished request was cancelled, timed out, raised or returned its reply as its interruption, its send and what came to its caller first say, and in no other way |
| `RequestOutcomes.AwaitEndsExactly` | src/fitz_py/multiplexer.py:126-142 | a waiting task is finished by its next run if and only if it was interrupted or its future is no longer open |
| `RequestOutcomes.SendEndsExactly` | src/fitz_py/multiplexer.py:112-125 | a sending task goes on exactly when its send is over, and awaits the reply exactly when the frame went out and nobody cancelled it |
| `RequestOutcomes.AnsweredCallerReturns` | src/fitz_py/multiplexer.py:126-127 | a caller awaiting its reply in the table returns the reply the broker sends |
| `RequestOutcomes.IdsAreTakenInTurn` | src/fitz_py/multiplexer.py:65-72 | over every run ids are taken one after the other from 1 on in every session, by requests and one-way frames alike |
| `RequestOutcomes.NewRequestsTakeTheNextId` | src/fitz_py/multiplexer.py:103-111 | a request is new only when it is issued under a negotiated version, and takes the next id of its session |
| `Multiplexers.OutcomesAreFinal` | src/fitz_py/multiplexer.py:95-142 | a caller's outcome, a resolved future and a recorded answer never change again |
| `Multiplexers.DisconnectLeavesNobodyWaiting` | src/fitz_py/multiplexer.py:41-47 | a disconnect empties the table, and a caller waits on an unresolved future after it if and only if it was waiting on an evicted request |
| `Multiplexers.CancelledFailedSendRejectsItsReply` | src/fitz_py/multiplexer.py:115-124 | a concrete run: cancelled while sending, the send fails after transmitting, the reply is rejected |
| `Multiplexers.StragglerEvictsNewRequest` | src/fitz_py/multiplexer.py:144-159 | a concrete run: a late failure of the old session removes the new session's entry, and the next disconnect leaves that caller waiting |
| `Multiplexers.Multiplexer.SetCapabilities` | src/fitz_py/multiplexer.py:61-63 | a HELLO names the version that requests ask for |
| `Multiplexers.Multiplexer.SetConnected` | src/fitz_py/multiplexer.py:37-39 | a session starts with id 1, whatever the table holds |
| `Multiplexers.Multiplexer.SetDisconnected` | src/fitz_py/multiplexer.py:41-47 | the version is gone, and the loop fails every open future of the table and empties it |
| `Multiplexers.Multiplexer.NextCorrelationId` | src/fitz_py/multiplexer.py:65-72 | ids ascend by one, session or not, and are exhausted after the last u64 |
| `Multiplexers.Multiplexer.IssueRequest` | src/fitz_py/multiplexer.py:95-111 | once a version is negotiated, session or not, a request takes the next id and its own table entry; otherwise it raises and changes nothing |
| `Multiplexers.Multiplexer.Remove` | src/fitz_py/multiplexer.py:156-159 | the entry under the request's id goes, whoever owns it |
| `Multiplexers.Multiplexer.ResumeSend` | src/fitz_py/multiplexer.py:112-142 | after its send a request awaits, is buried as a tombstone, or is forgotten, by cancellation and kind of failure |
| `Multiplexers.Multiplexer.DispatchCorrelated` | src/fitz_py/multiplexer.py:190-206 | an unknown id is a protocol error, a frame that is not final is ignored, a final one pops the entry and resolves an open future |
| `ConnectionRuns.FenceKeptExactly` | src/fitz_py/connection.py:424-427 | over every run, each operation of a handle took the transport of its handle's generation if and only if no operation of a handle looked the transport up after the generation had moved on or while an attempt had its own transport installed |
| `ConnectionRuns.IsolationKeptExactly` | src/fitz_py/connection.py:437-444 | over every run, each request was resolved by a frame of its own session if and only if no frame resolved a request after a later session had begun or while an attempt had its own transport installed |
| `OrderlyConnections.HandlesAreFenced` | src/fitz_py/domains/kv.py:79-83 | in orderly runs a transaction or response writer of generation g never puts a frame on the transport of another generation, however long it was parked in a gate |
| `OrderlyConnections.SessionsAreIsolated` | src/fitz_py/connection.py:437-444 | in orderly runs a frame of one session's transport resolves only requests issued in that session, a waiting caller has its entry in the table of the session that is up if and only if it was not evicted, and without a session the table is empty |
| `MultiplexerUse.DrivenExactly` | src/fitz_py/connection.py:361-362 | over every run, the multiplexer is at every point in a state its own timely runs reach if and only if no request takes an id while no session is up, no session begins over entries of another, and no request is answered that was never sent |
| `MultiplexerUse.UseStep` | src/fitz_py/connection.py:361-362 | one event of the connection, from any such state, leads to another such state if and only if it does none of the three |
| `OrderlyConnections.DrivesItsMultiplexer` | src/fitz_py/connection.py:361-362 | orderly runs drive the multiplexer only through states it reaches by its own timely runs, one session a generation, so its theorems hold of it |
| `ConnectionRuns.AuthenticatedOnItsOwnHello` | src/fitz_py/connection.py:359-375 | in every run, whenever the state is AUTHENTICATED the installed transport is the latest generation's, its own HELLO was accepted and its receive task is running |
| `ConnectionRuns.HelloIsReadFromTheInstalledTransport` | src/fitz_py/connection.py:467-508 | an event makes a HELLO accepted if and only if the installed transport's own receive task reads it in an open, unnegotiated connection |
| `ConnectionRuns.ClosedIsFinal` | src/fitz_py/connection.py:169-198 | in every run, once closed, by `close` or by a rejected authentication, no later step of any task makes the state AUTHENTICATED, numbers a request or fills the table |
| `ConnectionOutcomes.ClosedExactly` | src/fitz_py/connection.py:169-174 | over every run the connection is closed if and only if `close` was called or an attempt that failed as rejected was settled |
| `ConnectionOutcomes.RejectionCloses` | src/fitz_py/connection.py:382-386 | a settled rejection closes the connection and its gate and ends in CLOSED, where no attempt starts any more |
| `ConnectionOutcomes.OtherFailuresDisconnect` | src/fitz_py/connection.py:387-389 | any other failed attempt leaves the connection open and DISCONNECTED |
| `ConnectionOutcomes.CloseCloses` | src/fitz_py/connection.py:169-175 | the first step of `close` ends in CLOSED with the gate shut, no session and nobody in the table |
| `ConnectionOutcomes.AttemptsSucceed` | src/fitz_py/connection.py:333-375 | from every reachable state without attempt, close or negotiated version, an attempt that meets no failure ends AUTHENTICATED, one generation on, on its own transport, with an open gate and ids from 1 |
| `ConnectionOutcomes.FailedAttemptsAreTakenDown` | src/fitz_py/connection.py:373-383 | an attempt that fails, or no longer owns the connection, unplugs the multiplexer and removes only its own transport |
| `ConnectionOutcomes.LossTearsDown` | src/fitz_py/connection.py:547-557 | a failed read, a second HELLO or a failed send ends an authenticated session at once: gate shut, transport detached, table empty |
| `ConnectionOutcomes.LossDuringAnAttempt` | src/fitz_py/connection.py:445-453 | while an attempt authenticates a failed read refuses it and tears nothing down; otherwise it is a loss unless the connection is down already |
| `ConnectionOutcomes.StaleReceiversStop` | src/fitz_py/connection.py:439-442 | the receive task of a transport no longer installed ends when it next looks, and changes nothing else |
| `ConnectionOutcomes.UnknownRepliesAreFailures` | src/fitz_py/multiplexer.py:197-201 | a reply nobody asked for is a failure of the receive task |
| `ConnectionOutcomes.LifecycleGoesOn` | src/fitz_py/connection.py:575-600 | what the reconnect loop, `close` and a new attempt make of the state, and that a closed connection keeps it |
| `ConnectionOutcomes.StagesFollow` | src/fitz_py/connection.py:200-227 | every event moves every operation exactly as its own stage says, and no other operation |
| `ConnectionOutcomes.BeginsExactly` | src/fitz_py/connection.py:675-682 | an operation begins exactly on an open connection that is AUTHENTICATED or restoring, with an open gate, and with a handle of this generation if it has one |
| `ConnectionOutcomes.NewOperationsFollow` | src/fitz_py/connection.py:200-227 | what begins is parked if the gate is full and let through if not |
| `ConnectionOutcomes.ParkedRequestsGoOn` | src/fitz_py/connection.py:200-205 | a parked request whose gate is open is numbered and entered |
| `ConnectionOutcomes.RequestsGoOut` | src/fitz_py/connection.py:200-205 | a request that may begin is put on the installed transport under the next id, and its entry waits for the reply |
| `ConnectionOutcomes.FramesFollow` | src/fitz_py/connection.py:424-435 | a frame is on the wire exactly if its operation put it there, on the transport it took |
| `ConnectionOutcomes.RepliesResolve` | src/fitz_py/connection.py:437-444 | a final frame of the installed transport resolves the caller its id finds |
| `ConnectionOutcomes.SendResultsReachTheMultiplexer` | src/fitz_py/multiplexer.py:113-125 | the result of a send reaches the request that waits for it |
| `ConnectionOutcomes.CallersReachTheMultiplexer` | src/fitz_py/multiplexer.py:112-142 | a caller's cancellation, timeout and resumption are the multiplexer's own steps |
| `ConnectionRuns.ClosedAdmitsExactly` | src/fitz_py/connection.py:200-212 | a closed connection can still let an operation past admission if and only if one is parked in a gate that was left open |
| `OrderlyConnections.ClosedAdmitsNobody` | src/fitz_py/connection.py:169-198 | after an orderly run that ends closed, no operation gets past admission, whatever follows |
| `StaleHandles.LateSendTaskBreaksTheFence` | src/fitz_py/connection.py:424-435 | a run asyncio does not allow, showing that the fence rests on the order of task starts, because the transport is looked up in the send task |
| `StaleHandles.ReconnectOverALiveSessionBreaksTheFence` | src/fitz_py/connection.py:547-584 | a concrete run in which the reconnect loop works over a session the user has opened meanwhile, and a frame parked in the abandoned gate goes out in the next generation |
| `StaleHandles.EarlyRequest` | src/fitz_py/connection.py:547-584 | before that, the parked request takes an id and an entry while no session is up |
| `StaleHandles.ReplyCrossesSessions` | src/fitz_py/connection.py:547-584 | a concrete run in which a frame of the next generation's transport resolves a request of the session before |
| `StaleHandles.ClosedConnectionAdmits` | src/fitz_py/connection.py:169-175 | a concrete run in which an operation parked in the abandoned gate is admitted after `close` |
| `Connections.Connection.ChangeState` | src/fitz_py/connection.py:684-694 | a closed connection changes to no state but CLOSED |
| `Connections.Connection.StartAttempt` | src/fitz_py/connection.py:333-345 | an attempt brings its own gate and transport, whatever the state, unless the connection is closed |
| `Connections.Connection.TransportConnected` | src/fitz_py/connection.py:346-353 | the dialled transport gets its receive task and a pending authentication |
| `Connections.Connection.AbortAttempt` | src/fitz_py/connection.py:376-383 | a failed attempt unplugs the multiplexer and removes only its own transport |
| `Connections.Connection.FinishHandshake` | src/fitz_py/connection.py:357-375 | after HELLO a new generation starts only for an attempt that still owns the connection |
| `Connections.Connection.StartSession` | src/fitz_py/connection.py:361-362 | the generation grows by one and ids restart at 1 |
| `Connections.Connection.FinishRestore` | src/fitz_py/connection.py:363-373 | restoring ends in AUTHENTICATED only for an attempt that still owns the connection |
| `Connections.Connection.SettleFailure` | src/fitz_py/connection.py:384-389 | a rejected authentication closes connection and gate for good, any other failure is only a disconnect |
| `Connections.Connection.AcceptHello` | src/fitz_py/connection.py:467-508 | a second HELLO is an error, the first brings a fresh gate and accepts a pending authentication |
| `Connections.Connection.ReceiveFailed` | src/fitz_py/connection.py:445-453 | while an attempt authenticates a failure of any receive task refuses it; otherwise it is a connection loss if the transport is the installed one, and nothing if not |
| `Connections.Connection.DispatchReply` | src/fitz_py/connection.py:437-444 | only the installed transport's frames reach the table |
| `Connections.Connection.ConnectionLost` | src/fitz_py/connection.py:547-557 | a loss unplugs the multiplexer, closes the gate and detaches the transport in one step, unless already down |
| `Connections.Connection.Close` | src/fitz_py/connection.py:169-174 | close marks the connection, closes the gate and fails every waiting caller in one step |
| `Connections.Connection.BeginOperation` | src/fitz_py/connection.py:200-227 | stale handles, unauthenticated states and closed gates refuse; else the operation is issued or parked |
| `Connections.Connection.IssueAdmitted` | src/fitz_py/connection.py:210-221 | an admitted request is numbered and enters the table, an admitted one-way send looks up the transport |
| `Connections.Connection.LookUpTransport` | src/fitz_py/connection.py:424-427 | a send task takes the transport installed at its first step, or fails |
| `RpcCalls.OnePlaceExactly` | src/fitz_py/domains/rpc.py:500-595 | over every run, a call returned by `open_call` is at all times in exactly one of pending, being cancelled, outcome known, if and only if no task awaiting its cancellation future is cancelled before the call is settled |
| `RpcCalls.OutcomeLedger` | src/fitz_py/domains/rpc.py:500-595 | in every run a returned call is in one of the three places at least, and has a live cancellation timer exactly while it is being cancelled |
| `RpcCalls.OutcomesAreFinal` | src/fitz_py/domains/rpc.py:583-595 | a known outcome never changes, across every event |
| `RpcCalls.OutcomeTellsWhetherAsked` | src/fitz_py/domains/rpc.py:550-586 | `not_requested` only if the broker was never asked to cancel; without asking only that or `connection_closed` |
| `RpcCalls.CancelAsksExactly` | src/fitz_py/domains/rpc.py:226-236 | closing an open call asks the broker exactly if nobody has cancelled its cancellation future |
| `RpcCalls.CancelledAwaiterSilencesCancel` | src/fitz_py/domains/rpc.py:550-556 | a concrete run: a cancelled awaiter, then a cancel that never reaches the broker |
| `RpcCalls.FramesInOrder` | src/fitz_py/domains/rpc.py:177-251 | the frames a call yields are a prefix of the frames received, in order |
| `RpcHistories.RecordsFollowTheRun` | src/fitz_py/domains/rpc.py:226-271 | over every run, told from its events alone: how long a call is pending, the frames it received, the error that ended it, whether the broker was asked to cancel it, and its outcome |
| `RpcHistories.ConsumersGetTheirResponses` | src/fitz_py/domains/rpc.py:177-271 | the consumer gets a prefix of the frames that came while its call was pending, and unless a read timed out or the call was given up all of them before the end or the error that ended the call |
| `RpcHistories.ReadsYieldTheNextFrame` | src/fitz_py/domains/rpc.py:177-211 | a read made in time, or one that waited, yields the next received frame |
| `RpcHistories.ReadsTellTheEnd` | src/fitz_py/domains/rpc.py:177-211 | a read that finds nothing waits while the call is open, and tells the error that ended it, once, and then the end |
| `RpcCalls.NothingBufferedIsLost` | src/fitz_py/domains/rpc.py:177-271 | unless a read of the call timed out, or its buffer was thrown away, every received frame is yielded before the end or the error; the error is the one the call failed with, told once, and never swallowed |
| `RpcCalls.LateReadsWithholdExactly` | src/fitz_py/domains/rpc.py:183-188 | of a call whose buffer was not thrown away, frames are withheld behind an end or error if and only if a read timed out |
| `RpcCalls.ReadTimesOutExactly` | src/fitz_py/domains/rpc.py:183-200 | a read of such a call times out if and only if it happens past the deadline with something buffered |
| `RpcCalls.LateReaderSeesNoFrame` | src/fitz_py/domains/rpc.py:183-200 | once the deadline has passed and no read is waiting, the call never yields another frame, whatever happens |
| `RpcCalls.LateReaderLosesACompleteCall` | src/fitz_py/domains/rpc.py:226-228 | a concrete run: a call complete in time and read late gives a timeout at every read and never its frame |
| `RpcCalls.OnlyGivingUpDropsFrames` | src/fitz_py/domains/rpc.py:226-271 | buffered frames are thrown away only on cancellation, past the deadline, or on overflow |
| `RpcCalls.RPCClient.OpenCall` | src/fitz_py/domains/rpc.py:402-409 | a call is pending before its request is sent |
| `RpcCalls.RPCClient.FinishCall` | src/fitz_py/domains/rpc.py:577-586 | the call leaves pending, and its outcome is set only if none is known |
| `RpcCalls.RPCClient.Push` | src/fitz_py/domains/rpc.py:238-251 | a frame is buffered, ends the call, or overflows it |
| `RpcCalls.RPCClient.Fail` | src/fitz_py/domains/rpc.py:253-271 | the first failure ends the call with the error behind the buffered frames, or beside a full buffer |
| `RpcCalls.RPCClient.CloseAndCancel` | src/fitz_py/domains/rpc.py:226-236 | an open call is emptied and forgotten, and the broker is asked unless the outcome is known |
| `RpcCalls.RPCClient.SettleCancellation` | src/fitz_py/domains/rpc.py:588-595 | a cancellation under way is settled once, and its timer with it |
| `RpcCalls.RPCClient.Next` | src/fitz_py/domains/rpc.py:177-211 | a read gives a stored error, the end, a timeout, the next item, or waits, in that order |
| `RpcCalls.RPCClient.Disconnect` | src/fitz_py/domains/rpc.py:718-726 | both loops: every pending call fails, every cancellation under way is settled as closed |
| `LeaseObserverRuns.ViewIsTheReportedInventory` | src/fitz_py/domains/lease.py:352-452 | end to end, although a multi-page LIST is not atomic: ready, attached and past the reconnect handler, the view is the inventory the broker had at the last delivered notification less those counted since the pass that built the view; when also steady none have been, so the view is current or a notification is undelivered |
| `ObserverProgress.UndisturbedPassInstalls` | src/fitz_py/domains/lease.py:421-442 | a pass during which no notification came or was consumed and nothing failed, ended or was replaced makes the observer ready and steady with the view of everything listed |
| `ObserverProgress.QuietRunIsCurrent` | src/fitz_py/domains/lease.py:421-442 | left to answers, deliveries and its own steps, a pass ends ready and steady with the broker's current inventory |
| `ObserverProgress.AttachedObserverCanBecomeReady` | src/fitz_py/domains/lease.py:384-442 | from every reachable state of an attached observer past its reconnect handler and not closed, some continuation without a change at the broker makes it ready and steady with the current inventory |
| `ObserverProgress.BrokenSubscriptionIsReplaced` | src/fitz_py/domains/lease.py:477-524 | a broken subscription is replaced by the consumer task, which releases the loop and makes a relist due |
| `ObserverProgress.ReadyExactly` | src/fitz_py/domains/lease.py:352-442 | the observer becomes ready exactly by installing an undisturbed pass, and stays ready until exactly the listed events |
| `ObserverProgress.RelistIsDueExactly` | src/fitz_py/domains/lease.py:352-412 | a relist becomes due exactly with what may have made the view stale or left it unbuilt, and stays due until the loop takes notice |
| `ObserverProgress.DisturbedPassIsRepeated` | src/fitz_py/domains/lease.py:427-447 | a disturbed pass installs nothing and is repeated |
| `ObserverProgress.ConsumedItemsDisturb` | src/fitz_py/domains/lease.py:469-473 | what is consumed while a pass is under way is buffered and disturbs the pass |
| `LeaseObserverRuns.ReadyAndSteadyIsFresh` | src/fitz_py/domains/lease.py:414-452 | ready and steady mean a subscription that is live or was ended by a permanent close, and no counter moved since the start of the pass that built the view |
| `LeaseObserverRuns.ParkedMeansReadyAndSteady` | src/fitz_py/domains/lease.py:384-412 | no lost wake-up: a parked bootstrap loop means ready and steady, unless the subscription ended or the observer is closed |
| `LeaseObserverRuns.ReadyAloneIsNotFresh` | src/fitz_py/domains/lease.py:414-419 | a concrete run: ready but buffering, nothing undelivered, and the view is stale |
| `LeaseObservers.LeaseInventoryObserver.NoteNotification` | src/fitz_py/domains/lease.py:352-357 | a notification always counts, and invalidates only outside buffering |
| `LeaseObservers.LeaseInventoryObserver.NoteSubscriptionFailure` | src/fitz_py/domains/lease.py:359-371 | a failed subscription bumps the generation, unreadies and invalidates |
| `LeaseObservers.LeaseInventoryObserver.HandleReconnect` | src/fitz_py/domains/lease.py:373-382 | a reconnect bumps the generation so that a LIST in flight cannot install |
| `LeaseObservers.LeaseInventoryObserver.ConsumeItem` | src/fitz_py/domains/lease.py:469-476 | a consumed notification is buffered while buffering, else it invalidates |
| `LeaseObservers.LeaseInventoryObserver.SubscriptionOver` | src/fitz_py/domains/lease.py:477-494 | a clean end unreadies, a failure not yet noted is noted |
| `LeaseObservers.LeaseInventoryObserver.SubscriptionAttached` | src/fitz_py/domains/lease.py:521-524 | a replacement bumps the generation, is ready, and wakes the loop |
| `LeaseObservers.LeaseInventoryObserver.BeginBootstrap` | src/fitz_py/domains/lease.py:388-426 | a pass starts buffering and remembers both counters |
| `LeaseObservers.LeaseInventoryObserver.AddPage` | src/fitz_py/domains/lease.py:528-532 | the loop over a page extends the view under construction to the view of all items so far |
| `LeaseObservers.LeaseInventoryObserver.EndPass` | src/fitz_py/domains/lease.py:427-442 | a pass installs its view exactly if nothing raced it |
| `LeaseObservers.LeaseInventoryObserver.ReconcileTick` | src/fitz_py/domains/lease.py:534-544 | a tick unreadies and wakes the loop |
| `ExtensionEnvelopes.DecodesExactlyTheGrammar` | src/fitz_py/protocol/extensions.py:38-74 | `decode_payload` succeeds on exactly the byte strings of the envelope grammar, with the core and capability list they spell |
| `ExtensionEnvelopes.DecodesEncodedPayload` | src/fitz_py/protocol/extensions.py:23-43 | decoding inverts encoding for any core and ascending fields, none included, when the flag says whether there are any; a HELLO gives back the ids exactly if its field 1 is there and encodes them |
| `ExtensionEnvelopes.CutEnvelopes` | src/fitz_py/protocol/extensions.py:51-74 | a cut envelope is accepted exactly if the cut ends a field, and then as the fields before it |
| `ExtensionEnvelopes.SingleFieldEnvelopesAreNotCut` | src/fitz_py/protocol/extensions.py:51-74 | no proper prefix of a single-field envelope is accepted |
| `ExtensionEnvelopes.CapabilitiesExactly` | src/fitz_py/protocol/extensions.py:15-20 | a value decodes to a capability list exactly if it is that list's encoding |
| `ExtensionEnvelopes.EncodableExactly` | src/fitz_py/protocol/extensions.py:15-20 | exactly the lists of at most 65535 strictly ascending positive u32 ids can be encoded |
| `ExtensionEnvelopes.ExtensionFlag` | src/fitz_py/protocol/extensions.py:9-40 | the extension flag is the third bit, whatever the others are |
| `ExtensionEnvelopes.HelloNeedsItsList` | src/fitz_py/protocol/extensions.py:38-43 | a HELLO without the flag or without a capability list is an error |
| `ExtensionEnvelopes.EncodePayload` | src/fitz_py/protocol/extensions.py:23-35 | the loop writes the envelope exactly if ids ascend and lengths fit, and a bare core without fields |
| `ExtensionEnvelopes.DecodePayload` | src/fitz_py/protocol/extensions.py:38-74 | the cursor loop computes the decoding that the grammar theorem is about |
| `KvScans.ScansTheRange` | src/fitz_py/domains/kv.py:243-273 | against a broker that sends the range in order in non-empty pages, announces more whenever more is left, and may also announce it after the last pair, the scan has always yielded a prefix of the range in scan order, completes with all of it, forward and reverse, and needs at most one request more than the range has pairs |
| `KvScans.InRangeIsTheRange` | src/fitz_py/domains/kv.py:148-180 | the range is what it should be: sorted, once each, exactly the store's pairs with a key between the bounds |
| `KvScans.ContinuationIsNotGuarded` | src/fitz_py/domains/kv.py:174-180 | the bounds guard never cuts a continuation short |
| `KvScans.GuardedIsEmpty` | src/fitz_py/domains/kv.py:174-180 | where the guard answers with an empty page the range is empty |
| `KvScans.CrossedBoundsAskNothing` | src/fitz_py/domains/kv.py:174-180 | a scan asks the broker nothing exactly if its bounds are crossed in its direction |
| `KvScans.AsksForTheRest` | src/fitz_py/domains/kv.py:271-273 | every later request is for what lies past the last key of the page before it, with the same end and direction |
| `KvScans.PastThePage` | src/fitz_py/domains/kv.py:271-273 | resuming past the last key of a page leaves exactly the rest of the range |
| `KvScans.ScanYieldsThePages` | src/fitz_py/domains/kv.py:265-270 | whatever the broker answers, the pages are yielded in turn, and the scan fails exactly on an empty page that announces more |
| `KvScans.RunScanAll` | src/fitz_py/domains/kv.py:243-273 | the loop of `scan_all` yields, asks and ends as the scan the theorems are about |
| `Routes.SelectorAcceptedIffItCanMatch` | src/fitz_py/domains/_routes.py:37-68 | with interior double stars a selector is accepted exactly if it is well-formed, has no adjacent double stars, its realm is wild only where allowed, and some concrete route of the domain's depth matches it |
| `Routes.CanMatchExactly` | src/fitz_py/domains/_routes.py:61-67 | counting fixed segments decides whether some concrete route of that depth matches |
| `Routes.DefaultSelectorsCanMatch` | src/fitz_py/domains/_routes.py:69-76 | the default grammar accepts only selectors that some route of the depth matches |
| `Routes.DefaultGrammarExactly` | src/fitz_py/domains/_routes.py:69-76 | exactly which selectors the default grammar accepts: everything where the realm may be wild, a realm and everything in it, and as many literals and stars as a route has segments |
| `Routes.ConcreteRoutesAreSelectors` | src/fitz_py/domains/_routes.py:69-76 | every concrete route of the depth is accepted |
| `Routes.WholeRealmsAreSelectors` | src/fitz_py/domains/_routes.py:69-72 | every concrete realm followed by a double star is accepted |
| `Routes.PartsExactly` | src/fitz_py/domains/_routes.py:10-24 | exactly which texts are taken apart, and into which segments |
| `Routes.RealmWildcardSlipsThroughExactly` | src/fitz_py/domains/_routes.py:69-76 | where a wild realm is not allowed the default grammar still accepts one exactly for the selector of two double stars |
| `Routes.DoubleRealmStarIsAccepted` | src/fitz_py/domains/_routes.py:69-72 | the concrete selector that slips through |
| `Routes.SplitJoins` | src/fitz_py/domains/_routes.py:17 | splitting loses nothing: joining the segments gives the text back, and no segment contains a slash |
| `Routes.JoinSplits` | src/fitz_py/domains/_routes.py:17 | splitting inverts joining |
| `Routes.MatchesDecidesGlobExactly` | src/fitz_py/domains/rpc.py:782-789 | `_matches` decides the glob meaning of a pattern on every concrete route exactly if only double stars follow its first double star |
| `Routes.MatchingIsGlobOfTheCut` | src/fitz_py/domains/rpc.py:782-789 | on every pattern, `_matches` is the glob meaning of the pattern cut after its first double star |
| `Routes.WorkerPatternIsMisread` | src/fitz_py/domains/rpc.py:770-779 | a concrete pattern that `_route` accepts and `_matches` misreads |
| `Routes.Matches` | src/fitz_py/domains/rpc.py:782-789 | the segment loop returns exactly the glob meaning of the cut pattern |

## Left out

- Consumers, calls and pending requests are values kept in sequences and numbered in order of creation, not heap objects; aliasing between
  a registry and the handles its users hold is not modelled.
- Transports, sockets, TLS, wall-clock time and frame parsing: a frame arrives, a send completes, a timer fires or a
  deadline passes as an event of the run.
- Logging, metrics, lifecycle callbacks, configuration checks, backoff and jitter.
- `src/fitz_py/domains/notice.py`: repeats the subscription registry by hand.
- Queue, schedule and stream clients: field-by-field codecs with one-branch checks; their handles use the fence proved for KV.
- The per-type FIFO of pending requests in the multiplexer: nothing enters it in Wire 3.
- `AsyncDispatcher`, lazy contexts and iterators, the retry loop, the error hierarchy.
- Lease acquisition and renewal, worker dispatch and worker selection order (`_specificity`).
- `ResponseWriter`'s frame numbering, and the `_closed` flag of a transaction: the fence rests on the generation alone, and the
  flag only refuses more.
- A second cancellation of the same request while its send is in flight, overlapping open attempts, and `terminate`
  racing a restore.
- A connection loss while the previous heartbeat task is being replaced at the end of a reconnect schedules no further reconnect;
  liveness is not modelled.
- The observer's `changes()` queue, which only mirrors invalidations and drops its oldest entry when full.
- Connections.Connection.StartAttempt: asks that no other attempt be under way. `connect` sees to that for its own attempts
  (`src/fitz_py/connection.py:147-157`), and the reconnect loop does not; attempts that overlap are not modelled.
- Connections.Connection.UnplugMultiplexer: the connection holds the state of its multiplexer as a value and changes it with the step functions of
  `Multiplexers`, so this method fails the waiting futures in one assignment; the loops are in the methods of `Multiplexers.Multiplexer`.
- RequestGates.NoSkipsNoSlotLostOrDuplicated: does not cover runs in which a release meets a cancelled waiter, where the law fails; `CapacityLawExactly` says when.
- KvScans.ScansTheRange: does not fix whether the end bound belongs to the range, which the broker decides; it holds for either choice, and the page limit only bounds what the broker returns.

# agent-mesh client: a verified model

This project models the parts of the agent-mesh client that have to be right under crashes, retries, lost replies and arbitrary cuts of a byte stream, and proves what they keep. The client is a daemon that drives one or more *lanes*. A lane has an outbox of audit events that a worker pushes to a Hub, an inbox of turns that a runtime works through, channel drivers that it talks to over sockets, and a configuration that can be reloaded while it runs.

Code that updates tables, maps or buffers in place appears twice: as a class whose methods change the same fields in the same order, and as functions on values that those methods are proved to compute. The properties are then proved about the functions, over every run of a step machine or every input. A step machine is a total function `Next` (or `Apply`) on a state and a step; a step that cannot happen leaves the state alone, so every list of steps is a run. Each `await` that lets something else happen is a step boundary, and a crash is a step.

## The components

| files | what they model |
|---|---|
| `Outbox`, `OutboxStore` | the SQLite tables of a lane's outbox and every statement on them; the class `LaneOutbox` |
| `AuditLane`, `AuditLoop` | the audit worker: each stretch of its code between two awaits; the class `AuditWorker` |
| `AuditInvariant`, `AuditProtocol`, `AuditNaming` | outbox, worker, concurrent records, operator replay and an adversarial Hub as one step machine; exactly-once effect and its exact condition |
| `AuditPayload`, `AuditPolicy` | what gets from `record` to the Hub; what failures do, and how long an event rests |
| `DrainBound`, `AuditStuck` | how many passes empty a backlog; when an event can make no progress |
| `Reload`, `ReloadSlots`, `ReloadTheorem`, `ReloadExample`, `AgentMeshDaemon` | hot reload against cold start; the class `AgentMeshDaemon` |
| `TurnInbox`, `TurnHistory`, `Conversations`, `RuntimeWorker` | the turn inbox of a lane and the worker on it, as classes `RuntimeInbox` and `RuntimeWorker`; turns and conversations told by their history |
| `MeshReplies`, `MeshAddresses` | many lanes and a Hub that cannot fall into a reply loop; where replies go |
| `ChannelInbound`, `ChannelMessages` | a channel message from its delivery to its turn; the class `DurableChannelHandler`; which deliveries share an event or a turn |
| `DeliveryLedger`, `Delivery`, `DeliveryLoop`, `DeliveryLimits` | replies to channels: audit record, ledger, send, retry drain; the classes `DeliveryLedger` and `ReplyDaemon` |
| `WsFrames`, `WsPump` | the hand-written WebSocket client: frame codec and data-event pump |
| `Ndjson` | the newline-delimited JSON decoder |
| `DiagnosticRing`, `RingClock` | the rotating diagnostic buffer; for which clocks it keeps its window |
| `LaneRegistry`, `LaneAnswers` | driver registry and pending requests of a lane's channel server; where a request goes and which answer its caller gets |
| `LaneId`, `TimeOrderedId`, `MessageSplit` | three self-contained algorithms |
| `Prelude` | optional values, results, bytes, oldest-first listings |

## Where the code keeps less than one might expect

For each of these there is a concrete run or input that shows it, and a theorem that says exactly when the property does hold.

- Two append calls for one event can differ, and then the Hub's record depends on which one arrives, if the Hub names two blobs differently that the spool stores under one key (`AuditNaming.SplitRun`). Every run makes one call per event if and only if the names agree (`AuditNaming.OneCallIffKeysAgree`).
- An event that resumes at its append while another event's failure has taken its blob's Hub key away makes no progress (`AuditStuck.StuckRun`), whatever happens, until some step confirms that blob again (`AuditStuck.StuckUntilConfirmed`). An accepting Hub acknowledges it if and only if all its keys are there (`DrainBound.ResumeClosesIffKeys`).
- A reload need not end like a cold start: a channel that moves from one surviving lane to a lane listed before it does not come out as the configuration asks (`ReloadExample.MovingToAnEarlierLaneIsUnsafe`). It ends like a cold start if and only if no driven channel moves like that and no driver ran unheld before (`ReloadTheorem.ReloadIsColdStart`).
- "Completed" is not a final state of a turn (`TurnInbox.CompletedCanFail`). It stays through a run if and only if no failure report names the turn and the worker does not fail with it in hand (`TurnInbox.CompletedStaysIff`); a turn that is over is in any case never handed out again (`TurnInbox.TurnsAreNeverLost`).
- A channel message on record may never become a turn: after a crash between the outbox and the inbox (`ChannelInbound.CrashStrands`), or when queueing the turn throws at `src/lane/channel-handler.ts:142` and the driver's retry is acknowledged as a duplicate (`ChannelInbound.RefusalStrands`). `ChannelInbound.LosesIff` says for each step which messages it loses, and `ChannelInbound.NeverLostIff` that these two are the only ways.
- Two messages of one driver with the same message id, in different accounts or events, are recorded and acknowledged as two but share one turn, which carries the first one's text (`ChannelMessages.ReusedMessageId`): the inbox names a message by driver and message id, the outbox by driver, account and event id. Every message acknowledged as new has a turn with its own text, in all runs over some deliveries, if and only if no two messages among them share driver and message id and differ in text (`ChannelMessages.OwnTurnIff`).
- Deliveries of different messages can be taken for repeats of one another if a driver id, account or event id contains the NUL character that joins them (`ChannelMessages.MergedRun`). A delivery shares its event only with deliveries of its own message if and only if it contains none (`ChannelMessages.OneMessagePerEventIff`).
- A drain can send a request again that a slow reply has just delivered (`DeliveryLimits.DrainMayRepeat`); what it sends has succeeded before if and only if an answer for it arrived since the list was made (`DeliveryLimits.DrainRepeatsIff`).
- A turn answered again with another text, after a crash or by the worker's error reply, sends what was not audited (`DeliveryLimits.RetryMaySendOther`), and its success event can name a request that was never sent (`DeliveryLimits.SuccessMayNameUnsent`). Neither happens in any run if and only if no turn is answered with two different requests (`DeliveryLimits.AuditedIffOneText`, `DeliveryLimits.NamedIffOneText`).
- Bytes behind a WebSocket close frame wait for the next data event (`WsPump.BytesBehindACloseWait`). All cuts of a stream agree to its very end if and only if one data event with the whole of it leaves neither a whole frame nor an oversized header behind (`WsPump.AllCutsAgreeIff`).
- A clock that goes back lets the diagnostic buffer keep records outside its window (`DiagnosticRing.ClockGoingBackKeepsOld`). The window holds after every operation, whatever is recorded, if and only if no record that stays inside it is followed by one that falls out (`RingClock.WindowHoldsIff`).

`docs/outbox.md` calls unclassified Hub codes transient; the code asks `errorClassOf`, and the model follows the code.

## Model

| member | source | states |
|---|---|---|
| Outbox.CommitKeepsTables | src/outbox/lane-outbox.ts:275-321 | the transaction that ends `record` keeps every reference count equal to the number of events that reference the blob, every referenced blob present, and each dedup key on at most one event |
| Outbox.ReplayKeepsTables | src/outbox/lane-outbox.ts:419-453 | operator replay keeps the same table invariants, with the resume state following the state |
| Outbox.SummaryCountsEveryEvent | src/outbox/lane-outbox.ts:210-240 | each of the four counts is the number of events in its states, and together they count every event once |
| OutboxStore.LaneOutbox.Commit | src/outbox/lane-outbox.ts:275-321 | inserting blobs, event and references one statement after the other, with its loops, is the specified transaction or, on a clash of the unique keys, nothing |
| OutboxStore.LaneOutbox.ListDue | src/outbox/lane-outbox.ts:326-334 | only events waiting for a phase or whose retry time has come, oldest first, at most the limit, and none left out for a younger one |
| OutboxStore.LaneOutbox.AreBlobsConfirmed | src/outbox/lane-outbox.ts:363-368 | true exactly when every attachment's blob is confirmed |
| Outbox.EventUpdateKeepsTables | src/outbox/lane-outbox.ts:455-476 | a transition of one event, which leaves its recorded columns alone, keeps counts, links, flags and the unique key |
| OutboxStore.LaneOutbox.ReplayDeadLetters | src/outbox/lane-outbox.ts:419-453 | the named (or all) dead letters return to the queue at the phase their blobs allow, nothing else changes, and the report names them |
| Outbox.ReplayResumes | src/outbox/lane-outbox.ts:428-450 | a replayed dead letter goes back to its append exactly when all its blobs are confirmed and to its blobs otherwise, with its attempts and last error; every other row stays |
| OutboxStore.ReplayReportsAll | src/outbox/lane-outbox.ts:428-452 | replayed and skipped together list every id exactly as often as it was asked for |
| OutboxStore.ReplayReport | src/outbox/lane-outbox.ts:431-452 | the replayed ids are exactly the listed dead letters, each once |
| AuditInvariant.FailKeeps | src/hub/audit-worker.ts:167-221 | whatever error ends an event's turn, the worker touches only that event's row and the blobs it references, and keeps the lane's invariant |
| AuditInvariant.UploadsKeep | src/hub/audit-worker.ts:249-293 | confirming blobs one by one, in any mix of present and uploaded ones, keeps the invariant that stored Hub keys are keys the Hub named for that blob |
| AuditInvariant.RefsAreAllRefs | src/hub/audit-worker.ts:301-312 | when the Hub's names agree with the spool's, the attachment list built from the stored keys is the one fixed by the recorded columns |
| AuditLoop.AuditWorker.GiveUp | src/hub/audit-worker.ts:167-221 | the error branch, statement by statement, is the specified outcome: dead letter, or retry with unconfirmed blobs and the asked, approval or backoff delay |
| AuditLoop.AuditWorker.UploadFrom | src/hub/audit-worker.ts:252-293 | the upload loop stops at the first blob that needs a PUT or fails, having confirmed exactly those before it |
| AuditLoop.AuditWorker.SendAppend | src/hub/audit-worker.ts:296-330 | sends the append exactly when every attachment has a Hub key, carrying the row's payload, direction, source, correlation, time, producer and event type and one reference for each attachment; otherwise it fails without sending |
| AuditLoop.AuditWorker.BeginEvent | src/hub/audit-worker.ts:148-160 | an event starts at the phase its state or resume state says |
| AuditLoop.AuditWorker.PrepareDone | src/hub/audit-worker.ts:240-294 | the worker after the Hub's preparation answer: count and hash checks, then the upload loop |
| AuditLoop.AuditWorker.PutDone | src/hub/audit-worker.ts:272-293 | the worker after one upload: 200 and 201 confirm and go on, other 4xx except 408 and 429 are permanent |
| AuditLoop.AuditWorker.AppendDone | src/hub/audit-worker.ts:160-221 | the worker after the append's answer |
| AuditProtocol.NothingIsLost | src/outbox/lane-outbox.ts:370-476 | over every run with crashes, replay and any Hub: no event disappears, its recorded columns never change, ACKED is absorbing, attempts never decrease, and Hub records are never rewritten |
| AuditProtocol.TablesStaySound | src/outbox/lane-outbox.ts:139-178 | over every run, including interleaved and rolled-back records: reference counts, links, dedup keys, resume states and confirmation flags are consistent |
| AuditProtocol.DuplicateRecordsReturnOneEvent | src/outbox/lane-outbox.ts:252-257 | any number of concurrent records with one dedup key return one event, which carries that key |
| AuditProtocol.AcknowledgedMeansRecorded | src/hub/audit-worker.ts:148-161 | in every run each append carries its row, column by column, and names only keys the Hub has confirmed; an ACKED event's record exists at the Hub and carries the row |
| AuditPayload.CommitRecords | src/outbox/lane-outbox.ts:264-321 | the event a record commits has the input's columns and the time, lists each staged file once and starts at its blobs, untried; no other row changes |
| AuditPayload.CommitStores | src/outbox/lane-outbox.ts:276-319 | a blob row that exists is referenced once more if the event lists it; a new one describes its file, referenced once and not confirmed |
| AuditPayload.RecordDecides | src/outbox/lane-outbox.ts:242-263 | a record without capacity is refused and one with a known dedup key returns its event, both leaving the tables alone, and so does a file that cannot be stored |
| AuditPayload.CallsCarryTheirRows | src/hub/audit-worker.ts:296-330 | in every run an append carries the columns of its event, and that event is a row of the input some record call returned it for |
| AuditPayload.AcknowledgedIsWhatWasGiven | src/hub/audit-worker.ts:160-161 | in every run what the Hub holds of an ACKED event is the payload, direction, source, correlation, producer and attachments that a record call was given and returned this event for |
| AuditPayload.ReturnedIsOwnOrDuplicate | src/outbox/lane-outbox.ts:252-257 | a record call returns an event with its own columns, or the one that has its dedup key |
| AuditPayload.ReplayOfAllLeavesNone | src/outbox/lane-outbox.ts:419-453 | an operator's replay of everything leaves no dead letter and no other row changed |
| AuditPolicy.FailureOutcome | src/hub/audit-worker.ts:167-221 | each failure's outcome column by column: which ones dead-letter the event, the pause and phase of the others, the error code, and the blobs that count as unconfirmed |
| AuditPolicy.PutVerdict | src/hub/audit-worker.ts:279-291 | an upload is stored with 200 or 201, refused for good with any other 4xx but 408 and 429, and to be tried again otherwise |
| AuditPolicy.EventStartsAt | src/hub/audit-worker.ts:224-239 | an event that was at its append resumes there; one with attachments asks for grants unless the capability does not match, to wait, or it is over a limit, for good |
| AuditPolicy.BackoffIs | src/hub/audit-worker.ts:81-86 | the pause is within a fifth of one second doubled with every attempt up to five minutes, or of ten minutes up to an hour when an operator must act; the clamp at sixteen attempts never shows |
| AuditPolicy.FailureRests | src/hub/audit-worker.ts:213-220 | a failure that is not final leaves its event waiting for its retry, with no copy of it in the worker's hands |
| AuditPolicy.RestsUntilItsTime | src/hub/audit-worker.ts:133-146 | whatever else happens, an event waiting for its retry stays as it is and no call is made for it before that time |
| AuditProtocol.ExactlyOnceEffect | src/hub/audit-worker.ts:296-330 | if the Hub's blob names agree with the spool's, all appends ever sent for one event are one and the same call, each reference under the Hub's name for its file, and so is the Hub's only record of it |
| AuditNaming.SplitRun | src/hub/audit-worker.ts:198-219 | a run with two different appends for one event, for any two names the spool merges and the Hub does not |
| AuditNaming.OneCallIffKeysAgree | src/hub/audit-worker.ts:301-304 | every run makes one call per event if and only if the Hub's blob names agree with the spool's |
| DrainBound.AcceptedCloses | src/hub/audit-worker.ts:148-222 | an event whose calls the Hub accepts, whichever of its blobs are there already, ends ACKED, or dead-lettered when it exceeds the Hub's limits, and no other row changes |
| DrainBound.PassShrinksBacklog | src/hub/audit-worker.ts:133-146 | one pass over the oldest twenty takes exactly twenty off the open events, or all of them, with limits, present blobs and times of its own for each event |
| DrainBound.BacklogDrains | src/hub/audit-worker.ts:133-146 | n open events are closed within ceil(n/20) accepted passes, each with a Hub and a clock of its own |
| DrainBound.ResumeWithoutKeyIsStuck | src/hub/audit-worker.ts:301-304 | an event resuming at its append without a Hub key sends nothing and comes back to the same place |
| DrainBound.ResumeClosesIffKeys | src/hub/audit-worker.ts:296-330 | an event resuming at its append is acknowledged by an accepting Hub if and only if every attachment has a Hub key |
| AuditStuck.StuckRun | src/hub/audit-worker.ts:198-219 | a run, from empty tables, that leaves an event resuming at its append with its Hub key taken away by another event's failure |
| AuditStuck.StuckUntilConfirmed | src/hub/audit-worker.ts:296-304 | from any such state of any run, until some step confirms the blob again, the event makes no new append and is not acknowledged, whatever else happens |
| AuditStuck.ProgressNeedsConfirmation | src/hub/audit-worker.ts:296-304 | a later append or acknowledgement of that event shows that the blob was confirmed in between |
| ReloadTheorem.ReloadIsColdStart | src/daemon/agent-mesh-daemon.ts:118-166 | after a reload the controllers, workers, connections and supervisors are a cold start's if and only if no driven channel moves from a surviving lane to an earlier one and no stray driver ran |
| ReloadExample.MovingToAnEarlierLaneIsUnsafe | src/daemon/agent-mesh-daemon.ts:153-166 | two valid configurations: started on the first there is no stray driver, and after a reload of the second, which moves a channel to an earlier lane, the result is not a cold start's |
| ReloadTheorem.KeepingChannelsInTheirLanes | src/daemon/agent-mesh-daemon.ts:259-291 | so a reload that moves no channel id between lanes equals a cold start |
| ReloadTheorem.SurvivingLaneIsUntouched | src/daemon/agent-mesh-daemon.ts:124-132 | an enabled lane whose settings outside `channels` are unchanged, under an unchanged Hub, keeps the very objects it had, whatever becomes of its channels |
| ReloadTheorem.OtherLanesAreMadeAnew | src/daemon/agent-mesh-daemon.ts:133-163 | of every other lane nothing is left that was there before the reload: all it has was made by it |
| ReloadTheorem.UnchangedDriverIsUntouched | src/daemon/agent-mesh-daemon.ts:264-277 | a driver that such a lane still wants as it is keeps running, never stopped |
| ReloadTheorem.ReloadOfColdStartIsIdle | src/daemon/agent-mesh-daemon.ts:118-166 | reloading the configuration that is running changes nothing |
| ReloadTheorem.ReloadTwice | src/daemon/agent-mesh-daemon.ts:118-166 | repeating a reload changes nothing |
| ReloadTheorem.StartIsColdStart | src/daemon/agent-mesh-daemon.ts:79-92 | a reload of the empty daemon builds what a cold start builds |
| AgentMeshDaemon.AgentMeshDaemon.Start | src/daemon/agent-mesh-daemon.ts:79-92 | the three walks over the lanes leave exactly the objects the configuration asks for |
| AgentMeshDaemon.AgentMeshDaemon.Reload | src/daemon/agent-mesh-daemon.ts:118-166 | the teardown and reconcile loops, entry by entry, compute the specified reload, keep the daemon's invariant, leave every lane with unchanged settings its objects and drivers, and end like a cold start exactly under the safe condition |
| AgentMeshDaemon.AgentMeshDaemon.SyncChannelSupervisors | src/daemon/agent-mesh-daemon.ts:259-291 | stops exactly this lane's stale drivers, then starts exactly the wanted ids nobody holds |
| AgentMeshDaemon.AgentMeshDaemon.RemoveLane | src/daemon/agent-mesh-daemon.ts:133-150 | a dropped lane's worker, session, drivers, server, connection and controller are gone, others stay |
| TurnInbox.InboxIsSafe | src/runtime/inbox.ts:183-244 | over every run: one turn per source message, no turn handed out twice between restarts, observed turns never pending or running, at most one turn running in a worker-driven lane |
| TurnInbox.ClaimsFollowArrivals | src/runtime/inbox.ts:221-244 | with a non-decreasing clock, turns are handed out between restarts in order of arrival |
| TurnInbox.TurnsAreNeverLost | src/runtime/inbox.ts:343-366 | a turn never disappears or changes its source, and once it is over it is never pending or running again, not even after a restart |
| TurnInbox.RestartReturnsUnfinished | src/runtime/inbox.ts:134-135 | in every run a restart returns to pending exactly the turns that were handed out since the last one and are not over; every other turn is as it was, and none is running |
| TurnInbox.CompletedCanFail | src/daemon/agent-mesh-daemon.ts:670-684 | a run that completes a turn and then fails it |
| TurnInbox.CompletedStaysIff | src/runtime/inbox.ts:343-366 | a completed turn stays completed through a run if and only if no step of it is a failure report for that turn or a failure of the worker that has it in hand |
| TurnInbox.SavedIsResumed | src/runtime/worker.ts:52-64 | the next turn of a context resumes the conversation saved last, unless workspace, runtime or model changed; other contexts are untouched |
| Conversations.ConversationTells | src/runtime/inbox.ts:296-332 | in every history a context has a conversation exactly if it was saved since it was last forgotten: the last one saved, counting all of them from the first |
| TurnHistory.TurnIsWhatArrived | src/runtime/inbox.ts:183-212 | in every run a turn has the kind, source, text, sender and reply reference of what arrived for it, and that time |
| TurnHistory.EndIsTheLastOne | src/runtime/inbox.ts:343-366 | in every run a completed turn has the response, and a failed one the error code, of the last step that ended it |
| TurnInbox.RuntimeInbox.Next | src/runtime/inbox.ts:221-228 | an oldest pending turn, or none exactly when nothing is pending |
| TurnInbox.RuntimeInbox.ClaimNext | src/runtime/inbox.ts:230-244 | an oldest pending turn is running afterwards and nothing else changed |
| TurnInbox.RuntimeInbox.EnqueueTurn | src/runtime/inbox.ts:183-212 | a known source gets its existing turn and nothing changes; a new one gets a turn with what arrived, pending unless it answers an answer |
| RuntimeWorker.RuntimeWorker.TakeNext | src/runtime/worker.ts:39-51 | the worker takes an oldest pending turn and has it running before anything else can happen, or finds nothing pending |
| RuntimeWorker.RuntimeWorker.TurnSucceeded | src/runtime/worker.ts:83-91 | the turn in hand is completed, and its context's next turn would resume this conversation |
| MeshReplies.NoReplyLoop | src/daemon/agent-mesh-daemon.ts:298-308 | over every run with lost, late and repeated messages and restarts: every automatic reply refers to a message that is itself no reply, each lane answers such a message at most once, so automatic replies never outnumber deliveries of such messages |
| MeshReplies.NoAnswerToAnAnswer | src/runtime/inbox.ts:154-162 | no automatic reply is ever sent in answer to an automatic reply |
| MeshAddresses.RepliesGoBack | src/daemon/agent-mesh-daemon.ts:298-308 | in every run an automatic reply refers to a message at the Hub, goes to that message's sender and carries the text its lane answered |
| MeshAddresses.TurnsAreMessages | src/runtime/inbox.ts:149-164 | in every run a mesh turn is a message of the Hub: sender, text and reply reference |
| ChannelInbound.AcknowledgedIsDurable | src/lane/channel-handler.ts:108-148 | over every run: what was acknowledged is on record under its key with the event id that was answered, what was acknowledged as new has a turn under its source, no turn exists without a record, one source never gets two turns |
| ChannelMessages.KeyNamesOneMessageIff | src/lane/channel-handler.ts:108-112 | a delivery's key belongs to no other driver, account and event id if and only if none of the three contains the separator |
| ChannelMessages.AcknowledgedMessageIsOnRecord | src/lane/channel-handler.ts:108-148 | in every run an acknowledgement answers a delivery, and the event it names came from a delivery of the same message, unless the separator occurs, with that delivery's text, message id and driver |
| ChannelMessages.MergedRun | src/lane/channel-handler.ts:108-121 | a run in which a delivery with another one's key is acknowledged with that one's event |
| ChannelMessages.OneMessagePerEventIff | src/lane/channel-handler.ts:108-121 | in all runs deliveries acknowledged with one event are deliveries of one message, if and only if the separator does not occur in them |
| ChannelMessages.ReusedMessageId | src/runtime/inbox.ts:168-181 | a run in which a message acknowledged as new has no turn with its text, because an earlier one has its message id |
| ChannelMessages.OwnTurnIff | src/runtime/inbox.ts:168-212 | every message acknowledged as new has a turn with its own text, in all runs over some deliveries, if and only if no two messages among them share driver and message id and differ in text |
| ChannelInbound.CrashStrands | src/lane/channel-handler.ts:124-142 | a run in which a crash after the record and before the turn leaves a recorded message without a turn |
| ChannelInbound.RefusalStrands | src/lane/channel-handler.ts:142 | a run without a crash in which the inbox refuses the turn, and the recorded message is left without one |
| ChannelInbound.LosesIff | src/lane/channel-handler.ts:124-148 | a step loses a recorded message if and only if the message has no turn and the step is a crash or a refused queueing that ends the last request carrying it |
| ChannelInbound.NeverLostIff | src/lane/channel-handler.ts:108-148 | every recorded message has a turn under its source or a request that will queue it, in all runs, if and only if neither crashes nor refused queueings are among the steps |
| ChannelInbound.StrandedStaysStranded | src/lane/channel-handler.ts:113-121 | from then on every delivery of it is acknowledged as a duplicate and none makes the turn |
| DeliveryLedger.DeliveryLedger.ListPendingActions | src/outbox/lane-outbox.ts:510-530 | the oldest twenty actions pending since the given time, with the requests reserved for them |
| DeliveryLedger.ListedIsPending | src/outbox/lane-outbox.ts:510-530 | every listed action was pending, untouched since the given time, with exactly the listed request |
| DeliveryLedger.OldPendingIsListed | src/outbox/lane-outbox.ts:510-530 | a pending action untouched since then is listed, unless twenty no younger ones are |
| Delivery.AuditBeforeAction | src/daemon/agent-mesh-daemon.ts:336-368 | over every run with crashes and drains, nothing is sent to a driver before its turn's request event is durable |
| Delivery.OneOfEach | src/daemon/agent-mesh-daemon.ts:350-391 | each turn has at most one request event, one reservation and one success event |
| Delivery.DrainResendsReserved | src/daemon/agent-mesh-daemon.ts:413-420 | the drain sends exactly the request that was reserved before for the turn |
| Delivery.SuccessIsFinal | src/daemon/agent-mesh-daemon.ts:378-399 | a success event implies a succeeded ledger row and a request event, in every later state, and a turn completed here has its success event |
| DeliveryLoop.ReplyDaemon.ReserveThenSend | src/daemon/agent-mesh-daemon.ts:352-368 | one stretch reserves, and then finishes from a stored answer or hands the request to the driver, never both; every action keeps the request it was reserved with |
| DeliveryLoop.ReplyDaemon.DrainStarts | src/daemon/agent-mesh-daemon.ts:402-413 | one drain at a time, over a list made once from the ledger, of actions pending and untouched for five seconds |
| DeliveryLoop.ReplyDaemon.DrainAlone | src/daemon/agent-mesh-daemon.ts:402-438 | the drain loop, undisturbed: every listed action whose driver is there is sent once, as reserved and oldest first; those answered have succeeded, the others are still pending, and exactly those with a success event are completed |
| DeliveryLimits.DrainMayRepeat | src/daemon/agent-mesh-daemon.ts:413-420 | a run in which the drain sends a request again after it has succeeded |
| DeliveryLimits.DrainRepeatsIff | src/daemon/agent-mesh-daemon.ts:413-420 | in every run, what a drain sends from its list has succeeded before if and only if an answer for it arrived since the list was made |
| DeliveryLimits.RetryMaySendOther | src/daemon/agent-mesh-daemon.ts:336-368 | a run in which what is sent is not what the request event says |
| DeliveryLimits.AuditedIffOneText | src/daemon/agent-mesh-daemon.ts:350-368 | what is sent is what was audited, in every run, if and only if no turn is ever answered with two different requests |
| DeliveryLimits.SuccessMayNameUnsent | src/daemon/agent-mesh-daemon.ts:353-361 | a run in which the success event names a request that was never sent |
| DeliveryLimits.NamedIffOneText | src/daemon/agent-mesh-daemon.ts:353-399 | every success event names a request sent before it, in every run, if and only if no turn is ever answered with two different requests |
| WsFrames.EncodeFrame | src/runtime/ws-unix-client.ts:41-61 | the encoder with its masking loop writes the final, masked frame of section 5.2 of RFC 6455 in the shortest length form |
| WsFrames.DecodeFrame | src/runtime/ws-unix-client.ts:64-94 | the decoder with its early returns and in-place unmasking computes the specified decoding |
| WsFrames.UnmaskedAgain | src/runtime/ws-unix-client.ts:88-92 | masking twice with the same four bytes gives back every payload |
| WsFrames.XorIsBitwise | src/runtime/ws-unix-client.ts:45 | masking is exclusive or: each of the eight bits is set exactly when the two bytes differ in it |
| WsFrames.BitsMakeTheByte | src/runtime/ws-unix-client.ts:45 | these eight bits are the binary digits of the byte |
| WsFrames.EncodedIsClientFrame | src/runtime/ws-unix-client.ts:41-61 | what is sent, byte by byte: FIN and opcode, the length in its shortest form, the mask, and each payload byte with exactly the bits in which it differs from its mask byte |
| WsFrames.DecodedIsFrame | src/runtime/ws-unix-client.ts:64-94 | what is decoded, byte by byte: FIN, opcode, the length in its three forms, and each payload byte with its mask byte taken off bit by bit |
| WsFrames.DecodeOfWire | src/runtime/ws-unix-client.ts:64-94 | any frame, in any length form that fits, masked or not, followed by any bytes, decodes to that frame and exactly those bytes, or to "too large" beyond 2^53 - 1 |
| WsFrames.DecodeOfEncoded | src/runtime/ws-unix-client.ts:41-94 | decoding what the encoder wrote returns its opcode, FIN, payload and the bytes behind it |
| WsFrames.PrefixIsNotYet | src/runtime/ws-unix-client.ts:64-86 | every strict prefix of a frame decodes to "not yet" |
| WsFrames.DecodeIsStable | src/runtime/ws-unix-client.ts:64-94 | an answer of the decoder does not change when bytes are appended |
| WsFrames.OnlyWiresDecode | src/runtime/ws-unix-client.ts:64-94 | conversely, bytes with clear reserved bits decode to a frame only if they are that frame on the wire followed by the rest |
| WsPump.WsConnection.OnData | src/runtime/ws-unix-client.ts:166-198 | one data event with its loop over the buffer delivers exactly the specified events and leaves the specified buffer and fragments; the close reason is noted once |
| WsPump.ChunkingDoesNotMatter | src/runtime/ws-unix-client.ts:166-198 | two ways of cutting the same bytes into data events deliver the same messages and pongs up to and including the first close frame or oversized header, and without one leave the same state |
| WsPump.BytesBehindACloseWait | src/runtime/ws-unix-client.ts:172-177 | beyond a close frame two cuts of the same bytes can differ |
| WsPump.AllCutsAgreeIff | src/runtime/ws-unix-client.ts:166-198 | all cuts of a stream give the same events and the same final state if and only if one pump of the whole leaves neither a whole frame nor an oversized header behind |
| WsPump.MessagesArrive | src/runtime/ws-unix-client.ts:178-187 | messages cut into fragments, with control frames between them, written in any form and cut anywhere, arrive whole and in order, with one pong for each ping (sections 5.4 and 5.5 of RFC 6455) |
| Ndjson.NdjsonDecoder.PushChunk | src/channel-rpc/ndjson.ts:25-65 | the push loop computes the specified answer and buffer, and leaves no newline and at most the limit behind when it succeeds |
| Ndjson.DrainReadsLines | src/channel-rpc/ndjson.ts:31-64 | a push succeeds exactly when every complete line is non-empty, within the limit and readable and the rest is within the limit; it then answers the lines' values and keeps the rest |
| Ndjson.DrainBadLine | src/channel-rpc/ndjson.ts:43-63 | otherwise the first unreadable line decides the error, and exactly what follows it stays buffered |
| Ndjson.LinesOf | src/channel-rpc/ndjson.ts:31-44 | every stream is lines and an unfinished rest |
| Ndjson.ChunkingDoesNotMatter | src/channel-rpc/ndjson.ts:25-65 | any cuts succeed throughout exactly when one push of the whole does, with the same values and rest; otherwise both fail for the same kind of reason |
| Ndjson.FramesArrive | src/channel-rpc/ndjson.ts:68-77 | encoded frames, cut anywhere, decode to the values, nothing left over, for any codec that inverts itself and emits no raw newline |
| DiagnosticRing.DiagnosticRing.Record | src/diagnostics/ring-buffer.ts:82-105 | the parallel lists and counters after a record are the specified ring |
| DiagnosticRing.DiagnosticRing.Snapshot | src/diagnostics/ring-buffer.ts:127-136 | the snapshot holds the retained end of the history; dropped plus retained is recorded and the bytes are their sum, within the limit |
| DiagnosticRing.RotatedIsLongest | src/diagnostics/ring-buffer.ts:114-125 | dropping from the front, looking only at the oldest record and the total, ends at the longest end of the history that fits both bounds |
| DiagnosticRing.HoldsLongestFit | src/diagnostics/ring-buffer.ts:82-144 | with a non-decreasing clock, after every operation of every run, the buffer is the longest end of everything recorded since `clear` that fits both bounds |
| DiagnosticRing.CountsEverything | src/diagnostics/ring-buffer.ts:114-144 | with any clock, nothing is forgotten but by counting it, the size limit holds after every operation and the age limit holds for the oldest record |
| DiagnosticRing.ClockGoingBackKeepsOld | src/diagnostics/ring-buffer.ts:116-120 | a run with a clock going back that keeps a record outside the window |
| RingClock.WindowHoldsIff | src/diagnostics/ring-buffer.ts:114-125 | the window holds after every operation, whatever is recorded at these times, if and only if no record that stays inside it is followed by one that falls out of it |
| LaneRegistry.LaneServer.OnClose | src/channel-rpc/lane-server.ts:392-407 | the close handler rejects every pending request of its connection and removes the driver's entry only if it is still this connection |
| LaneRegistry.LaneServer.StopServer | src/channel-rpc/lane-server.ts:320-327 | every registered driver's socket is destroyed and no entry is left |
| LaneRegistry.EntryIsLastRegistered | src/channel-rpc/lane-server.ts:392-461 | after any interleaving of events, a driver's entry is a connection if and only if it is the last one registered under the id whose close, or a stop, has not been handled since |
| LaneRegistry.ReplacementSurvives | src/channel-rpc/lane-server.ts:403-406 | a superseded connection's close never evicts its replacement |
| LaneRegistry.PendingHoldsOnlyOpen | src/channel-rpc/lane-server.ts:262-290 | the pending tables hold exactly the requests still waiting, each at its own connection; a closed connection holds none |
| LaneRegistry.SettlesOnce | src/channel-rpc/lane-server.ts:262-290 | an answer never changes once given, and neither does what the caller got |
| LaneRegistry.LaneServer.OnResponse | src/channel-rpc/lane-server.ts:410-428 | an open request of this connection gets exactly the answer that came, and anything else is ignored |
| LaneAnswers.RequestGoesIff | src/channel-rpc/lane-server.ts:238-262 | read off the events: a request goes to a connection if and only if the driver can take it, that is the last connection registered for it, and nothing has ended it; otherwise it is refused |
| LaneAnswers.CallerGetsFirstAnswer | src/channel-rpc/lane-server.ts:262-290 | read off the events: the caller of a written request gets exactly what the first of these holds, the driver's answer over that connection, the timer, or the close; before it nothing, and the failure if writing failed |
| LaneRegistry.NothingHangs | src/channel-rpc/lane-server.ts:263-274 | a written request without an answer gets one from its timer or from its connection's close |
| LaneId.DeriveLaneId | src/tui/app.ts:347-361 | the loop ends and returns the first free one of base, base-2, base-3, …, no later than one past the number of taken ids |
| LaneId.FewerThanTaken | src/tui/app.ts:358-359 | the suffix loop's bound: as many different candidates as turns, all taken |
| LaneId.BaseIsJoinedWords | src/tui/app.ts:351-355 | the replace chain yields the maximal runs of letters and digits of the lowered, hyphenated identity, joined by single hyphens |
| LaneId.DerivedIsValid | src/config/store.ts:76 | the derived id is free, and accepted by the configuration if and only if the lowered identity has a letter a-z or a digit |
| LaneId.DerivedIsUnique | src/tui/app.ts:356-360 | the least free suffix is the only answer |
| LaneId.AsciiIdentityIsValid | src/tui/app.ts:347-361 | an ASCII identity with a letter or digit always gets a valid lane id |
| TimeOrderedId.IdSource.UuidV7 | src/util/ids.ts:6-25 | the byte loop and the nibble writes produce the specified id, and the two module variables advance as specified |
| TimeOrderedId.Layout | src/util/ids.ts:13-21 | version 7, the right variant, the timestamp back from the first 48 bits, the counter from the next 12 and the random bits behind (section 5.7 of RFC 9562) |
| TimeOrderedId.TextReadsBack | src/util/ids.ts:23-24 | the text has its hyphens at their four places and every byte as two lower-case hexadecimal digits |
| TimeOrderedId.EarlierIsSmaller | src/util/ids.ts:13-24 | a smaller timestamp gives a lexicographically smaller string, whatever the rest |
| TimeOrderedId.DistinctWithinMillisecond | src/util/ids.ts:7-21 | any 4096 consecutive ids of one timestamp are pairwise distinct, whatever the random bytes |
| TimeOrderedId.CounterWrapsAround | src/util/ids.ts:7 | the 4097th repeats the first as soon as the random bytes do |
| MessageSplit.Chunks | src/channel-driver/discord.ts:48-60 | the shrinking loop ends and returns the specified split |
| MessageSplit.Boundary | src/channel-driver/discord.ts:53-54 | the cut lies between 1000 and 2000, as late as a newline allows, and is hard only if there is no newline from 1000 on |
| MessageSplit.SplitRejoins | src/channel-driver/discord.ts:48-60 | for every text: chunks of at most 2000 units, all but the last at least 1000, none empty; with the one newline or nothing put back at each cut they are the text, and nothing is dropped at a hard cut |
| MessageSplit.TrailingNewlineIsDropped | src/channel-driver/discord.ts:56-58 | for every long text, a newline is dropped for good behind the last chunk if and only if it is all that the last cut leaves |

## Left out

- Sockets, HTTP, file system, tmux, service managers and child processes: nondeterministic steps, or not modelled.
- SQLite: every statement or transaction is one atomic and durable step; pragmas, migrations and the `spool_path` and `last_verified_at` columns are not modelled.
- Ed25519, SHA-256, blob key derivation and error classification: uninterpreted functions of a `Contract`; what they must satisfy is a hypothesis of the lemma that needs it.
- JSON and UTF-8: parameters, with a round-trip law where one is needed; an attachment list is a list of well-formed entries.
- Attachment validation and the spool's ingest: a record may be refused at either, but what is checked is not part of this model.
- Awaits of the worker that wait for nothing outside the process (such as signing an upload) are merged with the following one, and a request counts as sent when it is handed to the connection.
- The audit worker's backoff jitter and all clocks are parameters; the running status and diagnostics of the worker are not modelled.
- A failing or overlapping reload, and stopping the daemon: a reload's awaits are not step boundaries.
- Birth dates in the reload model are not in the original; they stand for object identity.
- `ViewOf` compares a configuration's text where the original compares JSON text.
- AuditProtocol: one worker per outbox; a second daemon on the same files is not modelled.
- MeshReplies: people's own sends carry any client message id; only sends made for a turn count as automatic.
- ChannelMessages: the turns of this machine are not worked on; what becomes of them later is stated of the turn inbox.
- Delivery: the drain visits one lane; a driver's answer that comes after the timeout is ignored, as it is in the original.
- LaneRegistry: connections are numbers rather than objects; a superseded socket's `end()` is its later close event; protocol errors of a driver are not modelled.
- WsPump: an exception of the very first pump, before any data event, is handled as in a data event; the original leaves it to the caller of `attach`.
- Ndjson: the message texts of errors.
- DiagnosticRing: redaction, and record sizes are given.
- LaneId: `toLowerCase` beyond ASCII is a parameter, so validity is stated on its result.
- Claude, Codex and Antigravity adapters, the Discord gateway, the TUI, the CLI and the configuration prompts.

# ZedHub Connector: a verified model

The connector collects Home Assistant events and snapshots, stores them in a bounded queue, and uploads them
to IoT Core, which owns the uplink cursor. It also runs local rules while offline and executes commands from
Core. This project models those parts in Dafny and proves what the repository's documentation and comments
promise about them.

`dafny verify dfyconfig.toml` checks the whole project.

## How the model is organised

**Store and forward.** `UplinkQueue` is the SQLite queue as a class, one transaction per method, each method
tied to a function on the queue's state. `UplinkProtocol` is the whole protocol as one state machine: queue,
upload thread, network and Core. A run is any sequence of steps, so uploads may arrive late, repeatedly or
never, answers may be lost or read late, and expiry, new items, restarts and session recoveries fall anywhere
in between. Core accepts a batch that starts at or below its cursor + 1, ignores sequences it has seen, never
moves its cursor back, and serves only the latest session generation. `HubRuntime` is the runtime object with
`flush_once`; every atomic action it takes is also a step of that machine, so each state it is ever in is
reachable there and the results about runs apply to it.

**What is proved about it.** No gap in Core's cursor, ever (`NoGapEver`). Exactly-once delivery end to end
(`ExactlyOnceDelivery`), together with the exact condition it needs (`ExactlyOnceIffTame`): age expiry must
not fire while an upload is outstanding or unresolved, and a session's cursor must not be applied after a
later acknowledgement. The code ensures neither. From any state with exactly-once delivery, a step that breaks
the condition can be continued so that an accepted item vanishes uncounted (`UntameStepLosesAnItem`), and two
concrete runs show it from installation on: the heartbeat's queue summary expires the queue during an upload
(`AcceptedItemVanishes`), and the upload thread finishes a batch between the publication of a session and the
application of its cursor (`LateCursorLosesAnItem`). Every loss is followed by a snapshot
(`EveryLossIsCovered`), provided that the flag is cleared while the drop counter stands where it stood when
the snapshot was accepted. That condition is exact (`ClearIsSafeIffInTime`), the code does not check it
(`LateClearUncoversALoss`), and a loss forgotten that way stays forgotten (`LateClearIsForgotten`). Realtime
labels are sound over whole runs (`RealtimeLabelsAreSound`, `UncertainItemsStayReplay`). The half-open probe
is always given back (`FlushOnce`), except in the one window where shutdown clears the session outside the
guarded part.

**Local rules.** `RuleConditions` and `RuleTraces` are the recursive evaluator and its traces, and `RuleMeaning`
says what every operator, comparison and path means without the evaluator's own helpers; `RuleStore`,
`RuleLedger`, `RuleControls` and `RuleRuntime` are the ledger with its ranked pruning, the reserve, dispatch,
finalize protocol with crashes and uploads, and the control list. A reservation can be lost, by an upload that
marks the row of a key reserved again and a prune more than the retention later: `ReservationLostIffLate` is
the exact condition, `ReservationGoesMissing` a concrete run, and an execution that is over within the
retention (at least a day) is safe (`SwiftExecutionsAreOnTime`).

**Commands and sessions.** `CommandReceipts` bounds the Home Assistant calls made for a command over all
redeliveries and crashes, with the exact condition on deadline and retention. `HubSession` covers session
replacement and token binding.

## Modelling choices

- The queue table is a sequence of rows in primary-key order. The Python code runs some SELECTs before SQLite
  opens its implicit transaction; the model takes each queue method as one atomic step.
- Clock readings, request outcomes and what other threads do are parameters. Times are integers. The command
  model counts microseconds, the resolution of the Python clock.
- An item's identity is the position of its admission in the history. A payload keeps that identity, its
  optional source id and its replay label.
- Connecting a session and applying its cursor are two steps, and so are enqueueing a reconciliation snapshot
  and clearing the flag; anything may happen between them.
- Ties in the ledger's ranking are left open: pruning is a relation that allows any tie-break.
- The documentation says queue retention clears "the remaining unacknowledged tail". The code clears every
  row after the last acknowledgement the connector has seen, which can include rows Core already holds; the
  model follows the code.

## Model

| member | source | states |
|---|---|---|
| UplinkQueue.BoundedUplinkQueue.constructor | src/zediot_ha_hub_connector/queue.py:294-352 | reopening a stored queue turns every never-attempted row into an attempted one and changes nothing else |
| UplinkQueue.BoundedUplinkQueue.ExpireStale | src/zediot_ha_hub_connector/queue.py:354-383 | one row past the age limit clears the whole queue, restarts numbering after the last ACK and counts every row as dropped |
| UplinkQueue.ExpireMeans | src/zediot_ha_hub_connector/queue.py:354-383 | nothing expires while no row is too old, and one that is takes the whole queue with it |
| UplinkQueue.BoundedUplinkQueue.RecordDropped | src/zediot_ha_hub_connector/queue.py:385-395 | a positive count is added to the drop counter and asks for reconciliation |
| UplinkQueue.BoundedUplinkQueue.Push | src/zediot_ha_hub_connector/queue.py:38-88 | expiry first, then rejection on either byte limit, rollback on a key that is taken, or insertion under the next sequence |
| UplinkQueue.EnqueueMeans | src/zediot_ha_hub_connector/queue.py:38-88 | rejected exactly when a byte limit is broken, and then counted; otherwise exactly one fresh row is added under the next sequence |
| UplinkQueue.SumIsAdditive | src/zediot_ha_hub_connector/queue.py:48-61 | the byte sum that the limit is checked against is the sum of the sizes of the rows |
| UplinkQueue.BoundedUplinkQueue.PeekAll | src/zediot_ha_hub_connector/queue.py:122-151 | the head of the queue after expiry; nothing returned is older than the age limit |
| UplinkQueue.BoundedUplinkQueue.Summarize | src/zediot_ha_hub_connector/queue.py:260-283 | depth, bytes, oldest and latest sequence, drops and the reconciliation flag after expiry: reading the summary can itself expire the queue |
| UplinkQueue.BoundedUplinkQueue.MarkDeliveryAttempted | src/zediot_ha_hub_connector/queue.py:153-167 | exactly the rows with a named sequence gain one attempt and the time of it |
| UplinkQueue.BoundedUplinkQueue.MarkPendingDeliveryUncertain | src/zediot_ha_hub_connector/queue.py:169-184 | every row ends with at least one attempt and a time stamp, counters already set keep their value |
| UplinkQueue.BoundedUplinkQueue.AcknowledgeThrough | src/zediot_ha_hub_connector/queue.py:186-209 | rows up to the cursor go, and neither the ACK cursor nor the next sequence ever moves back |
| UplinkQueue.BoundedUplinkQueue.SynchronizeWithServerCursor | src/zediot_ha_hub_connector/queue.py:211-252 | a negative cursor is refused untouched; otherwise the queue becomes the resynchronised one and the result tells whether the tail was discarded |
| UplinkQueue.InsertKeepsKeys | src/zediot_ha_hub_connector/queue.py:62-79 | inserting an unused key keeps the key order and adds exactly that row |
| UplinkQueue.AfterIsSelection | src/zediot_ha_hub_connector/queue.py:188-191 | the delete keeps exactly the rows above the cursor, in order |
| UplinkQueue.CountTestIsContiguity | src/zediot_ha_hub_connector/queue.py:225-240 | pigeonhole: the COUNT/MIN/MAX test passes if and only if no sequence above the cursor is missing |
| UplinkQueue.SynchronizeStabilises | src/zediot_ha_hub_connector/queue.py:211-252 | from any table and counters, resynchronising ends consistent with the server cursor, keeps a contiguous tail whole and otherwise empties the queue counting each row |
| UplinkQueue.SynchronizeDiscardsIff | src/zediot_ha_hub_connector/queue.py:233-246 | on a consistent queue the tail is discarded if and only if the cursor is behind the last ACK and rows remain |
| UplinkQueue.AcknowledgeKeepsConsistent | src/zediot_ha_hub_connector/queue.py:186-209 | acknowledging removes a prefix and leaves the rows exactly the interval above the ACK cursor |
| QueueHistory.EveryRunIsSound | src/zediot_ha_hub_connector/queue.py:38-88 | over every run, items handed in equal items queued, removed by the cursor and counted as dropped, and the byte sum never exceeds the limit |
| Reliability.CircuitBreaker.TryAllow | src/zediot_ha_hub_connector/reliability.py:33-48 | a permit exactly when closed or when open for the recovery interval, carrying the current generation, and marked as a probe exactly when it was open |
| Reliability.CircuitBreaker.ObserveNow | src/zediot_ha_hub_connector/reliability.py:50-55 | a permit that lets a success close the breaker for as long as no failure comes in between; it is marked as a probe only while uploads are refused |
| Reliability.CircuitBreaker.Success | src/zediot_ha_hub_connector/reliability.py:57-62 | closes the breaker only for a permit of the current generation |
| Reliability.CircuitBreaker.Failure | src/zediot_ha_hub_connector/reliability.py:64-73 | starts a new generation, and opens from half-open or at the threshold |
| Reliability.BreakerRefinesHistory | src/zediot_ha_hub_connector/reliability.py:33-82 | generation is the number of failures, the counter is the failures since the last success that took effect, and closed means that count is below the threshold |
| Reliability.SuccessAppliesIffNotOvertaken | src/zediot_ha_hub_connector/reliability.py:57-62 | a success takes effect if and only if no failure followed the issue of its permit |
| Reliability.AtMostOneProbePerPeriod | src/zediot_ha_hub_connector/reliability.py:33-48 | between two probes there is always a failure: never two in one half-open period |
| Reliability.ProbeWaitsForRecovery | src/zediot_ha_hub_connector/reliability.py:33-48 | while the breaker is open a probe is handed out exactly when the recovery interval has passed since the latest failure |
| Reliability.BlockedForeverIffHalfOpen | src/zediot_ha_hub_connector/reliability.py:33-48 | uploads stay refused at every future time if and only if a probe is still out |
| Reliability.RetryBounded | src/zediot_ha_hub_connector/reliability.py:85-103 | stops at the first return, the first final error or the bound, and returns that outcome |
| UplinkProtocol.NoGapEver | docs/architecture-boundary.md:44-51 | in every reachable state the rows are exactly the interval above an ACK cursor that never passes Core's, and no request ever sent can be refused as a sequence gap |
| UplinkProtocol.AdmitCases | src/zediot_ha_hub_connector/queue.py:38-88 | on a consistent queue admission never conflicts: it refuses or appends one row at the end |
| UplinkProtocol.FirstRequestLabel | src/zediot_ha_hub_connector/runtime.py:588-621 | the first request of a batch is labelled replay exactly when one of its items was attempted before or queued as replay |
| UplinkProtocol.UpToIsSelection | src/zediot_ha_hub_connector/queue.py:186-191 | the rows counted as acknowledged are exactly those up to the cursor |
| ExactlyOnce.ExactlyOnceDelivery | src/zediot_ha_hub_connector/runtime.py:562-676 | after any run in which expiry fires only when settled and no session cursor is applied after a later ACK overtook it, Core's log is exactly the payloads assigned to 1..cursor, each item once and in order, and every item not dropped is there or queued |
| ExactlyOnce.ExactlyOnceIffTame | src/zediot_ha_hub_connector/queue.py:354-383 | in every tame continuation the log agrees with the assigned payloads and no accepted item vanishes, if and only if the step does not expire an outstanding upload or apply an overtaken cursor |
| ExactlyOnce.TameSyncNeverDiscards | src/zediot_ha_hub_connector/runtime.py:453-456 | resynchronising with a cursor that no ACK overtook discards nothing, and a cursor applied at once is never overtaken |
| ExactlyOnce.UntameStepLosesAnItem | src/zediot_ha_hub_connector/queue.py:354-383 | any other step, unless the byte limit is negative, has a tame continuation of at most six steps that ends with an item accepted, not counted as dropped, and neither at Core nor queued |
| ExactlyOnce.DeliverKeepsPrefix | src/zediot_ha_hub_connector/queue.py:322-324 | whatever prefix of a request Core has already seen, accepting it extends the log along the assigned payloads |
| LostItem.AcceptedItemVanishes | src/zediot_ha_hub_connector/queue.py:260-267 | a run in which an expiry by the heartbeat makes an accepted, never dropped event vanish uncounted |
| LateCursor.LateCursorLosesAnItem | src/zediot_ha_hub_connector/runtime.py:416-456 | a run in which a session cursor applied after a later acknowledgement makes an accepted event vanish, with nothing expired or dropped |
| DeliveryLabels.RealtimeLabelsAreSound | docs/architecture-boundary.md:60-71 | a zero counter means no attempt, failed upload or restart since admission, and every upload labelled realtime carried only such items, collected with the breaker closed |
| DeliveryLabels.UncertainItemsStayReplay | docs/architecture-boundary.md:67-71 | once an item's delivery is uncertain, every later upload carrying it is labelled replay |
| LossCoverage.EveryLossIsCovered | docs/architecture-boundary.md:50-51 | in every run that clears the flag only while the drop counter stands where it stood when its snapshot was accepted, the counter equals what the history lost, and after a loss the flag is set or a later full snapshot is queued or was acknowledged |
| LossCoverage.LossIsRepairedEndToEnd | src/zediot_ha_hub_connector/runtime.py:512-523 | in such a run that is also tame, that snapshot is in Core's log or still queued |
| LossCoverage.ClearIsSafeIffInTime | src/zediot_ha_hub_connector/runtime.py:518-522 | after any such run, clearing the flag for an accepted snapshot keeps losses covered if and only if the drop counter has not moved since some snapshot was accepted |
| LossCoverage.LateClearIsForgotten | src/zediot_ha_hub_connector/queue.py:385-395 | a loss left uncovered by a late clear stays so in every continuation, with the flag down, until something else is lost or another snapshot is accepted |
| LossCoverage.AtOnceIsInTime | src/zediot_ha_hub_connector/runtime.py:512-523 | enqueueing the snapshot and clearing the flag with nothing in between is always in time |
| LateClear.LateClearUncoversALoss | src/zediot_ha_hub_connector/runtime.py:518-522 | a run in which the snapshot is aged out before the flag is cleared for it: two losses, an empty queue, and nothing asks for a snapshot |
| HubRuntime.ScanEvents | src/zediot_ha_hub_connector/runtime.py:1039-1062 | the batch is the longest prefix of events with consecutive sequences and distinct source ids, and is never empty when the head is an event |
| HubRuntime.HubConnectorRuntime.Collected | src/zediot_ha_hub_connector/runtime.py:549-560 | the item is labelled by the breaker's state at collection and queued as one protocol step |
| HubRuntime.HubConnectorRuntime.EnqueueReconciliationIfNeeded | src/zediot_ha_hub_connector/runtime.py:512-523 | without the grant, or with neither force nor the flag, nothing changes; with either of them, an undisturbed call is done exactly when the snapshot is accepted, and one that fits is queued last and leaves the flag down; other threads may act between the three transactions |
| HubRuntime.HubConnectorRuntime.EstablishSession | src/zediot_ha_hub_connector/runtime.py:416-456 | a new session is connected and later Core's cursor is applied, whatever other threads do in between; the upload in progress is left alone |
| HubRuntime.HubConnectorRuntime.RecoverAfterSessionError | src/zediot_ha_hub_connector/runtime.py:467-477 | however it ends and whatever other threads do meanwhile, a recovery leaves the breaker not half-open: closed after an undisturbed answer, with a failure counted otherwise |
| HubRuntime.HubConnectorRuntime.RunOther | src/zediot_ha_hub_connector/runtime.py:883-903 | the effect of each action of another thread on the protocol state and on the breaker; none issues a probe or keeps one valid across a failure |
| HubRuntime.HubConnectorRuntime.SendOnce | src/zediot_ha_hub_connector/runtime.py:629-660 | an attempt that cannot be recorded sends nothing; otherwise exactly one request carries the batch, labelled replay if any item was queued so or ever attempted, and a raising call leaves every queued row fenced; only a session error is final |
| HubRuntime.HubConnectorRuntime.Arrive | src/zediot_ha_hub_connector/runtime.py:652-657 | a request of the live session is never answered with a sequence gap |
| HubRuntime.HubConnectorRuntime.SendWithRetry | src/zediot_ha_hub_connector/runtime.py:662-669 | only lost requests, lost answers and attempts that could not be recorded are tried again, any other failure ends it at once, and only an answer or the bound ends it otherwise; undisturbed in a live session, the first answer within the bound is returned; every request carries the same batch, replay after the first |
| HubRuntime.HubConnectorRuntime.CompleteProbe | src/zediot_ha_hub_connector/runtime.py:678-688 | without an eligible payload the heartbeat decides the probe, which is given back either way, whatever other threads do during it |
| HubRuntime.HubConnectorRuntime.UploadBatch | src/zediot_ha_hub_connector/runtime.py:587-676 | returns true only after an answer and raises only with a failure counted, the probe being given back either way; undisturbed, it returns at the first answer within the bound and settles exactly its batch |
| HubRuntime.HubConnectorRuntime.PeekHead | src/zediot_ha_hub_connector/runtime.py:569-586 | the head after expiry is taken on exactly when the session is there and grants inventory for a snapshot, events for an event |
| HubRuntime.HubConnectorRuntime.FlushOnce | src/zediot_ha_hub_connector/runtime.py:562-676 | however other threads interfere between and during its calls, the flush ends with the breaker not half-open unless shutdown cleared the session in its unguarded window; without grants nothing is sent; undisturbed, it survives every momentary failure within the retry bound, and exactly one batch moves to Core |
| HubRuntime.CalmFlush | src/zediot_ha_hub_connector/runtime.py:562-676 | with the way clear, a flush moves exactly the batch from the head of the queue to the end of Core's log |
| HubRuntime.HubConnectorRuntime.UploadUntilIdle | src/zediot_ha_hub_connector/runtime.py:935-961 | with any clock at whose readings nothing is too old, repeated flushes empty the queue in as many flushes as there are batches, at most its depth, and Core's log grows by the queue in order |
| HubRuntime.BatchesPartition | src/zediot_ha_hub_connector/runtime.py:620-628 | batches are non-empty, within the limit, and concatenate to the queue in order |
| HubSession.SessionClient.EstablishSession | src/zediot_ha_hub_connector/runtime.py:416-444 | lease conflicts are waited out; the first other outcome ends the attempt |
| HubSession.SessionClient.RecoverSession | src/zediot_ha_hub_connector/runtime.py:458-465 | a report about a session that was already replaced changes nothing |
| HubSession.StaleSessionReplacedOnce | src/zediot_ha_hub_connector/runtime.py:458-465 | once a session was replaced, every later report of it, by any thread, changes nothing: no two reports replace the same session |
| HubSession.BindingStep | src/zediot_ha_hub_connector/core_client.py:454-496 | only a call that failed part-way can break the token binding, and a full recovery always restores it |
| HubSession.RequestRenewsToken | src/zediot_ha_hub_connector/core_client.py:454-486 | a request keeps a token that is not about to expire and renews any other one, and one that finishes leaves the session bound to the token in use |
| HubSession.RecoveryRenewsToken | src/zediot_ha_hub_connector/runtime.py:458-465 | a recovery asks for a new token first and replaces nothing without one |
| HubSession.MismatchNeedsPartialFailure | src/zediot_ha_hub_connector/core_client.py:454-496 | in every run a binding mismatch is due to a part-way failure with no full recovery since |
| HubSession.MismatchIsRepaired | src/zediot_ha_hub_connector/runtime.py:458-477 | a recovery of the live session, whatever its requests meet, ends with a newer session bound to the token in use if and only if it finishes |
| HubSession.ConflictsOnlyDelay | src/zediot_ha_hub_connector/runtime.py:421-444 | after any number of lease conflicts, one attempt that gets through establishes the session and its binding |
| HubSession.RejectionsAreClassified | src/zediot_ha_hub_connector/core_client.py:546-578 | a rejection on a session path starts a recovery if and only if its status is 403 or 409 and its data states one of the five reasons, in either form |
| HubSession.ReportNamesItsSession | src/zediot_ha_hub_connector/core_client.py:631-632 | the session id that a rejection reports is the one its request was for |
| RuleStore.LocalRuleStore.ActivatePackage | src/zediot_ha_hub_connector/rule_store.py:26-54 | a package replaces its rule's earlier one, exactly unless another rule holds its package id |
| RuleStore.LocalRuleStore.ActiveDocuments | src/zediot_ha_hub_connector/rule_store.py:66-79 | exactly the unexpired packages stay, unchanged, and are returned |
| RuleStore.LocalRuleStore.ProcessControlList | src/zediot_ha_hub_connector/runtime.py:755-768 | controls delete in order and only real deletions count as progress; an invalid control raises |
| RuleStore.LocalRuleStore.Prune | src/zediot_ha_hub_connector/rule_store.py:222-255 | expired uploaded rows go, then exactly the excess, and nothing kept ranks before anything evicted |
| RuleStore.LocalRuleStore.ReserveExecution | src/zediot_ha_hub_connector/rule_store.py:81-114 | a known key changes nothing; a new row survives its own prune |
| RuleStore.LocalRuleStore.FinalizeExecution | src/zediot_ha_hub_connector/rule_store.py:116-138 | fails only on a missing reservation; the finalized row stays while the ledger is within its maximum |
| RuleStore.LocalRuleStore.MarkEvidenceUploaded | src/zediot_ha_hub_connector/rule_store.py:154-167 | marks exactly the named rows and prunes, or does nothing for no ids |
| RuleStore.NewestSurvives | src/zediot_ha_hub_connector/rule_store.py:242-255 | the newest row with evidence to upload survives a prune if and only if at least one row may stay |
| RuleLedger.UploadedGoFirst | src/zediot_ha_hub_connector/rule_store.py:246-251 | evicting a row that still has to be uploaded means no uploaded row and no older row was kept, and the ledger is full |
| RuleLedger.ReservationNeverMissing | src/zediot_ha_hub_connector/rule_store.py:116-138 | over every run with crashes and uploads in which no mark is late, the reserved row is there to be finalized and the ledger stays within its maximum |
| RuleLedger.ReservationLostIffLate | src/zediot_ha_hub_connector/rule_store.py:154-167 | marking evidence takes the row of the running execution away if and only if its prune falls more than the retention after that row was last marked |
| RuleLedger.LateMarkIsMissed | src/zediot_ha_hub_connector/rule_store.py:116-138 | after the first late mark, finalizing the execution it hit fails |
| LostReservation.ReservationGoesMissing | src/zediot_ha_hub_connector/rule_store.py:154-167 | a run in which the evidence of an evicted row is marked on its re-reserved row, which then expires before it is finalized |
| RuleLedger.ActionsAtMostOnce | src/zediot_ha_hub_connector/rule_runtime.py:131-144 | a key's actions are dispatched at most once more often than its row was evicted, so at most once while it is retained |
| RuleLedger.ActionsOnlyOnHit | src/zediot_ha_hub_connector/rule_runtime.py:101-144 | over every run, each dispatch is the only one of the latest reservation of its key, and the condition of that reservation evaluated successfully to true in its own context |
| RuleControls.ControlProgressIsBounded | src/zediot_ha_hub_connector/runtime.py:755-768 | over every run the progress counted for controls is at most the number of packages ever applied |
| RuleControls.ControlsMean | src/zediot_ha_hub_connector/rule_store.py:56-64 | a list is processed to its end exactly when every control revokes or expires; then exactly the packages it names are gone, and progress is counted exactly when there was one |
| RuleControls.RepeatedListAddsNothing | src/zediot_ha_hub_connector/runtime.py:755-768 | the same list again, with nothing applied in between, counts no progress |
| RuleRuntime.OnlyLightsAreSwitched | src/zediot_ha_hub_connector/rule_runtime.py:378-393 | whatever a package asks for, only reviewed switching of lights reaches Home Assistant |
| RuleRuntime.OneActionMeans | src/zediot_ha_hub_connector/rule_runtime.py:378-393 | one action is called exactly when it asks for the reviewed, harmless switching of a light that its value demands, and its result tells success, timeout or failure accordingly |
| RuleRuntime.CallsConcatenate | src/zediot_ha_hub_connector/rule_runtime.py:146-196 | the calls of an action list are those of its actions in order: none stops or changes another |
| RuleRuntime.HomeAssistantLocalRuleRuntime.DispatchActions | src/zediot_ha_hub_connector/rule_runtime.py:146-196 | every action gets its result in order, and exactly the allowed ones are called |
| RuleRuntime.HomeAssistantLocalRuleRuntime.Execute | src/zediot_ha_hub_connector/rule_runtime.py:70-144 | a known key makes no call; a new one calls its actions exactly when the evaluation succeeds with true, an evaluation error is reported as such, and the row ends complete and pending |
| RuleConditions.SplitIsExact | src/zediot_ha_hub_connector/rule_runtime.py:285-286 | splitting a path loses nothing and leaves no dot inside a segment |
| RuleConditions.ResolvePath | src/zediot_ha_hub_connector/rule_runtime.py:285-306 | the walk agrees with recursive resolution, and access is denied exactly for a denied segment below an allowed root |
| RuleMeaning.ResolveMeans | src/zediot_ha_hub_connector/rule_runtime.py:285-306 | a path resolves exactly when its first segment is one of the five roots, no segment is denied, and its segments lead through nested mappings to the value; denial comes before absence |
| RuleMeaning.JunctionMeans | src/zediot_ha_hub_connector/rule_runtime.py:238-260 | `and` is true exactly when every child evaluates to true, `or` exactly when some child does, and both are booleans |
| RuleMeaning.NegationMeans | src/zediot_ha_hub_connector/rule_runtime.py:261-268 | `not` has a value exactly when its argument is a boolean, and it is the other one |
| RuleMeaning.ComparisonMeans | src/zediot_ha_hub_connector/rule_runtime.py:269-278 | a comparison compares the values of its two operands, the left error coming first |
| RuleMeaning.PathNodesMean | src/zediot_ha_hub_connector/rule_runtime.py:223-237 | a path node gives what the path resolves to; `exists` tells whether it does and forgives only a missing field |
| RuleMeaning.OperatorsAreRecognised | src/zediot_ha_hub_connector/rule_runtime.py:227-282 | which operator text makes which kind of node, any other being unknown |
| RuleMeaning.PathsAreRecognised | src/zediot_ha_hub_connector/rule_runtime.py:223-230 | a node with a path and no operator reads it, and `exists` tests it |
| RuleMeaning.OtherNodesMean | src/zediot_ha_hub_connector/rule_runtime.py:221-222 | anything but a mapping is its own value, and an unknown operator is an error |
| RuleMeaning.RootMeans | src/zediot_ha_hub_connector/rule_runtime.py:205-217 | the empty condition holds; any other has a result exactly when its root is a boolean |
| RuleMeaning.EqualityMeans | src/zediot_ha_hub_connector/rule_runtime.py:309-313 | two values are equal exactly when they are the same once every boolean, at any depth, is read as a number |
| RuleMeaning.NumberOrderMeans | src/zediot_ha_hub_connector/rule_runtime.py:338-344 | the four order operators on numbers |
| RuleMeaning.StringOrderMeans | src/zediot_ha_hub_connector/rule_runtime.py:338-344 | the four order operators on strings are the lexicographic order |
| RuleMeaning.OrderNeedsLikeOperands | src/zediot_ha_hub_connector/rule_runtime.py:323-337 | only two numbers or two strings can be ordered, not booleans |
| RuleMeaning.ContainsMeans | src/zediot_ha_hub_connector/rule_runtime.py:314-322 | a text contains its substrings, a list what equals one of its items, anything else is a type mismatch |
| RuleTraces.TraceIsFaithful | src/zediot_ha_hub_connector/rule_runtime.py:205-282 | recomputing from a trace's leaves, with the connectives written out, gives the returned value and every recorded result, and the leaves are what the context holds |
| RuleTraces.OnlyNamedPathsMatter | src/zediot_ha_hub_connector/rule_runtime.py:220-306 | contexts that resolve alike at every named path give the same value, trace and error |
| RuleTraces.DeniedPathNeverEvaluates | src/zediot_ha_hub_connector/rule_runtime.py:292-296 | a denied path anywhere in a condition, even under exists, makes every evaluation raise |
| RuleTraces.LeftmostErrorWins | src/zediot_ha_hub_connector/rule_runtime.py:245-250 | the first child that fails decides the error |
| RuleTraces.JunctionIsStrict | src/zediot_ha_hub_connector/rule_runtime.py:245-260 | and/or succeed if and only if every child is a boolean, whatever the others say |
| CommandReceipts.CommandReceiptStore.GetReceipt | src/zediot_ha_hub_connector/command_store.py:31-53 | looking up prunes the whole table first: exactly the receipts within retention stay, unchanged |
| CommandReceipts.CommandReceiptStore.SaveReceipt | src/zediot_ha_hub_connector/command_store.py:55-96 | refused exactly when a receipt of the command within retention has another key or envelope; otherwise written, no other receipt changed, and unless retention has passed read back as written |
| CommandReceipts.HubCommandExecutor.WaitForReadback | src/zediot_ha_hub_connector/command_executor.py:111-124 | the first poll that reads the expected state, it and all before it being earlier than the deadline, or none when there is no such poll |
| CommandReceipts.HubCommandExecutor.ExecuteCommand | src/zediot_ha_hub_connector/command_executor.py:25-109 | Home Assistant is called exactly when the envelope is permitted, no terminal receipt is found, the deadline lies ahead, no crash comes first and the stored receipt does not contradict it; executed exactly when a poll saw the requested state in time, failed exactly when the call raised, timeout otherwise, with the receipt and its reason to match |
| CommandReceipts.CallsAreBounded | src/zediot_ha_hub_connector/command_executor.py:25-109 | over all redeliveries and crashes, calls exceed interrupted executions by at most one |
| CommandReceipts.SecondCallIff | src/zediot_ha_hub_connector/command_store.py:98-105 | after a terminal receipt another call is possible if and only if the deadline lies beyond the receipt's retention |
| CommandReceipts.FinishGuards | src/zediot_ha_hub_connector/command_executor.py:49-109 | an execution that called and was not interrupted leaves a terminal receipt that guards the command until its deadline |

## Left out

- SQLite, JSON encoding, file permissions and schema migration: tables are values; only the restart step that marks old rows as uncertain is kept.
- `ensure_next_sequence_at_least` of queue.py: nothing calls it, and it can open a gap.
- `peek(kind, limit)` of queue.py: a filtered read that the runtime does not use.
- HTTP and websocket transport, request bodies and ha_client.py: environment calls with an outcome.
- Signatures, hashes and package verification: digests are injective names.
- config.py, identity.py, bootstrap, pairing, activation and main.py: configuration and plumbing.
- snapshot.py and event_identity.py: source ids are opaque optional values.
- Thread scheduling inside one queue, breaker or store operation: each is atomic. Shutdown is modelled only in `FlushOnce`.
- The random jitter and the sleeps of the bounded retry: only the attempts are modelled.
- `process_event` of rule_runtime.py beyond one package: it is a loop over the active packages that calls the modelled execution.
- Building the evaluation context of a rule (`_canonical_state_value` and the fixed keys): the context is an arbitrary JSON value.
- Floating-point rounding and not-a-number in comparisons: numbers are reals.
- The lease-conflict waiting times: a conflict is an attempt that is repeated.
- The evidence stored with receipts and executions: only status, reason and times are kept.
- A read of the entity state that raises during the readback: it is the interruption after the call.
- Ledger timestamps that do not increase: reservations carry strictly increasing times, as ranked pruning needs.

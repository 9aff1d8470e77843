# Verified model of qs-ai's deployment, execution and maintenance protocols

This project models the parts of qs-ai whose correctness depends on the order of durable steps, on
interleavings, or on two pieces of code agreeing with each other, and proves what they promise. Check
everything with `dafny verify dfyconfig.toml` (Dafny 4.11).

**Schema exchange** (`StopWindow`, `Conversion`, `SchemaMaintenance`, `SchemaFollowup`). A controller stops
all writers, converts the database layout between 0038 and 0040, and starts one of two releases. Its
process may die at any step and every command may be retried. The world outside the process is a value:
clock, live layout and rows, running releases, journals, host journal or operation record, state.json, and
the trace of everything set in motion. Each command is a method that keeps one invariant however it ends. The
follow-up commands change the world by a fixed set of effects, each possible under its own conditions, and the
worlds that the findings exhibit are reached by the same effects. A trace entry records the circumstances at
its moment, so that the safety statements (`SafeTrace`) are about whole histories. Each process counts what the
environment denies it (`faults`: a step that fails, a budget that has run out, a fence that finds connections),
so that the contracts also say what must happen: without a fault every command that may begin or be taken up
again is done, and a handler that meets no further fault restores the old runtime.

**Generation** (`Generation`, `ModelCapacity`). Executions of any number of workers interleave at their
awaits, crash, are cancelled and lose commits. The store's contract is one row per run, inserted atomically
and never deleted. `ModelCapacity` is the capacity object itself, with its tokens and waiters.

**Admission** (`Protection`, `Admission`). The latch's fields are proved to be exactly the summary of the
observation history, and its reason to be the first that the newest observation gives. The gate in front of the
sender is proved to open exactly on full evidence, which includes calm observations since the last review.

**Report projection** (`Texts`, `Escapes`, `Suggestions`, `MbtiScenes`, `MbtiInput`, `MbtiProjection`,
`MbtiThemes`, `ScaleProjection`). Snapshot validation, projection, the independent second validator, and the
reference encoding. Specification functions and the methods that compute them are kept apart; order
independence and acceptance are lemmas about the functions.

**Publisher retirement** (`Retirement`, `Fingerprints`). Any number of processes take the steps of the
destructive migration and of its ledger repair against one database; the fingerprint codec is proved to
determine the data it stands for.

**Test shards and image retention** (`TestShards`, `ShardCoverage`, `ImageRetention`). Partitioning and the
coverage accounting over manifests; the bounded history of deployed images and what a cleanup may remove.

`Outcomes` and `Sorting` are shared. An outcome is `Done`, `Raised` (an exception that handlers see) or
`Crashed` (the process is gone).

Seven findings about the code itself:

- A crash between the two durable writes of a second operation leaves it pending but unresumable.
  `CrashBetweenWrites` says exactly when, `SecondOperationSticks` reaches it by the effects of two hand-overs, and
  `Keeps` says that it then stays exactly as it is.
- A closing write that raises after it has replaced its file lets the handler of a hand-over take the closed
  target down, start the source outside any operation and close twice. A crash between its state.json and its
  pointer leaves nothing pending and every command refused (`LostCloseWedges`); `NothingLostNothingStray` shows
  that without such a write no history contains any of this.
- A retried hand-over may start its target while the source is still running. Strays of lost closes aside, another
  release runs at a start exactly if it is the source, still running, and state.json names the target already
  (`StepsAreSafe`); `SourceRunsAtStart` reaches such a start.
- The handler of a failed hand-over first saves a note of the failure. If that save fails, it neither restores the
  source nor drains either release; `Handled` says that it does one of the two whenever the note was saved, and that
  without it the world stays as the failure left it.
- A retried run may be sent to another provider than the one its capacity token was taken from, so that more
  calls are in flight at a provider than its total allows (`TwoCallsOnOnePlace`). `CallsOwnTokensUnlessDiverted`
  shows that this is the only way.
- The MBTI snapshot validator admits dimension suggestions of up to 4000 characters, while the projection
  refuses any over 2000. `ProjectionSucceeds` shows that, among texts that UTF-8 can encode, this is the only way a
  valid, permitted report is refused, and `SomeReportIsRefused` gives such a report.
- With more shards than tests some shard selects nothing and reports a failure, so that the coverage check can
  never accept; `WrittenRunsAreCovered` gives the exact condition.

## Model

| member | source | states |
|---|---|---|
| Conversion.Plan | src/qs_ai/maintenance/schema_refactor/control.py:108-171 | A plan starts only from the live head of its direction, and a reverse plan only from an inherited forward record |
| Conversion.Prepare | src/qs_ai/maintenance/schema_refactor/control.py:363-377 | The journal only advances, through the durable prepare_pending mark to prepared |
| Conversion.Copy | src/qs_ai/maintenance/schema_refactor/control.py:387-436 | A copy starts only from prepared to copied, inside the copy budget of its one stop instant, and never touches the live schema; an interrupted copy can be taken up again, and one that nothing is denied is done |
| Conversion.Verify | src/qs_ai/maintenance/schema_refactor/control.py:439-453 | Only a copied or verified journal becomes verified |
| Conversion.Switch | src/qs_ai/maintenance/schema_refactor/control.py:514-550 | The live head flips exactly when the tables are exchanged, and the journal never claims a switch that did not happen; from what an interruption leaves, a switch that nothing is denied is done |
| Conversion.FastRollback | src/qs_ai/maintenance/schema_refactor/control.py:572-697 | The head goes back only inside the copy budget and with exactly the rows that are live; done means rolled back on the source head, and it is done in time unless something is denied |
| SchemaMaintenance.StartIsFinal | deploy/serverA/schema_maintenance.py:980-1008 | Over every run with crashes: after a start was entered the journal records the decision, and no forward copy, forward exchange or fast rollback is ever issued again |
| SchemaMaintenance.StepsAreInTime | deploy/serverA/schema_maintenance.py:851-863 | In every reachable world each copy was issued with all writers stopped and less than the copy budget after the recorded stop instant, each start less than the window after it, on its own layout and with no other release running |
| SchemaMaintenance.RunCommands | deploy/serverA/schema_maintenance.py:1244-1290 | Any history of prepare, rehearse, switch and rollback, each process dying anywhere, keeps the invariant: accepted writes survive, stop instants and latches are never reset, journals only advance |
| SchemaMaintenance.ExtendTrace | deploy/serverA/schema_maintenance.py:762-776 | A step that could discard writes may join the history only while no start has been entered |
| SchemaMaintenance.GrowRecord | deploy/serverA/schema_maintenance.py:513-514 | Saving a journal that keeps its stop instants and latches keeps every past step justified |
| SchemaMaintenance.Maintenance.Clock | deploy/serverA/schema_maintenance.py:851-855 | A stop instant is written durably once and only read by retries |
| StopWindow.Remaining | deploy/serverA/schema_maintenance.py:857-863 | Time is left exactly between the stop instant and the end of the budget, and it runs up to that end |
| SchemaMaintenance.Maintenance.OperationBudget | deploy/serverA/schema_maintenance.py:949-960 | A 60-second probe replaces the copy budget only when the journal records an exchange |
| SchemaMaintenance.Maintenance.StopRelease | deploy/serverA/deploy.py:626-635 | Success means no container of the release runs; the live head does not move |
| SchemaMaintenance.Maintenance.StopFailedRelease | deploy/serverA/schema_maintenance.py:937-947 | One bounded drain for each release and process: done means that the release does not run, and a drain that nothing is denied is done |
| SchemaMaintenance.Maintenance.Actual | deploy/serverA/schema_maintenance.py:1109-1117 | The head reported is the live one, behind a fence only with nothing running, or something was denied |
| SchemaMaintenance.Maintenance.Exchange | deploy/serverA/schema_maintenance.py:762-776 | Copy, verify and switch in order with all writers stopped; done means the head of the direction is live and its journal switched; from any phase that an interruption leaves it is done unless something is denied |
| SchemaMaintenance.Maintenance.RecordReady | deploy/serverA/schema_maintenance.py:962-978 | state.json names the release only after the start was decided and recorded |
| SchemaMaintenance.Maintenance.StartVerified | deploy/serverA/schema_maintenance.py:980-1008 | The new runtime is entered only after runtime_started is durable; done means it runs on its head and is recorded |
| SchemaMaintenance.Maintenance.UndoExchange | deploy/serverA/schema_maintenance.py:1119-1133 | Before any start of the new runtime the forward journal is undone; done means 0038 is live and nothing runs, and it is done unless something is denied |
| SchemaMaintenance.Maintenance.RecoverOld | deploy/serverA/schema_maintenance.py:1119-1143 | Done means the old release runs on 0038 and the abort of the forward exchange is recorded; it is entered only while the new runtime was never started, and it is done unless something is denied |
| SchemaMaintenance.Maintenance.AttemptSwitch | deploy/serverA/schema_maintenance.py:1043-1089 | Every ending, also a crash, keeps the invariant; done means the new release runs and state.json names it; from a convertible journal it is done unless something is denied |
| SchemaMaintenance.Maintenance.AfterFailedSwitch | deploy/serverA/schema_maintenance.py:1090-1107 | A failed switch is never reported as success: a started new runtime is drained, and before its start, unless something more is denied, the old release runs on 0038 with the abort recorded |
| SchemaMaintenance.Maintenance.Switch | deploy/serverA/schema_maintenance.py:1010-1107 | The whole command: done means the new release runs on 0040 and is recorded; unless something is denied it is done, or refused for its guards; a failure before the new runtime's start is recovered unless something more is denied, and one after it is drained |
| SchemaMaintenance.Maintenance.ReverseFully | deploy/serverA/schema_maintenance.py:1175-1190 | The rollback of a started runtime is the full inverse conversion; done means the old release runs on 0038 and state.json names it, and it is done unless something is denied |
| SchemaMaintenance.Maintenance.Rollback | deploy/serverA/schema_maintenance.py:1145-1198 | The whole command: done means the old release runs on 0038, rolled back if the new runtime had been started and recovered otherwise; it is done once a stop instant is recorded unless something is denied |
| SchemaMaintenance.Maintenance.PrepareRelease | deploy/serverA/schema_maintenance.py:604-674 | Done means a forward plan without a stop instant; refused without any change once there is one, and done on 0038 before that unless something is denied |
| SchemaMaintenance.Maintenance.RehearseOnClone | deploy/serverA/schema_maintenance.py:778-849 | A rehearsal changes nothing but its own mark in the host journal |
| SchemaFollowup.PendingIsExclusive | deploy/serverA/schema_followup.py:138-169 | Over every run at most one operation is pending; its id, kind, releases and stop instant never change, and only its own closing follows it |
| SchemaFollowup.IdsGrow | deploy/serverA/schema_followup.py:138-159 | Operation identities only grow, so a closed one never returns |
| SchemaFollowup.CrashBetweenWrites | deploy/serverA/schema_followup.py:840-853 | A crash between the two durable writes of a new operation leaves it unresumable exactly when the context had saved an earlier operation |
| SchemaFollowup.SecondOperationSticks | deploy/serverA/schema_followup.py:818-853 | From every rehearsed context the effects of one completed hand-over and the first write of the next reach a stuck operation |
| SchemaFollowup.GuardAdmitsOnlyTheOwner | deploy/serverA/schema_followup.py:1312-1322 | In every reachable world the guard admits a deployment exactly when it presents the pending operation, if there is one, and any operation if state.json is wedged off the pointer; that happens only after a lost close, and then every command is refused |
| SchemaFollowup.StepsAreSafe | deploy/serverA/schema_followup.py:462-486 | Conversions are always the full kind and find everything stopped; no copy is issued once the journal is verified; the old image starts only with the reverse journal switched and the fenced head 0038; copies and starts are inside their budgets; strays aside, another release runs at a start exactly in a hand-over to a target that state.json names already, whose source still runs; a start outside its operation follows a lost close of that operation |
| SchemaFollowup.NothingLostNothingStray | deploy/serverA/schema_followup.py:868-877 | In a history without a lost close no start is made outside its operation, nothing strays, and no world is wedged |
| SchemaFollowup.LostCloseWedges | deploy/serverA/schema_followup.py:932-957 | From every rehearsed context the effects of one hand-over whose closing write raises after replacing its file reach a world with nothing pending in which the guard and every command refuse |
| SchemaFollowup.SourceRunsAtStart | deploy/serverA/schema_followup.py:917-957 | From every rehearsed context the effects of a failed hand-over and its retry reach a start of the published target with the source running |
| SchemaFollowup.RunCommands | deploy/serverA/schema_followup.py:1420-1470 | Any history of release, restore and rollback commands does only what is possible: it keeps the invariant, the recorded operations and the accepted writes; a stuck operation stays exactly as it is, and a wedged world changes only by time and accepted writes |
| SchemaFollowup.NextKeepsInv | deploy/serverA/schema_followup.py:818-1056 | Every durable effect, under the conditions that the commands check before it, keeps the invariant and takes nothing back |
| SchemaFollowup.ReachedKeepsInv | deploy/serverA/schema_followup.py:818-1056 | Every world that such effects reach, in any order and number, satisfies the invariant and has lost nothing |
| SchemaFollowup.Followup.Begin | deploy/serverA/schema_followup.py:818-853 | A pending operation is resumed exactly when kind, releases and the saved copy match; otherwise it is refused, and a new one is recorded only when none is pending |
| SchemaFollowup.Followup.AppendBinding | deploy/serverA/schema_followup.py:206-228 | Earlier bindings are never changed; done means the pointer is on the release with its head |
| SchemaFollowup.Followup.Close | deploy/serverA/schema_followup.py:855-877 | Done means nothing is pending and state.json, pointer and host journal are on the closing release, and it is done unless something is denied; raising leaves the operation resumable, or closed on that release by a lost close that the history records |
| SchemaFollowup.Followup.WriteClosed | deploy/serverA/schema_followup.py:868-877 | The operation file is untouched or holds exactly the closed record, whichever way the write ends; raising after the replacement is recorded as a lost close |
| SchemaFollowup.Followup.ReleaseTo | deploy/serverA/schema_followup.py:879-963 | A hand-over keeps the layout, starts one of the two releases, and done means it is closed on the target; unless something is denied it is done whenever it may begin or be resumed; a failure is handled, and a stuck or wedged world is refused |
| SchemaFollowup.Followup.RecoverHandover | deploy/serverA/schema_followup.py:938-957 | A failed hand-over is never reported as success: with its note saved the source is restored or both releases are drained, target first, and it is restored unless something more is denied |
| SchemaFollowup.Followup.RecoverClosed | deploy/serverA/schema_followup.py:932-957 | The same handler entered with its operation closed on the target: the same is true of it, closing once more on the source |
| SchemaFollowup.Followup.CloseAgain | deploy/serverA/schema_followup.py:855-877 | Its second closing, on the source: done means pointer and state.json are on the source and nothing is pending |
| SchemaFollowup.Followup.DrainBoth | deploy/serverA/schema_maintenance.py:937-947 | The drains of a failed command: the first release does not run if its drain succeeded, and only then is the second drained |
| SchemaFollowup.Followup.HandOver | deploy/serverA/schema_followup.py:909-957 | The guarded part with its handler: unless something is denied it is done, and any failure of it is handled |
| SchemaFollowup.Followup.RunTool | deploy/serverA/schema_followup.py:462-486 | Only the full conversion is run, on the reverse journal, and only its switch moves the head |
| SchemaFollowup.Followup.ConvertFully | deploy/serverA/schema_followup.py:994-1012 | From any saved phase the remaining commands run in order; done means the journal is switched, and it is done unless something is denied |
| SchemaFollowup.Followup.ExchangeBack | deploy/serverA/schema_followup.py:980-1020 | A head of 0038 without a recorded exchange is refused |
| SchemaFollowup.Followup.StartLegacy | deploy/serverA/schema_followup.py:1022-1050 | The old image starts after the fenced head is 0038 and the journal is switched; done means closed on it |
| SchemaFollowup.Followup.Rollback | deploy/serverA/schema_followup.py:965-1056 | The whole command from any saved phase: the invariant is kept whichever way it ends, and done means the old release serves 0038; unless something is denied it is done; a failure after its budget drains the source and then the legacy release |
| Generation.AtMostOneCall | src/qs_ai/application/execution/generation.py:89-130 | For each run, over all interleavings, crashes, cancellations and failed commits, the gateway is called at most once |
| Generation.SameAnswer | src/qs_ai/application/execution/generation.py:94-109 | Any two executions of a run that return give the same frozen request and response |
| Generation.InFlightWithinCapacity | src/qs_ai/application/execution/generation.py:80-87 | With capacity configured and no request diverted, the calls dispatched to a provider and in flight never exceed its total |
| Generation.CallsOwnTokensUnlessDiverted | src/qs_ai/application/execution/generation.py:80-116 | In every schedule each capacity-limited call in flight owns a live generation token of the provider it was sent to, if and only if no execution without a publication is given a frozen request for another provider than it asked for |
| Generation.TwoCallsOnOnePlace | src/qs_ai/infrastructure/persistence/mysql/execution.py:108-117 | A participant's retry without a publication: two calls in flight at a provider whose total is one |
| Generation.FinishedIsCertified | src/qs_ai/application/execution/generation.py:104-109 | What a finished execution returns is what the run's row records |
| Generation.ScheduleKeepsInv | src/qs_ai/application/execution/worker.py:59-95 | Every schedule of steps, crashes and cancellations keeps the invariant |
| Generation.BeginKeepsInv | src/qs_ai/infrastructure/persistence/mysql/execution.py:94-165 | The insert is atomic and rows are never removed: one row and one creator per run |
| Generation.DispatchKeepsInv | src/qs_ai/application/execution/generation.py:115-118 | Only the creator of the row dispatches, once |
| Generation.AnswerIsReturned | src/qs_ai/application/execution/generation.py:115-130 | Whatever others have done since the call was sent, an acknowledged response is recorded and returned |
| Generation.RefusalIsRecorded | src/qs_ai/application/execution/generation.py:119-125 | An acknowledged failure is recorded as unknown or failed with its code, and nothing is returned |
| Generation.MatchingReplyIsKept | src/qs_ai/application/execution/generation.py:115-118 | A reply is kept exactly if it names the invocation and the model of the call; any other leaves the outcome unknown |
| Generation.CallIsAnswered | src/qs_ai/application/execution/generation.py:80-130 | From every state of the invariant an admitted call that is answered in kind and acknowledged ends with the sent request and that response, after one call |
| Generation.LaterExecutionAgrees | src/qs_ai/application/execution/generation.py:103-109 | Every later execution of an answered run returns the same, unless its publication insists on another request, and calls nobody |
| Generation.DurableGeneration.Execute | src/qs_ai/application/execution/generation.py:80-130 | One execution among any others always releases its token and returns only what its row certifies; it does return the recorded response of an answered run, and the response of its own call when that is answered in kind and both commits are acknowledged |
| ModelCapacities.LimitsHold | src/qs_ai/application/execution/model_capacity.py:39-53 | Active counts are the live tokens per provider and within its total; evaluations leave the reserve and stay within the global limit |
| ModelCapacities.ModelCapacity.TryAcquire | src/qs_ai/application/execution/model_capacity.py:55-68 | A token is refused exactly when the provider is full or an evaluation would break the reserve or the limit; below the reserve a generation always gets one |
| ModelCapacities.ModelCapacity.AcquireGenerationTurn | src/qs_ai/application/execution/model_capacity.py:70-77 | A generation gets a place now or parks on the event, and it parks exactly when the provider is full |
| ModelCapacities.CapacityToken.Release | src/qs_ai/application/execution/model_capacity.py:27-30 | Releasing is idempotent and gives back exactly one place |
| ModelCapacities.ModelCapacity.Released | src/qs_ai/application/execution/model_capacity.py:79-82 | The counters follow the live tokens, and every parked waiter is woken |
| ModelCapacities.AcquireKeepsBalance | src/qs_ai/application/execution/model_capacity.py:60-68 | One more token keeps counters and limits in balance |
| ModelCapacities.ReleaseKeepsBalance | src/qs_ai/application/execution/model_capacity.py:79-82 | One token less keeps them in balance |
| ModelCapacities.SumCountsEvaluations | src/qs_ai/application/execution/model_capacity.py:58-62 | The sum of the per-provider counters is the number of live evaluation tokens |
| TransactionProtection.SaturationMoves | src/qs_ai/bootstrap/transaction_protection.py:73-82 | saturated_since stays the first poll of the longest run of full polls whose gaps are within freshness |
| TransactionProtection.ErrorsMove | src/qs_ai/bootstrap/transaction_protection.py:83-100 | error_since stays the first failed poll since the last valid success |
| TransactionProtection.RetentionMoves | src/qs_ai/bootstrap/transaction_protection.py:70-72 | The retained sample is the last valid one, with the native flag set exactly when reported at or after it |
| TransactionProtection.ClocksAreDetermined | src/qs_ai/bootstrap/transaction_protection.py:43-53 | The history leaves both clocks no choice |
| TransactionProtection.ProtocolProtection.Latch | src/qs_ai/bootstrap/transaction_protection.py:55-58 | A first reason is kept, and generation counts the rises from none |
| TransactionProtection.ProtocolProtection.Observe | src/qs_ai/bootstrap/transaction_protection.py:60-111 | After any sequence of observations the fields summarise the history; an open latch closes on exactly the first reason that the newest observation gives by its history, and a closed one keeps its reason |
| TransactionProtection.ProtocolProtection.FreshMeansNewestSucceeded | src/qs_ai/bootstrap/transaction_protection.py:113-121 | Fresh evidence is the newest observation itself, never an older one |
| TransactionProtection.ProtocolProtection.Review | src/qs_ai/bootstrap/transaction_protection.py:123-143 | A review opens the latch exactly when it is named, of the matching generation, and on fresh, quiet evidence |
| TransactionProtection.ReviewedSampleStaysQuiet | src/qs_ai/bootstrap/transaction_protection.py:123-143 | Observing the reviewed sample again, with room in the queue, never latches again |
| TransactionProtection.VerdictIsFirst | src/qs_ai/bootstrap/transaction_protection.py:70-111 | The tests of a poll, by the clocks they keep, find the first reason in their order that the history itself gives, and none exactly if it gives none |
| TransactionProtection.StaysCalm | src/qs_ai/bootstrap/transaction_protection.py:60-111 | A latch that is open has seen no observation give a reason since it was last opened, and its newest valid sample is quiet |
| TransactionProtection.ReviewableIsQuietLater | src/qs_ai/bootstrap/transaction_protection.py:123-143 | A review accepts exactly the valid samples that would give no reason even three minutes later |
| TransactionAdmission.ProtocolMonitor.BeginTurn | src/qs_ai/bootstrap/transaction_observation.py:84-86 | A stopping loop leaves, another begins exactly one read |
| TransactionAdmission.ProtocolMonitor.FinishTurn | src/qs_ai/bootstrap/transaction_observation.py:87-131 | A turn ends without observing when stopped or cancelled, and otherwise adds exactly one observation after latching newly counted invalid checks |
| TransactionAdmission.ProtocolMonitor.ResolveNeedsBothAnswers | src/qs_ai/bootstrap/transaction_observation.py:87-118 | A reading counts as a success only if every read answered and the native one left time; the native answer is kept in any case |
| TransactionAdmission.ProtocolMonitor.AllowedIsSupported | src/qs_ai/bootstrap/transaction_observation.py:138-145 | The few fields looked at say exactly: running sampler, newest observation valid, in time and with a quiet sample, nothing latched, no reason given by any observation since the last review, every invalid check reviewed |
| TransactionAdmission.ProtocolMonitor.Review | src/qs_ai/bootstrap/transaction_observation.py:147-161 | A review through the monitor is refused when stopping or while an invalid check is unsampled |
| TransactionAdmission.TransactionRuntime.AdmittedIsSupported | src/qs_ai/bootstrap/transaction_messaging.py:86-92 | The gate opens exactly on full evidence |
| TransactionAdmission.TransactionRuntime.Send | src/qs_ai/bootstrap/transaction_messaging.py:105-123 | Reserve, execute, retry and replan reach the sender exactly when the evidence supports it, and are refused without reaching it otherwise |
| TransactionAdmission.TransactionRuntime.SetAdmission | src/qs_ai/bootstrap/transaction_messaging.py:94-103 | Admission is opened exactly on a ready sender and supporting evidence, and never after stopping |
| TransactionAdmission.TransactionRuntime.StopAdmission | src/qs_ai/bootstrap/transaction_messaging.py:125-128 | Stopping is final and recorded |
| TransactionAdmission.TransactionRuntime.FinishStart | src/qs_ai/bootstrap/transaction_messaging.py:72-84 | A monitored sender registers only after a completed observation of a live sampler; a failed start closes admission for good |
| TransactionAdmission.RunHost | src/qs_ai/bootstrap/transaction_messaging.py:40-128 | Over any run of host tasks and SDK threads every request reached the sender on full evidence and before admission was stopped |
| Escapes.TextReadsBack | src/qs_ai/application/interpretation/input_values.py:61-63 | UTF-8 decodes back every text |
| Escapes.QuoteReadsBack | src/qs_ai/application/interpretation/input_values.py:61-63 | Percent-encoding decodes back every byte string |
| Escapes.RefIsInjective | src/qs_ai/application/interpretation/input_values.py:61-63 | Different codes have different references |
| Texts.DecimalReadsBack | src/qs_ai/application/interpretation/input_values.py:118 | Decimal numerals of suggestion references read back their number |
| Suggestions.CollectSuggestions | src/qs_ai/application/interpretation/input_values.py:87-131 | The collecting loops compute the kept first occurrences and the per-dimension lists, or refuse exactly when an index or a text is unusable |
| Suggestions.Collector.Append | src/qs_ai/application/interpretation/input_values.py:94-109 | One attempt is refused exactly when unclean, and otherwise joins the collection |
| Suggestions.ProjectionIsConsistent | src/qs_ai/application/interpretation/input_values.py:87-131 | References are distinct, triples are not repeated, dimension references resolve, and by_dimension is the inverse of dimension_refs |
| Suggestions.AttemptsAreDistinct | src/qs_ai/application/interpretation/input_values.py:117-130 | Numerals, encoded codes and prefixes keep all offered references apart |
| Suggestions.EveryTripleIsKept | src/qs_ai/application/interpretation/input_values.py:98-109 | Every suggestion for a projected dimension, or for none, is present under its text |
| Suggestions.EveryItemWasOffered | src/qs_ai/application/interpretation/input_values.py:93-131 | Every item shows one suggestion of the report or of a dimension, under its own reference, category, text and dimension |
| MbtiScenes.ContractsHaveFourAxes | src/qs_ai/domain/governance/scenes.py:9-32 | Both model contracts have four distinct axis codes with single-letter poles |
| MbtiInput.JoinSpells | src/qs_ai/application/interpretation/mbti_input.py:107-118 | Four collected preferences, joined in order, make the type exactly when every pole spells its letter |
| MbtiInput.ReadAxes | src/qs_ai/application/interpretation/mbti_input.py:105-118 | The loop over dimensions accepts exactly four valid, different axes that spell the type |
| MbtiInput.ReadSuggestions | src/qs_ai/application/interpretation/mbti_input.py:119-132 | The loop over suggestions accepts exactly plain ones with distinct indices |
| MbtiInput.DecodeSnapshot | src/qs_ai/application/interpretation/mbti_input.py:51-133 | A snapshot is accepted exactly when it is valid |
| MbtiInput.ValidityForgetsOrder | src/qs_ai/application/interpretation/mbti_input.py:105-132 | Rearranging dimensions and suggestions keeps a snapshot valid |
| MbtiProjection.ProjectMbti | src/qs_ai/application/interpretation/mbti_input.py:214-308 | The projection method computes the specification function |
| MbtiProjection.ProjectionReadsBack | src/qs_ai/application/interpretation/mbti_input.py:247-308 | Report, policy and request can be read back from an accepted document: each dimension, but for its suggestion, at the place of its order |
| MbtiProjection.ProjectionForgetsOrder | src/qs_ai/application/interpretation/mbti_input.py:247-281 | Any two listings of a report give the same document, or both are rejected |
| MbtiProjection.ValidateProjection | src/qs_ai/application/interpretation/mbti_input.py:161-203 | The second validator accepts exactly what evaluation demands |
| MbtiProjection.AcceptAxes | src/qs_ai/application/interpretation/mbti_input.py:172-188 | Its loop accepts exactly four different axes that spell the type |
| MbtiProjection.RefsCount | src/qs_ai/application/interpretation/mbti_input.py:189-191 | Counting different references tells whether one is repeated |
| MbtiProjection.ProjectionIsAccepted | src/qs_ai/application/interpretation/mbti_input.py:161-203 | Whatever is projected, the second validator accepts |
| MbtiProjection.ProjectionSucceeds | src/qs_ai/application/interpretation/mbti_input.py:108-112 | A valid, permitted report is refused exactly when a dimension suggestion is longer than 2000 characters, although the snapshot validator admits 4000 |
| MbtiProjection.LimitsDisagree | src/qs_ai/application/interpretation/mbti_input.py:105-118 | One report with a suggestion of any length up to 4000 is valid and permitted, and projected exactly up to 2000 characters |
| MbtiProjection.SomeReportIsRefused | src/qs_ai/application/interpretation/input_values.py:84-131 | A concrete valid report, permitted by its policy, that the projection refuses |
| MbtiThemes.AssembledIsAccepted | src/qs_ai/application/interpretation/mbti_themes_input.py:22-67 | Whatever is assembled, the thematic validator accepts under the same policy; facts, context, profile and source are those of the basic projection, under the thematic contract and schema version |
| MbtiThemes.ThemesRefuseNothingMore | src/qs_ai/application/interpretation/mbti_themes_input.py:25-36 | With material of the policy's model, theming refuses nothing that the basic projection accepts |
| MbtiThemes.ThemesForgetOrder | src/qs_ai/application/interpretation/mbti_themes_input.py:22-47 | Order independence carries over |
| MbtiThemes.ValidateThemes | src/qs_ai/application/interpretation/mbti_themes_input.py:50-67 | The thematic validator accepts exactly matching model, acceptable facts and the frozen references |
| MbtiThemes.SelectionTellsType | src/qs_ai/domain/governance/mbti_references.py:115-133 | A type selects exactly the entries whose pole is one of its letters, and exactly the sources these name |
| MbtiThemes.ChosenTell | src/qs_ai/domain/governance/mbti_references.py:122-123 | Each such entry is chosen as often as it is listed |
| MbtiThemes.ChosenKeepOrder | src/qs_ai/domain/governance/mbti_references.py:123 | Entries stay in their order |
| ScaleProjection.Assemble | src/qs_ai/application/interpretation/input.py:116-228 | The loops compute the specification function of the scale projection |
| ScaleProjection.AssemblyIsSound | src/qs_ai/application/interpretation/input.py:165-228 | An assembly lists exactly the eligible dimensions in order with their own names, texts and facts, under distinct decodable references; parents and suggestions resolve from both sides |
| ScaleProjection.AssemblyIsMade | src/qs_ai/application/interpretation/input.py:116-228 | An assembly is made exactly when the policy is sound, codes are present and different, the number of eligible dimensions is within bounds, these are usable, and everything suggested is suitable |
| ScaleProjection.ParentIsFound | src/qs_ai/application/interpretation/input.py:193 | A parent is referenced exactly when it is projected too |
| Retirement.DropIsIssuedOnce | src/qs_ai/maintenance/empty_publisher_retirement.py:138-185 | Over every interleaving and crash each reviewed drop is dispatched on a table found empty under lock, under a current review whose frozen retained data were compared, after an unreopened look and the exclusive marker, and at most once per review path |
| Retirement.LedgerTellsTheTruth | src/qs_ai/maintenance/publisher_window.py:131-150 | The ledger reads 44 only while the table is absent, and exactly one ledger row is moved, once |
| Retirement.NothingLeftToDrop | src/qs_ai/maintenance/empty_publisher_retirement.py:145-148 | Once the table is gone no drop is ever dispatched again, whoever lost the answer, because whoever drops holds a lock under which it found the table empty |
| Retirement.RepairIsProved | src/qs_ai/maintenance/publisher_window.py:76-150 | Over every run a repair moves the ledger only after it was approved inside its windows on the original's marker, then saw the table gone and the retained tables as the original review froze them, then found no reopen marker, then spent its own marker |
| Retirement.RetirementSucceeds | src/qs_ai/maintenance/empty_publisher_retirement.py:138-185 | From an empty table and a current review a run whose answers arrive removes the table and moves the ledger |
| Retirement.FreshRetirementSucceeds | src/qs_ai/maintenance/empty_publisher_retirement.py:138-185 | A fresh installation does so without approval |
| Retirement.RunKeepsInv | src/qs_ai/maintenance/empty_publisher_retirement.py:138-185 | Every run of any number of processes keeps locks, knowledge and records consistent |
| Retirement.DropKeepsInv | src/qs_ai/maintenance/empty_publisher_retirement.py:168-185 | A dispatched drop with any answer keeps the invariant |
| Retirement.ConsumeKeepsInv | src/qs_ai/maintenance/publisher_material.py:68-90 | The marker is created exclusively |
| Retirement.LooksKeepInv | src/qs_ai/maintenance/publisher_material.py:93-99 | A look at the reopen marker precedes consumption |
| Retirement.CommitKeepsInv | src/qs_ai/maintenance/publisher_window.py:142-150 | Committing the ledger keeps the invariant |
| Retirement.LostDropIsReachable | src/qs_ai/maintenance/empty_publisher_retirement.py:180-185 | A drop whose answer is lost leaves the ledger pending with the marker consumed |
| Retirement.LostDropIsRepaired | src/qs_ai/maintenance/publisher_window.py:76-157 | From there a recovery bound to the consumed review moves the ledger forward |
| Fingerprints.RowReadsBack | src/qs_ai/maintenance/publisher_material.py:155-163 | The null and length-prefixed coding of a row decodes uniquely |
| Fingerprints.RowDigest | src/qs_ai/maintenance/publisher_material.py:155-163 | Feeding the hash piece by piece hashes the coded row |
| Fingerprints.ConcatenatedDetermines | src/qs_ai/maintenance/publisher_material.py:213 | Digests of one width can be cut out of their concatenation |
| Fingerprints.ItemDeterminesTable | src/qs_ai/maintenance/publisher_material.py:189-214 | With no collision among the messages hashed, fingerprints agree exactly when columns, definition and row multiset do |
| Fingerprints.TakeSnapshot | src/qs_ai/maintenance/publisher_material.py:183-220 | All tables are fingerprinted within rows, bytes and time, or a budget is exceeded and nothing is |
| Fingerprints.BudgetedIsCodable | src/qs_ai/maintenance/publisher_material.py:184-199 | Whatever fits the budget fits the eight-byte lengths |
| Fingerprints.RetainedDeterminesDatabase | src/qs_ai/maintenance/publisher_material.py:244-252 | Two accepted snapshots retain the same exactly when every protected table has the same contents |
| TestShards.PartitionsPartition | scripts/ci/run_tests.py:12-17 | The parts are an exact, disjoint partition of the tests, balanced within one |
| TestShards.PartitionsForgetOrder | scripts/ci/run_tests.py:15-17 | The partition does not depend on the order of collection |
| TestShards.StridesCover | scripts/ci/run_tests.py:17 | The strides hold every element exactly as often as the whole |
| TestShards.PartsAreInhabited | scripts/ci/run_tests.py:17 | A shard is empty exactly when its index is not below the number of tests |
| TestShards.Shard.Collect | scripts/ci/run_tests.py:31-38 | A runner keeps exactly its own part, and kept and excluded tests make up all |
| TestShards.Shard.Finish | scripts/ci/run_tests.py:46-68 | Success is reported exactly when everything selected passed and nothing was skipped |
| ShardCoverage.Verify | scripts/ci/verify_test_shards.py:9-87 | The check accepts exactly covering manifests, with the number of tests |
| ShardCoverage.Group | scripts/ci/verify_test_shards.py:20-56 | The grouping loop accepts exactly fitting manifests that agree pairwise |
| ShardCoverage.CheckVersion | scripts/ci/verify_test_shards.py:63-86 | The newest attempts of a version all pass and together pass every test once, or the version is refused |
| ShardCoverage.GroupsAreComplete | scripts/ci/verify_test_shards.py:57-58 | Counting the groups tells whether every shard of every version has reported |
| ShardCoverage.CoveredMeansOnce | scripts/ci/verify_test_shards.py:59-87 | Acceptance means that on every version each collected test passed exactly once in the newest attempts, and nothing else passed |
| ShardCoverage.WrittenRunsAreCovered | scripts/ci/verify_test_shards.py:9-87 | Manifests written by runners over the parts of one collection are accepted exactly when every newest attempt reports success; then there are no more shards than tests and the number is that of the tests |
| ShardCoverage.PassingRunsAreCovered | scripts/ci/run_tests.py:46-68 | With no more shards than tests, manifests whose newest attempts pass all that they selected are accepted, with the number of tests |
| ImageRetention.CutBeforeMoving | scripts/cd/image-retention.py:77-78 | Keeping three before moving to the front loses nothing that three can show |
| ImageRetention.RecordOneMore | scripts/cd/image-retention.py:77-86 | The saved history is the first three of the unbounded move-to-front list; the first bootstrap decision stays until three distinct successes and never comes back |
| ImageRetention.Select | scripts/cd/image-retention.py:67-100 | What is kept is exactly what some rule protects, and candidates are exactly the unkept images in scope |
| ImageRetention.SelectionIsMade | scripts/cd/image-retention.py:67-75 | A selection is refused exactly if a name is invalid or the deployed image is not one of the service |
| ImageRetention.FirstBootstrapIsNewest | scripts/cd/image-retention.py:79-84 | The first decision protects three images than which no other of the service is newer, and the present ones of those given |
| ImageRetention.Host.Execute | scripts/cd/image-retention.py:121-192 | Only an applied, healthy run is recorded, even if its cleanup fails; nothing in the history, referenced, current, previous, saved as bootstrap or carrying a recovery tag is ever removed; done means every tag of every candidate was removed, and it is done unless something is denied |
| ImageRetention.Host.RemoveTags | scripts/cd/image-retention.py:174-178 | A tag goes only while it still names the candidate; done means all of them went |
| Sorting.AscendingIsUnique | scripts/ci/run_tests.py:16-17 | There is one ascending arrangement of elements that the order tells apart |
| Sorting.SortForgetsOrder | scripts/ci/run_tests.py:16-17 | Sorting by an order that tells elements apart forgets the input order |
| Sorting.MapTellsElements | src/qs_ai/maintenance/publisher_material.py:200-213 | If digests are rearranged and no two rows share one, the rows are rearranged |

## Left out

- SchemaMaintenance.Maintenance.Actual: a fence is taken to find connections exactly while a release runs.
- SchemaFollowup.Followup.StopRelease: stopping takes away the containers of the named release only; whether the deployment script would also remove those of a stray one is not modelled.
- SchemaMaintenance.Maintenance.StartRelease: success is taken to mean that exactly this release's containers run.
- Retirement.Prepare: the checks before the table lock are one step; those that matter are repeated under the lock and are separate steps there.
- Retirement.Elsewhere: other sessions change rows, definitions and retained data, but nobody creates the retired table again.
- ImageRetention.Host.RemoveTags: the inspection of a tag and its removal are one step; the deployment lock excludes other deployments in between.
- ScaleProjection.Assemble: the two kinds of refusal (invalid, not applicable) are one, and scores, levels, norms and the model result are carried through unread.
- MbtiProjection.ProjectionSucceeds: texts are sequences of Unicode scalar values; a snapshot whose JSON escapes a lone surrogate passes the validator and fails only when the document is encoded as UTF-8.
- MbtiInput.DecodeSnapshot: JSON values of another type than the field's, and unknown or missing fields, are outside the typed snapshot.
- One follow-up context is modelled; bootstrap, its rehearsal, clean-up of retained schemas and the retention report are left out.
- Wall and monotonic clocks tick at the same rate, and no operation of the conversion tool is still in flight after a fenced validation.
- Executor and binding checksums, image identities, credentials and backups enter only as steps that may fail.
- The MySQL conversion itself is a contract over journal phases and rows; its row mapping is left out.
- Claiming, heartbeats and leases of workers appear only as executions that stop at any step.
- The fresh-install path of the migration is covered as a drop without review; how an installation is recognised as fresh is left out.
- MySQL versions and the exact JSON texts are left out; documents stand for their encodings.
- The hash of rows is a parameter, free of collisions only on the messages two compared snapshots hash; the digest that orders tests is any function.
- Docker, SSH, subprocesses, archives, file permissions, command-line parsing and receipt texts are left out; only the order of durable effects is kept.
- Shutdown of the sampler and sender beyond stopping admission, and the metrics they report, are left out.
- Governance commands, catalogues, quotas and configuration merging are single checks and would only add easy members.

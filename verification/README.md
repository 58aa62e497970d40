# Verified models of the proactive-assistant backend

The backend of this repository is a set of durable, crash-prone state machines. Each commits small SQLite transactions
or atomic file replacements around an effect that cannot be taken back: an HTTP send, a native worker submit, a git push,
a service stop. This project models those machines in Dafny and proves what holds over whole runs, with crashes and
interleavings between any two steps. Two algorithmic cores of the benchmarks are modelled beside them.

How the models are built:

- A transaction is a function from table contents to table contents. A class with the source's fields has one method per
  source operation, proved to change its fields exactly as that function says.
- A `World` puts the tables together with the calls under way, and a `Step` is one transaction, one external effect, a
  restart or a crash. `Run` applies a list of steps, so every theorem about `Run` is about every interleaving.
- Compound calls (`SendOnce`, `RunRoutine`, `Apply`, `Rollback`, `Publish`, `Prepare`, `Submit`, `Cancel`, ...) are methods
  proved equal to a run of the machine, whatever the surroundings answer. The theorems about runs are therefore theorems
  about the code.
- Beside each transaction and each compound call, lemmas state on plain fields when it acts and what it writes
  (`RecordSetsState`, `ClaimTakes`, `PurgeEmpties`, `OneCallSends`, ...). They do not use the tests the machine itself uses.
- Where the code reads in one transaction and writes in another without checking a revision or stage again, the two are
  separate steps.
- Hashes, HMACs and derived UUIDs are injective, so a key is the tuple it is derived from. Instants are integers and a local
  day is an arbitrary function of the instant.

| file | component |
|---|---|
| `Attention.dfy`, `Delivery.dfy`, `Dispatch.dfy` | attention ledger, delivery outbox, and their joint runs |
| `Occurrences.dfy`, `Routines.dfy` | routine occurrence ledger and its runs |
| `Installer.dfy`, `Controller.dfy` | policy installer; improvement controller and publication |
| `PolicyDiffs.dfy`, `Sorting.dfy`, `Correlations.dfy` | candidate diffs and their effect on a briefing's correlations |
| `Revisions.dfy`, `SourceFlow.dfy`, `Resolver.dfy` | source revision ledger, receiver, resolver rotation |
| `Delegation.dfy` | delegation controller |
| `Recovery.dfy` | cold-backup quiesce and resume |
| `Coverage.dfy` | coverage receipts |
| `EditDistance.dfy`, `ToolLoop.dfy` | benchmark algorithms |
| `Common.dfy` | shared vocabulary |

## What the models show to be false

Five promises one might read into the code do not hold as stated. Each has a lemma with the exact condition.

- **One undisturbed `apply` does not always settle.** The systemd adapter's `active()` runs `systemctl is-active`, which
  exits non-zero for a stopped unit, and the runner turns that into an exception
  (scripts/assistant_context_improvements.py:947-953). With that adapter a fresh transaction always ends in
  `recovery_required` with the service down (`Installer.StrictFirstApplyFails`). `Installer.StrictApplyConverges` gives the
  exact states from which it does settle, `Installer.LenientApplyConverges` the exact states for an adapter that answers
  "not active".
- **A crash between the file replacement and its chown/chmod is final.** The new file then has the wrong owner or mode, and
  every later `apply` and `rollback` refuses the target (`Installer.UnsealedCrashIsReachable`, `Installer.UnsealedIsFinal`).
- **A resume journal does not imply the recovery marker after a reboot.** The marker lives under `/run`, the journal under
  `/var/lib` (`Recovery.RebootLosesTheMarker`). Nothing else breaks the implication
  (`Recovery.MarkedExactlyWithoutSuchReboots`), and the journal itself stays usable (`Recovery.CrashThenResumeRestoresOwed`).
- **Coverage depends on arrival order when timestamps tie.** `Coverage.OrderFreeExactlyWhenUntied` states exactly when it
  does not.
- **A scrubbed delegation request can get text back.** Two calls decide on a plain read and write later without looking
  again: `reconcile` (scripts/assistant_context_delegation.py:330-387) and `cancel`
  (scripts/assistant_context_delegation.py:487-500). If a purge falls in between, a late `reconcile` writes its answer, and
  a late `cancel` sets `cancel_requested`, which a later `reconcile` treats as live.
  `Delegation.ScrubbedTextCanComeBack` gives both runs from an empty database, and
  `Delegation.ScrubbedStaysBlankExactlyWhenNothingStale` shows that there is no third way. The service lock excludes both.

## Model

| member | source | states |
|---|---|---|
| `Attention.AttentionLedger.RecordDecision` | scripts/assistant_attention.py:283-335 | records a proposal once per dedupe key: stop and snooze inheritance, deletion purge with its request answers, shadow state and the daily-limit downgrade |
| `Attention.AttentionLedger.PurgeSource` | scripts/assistant_attention.py:337-377 | rows about the object go, except held ones and (on request) stop and snooze controls, which lose their source reference; answers about them go too; everything else is unchanged |
| `Attention.AttentionLedger.ApplyDecision` | scripts/assistant_attention.py:411-446 | a request id answers once and fails with other content; otherwise accepted exactly for the expected revision and a snooze of at most 30 days, moving one row |
| `Attention.AttentionLedger.MarkDelivery` | scripts/assistant_attention.py:448-480 | a request id answers once and fails with other content; otherwise accepted exactly for a notify row at the expected revision along an allowed transition |
| `Attention.DailyBudgetHolds` | scripts/assistant_attention.py:283-335 | over every run of ledger writes, no local day holds more sendable notify rows than the largest limit proposed |
| `Attention.DailyCeilingIsTwenty` | scripts/assistant_attention.py:321-326 | the ceiling of 20 holds over every run whatever limits callers supply |
| `Attention.ShadowNeverDelivered` | scripts/assistant_attention.py:448-480 | a row outside the sendable states never becomes sendable or delivered while it exists |
| `Attention.SilencedStaysSilent` | scripts/assistant_attention.py:303-313 | one stopped row, or one snoozed beyond a horizon, silences its occurrence over every later run that neither adjusts nor deletes it: no revision is recorded as a notification or becomes sendable, across purges that keep controls too |
| `Attention.RecordSetsState` | scripts/assistant_attention.py:303-330 | a new decision is stopped or snoozed exactly if a row of its source, object and event type is stopped or snoozed beyond now, otherwise shadow or pending by mode |
| `Attention.RecordSetsOutcome` | scripts/assistant_attention.py:315-326 | a new decision is retained under a control, and is a notification exactly if proposed as one and, unless shadow, fewer than the limit and fewer than 20 were counted on its day |
| `Attention.RecordKeepsOthers` | scripts/assistant_attention.py:283-335 | a known decision changes nothing; a new one touches another row only by the purge of a deletion |
| `Attention.PurgeRemoves` | scripts/assistant_attention.py:337-377 | which rows of the object a purge keeps, and that a kept row loses only its source reference |
| `Attention.PurgeForgetsAnswers` | scripts/assistant_attention.py:354-354 | a purge forgets exactly the answers about rows of its object |
| `Attention.ControlMoves` | scripts/assistant_attention.py:411-446 | a control is taken exactly at the row's revision, a snooze only up to thirty days ahead; the state, time and revision it leaves; other rows unchanged |
| `Attention.MarkMoves` | scripts/assistant_attention.py:448-480 | a delivery mark is taken exactly on a notification at its revision and only upwards in delivery order; other rows unchanged |
| `Delivery.Classify` | scripts/assistant_context_delivery.py:114-148 | delivered, accepted and uncertain each exactly for the stated status code, route, target and delivery id; no positive verdict without the delivery id; a server error is never taken as held |
| `Delivery.DeliveryOutbox.Admit` | scripts/assistant_context_delivery.py:264-287 | one row per occurrence: the same content is a replay, other content raises unless it promotes a shadow row, and no row past shadow is rewritten |
| `Delivery.DeliveryOutbox.Claim` | scripts/assistant_context_delivery.py:296-308 | succeeds exactly on a pending row of this decision and changes only its status and revision |
| `Delivery.DeliveryOutbox.Finish` | scripts/assistant_context_delivery.py:310-328 | closes exactly a claimed row of this decision |
| `Delivery.DeliveryOutbox.Hold` | scripts/assistant_context_delivery.py:449-465 | holds back exactly an unsent row of this decision, returns a terminal one as it is, raises without a row or on a shadow row |
| `Delivery.DeliveryOutbox.RecoverInflight` | scripts/assistant_context_delivery.py:330-339 | every claimed row, and no other, becomes uncertain; the result counts them |
| `Delivery.DeliveryOutbox.PurgeSource` | scripts/assistant_context_delivery.py:341-356 | rows citing the object lose their body and end in the status the deletion implies; the result counts them |
| `Delivery.AdmissionWrites` | scripts/assistant_context_delivery.py:264-287 | a first admission writes the whole row; later only other content for a shadow row, offered for real, replaces it |
| `Delivery.RowMoves` | scripts/assistant_context_delivery.py:296-328 | which row a claim, a finish and a hold move, from which status, to which status |
| `Delivery.SweepsMove` | scripts/assistant_context_delivery.py:330-356 | recovery and purge change every row that qualifies, to the stated status and body, and no other |
| `Dispatch.RunKeepsInv` | scripts/assistant_context_delivery.py:264-465 | every interleaving of admit, claim, send, finish, hold, purge, recovery, ledger writes and crashes, decided on ledger reads however stale, keeps rows, callers, transmissions and ledger consistent |
| `Dispatch.AtMostOneTransmission` | scripts/assistant_context_delivery.py:358-447 | over every run, two transport calls for one occurrence are the same call |
| `Dispatch.RowsOnlyMoveDown` | scripts/assistant_context_delivery.py:264-356 | from any reachable state on, a status only moves down shadow, pending, claimed, terminal; terminal rows are final; a scrubbed body never reappears |
| `Dispatch.DeliveredWasAcknowledged` | scripts/assistant_context_delivery.py:399-447 | a decision marked delivered has a delivered outbox row whose only transport call was answered 200 with this route, target and delivery id |
| `Dispatch.SendOnce` | scripts/assistant_context_delivery.py:358-447 | the whole call is a run of the machine for every gate result, recheck result, reply, failing write, answered receipt and crash point; it sends exactly if the decision is a pending, active, source-backed notification with a pending row, every gate passes and the process outlives the claim, and it sends that row's message |
| `Dispatch.OneCallSends` | scripts/assistant_context_delivery.py:375-447 | the same condition, field by field, for the machine's steps of one call |
| `Dispatch.OneCallLeaves` | scripts/assistant_context_delivery.py:399-447 | the outbox status and the ledger row one sending call leaves behind, for every reply, failing write and crash point |
| `Dispatch.ReceiptMarks` | scripts/assistant_context_delivery.py:439-445 | a receipt marks exactly a notification still open to that status, and an accepted reply leaves no mark |
| `Dispatch.SendClaimed` | scripts/assistant_context_delivery.py:399-447 | the part that holds the claim is a run of the machine |
| `Dispatch.RecordOutcome` | scripts/assistant_context_delivery.py:430-447 | the outbox result is written before the ledger receipt, and a crash may separate them |
| `Occurrences.OccurrenceLedger.Admit` | scripts/assistant_context_briefings.py:364-395 | inserts, reopens or leaves an occurrence, and reports suppression, under the control in force |
| `Occurrences.OccurrenceLedger.Transition` | scripts/assistant_context_briefings.py:397-422 | returns a result exactly for a bounded snooze and a replay of the same content or an allowed change at the expected revision, and changes the row once per request id |
| `Occurrences.OccurrenceLedger.SetControl` | scripts/assistant_context_briefings.py:589-614 | returns a result exactly for a bounded snooze and a replay of the same content or the expected revision, and replaces the control once per request id |
| `Occurrences.OccurrenceLedger.Claim` | scripts/assistant_context_briefings.py:488-508 | claims exactly when the control is absent, a resume or an expired snooze, no delivery row exists and the occurrence is accepted; a leftover claim becomes uncertain in both tables |
| `Occurrences.OccurrenceLedger.Finish` | scripts/assistant_context_briefings.py:537-543 | closes delivery and occurrence, each only if it still holds the claim |
| `Occurrences.OccurrenceLedger.RecoverInflight` | scripts/assistant_context_briefings.py:549-560 | every claim becomes uncertain in both tables and nothing else changes; the result counts them |
| `Occurrences.OccurrenceLedger.PurgeSource` | scripts/assistant_context_briefings.py:562-578 | delivery rows citing the object lose their citations, claims among them become uncertain in both tables, and the result counts the rows |
| `Occurrences.DoubtAll` | scripts/assistant_context_briefings.py:556-558 | the recovery loop reaches the recovered tables from any state |
| `Occurrences.ForgetAll` | scripts/assistant_context_briefings.py:570-576 | the purge loop reaches the purged tables from any state |
| `Occurrences.AdmissionOpens` | scripts/assistant_context_briefings.py:364-395 | an occurrence opens accepted exactly under no control, a resume or an expired snooze, and reopens exactly then while nothing was claimed |
| `Occurrences.ClaimTakes` | scripts/assistant_context_briefings.py:488-508 | a claim is made exactly under such a control on an accepted occurrence without a delivery row; what it writes; a leftover claim becomes uncertain |
| `Occurrences.ChangeMoves` | scripts/assistant_context_briefings.py:397-422 | which change is allowed from which status at which revision, and the row it leaves |
| `Occurrences.ControlReplaces` | scripts/assistant_context_briefings.py:589-614 | a control is replaced exactly for a new request at the expected revision and within the snooze bound |
| `Occurrences.FinishWrites` | scripts/assistant_context_briefings.py:537-543 | the status each answer gives a claimed delivery and a sending occurrence |
| `Occurrences.SweepsMove` | scripts/assistant_context_briefings.py:549-578 | what recovery and purge do to each delivery and its occurrence |
| `Routines.RepeatedRequestIsInert` | scripts/assistant_context_briefings.py:408-413 | after any further steps, a repeat of an answered request id changes nothing, and is answered if and only if it has the same content and, for a snooze, its bound still holds |
| `Routines.RunKeepsInv` | scripts/assistant_context_briefings.py:364-578 | in every reachable state a delivery row is claimed exactly when its occurrence is sending, and no claim was made under a pause, cancel or unexpired snooze |
| `Routines.OneCallPerRoutineAndDay` | scripts/assistant_context_briefings.py:648-650 | over every run, two transport calls of a routine for instants on one local day are the same call |
| `Routines.DeliveredRoutineWasAcknowledged` | scripts/assistant_context_briefings.py:509-543 | a delivered routine was acknowledged for this route, target and delivery id by its only transport call |
| `Routines.RunRoutine` | scripts/assistant_context_briefings.py:616-635 | admit, claim, recheck, send and finish form a run of the machine for every gate result, reply and crash point; it sends exactly under a free control on an admissible occurrence never claimed before, when gates and recheck pass and the process outlives the claim |
| `Routines.SendClaimed` | scripts/assistant_context_briefings.py:509-547 | the part of `send_once` that holds the claim is a run of the machine |
| `Routines.OneCallSends` | scripts/assistant_context_briefings.py:488-535 | the same condition for the machine's steps of one call |
| `Routines.ClaimLeaves` | scripts/assistant_context_briefings.py:509-547 | the delivery and occurrence status one claim ends in, for every reply, recheck and crash point |
| `Routines.AdmitThenClaim` | scripts/assistant_context_briefings.py:364-508 | admission followed by a claim succeeds exactly under a free control on an admissible occurrence without a delivery row |
| `Installer.TransactionIsSafe` | scripts/assistant_context_improvements.py:1134-1268 | over every crashed and resumed run the target is the before or the after bytes, was replaced only while the service was stopped, `applied` means after bytes with the candidate applied, `rolled_back` means before bytes with the candidate not applied |
| `Installer.LenientApplyConverges` | scripts/assistant_context_improvements.py:1155-1235 | from every reachable resting state one undisturbed `apply` settles if and only if the target kept owner and mode and the transaction was begun or the service is up; a call that settles leaves the service up |
| `Installer.StrictApplyConverges` | scripts/assistant_context_improvements.py:947-955 | the same, exactly, for the adapter that raises on a stopped unit |
| `Installer.StrictFirstApplyFails` | scripts/assistant_context_improvements.py:947-955 | with that adapter every undisturbed first `apply` ends in `recovery_required`, after bytes in place, service down |
| `Installer.AppliedWentWell` | scripts/assistant_context_improvements.py:1195-1215 | over every run, the step that first writes `applied` ends a forward part without a failure since `apply` began at rest, right after a health check that passed, with the after bytes in place and the service up |
| `Installer.RolledBackWentWell` | scripts/assistant_context_improvements.py:1217-1235 | the same for `rolled_back`: a restore without a failure, right after its own passed health check, before bytes in place, service up |
| `Installer.OneFailureRollsBack` | scripts/assistant_context_improvements.py:1195-1210 | whichever forward operation fails, the health check included, a call that is not disturbed again ends rolled back exactly if the target kept owner and mode and the adapter can answer, and otherwise in `recovery_required` |
| `Installer.RestoreFailureNeedsRecovery` | scripts/assistant_context_improvements.py:1226-1230 | whichever operation of the restore fails, the call ends in `recovery_required` |
| `Installer.LenientRollbackConverges` | scripts/assistant_context_improvements.py:1237-1268 | an undisturbed `rollback` ends rolled back exactly if it already was, or owner and mode are intact and a restore was owed or the operator names the installed after bytes |
| `Installer.FailuresKeepTheirEffect` | scripts/assistant_context_improvements.py:1195-1210 | an operation that raises before its effect changes nothing, one that raises after it leaves the disk of a success, and both go to the handler of their part |
| `Installer.UnsealedCrashIsReachable` | scripts/assistant_context_improvements.py:1018-1030 | a crash right after the replacement leaves a state in which, over every later run, every `apply` and `rollback` is refused |
| `Installer.UnsealedIsFinal` | scripts/assistant_context_improvements.py:1018-1030 | while the target lacks its owner or mode, no run changes anything but the unit |
| `Installer.SettledApplyChangesNothing` | scripts/assistant_context_improvements.py:1179-1186 | repeating `apply` on a settled transaction changes nothing |
| `Installer.UndisturbedSettles` | scripts/assistant_context_improvements.py:1155-1235 | an undisturbed call from any line of the code ends, and settles exactly when its line and disk say so |
| `Installer.ReplayIsRun` | scripts/assistant_context_improvements.py:1155-1268 | every call, with any outcomes and any point of death, is a run of the machine |
| `Installer.PolicyInstaller.Apply` | scripts/assistant_context_improvements.py:1168-1215 | the code of `apply`, started at rest, ends where the machine's call ends for every sequence of outcomes |
| `Installer.PolicyInstaller.Advance` | scripts/assistant_context_improvements.py:1195-1215 | the forward part of `apply`, with its exception handler |
| `Installer.PolicyInstaller.RestorePreimage` | scripts/assistant_context_improvements.py:1217-1235 | the code of `_restore_preimage` ends where the machine's restore ends |
| `Installer.PolicyInstaller.Rollback` | scripts/assistant_context_improvements.py:1237-1268 | the code of `rollback` ends where the machine's call ends |
| `Controller.ImprovementController.Prepare` | scripts/assistant_context_improvements.py:635-665 | succeeds exactly for a replay of the same content, or for a fresh id whose gates pass, inserting one prepared candidate |
| `Controller.ImprovementController.Move` | scripts/assistant_context_improvements.py:673-693 | succeeds exactly for a replay of the same content or from the expected stage, and moves one candidate once per request |
| `Controller.ImprovementController.RejectCandidate` | scripts/assistant_context_improvements.py:695-699 | rejects exactly a candidate not yet approved |
| `Controller.ImprovementController.Promote` | scripts/assistant_context_improvements.py:757-783 | succeeds exactly for a canaried candidate under a grant within the cap that has quota left or already answered this request, approving it once |
| `Controller.PreparationInserts` | scripts/assistant_context_improvements.py:635-665 | inserted exactly for a fresh id and request; every field of the new row |
| `Controller.TransitionMoves` | scripts/assistant_context_improvements.py:673-693 | taken exactly for a fresh request at the expected stage; stage, revision and head change, reviewed bytes and grant do not |
| `Controller.RejectionCloses` | scripts/assistant_context_improvements.py:695-699 | taken exactly before approval |
| `Controller.PromotionGrants` | scripts/assistant_context_improvements.py:757-783 | taken exactly for a fresh request on a canaried row while the grant has paid for fewer than its quota of at most ten |
| `Controller.EdgesAreTheNextStages` | scripts/assistant_context_improvements.py:673-693 | transitions go from each stage to the next, except that only `promote` leaves the canary |
| `Controller.StagesMoveOn` | scripts/assistant_context_improvements.py:785-797 | no stage is a dead end, and publication is entered only by a `publish` call |
| `Controller.GitRemote.Publish` | scripts/assistant_context_improvements.py:395-450 | adopts a branch that matches exactly, refuses a different one, otherwise pushes one commit on the selected revision with the reviewed bytes; succeeds exactly when the forge answers throughout and the branch matches |
| `Controller.Publish` | scripts/assistant_context_improvements.py:785-797 | intent, look, adopt or push, record: the whole call is a run of the machine for every drift check, forge answer and point of death, with at most one push, and succeeds exactly when it published the candidate or its request was answered so before |
| `Controller.PublishIntended` | scripts/assistant_context_improvements.py:796-797 | the part after the intent is a run of the machine and succeeds exactly when the candidate's own commit is confirmed and recorded, now or under the same request before |
| `Controller.LivesFollowTheChain` | scripts/assistant_context_improvements.py:673-699 | over every run a candidate moves only forward along the nine stages, none skipped or repeated, or is rejected before approval |
| `Controller.GrantStaysWithinQuota` | scripts/assistant_context_improvements.py:757-783 | no grant ever approves more candidates in total than the largest quota it was presented with |
| `Controller.NoGrantExceedsTheCap` | scripts/assistant_context_improvements.py:752-752 | from an empty database the cap of 10 holds for every grant |
| `Controller.RunKeepsInv` | scripts/assistant_context_improvements.py:785-797 | every interleaving of publish calls, crashes and stage moves keeps remote branches, heads and pushes consistent |
| `Controller.OneCommitIsTheRecordedHead` | scripts/assistant_context_improvements.py:785-797 | however often publish crashed and was retried, exactly one commit was pushed, it carries the reviewed bytes on the selected revision, and it is the recorded head |
| `Controller.RetryPublishes` | scripts/assistant_context_improvements.py:785-797 | an undisturbed retry publishes, adopting the commit a crashed call pushed |
| `PolicyDiffs.ApplyCandidateDiff` | scripts/assistant_context_improvements.py:186-204 | raises exactly on a diff outside class, bounds or tightening, otherwise replaces exactly the named fields; the final reload cannot fail |
| `PolicyDiffs.AcceptsExactly` | scripts/assistant_context_improvements.py:186-204 | accepted exactly if not empty, on a loadable policy, every entry within its bound and class, links on, thresholds no lower |
| `PolicyDiffs.LoadsExactly` | scripts/assistant_context_improvements.py:169-183 | a policy loads exactly if schema and zone are known and every listed field is within its bound |
| `PolicyDiffs.PatchSets` | scripts/assistant_context_improvements.py:186-204 | an accepted diff sets exactly the fields it names |
| `PolicyDiffs.ChainOnlyTightens` | scripts/assistant_context_improvements.py:186-204 | along any chain of proposals thresholds never fall, the policy stays loadable, links stay on, all other fields are unchanged |
| `PolicyDiffs.UnloadableIsFrozen` | scripts/assistant_context_improvements.py:169-183 | a policy that does not load is never changed by a proposal |
| `Correlations.Correlate` | scripts/assistant_context_briefings.py:215-233 | whatever order dictionaries are walked in, lists each passing term's candidate once, best first |
| `Correlations.ListedExactly` | scripts/assistant_context_briefings.py:224-233 | a complete list has an entry for exactly the terms that pass |
| `Correlations.PassesExactly` | scripts/assistant_context_briefings.py:226-228 | a term passes exactly if two sources mention it and the numbers of mentioning and twice mentioning sources reach both thresholds |
| `Correlations.FirstIsEarliest` | scripts/assistant_context_briefings.py:229-230 | the reference taken for a source is that of its earliest item with the term |
| `Correlations.IndexTerms` | scripts/assistant_context_briefings.py:218-223 | the nested dictionaries hold, for each term and source, its references in item order |
| `Correlations.CountEvidence` | scripts/assistant_context_briefings.py:226-226 | the count is one per source plus one per source cited at least twice |
| `Correlations.FirstOfEach` | scripts/assistant_context_briefings.py:229-230 | the references are the first of each source, sources ascending |
| `Correlations.ListingIsUnique` | scripts/assistant_context_briefings.py:233-233 | two complete lists for the same items and thresholds are equal |
| `Correlations.TighterListIsSubsequence` | scripts/assistant_context_briefings.py:224-233 | under thresholds no looser the complete list is a subsequence of the earlier one, for any rounding |
| `Correlations.ChainShortensTheList` | scripts/assistant_context_improvements.py:186-204 | along any chain of proposals the later list is a subsequence of the earlier one on the same items |
| `Revisions.CommitIsMerge` | scripts/assistant_context_sources.py:591-676 | a committed snapshot changes what is known of each object of its source exactly as the abstract merge does, whatever the sweep order, and nothing of other sources |
| `Revisions.CommittedOk` | scripts/assistant_context_sources.py:591-676 | a committed snapshot of any source keeps rows and enqueued events in step |
| `Revisions.CommitEnqueues` | scripts/assistant_context_sources.py:591-676 | per object, one event if the offer is news and one more if the snapshot ends a live object; nothing else is enqueued |
| `Revisions.CommitReports` | scripts/assistant_context_sources.py:591-676 | every enqueued event says what the snapshot says, at the snapshot's own times |
| `Revisions.RepeatedSnapshotIsSilent` | scripts/assistant_context_sources.py:616-626 | committing the same snapshot again enqueues nothing |
| `SourceFlow.CallsFollowTheLog` | scripts/assistant_context_sources.py:580-589 | the ingest calls of a whole run over every source, repeats collapsed, are a prefix of the enqueued events |
| `SourceFlow.RevisionsHaveNoGap` | scripts/assistant_context_sources.py:591-676 | in the shared log the enqueued revisions of each object are 1, 2, 3, ... and its row carries the last |
| `SourceFlow.TombstoneNamesItsUpsert` | scripts/assistant_context_sources.py:645-665 | over every run a tombstone follows an upsert of its object with nothing of that object between, has the next revision, and carries that upsert's event type and source reference |
| `SourceFlow.EventsReportSnapshots` | scripts/assistant_context_sources.py:591-676 | over every run each enqueued event reports what some committed snapshot of its source said |
| `SourceFlow.DrainExactly` | scripts/assistant_context_sources.py:580-589 | a drain delivers the outbox in order up to the first call not accepted, which stays in the outbox and arrived exactly if only its receipt was lost |
| `SourceFlow.SucceedsExactly` | scripts/assistant_context_sources.py:591-676 | `apply` returns normally exactly if the backlog is accepted, no object is offered twice and every event it enqueues is accepted |
| `SourceFlow.ReceiverAgreesWithMerge` | scripts/assistant_context_sources.py:591-676 | after any run of snapshots of any sources, lost receipts and crashes that ends in a successful `apply`, the receiver agrees with the merge of every committed snapshot |
| `SourceFlow.CompleteScanReplacesTheSet` | scripts/assistant_context_sources.py:658-670 | after a successful complete scan the receiver holds of that source exactly what was offered, for Daythread less what its resolver tombstoned or blocks at that version |
| `SourceFlow.ApplyLeavesOtherSources` | scripts/assistant_context_sources.py:658-670 | a successful `apply` changes nothing the receiver should hold of another source |
| `SourceFlow.RevisionLedger.DrainOutbox` | scripts/assistant_context_sources.py:580-589 | replays the outbox in order and deletes a row only after an accepted call |
| `SourceFlow.RevisionLedger.UpsertObjects` | scripts/assistant_context_sources.py:598-637 | raises exactly on a duplicate id, otherwise enqueues the upserts and counts them |
| `SourceFlow.RevisionLedger.ResolveObjects` | scripts/assistant_context_sources.py:638-657 | resolver tombstones keep the fingerprint that blocks the same version |
| `SourceFlow.RevisionLedger.SweepObjects` | scripts/assistant_context_sources.py:658-670 | a complete scan tombstones every current object of its source that it did not offer, and no other row |
| `SourceFlow.RevisionLedger.CommitSnapshot` | scripts/assistant_context_sources.py:597-674 | one transaction, with the source cursor: all of it or, on a duplicate, none of it |
| `SourceFlow.RevisionLedger.ApplySnapshot` | scripts/assistant_context_sources.py:591-676 | drain, transaction, drain: the whole call equals the machine's step |
| `SourceFlow.RevisionLedger.KnownIds` | scripts/assistant_context_sources.py:681-701 | refuses an unknown source, a bad limit or more than 2000 current ids without moving the cursor, otherwise selects the batch of the source's current ids after its cursor |
| `Resolver.Rotate` | scripts/assistant_context_sources.py:692-701 | the search loop finds the batch after the cursor, wrapping, and the cursor behind it |
| `Resolver.BatchIsDistinct` | scripts/assistant_context_sources.py:681-701 | no batch lists an id twice |
| `Resolver.EveryIdWithinOneRotation` | scripts/assistant_context_sources.py:681-701 | any ceil(n / limit) consecutive batches over n fixed ids contain every id, wherever the cursor starts |
| `Resolver.NextStart` | scripts/assistant_context_sources.py:692-701 | each batch starts right after the last id of the one before |
| `Delegation.AtMostOneSubmit` | scripts/assistant_context_delegation.py:266-328 | over every interleaving and crash, reads and writes of `cancel` and `reconcile` apart and other processes opening the database, each request id causes at most one native submit |
| `Delegation.RunKeepsInv` | scripts/assistant_context_delegation.py:182-185 | no row ever disappears, returns to `pending_dispatch`, or regains a task once emptied |
| `Delegation.ScrubbedStaysBlankExactlyWhenNothingStale` | scripts/assistant_context_delegation.py:330-387 | a scrubbed request keeps empty task, result and evidence over every later run if and only if no `reconcile`, and no `cancel` that saw it dispatched, was between its read and its write |
| `Delegation.ScrubbedTextCanComeBack` | scripts/assistant_context_delegation.py:487-500 | both kinds of stale call are reachable from an empty database and bring text back |
| `Delegation.NeverSubmittedExactlyWhenNotDispatching` | scripts/assistant_context_delegation.py:411-445 | a request past `pending_dispatch`, purged or not, is never submitted again if and only if its own dispatch is not about to submit it |
| `Delegation.SerialisedPurgeIsFinal` | scripts/assistant_context_delegation.py:411-445 | over every run of serialised operations and crashes, a purge of an object at any revision, or at the revision a request cites, or repeated, ends that request for good: empty, and never submitted again |
| `Delegation.PurgeEmpties` | scripts/assistant_context_delegation.py:424-445 | a purge empties exactly the rows that cite the object at a revision it covers or were purged for it before, and leaves every other row as it is |
| `Delegation.SubmissionInserts` | scripts/assistant_context_delegation.py:241-290 | a request is inserted exactly if its id is new and no other is between dispatch and its end |
| `Delegation.StatesMove` | scripts/assistant_context_delegation.py:292-328 | where a dispatch, its receipt, a cancel and a restart take the row they touch |
| `Delegation.AnswersMove` | scripts/assistant_context_delegation.py:330-387 | what each status answer writes |
| `Delegation.CallsBegin` | scripts/assistant_context_delegation.py:483-500 | a status query begins exactly on a request between dispatch and its end, a cancel also before dispatch |
| `Delegation.CallsEnd` | scripts/assistant_context_delegation.py:292-328 | a dispatch submits or expires a pending row by its deadline; each later step writes once and ends its call |
| `Delegation.RestartsEnd` | scripts/assistant_context_delegation.py:182-185 | opening the database leaves no row dispatching |
| `Delegation.OneCallSubmits` | scripts/assistant_context_delegation.py:241-328 | one `submit` call reaches the worker exactly for a pending request, or a new one while no other is unresolved, before it expires |
| `Delegation.DelegationController.constructor` | scripts/assistant_context_delegation.py:182-185 | opening the database makes every dispatching row uncertain and changes nothing else |
| `Delegation.DelegationController.Submit` | scripts/assistant_context_delegation.py:241-290 | a refused request changes nothing; otherwise the call is submit, dispatch, native submit, settle |
| `Delegation.DelegationController.Dispatch` | scripts/assistant_context_delegation.py:292-328 | submits a pending row at most once, expires it, or returns it; raises exactly without a row or an accepted receipt |
| `Delegation.DelegationController.Reserve` | scripts/assistant_context_delegation.py:292-309 | the transaction before the submit: the row becomes dispatching exactly if pending and not expired, and only then is it submitted |
| `Delegation.DelegationController.RecordReceipt` | scripts/assistant_context_delegation.py:310-328 | the transaction after it writes the outcome only to a row still dispatching |
| `Delegation.DelegationController.Reconcile` | scripts/assistant_context_delegation.py:330-387 | the call is its read followed by its unguarded write |
| `Delegation.DelegationController.Cancel` | scripts/assistant_context_delegation.py:483-511 | the call is its read, its unguarded write and the confirmed abort |
| `Delegation.DelegationController.PurgeSource` | scripts/assistant_context_delegation.py:411-445 | scrubs exactly the rows that cite the object at a covered revision or were purged for it, and counts them |
| `Recovery.RunKeepsInv` | scripts/application-recovery.py:468-527 | at every point of every run without a reboot, each initially active service that is down is journaled, nothing else was started, a journal implies the marker, and without a journal exactly the initial services run |
| `Recovery.RunKeepsCore` | scripts/application-recovery.py:468-527 | over every run, reboots included, each service owed (active at the start or, after a reboot, brought up by it or still journaled) that is down is journaled, and the journal stays distinct with the path before the proxy |
| `Recovery.CrashThenResumeRestoresOwed` | scripts/application-recovery.py:238-269 | after any run ends in a crash, reboots included, one failure-free `resume` restores exactly the owed services and removes journal and marker |
| `Recovery.CrashThenResumeRestores` | scripts/application-recovery.py:238-269 | after any such run ends in a crash, one failure-free `resume` restores exactly the initially active services and removes journal and marker |
| `Recovery.GoodResumeRestores` | scripts/application-recovery.py:238-269 | a failure-free resume starts all of any journal that lists the certificate path before the proxy |
| `Recovery.MarkerIsLostExactlyAtReboot` | scripts/application-recovery.py:620-700 | the only step after which a journal can lack its marker is a reboot with a journal outstanding |
| `Recovery.MarkedExactlyWithoutSuchReboots` | scripts/application-recovery.py:620-700 | over every run a journal implies the marker throughout if and only if no reboot happens with a journal outstanding |
| `Recovery.RebootLosesTheMarker` | scripts/application-recovery.py:30-31 | such a state is reachable |
| `Recovery.OrderedIsPermutation` | scripts/application-recovery.py:251-253 | the resume order is a permutation of the journal if and only if no priority container is journaled twice |
| `Recovery.PriorityFirst` | scripts/application-recovery.py:252-253 | journaled priority containers come first, in their declared order, and nowhere else |
| `Recovery.StoppedLaterStartsEarlier` | scripts/application-recovery.py:251-253 | apart from them, what was stopped later is started earlier |
| `Recovery.StopOrderPathFirst` | scripts/application-recovery.py:59-68 | every stop order reaches the certificate path before the proxy |
| `Recovery.RecoveryHost.Resume` | scripts/application-recovery.py:238-269 | attempts follow the resume order, the certificate path is never started before a listed proxy is ready, and the journal goes exactly if everything came up |
| `Recovery.RecoveryHost.StartAll` | scripts/application-recovery.py:254-266 | the loop makes exactly the attempts of the resume order, runs what they started, and counts no failure exactly if all were ready |
| `Recovery.RecoveryHost.Quiesce` | scripts/application-recovery.py:468-525 | under any fault the walk is a run of the machine; it completes exactly if no fault is met, and then every listed resource is down and what ran is journaled |
| `Recovery.RecoveryHost.Prepare` | scripts/application-recovery.py:612-700 | refuses while marker or journal exist; succeeds exactly if the walk met no fault, the archive was written and every service it stopped came up, and then the host is as before; whatever fails, the invariant holds |
| `Recovery.RecoveryHost.ResumeCommand` | scripts/application-recovery.py:895-900 | succeeds exactly if every start of a well-ordered journal is ready, then its services run and journal and marker are gone; failure keeps both |
| `Recovery.RecoveryHost.StopOne` | scripts/application-recovery.py:487-524 | probe, journal, stop of one resource: exactly what runs, what is journaled and whether the walk goes on, for each fault |
| `Recovery.BeginningsAndEnds` | scripts/application-recovery.py:620-700 | when a preparation and a resume begin, and when the marker outlives them |
| `Recovery.ResumeEnds` | scripts/application-recovery.py:254-269 | the journal is removed exactly if everything listed came up |
| `Coverage.CoverageTable.UpdateCoverage` | scripts/assistant_context_api.py:216-236 | accepts granted, not-future reports; a newer report replaces and clears the failures it answers |
| `Coverage.CoverageTable.FailCoverage` | scripts/assistant_context_api.py:201-214 | accepts granted, not-future failures and keeps the newest |
| `Coverage.CoverageTable.Report` | scripts/assistant_context_api.py:181-199 | the two loops report for every source what its stored success and failure imply |
| `Coverage.RunRemembers` | scripts/assistant_context_api.py:201-236 | after any receipts the stored success is a newest one, and a failure was dropped only for a newer failure or success |
| `Coverage.UnavailableExactlyWhenFailedLater` | scripts/assistant_context_api.py:181-236 | unless newest success and failure tie, a source is unavailable if and only if it has no success or a failure later than every success |
| `Coverage.AvailableShowsNewestSuccess` | scripts/assistant_context_api.py:190-198 | an available source shows its newest success: its time, stale exactly when older than the limit or in the future, otherwise its completeness |
| `Coverage.OrderFreeExactlyWhenUntied` | scripts/assistant_context_api.py:181-236 | every arrival order gives the same view at every instant if and only if newest success and failure do not tie and newest successes agree on completeness unless a later failure hides them |
| `Coverage.DistinctTimestampsAreOrderFree` | scripts/assistant_context_api.py:181-236 | with distinct timestamps arrival order never matters |
| `EditDistance.Distance` | benchmarks/whisper_cpu_benchmark.py:26-34 | the two-row program computes the recursive edit distance |
| `EditDistance.NextRow` | benchmarks/whisper_corpus.py:25-32 | the inner loop turns one table row into the next |
| `EditDistance.DistanceIsShortestScript` | benchmarks/whisper_cpu_benchmark.py:26-34 | the distance is the cost of some edit script between the lists and no script is cheaper |
| `EditDistance.ZeroOnlyOnEqual` | benchmarks/whisper_cpu_benchmark.py:26-34 | the distance is zero if and only if the lists are equal |
| `EditDistance.Symmetric` | benchmarks/whisper_cpu_benchmark.py:26-34 | the distance is symmetric |
| `EditDistance.Triangle` | benchmarks/whisper_cpu_benchmark.py:26-34 | the distance satisfies the triangle inequality |
| `ToolLoop.PostToolLoop` | benchmarks/benchmark_adapters.py:168-279 | leaves after at most max_calls + 1 requests at the first reply that asks for nothing or overruns the budget; the trace is exactly the calls before it, at most max_calls, each with the number of its request |
| `ToolLoop.Turn` | benchmarks/benchmark_adapters.py:190-260 | one request either leaves at the first reply not acted on or takes all its calls within the budget |
| `ToolLoop.TakeCall` | benchmarks/benchmark_adapters.py:210-260 | one call keeps every counter equal to what it means over the trace |
| `ToolLoop.GrownAccounts` | benchmarks/benchmark_adapters.py:229-258 | calls = errors + duplicates + distinct successful keys = missing ids + repeated ids + distinct ids |
| `ToolLoop.LeavesAt` | benchmarks/benchmark_adapters.py:190-208 | the budget test alone stops the loop by request max_calls |
| `ToolLoop.PerfectExactlyWhenRequired` | benchmarks/benchmark_adapters.py:222-261 | wrong = 0 and missing = 0 hold if and only if the trace's names and arguments are the required sequence and every name is defined |
| `ToolLoop.CountersMean` | benchmarks/benchmark_adapters.py:214-245 | each counter as a number of trace positions, without the loop's own tests |
| `ToolLoop.ResultsInTurn` | benchmarks/benchmark_adapters.py:236-251 | the result of each call: the three errors, the constant result, or the configured list in turn by earlier calls of that tool, its last entry repeated |

## Left out

- Scopes: every ledger is modelled for one authenticated scope; rows of other scopes are disjoint by key.
- Coverage keys of the revision ledger: one key per source; its rows are keyed by source, coverage and object.
- `SourceFlow.RevisionLedger.UpsertObjects`: the Daythread lookup across coverage keys, and its carried-over rows, are not modelled.
- `SourceFlow.RevisionLedger.ResolveObjects`: one row per object, where the code tombstones the row under every coverage key.
- `SourceFlow.RevisionLedger.SweepObjects`: filters on the source only, because each source has one coverage key.
- Overlapping installs: one `apply` or `rollback` at a time, and nobody else starts or stops the unit during it. No lock in the code enforces either; two overlapping calls could replace the target while the service runs.
- Concurrent collectors: one collector process at a time uses the revision ledger.
- Input validation: JSON shapes, sizes, identifiers, file ownership and symlink checks are taken as passed, except where a branch on them matters to a run.
- `evaluate`, quiet hours, freshness and grant checks before a send: each is an arbitrary boolean of the surroundings.
- `Attention.AttentionLedger.PurgeSource`: the feedback and learning-candidate rows it also removes are not modelled.
- Reason texts of outbox rows: a finished send stores one constant; nothing reads the column.
- HTTP, SSH, systemd, docker, git and GitHub: only the outcome of each call (success, failure, unknown) and its effect.
- Pull-request creation and reconciliation against the forge: only whether they succeed and the stage change they gate.
- `Installer.PolicyInstaller.Apply`: plans of kind `initialize`, which write the target once and stop, are not modelled.
- `Delegation.DelegationController.PurgeSource`: the native cancellation and cleanup receipts that follow the scrubbing are not modelled; they touch neither text nor state.
- The archive written between quiesce and resume, and retention of old archives.
- Services changed by anyone other than the recovery tool; after a reboot the running set is arbitrary.
- Term extraction from item text: an item carries its set of terms. Relevance is a real number and rounding an arbitrary function.
- Equality of tool arguments: two argument objects are equal when their canonical JSON text is, so `1` and `1.0` differ here.
- Token usage, durations and message history of the tool loop.
- Context store, retrieval, reasoner, briefing text, command lines, configuration and the other benchmarks: they take no part in the machines above.
- `Delegation.AtMostOneSubmit`: does not claim that at most one request is unresolved; a leftover `pending_dispatch` row is dispatched without that check.
- `Attention.DailyBudgetHolds`: counts rows currently held, because a purge deletes rows of messages already sent.

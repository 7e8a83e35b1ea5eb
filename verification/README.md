# AutoGit: a verified model

AutoGit watches coding sessions through typed events, keeps one lifecycle projection per repository,
and from it creates local commits, pushes them and creates hosted repositories. This project models
the three parts of it that carry its safety and proves what they promise.

**The lifecycle and its durable gate.** `Lifecycle` and `Reducer` give the meaning of one event and
of one delivery (admission, apply, quarantine, buffer, replay) as functions on values; `LiveState`
is the reducer as the program runs it, a mutable projection with its map loops and nested replay
loop, each method tied to that meaning. `Admission`, `Deliveries` and `Outcomes` say what that
meaning is in terms of the event and the state alone: who waits, who is set aside, who is released,
what every family of events does to the facts and exactly when it is refused. `History` turns a run
into the log of events that really went through `apply`. On it stand the theorems about whole runs:
`CurrentEvidence` and `Freshness` (a queued commit rests on a verification nothing has invalidated),
`PushProvenance`, `ToolCount`, `Completion` (a task is only completed with authority), `Redaction`
(stripping answers is invisible to the machine), `Accounting` (nothing is lost or counted twice
behind the gate) and `ArrivalOrder` (a numbered stream ends in one state whatever order it arrives
in). `EventStore` is the transaction behind the uniqueness gate together with retention, `LiveStore`
the same as an object with tables; `Growth`, `StoreAgreement` and `StoreRuns` show that store and
projections describe the same deliveries after every history, that the store's consistency errors
are unreachable, that retention never shows in an answer, and that the projection on file is the
redaction of a reducer run. `GateHistory` says which earlier deliveries decide an answer and what
the audit log records of them, `Retention` which rows a policy keeps. `StoredFacts` draws the
conclusion: the theorems about reducer runs hold of what the store keeps.

**The crash-safe effect protocols.** `GitTransaction`, `CommitCoordinator`, `PushCoordinator` and
`RemoteCreation` are step machines: store, Git or remote, leases, and where each caller stands, with
lost answers and a crash possible at every step. Their stores are those of
`internal/state/state.go`, with the puts it refuses and the columns a put keeps. Their invariants
hold over every schedule, and for each it is shown exactly what one undisturbed call leaves, from
any state that earlier attempts and crashes can have left. `CommitGuards` adds what holds of a
commit even where others write refs and objects, and what the guard before the ref has seen.
`TransactionCaller`, `CommitCaller`, `PushCaller` and `RemoteCaller` are the sequential code of
those packages, branch by branch, run among other callers or a working user: every execution is
shown to be a run of the machine, what a call returns without error is shown to be so, and a call
that returns an error names its reason, which is shown to hold of the world; a call only blames a
port if a port has failed it.

**Loops with exact specifications.** `Staging` (which paths a candidate may own), `HistoryScan` and
`CleanHistory` (when evidence may be called safe) and `ProcessTree` (which processes descend from a
root).

`Names` holds Go's string order, sorting, the ascending enumeration of a key set, and the forms of
object names and digests.

Conventions. A map loop visits keys in any order. A port's answer is a value: success, or failure
with the effect done or not done. A well-bound run uses each verification id and commit-job id with
one change only, as the emitter does. Where tasks are asked to sit under their own ids
(`Lifecycle.TasksKeyed`), every run keeps them so (`Completion.LogTraced`). A proof that does not
need a definition hides it with a `hide` statement, which keeps it small.

Results that are limits of the code, with the exact condition or a concrete input:

- Without the gate a reused id overwrites its receipt (`Accounting.ReusedIdBreaksTheCount`);
  `Accounting.CountIsKeptExactly` and `Accounting.InStepExactlyWithoutReuse` say exactly when the
  bare reducer keeps one receipt a revision, for one delivery and for whole runs.
- An attempt that stops between the durable intent and the ref is never finished by a retry
  (`GitTransaction.AbandonedForGood`, reached by `GitTransaction.AbandonedHappens`);
  `GitTransaction.OneCommitSucceeds` says exactly which attempts stand in the way of a commit.
- The second read of the job under the lease is needed (`CommitCoordinator.WithoutSecondLook`).
- A job stored as local only never ends skipped (`PushCoordinator.LocalIsNeverSkipped`): the store
  compares the stored local-only flag with a zero value, so it refuses to mark the row the push has
  just put. An undisturbed local-only push puts a new job of the right form and changes no other, so it ends skipped
  exactly when its id was skipped before (`PushCoordinator.LocalPushIsRefused`); the mark goes through
  exactly when, between the look and the put, the same push comes on file as one to be sent
  (`PushCoordinator.LocalPutIsSkipped`, `PushCaller.Caller.Skip`). The repository's test of local-only
  pushes uses a store without that comparison.
- When the host names another repository than the one asked for, the store refuses to record the
  failure, unless the name is empty (`RemoteCreation.WrongIdentityIsForgotten`). The job stays
  requested, and the next healthy call attaches the repository (`RemoteCreation.MisnamedThenAttached`);
  `RemoteCreation.OneRetryAttaches` says exactly when a retry attaches.
- A look-up of HEAD that fails reads as an unborn branch, so a candidate without a parent passes the
  recheck whatever HEAD is, and one with a parent does not (`GitTransaction.OneCommitSucceeds`).
- A scanner that blocks a file without a finding or a reason code goes unnoticed
  (`HistoryScan.SilentBlockIsClean`, exactly then by `HistoryScan.BlocksCountExactlyWhenSpoken`).
  The scanner the program ships never does so (internal/security/security.go:370); it takes an
  injected one.
- `Staging.DecisionsAgree` says exactly where the source-free plan parts from the full one: at a link
  observed with other content. A capture reads no content of links, so on captured observations the
  two always agree (`Staging.CapturedPlansAgree`).

## Model

| member | source | states |
|---|---|---|
| Names.NamesAreHex | internal/state/state.go:486 | An object name is well formed exactly when it is 40 or 64 lower-case hexadecimal digits. |
| Names.DigestsAreHex | internal/state/state.go:490 | A digest is well formed exactly when it is one of two prefixes and 64 such digits. |
| Names.LeqIsFirstDifference | internal/db/maintenance.go:318 | Text comes before other text exactly when it begins it or has the lesser character at the first difference; so timestamps compare. |
| CurrentEvidence.RefusalFrame | internal/lifecycle/lifecycle.go:631-808 | A refused event leaves policy, prompts, candidates, verifications, commits and pushes exactly as they were; only the session or a task can show a trace of it. |
| CurrentEvidence.ApplySound | internal/lifecycle/lifecycle.go:960-1118 | In well-bound runs every event keeps: a passed verification is reusable and carries its candidate's current five digests, a queued commit carries them and the message digest. |
| CurrentEvidence.ChangeSound | internal/lifecycle/lifecycle.go:960-991 | A candidate may be replaced because either no digest that evidence is bound to changes or all evidence of that change is withdrawn with it. |
| Freshness.PassedStep | internal/lifecycle/lifecycle.go:1009-1046 | After any event a passed verification was either passed by that very event with its digests, or was passed before, untouched, and its change not invalidated. |
| Freshness.LogSound | internal/lifecycle/lifecycle.go:644-672 | Over any well-bound log every passed verification and every queued commit can be traced to the log entry it rests on, with no invalidating entry in between. |
| Freshness.QueuedCommitsAreFresh | internal/lifecycle/lifecycle.go:1084-1091 | Over whole runs, buffered and replayed events included: a queued commit job was queued at a point where an earlier pass for the same change and the same five digests stood undisturbed, and it has not been invalidated since. |
| PushProvenance.DestinationsNeverChange | internal/lifecycle/lifecycle.go:1124-1148 | From any point of a log to any later one no push job changes its SHA, remote digest or ref. |
| PushProvenance.QueuedPushesAreSourced | internal/lifecycle/lifecycle.go:1092-1158 | Over whole runs a queued push was queued after an applied commit fact that carried exactly its SHA, and its destination is the one it started with. |
| ToolCount.SessionGuardHolds | internal/lifecycle/lifecycle.go:725-741 | A task with active tools means a session with active tools, so the inner guard of the session's decrement never fails. |
| ToolCount.ApplyCounted | internal/lifecycle/lifecycle.go:631-808 | Every event whose tool facts name their session keeps the session's tool count equal to the sum over its tasks, with no counter negative. |
| ToolCount.ToolsAreConserved | internal/lifecycle/lifecycle.go:725-741 | The same in every state a history of deliveries can reach. |
| Completion.TaskStep | internal/lifecycle/lifecycle.go:742-794 | After any event a task is marked as candidate only if it was and the event did not withdraw the mark, or the event marks it on its own claim; it is completed only if it was, or a domain fact completes it while eligible. |
| Completion.CompletionIsEarned | internal/lifecycle/lifecycle.go:742-794 | Over whole runs a completed task was completed by a domain fact while eligible, after a mark that no file change and no blocking prompt had withdrawn; a client's completion claim alone never completes a task. |
| History.RunIsLog | internal/lifecycle/lifecycle.go:468-563 | The facts of a run are the events of its log applied in order: direct deliveries and replayed ones alike. |
| History.LogAmong | internal/lifecycle/lifecycle.go:501-540 | Nothing enters the log or the buffer that was not delivered. |
| LiveState.Projection.InvalidateEvidence | internal/lifecycle/lifecycle.go:993-1007 | The two map loops withdraw exactly the verifications and the uncreated commits of one change and leave everything else. |
| LiveState.Projection.BlockingPrompt | internal/lifecycle/lifecycle.go:860-870 | The loop finds an open blocking prompt of the task, or of any task, exactly when there is one. |
| LiveState.Projection.Completable | internal/lifecycle/lifecycle.go:832-845 | The completion conditions: marked as candidate, no tools running, no prompt holding it, a queue state that allows it. |
| LiveState.Projection.ReusableVerification | internal/lifecycle/lifecycle.go:1111-1120 | The loop finds a passed, reusable verification of the candidate with the job's exact digests exactly when there is one. |
| LiveState.Projection.CreatedCommit | internal/lifecycle/lifecycle.go:1150-1158 | The loop finds a created commit with the SHA exactly when there is one; of several, the least key. |
| LiveState.Projection.ApplySessionEvent | internal/lifecycle/lifecycle.go:673-718 | Session facts: how tools, prompts and earlier states decide the session's next state, and which are refused. |
| LiveState.Projection.ApplyTaskEvent | internal/lifecycle/lifecycle.go:719-794 | Task and tool facts, with the difference between a client's completion claim and a completion of the domain. |
| LiveState.Projection.ApplyPromptEvent | internal/lifecycle/lifecycle.go:887-958 | Prompt facts: the record they leave, and how they hold and free task and session. |
| LiveState.Projection.ApplyChangeEvent | internal/lifecycle/lifecycle.go:960-991 | Change facts: the candidate's new digests and the evidence they withdraw. |
| LiveState.Projection.ApplyVerificationEvent | internal/lifecycle/lifecycle.go:1009-1046 | Verification facts: a pass only with the candidate's exact digests. |
| LiveState.Projection.ApplyCommitEvent | internal/lifecycle/lifecycle.go:1048-1105 | Commit facts: queued only with exact evidence and a reusable verification, created only for a known job with a well-formed SHA. |
| LiveState.Projection.ApplyPushEvent | internal/lifecycle/lifecycle.go:1124-1181 | Push facts: one destination a job, queued only for a created commit, errors sorted into retry and block. |
| LiveState.Projection.ApplyEvent | internal/lifecycle/lifecycle.go:631-643 | The first event with a session opens it, the first with capabilities fixes them, a foreign session is refused, the rest goes to its family. |
| LiveState.Projection.Quarantine | internal/lifecycle/lifecycle.go:619-629 | A refused event leaves a quarantine entry, a receipt, its key if that is new, and a revision. |
| LiveState.Projection.ReplayBuffered | internal/lifecycle/lifecycle.go:505-560 | The nested loop promotes buffered events in ascending id order, pass after pass, and ends with the buffer, ledger and facts of the recursive meaning; it terminates because the buffer shrinks. |
| LiveState.Projection.Deliver | internal/lifecycle/lifecycle.go:432-563 | One delivery in place ends in exactly the state and result of the value-level reducer. |
| Outcomes.ForeignIsRefused | internal/lifecycle/lifecycle.go:631-640 | An event of another session is refused, and at most fixes the session's capabilities. |
| Outcomes.NotesExactly | internal/lifecycle/lifecycle.go:641-808 | Discovery and the consent question change nothing; an event of no known type is refused. |
| Outcomes.FilesExactly | internal/lifecycle/lifecycle.go:644-658 | Changed files withdraw the evidence of every change and the completion mark of every task, and nothing else. |
| Outcomes.PolicyExactly | internal/lifecycle/lifecycle.go:659-672 | The new policy field by field; all evidence is withdrawn exactly when a policy in force gets another digest, decision, visibility or locality. |
| Outcomes.StartExactly | internal/lifecycle/lifecycle.go:673-684 | A start makes the session active on the event's baseline and, when it names a task, that task too. |
| Outcomes.PauseExactly | internal/lifecycle/lifecycle.go:685-706 | Idling and a stop of the model settle the session, or hold it while a tool runs or a blocking prompt is open; exactly when the session has ended, or crashed in the case of idling, they are refused. |
| Outcomes.EndExactly | internal/lifecycle/lifecycle.go:707-718 | An end and a crash are always taken; a recovery exactly of a crashed session. |
| Outcomes.TaskStartExactly | internal/lifecycle/lifecycle.go:719-724 | The task, a new one if need be, and the session become active. |
| Outcomes.ToolExactly | internal/lifecycle/lifecycle.go:725-741 | A tool that starts is counted with its task and the session, one that completes is taken off both unless the task counts none; refused exactly without the task. |
| Outcomes.TaskEndExactly | internal/lifecycle/lifecycle.go:779-794 | A failure or cancellation ends a known task, whatever it was doing. |
| Outcomes.ClaimExactly | internal/lifecycle/lifecycle.go:742-757 | A client's claim is noted, settles the session or holds task and session, and never completes the task. |
| Outcomes.CompletionExactly | internal/lifecycle/lifecycle.go:758-765 | A domain completion is taken exactly when the task is marked, no tool of it runs, no blocking prompt of it is queued or shown, and the queue state is native or none. |
| Outcomes.MarkExactly | internal/lifecycle/lifecycle.go:766-778 | A task is marked exactly on its own claim, with no tool of it running and no blocking prompt of it open. |
| Outcomes.ChangeExactly | internal/lifecycle/lifecycle.go:960-991 | The candidate after a change event, field by field; evidence of the change is withdrawn exactly when the event says so or the candidate had a digest and one of eight now differs. |
| Outcomes.VerificationExactly | internal/lifecycle/lifecycle.go:1009-1046 | A verification event is refused exactly when its change is unknown or a pass does not carry the candidate's five digests; the record it leaves, field by field. |
| Outcomes.CommitIsQueuedExactly | internal/lifecycle/lifecycle.go:1048-1091 | For an event that is not foreign, a request is accepted and leaves its job queued exactly when it names a job and a known change, its digests, with the candidate's where it has none, are complete and the candidate's, so is the message digest, and a reusable pass of that change stands with them; otherwise no job changes. |
| Outcomes.CommitIsCreatedExactly | internal/lifecycle/lifecycle.go:1092-1100 | A commit is recorded exactly for a job that was started, with digests as for a request and a full object name, which the job then carries. |
| Outcomes.CommitFailsExactly | internal/lifecycle/lifecycle.go:1101-1105 | A failure of a named job of a known change is always noted. |
| Outcomes.PushIsQueuedExactly | internal/lifecycle/lifecycle.go:1124-1158 | A push is queued exactly when it names a job whose destination, if it has one, is the same, its SHA, remote digest and ref are well formed, and a created commit has that SHA; the job is then tied to such a commit. |
| Outcomes.PushEndsExactly | internal/lifecycle/lifecycle.go:1159-1181 | A success is taken exactly with the job's own SHA; a failure waits for a retry unless its error is one of the four that block; a skip makes the job local. |
| Outcomes.PromptExactly | internal/lifecycle/lifecycle.go:887-958 | An answer is taken exactly for a known prompt that is open, any other prompt event with an id always; the record it leaves, and how a blocking prompt holds its task and session or lets them go on. |
| Deliveries.AuthorityExactly | internal/lifecycle/lifecycle.go:592-607 | A typed event with an id is turned away for its class exactly when a client says what only the core may say, or the core what only clients report; a completion may come from both. |
| Deliveries.NormalizedExactly | internal/lifecycle/lifecycle.go:432-446 | The alias fields stand in exactly for fields left out, and a class left out is that of the type. |
| Deliveries.ActionExactly | internal/lifecycle/lifecycle.go:565-585 | The action of an accepted delivery, each exactly: commit on a pass, push on a created commit, verify when evidence was withdrawn or a verification is asked for, ask for consent, notify, or none. |
| Deliveries.CommitIsAskedFor | internal/lifecycle/lifecycle.go:574-575 | When the answer asks for a commit, a reusable pass with the candidate's digests has just been put on record. |
| Deliveries.PushIsAskedFor | internal/lifecycle/lifecycle.go:576-577 | When the answer asks for a push, a created commit with the event's full SHA has just been put on record. |
| Deliveries.RedeliveryChangesNothing | internal/lifecycle/lifecycle.go:450-474 | A new event delivered twice in a row: the second time changes nothing and is a duplicate, or still waiting. |
| Deliveries.TheWayLeadsThrough | internal/lifecycle/lifecycle.go:468-808 | A run from a new state: a change, its pass, a request, the commit and a push request leave the commit job queued, then created, then the push job queued. |
| Admission.WaitsExactly | internal/lifecycle/lifecycle.go:475-492 | A new event that may be said waits exactly when its cause has no receipt or a number of its stream is missing; then it is buffered as it is and nothing else changes. |
| Admission.StaleIsSetAside | internal/lifecycle/lifecycle.go:482-486 | One whose number is in the past goes to the quarantine with a receipt, and the facts do not change. |
| Admission.RestIsDecided | internal/lifecycle/lifecycle.go:493-503 | Any other is decided by the facts: refused it goes to the quarantine for the reason given, accepted it leaves a receipt, its key, its number if that is the greatest, and a revision. |
| Admission.RepeatsExactly | internal/lifecycle/lifecycle.go:450-474 | What was met before changes nothing when its digest is the one remembered under its id or key, and goes to the quarantine as a conflict when it is not. |
| Admission.UnsaidExactly | internal/lifecycle/lifecycle.go:446-449 | Without an id or a type an event leaves no trace; one that may not be said goes to the quarantine. |
| Admission.WhoStillWaits | internal/lifecycle/lifecycle.go:505-560 | After an accepted event whoever is left in the buffer was there before, and was not called by it, as its effect or by the next number of its stream, or is still held by its own cause or number. |
| Admission.WhoIsReleased | internal/lifecycle/lifecycle.go:505-560 | Whoever has left the buffer was an effect of that event or numbered in its stream, has its cause settled, and is settled. |
| Redaction.Bound | internal/app/app.go:420-436 | The overwriting loops empty every prompt answer and every answer and reason of buffered and quarantined events, and change nothing else, field by field. |
| Redaction.BoundedIsStripped | internal/app/app.go:420-436 | A state is the redaction of another exactly when no answer of a prompt and no answer or reason of a buffered or quarantined event is left in it and every other field is the same. |
| Redaction.ReduceAlike | internal/lifecycle/lifecycle.go:432-563 | States that differ in stripped text only give the same result for any digested event and again differ in stripped text only, through every event type and the whole replay. |
| Redaction.StoredRunIsRedactedRun | internal/app/app.go:376-378 | A history kept in redacted storage ends in the redaction of the history kept whole, and the next delivery is answered the same. |
| Accounting.EveryDeliveryIsAccounted | internal/lifecycle/lifecycle.go:468-563 | Behind the gate every delivered id is in exactly one of receipts and buffer; one journal explains the ledger: a receipt and a revision for each settled event, the refused ones quarantined in order, each applied event after its cause. |
| Accounting.ReplayLeavesOnlyBlocked | internal/lifecycle/lifecycle.go:505-560 | When replay ends, every buffered event its filter still selects waits for a cause or for a number of its stream. |
| Accounting.ReusedIdBreaksTheCount | internal/lifecycle/lifecycle.go:450-458 | A concrete case: one id with two contents gives two revisions and one receipt. |
| Accounting.CountIsKeptExactly | internal/lifecycle/lifecycle.go:444-500 | For any delivery to a ledger in step: there is still one receipt a revision exactly when it is not so that its id has a receipt and its class is refused or its digest is another one; the ledger stays in step exactly when it is not quarantined before apply under an id settled or waiting. |
| Accounting.InStepExactlyWithoutReuse | internal/lifecycle/lifecycle.go:444-500 | A whole run of the bare reducer stays in step throughout exactly when no delivery is quarantined under an id already settled or waiting. |
| ArrivalOrder.ReplayRest | internal/lifecycle/lifecycle.go:505-560 | After the front of a stream settles, replay settles the waiting run of numbers behind it up to the first that is missing, or through the first that is refused, and nothing else. |
| ArrivalOrder.DeliveryExtends | internal/lifecycle/lifecycle.go:480-560 | Delivering one more event of a stream, whichever it is, moves the closed form of what was delivered to that of the larger set. |
| ArrivalOrder.ArrivalOrderIsInvisible | internal/lifecycle/lifecycle.go:480-560 | Two delivery orders of the same events of a numbered stream end in the same whole state, also when one of them is quarantined and the stream stalls there. |
| ArrivalOrder.NewStateStands | internal/lifecycle/lifecycle.go:480-497 | A new repository is a starting point for every numbered stream, whatever its events say. |
| ArrivalOrder.PermutationEndsInOrder | internal/lifecycle/lifecycle.go:480-560 | In particular every permutation ends where in-order delivery does. |
| Growth.DeliveryOutcome | internal/lifecycle/lifecycle.go:450-563 | An event with a fresh id and key is never a duplicate or a conflict to the reducer: it waits in the buffer and nothing else changes, or it settles with part of the buffer, quarantined exactly when rejected. |
| Growth.DeliveryKeepsRepository | internal/lifecycle/lifecycle.go:631-636 | No delivery changes which repository a projection is for. |
| LiveStore.ReportPromotions | internal/app/app.go:401-413 | The loops over buffer and quarantine report each buffered event that now has a receipt exactly once, rejected exactly when it is quarantined. |
| LiveStore.RunProjector | internal/app/app.go:365-415 | The projector: reduce, redact, translate the disposition, report the promoted receipts; its errors are a foreign projection and an untranslatable disposition. |
| LiveStore.CarryOut | internal/events/events.go:722-754 | The update loop succeeds exactly when every report finds its pending receipt with its digest and its buffered row, and then settles exactly those. |
| LiveStore.Store.LookupReceipt | internal/events/events.go:598-632 | The gate's answer without a projector: nothing on file, the receipt on file, or a conflict. |
| LiveStore.Store.AcceptAndProject | internal/events/events.go:638-770 | The transaction on the tables: all its inserts, updates and deletes, or none. |
| LiveStore.Store.RetainRows | internal/db/maintenance.go:300-370 | Retention prunes the audit trail by age and by count, sparing pending receipts, and moves settled old receipts to tombstones; which rows these are, `Retention` says. |
| StoreAgreement.JudgeIsJudgeUnion | internal/events/events.go:536-543 | The gate's verdict depends on the union of receipts and tombstones alone, whichever of the two holds the row. |
| StoreAgreement.RecordReceiptSound | internal/events/events.go:708-754 | Recording an unseen event cannot fail: no unique constraint, no diverged receipt and no diverged buffer row. |
| StoreAgreement.ReceiptsMatchNow | internal/app/app.go:397-413 | After a delivery every settled id of the projection has its row in the store, with the same digest and the same disposition. |
| StoreRuns.UnseenIsRecorded | internal/events/events.go:668-770 | An event the gate has not seen is recorded with whatever disposition the reducer gives it, and store and projections agree again. |
| StoreRuns.DeliverAnswers | internal/events/events.go:638-770 | The complete list of answers of a transaction; the errors for a regressed revision, an unknown disposition, a diverged receipt and a broken constraint are not among them. |
| StoreRuns.LookupForetells | internal/events/events.go:598-632 | The lookup finds nothing exactly when the transaction would record, conflicts exactly when it would refuse, and else shows the receipt on file. |
| StoreRuns.HistoryAgrees | internal/events/events.go:638-770 | After every history of deliveries and retentions: a receipt is pending exactly when its event is buffered in the store and in its repository's projection, settled ids and digests agree, and audit rows and receipts are numbered in lock step. |
| StoreRuns.CompactKeepsUnion | internal/db/maintenance.go:331-341 | Moving receipts to tombstones leaves every identity with its key, digest, disposition and revision. |
| StoreRuns.RetentionIsTransparent | internal/db/maintenance.go:300-370 | A history gives the same answers, identities and projections as the same history with every retention left out. |
| StoreRuns.RetentionSparesPending | internal/db/maintenance.go:316-341 | Whatever the policy, a pending receipt stays where it is, and so does its audit row. |
| StoreRuns.RowLimitHolds | internal/db/maintenance.go:324-330 | A row limit leaves at most that many audit rows besides those of pending receipts. |
| StoreRuns.ReceiptLimitHolds | internal/db/maintenance.go:331-341 | What a receipt policy leaves: of the settled receipts with timestamps before its cutoff at most as many as its row limit, and all of the newest stay. |
| StoreRuns.AuditJoinsOneReceipt | internal/events/events.go:789-859 | Whatever audit rows survive, each joins exactly one receipt or tombstone, and that one has its digest. |
| StoreRuns.NothingIsForgotten | internal/db/maintenance.go:331-341 | No delivery and no retention makes the gate forget an identity or change its key, digest, revision or time. |
| StoreRuns.ProjectionIsRedactedRun | internal/app/app.go:365-415 | After any history the projection on file is the redaction of a reducer run over the events of its repository that passed the gate. |
| StoreRuns.NoTextOnFile | internal/app/app.go:376-378 | After every history no projection on file holds an answer in a prompt, or an answer or reason in a buffered or quarantined event. |
| StoreRuns.PassedAreGated | internal/events/events.go:648-665 | The events that pass the gate are named and typed, with no id and no key twice. |
| StoreRuns.ProjectionIsAccounted | internal/events/events.go:638-770 | So a journal of settled events explains the ledger behind the projection on file, whose receipts and buffer are exactly the events that passed. |
| Retention.AuditRowSurvives | internal/db/maintenance.go:316-330 | An audit row survives, unchanged, exactly when its receipt is pending, or it is not from before the cutoff and fewer rows than the limit are both not from before the cutoff and later. |
| Retention.ReceiptStaysHot | internal/db/maintenance.go:369-384 | A receipt stays hot, unchanged, exactly when it is pending or buffered, the policy says nothing of receipts, it is not from before the cutoff, or fewer than the limit are newer; else its tombstone has it. |
| Retention.NewestAreExactly | internal/db/maintenance.go:379-382 | The newest of a limit are as many as the limit, or all there are. |
| GateHistory.AuditRowIsTheAnswer | internal/events/events.go:755-770 | A delivery that is taken in adds one audit row, with the repository, disposition, reason, digest and time of its answer; any other leaves the store as it was. |
| GateHistory.AuditIsTheAnswers | internal/events/events.go:755-770 | After every history each surviving audit row is that of the answer given at one step of it. |
| GateHistory.RowHasArrival | internal/events/events.go:700-721 | Every identity the gate remembers was taken in at one step of the history, and its row has that event's key and digest, and the revision and time of that answer. |
| GateHistory.ArrivalHasRow | internal/events/events.go:700-721 | Every event taken in at any step is remembered so for good. |
| GateHistory.BufferIsTheWaiting | internal/events/events.go:712-721 | Whoever is in the store's buffer was answered at one step that it waits, and is kept with its own cause. |
| GateHistory.GateAnswers | internal/events/events.go:536-543 | After every history, with retention or without: an event is taken in exactly when none with its id or its key was before, answered as a duplicate with its revision exactly when it was itself, and refused as a conflict exactly when its id or key was used for something else; the last two change nothing. |
| StoredFacts.StoredEvidenceIsFresh | internal/app/app.go:365-415 | After any history of the store, evidence on file matches its candidate's current digests and a queued commit on file rests on a pass that nothing has withdrawn, when no id among the passed events serves two changes. |
| StoredFacts.StoredPushesAreSourced | internal/app/app.go:365-415 | A queued push on file was asked for after an applied commit fact with its SHA. |
| StoredFacts.StoredToolsAreCounted | internal/app/app.go:365-415 | The session's tool count on file is the sum over its tasks, when tool events name their session. |
| StoredFacts.StoredCompletionIsEarned | internal/app/app.go:365-415 | A task completed on file was completed by a domain fact after a mark that nothing had withdrawn. |
| GitTransaction.RunSound | internal/gittransaction/transaction.go:412-501 | After any schedule of calls, answers, lost answers, crashes and user work: each AutoGit ref names a commit with exactly its intent's tree, parent and message, and each recorded SHA is its ref's target. |
| GitTransaction.CommitTreeAtMostOnce | internal/gittransaction/transaction.go:422-466 | However often a commit is retried, and whatever came of earlier runs, commit-tree runs for it at most once. |
| GitTransaction.RefIsAbsentOrExact | internal/gittransaction/transaction.go:826-855 | The ref of an intent is absent, or names a commit with exactly its tree, parent and message; a recorded SHA is the ref's target. |
| GitTransaction.RefNeverMovesLater | internal/gittransaction/transaction.go:478-493 | Once an AutoGit ref is there, no later history moves it. |
| GitTransaction.UserIsUntouched | internal/gittransaction/transaction.go:412-501 | HEAD, the index and all other refs are only ever what the user made them. |
| GitTransaction.RecoverFindsTheRef | internal/gittransaction/transaction.go:556-589 | With every port answering, recovery returns and records the ref's SHA exactly when the ref is there; else it adds one request for reconciliation and creates nothing. |
| GitTransaction.ReplyIsTheRef | internal/gittransaction/transaction.go:478-501 | A step ends a call with a SHA only with the ref on it, the intent on file and the record made. |
| GitTransaction.AbandonedForGood | internal/gittransaction/transaction.go:286-297 | An attempt that stopped between durable intent and ref is never finished by a retry: no later history creates that ref. |
| GitTransaction.AbandonedHappens | internal/gittransaction/transaction.go:444-447 | A crash right after the durable intent leaves such an attempt. |
| GitTransaction.OneCommitSucceeds | internal/gittransaction/transaction.go:412-501 | From any state earlier attempts and crashes leave, the whole state one undisturbed commit of a prepared candidate leaves: nothing changes when the candidate is malformed, HEAD, as looked up, or index has moved, or the id is on file for another candidate; the first time it leaves the intent, one commit of exactly its tree, parent and message, its ref and its record; when it was tried before it makes no commit and records what the ref names, or asks for reconciliation when there is no ref. |
| TransactionCaller.Transaction.Create | internal/gittransaction/transaction.go:271-305 | A SHA is returned only with an intent on file that is the request's in root, message, snapshot and evidence, its ref on an exact commit, and the SHA recorded; any other end has its reason: a failed port, no usable object, another request under the id, a moved HEAD or index, an absent or taken ref. |
| TransactionCaller.Transaction.CommitPrepared | internal/gittransaction/transaction.go:412-501 | The same for a prepared candidate, which is then the intent on file: it fails as moved only if HEAD or index had changed, as a conflict only if another candidate is on file. |
| TransactionCaller.Transaction.Recover | internal/gittransaction/transaction.go:556-583 | The same for recovery, which has no path to commit-tree: it fails only for a failed port, an unknown id or an absent ref. |
| CommitGuards.OnlyTheCandidateIsRecorded | internal/gittransaction/transaction.go:494-501 | In any state, reachable or not: after the ref was set or found the commit is recorded next exactly when it was looked up and has the candidate's tree, message and, if it has one, parent. |
| CommitGuards.RefIsNotOverwritten | internal/gittransaction/transaction.go:478-493 | In any state: before the ref is set, it is set exactly when it reads as absent, recorded when it names this commit, and left alone when it names another. |
| CommitGuards.RecoveryTrustsNobody | internal/gittransaction/transaction.go:556-589 | Even where others have written the ref, the object or the record, an undisturbed recovery returns the ref's SHA exactly when its object is the candidate's and no other SHA is on record. |
| CommitGuards.RefWasGuarded | internal/gittransaction/transaction.go:470-477 | Whatever the schedule and the user's work in between: for every ref made, HEAD and index were found unmoved once more after its commit had been made. |
| CommitGuards.OneCreateSucceeds | internal/gittransaction/transaction.go:271-305 | From any state earlier attempts leave, an undisturbed creation with a new id is the commit of the candidate on the current HEAD and index with the request's fields; with an id on file it is refused for another request, nothing changed, and recovered for the same. |
| CommitCoordinator.CommitsAreBudgeted | internal/coordinator/coordinator.go:186-250 | For any number of callers in any interleaving Git.Commit is called for a job at most once more than reconciles were recorded for it. |
| CommitCoordinator.LeaseExcludes | internal/coordinator/coordinator.go:211-219 | Two callers between acquire and release of the same job are one caller. |
| CommitCoordinator.CreatedForGood | internal/coordinator/coordinator.go:202-206 | A created job keeps its SHA and evidence for good and Git is not asked to commit it again. |
| CommitCoordinator.RecordedWasReported | internal/coordinator/coordinator.go:242-250 | The SHA on record is a full object name that Git itself reported for the job. |
| CommitCoordinator.WithoutSecondLook | internal/coordinator/coordinator.go:220-238 | Without the second read under the lease two racing callers end with two commits and no reconcile. |
| CommitCoordinator.OneCommitSucceeds | internal/coordinator/coordinator.go:186-304 | From any state earlier attempts and crashes leave, what one undisturbed commit leaves: nothing changes when the request is malformed, its id is on file with other evidence or as created, or its lease is held; else the lease is given back, Git is asked for exactly one commit where no attempt was under way and the job is created if it names one, and where one was Git is asked for none and the job is created with the commit found for the same evidence, or must be reconciled, counted once. |
| CommitCoordinator.OneRecoveryEnds | internal/coordinator/coordinator.go:255-304 | What one undisturbed recovery leaves: an attempt of this request that has not ended is created or must be reconciled, every other job is left alone, and Git is asked for no commit. |
| CommitCaller.Caller.Commit | internal/coordinator/coordinator.go:186-250 | Without an error the job is on file with the request's evidence, created for good under a SHA Git reported, or waits for reconciliation; with one, a port failed, Git named no SHA, or the id or the lease was taken; the invalid-record error never occurs. The budget holds at every return. |
| CommitCaller.Caller.Recover | internal/coordinator/coordinator.go:255-304 | Without an error there was no job, or it ends as a commit ends it; with one, a port failed or the id or the lease was taken. |
| PushCoordinator.SetAtMostOnce | internal/coordinator/coordinator.go:334-387 | Whatever the schedule, a destination ref is set by a push at most once. |
| PushCoordinator.RemoteNeverMovesLater | internal/coordinator/coordinator.go:349-371 | No ref on the remote, set by a push or there before, is ever changed. |
| PushCoordinator.PushNeedsMissingAndLease | internal/coordinator/coordinator.go:334-371 | A push is sent only by the lease holder of its destination, to a ref that is not there. |
| PushCoordinator.SuccessIsTrue | internal/state/state.go:685-704 | Under every schedule, whatever ids the callers use for what, a job recorded as succeeded has its ref on the remote at exactly its SHA. |
| PushCoordinator.SuccessIsObserved | internal/coordinator/coordinator.go:349-387 | Over whole runs a job becomes succeeded only at a step of a caller that holds its destination's lease, with the ref on the remote at its SHA, after a confirmation of that caller that saw it there. |
| PushCoordinator.RequestsNeverChange | internal/state/state.go:698-702 | What a push job is for is settled by its first put; no later history changes it. |
| PushCoordinator.LocalIsNeverSkipped | internal/state/state.go:698-700 | A job stored as local only stays requested in every state that can be reached. |
| PushCoordinator.LocalPushIsRefused | internal/coordinator/coordinator.go:312-331 | From any state earlier attempts and crashes leave, an undisturbed local-only push puts a new job of the right form as requested and changes no other, so it ends skipped exactly when its id was skipped before. |
| PushCoordinator.LocalPutIsSkipped | internal/state/state.go:698-702 | Once it has looked, a local-only push ends skipped exactly when the same push is meanwhile on file as one to be sent; a new job of the right form stays requested and any other is left alone. |
| PushCoordinator.OnePushSucceeds | internal/coordinator/coordinator.go:305-414 | From any state earlier attempts and crashes leave, one undisturbed push gives back the lease it took and ends recorded as succeeded exactly when it already was, or it is well-formed and for the remote, nothing else is on file under its id, it is not blocked, no caller is at work on its owner, name and ref and none has left a lease there behind, its ref holds no other SHA, and what it pushes shows up within three confirmations. |
| PushCoordinator.KeyNamesOneDestination | internal/coordinator/coordinator.go:339 | No two destinations share a lease key: owners and names have no slash in them. |
| PushCoordinator.LeaseIsTheDestination | internal/coordinator/coordinator.go:334-348 | A lease is taken exactly while some caller stands between acquiring and releasing at that owner, name and ref, or when one has left it behind under that name. |
| PushCoordinator.OthersDoNotMatter | internal/coordinator/coordinator.go:334-348 | Where no lease was left behind, a destination nobody is at work on is free, whatever other destinations are in progress. |
| PushCoordinator.ThePushLeadsThrough | internal/coordinator/coordinator.go:305-387 | So an ordinary new push to such a destination whose ref is not there ends on file as succeeded and on the remote at its SHA. |
| PushCoordinator.FailureIsClassified | internal/coordinator/coordinator.go:433-448 | A failed confirmation or push is put on file for a retry exactly when it is a passing failure and no conflict is claimed, else as blocked; the remote has changed only if the failed push took effect. |
| PushCoordinator.RetryIsThePush | internal/coordinator/coordinator.go:419-431 | An undisturbed retry is the push on file when that one waits for it, and else changes nothing. |
| PushCaller.Caller.Push | internal/coordinator/coordinator.go:305-387 | Whoever else runs and crashes: without an error the push is on file and its ref on the remote at its SHA; with one, a port failed, or the request is malformed, its id taken, its job blocked, another caller at work on its very destination or its lease there left behind, its ref on another SHA, or still missing after three confirmations. |
| PushCaller.Caller.ConfirmAfterMutation | internal/coordinator/coordinator.go:393-414 | At most three confirmations are asked, each further one only after a missing ref; the answer is the last one's, and missing only after all three. |
| PushCaller.Caller.Skip | internal/coordinator/coordinator.go:145-152 | With the store answering, a local-only push ends without an error exactly when another caller had put it as one to be sent. |
| PushCaller.Caller.RetryPush | internal/coordinator/coordinator.go:419-431 | A retry goes on only with a job that waits for one when it looks, and with the request it has on file then; its end is explained as that of a push. |
| RemoteCreation.NoDuplicateCreate | internal/provider/repository_transaction.go:141-172 | Whatever crashed before, hosted Create is never called on a repository that is there. |
| RemoteCreation.AttachedIsBound | internal/provider/repository_transaction.go:126-187 | Attached means the repository is hosted under the identity and the alias is bound to it. |
| RemoteCreation.EndedForGood | internal/provider/repository_transaction.go:92-106 | Attached and failed jobs never change again. |
| RemoteCreation.OneRetryEnds | internal/provider/repository_transaction.go:66-187 | From any state earlier attempts leave, the whole state one crash-free call leaves: an id of another request, a failed job and an attached one are left alone; else the job is attached, with the repository there and the alias bound to it, when the alias is free or rightly bound, and fails when it is not. |
| RemoteCreation.OneRetryAttaches | internal/provider/repository_transaction.go:66-187 | From any state earlier attempts leave, one crash-free call ends attached exactly when the job has not failed and the alias is free or rightly bound with the repository there. |
| RemoteCreation.RetryAttachesUnlessFailed | internal/provider/repository_transaction.go:66-187 | Where no alias was bound to begin with, from any crash point one crash-free call ends attached exactly when the job has not failed. |
| RemoteCreation.PutIsAccepted | internal/state/state.go:732-776 | The store takes every put this code makes but one of a wrong hosted identity. |
| RemoteCreation.WrongIdentityIsForgotten | internal/provider/repository_transaction.go:159-171 | When hosted Create returns another identity the repository is there and the job is marked failed exactly when that identity is empty; else the job is left as it was. |
| RemoteCreation.MisnamedThenAttached | internal/provider/repository_transaction.go:66-187 | From a fresh start such a run leaves the job requested and the repository there, and the next healthy call attaches it. |
| RemoteCaller.Transaction.Create | internal/provider/repository_transaction.go:66-187 | The identity is returned only with the repository hosted, the alias bound to it and the job attached under that identity with the request's alias and visibility; any other end has its reason: a failed port, a wrong identity from the host, another request under the id, a failed job, an alias bound elsewhere, a bound repository that is gone. |
| Staging.BuildObservedPlan | internal/staging/staging.go:103-160 | The loop fails exactly when some requested path is unsafe or ambiguous, and else returns the owned paths in order with their entries and digest. |
| Staging.BuildPlanFromFingerprints | internal/staging/staging.go:166-223 | The same for the source-free form, with tracked paths; what the plan then holds, `Staging.CandidateIsNewOrDeleted` says. |
| Staging.RequestOrderIsInvisible | internal/staging/staging.go:103-160 | Reordering or repeating the requested paths changes nothing. |
| Staging.CandidateIsTheNewFiles | internal/staging/staging.go:103-160 | No plan exactly when a requested path is unsafe, was there and is gone or changed in kind, bytes or normalized mode, or is a new link. Else the candidate is exactly the requested paths absent at the baseline and present now, in order, each once, with their bytes and 0755 for any execute bit or else 0644; paths, changes and digest follow it. |
| Staging.CandidateIsNewOrDeleted | internal/staging/staging.go:166-223 | The same of the source-free form for any tracked paths: refused are recorded files that are gone or changed, files where the manifest records none and HEAD has one, and unrecorded links; the candidate holds a delete entry exactly for the requested, tracked, absent paths that the manifest does not mention, and an added one with bytes and mode exactly for the new files. |
| Staging.DecisionsAgree | internal/staging/staging.go:238-250 | With an injective digest and nothing tracked the two forms decide alike about a path exactly when it is not a link observed with other content. |
| Staging.FingerprintsRefineObservations | internal/staging/staging.go:166-272 | So when no requested link was retargeted the source-free form fails exactly when the full one does and else returns the same plan. |
| Staging.RetargetedLinkParts | internal/staging/staging.go:238-250 | With a requested link retargeted the full form fails, and the source-free one returns a plan exactly when nothing else stands in its way. |
| Staging.CapturedPlansAgree | internal/repository/observation.go:758-785 | On captured observations, which hold no content of links, the two forms always give the same result. |
| HistoryScan.Evidence.AddItems | internal/historyscan/historyscan.go:379-408 | Every regular tree entry ends in the index once, whatever repeats, every other one as a finding, and a list that is too long ends the scan. |
| HistoryScan.Evidence.MeasureBlobs | internal/historyscan/historyscan.go:471-511 | Every blob's type and size is checked against its limit and the running total before any is read. |
| HistoryScan.Evidence.AddFinding | internal/historyscan/historyscan.go:671-679 | Findings never exceed their limit: one past it is dropped, but then the limit is a reason, so evidence is never spotless after a finding. |
| HistoryScan.Evidence.Scan | internal/historyscan/historyscan.go:314-569 | Evidence is safe exactly when the history is clean, and then the secret scanner was handed every distinct object, path and mode exactly once and nothing else, within every limit. |
| CleanHistory.CleanMeans | internal/historyscan/historyscan.go:314-569 | Clean means exactly: the candidate is among its commits; every commit is it or an ancestor, typed and listed; every entry is an ordinary file whose blob is typed, within its limit, its own by length and name, no large-file stub and not objected to; every directory is a tree or a gitlink; and commits, entries, distinct objects and bytes keep within their limits. |
| HistoryScan.BlocksCountExactlyWhenSpoken | internal/historyscan/historyscan.go:544-562 | For every scanner: safe evidence means that it blocked nothing, whatever history with well-formed names and paths it is used on, exactly when it never blocks a file that can reach it without a finding or a code. |
| HistoryScan.SilentBlockIsClean | internal/historyscan/historyscan.go:551-562 | Every file that can reach the scanner and that it blocks without a finding or a code has a one-file history, its commit, tree and file under distinct full object names, that is clean, so its evidence is safe. |
| ProcessTree.Descendants | internal/process/process_tree_linux.go:60-75 | The worklist ends, cycles or not, with each process reachable from the root through the table exactly once, the root excluded and nothing unreachable. |

## Left out

- Go's int64 counters: revisions and sums are unbounded integers; only the sequence test `last+1` wraps as in Go.
- The reducer's clock and identifier source: the production configuration is empty, so settling deadlines are a constant and missing task ids become the synthetic one.
- Fields that no modelled decision reads: worktree and correlation ids, session claims, payload fields for exit codes, durations, changes and verifier sets.
- LiveState.Projection.CreatedCommit: the code takes whichever matching commit its map iteration meets first; here it is the one with the least key.
- JSON encoding, SHA-256, regular expressions and SQL: an identity round trip, a hash that an event carries with it, validity predicates, and maps with the schema's unique constraints.
- Envelope validation: its guarantees (id, type, key and digest present) are a precondition of the store theorems.
- The one-megabyte projection limit: it can only abort a transaction, which rolls back.
- `Accept`, `ReplayPending` and `ExpirePending`: they change receipts without the reducer.
- The redacted copy of a buffered event in `pending_events`: only its id and cause are kept here.
- Retention of the outbox, of leases and of the `audit` table, and compaction of the file.
- LiveStore.CarryOut: the code's two messages for a diverged receipt and a diverged buffer row are one error here; which comes first depends on map order.
- `hook`, `completeLifecycle`, `promoteCompletionCandidate` and the command line: orchestration over services that are not part of this model.
- The four effect protocols change one value for the whole world, step by step, where the code changes a database, a repository and a remote; aliasing between those is not modelled.
- Preparing a candidate: building the tree in a temporary index is one step that yields a tree name or fails.
- Writers of the AutoGit ref namespace other than this code, `UndoCommitRef` among them.
- Git's object hashing and message trimming: an object name in use has its content, messages come in canonical form, and their digests are compared as messages.
- Coordinators without a lease, and lease expiry by time: a lease is held until its holder releases it or crashes.
- Commit transactions at once in one worktree: the writer lease of internal/workflow/workflow.go:127-147 makes them one at a time.
- `internal/workflow` and `internal/verification` are not part of this model, nor of `internal/state` more than the rows of the four protocols: a put or mark is one atomic step. The format checks of push jobs are modelled; those of the other rows are a port that fails.
- Writers of the same rows other than these protocols, `RecordGitCancel` and `RecordGitUndo` among them.
- Remote creation for several destinations at once: the model follows one destination, whose lease makes its calls one at a time; spellings of its URL are a given set.
- Whether Git's answers fit together: that a listed path comes with its directories, that an object has one kind.
- Scan deadlines, the checks on the request and its ref, and the evidence digest: they can only end in blocked evidence.
- Staging's path syntax check is a given predicate, and modes are the Unix ones.
- File capture, process signalling and the reading of the process table.
- Replay is not a full causal closure in the code, and none is claimed: an event two causes away from the delivery stays buffered until something selects it.

# Mamachi: a verified model

Mamachi drives a coding agent by voice. This project models its core in Dafny and proves what the core is
there to guarantee. `dafny verify dfyconfig.toml` checks everything.

**Task controller** (`packages/core/src/controller.ts`, `domain.ts`, `event-store.ts`). Commands and internal
signals are decided against the state in memory, the resulting events are persisted together with the result
under the command id, and the events are folded into memory one at a time, with every guard and every state
check after each of them. `Protocol`, `Domain` and `Decisions` are that code as functions; `Runtime` is the same
code as classes whose fields are updated in place, each method proved against those functions. `Invariants`
holds the inductive invariant behind the checks of the code, which are not inductive themselves, and the notion
of a legal event; `Progress` shows that every decision produces legal events only; `Controller` puts store,
memory and evidence together and defines the runs. A state is *reachable* when a run of steps that do not throw
leads to it. `Answers` says what every signal is answered in a reachable state, why, and what it leaves in the log;
`Journal` reads every record in memory off the log. `SlotTheorems`, `TaskHistory`, `QueueOrder`, `Approvals`,
`Recovery`, `Outcomes`, `Frame`, `Throws`, `Cancellation` and `Aftermath` are the theorems over those runs; `Frame`
says for all seventeen signals at once what one of them can touch. `VoiceRevision` interleaves concurrent
`propose_task_change` calls with everything else, and `Proposals` says what becomes of one of them.

Two facts about the code as it is are proved, not repaired:

- `#cancel` accepts a task that has an open question, and `task.cancelled` leaves the question open, so the
  check after the event throws when the event is already persisted. This is the only decision whose events cannot
  be applied (`Progress.DecisionApplies`), it is one question away from every running task
  (`Cancellation.EveryRunningTaskIsOneQuestionFromTheGap`), and the log can never be replayed afterwards
  (`Cancellation.ThrownCancelPoisonsTheLog`). A daemon that goes on without a restart is no better off: memory keeps
  the open question of a cancelled task, so from then on every call that decides an event throws
  (`Aftermath.NothingWorksAfterTheThrow`). Closing the open questions together with the cancellation removes the
  exception (`Cancellation.SupersedingFirstRepairsCancel`).
- Public commands are parsed before they are decided, internal signals are not. A signal with an empty text, an unnamed
  tool, a malformed fingerprint or a completion that cites an evidence id twice passes its decision whenever its task
  is at work, but its event does not satisfy its schema, so the transaction rolls back and the call throws with nothing
  stored. `Throws.ReachableCommandThrowsExactlyWhen` gives the exact condition for a throw;
  `Throws.RepeatedCitationThrows` and `Throws.EmptyTextThrows` show it from every reachable state with a running task.

**Evidence** (`artifact-store.ts`, `fact-projector.ts`). The completion gate is characterised independently of the
order of its checks, completions stay justified, and gate and projector are compared. They differ in one state: a
projected "failed" verification says only that the newest one failed, and the gate may still accept
(`Evidence.FailedProjectionMayStillPassTheGate`).

**Synchronisation** (`apps/vscode/src/realtime-client.ts`, `packages/core/src/ipc-server.ts`). Server, channel and
client take steps in any order, with connections lost at any moment. A reply is computed in one step and sent in
another, with anything in between. Handling a command and pushing its events is one step, because nothing runs in
between in the daemon's event loop.

**Workspace guard** (`workspace-guard.ts`). User, editor and agent write to a disk; the proofs compare what the guard
believes with a record of who wrote what. Two facts about the code as it is are proved, not repaired:

- What the user writes inside a tool's window and no open document shows when the window ends is credited to the
  tool, and a later edit is allowed over it. `Workspace.WindowIsSafeExactlyWhen` says exactly when the next call is
  allowed over it, and `Workspace.ClosedDocumentEscapes` is a run in which it is. An allowed call finds a file it may
  write untouched exactly when no such change to it was lost (`Workspace.AllowedToolIsSafeExactlyWhen`).
- A turn of another backend is not stopped by a user's change that the guard has recorded: it may begin once the disk
  is what the guard last saw, and ending a tool makes it so. `Workspace.RecordedChangeDoesNotStopTurn` is a run in
  which a turn begins over a change made in plain sight before any window, and `Workspace.TurnIsSafeExactlyWhen` is
  the exact condition: nothing lost, and whatever is recorded holds its trusted content all the same.

**Effect preimage** (`policy.ts`). The canonical text is shown to determine the value up to key order, the sign of zero
and infinities, which are written like null, with strings read back by section 7 of RFC 8259 and numbers from section 6.
A parsed input can contain an infinity, as the number `1e400` is read, and its text does not tell it from null
(`CanonicalJson.InfinityReadsAsNull`); `CanonicalJson.TextIsUnambiguousExactlyWhen` says for which inputs a text stands
for one value only.

**Wake gesture** (`KeyActivation.swift`). The machine's verdicts are explained by the inputs that led to them.

## Model

| member | source | states |
|---|---|---|
| Progress.DecisionApplies | packages/core/src/controller.ts:493-843 | in every settled state, the events of every decision apply one by one without any guard or check throwing, at every intermediate state too, and lead to a settled state again, if and only if the signal does not cancel a task with an open question |
| Progress.DecisionIsGood | packages/core/src/controller.ts:514-843 | every decision but that cancellation is a chain of legal events ending in a settled state |
| Progress.CancelWithOpenQuestionThrows | packages/core/src/controller.ts:692-716 | the cancellation of a task with an open question is decided, and its first event throws in the check |
| Progress.DecisionIsWellFormed | packages/core/src/event-store.ts:90-107 | every decided event satisfies its schema, except when an internal signal with an empty text, an unnamed tool, a malformed fingerprint or a repeated evidence id comes while its task is at work in the way it expects |
| Invariants.LegalKeeps | packages/core/src/domain.ts:164-460 | every legal event passes its guard and keeps the inductive invariant |
| Invariants.InvImpliesChecks | packages/core/src/domain.ts:480-524 | the inductive invariant implies everything the code checks after an event |
| Invariants.LegalAllApplies | packages/core/src/domain.ts:462-466 | a chain of legal events applies without a throw and keeps the invariant |
| Invariants.EventSpares | packages/core/src/domain.ts:164-460 | an event leaves every other task's record, runs, approvals and place in the queue alone |
| Invariants.AtMostOneOpen | packages/core/src/domain.ts:510-519 | no task has two open questions, and one with an open question is waiting for the user |
| Domain.ApplyAllConcat | packages/core/src/domain.ts:462-466 | replaying a log in two parts is replaying it whole, including where it throws |
| Domain.IndexOf | packages/core/src/domain.ts:159-162 | the first position of an element, or the length when there is none |
| QueueOrder.InsertThenRemove | packages/core/src/controller.ts:718-743 | what is spliced in at a position and taken out again leaves the list as it was |
| Decisions.FirstFast | packages/core/src/controller.ts:514-548 | the place of a new non-fast task: nothing before it is fast, and what stands there is |
| Decisions.FindConfirmation | packages/core/src/controller.ts:212-230 | finds a confirmation for exactly this task, revision, effect and state whenever there is one |
| Controller.RunsAreOk | packages/core/src/controller.ts:48-80 | over every run, memory is the replay of the log, the sequence number is its length, the invariant holds, and every completion in the log is justified by the evidence stored now |
| Controller.CommandKeeps | packages/core/src/controller.ts:64-80 | a new command that does not throw keeps all of that |
| Controller.ExactlyOnce | packages/core/src/event-store.ts:68-133 | over every run: however long after it was recorded, a command sent again under its id gets the first result and changes neither log nor memory nor evidence, whatever it now says; the two signals refused before the command table is consulted are excepted |
| Controller.FirstAnswerLasts | packages/core/src/event-store.ts:68-133 | the result recorded is the one returned: over every run, a command answered once gets that answer ever after |
| Controller.RestartRestoresMemory | packages/core/src/controller.ts:48-62 | a controller opened over the store of any reachable system has exactly its memory |
| Controller.CommandThrowsExactlyWhen | packages/core/src/controller.ts:64-80 | in every state that keeps the run invariant, a new command throws exactly when it cancels a task with an open question, or is such a malformed signal to a task at work; in the second case nothing is stored |
| Controller.AppendedLog | packages/core/src/domain.ts:462-466 | replaying the extended log is folding the new events into memory |
| Answers.StaleCommandConflicts | packages/core/src/controller.ts:865-875 | in every reachable state, a new command of the six that carry a revision is answered with a conflict at the current revision exactly when its own is another, leaving log, memory and evidence alone; what is accepted was at the current revision |
| Answers.AnswerIsExact | packages/core/src/controller.ts:493-875 | in every reachable state, the answer to a new signal follows from the records alone, both ways: accepted, conflict, confirmation required, and each of the seventeen refusal codes, of which never two fit |
| Answers.AcceptedExactlyWhen | packages/core/src/controller.ts:493-857 | in every reachable state, a new signal of the seventeen is accepted exactly when the records permit it, and the acceptance names its task |
| Answers.RefusalIsTruthful | packages/core/src/controller.ts:493-857 | in every reachable state, the code of a refusal says what about the records does not permit the signal, and the records stay as they are |
| Answers.CallAnswered | packages/core/src/controller.ts:193-333 | for a running task: with a standing grant of exactly this effect the call is accepted and the grant used up; without one an automatic call is accepted, a forbidden one refused, and any other waits with its request pending; the policy decision logged and the whole new memory in each case |
| Answers.AcceptedIsLogged | packages/core/src/controller.ts:493-857 | in every reachable state, an accepted signal adds exactly its own events to the log, with what it carries and what the records say, and its result to the command table |
| Journal.RecordsAreTheLog | packages/core/src/domain.ts:164-460 | in every reachable state, every task, run and question record is, field by field, what the events of the log last wrote or all wrote in order, there are no others, and the slot belongs to the last task started or resumed that has not ended |
| Journal.ReplayedSlotIsExclusive | packages/core/src/domain.ts:164-460 | of any log that can be replayed, whoever wrote it: a task is started or resumed only into a free slot or its own, and in a run no earlier event has begun |
| SlotTheorems.SlotDiscipline | packages/core/src/controller.ts:514-857 | in every reachable state an empty slot means an empty queue, the queue holds exactly the queued tasks, the active task is the only one running, pausing, paused or waiting, and a running run is the active task's active run |
| SlotTheorems.RunningTaskIsClear | packages/core/src/controller.ts:113-153 | a running task has no workspace conflict, no open question and no approval pending at its revision |
| SlotTheorems.WaitingTaskHasExactlyOneWayOn | packages/core/src/controller.ts:595-690 | a task waiting for the user accepts exactly one of answer, approval verdict and resume at its revision; with a conflict it is resume |
| SlotTheorems.AnswerMeans | packages/core/src/controller.ts:647-690 | some answer is accepted exactly when the waiting task has an open question |
| SlotTheorems.ApprovalMeans | packages/core/src/controller.ts:745-791 | both verdicts on some approval are accepted exactly when one is pending at the task's revision |
| SlotTheorems.ResumeMeans | packages/core/src/controller.ts:595-645 | a paused or waiting task accepts resume exactly when no question is open and no approval is pending at its revision |
| SlotTheorems.PausedTaskResumes | packages/core/src/controller.ts:595-645 | a paused task always accepts resume at its revision |
| SlotTheorems.ReviseThenResume | packages/core/src/controller.ts:569-645 | revising a paused or waiting task and resuming it at the new revision always succeeds, whatever it waited for |
| SlotTheorems.RevisionClears | packages/core/src/domain.ts:321-340 | a revision closes the open question and leaves every approval behind at the old revision |
| Outcomes.FinishOutcome | packages/core/src/controller.ts:793-857 | an accepted completion is justified; completion and failure end exactly the active task and start the head of the queue at its revision in a new run |
| Outcomes.CancelOutcome | packages/core/src/controller.ts:692-716 | cancelling the active task hands the slot over in the same way; cancelling a queued one only takes it out of the queue |
| Outcomes.AnswerOutcome | packages/core/src/controller.ts:647-690 | answering closes that question and starts a new run; nothing else changes |
| Outcomes.ApprovalOutcome | packages/core/src/controller.ts:745-791 | an approval starts a new run, a refusal pauses the task, and only that confirmation gets the verdict |
| Frame.SignalIsFrugal | packages/core/src/controller.ts:493-857 | every signal answered in a reachable state changes at most the named task and, when that finishes in the slot, the head of the queue; it stops at most the last run of the named task and starts at most one, which is new; it touches at most one question and one confirmation; the slot only passes from a finished task to the head of the queue, or to a submission when empty |
| Frame.BackToWork | packages/core/src/controller.ts:595-791 | whatever signal takes a paused or waiting task back to work is resume, an answer or an approval of that task, and it runs again in a new run at its revision with its conflict cleared, slot and queue kept and nobody else touched |
| Frame.SetAside | packages/core/src/controller.ts:82-153 | whatever signal takes a task out of work without ending it, the task keeps the slot, its run is set aside, nobody else is touched, and exactly one of answer, verdict and resume is accepted next, resume when it is paused |
| Frame.EndOfTask | packages/core/src/controller.ts:692-857 | whatever signal ends the task in the slot, the head of the queue starts at its revision in a new run, the rest of the queue stays in order, and nobody else is touched |
| Frame.DecisionWithin | packages/core/src/controller.ts:493-857 | no record outside the scope of a signal is added, removed or changed, and no stopped run runs again |
| TaskHistory.HistoryIsExact | packages/core/src/controller.ts:569-593 | a task's history is exactly its revisions 1 to n, its repository is that of its spec, run revisions never decrease, and an active run is the last and carries the current revision |
| TaskHistory.StepEvolves | packages/core/src/domain.ts:208-233 | no step loses a task, changes its repository, rewrites its history or runs, lowers its revision or revives it |
| TaskHistory.RunEvolves | packages/core/src/domain.ts:321-393 | the same over any continuation of a run |
| QueueOrder.RunsStayOrdered | packages/core/src/controller.ts:514-548 | in every run without queue.move, non-fast queued tasks stand before fast ones and each class stands in order of submission |
| QueueOrder.StartedFromTheFront | packages/core/src/controller.ts:845-857 | no fast task starts while a non-fast one waits, and within its class the oldest starts |
| QueueOrder.MoveMeaning | packages/core/src/controller.ts:718-743 | queue.move permutes the queue, keeps the relative order of all others, puts the task first, last or next to its anchor, and is refused exactly for an unsuitable anchor |
| QueueOrder.SubmitKeepsOrder | packages/core/src/controller.ts:514-548 | a submission goes to the place that keeps the order |
| Approvals.LifecyclesAreExact | packages/core/src/domain.ts:420-451 | over every run the log of a confirmation is request, at most one verdict, and after a grant at most one use |
| Approvals.EveryUseHasItsOwnGrant | packages/core/src/controller.ts:212-329 | every use in the log follows the one request and the one grant of the same confirmation for the same task, revision and effect, and no other event uses or grants it |
| Approvals.UsesNeverExceedGrants | packages/core/src/controller.ts:212-329 | per task, revision and effect, approvals used never outnumber approvals the user granted |
| Approvals.AcceptedCallConsumes | packages/core/src/controller.ts:212-261 | an accepted call of the approval tier under a new id appends exactly one use, of a grant the user gave earlier for exactly this task, revision and effect, and which no other use in the log has |
| Approvals.AtMostOneLive | packages/core/src/controller.ts:276-329 | at most one confirmation per task, revision and effect is pending or approved |
| Approvals.PendingBranchIsUnreachable | packages/core/src/controller.ts:276-290 | a running task never meets the branch that finds a confirmation already pending; a call that needs one asks anew |
| Recovery.RestartAndRecover | packages/core/src/controller.ts:428-483 | after restart and recovery no run is running, queue, slot, specs, revisions, questions and approvals are unchanged, nothing started, and the interrupted task accepts resume |
| Recovery.RecoveryStaysRejected | packages/core/src/controller.ts:428-483 | after a recovery and any continuation in which no task was started or resumed, recovering again under any id is rejected |
| Cancellation.EveryRunningTaskIsOneQuestionFromTheGap | packages/core/src/controller.ts:692-716 | from every reachable state with a running task, one question leads to a reachable state in which its cancellation throws |
| Throws.ReachableCommandThrowsExactlyWhen | packages/core/src/controller.ts:64-80 | from every reachable state a new command throws exactly when it cancels a task with an open question or is an internal signal that meets no schema and finds its task at work as it expects; in the second case nothing is stored, and a command that returns leads to a reachable state |
| Throws.RepeatedCitationThrows | packages/core/src/artifact-store.ts:309-345 | from every reachable state with a running task: after one recorded success, citing it once completes the task and citing it twice throws with nothing stored |
| Throws.EmptyTextThrows | packages/core/src/event-store.ts:90-107 | from every reachable state with a running task, an empty question, failure, session id or artifact summary throws with nothing stored |
| Throws.FingerprintsAre | packages/protocol/src/index.ts:12-14 | a fingerprint is sixty-four of the sixteen lower-case hexadecimal digits |
| Throws.CallThrowsExactlyWhen | packages/core/src/controller.ts:193-333 | in every reachable state, a call of a running task throws with nothing stored exactly when its fingerprint is not of that form or one of its three texts is empty |
| Cancellation.GapIsReachable | packages/core/src/controller.ts:692-716 | such a state is reached from the empty system |
| Cancellation.ThrownCancelPoisonsTheLog | packages/core/src/controller.ts:66-80 | after the throw the event and the accepted result are stored, and neither the log nor any extension of it replays |
| Aftermath.NothingWorksAfterTheThrow | packages/core/src/domain.ts:462-519 | once such a cancellation has thrown, and whatever calls follow, thrown or returned, a call that returns stores nothing in the log and changes nothing in memory, so every call that decides an event throws; no restart helps |
| Aftermath.CancelWedges | packages/core/src/domain.ts:371-387 | the throw leaves the cancelled task with its question open in memory, and with a task in the queue the log is one event ahead of memory |
| Cancellation.SupersedingFirstRepairsCancel | packages/core/src/domain.ts:371-387 | with the task's open questions closed first, the same decision always applies and settles |
| Runtime.ControllerState.RemoveFromQueue | packages/core/src/domain.ts:159-162 | removes the first occurrence from the queue in place |
| Runtime.ControllerState.SupersedeQuestions | packages/core/src/domain.ts:321-340 | closes exactly the task's open questions, walking over all of them |
| Runtime.ControllerState.Switch | packages/core/src/domain.ts:169-456 | the in-place event switch has the effect the proofs reason about, and writes nothing when a guard throws |
| Runtime.ControllerState.AssertStateInvariants | packages/core/src/domain.ts:480-524 | the record-by-record check finds exactly the states that satisfy every check |
| Runtime.ControllerState.ApplyEvent | packages/core/src/domain.ts:164-460 | one event: sequence number, switch, check; a throw leaves the state as it is at that moment |
| Runtime.EventStore.ExecuteCommand | packages/core/src/event-store.ts:68-133 | one transaction: the stored result for a known id, otherwise all rows and the result, or nothing at all when a row does not parse |
| Runtime.EventStore.ReadAfter | packages/core/src/event-store.ts:135-163 | exactly the rows numbered above the argument, in order |
| Runtime.TaskController.Load | packages/core/src/controller.ts:48-62 | opening a controller replays the whole log, and throws exactly when the replay does |
| Runtime.TaskController.MoveQueue | packages/core/src/controller.ts:718-743 | splicing a copy of the queue decides what the queue theorems are about |
| Runtime.TaskController.HandleSignal | packages/core/src/controller.ts:64-80 | decide, persist, fold: the in-place controller takes the step the run theorems are about |
| Evidence.GateMeaning | packages/core/src/artifact-store.ts:309-345 | the gate accepts exactly when every cited id exists, all cited evidence is of that task and run, some of it succeeded, and a successful verification follows the last cited successful change; its two other answers say for every input which half is met |
| Evidence.JustifiedForever | packages/core/src/artifact-store.ts:309-345 | a completion justified once stays justified while the table grows |
| Evidence.GateAgreesWithProjector | packages/core/src/fact-projector.ts:65-97 | on a single-run task with all its evidence cited: passed is accepted, pending is refused, not required is accepted exactly when something succeeded, failed is accepted exactly when an older verification after the last change succeeded |
| Evidence.FailedProjectionMayStillPassTheGate | packages/core/src/fact-projector.ts:65-97 | three rows on which the projection says failed and the gate accepts |
| Evidence.ProjectionMeaning | packages/core/src/fact-projector.ts:65-97 | what the projected states that are compared with the gate say about the evidence as a set |
| Evidence.VerificationMeaning | packages/core/src/fact-projector.ts:65-97 | what the projected verification state says: no change, none verified since, or the newest verification since the last change succeeded or failed |
| Evidence.PhaseMeaning | packages/core/src/fact-projector.ts:65-145 | what the projected phase says about the task's state and, while it runs, about its evidence as a set, and what the implementation state says |
| Evidence.ArtifactStore.RecordToolEvidence | packages/core/src/artifact-store.ts:209-277 | appends one row with the next ordinal: the attributed files each once, or the declared ones of a writing tool; a file change when there are any, a verification when there are none and a shell command verifies, a tool result otherwise |
| Evidence.CompletionWasTested | packages/core/src/artifact-store.ts:209-345 | with every row recorded by a tool, an accepted completion that cites a successful change cites, later than every such change, a successful shell command that verifies and changed nothing |
| Evidence.ArtifactStore.GetEvidence | packages/core/src/artifact-store.ts:279-307 | the loop fetches the row of every known id, in the order of the ids |
| Evidence.FetchedIsCited | packages/core/src/artifact-store.ts:279-307 | what is fetched is exactly what is cited, and its number tells whether an id is unknown |
| VoiceRevision.SpecIsTheFoldOfAccepted | packages/core/src/voice-toolkit.ts:1049-1108 | under any interleaving every task's spec is the submitted one with exactly the accepted proposals applied in order of acceptance |
| VoiceRevision.NoLostUpdate | packages/core/src/voice-toolkit.ts:1049-1108 | the spec contains every constraint and criterion of every earlier revision and every accepted proposal |
| VoiceRevision.AcceptedRevisionIsCurrent | packages/core/src/controller.ts:569-593 | a revision is accepted only onto the spec of that very moment, however old the snapshot it was computed from |
| VoiceRevision.SignalKeepsSpecs | packages/core/src/controller.ts:493-843 | no signal but a revision changes the spec or revision of an existing task |
| VoiceRevision.RevisionDoes | packages/core/src/controller.ts:865-875 | an accepted revision names the current revision and gives exactly that task the new spec under the next one |
| VoiceRevision.ProposalMeans | packages/core/src/voice-toolkit.ts:1080-1100 | a proposal adds exactly its change, its constraints and its outcome to what the spec asks for, each constraint listed once in the order of first naming, and changes nothing else of the spec |
| VoiceRevision.WaitForTaskState | packages/core/src/voice-toolkit.ts:1110-1120 | polling stops at the first snapshot in which the task is paused, finished or gone, and times out exactly when there is none |
| Proposals.IdleProposalGoesThrough | packages/core/src/voice-toolkit.ts:1049-1108 | in every run, a change proposed to a paused or waiting task and not interrupted ends accepted after two commands, whatever the task waited for: it runs again under the next revision with the proposed spec, and no other task is touched |
| Proposals.RunningProposalGoesThrough | packages/core/src/voice-toolkit.ts:1056-1120 | a change proposed to a running task asks it to pause, waits, and ends accepted in the same way once the coder stops at a safe boundary |
| Proposals.LookAnswers | packages/core/src/voice-toolkit.ts:1049-1120 | what the call makes of a snapshot for every state of its task: refused at once when unknown, queued or finished, waiting while it is about to pause, revising when paused or, before any wait, when waiting for the user, gone when the task disappears |
| Proposals.ReplyIsEarned | packages/core/src/voice-toolkit.ts:1087-1108 | over every run, a call that replies with an acceptance had its change accepted into the task, and every accepted change of a task was proposed for it by a call |
| StreamSync.ClientHasExactlyTheLog | apps/vscode/src/realtime-client.ts:327-354 | over every run of server, channel and client, replies computed before they are sent, the last snapshot followed by the events delivered since is the server's log up to the last sequence number, the reply is never behind the request, and a connected client with no event on its way has the whole log |
| StreamSync.LimitDoesNotMatter | apps/vscode/src/realtime-client.ts:453-472 | two clients with different dedupe limits go through the same run with the same deliveries, sequence numbers and phases |
| StreamSync.EventIsRemembered | apps/vscode/src/realtime-client.ts:453-472 | an event not seen before is remembered last, at the cost of the oldest one exactly when the cache is full |
| StreamSync.SyncKeepsCache | apps/vscode/src/realtime-client.ts:327-354 | a resynchronisation keeps the cache unless it starts afresh, after which the cache holds only what has just been caught up on |
| StreamSync.CacheStaysBounded | apps/vscode/src/realtime-client.ts:453-472 | over every run the cache is bounded by its limit and holds no event twice |
| StreamSync.DeliveriesOnlyGrow | apps/vscode/src/realtime-client.ts:327-462 | no step takes a delivery back; a snapshot only replaces deliveries it covers |
| StreamSync.ResumeKeeps | apps/vscode/src/realtime-client.ts:327-354 | taking the reply never throws, and yields the snapshot plus exactly what has arrived beyond it |
| StreamSync.RepliesAreExact | packages/core/src/ipc-server.ts:481-501 | over every run, a reply computed, on its way or received names a snapshot not behind the client and carries exactly the rows in between |
| StreamSync.DeliverKeeps | apps/vscode/src/realtime-client.ts:373-413 | a pushed event advances a connected client by at most that event, without a gap |
| StreamSync.StretchStep | apps/vscode/src/realtime-client.ts:453-462 | applying a stretch of the log that leaves no gap advances the client exactly to its end, whatever the cache holds |
| StreamSync.RunIsOk | packages/core/src/ipc-server.ts:340-349 | every run keeps the invariant of log, channel, buffer, cache and view |
| StreamSync.Bridge.RememberEventId | apps/vscode/src/realtime-client.ts:464-472 | most recent last, the oldest dropped one by one beyond the limit |
| StreamSync.Bridge.ApplyDomainEvent | apps/vscode/src/realtime-client.ts:453-462 | the in-place update is the one the synchronisation theorems are about |
| StreamSync.Bridge.FinishSynchronize | apps/vscode/src/realtime-client.ts:327-354 | snapshot, replay, buffer: the loops have the effect of the step, and nothing changes when it throws |
| StreamSync.Bridge.HandleMessage | apps/vscode/src/realtime-client.ts:373-413 | buffers while synchronising, applies while connected, ignores otherwise |
| StreamSync.Bridge.SocketOpened | apps/vscode/src/realtime-client.ts:290-297 | starts a synchronisation from the last sequence number with an empty buffer |
| StreamSync.Bridge.SocketClosed | apps/vscode/src/realtime-client.ts:305-314 | drops buffer and reply and keeps what was delivered |
| StreamSync.Server.Emit | packages/core/src/ipc-server.ts:220-223 | one message appended to every client and nothing else |
| StreamSync.Server.Publish | packages/core/src/ipc-server.ts:749-761 | every client gets exactly the rows after the given number, in order, and then the snapshot unless there are none |
| StreamSync.Server.Execute | packages/core/src/ipc-server.ts:325-349 | handle, then publish: every client gets exactly the new rows and the snapshot |
| StreamSync.Server.Dispatch | packages/core/src/ipc-server.ts:481-501 | the reply carries the newest number, exactly the rows after the requested one, and a reset exactly when the client is ahead; nothing is sent yet |
| StreamSync.Server.Respond | packages/core/src/ipc-server.ts:468-469 | the reply goes to the client that asked, behind whatever was pushed meanwhile |
| StreamSync.Server.Connect | packages/core/src/ipc-server.ts:186-199 | a new client is one more receiver of everything emitted, greeted with the snapshot |
| StreamSync.Server.Disconnect | packages/core/src/ipc-server.ts:204-206 | a closed client receives nothing more, the others keep what they have |
| Workspace.AllowedToolIsSafeExactlyWhen | packages/core/src/workspace-guard.ts:133-184 | over every run, an allowed call of an editing tool, an applied refactoring or a mutating shell command finds a file it may write untouched exactly when no change of the user's to it was lost in a window; nobody is editing the file, what is replaced as a whole or by the shell had no earlier uncommitted change, and nothing is lost while user edits show in their editors |
| Workspace.HarmlessCallPasses | packages/core/src/workspace-guard.ts:133-184 | a call of none of these kinds is only held up by a conflict still pending |
| Workspace.UserChangeBlocks | packages/core/src/workspace-guard.ts:133-184 | an editing tool, an applied refactoring or a mutating shell command that may write a file the user changed or is editing is refused, naming the file, unless the change was lost in a window and nothing visible has happened to the file since |
| Workspace.CreditIsExact | packages/core/src/workspace-guard.ts:264-298 | what is credited to a tool is exactly what was changed in its window except documents edited meanwhile; when user edits show, it is all the agent's and nothing the user wrote |
| Workspace.WindowIsSafeExactlyWhen | packages/core/src/workspace-guard.ts:264-298 | over every run, when a window ends over a change of the user's, a mutating call that may write the file is allowed exactly when no document was edited meanwhile and none of the files it may write is being edited, was recorded before and left alone in the window, or was uncommitted from before; and then the change is lost |
| Workspace.WindowReportsExactly | packages/core/src/workspace-guard.ts:264-298 | over every run, what the end of a window reports is exactly the documents it was about that the editors show at another version than at its beginning, or did not show then; they count as the user's, and every call and turn is refused from then on |
| Workspace.ClosedDocumentEscapes | packages/core/src/workspace-guard.ts:264-298 | a run in which a document edited, saved and closed inside a window is credited to the tool, and the next edit is allowed over the user's content |
| Workspace.TurnAllowedExactlyWhen | packages/core/src/workspace-guard.ts:185-222 | an external turn may begin exactly when nothing is pending, the disk is what the guard knows and no document is dirty |
| Workspace.TurnIsSafeExactlyWhen | packages/core/src/workspace-guard.ts:185-222 | over every run, a turn that may begin finds every file untouched exactly when nothing was lost and every path recorded as the user's holds its trusted content |
| Workspace.RecordedChangeDoesNotStopTurn | packages/core/src/workspace-guard.ts:185-222 | a run in which the guard has recorded a user's change and a turn of another backend is allowed all the same |
| Workspace.RunIsOk | packages/core/src/workspace-guard.ts:86-298 | every proper run keeps the invariant between what the guard knows and who wrote what |
| Workspace.GuardRemembers | packages/core/src/workspace-guard.ts:97-131 | over every run, the guard knows each document as the editors last reported it for the repository, and what was uncommitted when the work began |
| Workspace.StepRecords | packages/core/src/workspace-guard.ts:97-298 | what every step makes of the known disk, of each path's standing as changed by the user, and of a pending conflict, from the disk, the editors and the window that ends |
| Workspace.FinishForgets | packages/core/src/workspace-guard.ts:252-262 | finishing forgets everything but what editors reported and a conflict that is still pending |
| Workspace.EditingIsRecorded | packages/core/src/workspace-guard.ts:115-131 | a report of unsaved edits, or that they have just been saved, counts as a change of the user's |
| Workspace.WorkspaceGuard.Begin | packages/core/src/workspace-guard.ts:97-113 | starting restores the editors of that repository and forgets everything else |
| Workspace.WorkspaceGuard.EditorState | packages/core/src/workspace-guard.ts:115-131 | an editor report is kept for its workspace, and counts as an external change when dirty or just saved |
| Workspace.WorkspaceGuard.Before | packages/core/src/workspace-guard.ts:133-184 | the in-place decision, with what it records, is the one the theorems are about |
| Workspace.WorkspaceGuard.BeginExternalTurn | packages/core/src/workspace-guard.ts:185-222 | likewise for a turn of another backend |
| Workspace.WorkspaceGuard.After | packages/core/src/workspace-guard.ts:231-298 | likewise for the attribution after a tool, whose result stays pending |
| Workspace.WorkspaceGuard.EndExternalTurn | packages/core/src/workspace-guard.ts:224-229 | reports the first mutation recorded under the id, which for a fresh id is exactly what was credited |
| Workspace.WorkspaceGuard.Accept | packages/core/src/workspace-guard.ts:237-246 | reconciling accepts every outstanding and new change and trusts the disk |
| Workspace.WorkspaceGuard.End | packages/core/src/workspace-guard.ts:252-262 | finishing forgets everything |
| CanonicalJson.SameTextExactlyWhenEquivalent | packages/core/src/policy.ts:39-47 | two JSON values have the same canonical text exactly when they are equal up to the order of keys, the sign of zero, and infinities counting as null |
| CanonicalJson.FiniteSameTextExactlyWhenSame | packages/core/src/policy.ts:39-47 | for values without infinities: exactly when they are equal up to the order of keys and the sign of zero |
| CanonicalJson.InfinityReadsAsNull | packages/core/src/policy.ts:40 | two different values, an infinity and null, with the same canonical text |
| CanonicalJson.TextIsUnambiguousExactlyWhen | packages/core/src/policy.ts:39-47 | a text stands for one value only exactly when that value contains neither null nor an infinity |
| CanonicalJson.CanonIsJson | packages/core/src/policy.ts:39-47 | every canonical text is a JSON text of its value by RFC 8259, without white space and with members in the order of their keys |
| CanonicalJson.PreimageDeterminesBoth | packages/core/src/policy.ts:49-51 | the hashed bytes determine the input up to what its text determines, and the tool name, zero units included, up to lone surrogates |
| CanonicalJson.LoneSurrogatesShareAPreimage | packages/core/src/policy.ts:49-51 | two different tool names, each a surrogate alone, have the same preimage |
| CanonicalJson.ReadsUtf8 | packages/core/src/policy.ts:49-51 | the UTF-8 bytes of a string give it back with lone surrogates replaced |
| CanonicalJson.ValuesApart | packages/core/src/policy.ts:39-47 | a value can be read off the front of a text in only one way |
| CanonicalJson.ReadsEscaped | packages/core/src/policy.ts:40 | reading a written string by section 7 of RFC 8259 gives it back, lone surrogates and control characters included |
| CanonicalJson.EscapesAreShortest | packages/core/src/policy.ts:40 | no text that reads as a unit is shorter than the one written, surrogates aside, and hexadecimal digits are in lower case |
| CanonicalJson.CanonIsClean | packages/core/src/policy.ts:39-47 | the canonical text is well-formed UTF-16 without NUL |
| CanonicalJson.SortedKeys | packages/core/src/policy.ts:43-44 | sorting distinct keys by code unit gives the same keys strictly increasing |
| CanonicalJson.LessIsLexicographic | packages/core/src/policy.ts:43-44 | keys compare by the first code unit that differs, a prefix first |
| CanonicalJson.IncreasingIsUnique | packages/core/src/policy.ts:43-44 | a set of keys has one strictly increasing enumeration |
| CanonicalJson.NumbersApart | packages/core/src/policy.ts:40 | a number of section 6 of RFC 8259 ends where the text leaves its alphabet |
| Gesture.PushToTalkAlternates | apps/macos/Sources/Mamachi/KeyActivation.swift:105-201 | over every input sequence begin and end strictly alternate, a begin first, and the machine is listening exactly in between |
| Gesture.VerdictsAreExact | apps/macos/Sources/Mamachi/KeyActivation.swift:105-201 | for every input sequence and every place in it, each of the four verdicts is answered there if and only if the inputs call for it: the second tap in the window, the first timer after the threshold, the release of a push-to-talk press, the clean release of a press made while engaged |
| Gesture.PoisonedPressIsSilent | apps/macos/Sources/Mamachi/KeyActivation.swift:163-178 | once another key goes down during a press, nothing is answered up to and including the release |
| Gesture.DoubleTapWakes | apps/macos/Sources/Mamachi/KeyActivation.swift:105-161 | from rest, a tap shorter than the hold threshold and a second press inside the window always wake, whatever timers fire in between |
| Gesture.DeadlineMatchesPhase | apps/macos/Sources/Mamachi/KeyActivation.swift:71-201 | the pending deadline is always the one the phase calls for |
| Gesture.TimerSettles | apps/macos/Sources/Mamachi/KeyActivation.swift:180-201 | a timer that calls back at the pending deadline always settles the phase |
| Gesture.KeyDownUnfolds | apps/macos/Sources/Mamachi/KeyActivation.swift:105-132 | the recursion of a press is at most one level deep |
| Gesture.ActivationGestureMachine.PressKey | apps/macos/Sources/Mamachi/KeyActivation.swift:105-132 | the in-place press, recursion included, is the step the theorems are about |
| Gesture.ActivationGestureMachine.ReleaseKey | apps/macos/Sources/Mamachi/KeyActivation.swift:134-161 | likewise for the release |
| Gesture.ActivationGestureMachine.PressOtherKey | apps/macos/Sources/Mamachi/KeyActivation.swift:163-178 | likewise for any other key |
| Gesture.ActivationGestureMachine.ElapseDeadline | apps/macos/Sources/Mamachi/KeyActivation.swift:180-201 | likewise for the timer |

## Left out

- Event ids, actors, timestamps and the texts of public commands: no decision looks at them, and a command with an empty text does not parse. `pendingQuestion` and the event id inside an accepted result are among them.
- SQLite, encryption at rest, migrations and key files: transactions are atomic, rows are numbered without gaps, and `createId` hands out fresh ids.
- Parsing of public commands and of ids: a command that does not parse throws before anything happens, so the commands of the model are those that do, and ids are well-formed. The specs they bring meet their schema and are not checked again.
- The risk patterns of `assessToolCall` and the verification patterns: the verdict is part of the signal, so the statements hold for every assessor that keeps the name of the tool.
- Decisions.FindConfirmation: picks the least id where the code takes the first in insertion order; at most one matches in a reachable state.
- SHA-256: two different preimages are taken to have different fingerprints.
- CanonicalJson.SameTextExactlyWhenEquivalent: a finite number is the text JavaScript prints for it; how that text follows from the bits is not modelled.
- Trimming and sorting of conflict paths; paths are compared as given.
- The reset of a client whose server database was replaced: the synchronisation theorems are about one append-only log, in which a reset never happens.
- Events persisted by a cancellation that throws are never pushed; the synchronisation theorems are about commands that do not throw.
- Request timeouts, reconnect delays and status callbacks of the client: a timeout is one of the ways a connection is lost.
- Git, file scanning and hashing in the guard: a scan is one atomic read; the paths and the shell pattern found in a tool's input are part of the call.
- Workspace.AllowedToolIsSafeExactlyWhen: assumes that tool windows do not overlap.
- Gesture.TimerSettles: times are reals; with floating-point timestamps the sum of press time and threshold may round below the threshold.
- The gaps between the commands of a `propose_task_change` call are arbitrary; `packages/core/src/voice-toolkit.ts` apart from that call and its wait is not modelled.
- Voice bridges, audio, computer control, coding processes, the user interface, settings, diagnostics and transcripts.

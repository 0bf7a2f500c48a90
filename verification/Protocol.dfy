/** Typed commands, internal signals, events and results of the task controller
    (packages/protocol/src/index.ts). Timestamps, actors and event ids are left out, and so are the
    texts of public commands, which are checked when a command is parsed, before it gets here. The
    texts of internal signals are only checked when the event that carries them is stored. */
module Protocol {
  datatype Option<+T> = None | Some(value: T)

  /** Ids are only compared for equality; naturals keep concrete runs readable. */
  type Id = nat

  datatype TaskSpec = TaskSpec(
    repositoryId: string,
    objective: string,
    acceptanceCriteria: seq<string>,
    constraints: seq<string>,
    attachmentIds: seq<Id>,
    codingProfileId: Option<string>)

  const FAST_PROFILE := Some("fast")

  datatype Event =
    | TaskCreated(taskId: Id, spec: TaskSpec, revision: nat)
    | TaskEnqueued(taskId: Id, position: nat)
    | TaskStarted(taskId: Id, runId: Id, revision: nat)
    | TaskResumed(taskId: Id, runId: Id, revision: nat)
    | PauseRequested(taskId: Id)
    | TaskPaused(taskId: Id, runId: Id, reason: string)
    | AwaitingUser(taskId: Id, runId: Id)
    | QuestionAsked(taskId: Id, questionId: Id, runId: Id, revision: nat, question: string)
    | QuestionAnswered(taskId: Id, questionId: Id, runId: Id, revision: nat)
    | SessionBound(taskId: Id, sessionId: string, runId: Id, sessionFile: Option<string>)
    | RecoveryBoundary(taskId: Id, sessionId: string, runId: Id)
    | SpecRevised(taskId: Id, previousRevision: nat, revision: nat, spec: TaskSpec)
    | TaskCompleted(taskId: Id, runId: Id, evidenceIds: seq<Id>, summary: string)
    | TaskFailed(taskId: Id, runId: Id, error: string)
    | TaskCancelled(taskId: Id)
    | RunInterrupted(taskId: Id, runId: Id)
    | PolicyDecisionRecorded(taskId: Id, decision: PolicyDecision, fingerprint: string, labels: Labels)
    | ArtifactCreated(taskId: Id, artifactId: Id, runId: Id, summary: string)
    | ConflictDetected(taskId: Id, runId: Id, paths: set<string>, reason: string)
    | ConflictResolved(taskId: Id, paths: set<string>)
    | ApprovalRequested(taskId: Id, confirmationId: Id, revision: nat, fingerprint: string)
    | ApprovalResolved(taskId: Id, confirmationId: Id, revision: nat, approve: bool)
    | ApprovalConsumed(taskId: Id, confirmationId: Id, revision: nat, fingerprint: string)
    | QueueReordered(taskId: Id, taskIds: seq<Id>)

  /** What the assessor says about a tool call. The approval request and the waiting event that may follow
      a policy decision in the same transaction carry the same texts; they are left out there. */
  datatype Labels = Labels(category: string, summary: string, toolName: string)

  datatype PolicyDecision = Automatic | ConfirmationNeeded | Rejection

  predicate NoDuplicates<T(==)>(s: seq<T>) {
    forall i, j :: 0 <= i < j < |s| ==> s[i] != s[j]
  }

  predicate LowerHex(c: char) { '0' <= c <= '9' || 'a' <= c <= 'f' }

  /** Sixty-four hexadecimal digits. */
  predicate IsFingerprint(f: string) {
    |f| == 64 && forall i :: 0 <= i < |f| ==> LowerHex(f[i])
  }

  predicate Labelled(labels: Labels) {
    labels.category != "" && labels.summary != "" && labels.toolName != ""
  }

  /** The payload constraints of the event schemas: positive revisions, unique lists, texts that are not
      empty. A spec meets its schema because the command that brought it was parsed. */
  predicate WellFormed(e: Event) {
    match e
    case TaskCreated(_, _, revision) => revision >= 1
    case TaskStarted(_, _, revision) => revision >= 1
    case TaskResumed(_, _, revision) => revision >= 1
    case TaskPaused(_, _, reason) => reason != ""
    case QuestionAsked(_, _, _, revision, question) => revision >= 1 && question != ""
    case QuestionAnswered(_, _, _, revision) => revision >= 1
    case SpecRevised(_, previous, revision, _) => previous >= 1 && revision >= 2
    case SessionBound(_, sessionId, _, sessionFile) => sessionId != "" && sessionFile != Some("")
    case RecoveryBoundary(_, sessionId, _) => sessionId != ""
    case TaskCompleted(_, _, evidenceIds, summary) => NoDuplicates(evidenceIds) && summary != ""
    case TaskFailed(_, _, error) => error != ""
    case PolicyDecisionRecorded(_, _, fingerprint, labels) => IsFingerprint(fingerprint) && Labelled(labels)
    case ArtifactCreated(_, _, _, summary) => summary != ""
    case ConflictDetected(_, _, paths, reason) => paths != {} && reason != ""
    case ConflictResolved(_, paths) => paths != {}
    case ApprovalRequested(_, _, revision, _) => revision >= 1
    case ApprovalResolved(_, _, revision, _) => revision >= 1
    case ApprovalConsumed(_, _, revision, _) => revision >= 1
    case QueueReordered(_, taskIds) => NoDuplicates(taskIds)
    case _ => true
  }

  datatype QueueOperation = MoveFirst | MoveLast | MoveBefore | MoveAfter
  datatype PolicyTier = AutomaticTier | VisualApprovalTier | RejectTier

  /** Commands of the public protocol, then the daemon's internal signals.
      `Authorize` carries the assessor's verdict, so every statement about it holds
      for every assessor that keeps the name of the tool. */
  datatype Signal =
    | Submit(spec: TaskSpec)
    | RequestPause(taskId: Id, expectedRevision: nat)
    | Revise(taskId: Id, expectedRevision: nat, spec: TaskSpec)
    | Resume(taskId: Id, expectedRevision: nat)
    | AnswerQuestion(taskId: Id, expectedRevision: nat, questionId: Id)
    | Cancel(taskId: Id, expectedRevision: nat)
    | MoveQueue(taskId: Id, operation: QueueOperation, anchor: Option<Id>)
    | ResolveApproval(confirmationId: Id, expectedRevision: nat, approve: bool)
    | SafeBoundary(taskId: Id, reason: string)
    | AskQuestion(taskId: Id, question: string)
    | BindSession(taskId: Id, runId: Id, sessionId: string, sessionFile: Option<string>)
    | Authorize(taskId: Id, tier: PolicyTier, fingerprint: string, labels: Labels)
    | RecordArtifact(taskId: Id, artifactId: Id, runId: Id, summary: string)
    | ReportConflict(taskId: Id, paths: seq<string>, reason: string)
    | Complete(taskId: Id, summary: string, evidenceIds: seq<Id>)
    | Fail(taskId: Id, error: string)
    | Recover

  datatype RejectCode =
    | TaskNotFound | InvalidState | QuestionPending | ConfirmationPending | RepositoryImmutable
    | QuestionNotFound | StaleQuestion | TerminalTask | NotQueued | InvalidAnchor
    | ConfirmationNotFound | StaleConfirmation | StaleRun | PolicyViolation | InvalidConflict
    | VerificationIncomplete | NothingToRecover

  datatype ActionResult =
    | Accepted(taskId: Id)
    | ConfirmationRequired(confirmationId: Id)
    | Conflict(currentRevision: nat)
    | Rejected(code: RejectCode)

  datatype Decision = Decision(result: ActionResult, events: seq<Event>)
}

/** The decisions of `TaskController` (packages/core/src/controller.ts): each reads the state
    and answers a signal with a result and the events to persist. */
module Decisions {
  import opened Protocol
  import opened Domain
  import opened Evidence

  /** The ids `createId` hands out during one decision. */
  datatype FreshIds = FreshIds(task: Id, run: Id, confirmation: Id)

  function Reject(code: RejectCode): Decision {
    Decision(Rejected(code), [])
  }

  function Accept(taskId: Id, events: seq<Event>): Decision {
    Decision(Accepted(taskId), events)
  }

  predicate IsFast(s: State, t: Id) {
    t in s.tasks && s.tasks[t].spec.codingProfileId == FAST_PROFILE
  }

  /** Position of the first fast task, or the length of the queue. */
  function FirstFast(s: State, queue: seq<Id>): (p: nat)
    ensures p <= |queue|
    ensures forall i :: 0 <= i < p ==> !IsFast(s, queue[i])
    ensures p < |queue| ==> IsFast(s, queue[p])
  {
    if queue == [] || IsFast(s, queue[0]) then 0 else 1 + FirstFast(s, queue[1..])
  }

  predicate HasOpenQuestion(s: State, t: Id) {
    OpenQuestions(s.questions, t) != {}
  }

  predicate Matches(c: Confirmation, t: Id, revision: nat, fingerprint: string, st: ConfirmationState) {
    c.taskId == t && c.taskRevision == revision && c.fingerprint == fingerprint && c.state == st
  }

  predicate HasPending(s: State, t: Id, revision: nat) {
    exists c :: c in s.confirmations && s.confirmations[c].taskId == t
                && s.confirmations[c].taskRevision == revision && s.confirmations[c].state == Pending
  }

  ghost predicate IsLeast(ids: set<Id>, c: Id) {
    c in ids && forall d :: d in ids ==> c <= d
  }

  lemma {:induction false} LeastExists(ids: set<Id>) returns (c: Id)
    requires ids != {}
    ensures IsLeast(ids, c)
  {
    c :| c in ids;
    var rest := ids - {c};
    if rest != {} {
      var least := LeastExists(rest);
      assert forall d :: d in ids ==> d == c || d in rest;
      if least < c { c := least; }
    } else {
      assert forall d :: d in ids ==> d == c || d in rest;
    }
  }

  /** The source takes the first match in insertion order. At most one confirmation matches
      in a reachable state (`Invariants.ConfirmationsOk`), so the choice is immaterial. */
  function FindConfirmation(s: State, t: Id, revision: nat, fingerprint: string, st: ConfirmationState): (r: Option<Id>)
    ensures r.Some? ==> r.value in s.confirmations && Matches(s.confirmations[r.value], t, revision, fingerprint, st)
    ensures r.None? ==>
              forall c :: c in s.confirmations ==> !Matches(s.confirmations[c], t, revision, fingerprint, st)
  {
    var found := set c | c in s.confirmations && Matches(s.confirmations[c], t, revision, fingerprint, st);
    if found == {} then
      assert forall c :: c in s.confirmations && Matches(s.confirmations[c], t, revision, fingerprint, st) ==>
               c in found;
      None
    else
      assert exists c :: c in found && forall d :: d in found ==> c <= d by {
        var least := LeastExists(found);
      }
      var c :| c in found && forall d :: d in found ==> c <= d;
      Some(c)
  }

  /** Starts the head of the queue, if there is one. */
  function StartNext(s: State, ids: FreshIds): seq<Event> {
    if s.queue == [] || s.queue[0] !in s.tasks then []
    else [TaskStarted(s.queue[0], ids.run, s.tasks[s.queue[0]].revision)]
  }

  predicate Resumable(s: State, t: Id)
    requires t in s.tasks
  {
    (s.tasks[t].state == Paused || s.tasks[t].state == Awaiting) && s.active == Some(t)
  }

  function DecideSubmit(s: State, ids: FreshIds, spec: TaskSpec): Decision {
    var position := if spec.codingProfileId == FAST_PROFILE then |s.queue| else FirstFast(s, s.queue);
    Accept(ids.task,
           [TaskCreated(ids.task, spec, 1), TaskEnqueued(ids.task, position)]
           + if s.active == None then [TaskStarted(ids.task, ids.run, 1)] else [])
  }

  function DecideRevise(s: State, t: Id, spec: TaskSpec): Decision
    requires t in s.tasks
  {
    var task := s.tasks[t];
    if !Resumable(s, t) then Reject(InvalidState)
    else if spec.repositoryId != task.repositoryId then Reject(RepositoryImmutable)
    else Accept(t, [SpecRevised(t, task.revision, task.revision + 1, spec)])
  }

  function DecideResume(s: State, ids: FreshIds, t: Id): Decision
    requires t in s.tasks
  {
    var task := s.tasks[t];
    if !Resumable(s, t) then Reject(InvalidState)
    else if HasOpenQuestion(s, t) then Reject(QuestionPending)
    else if HasPending(s, t, task.revision) then Reject(ConfirmationPending)
    else Accept(t, (if task.workspaceConflict.Some? then [ConflictResolved(t, task.workspaceConflict.value)] else [])
                   + [TaskResumed(t, ids.run, task.revision)])
  }

  function DecideAnswer(s: State, ids: FreshIds, t: Id, q: Id): Decision
    requires t in s.tasks
  {
    if q !in s.questions || s.questions[q].taskId != t then Reject(QuestionNotFound)
    else
      var question := s.questions[q];
      if question.state != Open || question.taskRevision != s.tasks[t].revision
         || s.tasks[t].state != Awaiting || s.active != Some(t) then Reject(StaleQuestion)
      else Accept(t, [QuestionAnswered(t, q, question.runId, question.taskRevision),
                      TaskResumed(t, ids.run, s.tasks[t].revision)])
  }

  function DecideCancel(s: State, ids: FreshIds, t: Id): Decision
    requires t in s.tasks
  {
    if Terminal(s.tasks[t].state) then Reject(TerminalTask)
    else Accept(t, [TaskCancelled(t)] + if s.active == Some(t) then StartNext(s, ids) else [])
  }

  /** The reordered queue, or None when the anchor is not acceptable. */
  function MovedQueue(queue: seq<Id>, t: Id, operation: QueueOperation, anchor: Option<Id>): Option<seq<Id>> {
    var rest := Without(queue, t);
    if operation == MoveFirst then if anchor.Some? then None else Some([t] + rest)
    else if operation == MoveLast then if anchor.Some? then None else Some(rest + [t])
    else if anchor.None? || anchor.value == t || anchor.value !in rest then None
    else
      var i := IndexOf(rest, anchor.value);
      Some(InsertAt(rest, if operation == MoveBefore then i else i + 1, t))
  }

  function DecideMove(s: State, t: Id, operation: QueueOperation, anchor: Option<Id>): Decision {
    if t !in s.tasks || s.tasks[t].state != Queued || t !in s.queue then Reject(NotQueued)
    else
      var moved := MovedQueue(s.queue, t, operation, anchor);
      if moved.None? then Reject(InvalidAnchor) else Accept(t, [QueueReordered(t, moved.value)])
  }

  const REFUSED_BY_USER := "User rejected the requested effect"
  const NEEDS_RESUME := "recovery requires explicit resume"

  function DecideResolve(s: State, ids: FreshIds, c: Id, expectedRevision: nat, approve: bool): Decision {
    if c !in s.confirmations then Reject(ConfirmationNotFound)
    else
      var confirmation := s.confirmations[c];
      var t := confirmation.taskId;
      if t !in s.tasks then Reject(TaskNotFound)
      else if s.tasks[t].revision != expectedRevision then Decision(Conflict(s.tasks[t].revision), [])
      else
        var task := s.tasks[t];
        var resolved := ApprovalResolved(t, c, task.revision, approve);
        if confirmation.taskRevision != task.revision || confirmation.state != Pending then Reject(StaleConfirmation)
        else if task.state != Awaiting || s.active != Some(t) then Reject(InvalidState)
        else if approve then Accept(t, [resolved, TaskResumed(t, ids.run, task.revision)])
        else if task.runIds == [] then Reject(InvalidState)
        else Accept(t, [resolved, TaskPaused(t, task.runIds[|task.runIds| - 1], REFUSED_BY_USER)])
  }

  function DecideAuthorize(s: State, ids: FreshIds, t: Id, tier: PolicyTier, fingerprint: string,
                           labels: Labels): Decision
    requires t in s.tasks
  {
    var task := s.tasks[t];
    if s.active != Some(t) || task.state != Running || task.activeRunId.None? then Reject(InvalidState)
    else
      var run := task.activeRunId.value;
      var approved := FindConfirmation(s, t, task.revision, fingerprint, Approved);
      if approved.Some? then
        Accept(t, [PolicyDecisionRecorded(t, Automatic, fingerprint, labels),
                   ApprovalConsumed(t, approved.value, task.revision, fingerprint)])
      else match tier
        case AutomaticTier => Accept(t, [PolicyDecisionRecorded(t, Automatic, fingerprint, labels)])
        case RejectTier =>
          Decision(Rejected(PolicyViolation), [PolicyDecisionRecorded(t, Rejection, fingerprint, labels)])
        case VisualApprovalTier =>
          var pending := FindConfirmation(s, t, task.revision, fingerprint, Pending);
          if pending.Some? then Decision(ConfirmationRequired(pending.value), [])
          else Decision(ConfirmationRequired(ids.confirmation),
                        [PolicyDecisionRecorded(t, ConfirmationNeeded, fingerprint, labels),
                         ApprovalRequested(t, ids.confirmation, task.revision, fingerprint),
                         AwaitingUser(t, run)])
  }

  function ConflictPaths(paths: seq<string>): set<string> {
    set p | p in paths && p != ""
  }

  function DecideConflict(s: State, t: Id, paths: set<string>, reason: string): Decision
    requires t in s.tasks
  {
    var task := s.tasks[t];
    if s.active != Some(t) || task.activeRunId.None? || task.state != Running then Reject(StaleRun)
    else
      var run := task.activeRunId.value;
      Accept(t, [ConflictDetected(t, run, paths, reason), AwaitingUser(t, run)])
  }

  function DecideFinish(s: State, rows: seq<Artifact>, ids: FreshIds, t: Id, completed: bool,
                        detail: string, evidenceIds: seq<Id>): Decision
    requires t in s.tasks
  {
    var task := s.tasks[t];
    if s.active != Some(t) || task.activeRunId.None? || !Executing(task.state) then Reject(InvalidState)
    else
      var run := task.activeRunId.value;
      if completed && !ValidateCompletion(rows, t, run, evidenceIds).valid then Reject(VerificationIncomplete)
      else Accept(t, [if completed then TaskCompleted(t, run, evidenceIds, detail) else TaskFailed(t, run, detail)]
                     + StartNext(s, ids))
  }

  function DecideRecover(s: State): Decision {
    if s.active == None || s.active.value !in s.tasks then Reject(NothingToRecover)
    else
      var t := s.active.value;
      var task := s.tasks[t];
      if !Executing(task.state) || task.activeRunId.None? then Reject(NothingToRecover)
      else
        var run := task.activeRunId.value;
        Accept(t, [RunInterrupted(t, run)]
                  + (if task.session.Some? then [RecoveryBoundary(t, task.session.value.id, run)] else [])
                  + [TaskPaused(t, run, NEEDS_RESUME)])
  }

  /** The commands that name an expected revision compare it before anything else. */
  function ExpectedRevision(sig: Signal): Option<nat> {
    match sig
    case RequestPause(_, r) => Some(r)
    case Revise(_, r, _) => Some(r)
    case Resume(_, r) => Some(r)
    case AnswerQuestion(_, r, _) => Some(r)
    case Cancel(_, r) => Some(r)
    case _ => None
  }

  predicate NamesTask(sig: Signal) {
    !sig.Submit? && !sig.Recover? && !sig.ResolveApproval?
  }

  /** `id` is the id of the command or signal; a question takes it as its own id. */
  function Decide(s: State, rows: seq<Artifact>, id: Id, ids: FreshIds, sig: Signal): Decision {
    if NamesTask(sig) && !sig.MoveQueue? && sig.taskId !in s.tasks then Reject(TaskNotFound)
    else if ExpectedRevision(sig).Some? && s.tasks[sig.taskId].revision != ExpectedRevision(sig).value then
      Decision(Conflict(s.tasks[sig.taskId].revision), [])
    else match sig
      case Submit(spec) => DecideSubmit(s, ids, spec)
      case RequestPause(t, _) =>
        if s.active != Some(t) || s.tasks[t].state != Running then Reject(InvalidState)
        else Accept(t, [PauseRequested(t)])
      case Revise(t, _, spec) => DecideRevise(s, t, spec)
      case Resume(t, _) => DecideResume(s, ids, t)
      case AnswerQuestion(t, _, q) => DecideAnswer(s, ids, t, q)
      case Cancel(t, _) => DecideCancel(s, ids, t)
      case MoveQueue(t, operation, anchor) => DecideMove(s, t, operation, anchor)
      case ResolveApproval(c, revision, approve) => DecideResolve(s, ids, c, revision, approve)
      case SafeBoundary(t, reason) =>
        if s.tasks[t].state != PauseWanted || s.tasks[t].activeRunId.None? then Reject(InvalidState)
        else Accept(t, [TaskPaused(t, s.tasks[t].activeRunId.value, reason)])
      case AskQuestion(t, question) =>
        if s.active != Some(t) || s.tasks[t].state != Running || s.tasks[t].activeRunId.None? then Reject(InvalidState)
        else if HasOpenQuestion(s, t) then Reject(QuestionPending)
        else Accept(t, [QuestionAsked(t, id, s.tasks[t].activeRunId.value, s.tasks[t].revision, question)])
      case BindSession(t, r, session, file) =>
        if s.active != Some(t) || s.tasks[t].activeRunId != Some(r) then Reject(StaleRun)
        else Accept(t, [SessionBound(t, session, r, file)])
      case Authorize(t, tier, fingerprint, labels) => DecideAuthorize(s, ids, t, tier, fingerprint, labels)
      case RecordArtifact(t, artifact, r, summary) =>
        if s.active != Some(t) || s.tasks[t].activeRunId != Some(r) then Reject(StaleRun)
        else Accept(t, [ArtifactCreated(t, artifact, r, summary)])
      case ReportConflict(t, paths, reason) => DecideConflict(s, t, ConflictPaths(paths), reason)
      case Complete(t, summary, evidenceIds) => DecideFinish(s, rows, ids, t, true, summary, evidenceIds)
      case Fail(t, error) => DecideFinish(s, rows, ids, t, false, error, [])
      case Recover => DecideRecover(s)
  }

  /** Which events a signal can lead to. */
  predicate MayDecide(sig: Signal, e: Event) {
    match sig
    case Submit(_) => e.TaskCreated? || e.TaskEnqueued? || e.TaskStarted?
    case RequestPause(_, _) => e.PauseRequested?
    case Revise(_, _, _) => e.SpecRevised?
    case Resume(_, _) => e.ConflictResolved? || e.TaskResumed?
    case AnswerQuestion(_, _, _) => e.QuestionAnswered? || e.TaskResumed?
    case Cancel(_, _) => e.TaskCancelled? || e.TaskStarted?
    case MoveQueue(_, _, _) => e.QueueReordered?
    case ResolveApproval(_, _, approve) => e.ApprovalResolved? || (if approve then e.TaskResumed? else e.TaskPaused?)
    case SafeBoundary(_, _) => e.TaskPaused?
    case AskQuestion(_, _) => e.QuestionAsked?
    case BindSession(_, _, _, _) => e.SessionBound?
    case Authorize(_, _, _, _) =>
      e.PolicyDecisionRecorded? || e.ApprovalConsumed? || e.ApprovalRequested? || e.AwaitingUser?
    case RecordArtifact(_, _, _, _) => e.ArtifactCreated?
    case ReportConflict(_, _, _) => e.ConflictDetected? || e.AwaitingUser?
    case Complete(_, _, _) => e.TaskCompleted? || e.TaskStarted?
    case Fail(_, _) => e.TaskFailed? || e.TaskStarted?
    case Recover => e.RunInterrupted? || e.RecoveryBoundary? || e.TaskPaused?
  }

  ghost predicate AllMay(sig: Signal, events: seq<Event>) {
    forall e :: e in events ==> MayDecide(sig, e)
  }

  lemma TaskKinds(s: State, ids: FreshIds, t: Id)
    requires t in s.tasks
    ensures forall spec, r :: AllMay(Revise(t, r, spec), DecideRevise(s, t, spec).events)
    ensures forall r :: AllMay(Resume(t, r), DecideResume(s, ids, t).events)
    ensures forall q, r :: AllMay(AnswerQuestion(t, r, q), DecideAnswer(s, ids, t, q).events)
    ensures forall r :: AllMay(Cancel(t, r), DecideCancel(s, ids, t).events)
  {
    hide HasOpenQuestion, HasPending;
  }

  lemma WorkKinds(s: State, rows: seq<Artifact>, ids: FreshIds, t: Id)
    requires t in s.tasks
    ensures forall tier, f, labels ::
              AllMay(Authorize(t, tier, f, labels), DecideAuthorize(s, ids, t, tier, f, labels).events)
    ensures forall paths: seq<string>, reason ::
              AllMay(ReportConflict(t, paths, reason), DecideConflict(s, t, ConflictPaths(paths), reason).events)
    ensures forall text, es :: AllMay(Complete(t, text, es), DecideFinish(s, rows, ids, t, true, text, es).events)
    ensures forall text :: AllMay(Fail(t, text), DecideFinish(s, rows, ids, t, false, text, []).events)
  {
    hide FindConfirmation, ConflictPaths, ValidateCompletion;
  }

  lemma OtherKinds(s: State, ids: FreshIds)
    ensures forall spec :: AllMay(Submit(spec), DecideSubmit(s, ids, spec).events)
    ensures forall t, op, anchor :: AllMay(MoveQueue(t, op, anchor), DecideMove(s, t, op, anchor).events)
    ensures forall c, r, approve :: AllMay(ResolveApproval(c, r, approve), DecideResolve(s, ids, c, r, approve).events)
    ensures AllMay(Recover, DecideRecover(s).events)
  {
    hide FirstFast, MovedQueue;
  }

  /** Every decided event is of a kind its signal can lead to. */
  lemma DecidedKinds(s: State, rows: seq<Artifact>, id: Id, ids: FreshIds, sig: Signal)
    ensures AllMay(sig, Decide(s, rows, id, ids, sig).events)
  {
    hide DecideSubmit, DecideRevise, DecideResume, DecideAnswer, DecideCancel, DecideMove, DecideResolve;
    hide DecideAuthorize, DecideConflict, DecideFinish, DecideRecover, HasOpenQuestion, ConflictPaths;
    OtherKinds(s, ids);
    if NamesTask(sig) && sig.taskId in s.tasks {
      TaskKinds(s, ids, sig.taskId);
      WorkKinds(s, rows, ids, sig.taskId);
    }
  }

  /** Two signals are refused before the command table is consulted, and are not recorded. */
  predicate RefusedUnrecorded(s: State, sig: Signal) {
    || (sig.Authorize? && sig.taskId !in s.tasks)
    || (sig.ReportConflict? && ConflictPaths(sig.paths) == {})
  }

  function UnrecordedRefusal(sig: Signal): ActionResult {
    if sig.Authorize? then Rejected(TaskNotFound) else Rejected(InvalidConflict)
  }
}

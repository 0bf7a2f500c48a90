/** What the controller answers to a signal in a reachable state, and why: when it accepts, when it
    reports a revision conflict, and what each refusal means. The statements speak of the records, not of
    the decisions. */
module Answers {
  import opened Protocol
  import opened Domain
  import opened Evidence
  import opened Decisions
  import opened Invariants
  import opened Progress
  import opened Controller
  import opened Outcomes

  // --------------------------------------------------------------------- stale commands

  predicate CarriesRevision(sig: Signal) {
    sig.RequestPause? || sig.Revise? || sig.Resume? || sig.AnswerQuestion? || sig.Cancel? || sig.ResolveApproval?
  }

  /** The existing task a signal is about; for a verdict, that of the confirmation. */
  predicate About(s: State, sig: Signal, t: Id) {
    && t in s.tasks && !sig.Submit? && !sig.Recover?
    && if sig.ResolveApproval? then sig.confirmationId in s.confirmations
                                    && s.confirmations[sig.confirmationId].taskId == t
       else sig.taskId == t
  }

  /** A new command at another revision than the task's is answered with the current one and leaves log,
      memory and evidence alone; nothing else is answered so, and what is accepted was at the current
      revision. */
  lemma StaleCommandConflicts(sys: Sys, id: Id, ids: FreshIds, sig: Signal, t: Id)
    requires Reachable(sys) && Fresh(sys.mem, ids) && id !in sys.store.commands
    requires CarriesRevision(sig) && About(sys.mem, sig, t)
    ensures var out, current := Handle(sys, id, ids, sig), sys.mem.tasks[t].revision;
            && (sig.expectedRevision != current ==>
                  && out.Returned? && out.result == Conflict(current)
                  && out.sys.store == Store(sys.store.log, sys.store.commands[id := Conflict(current)])
                  && out.sys.mem == sys.mem && out.sys.rows == sys.rows)
            && (out.Returned? && out.result.Conflict? ==> sig.expectedRevision != current)
            && (out.Returned? && out.result.Accepted? ==> sig.expectedRevision == current)
  {
    hide Reachable, Fresh, Decide, RefusedUnrecorded, ApplyAll;
    if sig.expectedRevision != sys.mem.tasks[t].revision {
      StaleDecision(sys.mem, sys.rows, id, ids, sig, t);
      NothingToFold(sys, Handle(sys, id, ids, sig).sys.mem);
    } else {
      CurrentDecision(sys.mem, sys.rows, id, ids, sig, t);
    }
  }

  lemma StaleDecision(s: State, rows: seq<Artifact>, id: Id, ids: FreshIds, sig: Signal, t: Id)
    requires CarriesRevision(sig) && About(s, sig, t) && sig.expectedRevision != s.tasks[t].revision
    ensures Decide(s, rows, id, ids, sig) == Decision(Conflict(s.tasks[t].revision), [])
    ensures !RefusedUnrecorded(s, sig)
  {
  }

  lemma CurrentDecision(s: State, rows: seq<Artifact>, id: Id, ids: FreshIds, sig: Signal, t: Id)
    requires CarriesRevision(sig) && About(s, sig, t) && sig.expectedRevision == s.tasks[t].revision
    ensures !Decide(s, rows, id, ids, sig).result.Conflict?
  {
    hide HasOpenQuestion, HasPending, StartNext;
  }

  lemma NothingToFold(sys: Sys, mem: State)
    ensures ApplyAll(sys.mem, |sys.store.log| + 1, []) == Ok(sys.mem)
  {
  }

  // ------------------------------------------------------------------- what is accepted

  ghost predicate Asking(s: State, t: Id) {
    exists q :: q in s.questions && s.questions[q].taskId == t && s.questions[q].state == Open
  }

  /** The user's verdict on confirmation `c` is awaited at the revision of task `t`. */
  ghost predicate VerdictAwaited(s: State, t: Id, c: Id)
    requires t in s.tasks
  {
    && c in s.confirmations && s.confirmations[c].taskId == t
    && s.confirmations[c].taskRevision == s.tasks[t].revision && s.confirmations[c].state == Pending
  }

  /** The user has granted exactly this effect at the revision of task `t`, and it is not used yet. */
  ghost predicate GrantStands(s: State, t: Id, c: Id, fingerprint: string)
    requires t in s.tasks
  {
    && c in s.confirmations && s.confirmations[c].taskId == t
    && s.confirmations[c].taskRevision == s.tasks[t].revision
    && s.confirmations[c].fingerprint == fingerprint && s.confirmations[c].state == Approved
  }

  predicate AnchorFits(s: State, t: Id, operation: QueueOperation, anchor: Option<Id>) {
    match operation
    case MoveFirst => anchor.None?
    case MoveLast => anchor.None?
    case MoveBefore => anchor.Some? && anchor.value != t && anchor.value in s.queue
    case MoveAfter => anchor.Some? && anchor.value != t && anchor.value in s.queue
  }

  ghost predicate Idling(s: State, t: Id, revision: nat) {
    t in s.tasks && s.tasks[t].revision == revision && s.tasks[t].state in {Paused, Awaiting}
  }

  /** When a signal is accepted, from the records alone. */
  ghost predicate Permitted(s: State, rows: seq<Artifact>, sig: Signal) {
    match sig
    case Submit(_) => true
    case RequestPause(t, r) => t in s.tasks && s.tasks[t].revision == r && s.tasks[t].state == Running
    case Revise(t, r, spec) => Idling(s, t, r) && spec.repositoryId == s.tasks[t].repositoryId
    case Resume(t, r) => Idling(s, t, r) && !Asking(s, t) && !exists c :: VerdictAwaited(s, t, c)
    case AnswerQuestion(t, r, q) =>
      && t in s.tasks && s.tasks[t].revision == r
      && q in s.questions && s.questions[q].taskId == t && s.questions[q].state == Open
    case Cancel(t, r) =>
      t in s.tasks && s.tasks[t].revision == r && s.tasks[t].state !in {Completed, Failed, Cancelled}
    case MoveQueue(t, operation, anchor) => t in s.queue && AnchorFits(s, t, operation, anchor)
    case ResolveApproval(c, r, _) =>
      && c in s.confirmations
      && var t := s.confirmations[c].taskId;
         t in s.tasks && s.tasks[t].revision == r && VerdictAwaited(s, t, c) && s.tasks[t].state == Awaiting
    case SafeBoundary(t, _) => t in s.tasks && s.tasks[t].state == PauseWanted
    case AskQuestion(t, _) => t in s.tasks && s.tasks[t].state == Running
    case BindSession(t, r, _, _) => t in s.tasks && s.tasks[t].activeRunId == Some(r)
    case Authorize(t, tier, fingerprint, _) =>
      && t in s.tasks && s.tasks[t].state == Running
      && (tier == AutomaticTier || exists c :: GrantStands(s, t, c, fingerprint))
    case RecordArtifact(t, _, r, _) => t in s.tasks && s.tasks[t].activeRunId == Some(r)
    case ReportConflict(t, paths, _) =>
      t in s.tasks && s.tasks[t].state == Running && NamesPath(paths)
    case Complete(t, _, evidenceIds) =>
      && t in s.tasks && s.tasks[t].state in {Running, PauseWanted} && s.tasks[t].activeRunId.Some?
      && Justified(rows, t, s.tasks[t].activeRunId.value, evidenceIds)
    case Fail(t, _) => t in s.tasks && s.tasks[t].state in {Running, PauseWanted}
    case Recover => exists t :: t in s.tasks && s.tasks[t].state in {Running, PauseWanted}
  }

  /** The task that an acceptance names. */
  function AcceptedTask(s: State, ids: FreshIds, sig: Signal): Option<Id> {
    match sig
    case Submit(_) => Some(ids.task)
    case Recover => s.active
    case ResolveApproval(c, _, _) => if c in s.confirmations then Some(s.confirmations[c].taskId) else None
    case _ => Some(sig.taskId)
  }

  ghost predicate Accepts(d: Decision, s: State, ids: FreshIds, sig: Signal) {
    d.result.Accepted? && AcceptedTask(s, ids, sig) == Some(d.result.taskId)
  }

  lemma AskingMeans(s: State, t: Id)
    requires Inv(s)
    ensures Asking(s, t) <==> HasOpenQuestion(s, t)
    ensures Asking(s, t) <==> !NoOpen(s, t)
  {
    NoOpenMeaning(s, t);
    hide Inv;
    if Asking(s, t) {
      var q :| q in s.questions && s.questions[q].taskId == t && s.questions[q].state == Open;
      assert q in OpenQuestions(s.questions, t);
    }
    if q :| q in OpenQuestions(s.questions, t) { assert s.questions[q].state == Open; }
  }

  lemma VerdictMeans(s: State, t: Id)
    requires t in s.tasks
    ensures (exists c :: VerdictAwaited(s, t, c)) <==> HasPending(s, t, s.tasks[t].revision)
  {
    if HasPending(s, t, s.tasks[t].revision) {
      var c :| c in s.confirmations && s.confirmations[c].taskId == t
               && s.confirmations[c].taskRevision == s.tasks[t].revision && s.confirmations[c].state == Pending;
      assert VerdictAwaited(s, t, c);
    }
  }

  /** Where a task stands follows from its state. */
  lemma StateMeans(s: State, t: Id)
    requires Ready(s) && t in s.tasks
    ensures s.tasks[t].activeRunId.Some? <==> s.tasks[t].state in {Running, PauseWanted}
    ensures s.tasks[t].state in {Running, PauseWanted, Paused, Awaiting} ==>
              s.active == Some(t) && s.tasks[t].runIds != []
    ensures s.tasks[t].state == Queued <==> t in s.queue
    ensures s.tasks[t].state == Running ==> !Asking(s, t) && !exists c :: VerdictAwaited(s, t, c)
  {
    hide Inv, Settled, HasOpenQuestion, HasPending, NoOpen, NoPending, RunListOk, HistoryOk, ActiveRunOk, Asking;
    TaskFacts(s, t);
    QueueFacts(s, t);
    QueuedWaits(s, t);
    AskingMeans(s, t);
    VerdictMeans(s, t);
    NoOpenMeaning(s, t);
    OpenFacts(s, t);
    if s.tasks[t].state == Running { RunningIsClear(s, t); }
  }

  lemma QueuedWaits(s: State, t: Id)
    requires Settled(s) && t in s.tasks
    ensures s.tasks[t].state == Queued ==> t in s.queue
  {
    assert CalmTask(s, t);
  }

  lemma OpenQuestionIs(s: State, q: Id)
    requires Inv(s) && q in s.questions && s.questions[q].state == Open
    ensures var t := s.questions[q].taskId;
            t in s.tasks && s.tasks[t].state == Awaiting && s.questions[q].taskRevision == s.tasks[t].revision
  {
    hide TasksOk, RunsOk, ConfirmationsOk, QueueChecks, SlotChecks;
    assert IsOpen(s, q);
  }

  /** The commands about one task. */
  lemma CommandAcceptedWhen(s: State, rows: seq<Artifact>, id: Id, ids: FreshIds, sig: Signal)
    requires Ready(s)
    requires sig.RequestPause? || sig.Revise? || sig.Resume? || sig.AnswerQuestion? || sig.Cancel?
    ensures var d := Decide(s, rows, id, ids, sig);
            (d.result.Accepted? <==> Permitted(s, rows, sig)) && (d.result.Accepted? ==> Accepts(d, s, ids, sig))
  {
    hide Inv, Settled, HasOpenQuestion, HasPending, StartNext, VerdictAwaited;
    var t := sig.taskId;
    if t in s.tasks {
      StateMeans(s, t);
      AskingMeans(s, t);
      VerdictMeans(s, t);
    }
    if sig.AnswerQuestion? && sig.questionId in s.questions && s.questions[sig.questionId].state == Open {
      OpenQuestionIs(s, sig.questionId);
    }
  }

  lemma MoveAcceptedWhen(s: State, rows: seq<Artifact>, id: Id, ids: FreshIds, sig: Signal)
    requires Ready(s) && sig.MoveQueue?
    ensures var d := Decide(s, rows, id, ids, sig);
            (d.result.Accepted? <==> Permitted(s, rows, sig)) && (d.result.Accepted? ==> Accepts(d, s, ids, sig))
  {
    hide Inv, Settled, InsertAt, IndexOf, Without;
    var t := sig.taskId;
    QueueFacts(s, t);
    if sig.anchor.Some? && sig.anchor.value != t && t in s.queue { RestIs(s.queue, t, sig.anchor.value); }
  }

  lemma RestIs(queue: seq<Id>, t: Id, u: Id)
    requires NoDuplicates(queue) && t in queue && u != t
    ensures u in Without(queue, t) <==> u in queue
  {
    hide NoDuplicates;
    assert u in multiset(queue) <==> u in multiset(queue) - multiset{t};
    assert u in Without(queue, t) <==> u in multiset(Without(queue, t));
  }

  lemma VerdictAcceptedWhen(s: State, rows: seq<Artifact>, id: Id, ids: FreshIds, sig: Signal)
    requires Ready(s) && (sig.ResolveApproval? || sig.Submit? || sig.Recover?)
    ensures var d := Decide(s, rows, id, ids, sig);
            (d.result.Accepted? <==> Permitted(s, rows, sig)) && (d.result.Accepted? ==> Accepts(d, s, ids, sig))
  {
    hide Inv, Settled, FirstFast;
    QueueFacts(s, 0);
    if sig.ResolveApproval? && sig.confirmationId in s.confirmations {
      var t := s.confirmations[sig.confirmationId].taskId;
      if t in s.tasks { StateMeans(s, t); }
    }
    if sig.Recover? {
      if s.active.Some? && s.active.value in s.tasks { StateMeans(s, s.active.value); }
      if t :| t in s.tasks && s.tasks[t].state in {Running, PauseWanted} { StateMeans(s, t); }
    }
  }

  /** The signals of the coder. */
  lemma SignalAcceptedWhen(s: State, rows: seq<Artifact>, id: Id, ids: FreshIds, sig: Signal)
    requires Ready(s) && ValidTable(rows) && !RefusedUnrecorded(s, sig)
    requires sig.SafeBoundary? || sig.AskQuestion? || sig.BindSession? || sig.RecordArtifact? || sig.ReportConflict?
             || sig.Complete? || sig.Fail?
    ensures var d := Decide(s, rows, id, ids, sig);
            (d.result.Accepted? <==> Permitted(s, rows, sig)) && (d.result.Accepted? ==> Accepts(d, s, ids, sig))
  {
    hide Inv, Settled, HasOpenQuestion, HasPending, StartNext, VerdictAwaited, Asking, Justified, ValidTable;
    hide ValidateCompletion;
    var t := sig.taskId;
    if t in s.tasks {
      StateMeans(s, t);
      AskingMeans(s, t);
      if sig.Complete? && s.tasks[t].activeRunId.Some? {
        GateMeaning(rows, t, s.tasks[t].activeRunId.value, sig.evidenceIds);
      }
    }
    if sig.ReportConflict? { PathsOf(sig.paths); }
  }

  lemma PathsOf(paths: seq<string>)
    ensures ConflictPaths(paths) != {} <==> NamesPath(paths)
  {
    if p :| p in paths && p != "" { assert p in ConflictPaths(paths); }
    if p :| p in ConflictPaths(paths) { assert p in paths && p != ""; }
  }

  lemma CallAcceptedWhen(s: State, rows: seq<Artifact>, id: Id, ids: FreshIds, sig: Signal)
    requires Ready(s) && sig.Authorize?
    ensures var d := Decide(s, rows, id, ids, sig);
            (d.result.Accepted? <==> Permitted(s, rows, sig)) && (d.result.Accepted? ==> Accepts(d, s, ids, sig))
  {
    hide Inv, Settled, FindConfirmation;
    var t := sig.taskId;
    if t in s.tasks {
      StateMeans(s, t);
      GrantMeans(s, t, sig.fingerprint);
    }
  }

  lemma GrantMeans(s: State, t: Id, fingerprint: string)
    requires t in s.tasks
    ensures var found := FindConfirmation(s, t, s.tasks[t].revision, fingerprint, Approved);
            if found.Some? then GrantStands(s, t, found.value, fingerprint)
            else !exists c :: GrantStands(s, t, c, fingerprint)
  {
    var found := FindConfirmation(s, t, s.tasks[t].revision, fingerprint, Approved);
    if c :| GrantStands(s, t, c, fingerprint) {
      assert Matches(s.confirmations[c], t, s.tasks[t].revision, fingerprint, Approved);
    }
  }

  lemma DecisionAcceptedWhen(s: State, rows: seq<Artifact>, id: Id, ids: FreshIds, sig: Signal)
    requires Ready(s) && ValidTable(rows) && !RefusedUnrecorded(s, sig)
    ensures var d := Decide(s, rows, id, ids, sig);
            (d.result.Accepted? <==> Permitted(s, rows, sig)) && (d.result.Accepted? ==> Accepts(d, s, ids, sig))
  {
    hide Inv, Settled, Decide, Permitted, RefusedUnrecorded, Accepts, ValidTable;
    if sig.RequestPause? || sig.Revise? || sig.Resume? || sig.AnswerQuestion? || sig.Cancel? {
      CommandAcceptedWhen(s, rows, id, ids, sig);
    } else if sig.MoveQueue? {
      MoveAcceptedWhen(s, rows, id, ids, sig);
    } else if sig.ResolveApproval? || sig.Submit? || sig.Recover? {
      VerdictAcceptedWhen(s, rows, id, ids, sig);
    } else if sig.Authorize? {
      CallAcceptedWhen(s, rows, id, ids, sig);
    } else {
      SignalAcceptedWhen(s, rows, id, ids, sig);
    }
  }

  /** In every reachable state: a new signal is accepted exactly when the records permit it, and the
      acceptance names its task. */
  lemma AcceptedExactlyWhen(sys: Sys, id: Id, ids: FreshIds, sig: Signal)
    requires Handled(sys, id, ids, sig)
    ensures var out := Handle(sys, id, ids, sig);
            && (out.result.Accepted? <==> Permitted(sys.mem, sys.rows, sig))
            && (out.result.Accepted? ==> AcceptedTask(sys.mem, ids, sig) == Some(out.result.taskId))
  {
    hide Handle, Reachable, Fresh, Permitted, AcceptedTask, Ready, ValidTable, RefusedUnrecorded, LegalAll, After;
    hide Decide;
    HandledFacts(sys, id, ids, sig);
    DecisionAcceptedWhen(sys.mem, sys.rows, id, ids, sig);
  }

  // -------------------------------------------------------------- what a refusal means

  /** What the code of a refusal says about the records. */
  ghost predicate Explains(s: State, rows: seq<Artifact>, sig: Signal, code: RejectCode) {
    match code
    case TaskNotFound =>
      NamesTask(sig) && !sig.MoveQueue? && sig.taskId !in s.tasks && (sig.ReportConflict? ==> NamesPath(sig.paths))
    case ConfirmationNotFound => sig.ResolveApproval? && sig.confirmationId !in s.confirmations
    case QuestionNotFound =>
      && sig.AnswerQuestion? && sig.taskId in s.tasks
      && (sig.questionId !in s.questions || s.questions[sig.questionId].taskId != sig.taskId)
    case StaleQuestion =>
      && sig.AnswerQuestion? && sig.taskId in s.tasks && sig.questionId in s.questions
      && s.questions[sig.questionId].taskId == sig.taskId && s.questions[sig.questionId].state != Open
    case StaleConfirmation =>
      && sig.ResolveApproval? && sig.confirmationId in s.confirmations
      && s.confirmations[sig.confirmationId].taskId in s.tasks
      && !VerdictAwaited(s, s.confirmations[sig.confirmationId].taskId, sig.confirmationId)
    case QuestionPending => sig.Resume? && Idling(s, sig.taskId, sig.expectedRevision) && Asking(s, sig.taskId)
    case ConfirmationPending =>
      && sig.Resume? && Idling(s, sig.taskId, sig.expectedRevision) && !Asking(s, sig.taskId)
      && exists c :: VerdictAwaited(s, sig.taskId, c)
    case RepositoryImmutable =>
      && sig.Revise? && Idling(s, sig.taskId, sig.expectedRevision)
      && sig.spec.repositoryId != s.tasks[sig.taskId].repositoryId
    case TerminalTask =>
      sig.Cancel? && sig.taskId in s.tasks && s.tasks[sig.taskId].state in {Completed, Failed, Cancelled}
    case NotQueued => sig.MoveQueue? && sig.taskId !in s.queue
    case InvalidAnchor =>
      sig.MoveQueue? && sig.taskId in s.queue && !AnchorFits(s, sig.taskId, sig.operation, sig.anchor)
    case StaleRun =>
      && (sig.ReportConflict? || sig.BindSession? || sig.RecordArtifact?) && sig.taskId in s.tasks
      && (if sig.ReportConflict? then s.tasks[sig.taskId].state != Running && NamesPath(sig.paths)
          else s.tasks[sig.taskId].activeRunId != Some(sig.runId))
    case PolicyViolation =>
      && sig.Authorize? && sig.tier == RejectTier && sig.taskId in s.tasks && s.tasks[sig.taskId].state == Running
      && !exists c :: GrantStands(s, sig.taskId, c, sig.fingerprint)
    case VerificationIncomplete =>
      && sig.Complete? && sig.taskId in s.tasks && s.tasks[sig.taskId].activeRunId.Some?
      && s.tasks[sig.taskId].state in {Running, PauseWanted}
      && !Justified(rows, sig.taskId, s.tasks[sig.taskId].activeRunId.value, sig.evidenceIds)
    case NothingToRecover => sig.Recover? && forall t :: t in s.tasks ==> s.tasks[t].state !in {Running, PauseWanted}
    case InvalidConflict => sig.ReportConflict? && !NamesPath(sig.paths)
    case InvalidState =>
      && (exists t :: About(s, sig, t) && WrongState(sig, s.tasks[t].state))
      && (sig.ResolveApproval? ==> VerdictAwaited(s, s.confirmations[sig.confirmationId].taskId, sig.confirmationId))
  }

  predicate NamesPath(paths: seq<string>) {
    exists p :: p in paths && p != ""
  }

  /** The states in which a signal is out of place. */
  predicate WrongState(sig: Signal, st: TaskState) {
    match sig
    case RequestPause(_, _) => st != Running
    case Revise(_, _, _) => st !in {Paused, Awaiting}
    case Resume(_, _) => st !in {Paused, Awaiting}
    case ResolveApproval(_, _, _) => st != Awaiting
    case SafeBoundary(_, _) => st != PauseWanted
    case AskQuestion(_, _) => st != Running
    case Authorize(_, _, _, _) => st != Running
    case Complete(_, _, _) => st !in {Running, PauseWanted}
    case Fail(_, _) => st !in {Running, PauseWanted}
    case _ => false
  }

  lemma CommandRefusedBecause(s: State, rows: seq<Artifact>, id: Id, ids: FreshIds, sig: Signal)
    requires Ready(s) && (sig.RequestPause? || sig.Revise? || sig.Cancel?)
    ensures var d := Decide(s, rows, id, ids, sig);
            d.result.Rejected? ==> Explains(s, rows, sig, d.result.code) && d.events == []
  {
    hide DecideSubmit, DecideResume, DecideAnswer, DecideMove, DecideResolve, DecideAuthorize, DecideConflict;
    hide DecideFinish, DecideRecover;
    hide Ready, StartNext, VerdictAwaited, Asking;
    if sig.taskId in s.tasks {
      assert About(s, sig, sig.taskId);
      StateMeans(s, sig.taskId);
    }
  }

  lemma ResumeRefusedBecause(s: State, rows: seq<Artifact>, id: Id, ids: FreshIds, sig: Signal)
    requires Ready(s) && sig.Resume?
    ensures var d := Decide(s, rows, id, ids, sig);
            d.result.Rejected? ==> Explains(s, rows, sig, d.result.code) && d.events == []
  {
    hide Ready, HasOpenQuestion, HasPending, VerdictAwaited, Asking;
    var t := sig.taskId;
    if t in s.tasks {
      assert About(s, sig, t);
      StateMeans(s, t);
      ReadyAsking(s, t);
      VerdictMeans(s, t);
    }
  }

  lemma AnswerRefusedBecause(s: State, rows: seq<Artifact>, id: Id, ids: FreshIds, sig: Signal)
    requires Ready(s) && sig.AnswerQuestion?
    ensures var d := Decide(s, rows, id, ids, sig);
            d.result.Rejected? ==> Explains(s, rows, sig, d.result.code) && d.events == []
  {
    hide Ready, VerdictAwaited, Asking;
    if sig.taskId in s.tasks { StateMeans(s, sig.taskId); }
    if sig.questionId in s.questions && s.questions[sig.questionId].state == Open {
      ReadyQuestion(s, sig.questionId);
    }
  }

  lemma ReadyQuestion(s: State, q: Id)
    requires Ready(s) && q in s.questions && s.questions[q].state == Open
    ensures var t := s.questions[q].taskId;
            t in s.tasks && s.tasks[t].state == Awaiting && s.questions[q].taskRevision == s.tasks[t].revision
  {
    hide Inv, Settled;
    OpenQuestionIs(s, q);
  }

  lemma VerdictRefusedBecause(s: State, rows: seq<Artifact>, id: Id, ids: FreshIds, sig: Signal)
    requires Ready(s) && sig.ResolveApproval?
    ensures var d := Decide(s, rows, id, ids, sig);
            d.result.Rejected? ==> Explains(s, rows, sig, d.result.code) && d.events == []
  {
    hide Inv, Settled, Asking;
    if sig.confirmationId in s.confirmations {
      var t := s.confirmations[sig.confirmationId].taskId;
      ConfirmationHasTask(s, sig.confirmationId);
      assert About(s, sig, t);
      StateMeans(s, t);
    }
  }

  lemma RecoverRefusedBecause(s: State, rows: seq<Artifact>, id: Id, ids: FreshIds, sig: Signal)
    requires Ready(s) && (sig.Submit? || sig.Recover?)
    ensures var d := Decide(s, rows, id, ids, sig);
            d.result.Rejected? ==> Explains(s, rows, sig, d.result.code) && d.events == []
  {
    hide Ready, FirstFast;
    if sig.Recover? { VerdictAcceptedWhen(s, rows, id, ids, sig); }
  }

  lemma MoveRefusedBecause(s: State, rows: seq<Artifact>, id: Id, ids: FreshIds, sig: Signal)
    requires Ready(s) && sig.MoveQueue?
    ensures var d := Decide(s, rows, id, ids, sig);
            d.result.Rejected? ==> Explains(s, rows, sig, d.result.code) && d.events == []
  {
    hide Ready, MovedQueue;
    MoveAcceptedWhen(s, rows, id, ids, sig);
    QueueKnown(s, sig.taskId);
    if sig.taskId in s.tasks { StateMeans(s, sig.taskId); }
  }

  lemma QueueKnown(s: State, t: Id)
    requires Ready(s)
    ensures t in s.queue ==> t in s.tasks && s.tasks[t].state == Queued
  {
    hide Inv, Settled;
    QueueFacts(s, t);
  }

  lemma ConfirmationHasTask(s: State, c: Id)
    requires Inv(s) && c in s.confirmations
    ensures s.confirmations[c].taskId in s.tasks
  {
    hide TasksOk, RunsOk, QuestionsOk, QueueChecks, SlotChecks;
  }

  lemma SignalRefusedBecause(s: State, rows: seq<Artifact>, id: Id, ids: FreshIds, sig: Signal)
    requires Ready(s) && (sig.SafeBoundary? || sig.AskQuestion?)
    ensures var d := Decide(s, rows, id, ids, sig);
            d.result.Rejected? ==> Explains(s, rows, sig, d.result.code) && d.events == []
  {
    hide DecideSubmit, DecideRevise, DecideResume, DecideAnswer, DecideCancel, DecideMove, DecideResolve;
    hide DecideAuthorize, DecideConflict, DecideFinish, DecideRecover;
    hide Ready, HasOpenQuestion, VerdictAwaited, Asking;
    var t := sig.taskId;
    if t in s.tasks {
      assert About(s, sig, t);
      StateMeans(s, t);
      ReadyAsking(s, t);
    }
  }

  lemma RunRefusedBecause(s: State, rows: seq<Artifact>, id: Id, ids: FreshIds, sig: Signal)
    requires Ready(s) && !RefusedUnrecorded(s, sig) && (sig.BindSession? || sig.RecordArtifact? || sig.ReportConflict?)
    ensures var d := Decide(s, rows, id, ids, sig);
            d.result.Rejected? ==> Explains(s, rows, sig, d.result.code) && d.events == []
  {
    hide DecideSubmit, DecideRevise, DecideResume, DecideAnswer, DecideCancel, DecideMove, DecideResolve;
    hide DecideAuthorize, DecideFinish, DecideRecover;
    hide Ready, VerdictAwaited, Asking, ConflictPaths, NamesPath;
    if sig.taskId in s.tasks { StateMeans(s, sig.taskId); }
    if sig.ReportConflict? { PathsOf(sig.paths); }
  }

  lemma ReadyAsking(s: State, t: Id)
    requires Ready(s)
    ensures Asking(s, t) <==> HasOpenQuestion(s, t)
  {
    hide Inv, Settled, HasOpenQuestion, Asking;
    AskingMeans(s, t);
  }

  lemma FinishRefusedBecause(s: State, rows: seq<Artifact>, id: Id, ids: FreshIds, sig: Signal)
    requires Ready(s) && ValidTable(rows) && (sig.Complete? || sig.Fail?)
    ensures var d := Decide(s, rows, id, ids, sig);
            d.result.Rejected? ==> Explains(s, rows, sig, d.result.code) && d.events == []
  {
    hide DecideSubmit, DecideRevise, DecideResume, DecideAnswer, DecideCancel, DecideMove, DecideResolve;
    hide DecideAuthorize, DecideConflict, DecideRecover;
    hide Ready, StartNext, VerdictAwaited, Asking, Justified, ValidTable, ValidateCompletion;
    var t := sig.taskId;
    if t in s.tasks {
      assert About(s, sig, t);
      StateMeans(s, t);
      if sig.Complete? && s.tasks[t].activeRunId.Some? {
        GateMeaning(rows, t, s.tasks[t].activeRunId.value, sig.evidenceIds);
      }
    }
  }

  lemma CallRefusedBecause(s: State, rows: seq<Artifact>, id: Id, ids: FreshIds, sig: Signal)
    requires Ready(s) && sig.Authorize?
    ensures var d := Decide(s, rows, id, ids, sig);
            d.result.Rejected? ==> Explains(s, rows, sig, d.result.code)
  {
    hide Inv, Settled, FindConfirmation;
    var t := sig.taskId;
    if t in s.tasks {
      assert About(s, sig, t);
      StateMeans(s, t);
      GrantMeans(s, t, sig.fingerprint);
    }
  }

  /** In every reachable state: the code of a refusal, recorded or not, says why the records do not permit
      the signal, and a refused signal leaves the records as they are. */
  lemma RefusalIsTruthful(sys: Sys, id: Id, ids: FreshIds, sig: Signal)
    requires Reachable(sys) && Fresh(sys.mem, ids) && id !in sys.store.commands
    requires Handle(sys, id, ids, sig).Returned? && Handle(sys, id, ids, sig).result.Rejected?
    ensures var out := Handle(sys, id, ids, sig);
            && Explains(sys.mem, sys.rows, sig, out.result.code)
            && out.sys.mem == sys.mem.(seqNo := out.sys.mem.seqNo)
            && (!sig.Authorize? ==> out.sys.mem == sys.mem && out.sys.store.log == sys.store.log)
  {
    hide Reachable, Fresh, Explains, Ready, ValidTable, Handle, RefusedUnrecorded, LegalAll, After, Decide;
    if RefusedUnrecorded(sys.mem, sig) {
      UnrecordedStays(sys, id, ids, sig);
      UnrecordedBecause(sys.mem, sys.rows, sig);
    } else {
      HandledFacts(sys, id, ids, sig);
      RefusedBecause(sys, id, ids, sig);
    }
  }

  lemma UnrecordedStays(sys: Sys, id: Id, ids: FreshIds, sig: Signal)
    requires RefusedUnrecorded(sys.mem, sig)
    ensures Handle(sys, id, ids, sig) == Returned(sys, UnrecordedRefusal(sig))
  {
  }

  lemma UnrecordedBecause(s: State, rows: seq<Artifact>, sig: Signal)
    requires RefusedUnrecorded(s, sig)
    ensures UnrecordedRefusal(sig).Rejected? && Explains(s, rows, sig, UnrecordedRefusal(sig).code)
  {
    if sig.ReportConflict? { PathsOf(sig.paths); }
  }

  lemma RefusedBecause(sys: Sys, id: Id, ids: FreshIds, sig: Signal)
    requires Handled(sys, id, ids, sig) && Handle(sys, id, ids, sig).result.Rejected?
    ensures var out := Handle(sys, id, ids, sig);
            && Explains(sys.mem, sys.rows, sig, out.result.code)
            && out.sys.mem == sys.mem.(seqNo := out.sys.mem.seqNo)
            && (!sig.Authorize? ==> out.sys.mem == sys.mem && out.sys.store.log == sys.store.log)
  {
    hide Reachable, Fresh, Explains, Ready, ValidTable, Decide, RefusedUnrecorded, ApplyAll, LegalAll, After;
    HandledFacts(sys, id, ids, sig);
    var s, d := sys.mem, Decide(sys.mem, sys.rows, id, ids, sig);
    if sig.Authorize? {
      CallRefusedBecause(s, sys.rows, id, ids, sig);
      RefusedCallOnlyCounts(s, sys.rows, id, ids, sig);
    } else {
      if sig.RequestPause? || sig.Revise? || sig.Cancel? {
        CommandRefusedBecause(s, sys.rows, id, ids, sig);
      } else if sig.Resume? {
        ResumeRefusedBecause(s, sys.rows, id, ids, sig);
      } else if sig.AnswerQuestion? {
        AnswerRefusedBecause(s, sys.rows, id, ids, sig);
      } else if sig.ResolveApproval? {
        VerdictRefusedBecause(s, sys.rows, id, ids, sig);
      } else if sig.Submit? || sig.Recover? {
        RecoverRefusedBecause(s, sys.rows, id, ids, sig);
      } else if sig.MoveQueue? {
        MoveRefusedBecause(s, sys.rows, id, ids, sig);
      } else if sig.Complete? || sig.Fail? {
        FinishRefusedBecause(s, sys.rows, id, ids, sig);
      } else if sig.BindSession? || sig.RecordArtifact? || sig.ReportConflict? {
        RunRefusedBecause(s, sys.rows, id, ids, sig);
      } else {
        SignalRefusedBecause(s, sys.rows, id, ids, sig);
      }
      NoChange(s);
    }
  }

  lemma NoChange(s: State)
    ensures After(s, []) == s
  {
  }

  lemma RefusedCallOnlyCounts(s: State, rows: seq<Artifact>, id: Id, ids: FreshIds, sig: Signal)
    requires sig.Authorize? && Decide(s, rows, id, ids, sig).result.Rejected?
    requires LegalAll(s, Decide(s, rows, id, ids, sig).events)
    ensures var after := After(s, Decide(s, rows, id, ids, sig).events); after == s.(seqNo := after.seqNo)
  {
    hide FindConfirmation, Legal, LegalAll, After, Next;
    var events := Decide(s, rows, id, ids, sig).events;
    NoChange(s);
    if events != [] {
      assert events == [events[0]];
      Chain1(s, events[0]);
      PolicyKeeps(s, events[0]);
    }
  }

  // ------------------------------------------------------------- which answer is given

  ghost predicate Stale(s: State, sig: Signal) {
    CarriesRevision(sig) && exists t :: About(s, sig, t) && s.tasks[t].revision != sig.expectedRevision
  }

  /** A call of a running task that needs the user's verdict and has no standing grant. */
  ghost predicate MustWait(s: State, sig: Signal) {
    && sig.Authorize? && sig.tier == VisualApprovalTier
    && sig.taskId in s.tasks && s.tasks[sig.taskId].state == Running
    && !exists c :: GrantStands(s, sig.taskId, c, sig.fingerprint)
  }

  lemma OtherAnswers(s: State, rows: seq<Artifact>, id: Id, ids: FreshIds, sig: Signal)
    ensures var d := Decide(s, rows, id, ids, sig);
            && (d.result.Conflict? ==> Stale(s, sig))
            && (d.result.ConfirmationRequired? ==> MustWait(s, sig))
  {
    hide HasOpenQuestion, HasPending, StartNext, FindConfirmation, FirstFast, MovedQueue, ConflictPaths;
    hide ValidateCompletion, GrantStands;
    if sig.ResolveApproval? && sig.confirmationId in s.confirmations {
      var t := s.confirmations[sig.confirmationId].taskId;
      assert t in s.tasks ==> About(s, sig, t);
    } else if NamesTask(sig) && sig.taskId in s.tasks {
      assert About(s, sig, sig.taskId);
      if sig.Authorize? { GrantMeans(s, sig.taskId, sig.fingerprint); }
    }
  }

  lemma ExplainedIsNeither(s: State, rows: seq<Artifact>, sig: Signal, code: RejectCode)
    requires Explains(s, rows, sig, code)
    ensures !Permitted(s, rows, sig) && !MustWait(s, sig)
  {
    hide Asking, VerdictAwaited, GrantStands, Justified, NamesPath, AnchorFits;
  }

  lemma ExplanationIsUnique(s: State, rows: seq<Artifact>, sig: Signal, code: RejectCode, other: RejectCode)
    requires Explains(s, rows, sig, code) && Explains(s, rows, sig, other)
    ensures code == other
  {
    hide Asking, VerdictAwaited, GrantStands, Justified, NamesPath, AnchorFits;
  }

  lemma StaleIsNeither(s: State, rows: seq<Artifact>, sig: Signal)
    requires Stale(s, sig)
    ensures !Permitted(s, rows, sig) && !MustWait(s, sig)
  {
    hide Asking, VerdictAwaited;
  }

  lemma WaitingIsNotPermitted(s: State, rows: seq<Artifact>, sig: Signal)
    requires MustWait(s, sig)
    ensures !Permitted(s, rows, sig)
  {
    hide GrantStands;
  }

  /** In every reachable state, the answer to a new signal follows from the records, whichever of the four
      it is and for every code of a refusal. */
  lemma AnswerIsExact(sys: Sys, id: Id, ids: FreshIds, sig: Signal)
    requires Reachable(sys) && Fresh(sys.mem, ids) && id !in sys.store.commands
    requires Handle(sys, id, ids, sig).Returned?
    ensures var s, result := sys.mem, Handle(sys, id, ids, sig).result;
            && (result.Accepted? <==> Permitted(s, sys.rows, sig))
            && (result.Conflict? <==> Stale(s, sig))
            && (result.ConfirmationRequired? <==> MustWait(s, sig))
            && (forall code :: result == Rejected(code) <==> !Stale(s, sig) && Explains(s, sys.rows, sig, code))
  {
    hide Explains, Permitted, MustWait, Stale, Handle, Reachable, Fresh;
    var s, rows, result := sys.mem, sys.rows, Handle(sys, id, ids, sig).result;
    AnswerGiven(sys, id, ids, sig);
    if Stale(s, sig) { StaleIsNeither(s, rows, sig); }
    if MustWait(s, sig) { WaitingIsNotPermitted(s, rows, sig); }
    forall code | Explains(s, rows, sig, code)
      ensures !Permitted(s, rows, sig) && !MustWait(s, sig)
      ensures result.Rejected? && !Stale(s, sig) ==> result.code == code
    {
      ExplainedIsNeither(s, rows, sig, code);
      if result.Rejected? && !Stale(s, sig) { ExplanationIsUnique(s, rows, sig, code, result.code); }
    }
  }

  lemma AnswerGiven(sys: Sys, id: Id, ids: FreshIds, sig: Signal)
    requires Reachable(sys) && Fresh(sys.mem, ids) && id !in sys.store.commands
    requires Handle(sys, id, ids, sig).Returned?
    ensures var s, result := sys.mem, Handle(sys, id, ids, sig).result;
            && (result.Accepted? ==> Permitted(s, sys.rows, sig))
            && (result.Conflict? ==> Stale(s, sig))
            && (result.ConfirmationRequired? ==> MustWait(s, sig))
            && (result.Rejected? ==> !Stale(s, sig) && Explains(s, sys.rows, sig, result.code))
  {
    hide Explains, Permitted, MustWait, Stale, Decide, Reachable, Fresh, RefusedUnrecorded, Ready, ValidTable;
    hide Handle, LegalAll, After;
    if Handle(sys, id, ids, sig).result.Rejected? { RefusalIsTruthful(sys, id, ids, sig); }
    if RefusedUnrecorded(sys.mem, sig) {
      UnrecordedStays(sys, id, ids, sig);
      UnrecordedIsNotStale(sys.mem, sig);
    } else {
      HandledFacts(sys, id, ids, sig);
      AcceptedExactlyWhen(sys, id, ids, sig);
      OtherAnswers(sys.mem, sys.rows, id, ids, sig);
      StaleIsConflict(sys.mem, sys.rows, id, ids, sig);
    }
  }

  lemma UnrecordedIsNotStale(s: State, sig: Signal)
    requires RefusedUnrecorded(s, sig)
    ensures UnrecordedRefusal(sig).Rejected? && !Stale(s, sig)
  {
  }

  lemma StaleIsConflict(s: State, rows: seq<Artifact>, id: Id, ids: FreshIds, sig: Signal)
    ensures Stale(s, sig) ==> Decide(s, rows, id, ids, sig).result.Conflict?
  {
    hide Decide;
    if Stale(s, sig) {
      var t :| About(s, sig, t) && s.tasks[t].revision != sig.expectedRevision;
      StaleDecision(s, rows, id, ids, sig, t);
    }
  }

  // -------------------------------------------------------- what an acceptance leaves in the log

  /** The start of the head of the queue, when the slot is handed over. */
  function Successor(s: State, ids: FreshIds): seq<Event> {
    if s.queue == [] then []
    else
      var head := s.queue[0];
      if head in s.tasks then [TaskStarted(head, ids.run, s.tasks[head].revision)] else []
  }

  /** Behind everything when fast, otherwise in front of the first fast task. */
  predicate PlaceFor(s: State, spec: TaskSpec, position: nat) {
    && position <= |s.queue|
    && (if spec.codingProfileId == Some("fast") then position == |s.queue|
        else (forall i :: 0 <= i < position ==> !Fast(s, s.queue[i]))
             && (position < |s.queue| ==> Fast(s, s.queue[position])))
  }

  predicate Fast(s: State, t: Id) {
    t in s.tasks && s.tasks[t].spec.codingProfileId == Some("fast")
  }

  /** The events an accepted signal adds, with what it carries and what the records say. */
  ghost predicate Logs(s: State, id: Id, ids: FreshIds, sig: Signal, added: seq<Event>) {
    match sig
    case Submit(spec) =>
      && |added| >= 2 && added[1].TaskEnqueued? && PlaceFor(s, spec, added[1].position)
      && added == [TaskCreated(ids.task, spec, 1), TaskEnqueued(ids.task, added[1].position)]
                  + if s.active == None then [TaskStarted(ids.task, ids.run, 1)] else []
    case RequestPause(t, _) => added == [PauseRequested(t)]
    case Revise(t, r, spec) => added == [SpecRevised(t, r, r + 1, spec)]
    case Resume(t, r) =>
      t in s.tasks
      && added == (if s.tasks[t].workspaceConflict.Some?
                   then [ConflictResolved(t, s.tasks[t].workspaceConflict.value), TaskResumed(t, ids.run, r)]
                   else [TaskResumed(t, ids.run, r)])
    case AnswerQuestion(t, r, q) =>
      q in s.questions && added == [QuestionAnswered(t, q, s.questions[q].runId, r), TaskResumed(t, ids.run, r)]
    case Cancel(t, _) => added == [TaskCancelled(t)] + if s.active == Some(t) then Successor(s, ids) else []
    case MoveQueue(t, _, _) => |added| == 1 && added[0].QueueReordered? && added[0].taskId == t
    case ResolveApproval(c, r, approve) =>
      && c in s.confirmations
      && var t := s.confirmations[c].taskId;
         && t in s.tasks && s.tasks[t].runIds != []
         && added == [ApprovalResolved(t, c, r, approve),
                      if approve then TaskResumed(t, ids.run, r)
                      else TaskPaused(t, s.tasks[t].runIds[|s.tasks[t].runIds| - 1], REFUSED_BY_USER)]
    case SafeBoundary(t, reason) => InRun(s, t) && added == [TaskPaused(t, RunOfTask(s, t), reason)]
    case AskQuestion(t, question) =>
      InRun(s, t) && added == [QuestionAsked(t, id, RunOfTask(s, t), s.tasks[t].revision, question)]
    case BindSession(t, r, session, file) => added == [SessionBound(t, session, r, file)]
    case RecordArtifact(t, artifact, r, summary) => added == [ArtifactCreated(t, artifact, r, summary)]
    case ReportConflict(t, paths, reason) =>
      && InRun(s, t) && |added| == 2 && added[0].ConflictDetected?
      && (forall p :: p in added[0].paths <==> p in paths && p != "")
      && added == [ConflictDetected(t, RunOfTask(s, t), added[0].paths, reason), AwaitingUser(t, RunOfTask(s, t))]
    case Complete(t, summary, evidenceIds) =>
      InRun(s, t) && added == [TaskCompleted(t, RunOfTask(s, t), evidenceIds, summary)] + Successor(s, ids)
    case Fail(t, error) => InRun(s, t) && added == [TaskFailed(t, RunOfTask(s, t), error)] + Successor(s, ids)
    case Recover =>
      && s.active.Some? && InRun(s, s.active.value)
      && var t, r := s.active.value, RunOfTask(s, s.active.value);
         added == (if s.tasks[t].session.Some?
                   then [RunInterrupted(t, r), RecoveryBoundary(t, s.tasks[t].session.value.id, r),
                         TaskPaused(t, r, NEEDS_RESUME)]
                   else [RunInterrupted(t, r), TaskPaused(t, r, NEEDS_RESUME)])
    case Authorize(_, _, _, _) => |added| <= 2
  }

  predicate InRun(s: State, t: Id) {
    t in s.tasks && s.tasks[t].activeRunId.Some?
  }

  function RunOfTask(s: State, t: Id): Id
    requires InRun(s, t)
  {
    s.tasks[t].activeRunId.value
  }

  lemma CommandLogs(s: State, rows: seq<Artifact>, id: Id, ids: FreshIds, sig: Signal)
    requires Ready(s) && Decide(s, rows, id, ids, sig).result.Accepted?
    requires sig.RequestPause? || sig.Revise? || sig.Resume? || sig.AnswerQuestion? || sig.ResolveApproval?
    ensures Logs(s, id, ids, sig, Decide(s, rows, id, ids, sig).events)
  {
    hide Ready, HasOpenQuestion, HasPending, VerdictAwaited, Asking;
    if sig.ResolveApproval? { StateMeans(s, s.confirmations[sig.confirmationId].taskId); }
  }

  lemma QueueLogs(s: State, rows: seq<Artifact>, id: Id, ids: FreshIds, sig: Signal)
    requires Ready(s) && Decide(s, rows, id, ids, sig).result.Accepted?
    requires sig.Submit? || sig.Cancel? || sig.MoveQueue? || sig.Recover?
    ensures Logs(s, id, ids, sig, Decide(s, rows, id, ids, sig).events)
  {
    hide Ready, MovedQueue;
  }

  lemma SignalLogs(s: State, rows: seq<Artifact>, id: Id, ids: FreshIds, sig: Signal)
    requires Ready(s) && Decide(s, rows, id, ids, sig).result.Accepted?
    requires sig.SafeBoundary? || sig.AskQuestion? || sig.BindSession? || sig.RecordArtifact? || sig.ReportConflict?
             || sig.Complete? || sig.Fail? || sig.Authorize?
    ensures Logs(s, id, ids, sig, Decide(s, rows, id, ids, sig).events)
  {
    hide Ready, HasOpenQuestion, ValidateCompletion, FindConfirmation;
  }

  /** In every reachable state an accepted signal adds exactly its own events to the log, and the result
      to the command table. */
  lemma AcceptedIsLogged(sys: Sys, id: Id, ids: FreshIds, sig: Signal)
    returns (added: seq<Event>)
    requires Handled(sys, id, ids, sig) && Handle(sys, id, ids, sig).result.Accepted?
    ensures Handle(sys, id, ids, sig).sys.store
            == Store(sys.store.log + added, sys.store.commands[id := Handle(sys, id, ids, sig).result])
    ensures Logs(sys.mem, id, ids, sig, added)
  {
    hide Reachable, Fresh, Ready, Decide, Logs, RefusedUnrecorded, Handle;
    HandledFacts(sys, id, ids, sig);
    HandledLog(sys, id, ids, sig);
    AnswerIsRecorded(sys, id, ids, sig);
    var s := sys.mem;
    added := Decide(s, sys.rows, id, ids, sig).events;
    if sig.RequestPause? || sig.Revise? || sig.Resume? || sig.AnswerQuestion? || sig.ResolveApproval? {
      CommandLogs(s, sys.rows, id, ids, sig);
    } else if sig.Submit? || sig.Cancel? || sig.MoveQueue? || sig.Recover? {
      QueueLogs(s, sys.rows, id, ids, sig);
    } else {
      SignalLogs(s, sys.rows, id, ids, sig);
    }
  }

  // --------------------------------------------------------------- the answer to a tool call

  /** In every reachable state, for a running task and a call under a new id. With a standing grant of
      exactly this effect the call is accepted and the grant is used up. Without one, an automatic call is
      accepted, a forbidden one refused, and any other waits for the user, with the task set aside and
      the request pending. The log gets the policy decision in each case, and nothing else changes. */
  lemma CallAnswered(sys: Sys, id: Id, ids: FreshIds, t: Id, tier: PolicyTier, fingerprint: string, labels: Labels)
    returns (c: Id)
    requires Handled(sys, id, ids, Authorize(t, tier, fingerprint, labels))
    requires t in sys.mem.tasks && sys.mem.tasks[t].state == Running
    ensures sys.mem.tasks[t].activeRunId.Some? && sys.mem.tasks[t].activeRunId.value in sys.mem.runs
    ensures var s, out := sys.mem, Handle(sys, id, ids, Authorize(t, tier, fingerprint, labels));
            var task, run := s.tasks[t], s.tasks[t].activeRunId.value;
            var log, log', n := sys.store.log, out.sys.store.log, out.sys.mem.seqNo;
            var granted := exists d :: GrantStands(s, t, d, fingerprint);
            && (granted ==>
                  && GrantStands(s, t, c, fingerprint) && out.result == Accepted(t)
                  && log' == log + [PolicyDecisionRecorded(t, Automatic, fingerprint, labels),
                                    ApprovalConsumed(t, c, task.revision, fingerprint)]
                  && out.sys.mem == s.(seqNo := n, confirmations :=
                                         s.confirmations[c := s.confirmations[c].(state := Consumed)]))
            && (!granted && tier == AutomaticTier ==>
                  && out.result == Accepted(t)
                  && log' == log + [PolicyDecisionRecorded(t, Automatic, fingerprint, labels)]
                  && out.sys.mem == s.(seqNo := n))
            && (!granted && tier == RejectTier ==>
                  && out.result == Rejected(PolicyViolation)
                  && log' == log + [PolicyDecisionRecorded(t, Rejection, fingerprint, labels)]
                  && out.sys.mem == s.(seqNo := n))
            && (!granted && tier == VisualApprovalTier ==>
                  && out.result == ConfirmationRequired(ids.confirmation)
                  && log' == log + [PolicyDecisionRecorded(t, ConfirmationNeeded, fingerprint, labels),
                                    ApprovalRequested(t, ids.confirmation, task.revision, fingerprint),
                                    AwaitingUser(t, run)]
                  && out.sys.mem == s.(seqNo := n,
                                       confirmations := s.confirmations[ids.confirmation :=
                                         Confirmation(t, task.revision, fingerprint, Pending)],
                                       runs := s.runs[run := s.runs[run].(state := RunPaused)],
                                       tasks := s.tasks[t := task.(state := Awaiting, activeRunId := None)]))
  {
    hide Reachable, Fresh, Ready, ValidTable, Decide, ApplyAll, LegalAll, After, GrantStands, Handle;
    var sig := Authorize(t, tier, fingerprint, labels);
    HandledFacts(sys, id, ids, sig);
    HandledLog(sys, id, ids, sig);
    CallStands(sys.mem, t);
    c := CallDecided(sys.mem, sys.rows, id, ids, t, tier, fingerprint, labels);
    GrantMeans(sys.mem, t, fingerprint);
  }

  lemma HandledLog(sys: Sys, id: Id, ids: FreshIds, sig: Signal)
    requires Handled(sys, id, ids, sig)
    ensures Handle(sys, id, ids, sig).sys.store.log == sys.store.log + Decide(sys.mem, sys.rows, id, ids, sig).events
  {
    hide Reachable, Fresh, Decide, ApplyAll, RefusedUnrecorded;
  }

  lemma CallStands(s: State, t: Id)
    requires Ready(s) && t in s.tasks && s.tasks[t].state == Running
    ensures s.active == Some(t) && s.tasks[t].activeRunId.Some? && s.tasks[t].activeRunId.value in s.runs
    ensures NoPending(s, t)
  {
    hide Inv, Settled, RunListOk, HistoryOk, NoPending;
    StateMeans(s, t);
    TaskFacts(s, t);
    RunningIsClear(s, t);
  }

  lemma CallDecided(s: State, rows: seq<Artifact>, id: Id, ids: FreshIds, t: Id, tier: PolicyTier,
                    fingerprint: string, labels: Labels)
    returns (c: Id)
    requires t in s.tasks && s.tasks[t].state == Running && s.active == Some(t) && NoPending(s, t)
    requires s.tasks[t].activeRunId.Some? && s.tasks[t].activeRunId.value in s.runs
    requires LegalAll(s, Decide(s, rows, id, ids, Authorize(t, tier, fingerprint, labels)).events)
    ensures var d := Decide(s, rows, id, ids, Authorize(t, tier, fingerprint, labels));
            var after, task, run := After(s, d.events), s.tasks[t], s.tasks[t].activeRunId.value;
            var n, granted := after.seqNo, exists d :: GrantStands(s, t, d, fingerprint);
            && (granted ==>
                  && GrantStands(s, t, c, fingerprint) && d.result == Accepted(t)
                  && d.events == [PolicyDecisionRecorded(t, Automatic, fingerprint, labels),
                                  ApprovalConsumed(t, c, task.revision, fingerprint)]
                  && after == s.(seqNo := n, confirmations :=
                                   s.confirmations[c := s.confirmations[c].(state := Consumed)]))
            && (!granted && tier == AutomaticTier ==>
                  && d.result == Accepted(t)
                  && d.events == [PolicyDecisionRecorded(t, Automatic, fingerprint, labels)]
                  && after == s.(seqNo := n))
            && (!granted && tier == RejectTier ==>
                  && d.result == Rejected(PolicyViolation)
                  && d.events == [PolicyDecisionRecorded(t, Rejection, fingerprint, labels)]
                  && after == s.(seqNo := n))
            && (!granted && tier == VisualApprovalTier ==>
                  && d.result == ConfirmationRequired(ids.confirmation)
                  && d.events == [PolicyDecisionRecorded(t, ConfirmationNeeded, fingerprint, labels),
                                  ApprovalRequested(t, ids.confirmation, task.revision, fingerprint),
                                  AwaitingUser(t, run)]
                  && after == s.(seqNo := n,
                                 confirmations := s.confirmations[ids.confirmation :=
                                   Confirmation(t, task.revision, fingerprint, Pending)],
                                 runs := s.runs[run := s.runs[run].(state := RunPaused)],
                                 tasks := s.tasks[t := task.(state := Awaiting, activeRunId := None)]))
  {
    hide GrantStands, LegalAll, After, NoPending, Next, Guard, Decide;
    c := CallDecision(s, rows, id, ids, t, tier, fingerprint, labels);
    var d := Decide(s, rows, id, ids, Authorize(t, tier, fingerprint, labels));
    if exists d :: GrantStands(s, t, d, fingerprint) {
      UseExactly(s, d.events[0], d.events[1]);
    } else if tier == VisualApprovalTier {
      RequestExactly(s, d.events[0], d.events[1], d.events[2]);
    } else {
      Chain1(s, d.events[0]);
      PolicyKeeps(s, d.events[0]);
    }
  }

  lemma CallDecision(s: State, rows: seq<Artifact>, id: Id, ids: FreshIds, t: Id, tier: PolicyTier,
                     fingerprint: string, labels: Labels)
    returns (c: Id)
    requires t in s.tasks && s.tasks[t].state == Running && s.active == Some(t) && NoPending(s, t)
    requires s.tasks[t].activeRunId.Some?
    ensures var d := Decide(s, rows, id, ids, Authorize(t, tier, fingerprint, labels));
            var task, granted := s.tasks[t], exists d :: GrantStands(s, t, d, fingerprint);
            && (granted ==>
                  && GrantStands(s, t, c, fingerprint) && d.result == Accepted(t)
                  && d.events == [PolicyDecisionRecorded(t, Automatic, fingerprint, labels),
                                  ApprovalConsumed(t, c, task.revision, fingerprint)])
            && (!granted && tier == AutomaticTier ==>
                  d == Decision(Accepted(t), [PolicyDecisionRecorded(t, Automatic, fingerprint, labels)]))
            && (!granted && tier == RejectTier ==>
                  d == Decision(Rejected(PolicyViolation), [PolicyDecisionRecorded(t, Rejection, fingerprint, labels)]))
            && (!granted && tier == VisualApprovalTier ==>
                  && d.result == ConfirmationRequired(ids.confirmation)
                  && d.events == [PolicyDecisionRecorded(t, ConfirmationNeeded, fingerprint, labels),
                                  ApprovalRequested(t, ids.confirmation, task.revision, fingerprint),
                                  AwaitingUser(t, task.activeRunId.value)])
  {
    hide FindConfirmation, GrantStands, NoPending;
    GrantMeans(s, t, fingerprint);
    NothingPending(s, t, fingerprint);
    var found := FindConfirmation(s, t, s.tasks[t].revision, fingerprint, Approved);
    c := if found.Some? then found.value else 0;
  }

  lemma UseExactly(s: State, policy: Event, use: Event)
    requires policy.PolicyDecisionRecorded? && use.ApprovalConsumed? && LegalAll(s, [policy, use])
    ensures var after := After(s, [policy, use]); var c := use.confirmationId;
            && c in s.confirmations
            && after == s.(seqNo := after.seqNo, confirmations :=
                             s.confirmations[c := s.confirmations[c].(state := Consumed)])
  {
    hide LegalAll, After;
    Chain2(s, policy, use);
    PolicyKeeps(s, policy);
  }

  lemma RequestExactly(s: State, policy: Event, request: Event, wait: Event)
    requires policy.PolicyDecisionRecorded? && request.ApprovalRequested? && wait.AwaitingUser?
    requires LegalAll(s, [policy, request, wait])
    ensures var after := After(s, [policy, request, wait]); var t, r := wait.taskId, wait.runId;
            && t in s.tasks && r in s.runs
            && after == s.(seqNo := after.seqNo,
                           confirmations := s.confirmations[request.confirmationId :=
                             Confirmation(request.taskId, request.revision, request.fingerprint, Pending)],
                           runs := s.runs[r := s.runs[r].(state := RunPaused)],
                           tasks := s.tasks[t := s.tasks[t].(state := Awaiting, activeRunId := None)])
  {
    hide LegalAll, After;
    assert [policy, request, wait][1..] == [request, wait];
    AfterCons(s, [policy, request, wait]);
    PolicyKeeps(s, policy);
    Chain2(Next(s, policy), request, wait);
  }
}

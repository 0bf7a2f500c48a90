/** Every decision's events are legal one after the other, and leave a settled state. */
module Progress {
  import opened Protocol
  import opened Domain
  import opened Evidence
  import opened Decisions
  import opened Invariants

  ghost predicate OthersCalm(s: State, t: Id) {
    forall u :: u in s.tasks && u != t ==> CalmTask(s, u)
  }

  lemma SettledIsCalm(s: State, t: Id)
    requires Settled(s)
    ensures OthersCalm(s, t)
    ensures t in s.tasks ==> CalmTask(s, t)
  {
  }

  lemma OthersStayCalm(s: State, e: Event)
    requires Inv(s) && Legal(s, e) && Guard(s, e) && OthersCalm(s, e.taskId)
    ensures OthersCalm(Next(s, e), e.taskId)
  {
    hide Inv, Legal, Guard, Next, CalmTask, Spares;
    forall u | u in Next(s, e).tasks && u != e.taskId ensures CalmTask(Next(s, e), u) {
      EventSpares(s, e, u);
      assert u in s.tasks by { SparedExists(s, Next(s, e), u); }
      SparedIsCalm(s, Next(s, e), u);
    }
  }

  lemma SparedExists(s: State, s': State, u: Id)
    requires Spares(s, s', u) && u in s'.tasks
    ensures u in s.tasks
  {
  }

  lemma LegalCons(s: State, e: Event, rest: seq<Event>)
    requires Inv(s) && Legal(s, e) && Guard(s, e) && LegalAll(Next(s, e), rest)
    ensures LegalAll(s, [e] + rest) && After(s, [e] + rest) == After(Next(s, e), rest)
  {
    hide Inv, Legal, Guard, Next;
    assert ([e] + rest)[1..] == rest;
  }

  /** One legal event: the state after it is again good, and other tasks stay calm. */
  lemma LegalStep(s: State, e: Event)
    requires Inv(s) && Legal(s, e) && OthersCalm(s, e.taskId)
    ensures Guard(s, e) && Inv(Next(s, e)) && OthersCalm(Next(s, e), e.taskId)
    ensures LegalAll(s, [e]) && After(s, [e]) == Next(s, e)
  {
    hide Inv, Legal, Guard, Next, OthersCalm;
    LegalApplies(s, e);
    OthersStayCalm(s, e);
    LegalCons(s, e, []);
    assert [e] + [] == [e];
  }

  /** The active task decides whether the state is settled. */
  lemma Closing(s: State, t: Id)
    requires Inv(s) && OthersCalm(s, t) && t in s.tasks && OwnsSlot(s.tasks[t].state)
    requires s.tasks[t].state == Running ==> s.tasks[t].workspaceConflict.None? && NoPending(s, t)
    requires s.tasks[t].activeRunId.Some? ==>
               s.tasks[t].activeRunId.value in s.runs && s.runs[s.tasks[t].activeRunId.value].state == RunRunning
    ensures Settled(s)
  {
    TaskFacts(s, t);
    hide Inv, TaskOk, NoPending;
  }

  // ----------------------------------------------------------- one-event decisions

  /** Events after which the task is in the state its decision leaves it in. */
  ghost predicate Conclusive(e: Event) {
    e.PauseRequested? || e.SpecRevised? || e.TaskPaused? || e.QuestionAsked? || e.AwaitingUser?
  }

  /** Pausing, asking and revising close a decision. */
  lemma ConclusiveSettles(s: State, e: Event)
    requires Inv(s) && Legal(s, e) && OthersCalm(s, e.taskId) && Conclusive(e)
    requires e.PauseRequested? ==> CalmTask(s, e.taskId)
    ensures Guard(s, e) && Settled(Next(s, e))
  {
    hide Inv, OthersCalm, NoPending, NoOpen, Supersede;
    LegalStep(s, e);
    TaskFacts(s, e.taskId);
    var s' := Next(s, e);
    TaskFacts(s', e.taskId);
    Closing(s', e.taskId);
  }

  /** Events that only annotate a record and settle nothing and unsettle nothing. */
  ghost predicate Annotates(e: Event) {
    e.SessionBound? || e.ArtifactCreated? || e.PolicyDecisionRecorded?
  }

  lemma AnnotationKeepsCalm(s: State, e: Event)
    requires Inv(s) && Settled(s) && Legal(s, e) && Annotates(e)
    ensures Guard(s, e) && Inv(Next(s, e)) && Settled(Next(s, e))
    ensures LegalAll(s, [e]) && After(s, [e]) == Next(s, e)
  {
    hide Inv, OthersCalm, NoOpen;
    SettledIsCalm(s, e.taskId);
    LegalStep(s, e);
    forall u | u in Next(s, e).tasks ensures CalmTask(Next(s, e), u) {
      if u == e.taskId { assert CalmTask(s, u); } else { CalmOther(s, e, u); }
    }
  }

  lemma CalmOther(s: State, e: Event, u: Id)
    requires Guard(s, e) && OthersCalm(Next(s, e), e.taskId) && u in Next(s, e).tasks && u != e.taskId
    ensures CalmTask(Next(s, e), u)
  {
    hide Guard, Next;
  }

  // ------------------------------------------------------------ resuming the task

  /** A task that starts running without a conflict or a pending approval closes a decision. */
  lemma ResumeSettles(s: State, t: Id, r: Id)
    requires Inv(s) && t in s.tasks && OthersCalm(s, t) && NoPending(s, t) && s.tasks[t].workspaceConflict.None?
    requires Legal(s, TaskResumed(t, r, s.tasks[t].revision))
    ensures var e := TaskResumed(t, r, s.tasks[t].revision);
            Guard(s, e) && Settled(Next(s, e)) && LegalAll(s, [e]) && After(s, [e]) == Next(s, e) && Inv(Next(s, e))
  {
    hide Inv, OthersCalm, NoOpen, Without;
    var e := TaskResumed(t, r, s.tasks[t].revision);
    LegalStep(s, e);
    var s' := Next(s, e);
    forall c | IsPending(s', c) ensures IsPending(s, c) {}
    Closing(s', t);
  }

  // -------------------------------------------------------------- the decisions

  /** `createId` returns ids no task, run or confirmation has yet. */
  ghost predicate Fresh(s: State, ids: FreshIds) {
    ids.task !in s.tasks && ids.run !in s.runs && ids.confirmation !in s.confirmations
  }

  ghost predicate Ready(s: State) {
    Inv(s) && Settled(s)
  }

  ghost predicate Good(s: State, events: seq<Event>) {
    LegalAll(s, events) && Settled(After(s, events))
  }

  lemma NothingIsGood(s: State)
    requires Ready(s)
    ensures Good(s, [])
  {
  }

  lemma OneIsGood(s: State, e: Event)
    requires Inv(s) && Legal(s, e) && Guard(s, e) && Settled(Next(s, e))
    ensures Good(s, [e])
  {
    hide Inv, Legal, Guard, Next, Settled;
    LegalCons(s, e, []);
    assert [e] + [] == [e];
  }

  lemma ConsIsGood(s: State, e: Event, rest: seq<Event>)
    requires Inv(s) && Legal(s, e) && Guard(s, e) && Good(Next(s, e), rest)
    ensures Good(s, [e] + rest)
  {
    hide Inv, Legal, Guard, Next, Settled;
    LegalCons(s, e, rest);
  }

  lemma NoOpenMeaning(s: State, t: Id)
    requires Inv(s)
    ensures HasOpenQuestion(s, t) <==> !NoOpen(s, t)
    ensures t in s.tasks ==> (HasPending(s, t, s.tasks[t].revision) <==> !NoPending(s, t))
  {
    hide TasksOk, RunsOk, ConfirmationsOk, QueueChecks, SlotChecks;
    AtMostOneOpen(s, t);
  }

  lemma PauseProgress(s: State, t: Id)
    requires Ready(s) && t in s.tasks && s.tasks[t].state == Running
    ensures Good(s, [PauseRequested(t)])
  {
    hide Inv, NoOpen, NoPending;
    SettledIsCalm(s, t);
    var e := PauseRequested(t);
    ConclusiveSettles(s, e);
    OneIsGood(s, e);
  }

  lemma ReviseProgress(s: State, t: Id, spec: TaskSpec)
    requires Ready(s) && t in s.tasks
    ensures Good(s, DecideRevise(s, t, spec).events)
  {
    hide Inv, Settled;
    SettledIsCalm(s, t);
    var d := DecideRevise(s, t, spec);
    if d.events == [] { NothingIsGood(s); } else {
      ConclusiveSettles(s, d.events[0]);
      OneIsGood(s, d.events[0]);
    }
  }

  lemma SafeBoundaryProgress(s: State, t: Id, reason: string)
    requires Ready(s) && t in s.tasks && s.tasks[t].state == PauseWanted && s.tasks[t].activeRunId.Some?
    ensures Good(s, [TaskPaused(t, s.tasks[t].activeRunId.value, reason)])
  {
    hide Inv, Settled, NoOpen, NoPending;
    SettledIsCalm(s, t);
    TaskFacts(s, t);
    OpenFacts(s, t);
    PendingFacts(s, t);
    var e := TaskPaused(t, s.tasks[t].activeRunId.value, reason);
    ConclusiveSettles(s, e);
    OneIsGood(s, e);
  }

  lemma AskProgress(s: State, t: Id, q: Id, question: string)
    requires Ready(s) && t in s.tasks && s.tasks[t].state == Running && s.tasks[t].activeRunId.Some?
             && q !in s.questions
    ensures Good(s, [QuestionAsked(t, q, s.tasks[t].activeRunId.value, s.tasks[t].revision, question)])
  {
    hide Inv, NoOpen, NoPending;
    SettledIsCalm(s, t);
    TaskFacts(s, t);
    var e := QuestionAsked(t, q, s.tasks[t].activeRunId.value, s.tasks[t].revision, question);
    ConclusiveSettles(s, e);
    OneIsGood(s, e);
  }

  lemma AnnotationProgress(s: State, e: Event)
    requires Ready(s) && Legal(s, e) && Annotates(e)
    ensures Good(s, [e])
  {
    hide Inv, Settled, Legal;
    AnnotationKeepsCalm(s, e);
  }

  lemma ResumeProgress(s: State, ids: FreshIds, t: Id)
    requires Ready(s) && Fresh(s, ids) && t in s.tasks
    ensures Good(s, DecideResume(s, ids, t).events)
  {
    hide Inv, Settled, OthersCalm;
    SettledIsCalm(s, t);
    NoOpenMeaning(s, t);
    hide HasOpenQuestion, HasPending;
    var d := DecideResume(s, ids, t);
    if d.events == [] { NothingIsGood(s); }
    else if s.tasks[t].workspaceConflict.None? {
      ResumeSettles(s, t, ids.run);
      assert d.events == [TaskResumed(t, ids.run, s.tasks[t].revision)];
    } else {
      var e := ConflictResolved(t, s.tasks[t].workspaceConflict.value);
      LegalStep(s, e);
      ConflictClears(s, e);
      ResumeSettles(Next(s, e), t, ids.run);
      ConsIsGood(s, e, [d.events[1]]);
    }
  }

  lemma ConflictClears(s: State, e: Event)
    requires e.ConflictResolved? && Guard(s, e)
    requires NoOpen(s, e.taskId) && NoPending(s, e.taskId)
    ensures var s' := Next(s, e); var t := e.taskId;
            && t in s'.tasks && s'.tasks[t] == s.tasks[t].(workspaceConflict := None)
            && s'.runs == s.runs && NoOpen(s', t) && NoPending(s', t)
  {
    var s' := Next(s, e);
    forall c | IsPending(s', c) ensures IsPending(s, c) {}
    forall q | IsOpen(s', q) ensures IsOpen(s, q) {}
  }

  lemma AnswerProgress(s: State, ids: FreshIds, t: Id, q: Id)
    requires Ready(s) && Fresh(s, ids) && t in s.tasks
    ensures Good(s, DecideAnswer(s, ids, t, q).events)
  {
    hide Inv, Settled, OthersCalm;
    SettledIsCalm(s, t);
    var d := DecideAnswer(s, ids, t, q);
    if d.events == [] { NothingIsGood(s); } else {
      var e := d.events[0];
      LegalStep(s, e);
      AnswerCloses(s, e);
      ResumeSettles(Next(s, e), t, ids.run);
      ConsIsGood(s, e, [d.events[1]]);
    }
  }

  lemma AnswerCloses(s: State, e: Event)
    requires Inv(s) && e.QuestionAnswered? && Guard(s, e) && IsOpen(s, e.questionId)
    ensures var s' := Next(s, e); var t := s.questions[e.questionId].taskId;
            && t in s.tasks && s'.tasks == s.tasks && s'.runs == s.runs && s.tasks[t].workspaceConflict.None?
            && NoOpen(s', t) && NoPending(s', t)
  {
    hide TasksOk, RunsOk, ConfirmationsOk, QueueChecks, SlotChecks;
    var s' := Next(s, e);
    forall c | IsPending(s', c) ensures IsPending(s, c) {}
    forall q | IsOpen(s', q) ensures IsOpen(s, q) && q != e.questionId {}
  }

  lemma ResolveProgress(s: State, ids: FreshIds, c: Id, revision: nat, approve: bool)
    requires Ready(s) && Fresh(s, ids)
    ensures Good(s, DecideResolve(s, ids, c, revision, approve).events)
  {
    hide Inv, Settled, OthersCalm;
    var d := DecideResolve(s, ids, c, revision, approve);
    if d.events == [] { NothingIsGood(s); } else {
      var t := s.confirmations[c].taskId;
      SettledIsCalm(s, t);
      var e := d.events[0];
      LegalStep(s, e);
      ResolveClears(s, e);
      var s' := Next(s, e);
      if approve {
        ResumeSettles(s', t, ids.run);
      } else {
        var paused := d.events[1];
        ConclusiveSettles(s', paused);
        OneIsGood(s', paused);
      }
      ConsIsGood(s, e, [d.events[1]]);
    }
  }

  lemma ResolveClears(s: State, e: Event)
    requires Inv(s) && e.ApprovalResolved? && Guard(s, e) && IsPending(s, e.confirmationId)
    ensures var s' := Next(s, e); var t := s.confirmations[e.confirmationId].taskId;
            && s'.tasks == s.tasks && s'.runs == s.runs && s.tasks[t].workspaceConflict.None?
            && NoOpen(s', t) && NoPending(s', t)
  {
    hide TasksOk, RunsOk, QueueChecks, SlotChecks;
    var s' := Next(s, e);
    var c := e.confirmationId;
    forall x | IsPending(s', x) ensures IsPending(s, x) && s.confirmations[x].taskId != s.confirmations[c].taskId {
      assert x != c;
      assert !Collide(s.confirmations[c], s.confirmations[x]);
    }
    forall q | IsOpen(s', q) ensures IsOpen(s, q) {}
  }

  lemma ConflictProgress(s: State, t: Id, paths: set<string>, reason: string)
    requires Ready(s) && t in s.tasks && paths != {}
    ensures Good(s, DecideConflict(s, t, paths, reason).events)
  {
    hide Inv, OthersCalm;
    SettledIsCalm(s, t);
    var d := DecideConflict(s, t, paths, reason);
    if d.events == [] { NothingIsGood(s); } else {
      var e, awaiting := d.events[0], d.events[1];
      LegalStep(s, e);
      ConclusiveSettles(Next(s, e), awaiting);
      OneIsGood(Next(s, e), awaiting);
      ConsIsGood(s, e, [awaiting]);
    }
  }

  lemma AuthorizeProgress(s: State, ids: FreshIds, t: Id, tier: PolicyTier, fingerprint: string, labels: Labels)
    requires Ready(s) && Fresh(s, ids) && t in s.tasks
    ensures Good(s, DecideAuthorize(s, ids, t, tier, fingerprint, labels).events)
  {
    hide Inv, Settled, Matches, Good;
    var d := DecideAuthorize(s, ids, t, tier, fingerprint, labels);
    if d.events == [] { NothingIsGood(s); }
    else if |d.events| == 1 { AnnotationProgress(s, d.events[0]); }
    else if |d.events| == 2 { ConsumedCase(s, t, d.events[0], d.events[1]); }
    else { RequestedCase(s, t, d.events[0], d.events[1]); }
  }

  lemma ConsumedCase(s: State, t: Id, policy: Event, e: Event)
    requires Ready(s) && policy.PolicyDecisionRecorded? && e.ApprovalConsumed? && Legal(s, e)
    ensures Good(s, [policy, e])
  {
    hide Inv, Settled;
    AnnotationKeepsCalm(s, policy);
    PolicyKeeps(s, policy);
    ConsumeProgress(Next(s, policy), e);
    ConsIsGood(s, policy, [e]);
    assert [policy] + [e] == [policy, e];
  }

  lemma RequestedCase(s: State, t: Id, policy: Event, e: Event)
    requires Ready(s) && policy.PolicyDecisionRecorded? && e.ApprovalRequested? && e.taskId == t
    requires t in s.tasks && s.tasks[t].state == Running && s.tasks[t].activeRunId.Some?
    requires e.confirmationId !in s.confirmations && e.revision == s.tasks[t].revision
    requires forall d :: d in s.confirmations ==> !Matches(s.confirmations[d], t, e.revision, e.fingerprint, Approved)
    ensures Good(s, [policy, e, AwaitingUser(t, s.tasks[t].activeRunId.value)])
  {
    hide Inv, Settled, Matches, NoPending;
    AnnotationKeepsCalm(s, policy);
    PolicyKeeps(s, policy);
    var s' := Next(s, policy);
    var awaiting := AwaitingUser(t, s.tasks[t].activeRunId.value);
    RunningIsClear(s', t);
    RequestProgress(s', e, awaiting);
    ConsIsGood(s, policy, [e, awaiting]);
    assert [policy] + [e, awaiting] == [policy, e, awaiting];
  }

  lemma PolicyKeeps(s: State, e: Event)
    requires e.PolicyDecisionRecorded?
    ensures Guard(s, e) && Next(s, e) == s.(seqNo := s.seqNo + 1)
  {
  }

  lemma RunningIsClear(s: State, t: Id)
    requires Settled(s) && t in s.tasks && s.tasks[t].state == Running
    ensures NoPending(s, t) && s.tasks[t].workspaceConflict.None?
  {
    hide NoPending;
    assert CalmTask(s, t);
  }

  lemma ConsumeProgress(s: State, e: Event)
    requires Ready(s) && e.ApprovalConsumed? && Legal(s, e)
    ensures Good(s, [e])
  {
    hide Inv, OthersCalm;
    SettledIsCalm(s, e.taskId);
    LegalStep(s, e);
    var s' := Next(s, e);
    forall c | IsPending(s', c) ensures IsPending(s, c) {}
    forall u | u in s'.tasks ensures CalmTask(s', u) { assert CalmTask(s, u); }
    OneIsGood(s, e);
  }

  lemma RequestProgress(s: State, e: Event, awaiting: Event)
    requires Ready(s) && e.ApprovalRequested? && Legal(s, e) && e.taskId in s.tasks
    requires s.tasks[e.taskId].activeRunId.Some?
    requires awaiting == AwaitingUser(e.taskId, s.tasks[e.taskId].activeRunId.value)
    ensures Good(s, [e, awaiting])
  {
    hide Inv, OthersCalm, NoPending, Settled;
    SettledIsCalm(s, e.taskId);
    LegalStep(s, e);
    ConclusiveSettles(Next(s, e), awaiting);
    OneIsGood(Next(s, e), awaiting);
    ConsIsGood(s, e, [awaiting]);
  }

  // ------------------------------------------------- leaving the slot, then the queue

  ghost predicate Leaves(e: Event) {
    e.TaskCompleted? || e.TaskFailed? || e.TaskCancelled?
  }

  /** After a task left, nothing but the empty slot may be unsettled. */
  lemma LeaveFacts(s: State, e: Event)
    requires Ready(s) && Legal(s, e) && Guard(s, e) && Leaves(e)
    ensures var s' := Next(s, e); var t := e.taskId;
            && t in s'.tasks && Terminal(s'.tasks[t].state)
            && s'.active == (if s.active == Some(t) then None else s.active)
            && (s.active == Some(t) || s.queue == [] ==> s'.queue == s.queue)
            && s'.runs.Keys == s.runs.Keys
  {
    hide TasksOk, RunsOk, QuestionsOk, ConfirmationsOk, NoOpen, NoPending, Settled, Without;
  }

  lemma AllCalm(s: State, t: Id)
    requires Inv(s) && OthersCalm(s, t) && t in s.tasks && Terminal(s.tasks[t].state)
    ensures forall u :: u in s.tasks ==> CalmTask(s, u)
  {
    TaskFacts(s, t);
    hide Inv, TaskOk, NoPending;
  }

  lemma LeaveProgress(s: State, ids: FreshIds, e: Event)
    requires Ready(s) && Fresh(s, ids) && Legal(s, e) && Guard(s, e) && Leaves(e)
    ensures Good(s, [e] + if s.active == Some(e.taskId) then StartNext(s, ids) else [])
  {
    hide Inv, OthersCalm, CalmTask, Legal, Guard, Next;
    SettledIsCalm(s, e.taskId);
    LegalStep(s, e);
    LeaveFacts(s, e);
    var s' := Next(s, e);
    AllCalm(s', e.taskId);
    if s.active == Some(e.taskId) && s.queue != [] {
      HeadFacts(s, e);
      StartProgress(s', s.queue[0], ids.run);
      ConsIsGood(s, e, StartNext(s, ids));
    } else {
      OneIsGood(s, e);
      assert [e] + [] == [e];
    }
  }

  /** The head of the queue exists, is not the leaving task and keeps its revision. */
  lemma HeadFacts(s: State, e: Event)
    requires Ready(s) && Legal(s, e) && Guard(s, e) && Leaves(e) && s.active == Some(e.taskId) && s.queue != []
    ensures var h := s.queue[0];
            h in s.tasks && h != e.taskId && h in Next(s, e).tasks && Next(s, e).tasks[h] == s.tasks[h]
  {
    hide TasksOk, RunsOk, QuestionsOk, ConfirmationsOk, NoOpen, NoPending, Settled, Without, Next;
    var h := s.queue[0];
    assert h in s.queue;
    ShapeOfTasks(s, e);
  }

  lemma StartProgress(s: State, t: Id, r: Id)
    requires Inv(s) && s.active == None && s.queue != [] && t == s.queue[0] && r !in s.runs && t in s.tasks
    requires forall u :: u in s.tasks ==> CalmTask(s, u)
    ensures Good(s, [TaskStarted(t, r, s.tasks[t].revision)])
  {
    hide Inv, OthersCalm, NoPending, Without, CalmTask;
    var e := TaskStarted(t, r, s.tasks[t].revision);
    assert OthersCalm(s, t) by { EveryoneCalm(s, t); }
    TaskFacts(s, t);
    QueueFacts(s, t);
    PendingFacts(s, t);
    LegalStep(s, e);
    StartedFacts(s, e);
    Closing(Next(s, e), t);
    OneIsGood(s, e);
  }

  lemma EveryoneCalm(s: State, t: Id)
    requires forall u :: u in s.tasks ==> CalmTask(s, u)
    ensures OthersCalm(s, t)
  {
    hide CalmTask;
  }

  lemma StartedFacts(s: State, e: Event)
    requires e.TaskStarted? && Guard(s, e)
    ensures var s' := Next(s, e); var t := e.taskId;
            && t in s'.tasks && s'.tasks[t].state == Running && s'.tasks[t].activeRunId == Some(e.runId)
            && s'.tasks[t].workspaceConflict == s.tasks[t].workspaceConflict
            && e.runId in s'.runs && s'.runs[e.runId].state == RunRunning
            && (NoPending(s, t) ==> NoPending(s', t))
  {
    hide Without;
    forall c | IsPending(Next(s, e), c) ensures IsPending(s, c) {}
  }

  lemma FinishProgress(s: State, rows: seq<Artifact>, ids: FreshIds, t: Id, completed: bool, detail: string,
                       evidenceIds: seq<Id>)
    requires Ready(s) && Fresh(s, ids) && t in s.tasks
    ensures Good(s, DecideFinish(s, rows, ids, t, completed, detail, evidenceIds).events)
  {
    hide Inv, Settled, NoPending, NoOpen, ValidateCompletion, StartNext;
    var d := DecideFinish(s, rows, ids, t, completed, detail, evidenceIds);
    if d.events == [] { NothingIsGood(s); } else {
      TaskFacts(s, t);
      PendingFacts(s, t);
      if s.tasks[t].state == Running { RunningIsClear(s, t); }
      var e := d.events[0];
      LegalPassesGuard(s, e);
      LeaveProgress(s, ids, e);
      assert d.events == [e] + StartNext(s, ids);
    }
  }

  /** Cancelling is safe whenever the task has no open question. */
  lemma CancelProgress(s: State, ids: FreshIds, t: Id)
    requires Ready(s) && Fresh(s, ids) && t in s.tasks && NoOpen(s, t)
    ensures Good(s, DecideCancel(s, ids, t).events)
  {
    hide Inv, Settled, NoPending, NoOpen, StartNext;
    var d := DecideCancel(s, ids, t);
    if d.events == [] { NothingIsGood(s); } else {
      var e := TaskCancelled(t);
      LegalPassesGuard(s, e);
      LeaveProgress(s, ids, e);
    }
  }

  lemma MovedIsPermutation(queue: seq<Id>, t: Id, operation: QueueOperation, anchor: Option<Id>)
    requires t in queue && MovedQueue(queue, t, operation, anchor).Some?
    ensures multiset(MovedQueue(queue, t, operation, anchor).value) == multiset(queue)
  {
    var rest := Without(queue, t);
    assert multiset([t] + rest) == multiset(queue) && multiset(rest + [t]) == multiset(queue);
  }

  lemma MoveProgress(s: State, t: Id, operation: QueueOperation, anchor: Option<Id>)
    requires Ready(s)
    ensures Good(s, DecideMove(s, t, operation, anchor).events)
  {
    hide Inv, MovedQueue, OthersCalm, CalmTask;
    var d := DecideMove(s, t, operation, anchor);
    if d.events == [] { NothingIsGood(s); } else {
      MovedIsPermutation(s.queue, t, operation, anchor);
      var e := d.events[0];
      SettledIsCalm(s, t);
      LegalStep(s, e);
      ReorderSettles(s, e);
      OneIsGood(s, e);
    }
  }

  lemma ReorderedIs(s: State, e: Event)
    requires e.QueueReordered? && Guard(s, e)
    ensures Next(s, e) == s.(queue := e.taskIds, seqNo := s.seqNo + 1)
  {
  }

  lemma ReorderSettles(s: State, e: Event)
    requires Ready(s) && e.QueueReordered? && multiset(e.taskIds) == multiset(s.queue) && Guard(s, e)
    ensures Settled(Next(s, e))
  {
    ReorderedIs(s, e);
    QueueFacts(s, e.taskId);
    DistinctFromMultiset(e.taskIds, s.queue);
    hide Inv, Guard, Next, QueueChecks, SlotChecks;
    var s' := Next(s, e);
    assert s.queue == [] ==> |multiset(e.taskIds)| == 0;
    forall u | u in s'.tasks ensures CalmTask(s', u) {
      assert CalmTask(s, u);
      SamePending(s, s', u);
    }
  }

  lemma SamePending(s: State, s': State, t: Id)
    requires s'.confirmations == s.confirmations && s'.tasks == s.tasks
    ensures NoPending(s, t) == NoPending(s', t)
  {
    forall c ensures IsPending(s', c) == IsPending(s, c) {}
  }

  lemma RecoverProgress(s: State)
    requires Ready(s)
    ensures Good(s, DecideRecover(s).events)
  {
    hide Inv, Settled, Good, Recovering, Legal, Guard, Next, OthersCalm;
    var d := DecideRecover(s);
    if d.events == [] { NothingIsGood(s); } else {
      var t, r := s.active.value, s.tasks[s.active.value].activeRunId.value;
      var e, paused := RunInterrupted(t, r), TaskPaused(t, r, NEEDS_RESUME);
      AtWork(s, t, r);
      InterruptIsLegal(s, e);
      LegalStep(s, e);
      InterruptLeaves(s, e);
      var s' := Next(s, e);
      if s.tasks[t].session.Some? {
        var boundary := RecoveryBoundary(t, s.tasks[t].session.value.id, r);
        BoundaryIsLegal(s, s', e, boundary);
        LegalStep(s', boundary);
        BoundaryLeaves(s', boundary);
        PausedCloses(Next(s', boundary), paused);
        ConsIsGood(s', boundary, [paused]);
        assert [boundary] + [paused] == [boundary, paused];
        ConsIsGood(s, e, [boundary, paused]);
        assert d.events == [e] + [boundary, paused];
      } else {
        PausedCloses(s', paused);
        ConsIsGood(s, e, [paused]);
        assert d.events == [e] + [paused];
      }
    }
  }

  lemma AtWork(s: State, t: Id, r: Id)
    requires Ready(s) && s.active == Some(t) && t in s.tasks
    requires Executing(s.tasks[t].state) && s.tasks[t].activeRunId == Some(r)
    ensures Recovering(s, t, r) && OthersCalm(s, t)
  {
    hide Inv, Settled, NoOpen, NoPending, OthersCalm, RunListOk, HistoryOk;
    SettledIsCalm(s, t);
    TaskFacts(s, t);
    PendingFacts(s, t);
    OpenFacts(s, t);
    if s.tasks[t].state == Running { RunningIsClear(s, t); }
  }

  lemma InterruptIsLegal(s: State, e: Event)
    requires Inv(s) && e.RunInterrupted? && Recovering(s, e.taskId, e.runId)
    ensures Legal(s, e)
  {
    hide Inv, NoOpen, NoPending, RunListOk, HistoryOk;
    TaskFacts(s, e.taskId);
  }

  lemma BoundaryIsLegal(s: State, s': State, e: Event, boundary: Event)
    requires Inv(s') && e.RunInterrupted? && Guard(s, e) && s' == Next(s, e) && boundary.RecoveryBoundary?
    requires boundary.taskId == e.taskId && boundary.runId == e.runId && Recovering(s', e.taskId, e.runId)
    requires e.taskId in s.tasks && s.tasks[e.taskId].session.Some?
             && boundary.sessionId == s.tasks[e.taskId].session.value.id
    ensures Legal(s', boundary)
  {
    hide Inv, NoOpen, NoPending, RunListOk, HistoryOk;
  }

  /** The executing task of a recovery, with nothing waiting for the user. */
  ghost predicate Recovering(s: State, t: Id, r: Id) {
    && t in s.tasks && Executing(s.tasks[t].state) && s.tasks[t].activeRunId == Some(r)
    && NoOpen(s, t) && NoPending(s, t) && s.tasks[t].workspaceConflict.None?
  }

  lemma InterruptLeaves(s: State, e: Event)
    requires e.RunInterrupted? && Guard(s, e) && Recovering(s, e.taskId, e.runId)
    ensures Recovering(Next(s, e), e.taskId, e.runId)
  {
    forall c ensures IsPending(Next(s, e), c) == IsPending(s, c) {}
    forall q ensures IsOpen(Next(s, e), q) == IsOpen(s, q) {}
  }

  lemma BoundaryLeaves(s: State, e: Event)
    requires e.RecoveryBoundary? && Guard(s, e) && Recovering(s, e.taskId, e.runId)
    ensures Recovering(Next(s, e), e.taskId, e.runId)
  {
    forall c ensures IsPending(Next(s, e), c) == IsPending(s, c) {}
    forall q ensures IsOpen(Next(s, e), q) == IsOpen(s, q) {}
  }

  lemma PausedCloses(s: State, e: Event)
    requires Inv(s) && e.TaskPaused? && Recovering(s, e.taskId, e.runId) && OthersCalm(s, e.taskId)
    ensures Good(s, [e])
  {
    hide Inv, NoOpen, NoPending, OthersCalm, Settled;
    TaskFacts(s, e.taskId);
    ConclusiveSettles(s, e);
    OneIsGood(s, e);
  }

  lemma SubmitProgress(s: State, ids: FreshIds, spec: TaskSpec)
    requires Ready(s) && Fresh(s, ids)
    ensures Good(s, DecideSubmit(s, ids, spec).events)
  {
    hide Inv, Settled, Good, Legal, Guard, Next, Fresh, FirstFast, CalmTask;
    var d := DecideSubmit(s, ids, spec);
    var created, enqueued := d.events[0], d.events[1];
    var s1 := SubmissionCreated(s, ids, spec);
    var s2 := SubmissionEnqueued(s, s1, ids, spec, enqueued.position);
    if s.active == None {
      FreshRun(s, ids);
      StartProgress(s2, ids.task, ids.run);
      var started := TaskStarted(ids.task, ids.run, 1);
      ConsIsGood(s1, enqueued, [started]);
      assert [enqueued] + [started] == [enqueued, started];
      ConsIsGood(s, created, [enqueued, started]);
      assert d.events == [created] + [enqueued, started];
    } else {
      CalmIsSettled(s2);
      OneIsGood(s1, enqueued);
      ConsIsGood(s, created, [enqueued]);
      assert d.events == [created] + [enqueued];
    }
  }

  lemma FreshRun(s: State, ids: FreshIds)
    requires Fresh(s, ids)
    ensures ids.run !in s.runs
  {
  }

  lemma CalmIsSettled(s: State)
    requires forall u :: u in s.tasks ==> CalmTask(s, u)
    requires s.active.Some?
    ensures Settled(s)
  {
    hide CalmTask;
  }

  lemma SubmissionCreated(s: State, ids: FreshIds, spec: TaskSpec) returns (s1: State)
    requires Ready(s) && Fresh(s, ids)
    ensures var created := TaskCreated(ids.task, spec, 1);
      Legal(s, created) && Guard(s, created) && s1 == Next(s, created)
    ensures Inv(s1) && OthersCalm(s1, ids.task)
    ensures s1.tasks == s.tasks[ids.task := NewTask(spec, 1, s.seqNo + 1)]
    ensures s1.queue == s.queue && s1.active == s.active && s1.runs == s.runs
    ensures ids.task !in s.queue && s.active != Some(ids.task) && (s.active == None ==> s.queue == [])
  {
    hide Inv, CalmTask, OthersCalm, NewTask;
    SettledIsCalm(s, ids.task);
    QueueFacts(s, ids.task);
    LegalStep(s, TaskCreated(ids.task, spec, 1));
    s1 := Next(s, TaskCreated(ids.task, spec, 1));
  }

  lemma SubmissionEnqueued(s: State, s1: State, ids: FreshIds, spec: TaskSpec, position: nat) returns (s2: State)
    requires Inv(s1) && OthersCalm(s1, ids.task)
    requires s1.tasks == s.tasks[ids.task := NewTask(spec, 1, s.seqNo + 1)]
    requires s1.queue == s.queue && s1.active == s.active && s1.runs == s.runs
    requires ids.task !in s.queue && s.active != Some(ids.task) && (s.active == None ==> s.queue == [])
    ensures var enqueued := TaskEnqueued(ids.task, position);
      Legal(s1, enqueued) && Guard(s1, enqueued) && s2 == Next(s1, enqueued)
    ensures Inv(s2) && s2.active == s.active && s2.runs == s.runs && s2.tasks == s1.tasks
    ensures s.active == None ==> s2.queue == [ids.task]
    ensures forall u :: u in s2.tasks ==> CalmTask(s2, u)
  {
    hide Inv, Next, OthersCalm, CalmTask;
    var enqueued := TaskEnqueued(ids.task, position);
    LegalStep(s1, enqueued);
    EnqueuedFacts(s1, enqueued);
    s2 := Next(s1, enqueued);
    forall u | u in s2.tasks ensures CalmTask(s2, u) {
      EnqueuedCalm(s2, ids.task, u);
    }
  }

  /** An inserted element is there, and alone in what was empty. */
  lemma Inserted(queue: seq<Id>, t: Id, position: nat)
    requires t !in queue
    ensures t in InsertAt(Without(queue, t), position, t)
    ensures queue == [] ==> InsertAt(Without(queue, t), position, t) == [t]
  {
    hide InsertAt;
    assert t in multiset(InsertAt(Without(queue, t), position, t));
    if queue == [] {
      assert Without(queue, t) == [];
      InsertedAlone(position, t);
    }
  }

  lemma InsertedAlone(position: nat, t: Id)
    ensures InsertAt([], position, t) == [t]
  {
    hide InsertAt;
    var r := InsertAt([], position, t);
    assert |r| == 1;
    assert multiset(r) == multiset{t};
    assert r[0] in multiset(r);
  }

  lemma EnqueuedFacts(s: State, e: Event)
    requires e.TaskEnqueued? && Guard(s, e) && e.taskId !in s.queue && s.tasks[e.taskId].state == Queued
    ensures var s' := Next(s, e);
            && s'.tasks == s.tasks && s'.runs == s.runs && s'.active == s.active && e.taskId in s'.queue
            && (s.queue == [] ==> s'.queue == [e.taskId])
  {
    hide InsertAt, Without;
    Inserted(s.queue, e.taskId, e.position);
    assert s.tasks[e.taskId := s.tasks[e.taskId]] == s.tasks;
  }

  lemma EnqueuedCalm(s: State, t: Id, u: Id)
    requires OthersCalm(s, t) && t in s.tasks && t in s.queue && s.tasks[t].state == Queued
             && s.tasks[t].activeRunId.None?
    requires u in s.tasks
    ensures CalmTask(s, u)
  {
  }

  // ---------------------------------------------------------------- the main theorem

  /** The one accepted decision whose events cannot be applied. */
  predicate CancelsOpenQuestion(s: State, sig: Signal) {
    && sig.Cancel?
    && sig.taskId in s.tasks
    && s.tasks[sig.taskId].revision == sig.expectedRevision
    && HasOpenQuestion(s, sig.taskId)
  }

  ghost predicate Asked(s: State, id: Id, ids: FreshIds, sig: Signal) {
    Ready(s) && Fresh(s, ids) && id !in s.questions && !RefusedUnrecorded(s, sig)
  }

  lemma DecisionIsGood(s: State, rows: seq<Artifact>, id: Id, ids: FreshIds, sig: Signal)
    requires Asked(s, id, ids, sig) && !CancelsOpenQuestion(s, sig)
    ensures Good(s, Decide(s, rows, id, ids, sig).events)
  {
    hide Inv, Settled, Good, DecideSubmit, DecideRevise, DecideResume, DecideAnswer, DecideCancel;
    hide DecideMove, DecideResolve, DecideAuthorize, DecideConflict, DecideFinish, DecideRecover, HasOpenQuestion;
    NothingIsGood(s);
    var d := Decide(s, rows, id, ids, sig);
    if d.events != [] {
      match sig
      case Submit(spec) => SubmitProgress(s, ids, spec);
      case RequestPause(t, _) => PauseProgress(s, t);
      case Revise(t, _, spec) => ReviseProgress(s, t, spec);
      case Resume(t, _) => ResumeProgress(s, ids, t);
      case AnswerQuestion(t, _, q) => AnswerProgress(s, ids, t, q);
      case Cancel(t, _) => NoOpenMeaning(s, t); CancelProgress(s, ids, t);
      case MoveQueue(t, operation, anchor) => MoveProgress(s, t, operation, anchor);
      case ResolveApproval(c, revision, approve) => ResolveProgress(s, ids, c, revision, approve);
      case SafeBoundary(t, reason) => SafeBoundaryProgress(s, t, reason);
      case AskQuestion(t, question) => AskProgress(s, t, id, question);
      case BindSession(_, _, _, _) => AnnotationProgress(s, d.events[0]);
      case Authorize(t, tier, fingerprint, labels) => AuthorizeProgress(s, ids, t, tier, fingerprint, labels);
      case RecordArtifact(_, _, _, _) => AnnotationProgress(s, d.events[0]);
      case ReportConflict(t, paths, reason) => ConflictProgress(s, t, ConflictPaths(paths), reason);
      case Complete(t, summary, evidenceIds) => FinishProgress(s, rows, ids, t, true, summary, evidenceIds);
      case Fail(t, error) => FinishProgress(s, rows, ids, t, false, error, []);
      case Recover => RecoverProgress(s);
    }
  }

  lemma CancelDecided(s: State, rows: seq<Artifact>, id: Id, ids: FreshIds, sig: Signal)
    requires CancelsOpenQuestion(s, sig) && !Terminal(s.tasks[sig.taskId].state)
    ensures var d := Decide(s, rows, id, ids, sig);
            d.result == Accepted(sig.taskId) && d.events != [] && d.events[0] == TaskCancelled(sig.taskId)
  {
    hide HasOpenQuestion;
  }

  lemma OpenQuestionWaits(s: State, t: Id)
    requires Inv(s) && HasOpenQuestion(s, t)
    ensures |OpenQuestions(s.questions, t)| == 1 && t in s.tasks && s.tasks[t].state == Awaiting
  {
    hide TasksOk, RunsOk, ConfirmationsOk, QueueChecks, SlotChecks;
    AtMostOneOpen(s, t);
    var q :| q in OpenQuestions(s.questions, t);
    assert IsOpen(s, q);
  }

  /** Cancelling a task with an open question persists an event that throws when applied. */
  lemma CancelWithOpenQuestionThrows(s: State, rows: seq<Artifact>, id: Id, ids: FreshIds, sig: Signal)
    requires Inv(s) && CancelsOpenQuestion(s, sig)
    ensures var d := Decide(s, rows, id, ids, sig);
            && d.result == Accepted(sig.taskId)
            && ApplyAll(s, s.seqNo + 1, d.events).Threw?
  {
    hide Inv, Decide, Apply, HasOpenQuestion;
    OpenQuestionWaits(s, sig.taskId);
    CancelStep(s, sig.taskId);
    CancelDecided(s, rows, id, ids, sig);
  }

  lemma CancelStep(s: State, t: Id)
    requires Inv(s) && t in s.tasks && |OpenQuestions(s.questions, t)| == 1
    ensures Apply(s, s.seqNo + 1, TaskCancelled(t)).Threw?
  {
    hide Inv, QueueChecks, SlotChecks;
    if Guard(s, TaskCancelled(t)) {
      var s' := Effect(s, s.seqNo + 1, TaskCancelled(t)).(seqNo := s.seqNo + 1);
      assert OpenQuestions(s'.questions, t) == OpenQuestions(s.questions, t);
      assert !TaskChecks(s', t);
    }
  }

  /** From every settled state, the events of every decision apply one by one, past every guard
      and every invariant check, and lead to a settled state again. The only exception is an
      accepted cancellation of a task with an open question. */
  lemma DecisionApplies(s: State, rows: seq<Artifact>, id: Id, ids: FreshIds, sig: Signal)
    requires Asked(s, id, ids, sig)
    ensures var d := Decide(s, rows, id, ids, sig);
            var r := ApplyAll(s, s.seqNo + 1, d.events);
            && (r.Ok? <==> !CancelsOpenQuestion(s, sig))
            && (r.Ok? ==> Ready(r.state) && r.state.seqNo == s.seqNo + |d.events|)
            && (r.Ok? ==> LegalAll(s, d.events) && r.state == After(s, d.events))
  {
    hide Inv, Settled, Decide, ApplyAll, Fresh, RefusedUnrecorded, CancelsOpenQuestion;
    if CancelsOpenQuestion(s, sig) {
      CancelWithOpenQuestionThrows(s, rows, id, ids, sig);
    } else {
      DecisionIsGood(s, rows, id, ids, sig);
      LegalAllApplies(s, Decide(s, rows, id, ids, sig).events);
    }
  }

  ghost predicate AllWellFormed(events: seq<Event>) {
    forall e :: e in events ==> WellFormed(e)
  }

  lemma RevisionsArePositive(s: State)
    requires Inv(s)
    ensures forall t :: t in s.tasks ==> s.tasks[t].revision >= 1
    ensures forall t :: t in s.tasks && s.tasks[t].workspaceConflict.Some? ==> s.tasks[t].workspaceConflict.value != {}
  {
    hide QueueChecks, SlotChecks, RunsOk, QuestionsOk, ConfirmationsOk, RunListOk, ActiveRunOk;
    forall t | t in s.tasks ensures s.tasks[t].revision >= 1 { assert TaskOk(s, t); }
  }

  /** What an internal signal carries does not meet the schema of the event it becomes. */
  predicate Malformed(sig: Signal) {
    match sig
    case SafeBoundary(_, reason) => reason == ""
    case AskQuestion(_, question) => question == ""
    case BindSession(_, _, sessionId, sessionFile) => sessionId == "" || sessionFile == Some("")
    case Authorize(_, _, fingerprint, labels) => !IsFingerprint(fingerprint) || !Labelled(labels)
    case RecordArtifact(_, _, _, summary) => summary == ""
    case ReportConflict(_, _, reason) => reason == ""
    case Complete(_, summary, evidenceIds) => summary == "" || !NoDuplicates(evidenceIds)
    case Fail(_, error) => error == ""
    case _ => false
  }

  /** The task is at work in the way the internal signal expects. */
  ghost predicate Applicable(s: State, rows: seq<Artifact>, sig: Signal) {
    && NamesTask(sig) && sig.taskId in s.tasks
    && var task := s.tasks[sig.taskId];
       match sig
       case SafeBoundary(_, _) => task.state == PauseWanted
       case AskQuestion(_, _) => task.state == Running
       case BindSession(_, r, _, _) => task.activeRunId == Some(r)
       case Authorize(_, _, _, _) => task.state == Running
       case RecordArtifact(_, _, r, _) => task.activeRunId == Some(r)
       case ReportConflict(_, _, _) => task.state == Running
       case Complete(t, _, evidenceIds) =>
         && Executing(task.state) && task.activeRunId.Some?
         && Justified(rows, t, task.activeRunId.value, evidenceIds)
       case Fail(_, _) => Executing(task.state)
       case _ => false
  }

  /** A bound session has a name. */
  ghost predicate SessionsNamed(s: State) {
    forall t :: t in s.tasks && s.tasks[t].session.Some? ==> s.tasks[t].session.value.id != ""
  }

  lemma NothingIllFormed(events: seq<Event>)
    requires events == []
    ensures AllWellFormed(events)
  {
  }

  lemma HeadDecides(e: Event, rest: seq<Event>)
    requires AllWellFormed(rest)
    ensures AllWellFormed([e] + rest) <==> WellFormed(e)
  {
    assert e in [e] + rest;
  }

  lemma StartIsWellFormed(s: State, ids: FreshIds)
    requires Inv(s)
    ensures AllWellFormed(StartNext(s, ids))
  {
    hide Inv;
    RevisionsArePositive(s);
  }

  lemma ExecutingOwns(s: State, t: Id)
    requires Inv(s) && t in s.tasks
    ensures s.tasks[t].activeRunId.Some? <==> Executing(s.tasks[t].state)
    ensures Executing(s.tasks[t].state) ==> s.active == Some(t)
  {
    hide Inv, RunListOk, HistoryOk, ActiveRunOk;
    TaskFacts(s, t);
  }

  lemma FinishIsWellFormed(s: State, rows: seq<Artifact>, ids: FreshIds, t: Id, completed: bool, detail: string,
                           evidenceIds: seq<Id>)
    requires Inv(s) && t in s.tasks && ValidTable(rows)
    ensures AllWellFormed(DecideFinish(s, rows, ids, t, completed, detail, evidenceIds).events)
            <==> !((detail == "" || (completed && !NoDuplicates(evidenceIds)))
                   && Executing(s.tasks[t].state) && s.tasks[t].activeRunId.Some?
                   && (completed ==> Justified(rows, t, s.tasks[t].activeRunId.value, evidenceIds)))
  {
    hide Inv, ValidateCompletion, NoDuplicates, StartNext, Justified, ValidTable, AllWellFormed;
    ExecutingOwns(s, t);
    var d := DecideFinish(s, rows, ids, t, completed, detail, evidenceIds);
    StartIsWellFormed(s, ids);
    if s.tasks[t].activeRunId.Some? && Executing(s.tasks[t].state) {
      GateMeaning(rows, t, s.tasks[t].activeRunId.value, evidenceIds);
    }
    if d.events == [] {
      NothingIllFormed(d.events);
    } else {
      HeadDecides(d.events[0], StartNext(s, ids));
    }
  }

  lemma MoveIsWellFormed(s: State, t: Id, operation: QueueOperation, anchor: Option<Id>)
    requires Inv(s)
    ensures AllWellFormed(DecideMove(s, t, operation, anchor).events)
  {
    hide Inv, MovedQueue, NoDuplicates;
    QueueFacts(s, t);
    if t in s.queue && MovedQueue(s.queue, t, operation, anchor).Some? {
      MovedIsPermutation(s.queue, t, operation, anchor);
      DistinctFromMultiset(MovedQueue(s.queue, t, operation, anchor).value, s.queue);
    }
  }

  /** Commands about one task. */
  lemma TaskCommandIsWellFormed(s: State, rows: seq<Artifact>, id: Id, ids: FreshIds, sig: Signal)
    requires Inv(s)
    requires sig.Resume? || sig.AnswerQuestion? || sig.Cancel? || sig.Revise? || sig.RequestPause?
    ensures AllWellFormed(Decide(s, rows, id, ids, sig).events)
  {
    hide Inv, HasOpenQuestion, HasPending, StartNext;
    RevisionsArePositive(s);
    StartIsWellFormed(s, ids);
  }

  /** Commands and signals about the queue and the slot. */
  lemma OtherCommandIsWellFormed(s: State, rows: seq<Artifact>, id: Id, ids: FreshIds, sig: Signal)
    requires Inv(s) && SessionsNamed(s) && (sig.Submit? || sig.ResolveApproval? || sig.Recover? || sig.MoveQueue?)
    ensures AllWellFormed(Decide(s, rows, id, ids, sig).events)
  {
    hide Inv, FirstFast, DecideMove;
    RevisionsArePositive(s);
    if sig.MoveQueue? { MoveIsWellFormed(s, sig.taskId, sig.operation, sig.anchor); }
  }

  /** Signals that become one event with their text. */
  lemma NoteIsWellFormed(s: State, rows: seq<Artifact>, id: Id, ids: FreshIds, sig: Signal)
    requires Ready(s)
    requires sig.SafeBoundary? || sig.AskQuestion? || sig.BindSession? || sig.RecordArtifact?
    ensures AllWellFormed(Decide(s, rows, id, ids, sig).events) <==> !(Malformed(sig) && Applicable(s, rows, sig))
  {
    hide Inv, Settled, HasOpenQuestion, NoOpen, NoPending, AllWellFormed;
    RevisionsArePositive(s);
    var t, d := sig.taskId, Decide(s, rows, id, ids, sig);
    if t in s.tasks {
      ExecutingOwns(s, t);
      OpenFacts(s, t);
      NoOpenMeaning(s, t);
    }
    NothingIllFormed([]);
    if d.events != [] {
      assert d.events == [d.events[0]] + [];
      HeadDecides(d.events[0], []);
    }
  }

  lemma ConflictIsWellFormed(s: State, rows: seq<Artifact>, id: Id, ids: FreshIds, sig: Signal)
    requires Inv(s) && sig.ReportConflict? && !RefusedUnrecorded(s, sig)
    ensures AllWellFormed(Decide(s, rows, id, ids, sig).events) <==> !(Malformed(sig) && Applicable(s, rows, sig))
  {
    hide Inv, ConflictPaths;
    var t, d := sig.taskId, Decide(s, rows, id, ids, sig);
    if t in s.tasks { ExecutingOwns(s, t); }
    if d.events != [] { HeadDecides(d.events[0], d.events[1..]); }
  }

  lemma CallIsWellFormed(s: State, rows: seq<Artifact>, id: Id, ids: FreshIds, sig: Signal)
    requires Ready(s) && sig.Authorize?
    ensures AllWellFormed(Decide(s, rows, id, ids, sig).events) <==> !(Malformed(sig) && Applicable(s, rows, sig))
  {
    hide Inv, Settled, NoPending, IsFingerprint, Labelled, FindConfirmation, DecideAuthorize, AllWellFormed;
    RevisionsArePositive(s);
    var t, d := sig.taskId, Decide(s, rows, id, ids, sig);
    NothingIllFormed([]);
    if t in s.tasks {
      ExecutingOwns(s, t);
      if s.tasks[t].state == Running {
        RunningIsClear(s, t);
        NothingPending(s, t, sig.fingerprint);
      }
      CallDecides(s, ids, t, sig.tier, sig.fingerprint, sig.labels);
      if d.events != [] { HeadDecides(d.events[0], d.events[1..]); }
    }
  }

  lemma CallDecides(s: State, ids: FreshIds, t: Id, tier: PolicyTier, fingerprint: string, labels: Labels)
    requires t in s.tasks && s.tasks[t].revision >= 1
    requires s.tasks[t].state == Running ==>
               && s.active == Some(t) && s.tasks[t].activeRunId.Some?
               && FindConfirmation(s, t, s.tasks[t].revision, fingerprint, Pending).None?
    ensures var events := DecideAuthorize(s, ids, t, tier, fingerprint, labels).events;
            && (events == [] <==> s.tasks[t].state != Running)
            && (events != [] ==>
                  && events[0].PolicyDecisionRecorded? && events[0].fingerprint == fingerprint
                  && events[0].labels == labels && events == [events[0]] + events[1..]
                  && AllWellFormed(events[1..]))
  {
    hide FindConfirmation, IsFingerprint, Labelled;
  }

  lemma NothingPending(s: State, t: Id, fingerprint: string)
    requires t in s.tasks && NoPending(s, t)
    ensures FindConfirmation(s, t, s.tasks[t].revision, fingerprint, Pending).None?
  {
    var pending := FindConfirmation(s, t, s.tasks[t].revision, fingerprint, Pending);
    assert pending.Some? ==> IsPending(s, pending.value);
  }

  lemma FinishSignalIsWellFormed(s: State, rows: seq<Artifact>, id: Id, ids: FreshIds, sig: Signal)
    requires Inv(s) && ValidTable(rows) && (sig.Complete? || sig.Fail?)
    ensures AllWellFormed(Decide(s, rows, id, ids, sig).events) <==> !(Malformed(sig) && Applicable(s, rows, sig))
  {
    hide Inv, NoDuplicates, DecideFinish, Justified, ValidTable;
    if sig.taskId in s.tasks {
      ExecutingOwns(s, sig.taskId);
      if sig.Complete? {
        FinishIsWellFormed(s, rows, ids, sig.taskId, true, sig.summary, sig.evidenceIds);
      } else {
        FinishIsWellFormed(s, rows, ids, sig.taskId, false, sig.error, []);
      }
    }
  }

  /** Every decided event satisfies the event schemas, unless an internal signal that does not meet them
      comes while its task is at work in the way it expects. */
  lemma DecisionIsWellFormed(s: State, rows: seq<Artifact>, id: Id, ids: FreshIds, sig: Signal)
    requires Asked(s, id, ids, sig) && SessionsNamed(s) && ValidTable(rows)
    ensures AllWellFormed(Decide(s, rows, id, ids, sig).events) <==> !(Malformed(sig) && Applicable(s, rows, sig))
  {
    hide Decide, NoDuplicates, AllWellFormed, Inv, Settled, Fresh, RefusedUnrecorded, SessionsNamed, ValidTable;
    if sig.Complete? || sig.Fail? {
      FinishSignalIsWellFormed(s, rows, id, ids, sig);
    } else if sig.Submit? || sig.ResolveApproval? || sig.Recover? || sig.MoveQueue? {
      OtherCommandIsWellFormed(s, rows, id, ids, sig);
    } else if sig.SafeBoundary? || sig.AskQuestion? || sig.BindSession? || sig.RecordArtifact? {
      NoteIsWellFormed(s, rows, id, ids, sig);
    } else if sig.ReportConflict? {
      ConflictIsWellFormed(s, rows, id, ids, sig);
    } else if sig.Authorize? {
      CallIsWellFormed(s, rows, id, ids, sig);
    } else {
      TaskCommandIsWellFormed(s, rows, id, ids, sig);
    }
  }

  lemma SessionStep(s: State, e: Event)
    requires Guard(s, e) && WellFormed(e) && SessionsNamed(s)
    ensures SessionsNamed(Next(s, e))
  {
    hide Guard, Next, WellFormed, RecordAfter;
    ShapeOfTasks(s, e);
    if e.taskId in s.tasks {
      ShapeOfRecord(s, e);
      SessionOfRecord(s.tasks[e.taskId], e);
    } else if e.taskId in Next(s, e).tasks {
      NewcomerHasNoSession(s, e);
    }
  }

  lemma SessionOfRecord(task: Task, e: Event)
    requires WellFormed(e) && (task.session.Some? ==> task.session.value.id != "")
    ensures RecordAfter(task, e).session.Some? ==> RecordAfter(task, e).session.value.id != ""
  {
  }

  lemma NewcomerHasNoSession(s: State, e: Event)
    requires Guard(s, e) && e.taskId !in s.tasks && e.taskId in Next(s, e).tasks
    ensures Next(s, e).tasks[e.taskId].session.None?
  {
  }

  /** Stored events only bind named sessions. */
  lemma {:induction false} SessionsStayNamed(s: State, events: seq<Event>)
    requires LegalAll(s, events) && AllWellFormed(events) && SessionsNamed(s)
    ensures SessionsNamed(After(s, events))
    decreases |events|
  {
    hide Legal, Guard, Next, WellFormed, SessionsNamed;
    if events != [] {
      SessionStep(s, events[0]);
      SessionsStayNamed(Next(s, events[0]), events[1..]);
    }
  }
}

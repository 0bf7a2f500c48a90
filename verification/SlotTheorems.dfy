/** What every reachable controller state guarantees about the active slot, waiting tasks and
    a task's own history. */
module SlotTheorems {
  import opened Protocol
  import opened Domain
  import opened Evidence
  import opened Decisions
  import opened Invariants
  import opened Progress
  import opened Controller

  /** An empty slot implies an empty queue; the queue holds exactly the queued tasks; the active
      task is exactly the one that runs, pauses or waits; at most one run is running, and it is
      the active task's active run. */
  lemma SlotDiscipline(sys: Sys)
    requires Reachable(sys)
    ensures sys.mem.active == None ==> sys.mem.queue == []
    ensures NoDuplicates(sys.mem.queue)
    ensures forall t :: t in sys.mem.queue <==> t in sys.mem.tasks && sys.mem.tasks[t].state == Queued
    ensures forall t :: t in sys.mem.tasks ==> (OwnsSlot(sys.mem.tasks[t].state) <==> sys.mem.active == Some(t))
    ensures forall r :: r in sys.mem.runs && sys.mem.runs[r].state == RunRunning ==>
              && sys.mem.active == Some(sys.mem.runs[r].taskId)
              && sys.mem.runs[r].taskId in sys.mem.tasks
              && sys.mem.tasks[sys.mem.runs[r].taskId].activeRunId == Some(r)
  {
    hide Reachable, Justified;
    ReachableIsOk(sys);
    hide QuestionsOk, ConfirmationsOk, HistoryOk, RunListOk, ActiveRunOk;
    forall t | t in sys.mem.tasks && OwnsSlot(sys.mem.tasks[t].state) ensures sys.mem.active == Some(t) {
      assert TaskOk(sys.mem, t);
    }
    forall t | t in sys.mem.tasks && sys.mem.tasks[t].state == Queued ensures t in sys.mem.queue {
      assert CalmTask(sys.mem, t);
    }
    forall r | r in sys.mem.runs && sys.mem.runs[r].state == RunRunning
      ensures sys.mem.active == Some(sys.mem.runs[r].taskId) {
      assert TaskOk(sys.mem, sys.mem.runs[r].taskId);
    }
  }

  /** A running task carries no conflict, no open question and no approval pending at its
      revision. */
  lemma RunningTaskIsClear(sys: Sys, t: Id)
    requires Reachable(sys) && t in sys.mem.tasks && sys.mem.tasks[t].state == Running
    ensures sys.mem.tasks[t].workspaceConflict.None?
    ensures !HasOpenQuestion(sys.mem, t)
    ensures !HasPending(sys.mem, t, sys.mem.tasks[t].revision)
  {
    hide Inv, Settled, Justified, Reachable;
    ReachableIsOk(sys);
    RunningIsClear(sys.mem, t);
    OpenFacts(sys.mem, t);
    NoOpenMeaning(sys.mem, t);
  }

  ghost predicate Accepts(sys: Sys, ids: FreshIds, sig: Signal) {
    Decide(sys.mem, sys.rows, 0, ids, sig).result.Accepted?
  }

  ghost predicate AnswerAccepted(sys: Sys, ids: FreshIds, t: Id)
    requires t in sys.mem.tasks
  {
    exists q :: Accepts(sys, ids, AnswerQuestion(t, sys.mem.tasks[t].revision, q))
  }

  /** An approval of this task; both verdicts on it are accepted. */
  ghost predicate ApprovalAccepted(sys: Sys, ids: FreshIds, t: Id)
    requires t in sys.mem.tasks
  {
    exists c :: c in sys.mem.confirmations && sys.mem.confirmations[c].taskId == t
                && Accepts(sys, ids, ResolveApproval(c, sys.mem.tasks[t].revision, true))
                && Accepts(sys, ids, ResolveApproval(c, sys.mem.tasks[t].revision, false))
  }

  ghost predicate ResumeAccepted(sys: Sys, ids: FreshIds, t: Id)
    requires t in sys.mem.tasks
  {
    Accepts(sys, ids, Resume(t, sys.mem.tasks[t].revision))
  }

  lemma AnswerMeans(sys: Sys, ids: FreshIds, t: Id)
    requires Ready(sys.mem) && t in sys.mem.tasks && sys.mem.tasks[t].state == Awaiting
    ensures AnswerAccepted(sys, ids, t) <==> HasOpenQuestion(sys.mem, t)
  {
    hide Inv, Settled, Accepts;
    var s := sys.mem;
    WaitingFacts(s, t);
    if AnswerAccepted(sys, ids, t) {
      var q :| Accepts(sys, ids, AnswerQuestion(t, s.tasks[t].revision, q));
      AnswerAcceptedWhen(sys, ids, t, q);
    }
    if HasOpenQuestion(s, t) {
      var q :| q in OpenQuestions(s.questions, t);
      OpenIsCurrent(s, q);
      AnswerAcceptedWhen(sys, ids, t, q);
    }
  }

  lemma OpenIsCurrent(s: State, q: Id)
    requires Inv(s) && q in s.questions && s.questions[q].state == Open
    ensures s.questions[q].taskId in s.tasks
    ensures s.questions[q].taskRevision == s.tasks[s.questions[q].taskId].revision
  {
    hide TasksOk, RunsOk, ConfirmationsOk, QueueChecks, SlotChecks;
    assert IsOpen(s, q);
  }

  lemma AnswerAcceptedWhen(sys: Sys, ids: FreshIds, t: Id, q: Id)
    requires t in sys.mem.tasks && sys.mem.active == Some(t) && sys.mem.tasks[t].state == Awaiting
    ensures var s := sys.mem;
      Accepts(sys, ids, AnswerQuestion(t, s.tasks[t].revision, q)) <==>
        q in OpenQuestions(s.questions, t) && s.questions[q].taskRevision == s.tasks[t].revision
  {
  }

  lemma ResolveAcceptedWhen(sys: Sys, ids: FreshIds, c: Id, approve: bool)
    requires c in sys.mem.confirmations && sys.mem.confirmations[c].taskId in sys.mem.tasks
    requires var t := sys.mem.confirmations[c].taskId;
             sys.mem.active == Some(t) && sys.mem.tasks[t].state == Awaiting && sys.mem.tasks[t].runIds != []
    ensures var revision := sys.mem.tasks[sys.mem.confirmations[c].taskId].revision;
            Accepts(sys, ids, ResolveApproval(c, revision, approve)) <==>
              sys.mem.confirmations[c].state == Pending && sys.mem.confirmations[c].taskRevision == revision
  {
  }

  lemma ApprovalMeans(sys: Sys, ids: FreshIds, t: Id)
    requires Ready(sys.mem) && t in sys.mem.tasks && sys.mem.tasks[t].state == Awaiting
    ensures ApprovalAccepted(sys, ids, t) <==> HasPending(sys.mem, t, sys.mem.tasks[t].revision)
  {
    hide Inv, Settled, Accepts;
    var s := sys.mem;
    WaitingFacts(s, t);
    if ApprovalAccepted(sys, ids, t) {
      var c :| c in s.confirmations && s.confirmations[c].taskId == t
               && Accepts(sys, ids, ResolveApproval(c, s.tasks[t].revision, true));
      ResolveAcceptedWhen(sys, ids, c, true);
    }
    if HasPending(s, t, s.tasks[t].revision) {
      var c :| c in s.confirmations && s.confirmations[c].taskId == t
               && s.confirmations[c].taskRevision == s.tasks[t].revision && s.confirmations[c].state == Pending;
      ResolveAcceptedWhen(sys, ids, c, true);
      ResolveAcceptedWhen(sys, ids, c, false);
    }
  }

  lemma WaitingFacts(s: State, t: Id)
    requires Inv(s) && t in s.tasks && s.tasks[t].state == Awaiting
    ensures s.active == Some(t) && s.tasks[t].runIds != []
  {
    hide Inv, RunListOk, HistoryOk;
    TaskFacts(s, t);
  }

  lemma ResumeMeans(sys: Sys, ids: FreshIds, t: Id)
    requires Ready(sys.mem) && t in sys.mem.tasks && sys.mem.tasks[t].state in {Paused, Awaiting}
    ensures ResumeAccepted(sys, ids, t) <==>
              !HasOpenQuestion(sys.mem, t) && !HasPending(sys.mem, t, sys.mem.tasks[t].revision)
  {
    hide Inv, Settled, HasOpenQuestion, HasPending, RunListOk, HistoryOk;
    TaskFacts(sys.mem, t);
  }

  /** A waiting task is never stuck: exactly one of answering, resolving an approval and
      resuming is accepted at its revision. A conflict excludes the first two. */
  lemma WaitingTaskHasExactlyOneWayOn(sys: Sys, ids: FreshIds, t: Id)
    requires Reachable(sys) && t in sys.mem.tasks && sys.mem.tasks[t].state == Awaiting
    ensures AnswerAccepted(sys, ids, t) || ApprovalAccepted(sys, ids, t) || ResumeAccepted(sys, ids, t)
    ensures !(AnswerAccepted(sys, ids, t) && ApprovalAccepted(sys, ids, t))
    ensures !(AnswerAccepted(sys, ids, t) && ResumeAccepted(sys, ids, t))
    ensures !(ApprovalAccepted(sys, ids, t) && ResumeAccepted(sys, ids, t))
    ensures sys.mem.tasks[t].workspaceConflict.Some? ==> ResumeAccepted(sys, ids, t)
  {
    hide Inv, Settled, Justified, Reachable, AnswerAccepted, ApprovalAccepted, ResumeAccepted, HasOpenQuestion;
    hide HasPending;
    ReachableIsOk(sys);
    AnswerMeans(sys, ids, t);
    ApprovalMeans(sys, ids, t);
    ResumeMeans(sys, ids, t);
    NoOpenMeaning(sys.mem, t);
    QuestionExcludesApproval(sys.mem, t);
    OpenFacts(sys.mem, t);
    PendingFacts(sys.mem, t);
  }

  lemma QuestionExcludesApproval(s: State, t: Id)
    requires Inv(s)
    ensures NoOpen(s, t) || NoPending(s, t)
  {
    hide TasksOk, RunsOk, ConfirmationsOk, QueueChecks, SlotChecks;
  }

  /** A paused task always accepts resume at its revision. */
  lemma PausedTaskResumes(sys: Sys, ids: FreshIds, t: Id)
    requires Reachable(sys) && t in sys.mem.tasks && sys.mem.tasks[t].state == Paused
    ensures ResumeAccepted(sys, ids, t)
  {
    hide Inv, Settled, Justified, Reachable, ResumeAccepted, HasOpenQuestion, HasPending;
    ReachableIsOk(sys);
    ResumeMeans(sys, ids, t);
    NoOpenMeaning(sys.mem, t);
    OpenFacts(sys.mem, t);
    PendingFacts(sys.mem, t);
  }

  /** Revising a paused or waiting task (same repository) and then resuming it at the new
      revision always succeeds, whatever it was waiting for. */
  lemma ReviseThenResume(sys: Sys, id: Id, ids: FreshIds, laterIds: FreshIds, t: Id, spec: TaskSpec)
    requires Reachable(sys) && t in sys.mem.tasks && sys.mem.tasks[t].state in {Paused, Awaiting}
    requires spec.repositoryId == sys.mem.tasks[t].repositoryId
    requires Fresh(sys.mem, ids) && id !in sys.store.commands
    ensures var revision := sys.mem.tasks[t].revision;
            var revised := Handle(sys, id, ids, Revise(t, revision, spec));
            && revised.Returned? && revised.result == Accepted(t)
            && t in revised.sys.mem.tasks && revised.sys.mem.tasks[t].revision == revision + 1
            && ResumeAccepted(revised.sys, laterIds, t)
  {
    hide Inv, Settled, Justified, Reachable, ResumeAccepted, Supersede, Fresh, ApplyAll, Decide, Next;
    ReachableIsOk(sys);
    var s := sys.mem;
    var sig := Revise(t, s.tasks[t].revision, spec);
    var e := SpecRevised(t, s.tasks[t].revision, s.tasks[t].revision + 1, spec);
    RevisionDecided(s, sys.rows, id, ids, t, spec);
    CommandThrowsExactlyWhen(sys, id, ids, sig);
    DecisionApplies(s, sys.rows, id, ids, sig);
    var revised := Handle(sys, id, ids, sig).sys;
    assert revised.mem == Next(s, e) by { AfterOne(s, e); }
    RevisionClears(s, e);
    NoOpenMeaning(revised.mem, t);
    ResumeMeans(revised, laterIds, t);
  }

  lemma RevisionDecided(s: State, rows: seq<Artifact>, id: Id, ids: FreshIds, t: Id, spec: TaskSpec)
    requires Inv(s) && t in s.tasks && s.tasks[t].state in {Paused, Awaiting}
    requires spec.repositoryId == s.tasks[t].repositoryId
    ensures var revision := s.tasks[t].revision;
      Decide(s, rows, id, ids, Revise(t, revision, spec)) ==
        Accept(t, [SpecRevised(t, revision, revision + 1, spec)])
  {
    hide Inv, RunListOk, HistoryOk;
    TaskFacts(s, t);
  }

  lemma AfterOne(s: State, e: Event)
    requires LegalAll(s, [e])
    ensures Guard(s, e) && After(s, [e]) == Next(s, e)
  {
    hide Legal, Guard, Next;
    assert [e][1..] == [];
  }

  lemma RevisionExactly(s: State, e: Event)
    requires e.SpecRevised? && Guard(s, e)
    ensures e.taskId in s.tasks
    ensures Next(s, e) == Revised(s, e.taskId, e.revision, e.spec).(seqNo := s.seqNo + 1)
  {
    hide Revised;
  }

  /** A revision supersedes the open question and leaves approvals behind at the old revision. */
  lemma RevisionClears(s: State, e: Event)
    requires Inv(s) && e.SpecRevised? && Guard(s, e) && e.revision == s.tasks[e.taskId].revision + 1
    ensures var s' := Next(s, e); var t := e.taskId;
            && t in s'.tasks && s'.tasks[t].state == s.tasks[t].state && s'.tasks[t].revision == e.revision
            && NoOpen(s', t) && NoPending(s', t)
  {
    hide TasksOk, RunsOk, QuestionsOk, QueueChecks, SlotChecks, Collide, HostsPending, Guard, Next;
    RevisionExactly(s, e);
    var s' := Next(s, e);
    assert forall c :: c in s.confirmations && s.confirmations[c].taskId == e.taskId ==>
             s.confirmations[c].taskRevision <= s.tasks[e.taskId].revision;
  }
}

/** What the signals that move a task into, out of or back to work achieve, after all of their
    events. */
module Outcomes {
  import opened Protocol
  import opened Domain
  import opened Evidence
  import opened Decisions
  import opened Invariants
  import opened Progress
  import opened Controller

  // --------------------------------------------------------- single events, as state changes

  lemma StartExactly(s: State, e: Event)
    requires Guard(s, e) && (e.TaskStarted? || e.TaskResumed?)
    ensures e.taskId in s.tasks && Next(s, e) == Start(s, e.taskId, e.runId, e.revision).(seqNo := s.seqNo + 1)
  {
    hide Start;
  }

  lemma FinishExactly(s: State, e: Event)
    requires Guard(s, e) && Finishes(e)
    ensures e.taskId in s.tasks
    ensures var r := if e.TaskCancelled? then s.tasks[e.taskId].activeRunId else Some(e.runId);
            var runState := if e.TaskCompleted? then RunCompleted else if e.TaskFailed? then RunFailed
                else RunCancelled;
            var taskState := if e.TaskCompleted? then Completed else if e.TaskFailed? then Failed else Cancelled;
            && (r.Some? ==> r.value in s.runs)
            && Next(s, e) == Finish(s, e.taskId, r, runState, taskState).(seqNo := s.seqNo + 1)
  {
    hide Finish;
  }

  lemma ParkExactly(s: State, e: Event)
    requires Guard(s, e) && (e.TaskPaused? || e.AwaitingUser?)
    ensures e.taskId in s.tasks && e.runId in s.runs
    ensures var interrupted := e.TaskPaused? && s.runs[e.runId].state == RunInterruptedState;
            var runState := if interrupted then RunInterruptedState else RunPaused;
            Next(s, e) == Park(s, e.taskId, e.runId, runState, if e.TaskPaused? then Paused else Awaiting)
                            .(seqNo := s.seqNo + 1)
  {
    hide Park;
  }

  /** The records that only annotate: a conflict resolved, an answer, a verdict. */
  lemma NoteExactly(s: State, e: Event)
    requires Guard(s, e)
    ensures e.ConflictResolved? ==>
              e.taskId in s.tasks
              && Next(s, e) == SetTask(s, e.taskId, s.tasks[e.taskId].(workspaceConflict := None))
                                 .(seqNo := s.seqNo + 1)
    ensures e.QuestionAnswered? ==>
              e.questionId in s.questions
              && Next(s, e) == s.(questions :=
                                    s.questions[e.questionId := s.questions[e.questionId].(state := Answered)],
                                  seqNo := s.seqNo + 1)
    ensures e.ApprovalResolved? ==>
              e.confirmationId in s.confirmations
              && Next(s, e) == SetConfirmation(s, e.confirmationId, if e.approve then Approved else Declined)
                                 .(seqNo := s.seqNo + 1)
  {
    hide SetTask, SetConfirmation;
  }

  lemma AfterCons(s: State, events: seq<Event>)
    requires LegalAll(s, events) && events != []
    ensures Guard(s, events[0]) && LegalAll(Next(s, events[0]), events[1..])
    ensures After(s, events) == After(Next(s, events[0]), events[1..])
  {
    hide Legal, Guard, Next;
  }

  /** Chains of one and two events. */
  lemma Chain1(s: State, a: Event)
    requires LegalAll(s, [a])
    ensures Guard(s, a) && After(s, [a]) == Next(s, a)
  {
    hide Legal, Guard, Next;
    AfterCons(s, [a]);
    assert [a][1..] == [];
  }

  lemma Chain2(s: State, a: Event, b: Event)
    requires LegalAll(s, [a, b])
    ensures Guard(s, a) && Guard(Next(s, a), b) && After(s, [a, b]) == Next(Next(s, a), b)
  {
    hide Legal, Guard, Next, After;
    AfterCons(s, [a, b]);
    assert [a, b][1..] == [b];
    Chain1(Next(s, a), b);
  }

  /** A signal under a new id, answered by the controller in a reachable state. */
  ghost predicate Handled(sys: Sys, id: Id, ids: FreshIds, sig: Signal) {
    && Reachable(sys) && Fresh(sys.mem, ids) && id !in sys.store.commands && !RefusedUnrecorded(sys.mem, sig)
    && Handle(sys, id, ids, sig).Returned?
  }

  lemma HandledFacts(sys: Sys, id: Id, ids: FreshIds, sig: Signal)
    requires Handled(sys, id, ids, sig)
    ensures Ready(sys.mem) && ValidTable(sys.rows) && ids.run !in sys.mem.runs && Handle(sys, id, ids, sig).Returned?
    ensures var d := Decide(sys.mem, sys.rows, id, ids, sig); var out := Handle(sys, id, ids, sig);
      out.result == d.result && LegalAll(sys.mem, d.events) && out.sys.mem == After(sys.mem, d.events)
  {
    hide Inv, Settled, Justified, Decide, RefusedUnrecorded, ApplyAll, Reachable;
    ReachableIsOk(sys);
    DecisionApplies(sys.mem, sys.rows, id, ids, sig);
  }

  lemma HandledReaches(sys: Sys, id: Id, ids: FreshIds, sig: Signal)
    requires Handled(sys, id, ids, sig)
    ensures Reachable(sys) && Reachable(Handle(sys, id, ids, sig).sys)
    ensures Perform(sys, Signalled(id, ids, sig)) == Some(Handle(sys, id, ids, sig).sys)
  {
    hide Handle, Reachable, Fresh, RefusedUnrecorded;
    ReachableExtends(sys, Signalled(id, ids, sig));
  }

  // ------------------------------------------------------------------- leaving the slot

  /** The slot passes to the head of the queue, which starts at its revision in a new run; with an
      empty queue it stays empty. Nobody else is touched. */
  ghost predicate HandsOver(s: State, s': State, t: Id, run: Id)
    requires t in s.tasks
  {
    && s'.tasks.Keys == s.tasks.Keys
    && (if s.queue == [] then s'.active == None && s'.queue == []
        else
          var h := s.queue[0];
          && h in s.tasks && h != t
          && s'.active == Some(h) && s'.queue == s.queue[1..]
          && s'.tasks[h] == s.tasks[h].(state := Running, activeRunId := Some(run), runIds := s.tasks[h].runIds + [run])
          && run in s'.runs && s'.runs[run] == Run(h, s.tasks[h].revision, RunRunning))
    && (forall u :: u in s.tasks && u != t && (s.queue == [] || u != s.queue[0]) ==> s'.tasks[u] == s.tasks[u])
  }

  lemma WithoutStranger(queue: seq<Id>, t: Id)
    requires NoDuplicates(queue) && t !in queue
    ensures Without(queue, t) == queue
  {
  }

  /** Finishing the active task and starting the next one. */
  lemma HandOver(s: State, e: Event, ids: FreshIds)
    requires Inv(s) && Finishes(e) && s.active == Some(e.taskId) && ids.run !in s.runs
    requires LegalAll(s, [e] + StartNext(s, ids))
    ensures e.taskId in s.tasks
    ensures var s' := After(s, [e] + StartNext(s, ids)); var t := e.taskId;
      && t in s'.tasks && s'.tasks[t] == s.tasks[t].(state := s'.tasks[t].state, activeRunId := None)
      && s'.tasks[t].state == (if e.TaskCompleted? then Completed else if e.TaskFailed? then Failed else Cancelled)
      && HandsOver(s, s', t, ids.run)
  {
    hide Inv, LegalAll, After, Guard, Next, Without;
    var t, next := e.taskId, StartNext(s, ids);
    QueueOf(s, t);
    if next == [] {
      assert [e] + next == [e];
      Chain1(s, e);
      LeavesSlot(s, e);
    } else {
      assert [e] + next == [e, next[0]];
      Chain2(s, e, next[0]);
      LeavesSlot(s, e);
      HeadStarts(Next(s, e), next[0]);
    }
  }

  lemma LeavesSlot(s: State, e: Event)
    requires Guard(s, e) && Finishes(e) && s.active == Some(e.taskId)
    requires NoDuplicates(s.queue) && e.taskId !in s.queue
    ensures e.taskId in s.tasks
    ensures var taskState := if e.TaskCompleted? then Completed else if e.TaskFailed? then Failed else Cancelled;
            var s' := Next(s, e);
            && s'.tasks == s.tasks[e.taskId := s.tasks[e.taskId].(state := taskState, activeRunId := None)]
            && s'.queue == s.queue && s'.active == None
  {
    hide Without, Guard, Next;
    WithoutStranger(s.queue, e.taskId);
    FinishExactly(s, e);
  }

  lemma HeadStarts(s: State, e: Event)
    requires Guard(s, e) && e.TaskStarted? && NoDuplicates(s.queue) && s.queue != [] && e.taskId == s.queue[0]
    ensures e.taskId in s.tasks
    ensures var s' := Next(s, e); var h := e.taskId;
            && s'.tasks == s.tasks[h := s.tasks[h].(state := Running, activeRunId := Some(e.runId),
                                                   runIds := s.tasks[h].runIds + [e.runId])]
            && s'.queue == s.queue[1..] && s'.active == Some(h)
            && s'.runs == s.runs[e.runId := Run(h, e.revision, RunRunning)]
  {
    hide Without, Guard, Next;
    WithoutFirst(s.queue);
    StartExactly(s, e);
  }

  lemma WithoutFirst(queue: seq<Id>)
    requires NoDuplicates(queue) && queue != []
    ensures Without(queue, queue[0]) == queue[1..]
  {
  }

  lemma QueueOf(s: State, t: Id)
    requires Inv(s) && s.active == Some(t)
    ensures NoDuplicates(s.queue) && t !in s.queue && t in s.tasks
    ensures s.queue != [] ==> s.queue[0] in s.tasks
  {
    QueueFacts(s, t);
    hide Inv;
  }

  /** An accepted completion or failure: the task leaves the slot, backed by evidence when it
      completes, and the next queued task starts. */
  lemma FinishOutcome(sys: Sys, id: Id, ids: FreshIds, sig: Signal)
    requires Handled(sys, id, ids, sig) && (sig.Complete? || sig.Fail?)
    requires Handle(sys, id, ids, sig).result.Accepted?
    ensures var t := sig.taskId; var s, s' := sys.mem, Handle(sys, id, ids, sig).sys.mem;
      && t in s.tasks && s.active == Some(t) && Executing(s.tasks[t].state) && s.tasks[t].activeRunId.Some?
      && t in s'.tasks
      && s'.tasks[t] == s.tasks[t].(state := if sig.Complete? then Completed else Failed, activeRunId := None)
      && HandsOver(s, s', t, ids.run)
      && (sig.Complete? ==> Justified(sys.rows, t, s.tasks[t].activeRunId.value, sig.evidenceIds))
  {
    hide Handle, Handled, Inv, Settled, LegalAll, After, Justified, HandsOver, Decide;
    HandledFacts(sys, id, ids, sig);
    var s, t := sys.mem, sig.taskId;
    FinishDecision(s, sys.rows, id, ids, sig);
    var run := s.tasks[t].activeRunId.value;
    HandOver(s, EndedBy(sig, run), ids);
  }

  function EndedBy(sig: Signal, run: Id): Event
    requires sig.Complete? || sig.Fail?
  {
    if sig.Complete? then TaskCompleted(sig.taskId, run, sig.evidenceIds, sig.summary)
    else TaskFailed(sig.taskId, run, sig.error)
  }

  lemma FinishDecision(s: State, rows: seq<Artifact>, id: Id, ids: FreshIds, sig: Signal)
    requires (sig.Complete? || sig.Fail?) && ValidTable(rows) && Decide(s, rows, id, ids, sig).result.Accepted?
    ensures var t := sig.taskId;
      && t in s.tasks && s.active == Some(t) && Executing(s.tasks[t].state) && s.tasks[t].activeRunId.Some?
      && var run := s.tasks[t].activeRunId.value;
         && Decide(s, rows, id, ids, sig).events
            == [EndedBy(sig, run)] + StartNext(s, ids)
         && (sig.Complete? ==> Justified(rows, t, run, sig.evidenceIds))
  {
    hide StartNext, ValidateCompletion, Justified;
    if sig.Complete? && sig.taskId in s.tasks && s.tasks[sig.taskId].activeRunId.Some? {
      GateMeaning(rows, sig.taskId, s.tasks[sig.taskId].activeRunId.value, sig.evidenceIds);
    }
  }

  /** An accepted cancellation: the active task hands the slot over, a queued one leaves the queue and
      nothing else changes. */
  lemma CancelOutcome(sys: Sys, id: Id, ids: FreshIds, sig: Signal)
    requires Handled(sys, id, ids, sig) && sig.Cancel?
    requires Handle(sys, id, ids, sig).result.Accepted?
    ensures var t := sig.taskId; var s, s' := sys.mem, Handle(sys, id, ids, sig).sys.mem;
      && t in s.tasks && !Terminal(s.tasks[t].state) && s.tasks[t].revision == sig.expectedRevision
      && t in s'.tasks && s'.tasks[t] == s.tasks[t].(state := Cancelled, activeRunId := None)
      && (if s.active == Some(t) then HandsOver(s, s', t, ids.run)
          else s'.active == s.active && s'.queue == Without(s.queue, t) && s'.runs == s.runs
               && s'.tasks == s.tasks[t := s'.tasks[t]])
  {
    hide Handle, Handled, Inv, Settled, LegalAll, After, HandsOver, Decide, Without;
    HandledFacts(sys, id, ids, sig);
    var s, t := sys.mem, sig.taskId;
    CancelDecision(s, sys.rows, id, ids, sig);
    if s.active == Some(t) {
      HandOver(s, TaskCancelled(t), ids);
    } else {
      LeavesQueue(s, t);
    }
  }

  lemma CancelDecision(s: State, rows: seq<Artifact>, id: Id, ids: FreshIds, sig: Signal)
    requires sig.Cancel? && Decide(s, rows, id, ids, sig).result.Accepted?
    ensures sig.taskId in s.tasks && !Terminal(s.tasks[sig.taskId].state)
    ensures s.tasks[sig.taskId].revision == sig.expectedRevision
    ensures Decide(s, rows, id, ids, sig).events
         == [TaskCancelled(sig.taskId)] + if s.active == Some(sig.taskId) then StartNext(s, ids) else []
  {
    hide StartNext;
  }

  lemma LeavesQueue(s: State, t: Id)
    requires Inv(s) && t in s.tasks && s.active != Some(t) && LegalAll(s, [TaskCancelled(t)] + [])
    ensures var s' := After(s, [TaskCancelled(t)] + []);
      && t in s'.tasks && s'.tasks == s.tasks[t := s.tasks[t].(state := Cancelled, activeRunId := None)]
      && s'.active == s.active && s'.queue == Without(s.queue, t) && s'.runs == s.runs
  {
    hide Inv, LegalAll, After, Next, Guard, Without;
    var e := TaskCancelled(t);
    assert [e] + [] == [e];
    Chain1(s, e);
    FinishExactly(s, e);
    NoRunOutsideSlot(s, t);
  }

  lemma NoRunOutsideSlot(s: State, t: Id)
    requires Inv(s) && t in s.tasks && s.active != Some(t)
    ensures s.tasks[t].activeRunId.None?
  {
    TaskFacts(s, t);
    hide Inv, HistoryOk, RunListOk;
  }

  // ---------------------------------------------------------------- back to work

  /** The task runs again, in a new run at its revision, with no conflict left; nobody else is
      touched. */
  ghost predicate RunsAgain(s: State, s': State, t: Id, run: Id)
    requires t in s.tasks
  {
    && s.active == Some(t) && s'.active == Some(t) && s'.queue == s.queue
    && s'.tasks == s.tasks[t := s.tasks[t].(state := Running, activeRunId := Some(run),
                                           runIds := s.tasks[t].runIds + [run], workspaceConflict := None)]
    && s'.runs == s.runs[run := Run(t, s.tasks[t].revision, RunRunning)]
  }

  lemma ResumeChain(s: State, rows: seq<Artifact>, id: Id, ids: FreshIds, sig: Signal)
    requires Ready(s) && sig.Resume?
    requires Decide(s, rows, id, ids, sig).result.Accepted?
    requires LegalAll(s, Decide(s, rows, id, ids, sig).events)
    ensures var t := sig.taskId; var s' := After(s, Decide(s, rows, id, ids, sig).events);
      && t in s.tasks && RunsAgain(s, s', t, ids.run)
      && s'.questions == s.questions && s'.confirmations == s.confirmations
  {
    hide Inv, Settled, LegalAll, After, Next, Guard, HasOpenQuestion, HasPending, Without;
    var t := sig.taskId;
    QueueOf(s, t);
    WithoutStranger(s.queue, t);
    var b := TaskResumed(t, ids.run, s.tasks[t].revision);
    if s.tasks[t].workspaceConflict.Some? {
      var a := ConflictResolved(t, s.tasks[t].workspaceConflict.value);
      assert Decide(s, rows, id, ids, sig).events == [a, b];
      Chain2(s, a, b);
      NoteExactly(s, a);
      StartExactly(Next(s, a), b);
    } else {
      assert Decide(s, rows, id, ids, sig).events == [b];
      Chain1(s, b);
      StartExactly(s, b);
    }
  }

  /** An accepted resume, answer or approval puts the waiting task back to work; a declined approval
      pauses it. Each touches exactly the question or the confirmation it names. */
  lemma ResumeOutcome(sys: Sys, id: Id, ids: FreshIds, sig: Signal)
    requires Handled(sys, id, ids, sig) && sig.Resume?
    requires Handle(sys, id, ids, sig).result.Accepted?
    ensures var t := sig.taskId; var s, s' := sys.mem, Handle(sys, id, ids, sig).sys.mem;
      && t in s.tasks && RunsAgain(s, s', t, ids.run)
      && s'.questions == s.questions && s'.confirmations == s.confirmations
  {
    hide Inv, Settled, LegalAll, After, Handle, Handled, Decide, RunsAgain, Reachable;
    HandledFacts(sys, id, ids, sig);
    ResumeChain(sys.mem, sys.rows, id, ids, sig);
  }

  lemma AnswerOutcome(sys: Sys, id: Id, ids: FreshIds, sig: Signal)
    requires Handled(sys, id, ids, sig) && sig.AnswerQuestion?
    requires Handle(sys, id, ids, sig).result.Accepted?
    ensures var t, q := sig.taskId, sig.questionId; var s, s' := sys.mem, Handle(sys, id, ids, sig).sys.mem;
      && t in s.tasks && RunsAgain(s, s', t, ids.run)
      && q in s.questions && s'.questions == s.questions[q := s.questions[q].(state := Answered)]
      && s'.confirmations == s.confirmations
  {
    hide Handle, Handled, Inv, Settled, LegalAll, After, Decide, RunsAgain;
    HandledFacts(sys, id, ids, sig);
    AnswerChain(sys.mem, sys.rows, id, ids, sig);
  }

  lemma AnswerChain(s: State, rows: seq<Artifact>, id: Id, ids: FreshIds, sig: Signal)
    requires Inv(s) && sig.AnswerQuestion? && Decide(s, rows, id, ids, sig).result.Accepted?
    requires LegalAll(s, Decide(s, rows, id, ids, sig).events)
    ensures var t, q := sig.taskId, sig.questionId; var s' := After(s, Decide(s, rows, id, ids, sig).events);
      && t in s.tasks && RunsAgain(s, s', t, ids.run)
      && q in s.questions && s'.questions == s.questions[q := s.questions[q].(state := Answered)]
      && s'.confirmations == s.confirmations
  {
    hide Inv, LegalAll, After, Next, Guard, Without;
    var t, q := sig.taskId, sig.questionId;
    QueueOf(s, t);
    WithoutStranger(s.queue, t);
    OpenMeansNoConflict(s, q);
    var a := QuestionAnswered(t, q, s.questions[q].runId, s.questions[q].taskRevision);
    var b := TaskResumed(t, ids.run, s.tasks[t].revision);
    assert Decide(s, rows, id, ids, sig).events == [a, b];
    Chain2(s, a, b);
    NoteExactly(s, a);
    StartExactly(Next(s, a), b);
  }

  lemma OpenMeansNoConflict(s: State, q: Id)
    requires Inv(s) && q in s.questions && s.questions[q].state == Open
    ensures s.questions[q].taskId in s.tasks && s.tasks[s.questions[q].taskId].workspaceConflict.None?
  {
    hide TasksOk, RunsOk, ConfirmationsOk, QueueChecks, SlotChecks;
    assert IsOpen(s, q);
  }

  /** The task of a confirmation whose verdict is accepted waits in the slot, without a conflict. */
  lemma VerdictFacts(s: State, c: Id)
    requires Inv(s) && c in s.confirmations && s.confirmations[c].state == Pending
    requires s.confirmations[c].taskId in s.tasks
    requires s.confirmations[c].taskRevision == s.tasks[s.confirmations[c].taskId].revision
    requires s.tasks[s.confirmations[c].taskId].state == Awaiting && s.active == Some(s.confirmations[c].taskId)
    ensures var t := s.confirmations[c].taskId;
      && s.tasks[t].workspaceConflict.None? && s.tasks[t].activeRunId.None? && Without(s.queue, t) == s.queue
  {
    hide Inv, Without;
    var t := s.confirmations[c].taskId;
    QueueOf(s, t);
    WithoutStranger(s.queue, t);
    PendingMeansNoConflict(s, c);
  }

  lemma GrantedChain(s: State, c: Id, run: Id)
    requires c in s.confirmations && s.confirmations[c].taskId in s.tasks
    requires var t := s.confirmations[c].taskId;
      s.active == Some(t) && s.tasks[t].workspaceConflict.None? && Without(s.queue, t) == s.queue
    requires var t := s.confirmations[c].taskId; var revision := s.tasks[t].revision;
      LegalAll(s, [ApprovalResolved(t, c, revision, true), TaskResumed(t, run, revision)])
    ensures var t := s.confirmations[c].taskId; var revision := s.tasks[t].revision;
      var s' := After(s, [ApprovalResolved(t, c, revision, true), TaskResumed(t, run, revision)]);
      && RunsAgain(s, s', t, run) && s'.questions == s.questions
      && s'.confirmations == s.confirmations[c := s.confirmations[c].(state := Approved)]
  {
    hide LegalAll, After, Next, Guard, Without;
    var t := s.confirmations[c].taskId;
    var a, b := ApprovalResolved(t, c, s.tasks[t].revision, true), TaskResumed(t, run, s.tasks[t].revision);
    Chain2(s, a, b);
    NoteExactly(s, a);
    StartExactly(Next(s, a), b);
  }

  lemma DeclinedChain(s: State, c: Id, run: Id)
    requires c in s.confirmations && s.confirmations[c].taskId in s.tasks
    requires var t := s.confirmations[c].taskId; s.active == Some(t) && s.tasks[t].activeRunId.None?
    requires var t := s.confirmations[c].taskId;
      LegalAll(s, [ApprovalResolved(t, c, s.tasks[t].revision, false), TaskPaused(t, run, REFUSED_BY_USER)])
    ensures var t := s.confirmations[c].taskId;
      var s' := After(s, [ApprovalResolved(t, c, s.tasks[t].revision, false), TaskPaused(t, run, REFUSED_BY_USER)]);
      && s'.active == Some(t) && s'.queue == s.queue && s'.tasks == s.tasks[t := s.tasks[t].(state := Paused)]
      && s'.questions == s.questions
      && s'.confirmations == s.confirmations[c := s.confirmations[c].(state := Declined)]
  {
    hide LegalAll, After, Next, Guard;
    var t := s.confirmations[c].taskId;
    var a, b := ApprovalResolved(t, c, s.tasks[t].revision, false), TaskPaused(t, run, REFUSED_BY_USER);
    Chain2(s, a, b);
    NoteExactly(s, a);
    ParkExactly(Next(s, a), b);
  }

  lemma ApprovalOutcome(sys: Sys, id: Id, ids: FreshIds, sig: Signal)
    requires Handled(sys, id, ids, sig) && sig.ResolveApproval?
    requires Handle(sys, id, ids, sig).result.Accepted?
    ensures sig.confirmationId in sys.mem.confirmations
    ensures var c := sig.confirmationId; var s, s' := sys.mem, Handle(sys, id, ids, sig).sys.mem;
      var t := s.confirmations[c].taskId;
      && t in s.tasks && s.active == Some(t)
      && (if sig.approve then RunsAgain(s, s', t, ids.run)
          else s'.active == Some(t) && s'.queue == s.queue && s'.tasks == s.tasks[t := s.tasks[t].(state := Paused)])
      && s'.confirmations
         == s.confirmations[c := s.confirmations[c].(state := if sig.approve then Approved else Declined)]
      && s'.questions == s.questions
  {
    hide Handle, Handled, Inv, Settled, LegalAll, After, RunsAgain, Reachable, Without;
    HandledFacts(sys, id, ids, sig);
    var s, c := sys.mem, sig.confirmationId;
    var t := s.confirmations[c].taskId;
    VerdictFacts(s, c);
    var events := Decide(s, sys.rows, id, ids, sig).events;
    if sig.approve {
      assert events == [ApprovalResolved(t, c, s.tasks[t].revision, true),
                        TaskResumed(t, ids.run, s.tasks[t].revision)];
      GrantedChain(s, c, ids.run);
    } else {
      var last := s.tasks[t].runIds[|s.tasks[t].runIds| - 1];
      assert events == [ApprovalResolved(t, c, s.tasks[t].revision, false), TaskPaused(t, last, REFUSED_BY_USER)];
      DeclinedChain(s, c, last);
    }
  }

  lemma PendingMeansNoConflict(s: State, c: Id)
    requires Inv(s) && c in s.confirmations && s.confirmations[c].state == Pending
    requires s.confirmations[c].taskId in s.tasks
    requires s.confirmations[c].taskRevision == s.tasks[s.confirmations[c].taskId].revision
    requires s.tasks[s.confirmations[c].taskId].state == Awaiting
    ensures s.tasks[s.confirmations[c].taskId].workspaceConflict.None?
    ensures s.tasks[s.confirmations[c].taskId].activeRunId.None?
  {
    var t := s.confirmations[c].taskId;
    TaskFacts(s, t);
    hide TasksOk, RunsOk, QuestionsOk, QueueChecks, SlotChecks, HistoryOk, RunListOk;
    assert IsPending(s, c);
  }
}

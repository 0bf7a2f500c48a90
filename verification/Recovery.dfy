/** Restart plus recovery (packages/core/src/controller.ts, recoverAfterRestart). */
module Recovery {
  import opened Protocol
  import opened Domain
  import opened Evidence
  import opened Decisions
  import opened Invariants
  import opened Progress
  import opened Controller
  import opened SlotTheorems
  import opened Cancellation

  /** What recovery has to leave alone. */
  ghost predicate SameWork(a: State, b: State) {
    && b.queue == a.queue
    && b.active == a.active
    && b.tasks.Keys == a.tasks.Keys
    && (forall t :: t in a.tasks ==>
          && b.tasks[t].spec == a.tasks[t].spec
          && b.tasks[t].revision == a.tasks[t].revision
          && b.tasks[t].specHistory == a.tasks[t].specHistory
          && b.tasks[t].runIds == a.tasks[t].runIds)
    && b.confirmations == a.confirmations
    && b.questions == a.questions
  }

  /** The events of a recovery start nothing and create nothing. */
  ghost predicate Interrupts(e: Event) {
    e.RunInterrupted? || e.RecoveryBoundary? || e.TaskPaused?
  }

  lemma InterruptKeepsWork(s: State, e: Event)
    requires Guard(s, e) && Interrupts(e) && e.taskId in s.tasks
    ensures SameWork(s, Next(s, e))
  {
    hide Guard, Next;
    InterruptKeepsRest(s, e);
    ShapeOfTasks(s, e);
    ShapeOfRecord(s, e);
  }

  lemma InterruptKeepsRest(s: State, e: Event)
    requires Guard(s, e) && Interrupts(e)
    ensures var s' := Next(s, e);
            && s'.queue == s.queue && s'.active == s.active
            && s'.confirmations == s.confirmations && s'.questions == s.questions
  {
  }

  lemma InterruptNamesTask(s: State, e: Event)
    requires Legal(s, e) && Interrupts(e)
    ensures e.taskId in s.tasks
  {
  }

  lemma {:induction false} InterruptsKeepWork(s: State, events: seq<Event>)
    requires Inv(s) && LegalAll(s, events) && forall e :: e in events ==> Interrupts(e)
    ensures SameWork(s, After(s, events))
    decreases |events|
  {
    hide Inv, Legal, Guard, Next, Interrupts;
    if events != [] {
      LegalApplies(s, events[0]);
      InterruptNamesTask(s, events[0]);
      InterruptKeepsWork(s, events[0]);
      InterruptsKeepWork(Next(s, events[0]), events[1..]);
    }
  }

  lemma RecoverEvents(s: State)
    ensures forall e :: e in DecideRecover(s).events ==> Interrupts(e)
    ensures DecideRecover(s).result.Accepted? <==>
              s.active.Some? && s.active.value in s.tasks && Executing(s.tasks[s.active.value].state)
              && s.tasks[s.active.value].activeRunId.Some?
    ensures DecideRecover(s).result.Accepted? ==>
              && DecideRecover(s).events != []
              && DecideRecover(s).events[|DecideRecover(s).events| - 1] ==
                   TaskPaused(s.active.value, s.tasks[s.active.value].activeRunId.value, NEEDS_RESUME)
    ensures !DecideRecover(s).result.Accepted? ==> DecideRecover(s).events == []
    ensures DecideRecover(s).result.Accepted? ==> DecideRecover(s).result.taskId == s.active.value
  {
  }

  /** After the last pause of a recovery the slot's task is paused. */
  lemma {:induction false} EndsPaused(s: State, events: seq<Event>)
    requires Inv(s) && LegalAll(s, events) && events != [] && events[|events| - 1].TaskPaused?
    ensures var t := events[|events| - 1].taskId;
            t in After(s, events).tasks && After(s, events).tasks[t].state == Paused
    decreases |events|
  {
    hide Inv, Legal;
    LegalApplies(s, events[0]);
    if |events| > 1 {
      EndsPaused(Next(s, events[0]), events[1..]);
    }
  }

  lemma NothingRuns(s: State)
    requires Ready(s) && (s.active.None? || (s.active.value in s.tasks && !Executing(s.tasks[s.active.value].state)))
    ensures forall r :: r in s.runs ==> s.runs[r].state != RunRunning
    ensures !DecideRecover(s).result.Accepted?
  {
    hide QueueChecks, QuestionsOk, ConfirmationsOk, HistoryOk, RunListOk, ActiveRunOk, Settled;
    forall r | r in s.runs ensures s.runs[r].state != RunRunning {
      assert TaskOk(s, s.runs[r].taskId);
    }
  }

  /** From any persisted log: restart, then recovery under a new id. Afterwards no run is
      running, the work is unchanged and nothing was started; recovering once more under
      another id is rejected; and an interrupted task accepts resume. */
  lemma RestartAndRecover(sys: Sys, id: Id, ids: FreshIds, again: Id, laterIds: FreshIds)
    requires Reachable(sys) && Fresh(sys.mem, ids) && id !in sys.store.commands
    ensures Restart(sys.store, sys.rows) == Some(sys)
    ensures var recovered := Handle(sys, id, ids, Recover);
            && recovered.Returned?
            && (forall r :: r in recovered.sys.mem.runs ==> recovered.sys.mem.runs[r].state != RunRunning)
            && SameWork(sys.mem, recovered.sys.mem)
            && (again !in recovered.sys.store.commands ==>
                  Decide(recovered.sys.mem, recovered.sys.rows, again, laterIds, Recover).result
                  == Rejected(NothingToRecover))
            && (recovered.result.Accepted? ==>
                  && sys.mem.active == Some(recovered.result.taskId)
                  && recovered.result.taskId in recovered.sys.mem.tasks
                  && ResumeAccepted(recovered.sys, laterIds, recovered.result.taskId))
  {
    hide Inv, Settled, Justified, Reachable, DecideRecover, ApplyAll, Fresh, ResumeAccepted, SameWork;
    ReachableIsOk(sys);
    ReplayRestoresMemory(sys);
    var s := sys.mem;
    var d := DecideRecover(s);
    assert Decide(s, sys.rows, id, ids, Recover) == d;
    DecisionApplies(s, sys.rows, id, ids, Recover);
    CommandThrowsExactlyWhen(sys, id, ids, Recover);
    RecoverEvents(s);
    InterruptsKeepWork(s, d.events);
    var s' := After(s, d.events);
    assert Handle(sys, id, ids, Recover).sys.mem == s';
    SlotIsValid(s);
    if d.result.Accepted? {
      EndsPaused(s, d.events);
      SameActive(s, s');
      NothingRuns(s');
      PausedCanResume(Handle(sys, id, ids, Recover).sys, laterIds, s.active.value);
    } else {
      if s.active.Some? { ExecutingHasRun(s); }
      NothingRuns(s);
    }
    RecoverRejects(s');
  }

  lemma SameActive(s: State, s': State)
    requires SameWork(s, s')
    ensures s'.active == s.active
  {
  }

  lemma SlotIsValid(s: State)
    requires Inv(s)
    ensures s.active.Some? ==> s.active.value in s.tasks
  {
  }

  lemma ExecutingHasRun(s: State)
    requires Inv(s) && s.active.Some? && s.active.value in s.tasks
    ensures Executing(s.tasks[s.active.value].state) ==> s.tasks[s.active.value].activeRunId.Some?
  {
    TaskFacts(s, s.active.value);
  }

  lemma RecoverRejects(s: State)
    ensures !DecideRecover(s).result.Accepted? ==> DecideRecover(s).result == Rejected(NothingToRecover)
  {
  }

  lemma PausedCanResume(sys: Sys, ids: FreshIds, t: Id)
    requires Ready(sys.mem) && t in sys.mem.tasks && sys.mem.tasks[t].state == Paused
    ensures ResumeAccepted(sys, ids, t)
  {
    hide Inv, Settled, ResumeAccepted, HasOpenQuestion, HasPending;
    ResumeMeans(sys, ids, t);
    NoOpenMeaning(sys.mem, t);
    OpenFacts(sys.mem, t);
    PendingFacts(sys.mem, t);
  }

  // ---------------------------------------------------- recovering again, much later

  predicate Starts(e: Event) {
    e.TaskStarted? || e.TaskResumed?
  }

  /** Nothing is at work. */
  ghost predicate Idle(s: State) {
    forall t :: t in s.tasks ==> !Executing(s.tasks[t].state)
  }

  lemma RecordStaysIdle(s: State, e: Event)
    requires Legal(s, e) && !Starts(e) && e.taskId in s.tasks && !Executing(s.tasks[e.taskId].state)
    ensures !Executing(RecordAfter(s.tasks[e.taskId], e).state)
  {
    hide NoOpen, NoPending, Matches;
  }

  lemma CreatedIsIdle(s: State, e: Event)
    requires Guard(s, e) && e.taskId !in s.tasks && e.taskId in Next(s, e).tasks
    ensures !Executing(Next(s, e).tasks[e.taskId].state)
  {
    hide InsertAt, Without, Supersede, RevisedTask, WithBoundary, WithEvidence, Park, Finish, Ask;
  }

  lemma EventStaysIdle(s: State, e: Event)
    requires Legal(s, e) && Guard(s, e) && !Starts(e) && Idle(s)
    ensures Idle(Next(s, e))
  {
    hide Legal, Guard, Next, RecordAfter, Executing;
    ShapeOfTasks(s, e);
    if e.taskId in s.tasks {
      ShapeOfRecord(s, e);
      RecordStaysIdle(s, e);
    } else if e.taskId in Next(s, e).tasks {
      CreatedIsIdle(s, e);
    }
  }

  lemma {:induction false} EventsStayIdle(s: State, events: seq<Event>)
    requires Inv(s) && LegalAll(s, events) && Idle(s) && forall e :: e in events ==> !Starts(e)
    ensures Idle(After(s, events))
    decreases |events|
  {
    hide Inv, Legal, Guard, Next, Starts, Idle;
    if events != [] {
      LegalApplies(s, events[0]);
      EventStaysIdle(s, events[0]);
      EventsStayIdle(Next(s, events[0]), events[1..]);
    }
  }

  /** What a step adds to the log. */
  function Added(a: Store, b: Store): seq<Event> {
    if |a.log| <= |b.log| then b.log[|a.log|..] else []
  }

  lemma StepStaysIdle(sys: Sys, step: Step)
    requires SysOk(sys) && Idle(sys.mem) && Perform(sys, step).Some?
    requires forall e :: e in Added(sys.store, Perform(sys, step).value.store) ==> !Starts(e)
    ensures Idle(Perform(sys, step).value.mem)
  {
    hide Inv, Settled, Justified, Decide, Fresh, RefusedUnrecorded, ApplyAll, Starts, Idle;
    match step
    case Signalled(id, ids, sig) =>
      if RefusedUnrecorded(sys.mem, sig) {
        RefusalKeeps(sys, id, ids, sig);
      } else if id in sys.store.commands {
        RepeatedCommand(sys, id, ids, sig);
      } else {
        DecisionApplies(sys.mem, sys.rows, id, ids, sig);
        var events := Decide(sys.mem, sys.rows, id, ids, sig).events;
        assert Added(sys.store, Perform(sys, step).value.store) == events;
        EventsStayIdle(sys.mem, events);
      }
    case Recorded(_) =>
    case Restarted => ReplayRestoresMemory(sys);
  }

  lemma {:induction false} RunStaysIdle(before: seq<Step>, steps: seq<Step>)
    requires Execute(before).Some? && Execute(before + steps).Some? && Idle(Execute(before).value.mem)
    requires forall e :: e in Added(Execute(before).value.store, Execute(before + steps).value.store) ==> !Starts(e)
    ensures Idle(Execute(before + steps).value.mem)
    decreases |steps|
  {
    hide Perform, Idle, Starts, SysOk;
    if steps == [] {
      assert before + steps == before;
    } else {
      var n := |steps| - 1;
      var all := before + steps;
      assert all[..|all| - 1] == before + steps[..n];
      var first, middle, last := Execute(before).value, Execute(before + steps[..n]).value, Execute(all).value;
      RunGrowsStore(before, steps[..n]);
      StepGrowsStore(middle, steps[n]);
      AddedSplits(first.store, middle.store, last.store);
      RunStaysIdle(before, steps[..n]);
      RunsAreOk(before + steps[..n]);
      StepStaysIdle(middle, steps[n]);
    }
  }

  lemma AddedSplits(a: Store, b: Store, c: Store)
    requires a.log <= b.log <= c.log
    ensures forall e :: e in Added(a, c) <==> e in Added(a, b) || e in Added(b, c)
  {
    assert Added(a, c) == Added(a, b) + Added(b, c);
  }

  lemma IdleRejectsRecovery(s: State)
    requires Idle(s)
    ensures DecideRecover(s) == Reject(NothingToRecover)
  {
  }

  /** After a recovery, and whatever happens then, recovering again under any id is rejected as long as
      no task has been started or resumed since. */
  lemma RecoveryStaysRejected(before: seq<Step>, steps: seq<Step>, id: Id, ids: FreshIds, again: Id, laterIds: FreshIds)
    requires Execute(before).Some? && id !in Execute(before).value.store.commands
    requires var recovered := before + [Signalled(id, ids, Recover)];
      && Execute(recovered).Some? && Execute(recovered + steps).Some?
      && forall e :: e in Added(Execute(recovered).value.store, Execute(recovered + steps).value.store) ==> !Starts(e)
    ensures var later := Execute(before + [Signalled(id, ids, Recover)] + steps).value;
      Decide(later.mem, later.rows, again, laterIds, Recover) == Reject(NothingToRecover)
  {
    hide SysOk, Idle, Starts;
    var sys, step := Execute(before).value, Signalled(id, ids, Recover);
    var recovered := before + [step];
    assert recovered[..|recovered| - 1] == before && recovered[|recovered| - 1] == step;
    assert Execute(recovered) == Perform(sys, step);
    hide Execute;
    RecoveredIsIdle(sys, before, id, ids);
    RunStaysIdle(recovered, steps);
    IdleRejectsRecovery(Execute(recovered + steps).value.mem);
  }

  lemma RecoveredIsIdle(sys: Sys, before: seq<Step>, id: Id, ids: FreshIds)
    requires Execute(before) == Some(sys) && id !in sys.store.commands
    requires Perform(sys, Signalled(id, ids, Recover)).Some?
    ensures Idle(Perform(sys, Signalled(id, ids, Recover)).value.mem)
  {
    hide Handle, Fresh, Execute, ResumeAccepted, SameWork, Idle;
    assert Reachable(sys);
    var recovered := Perform(sys, Signalled(id, ids, Recover)).value;
    var again := Above(recovered.store.commands.Keys);
    RestartAndRecover(sys, id, ids, again, ids);
    StepKeepsOk(sys, before, Signalled(id, ids, Recover));
    RecoverIs(recovered.mem, recovered.rows, again, ids);
    StoppedIsIdle(recovered.mem);
  }

  lemma RecoverIs(s: State, rows: seq<Artifact>, id: Id, ids: FreshIds)
    ensures Decide(s, rows, id, ids, Recover) == DecideRecover(s)
  {
  }

  lemma StepKeepsOk(sys: Sys, before: seq<Step>, step: Step)
    requires Execute(before) == Some(sys) && Perform(sys, step).Some?
    ensures SysOk(Perform(sys, step).value)
  {
    hide SysOk, Perform;
    RunsAreOk(before);
    StepKeeps(sys, step);
  }

  /** An executing task owns the slot with a run, so it could be recovered. */
  lemma StoppedIsIdle(s: State)
    requires Inv(s) && !DecideRecover(s).result.Accepted?
    ensures Idle(s)
  {
    hide Inv;
    forall t | t in s.tasks
      ensures !Executing(s.tasks[t].state)
    {
      ExecutingCanRecover(s, t);
    }
  }

  lemma ExecutingCanRecover(s: State, t: Id)
    requires Inv(s) && t in s.tasks
    ensures Executing(s.tasks[t].state) ==> DecideRecover(s).result.Accepted?
  {
    TaskFacts(s, t);
    hide Inv, HistoryOk, RunListOk;
  }
}

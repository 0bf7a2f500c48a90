/** Cancelling a task that still has an open question: the one decision whose events cannot be
    applied (packages/core/src/controller.ts:692-716, packages/core/src/domain.ts:371-387 and
    517-519). */
module Cancellation {
  import opened Protocol
  import opened Domain
  import opened Evidence
  import opened Decisions
  import opened Invariants
  import opened Progress
  import opened Controller
  import opened SlotTheorems

  lemma AskingOpens(s: State, e: Event)
    requires e.QuestionAsked? && Guard(s, e)
    ensures var s' := Next(s, e);
            && HasOpenQuestion(s', e.taskId) && e.taskId in s'.tasks
            && s'.tasks[e.taskId].revision == s.tasks[e.taskId].revision
  {
    hide Park;
    assert e.questionId in OpenQuestions(Next(s, e).questions, e.taskId);
    ShapeOfRecord(s, e);
  }

  /** Whatever task is running, one question leads to a reachable state in which cancelling it
      at its revision is accepted, persisted, and throws. */
  lemma EveryRunningTaskIsOneQuestionFromTheGap(sys: Sys, id: Id, ids: FreshIds, t: Id, question: string)
    requires Reachable(sys) && t in sys.mem.tasks && sys.mem.tasks[t].state == Running
    requires Fresh(sys.mem, ids) && id !in sys.store.commands && question != ""
    ensures var asked := Handle(sys, id, ids, AskQuestion(t, question));
            && asked.Returned? && Reachable(asked.sys)
            && CancelsOpenQuestion(asked.sys.mem, Cancel(t, sys.mem.tasks[t].revision))
  {
    hide Inv, Settled, Justified, Reachable, ApplyAll, Fresh, HasOpenQuestion, Guard, Next;
    ReachableIsOk(sys);
    var s := sys.mem;
    var sig := AskQuestion(t, question);
    TaskFacts(s, t);
    OpenFacts(s, t);
    NoOpenMeaning(s, t);
    var e := QuestionAsked(t, id, s.tasks[t].activeRunId.value, s.tasks[t].revision, question);
    assert Decide(s, sys.rows, id, ids, sig) == Accept(t, [e]);
    CommandThrowsExactlyWhen(sys, id, ids, sig);
    DecisionApplies(s, sys.rows, id, ids, sig);
    AfterOne(s, e);
    AskingOpens(s, e);
    ReachableExtends(sys, Signalled(id, ids, sig));
  }

  lemma SubmitStarts(s: State, ids: FreshIds, spec: TaskSpec)
    requires Ready(s) && Fresh(s, ids) && s.active == None
    ensures var d := DecideSubmit(s, ids, spec);
            && LegalAll(s, d.events)
            && ids.task in After(s, d.events).tasks
            && After(s, d.events).tasks[ids.task].state == Running
  {
    hide Inv, Settled, FirstFast;
    SubmitProgress(s, ids, spec);
    var events := DecideSubmit(s, ids, spec).events;
    StartsLast(s, events, ids.task);
  }

  lemma {:induction false} StartsLast(s: State, events: seq<Event>, t: Id)
    requires Inv(s) && LegalAll(s, events) && events != []
    requires events[|events| - 1].TaskStarted? && events[|events| - 1].taskId == t
    ensures t in After(s, events).tasks && After(s, events).tasks[t].state == Running
    decreases |events|
  {
    hide Inv, Legal, Guard, Next;
    LegalApplies(s, events[0]);
    if |events| == 1 {
      StartRuns(s, events[0]);
    } else {
      StartsLast(Next(s, events[0]), events[1..], t);
    }
  }

  lemma StartRuns(s: State, e: Event)
    requires e.TaskStarted? && Guard(s, e)
    ensures e.taskId in Next(s, e).tasks && Next(s, e).tasks[e.taskId].state == Running
  {
    hide Without;
  }

  /** The first submission starts its task. */
  lemma FirstSubmission(spec: TaskSpec) returns (started: Sys)
    ensures Reachable(started) && 10 in started.mem.tasks && started.mem.tasks[10].state == Running
    ensures 2 !in started.store.commands
  {
    hide Inv, Settled, ApplyAll, Decide, CancelsOpenQuestion, DecideSubmit, LegalAll, After;
    var none: seq<Step> := [];
    assert Execute(none) == Some(INITIAL);
    InitialOk();
    var ids := FreshIds(10, 11, 12);
    var sig := Submit(spec);
    SubmitIs(EMPTY, 1, ids, spec);
    OnlyCancelCancels(EMPTY, sig);
    CommandThrowsExactlyWhen(INITIAL, 1, ids, sig);
    DecisionApplies(EMPTY, [], 1, ids, sig);
    SubmitStarts(EMPTY, ids, spec);
    ReachableExtends(INITIAL, Signalled(1, ids, sig));
    started := Handle(INITIAL, 1, ids, sig).sys;
  }

  /** The gap is reachable: submit, ask, cancel. */
  lemma GapIsReachable(spec: TaskSpec) returns (sys: Sys)
    ensures Reachable(sys)
    ensures 10 in sys.mem.tasks && CancelsOpenQuestion(sys.mem, Cancel(10, sys.mem.tasks[10].revision))
  {
    hide Inv, Settled, ApplyAll, Decide, CancelsOpenQuestion, Handle, Reachable, Fresh;
    var started := FirstSubmission(spec);
    var ids := UnusedIds(started.mem);
    EveryRunningTaskIsOneQuestionFromTheGap(started, 2, ids, 10, "Which file?");
    sys := Handle(started, 2, ids, AskQuestion(10, "Which file?")).sys;
    SameRevision(sys.mem, 10, started.mem.tasks[10].revision);
  }

  lemma SubmitIs(s: State, id: Id, ids: FreshIds, spec: TaskSpec)
    ensures Decide(s, [], id, ids, Submit(spec)) == DecideSubmit(s, ids, spec)
  {
  }

  lemma SameRevision(s: State, t: Id, revision: nat)
    requires CancelsOpenQuestion(s, Cancel(t, revision))
    ensures t in s.tasks && s.tasks[t].revision == revision
  {
  }

  /** Three ids above everything in use. */
  lemma UnusedIds(s: State) returns (ids: FreshIds)
    ensures Fresh(s, ids)
  {
    var a := Above(s.tasks.Keys);
    var b := Above(s.runs.Keys);
    var c := Above(s.confirmations.Keys);
    ids := FreshIds(a, b, c);
  }

  lemma {:induction false} Above(used: set<Id>) returns (n: Id)
    ensures forall i :: i in used ==> i < n
  {
    if used == {} {
      n := 0;
    } else {
      var x :| x in used;
      n := Above(used - {x});
      if n <= x { n := x + 1; }
      assert forall i :: i in used ==> i == x || i in used - {x};
    }
  }

  /** After the throw the event is persisted: the command is recorded as accepted, and neither
      this log nor any extension of it can ever be replayed again, so every restart throws. */
  lemma ThrownCancelPoisonsTheLog(sys: Sys, id: Id, ids: FreshIds, sig: Signal, more: seq<Event>)
    requires SysOk(sys) && CancelsOpenQuestion(sys.mem, sig) && Fresh(sys.mem, ids) && id !in sys.store.commands
    ensures var outcome := Handle(sys, id, ids, sig);
            && outcome.Thrown?
            && sys.store.log < outcome.sys.store.log
            && id in outcome.sys.store.commands && outcome.sys.store.commands[id] == Accepted(sig.taskId)
            && Replay(outcome.sys.store.log + more).Threw?
            && Restart(outcome.sys.store, outcome.sys.rows) == None
  {
    hide Inv, Settled, Justified, Decide, ApplyAll, Fresh, CancelsOpenQuestion, RefusedUnrecorded;
    var s := sys.mem;
    assert sig.Cancel? by { OnlyCancelCancels(s, sig); }
    assert !RefusedUnrecorded(s, sig) by { CancelIsRecorded(s, sig); }
    CommandThrowsExactlyWhen(sys, id, ids, sig);
    CancelWithOpenQuestionThrows(s, sys.rows, id, ids, sig);
    DecisionIsWellFormed(s, sys.rows, id, ids, sig);
    var events := Decide(s, sys.rows, id, ids, sig).events;
    assert events != [] by { ApplyNothing(s, s.seqNo + 1); }
    assert Handle(sys, id, ids, sig).sys.store.log == sys.store.log + events;
    ApplyAllConcat(EMPTY, 1, sys.store.log, events);
    ApplyAllConcat(EMPTY, 1, sys.store.log + events, more);
  }

  lemma ApplyNothing(s: State, first: nat)
    ensures ApplyAll(s, first, []) == Ok(s)
  {
  }

  lemma CancelIsRecorded(s: State, sig: Signal)
    requires sig.Cancel?
    ensures !RefusedUnrecorded(s, sig)
  {
  }

  /** Closing the open questions of the task together with the cancellation removes the
      exception: the same decision then always applies and settles. */
  lemma SupersedingFirstRepairsCancel(s: State, ids: FreshIds, t: Id)
    requires Ready(s) && Fresh(s, ids) && t in s.tasks
    ensures var closed := s.(questions := Supersede(s.questions, t));
            var r := ApplyAll(closed, s.seqNo + 1, DecideCancel(s, ids, t).events);
            r.Ok? && Ready(r.state)
  {
    hide Inv, Settled, ApplyAll, LegalAll, After, Good;
    var closed := s.(questions := Supersede(s.questions, t));
    SupersedeKeeps(s, t);
    assert DecideCancel(closed, ids, t) == DecideCancel(s, ids, t);
    CancelProgress(closed, ids, t);
    var events := DecideCancel(s, ids, t).events;
    GoodApplies(closed, events);
  }

  lemma GoodApplies(s: State, events: seq<Event>)
    requires Inv(s) && Good(s, events)
    ensures ApplyAll(s, s.seqNo + 1, events).Ok? && Ready(ApplyAll(s, s.seqNo + 1, events).state)
  {
    hide Inv, Settled, ApplyAll;
    LegalAllApplies(s, events);
  }

  lemma SupersedeKeeps(s: State, t: Id)
    requires Ready(s) && t in s.tasks
    ensures var closed := s.(questions := Supersede(s.questions, t));
            Ready(closed) && NoOpen(closed, t)
  {
    var closed := s.(questions := Supersede(s.questions, t));
    hide Inv, Collide, TaskOk;
    TaskFacts(s, t);
    QueueFacts(s, t);
    PendingFacts(s, t);
    assert s.tasks == s.tasks[t := s.tasks[t]];
    assert TaskOk(closed, t) by { SameRecord(s, closed, t); }
    MoveKeeps(s, closed, t, None);
    forall u | u in closed.tasks ensures CalmTask(closed, u) {
      assert CalmTask(s, u);
      forall c | IsPending(closed, c) ensures IsPending(s, c) {}
    }
  }

  lemma SameRecord(s: State, s': State, t: Id)
    requires t in s.tasks && TaskOk(s, t) && s'.tasks == s.tasks && s'.runs == s.runs && s'.active == s.active
    ensures TaskOk(s', t)
  {
  }
}

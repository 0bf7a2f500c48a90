/** The daemon after a cancellation has thrown: memory keeps the open question of the cancelled task, so
    the check after an event (packages/core/src/domain.ts:510-519) fails for whatever comes next. */
module Aftermath {
  import opened Protocol
  import opened Domain
  import opened Evidence
  import opened Decisions
  import opened Invariants
  import opened Progress
  import opened Controller
  import opened Cancellation

  /** Task `t` is cancelled, out of slot and queue, and its question `q` is still open. */
  ghost predicate Wedged(s: State, t: Id, q: Id) {
    && t in s.tasks && s.tasks[t].state == Cancelled && s.tasks[t].activeRunId.None?
    && s.active != Some(t) && t !in s.queue
    && q in s.questions && s.questions[q].taskId == t && s.questions[q].state == Open
  }

  /** An event that cannot undo that. */
  ghost predicate Stranger(e: Event, t: Id, q: Id) {
    && e.taskId != t
    && (e.QueueReordered? ==> t !in e.taskIds)
    && (e.QuestionAnswered? ==> e.questionId != q)
  }

  // --------------------------------------------------------------- what is decided now

  lemma MembersOfQueue(queue: seq<Id>, t: Id)
    ensures forall u :: u in Without(queue, t) ==> u in queue
  {
    forall u | u in Without(queue, t)
      ensures u in queue
    {
      assert u in multiset(Without(queue, t));
      assert u in multiset(queue);
    }
  }

  lemma MembersInserted(queue: seq<Id>, position: nat, t: Id)
    ensures forall u :: u in InsertAt(queue, position, t) ==> u == t || u in queue
  {
    forall u | u in InsertAt(queue, position, t)
      ensures u == t || u in queue
    {
      assert u in multiset(InsertAt(queue, position, t));
    }
  }

  lemma MoveIsStrange(s: State, t: Id, q: Id, moved: Id, operation: QueueOperation, anchor: Option<Id>)
    requires Wedged(s, t, q)
    ensures forall e :: e in DecideMove(s, moved, operation, anchor).events ==> Stranger(e, t, q)
  {
    hide MovedQueue;
    if moved in s.queue && MovedQueue(s.queue, moved, operation, anchor).Some? {
      var queue := MovedQueue(s.queue, moved, operation, anchor).value;
      MovedIsPermutation(s.queue, moved, operation, anchor);
      SameMembers(queue, s.queue);
    }
  }

  lemma SameMembers(a: seq<Id>, b: seq<Id>)
    requires multiset(a) == multiset(b)
    ensures forall u :: u in a ==> u in b
  {
    forall u | u in a
      ensures u in b
    {
      assert u in multiset(a);
    }
  }

  lemma NextIsStrange(s: State, ids: FreshIds, t: Id, q: Id)
    requires Wedged(s, t, q)
    ensures forall e :: e in StartNext(s, ids) ==> Stranger(e, t, q)
  {
  }

  lemma CommandIsStrange(s: State, rows: seq<Artifact>, id: Id, ids: FreshIds, sig: Signal, t: Id, q: Id)
    requires Wedged(s, t, q) && ids.task !in s.tasks
    requires sig.Submit? || sig.RequestPause? || sig.Revise? || sig.Resume? || sig.AnswerQuestion? || sig.Cancel?
             || sig.MoveQueue? || sig.ResolveApproval?
    ensures forall e :: e in Decide(s, rows, id, ids, sig).events ==> Stranger(e, t, q)
  {
    hide FirstFast, HasOpenQuestion, HasPending, StartNext, DecideMove;
    NextIsStrange(s, ids, t, q);
    if sig.MoveQueue? { MoveIsStrange(s, t, q, sig.taskId, sig.operation, sig.anchor); }
  }

  lemma SignalIsStrange(s: State, rows: seq<Artifact>, id: Id, ids: FreshIds, sig: Signal, t: Id, q: Id)
    requires Wedged(s, t, q)
    requires sig.SafeBoundary? || sig.AskQuestion? || sig.BindSession? || sig.Authorize? || sig.RecordArtifact?
             || sig.ReportConflict? || sig.Complete? || sig.Fail? || sig.Recover?
    ensures forall e :: e in Decide(s, rows, id, ids, sig).events ==> Stranger(e, t, q)
  {
    hide FindConfirmation, HasOpenQuestion, ConflictPaths, ValidateCompletion, StartNext;
    NextIsStrange(s, ids, t, q);
  }

  lemma DecisionIsStrange(s: State, rows: seq<Artifact>, id: Id, ids: FreshIds, sig: Signal, t: Id, q: Id)
    requires Wedged(s, t, q) && ids.task !in s.tasks
    ensures forall e :: e in Decide(s, rows, id, ids, sig).events ==> Stranger(e, t, q)
  {
    hide Decide, Wedged, Stranger;
    if sig.Submit? || sig.RequestPause? || sig.Revise? || sig.Resume? || sig.AnswerQuestion? || sig.Cancel?
       || sig.MoveQueue? || sig.ResolveApproval? {
      CommandIsStrange(s, rows, id, ids, sig, t, q);
    } else {
      SignalIsStrange(s, rows, id, ids, sig, t, q);
    }
  }

  // ------------------------------------------------------------------ what it does

  lemma ActiveAfter(s: State, e: Event)
    requires Guard(s, e)
    ensures Next(s, e).active == s.active || Next(s, e).active == Some(e.taskId) || Next(s, e).active == None
  {
    hide Guard, Next;
    if Travels(e) { TravelMovesActive(s, e); } else { NoteSparesActive(s, e); }
  }

  lemma TravelMovesActive(s: State, e: Event)
    requires Guard(s, e) && Travels(e)
    ensures Next(s, e).active == s.active || Next(s, e).active == Some(e.taskId) || Next(s, e).active == None
  {
    hide InsertAt, Without;
  }

  lemma NoteSparesActive(s: State, e: Event)
    requires Guard(s, e) && !Travels(e)
    ensures Next(s, e).active == s.active
  {
    hide Supersede, NewTask, RevisedTask, WithBoundary, WithEvidence;
  }

  lemma QueueStaysAway(s: State, e: Event, t: Id, q: Id)
    requires Wedged(s, t, q) && Stranger(e, t, q) && Guard(s, e)
    ensures t !in Next(s, e).queue
  {
    hide Guard, Next, Without, InsertAt;
    ShapeOfQueue(s, e);
    MembersOfQueue(s.queue, e.taskId);
    if e.TaskEnqueued? { MembersInserted(Without(s.queue, e.taskId), e.position, e.taskId); }
  }

  lemma QuestionStaysOpen(s: State, e: Event, t: Id, q: Id)
    requires Wedged(s, t, q) && Stranger(e, t, q) && Guard(s, e)
    ensures q in Next(s, e).questions && Next(s, e).questions[q] == s.questions[q]
  {
    hide Guard, Next;
    ShapeOfQuestions(s, e);
    if e.QuestionAsked? { AskedIsNew(s, e); }
  }

  lemma AskedIsNew(s: State, e: Event)
    requires Guard(s, e) && e.QuestionAsked?
    ensures e.questionId !in s.questions
  {
  }

  lemma WedgedStep(s: State, e: Event, t: Id, q: Id)
    requires Wedged(s, t, q) && Stranger(e, t, q) && Guard(s, e)
    ensures Wedged(Next(s, e), t, q)
  {
    hide Guard, Next;
    ShapeOfTasks(s, e);
    ActiveAfter(s, e);
    QueueStaysAway(s, e, t, q);
    QuestionStaysOpen(s, e, t, q);
  }

  lemma WedgedFailsTheCheck(s: State, t: Id, q: Id)
    requires Wedged(s, t, q)
    ensures !Checks(s)
  {
    hide QueueChecks, SlotChecks;
    assert q in OpenQuestions(s.questions, t);
    assert !TaskChecks(s, t);
  }

  /** Whatever is applied to it throws, and it stays as it is. */
  lemma WedgedThrows(s: State, first: nat, events: seq<Event>, t: Id, q: Id)
    requires Wedged(s, t, q) && forall e :: e in events ==> Stranger(e, t, q)
    ensures var r := ApplyAll(s, first, events);
            && Wedged(r.state, t, q)
            && (if events == [] then r == Ok(s) else r.Threw?)
  {
    hide Guard, Effect, Checks, Stranger, Wedged;
    if events != [] {
      var e := events[0];
      assert Stranger(e, t, q);
      if first == s.seqNo + 1 && Guard(s, e) {
        WedgedStep(s, e, t, q);
        WedgedFailsTheCheck(Next(s, e), t, q);
      }
    }
  }

  // ---------------------------------------------------------------- over whole runs

  /** A signal to a daemon that goes on after a throw. */
  datatype Call = Call(id: Id, ids: FreshIds, sig: Signal)

  function Answer(sys: Sys, call: Call): Outcome {
    Handle(sys, call.id, call.ids, call.sig)
  }

  /** The daemon after some calls, returned or thrown. */
  function Continue(sys: Sys, calls: seq<Call>): Sys {
    if calls == [] then sys else Answer(Continue(sys, calls[..|calls| - 1]), calls[|calls| - 1]).sys
  }

  ghost predicate AllFresh(sys: Sys, calls: seq<Call>) {
    forall n :: 0 <= n < |calls| ==> Fresh(Continue(sys, calls[..n]).mem, calls[n].ids)
  }

  lemma WedgedAnswers(sys: Sys, call: Call, t: Id, q: Id)
    requires Wedged(sys.mem, t, q) && Fresh(sys.mem, call.ids)
    ensures var out := Answer(sys, call);
            && Wedged(out.sys.mem, t, q)
            && sys.store.log <= out.sys.store.log
            && (out.Returned? ==> out.sys.mem == sys.mem && out.sys.store.log == sys.store.log)
  {
    hide Decide, Wedged, Stranger, ApplyAll, RefusedUnrecorded;
    DecisionIsStrange(sys.mem, sys.rows, call.id, call.ids, call.sig, t, q);
    WedgedThrows(sys.mem, |sys.store.log| + 1, Decide(sys.mem, sys.rows, call.id, call.ids, call.sig).events, t, q);
    WedgedThrows(sys.mem, |sys.store.log| + 1, [], t, q);
  }

  lemma {:induction false} StaysWedged(sys: Sys, calls: seq<Call>, t: Id, q: Id)
    requires Wedged(sys.mem, t, q) && AllFresh(sys, calls)
    ensures Wedged(Continue(sys, calls).mem, t, q)
    ensures sys.store.log <= Continue(sys, calls).store.log
  {
    hide Wedged, Answer, Fresh;
    if calls != [] {
      var n := |calls| - 1;
      forall m | 0 <= m < n
        ensures Fresh(Continue(sys, calls[..n][..m]).mem, calls[..n][m].ids)
      {
        assert calls[..n][..m] == calls[..m];
      }
      StaysWedged(sys, calls[..n], t, q);
      WedgedAnswers(Continue(sys, calls[..n]), calls[n], t, q);
    }
  }

  /** The throw of a cancellation leaves memory with the open question of a cancelled task; with a task
      in the queue the log is one event ahead of memory, whose start is never applied. */
  lemma CancelWedges(sys: Sys, id: Id, ids: FreshIds, sig: Signal) returns (q: Id)
    requires SysOk(sys) && CancelsOpenQuestion(sys.mem, sig) && Fresh(sys.mem, ids) && id !in sys.store.commands
    ensures var out := Handle(sys, id, ids, sig);
            && out.Thrown? && Wedged(out.sys.mem, sig.taskId, q)
            && |out.sys.store.log| == out.sys.mem.seqNo + if sys.mem.queue == [] then 0 else 1
  {
    hide Inv, Settled, Justified, Fresh, ApplyAll, Decide, RefusedUnrecorded, SessionsNamed, ValidTable, WellFormed;
    var s, t := sys.mem, sig.taskId;
    assert !RefusedUnrecorded(s, sig) by { CancelIsRecorded(s, sig); }
    ThrownCancelPoisonsTheLog(sys, id, ids, sig, []);
    q := CancelledInMemory(s, t);
    CancelEvents(s, sys.rows, id, ids, sig);
    var events := Decide(s, sys.rows, id, ids, sig).events;
    FirstThrows(s, events);
    StoredInFull(sys, id, ids, sig);
  }

  lemma CancelEvents(s: State, rows: seq<Artifact>, id: Id, ids: FreshIds, sig: Signal)
    requires Inv(s) && CancelsOpenQuestion(s, sig)
    ensures var events := Decide(s, rows, id, ids, sig).events;
            && |events| == (if s.queue == [] then 1 else 2) && events[0] == TaskCancelled(sig.taskId)
  {
    hide Inv, HasOpenQuestion, RunListOk, HistoryOk;
    OpenQuestionWaits(s, sig.taskId);
    TaskFacts(s, sig.taskId);
    QueueFacts(s, sig.taskId);
    if s.queue != [] { assert s.queue[0] in s.queue; }
  }

  lemma CancelledInMemory(s: State, t: Id) returns (q: Id)
    requires Inv(s) && HasOpenQuestion(s, t)
    ensures Guard(s, TaskCancelled(t)) && Wedged(Next(s, TaskCancelled(t)), t, q)
    ensures Apply(s, s.seqNo + 1, TaskCancelled(t)) == Threw(Next(s, TaskCancelled(t)))
  {
    hide Inv, Checks, HasOpenQuestion;
    OpenQuestionWaits(s, t);
    WaitingIsIdle(s, t);
    q :| q in OpenQuestions(s.questions, t);
    CancelLeavesOpen(s, t, q);
    WedgedFailsTheCheck(Next(s, TaskCancelled(t)), t, q);
  }

  lemma WaitingIsIdle(s: State, t: Id)
    requires Inv(s) && t in s.tasks && s.tasks[t].state == Awaiting
    ensures s.active == Some(t) && s.tasks[t].activeRunId.None? && t !in s.queue
  {
    hide Inv, RunListOk, HistoryOk, ActiveRunOk;
    TaskFacts(s, t);
    QueueFacts(s, t);
  }

  lemma CancelLeavesOpen(s: State, t: Id, q: Id)
    requires t in s.tasks && q in OpenQuestions(s.questions, t)
    requires s.active == Some(t) && s.tasks[t].activeRunId.None? && t !in s.queue
    ensures Guard(s, TaskCancelled(t)) && Wedged(Next(s, TaskCancelled(t)), t, q)
  {
    hide Without;
  }

  lemma FirstThrows(s: State, events: seq<Event>)
    requires events != [] && Apply(s, s.seqNo + 1, events[0]).Threw?
    ensures ApplyAll(s, s.seqNo + 1, events) == Apply(s, s.seqNo + 1, events[0])
  {
  }

  lemma StoredInFull(sys: Sys, id: Id, ids: FreshIds, sig: Signal)
    requires id !in sys.store.commands && !RefusedUnrecorded(sys.mem, sig) && Handle(sys, id, ids, sig).sys != sys
    ensures var out, events := Handle(sys, id, ids, sig), Decide(sys.mem, sys.rows, id, ids, sig).events;
            && out.sys.store.log == sys.store.log + events
            && out.sys.mem == ApplyAll(sys.mem, |sys.store.log| + 1, events).state
  {
    hide Decide, ApplyAll, RefusedUnrecorded;
  }

  /** From every reachable state: once a cancellation has thrown, and whatever calls follow it, thrown or
      returned, a call that returns stores nothing in the log and changes nothing in memory, so every
      call that decides an event throws; and no restart helps. */
  lemma NothingWorksAfterTheThrow(sys: Sys, id: Id, ids: FreshIds, sig: Signal, calls: seq<Call>, last: Call)
    requires Reachable(sys) && CancelsOpenQuestion(sys.mem, sig) && Fresh(sys.mem, ids) && id !in sys.store.commands
    requires var thrown := Handle(sys, id, ids, sig).sys;
             AllFresh(thrown, calls) && Fresh(Continue(thrown, calls).mem, last.ids)
    ensures var now := Continue(Handle(sys, id, ids, sig).sys, calls);
            var out := Answer(now, last);
            && (out.Returned? ==> out.sys.mem == now.mem && out.sys.store.log == now.store.log)
            && Restart(out.sys.store, out.sys.rows) == None
  {
    hide Reachable, SysOk, CancelsOpenQuestion, Fresh, Handle, Wedged, Answer, Restart, Continue, AllFresh;
    ReachableIsOk(sys);
    OnlyCancelCancels(sys.mem, sig);
    var q := CancelWedges(sys, id, ids, sig);
    var thrown := Handle(sys, id, ids, sig).sys;
    StaysWedged(thrown, calls, sig.taskId, q);
    var now := Continue(thrown, calls);
    WedgedAnswers(now, last, sig.taskId, q);
    PrefixesChain(thrown.store.log, now.store.log, Answer(now, last).sys.store.log);
    NeverRestarts(sys, id, ids, sig, Answer(now, last).sys);
  }

  lemma PrefixesChain(a: seq<Event>, b: seq<Event>, c: seq<Event>)
    requires a <= b <= c
    ensures a <= c
  {
  }

  lemma NeverRestarts(sys: Sys, id: Id, ids: FreshIds, sig: Signal, later: Sys)
    requires SysOk(sys) && CancelsOpenQuestion(sys.mem, sig) && Fresh(sys.mem, ids) && id !in sys.store.commands
    requires Handle(sys, id, ids, sig).sys.store.log <= later.store.log
    ensures Restart(later.store, later.rows) == None
  {
    hide SysOk, CancelsOpenQuestion, Fresh, Handle, Replay;
    var log, log' := Handle(sys, id, ids, sig).sys.store.log, later.store.log;
    assert log' == log + log'[|log|..];
    ThrownCancelPoisonsTheLog(sys, id, ids, sig, log'[|log|..]);
  }
}

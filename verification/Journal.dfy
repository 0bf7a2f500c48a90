/** Memory is what the log says: every task, run and question record is read off the log, field by field,
    from the last event that wrote it or from all that did, in order. */
module Journal {
  import opened Protocol
  import opened Domain
  import opened Evidence
  import opened Invariants
  import opened Controller

  // ------------------------------------------------------------------------ task records

  function StateIn(log: seq<Event>, t: Id): TaskState {
    if log == [] then Queued
    else
      var n := |log| - 1;
      if log[n].taskId == t && log[n].TaskCreated? then Queued
      else if log[n].taskId == t && Sets(log[n]).Some? then Sets(log[n]).value
      else StateIn(log[..n], t)
  }

  predicate Begins(e: Event) {
    e.TaskStarted? || e.TaskResumed?
  }

  /** The events after which the task has no active run. */
  predicate Stops(e: Event) {
    || e.TaskCreated? || e.TaskPaused? || e.AwaitingUser? || e.QuestionAsked?
    || e.TaskCompleted? || e.TaskFailed? || e.TaskCancelled?
  }

  function ActiveRunIn(log: seq<Event>, t: Id): Option<Id> {
    if log == [] then None
    else
      var n := |log| - 1;
      if log[n].taskId == t && Begins(log[n]) then Some(log[n].runId)
      else if log[n].taskId == t && Stops(log[n]) then None
      else ActiveRunIn(log[..n], t)
  }

  function RunsIn(log: seq<Event>, t: Id): seq<Id> {
    if log == [] then []
    else
      var n := |log| - 1;
      RunsIn(log[..n], t) + if log[n].taskId == t && Begins(log[n]) then [log[n].runId] else []
  }

  /** The events that bring a spec. */
  predicate Specifies(e: Event, t: Id) {
    e.taskId == t && (e.TaskCreated? || e.SpecRevised?)
  }

  function HistoryIn(log: seq<Event>, t: Id): seq<HistoryEntry> {
    if log == [] then []
    else
      var n := |log| - 1;
      HistoryIn(log[..n], t)
      + if Specifies(log[n], t) then [HistoryEntry(log[n].revision, log[n].spec.objective)] else []
  }

  const NO_SPEC := TaskSpec("", "", [], [], [], None)

  function SpecIn(log: seq<Event>, t: Id): TaskSpec {
    if log == [] then NO_SPEC
    else
      var n := |log| - 1;
      if Specifies(log[n], t) then log[n].spec else SpecIn(log[..n], t)
  }

  function RevisionIn(log: seq<Event>, t: Id): nat {
    if log == [] then 0
    else
      var n := |log| - 1;
      if Specifies(log[n], t) then log[n].revision else RevisionIn(log[..n], t)
  }

  /** The ids of the artifacts in the order in which they were first recorded. */
  function EvidenceIn(log: seq<Event>, t: Id): seq<Id> {
    if log == [] then []
    else
      var n := |log| - 1;
      var before := EvidenceIn(log[..n], t);
      if && log[n].ArtifactCreated? && log[n].taskId == t
         && forall i :: 0 <= i < |before| ==> before[i] != log[n].artifactId
      then before + [log[n].artifactId]
      else before
  }

  function ConflictIn(log: seq<Event>, t: Id): Option<set<string>> {
    if log == [] then None
    else
      var n := |log| - 1;
      if log[n].ConflictDetected? && log[n].taskId == t then Some(log[n].paths)
      else if log[n].ConflictResolved? && log[n].taskId == t then None
      else ConflictIn(log[..n], t)
  }

  /** The last session bound, with the last recovery that stopped in it. */
  function SessionIn(log: seq<Event>, t: Id): Option<Session> {
    if log == [] then None
    else
      var n := |log| - 1;
      var e, before := log[n], SessionIn(log[..n], t);
      if e.SessionBound? && e.taskId == t then Some(Session(e.sessionId, e.runId, None))
      else if e.RecoveryBoundary? && e.taskId == t && before.Some? && before.value.id == e.sessionId then
        Some(Session(e.sessionId, before.value.boundRunId, Some(e.runId)))
      else before
  }

  /** The number of the event that created the task, and the repository it named; 0 without one. */
  function CreatedIn(log: seq<Event>, t: Id): nat {
    if log == [] then 0
    else
      var n := |log| - 1;
      if log[n].TaskCreated? && log[n].taskId == t then |log| else CreatedIn(log[..n], t)
  }

  function RepositoryIn(log: seq<Event>, t: Id): string {
    if log == [] then ""
    else
      var n := |log| - 1;
      if log[n].TaskCreated? && log[n].taskId == t then log[n].spec.repositoryId else RepositoryIn(log[..n], t)
  }

  function TaskIn(log: seq<Event>, t: Id): Task {
    Task(RepositoryIn(log, t), StateIn(log, t), SpecIn(log, t), RevisionIn(log, t), ActiveRunIn(log, t), RunsIn(log, t),
         EvidenceIn(log, t), ConflictIn(log, t), SessionIn(log, t), HistoryIn(log, t), CreatedIn(log, t))
  }

  // ------------------------------------------------------------- run and question records

  /** What the event makes of run `r`; a cancellation names the task and ends its active run. */
  function RunAfter(before: Option<Run>, e: Event, active: Option<Id>, r: Id): Option<Run> {
    if Begins(e) && e.runId == r then Some(Run(e.taskId, e.revision, RunRunning))
    else if before.None? then None
    else if e.RunInterrupted? && e.runId == r then Some(before.value.(state := RunInterruptedState))
    else if e.TaskPaused? && e.runId == r then
      Some(if before.value.state == RunInterruptedState then before.value else before.value.(state := RunPaused))
    else if (e.AwaitingUser? || e.QuestionAsked?) && e.runId == r then Some(before.value.(state := RunPaused))
    else if e.TaskCompleted? && e.runId == r then Some(before.value.(state := RunCompleted))
    else if e.TaskFailed? && e.runId == r then Some(before.value.(state := RunFailed))
    else if e.TaskCancelled? && active == Some(r) then Some(before.value.(state := RunCancelled))
    else before
  }

  function RunIn(log: seq<Event>, r: Id): Option<Run> {
    if log == [] then None
    else
      var n := |log| - 1;
      RunAfter(RunIn(log[..n], r), log[n], ActiveRunIn(log[..n], log[n].taskId), r)
  }

  /** A question is open from being asked until it is answered or its task is revised. */
  function QuestionIn(log: seq<Event>, q: Id): Option<Question> {
    if log == [] then None
    else
      var n := |log| - 1;
      var e, before := log[n], QuestionIn(log[..n], q);
      if e.QuestionAsked? && e.questionId == q then Some(Question(e.taskId, e.revision, e.runId, Open))
      else if before.None? then None
      else if e.QuestionAnswered? && e.questionId == q then Some(before.value.(state := Answered))
      else if e.SpecRevised? && before.value.taskId == e.taskId && before.value.state == Open then
        Some(before.value.(state := Superseded))
      else before
  }

  // ------------------------------------------------------------------------ one event more

  lemma RecordExtends(log: seq<Event>, e: Event, t: Id)
    requires e.taskId == t && !e.TaskCreated?
    ensures TaskIn(log + [e], t) == RecordAfter(TaskIn(log, t), e)
  {
    assert (log + [e])[..|log|] == log;
  }

  lemma StrangerExtends(log: seq<Event>, e: Event, t: Id)
    requires e.taskId != t
    ensures TaskIn(log + [e], t) == TaskIn(log, t)
  {
    assert (log + [e])[..|log|] == log;
  }

  /** Events that write no record of their task. */
  predicate Leaves(e: Event) {
    || e.QuestionAnswered? || e.RunInterrupted? || e.PolicyDecisionRecorded? || e.ApprovalRequested?
    || e.ApprovalResolved? || e.ApprovalConsumed? || e.QueueReordered?
  }

  /** No event has written a record of the task yet. */
  ghost predicate Silent(log: seq<Event>, t: Id) {
    forall i :: 0 <= i < |log| && log[i].taskId == t ==> Leaves(log[i])
  }

  lemma {:induction false} SilentMeans(log: seq<Event>, t: Id)
    requires Silent(log, t)
    ensures RunsIn(log, t) == [] && EvidenceIn(log, t) == [] && HistoryIn(log, t) == []
    ensures ConflictIn(log, t) == None && SessionIn(log, t) == None && ActiveRunIn(log, t) == None
  {
    if log != [] { SilentMeans(log[..|log| - 1], t); }
  }

  lemma CreationExtends(log: seq<Event>, e: Event, t: Id)
    requires e.taskId == t && e.TaskCreated? && Silent(log, t)
    ensures TaskIn(log + [e], t) == NewTask(e.spec, e.revision, |log| + 1)
  {
    assert (log + [e])[..|log|] == log;
    SilentMeans(log, t);
  }

  // ---------------------------------------------------------------------- memory is the log

  ghost predicate TasksMatch(log: seq<Event>, s: State) {
    forall t: Id :: if t in s.tasks then s.tasks[t] == TaskIn(log, t) else Silent(log, t)
  }

  ghost predicate RunsMatch(log: seq<Event>, s: State) {
    forall r: Id :: RunIn(log, r) == if r in s.runs then Some(s.runs[r]) else None
  }

  ghost predicate QuestionsMatch(log: seq<Event>, s: State) {
    forall q: Id :: QuestionIn(log, q) == if q in s.questions then Some(s.questions[q]) else None
  }

  lemma KnownOrSilent(s: State, e: Event)
    requires Guard(s, e)
    ensures e.TaskCreated? || Leaves(e) || e.taskId in s.tasks
    ensures e.TaskCreated? ==> e.taskId !in s.tasks
  {
  }

  lemma CreatedRecord(s: State, e: Event)
    requires Guard(s, e) && e.TaskCreated?
    ensures Next(s, e).tasks == s.tasks[e.taskId := NewTask(e.spec, e.revision, s.seqNo + 1)]
  {
    hide NewTask;
  }

  lemma UnknownStays(s: State, e: Event)
    requires Guard(s, e) && e.taskId !in s.tasks && !e.TaskCreated?
    ensures e.taskId !in Next(s, e).tasks
  {
    hide Supersede;
  }

  lemma TasksStep(log: seq<Event>, s: State, e: Event)
    requires Guard(s, e) && s.seqNo == |log| && TasksMatch(log, s)
    ensures TasksMatch(log + [e], Next(s, e))
  {
    hide Guard, Next, TaskIn, RecordAfter, Silent, Leaves, NewTask;
    ShapeOfTasks(s, e);
    KnownOrSilent(s, e);
    if e.taskId in s.tasks {
      ShapeOfRecord(s, e);
      RecordExtends(log, e, e.taskId);
    } else if e.TaskCreated? {
      CreatedRecord(s, e);
      CreationExtends(log, e, e.taskId);
    } else {
      UnknownStays(s, e);
    }
    forall t: Id
      ensures t != e.taskId ==> TaskIn(log + [e], t) == TaskIn(log, t)
      ensures Silent(log, t) && (t != e.taskId || Leaves(e)) ==> Silent(log + [e], t)
    {
      if t != e.taskId { StrangerExtends(log, e, t); }
      if Silent(log, t) && (t != e.taskId || Leaves(e)) { SilenceGrows(log, e, t); }
    }
  }

  lemma SilenceGrows(log: seq<Event>, e: Event, t: Id)
    requires Silent(log, t) && (t != e.taskId || Leaves(e))
    ensures Silent(log + [e], t)
  {
  }

  lemma RunsStep(log: seq<Event>, s: State, e: Event)
    requires Guard(s, e) && TasksMatch(log, s) && RunsMatch(log, s)
    ensures RunsMatch(log + [e], Next(s, e))
  {
    hide Guard, Next, RunIn;
    forall r: Id
      ensures RunIn(log + [e], r) == if r in Next(s, e).runs then Some(Next(s, e).runs[r]) else None
    {
      RunExtends(log, s, e, r);
    }
  }

  function RunOfState(s: State, r: Id): Option<Run> {
    if r in s.runs then Some(s.runs[r]) else None
  }

  function ActiveOf(s: State, t: Id): Option<Id> {
    if t in s.tasks then s.tasks[t].activeRunId else None
  }

  lemma BeginWritesRun(s: State, e: Event, r: Id)
    requires Guard(s, e) && Begins(e)
    ensures RunOfState(Next(s, e), r) == RunAfter(RunOfState(s, r), e, ActiveOf(s, e.taskId), r)
  {
    hide Without;
  }

  lemma ParkWritesRun(s: State, e: Event, r: Id)
    requires Guard(s, e) && Parks(e)
    ensures RunOfState(Next(s, e), r) == RunAfter(RunOfState(s, r), e, ActiveOf(s, e.taskId), r)
  {
  }

  lemma FinishWritesRun(s: State, e: Event, r: Id)
    requires Guard(s, e) && Finishes(e)
    ensures RunOfState(Next(s, e), r) == RunAfter(RunOfState(s, r), e, ActiveOf(s, e.taskId), r)
  {
    hide Without;
  }

  lemma NoteWritesRun(s: State, e: Event, r: Id)
    requires Guard(s, e) && !Begins(e) && !Parks(e) && !Finishes(e)
    ensures RunOfState(Next(s, e), r) == RunAfter(RunOfState(s, r), e, ActiveOf(s, e.taskId), r)
  {
    hide Supersede, NewTask, RevisedTask, WithBoundary, WithEvidence, InsertAt, Without;
  }

  lemma RunExtends(log: seq<Event>, s: State, e: Event, r: Id)
    requires Guard(s, e) && TasksMatch(log, s)
    requires RunIn(log, r) == if r in s.runs then Some(s.runs[r]) else None
    ensures RunIn(log + [e], r) == if r in Next(s, e).runs then Some(Next(s, e).runs[r]) else None
  {
    hide Guard, Next, Silent, RunAfter;
    assert (log + [e])[..|log|] == log;
    if Begins(e) {
      BeginWritesRun(s, e, r);
    } else if Parks(e) {
      ParkWritesRun(s, e, r);
    } else if Finishes(e) {
      FinishWritesRun(s, e, r);
    } else {
      NoteWritesRun(s, e, r);
    }
    ActiveIs(log, s, e, r);
  }

  lemma ActiveIs(log: seq<Event>, s: State, e: Event, r: Id)
    requires Guard(s, e) && TasksMatch(log, s)
    ensures var before := RunOfState(s, r);
            RunAfter(before, e, ActiveOf(s, e.taskId), r) == RunAfter(before, e, ActiveRunIn(log, e.taskId), r)
  {
    hide Silent;
    if e.TaskCancelled? { assert s.tasks[e.taskId].activeRunId == ActiveRunIn(log, e.taskId); }
  }

  lemma QuestionsStep(log: seq<Event>, s: State, e: Event)
    requires Guard(s, e) && QuestionsMatch(log, s)
    ensures QuestionsMatch(log + [e], Next(s, e))
  {
    hide Guard, Next, QuestionIn;
    forall q: Id
      ensures QuestionIn(log + [e], q) == if q in Next(s, e).questions then Some(Next(s, e).questions[q]) else None
    {
      QuestionExtends(log, s, e, q);
    }
  }

  lemma QuestionExtends(log: seq<Event>, s: State, e: Event, q: Id)
    requires Guard(s, e) && QuestionIn(log, q) == if q in s.questions then Some(s.questions[q]) else None
    ensures QuestionIn(log + [e], q) == if q in Next(s, e).questions then Some(Next(s, e).questions[q]) else None
  {
    hide Without, InsertAt, NewTask, RevisedTask, WithBoundary, WithEvidence;
    assert (log + [e])[..|log|] == log;
    ShapeOfQuestions(s, e);
  }

  lemma {:induction false} ReplayMatches(log: seq<Event>, s: State)
    requires Replay(log) == Ok(s)
    ensures s.seqNo == |log| && TasksMatch(log, s) && RunsMatch(log, s) && QuestionsMatch(log, s)
    decreases |log|
  {
    hide TasksMatch, RunsMatch, QuestionsMatch;
    if log == [] {
      EmptyMatches();
    } else {
      var n := |log| - 1;
      var e := log[n];
      assert log == log[..n] + [e];
      var before := LastStep(log[..n], e, s);
      ReplayMatches(log[..n], before);
      TasksStep(log[..n], before, e);
      RunsStep(log[..n], before, e);
      QuestionsStep(log[..n], before, e);
    }
  }

  lemma EmptyMatches()
    ensures TasksMatch([], EMPTY) && RunsMatch([], EMPTY) && QuestionsMatch([], EMPTY)
  {
  }

  lemma LastStep(log: seq<Event>, e: Event, s: State) returns (before: State)
    requires Replay(log + [e]) == Ok(s)
    ensures Replay(log) == Ok(before)
    ensures before.seqNo == |log| ==> Guard(before, e) && s == Next(before, e)
  {
    hide Guard, Effect, Checks;
    ApplyAllConcat(EMPTY, 1, log, [e]);
    before := Replay(log).state;
    assert [e][1..] == [];
  }

  // ------------------------------------------------------------------------------ the slot

  /** The task that holds the slot: the last one started or resumed, until it is completed, failed or
      cancelled. */
  function HolderIn(log: seq<Event>): Option<Id> {
    if log == [] then None
    else
      var n := |log| - 1;
      var e, before := log[n], HolderIn(log[..n]);
      if Begins(e) then Some(e.taskId)
      else if Finishes(e) && before == Some(e.taskId) then None
      else before
  }

  lemma HolderStep(s: State, e: Event)
    requires Guard(s, e)
    ensures Next(s, e).active == if Begins(e) then Some(e.taskId)
                                 else if Finishes(e) && s.active == Some(e.taskId) then None else s.active
  {
    hide Without, InsertAt, Supersede, NewTask, RevisedTask, WithBoundary, WithEvidence;
  }

  lemma {:induction false} ReplayHolds(log: seq<Event>, s: State)
    requires Replay(log) == Ok(s)
    ensures s.active == HolderIn(log)
    decreases |log|
  {
    if log != [] {
      var n := |log| - 1;
      assert log == log[..n] + [log[n]];
      hide Replay, Guard, Next, TasksMatch, RunsMatch, QuestionsMatch;
      var before := LastStep(log[..n], log[n], s);
      ReplayMatches(log[..n], before);
      ReplayHolds(log[..n], before);
      HolderStep(before, log[n]);
    }
  }

  lemma {:induction false} BegunRunIsKnown(log: seq<Event>, j: nat)
    requires j < |log| && Begins(log[j])
    ensures RunIn(log, log[j].runId).Some?
    decreases |log|
  {
    var n := |log| - 1;
    if j < n { BegunRunIsKnown(log[..n], j); }
  }

  lemma PrefixReplays(log: seq<Event>, i: nat)
    requires Replay(log).Ok? && i <= |log|
    ensures Replay(log[..i]).Ok?
  {
    hide Apply;
    assert log == log[..i] + log[i..];
    ApplyAllConcat(EMPTY, 1, log[..i], log[i..]);
  }

  /** Whatever log can be replayed, whoever wrote it: a task is started or resumed only into a free slot or
      its own, and in a run no earlier event has begun. */
  lemma ReplayedSlotIsExclusive(log: seq<Event>, i: nat)
    requires Replay(log).Ok? && i < |log| && Begins(log[i])
    ensures HolderIn(log[..i]) == None || HolderIn(log[..i]) == Some(log[i].taskId)
    ensures forall j :: 0 <= j < i && Begins(log[j]) ==> log[j].runId != log[i].runId
  {
    hide Replay, TasksMatch, QuestionsMatch, HolderIn, RunIn, Next;
    var next := i + 1;
    PrefixReplays(log, next);
    assert log[..next] == log[..i] + [log[i]];
    var before := LastStep(log[..i], log[i], Replay(log[..next]).state);
    ReplayMatches(log[..i], before);
    ReplayHolds(log[..i], before);
    forall j | 0 <= j < i && Begins(log[j])
      ensures log[j].runId != log[i].runId
    {
      assert log[..i][j] == log[j];
      BegunRunIsKnown(log[..i], j);
    }
  }

  // ------------------------------------------------------------------------- the theorem

  /** In every reachable state: every task record, every run record and every question record is exactly the
      one the log tells, there are no others, and the slot belongs to the task the log tells. */
  lemma RecordsAreTheLog(sys: Sys)
    requires Reachable(sys)
    ensures var s, log := sys.mem, sys.store.log;
            && s.active == HolderIn(log)
            && (forall t :: t in s.tasks ==> s.tasks[t] == TaskIn(log, t))
            && (forall t: Id :: t in s.tasks <==> Created(log, t))
            && (forall r: Id :: RunIn(log, r) == if r in s.runs then Some(s.runs[r]) else None)
            && (forall q: Id :: QuestionIn(log, q) == if q in s.questions then Some(s.questions[q]) else None)
  {
    hide Reachable, TaskIn, RunIn, QuestionIn, Replay, Silent, HolderIn;
    ReachableReplays(sys);
    ReplayHolds(sys.store.log, sys.mem);
    ReplayMatches(sys.store.log, sys.mem);
    forall t: Id
      ensures t in sys.mem.tasks <==> Created(sys.store.log, t)
    {
      TasksAreCreated(sys.store.log, sys.mem, t);
    }
  }

  lemma ReachableReplays(sys: Sys)
    requires Reachable(sys)
    ensures Replay(sys.store.log) == Ok(sys.mem)
  {
    hide Reachable, Replay, CompletionsJustified;
    ReachableIsOk(sys);
  }

  ghost predicate Created(log: seq<Event>, t: Id) {
    exists i :: 0 <= i < |log| && log[i].TaskCreated? && log[i].taskId == t
  }

  lemma {:induction false} TasksAreCreated(log: seq<Event>, s: State, t: Id)
    requires Replay(log) == Ok(s)
    ensures t in s.tasks <==> Created(log, t)
    decreases |log|
  {
    if log != [] {
      var n := |log| - 1;
      var e := log[n];
      assert log == log[..n] + [e];
      hide Replay, Guard, Next;
      var before := LastStep(log[..n], e, s);
      ReplayMatches(log[..n], before);
      TasksAreCreated(log[..n], before, t);
      CreationStep(before, e, t);
      CreatedGrows(log[..n], e, t);
    }
  }

  lemma CreatedGrows(log: seq<Event>, e: Event, t: Id)
    ensures Created(log + [e], t) <==> Created(log, t) || (e.TaskCreated? && e.taskId == t)
  {
    if Created(log, t) {
      var i :| 0 <= i < |log| && log[i].TaskCreated? && log[i].taskId == t;
      assert (log + [e])[i] == log[i];
    }
    assert (log + [e])[|log|] == e;
  }

  lemma CreationStep(s: State, e: Event, t: Id)
    requires Guard(s, e)
    ensures t in Next(s, e).tasks <==> t in s.tasks || (e.TaskCreated? && e.taskId == t)
  {
    hide Guard, Next;
    ShapeOfTasks(s, e);
    if e.TaskCreated? {
      CreatedRecord(s, e);
    } else if e.taskId !in s.tasks {
      UnknownStays(s, e);
    }
  }
}

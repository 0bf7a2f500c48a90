/** The controller's state and what one event does to it (packages/core/src/domain.ts). */
module Domain {
  import opened Protocol

  datatype TaskState =
    | Queued | Running | PauseWanted | Paused | Awaiting | Completed | Failed | Cancelled

  datatype RunState = RunRunning | RunPaused | RunCompleted | RunFailed | RunCancelled | RunInterruptedState

  datatype Session = Session(id: string, boundRunId: Id, recoveryBoundary: Option<Id>)

  datatype HistoryEntry = HistoryEntry(revision: nat, objective: string)

  /** `createdSeq` is the sequence number of the task's `task.created` event; it stands for
      the record's creation time. */
  datatype Task = Task(
    repositoryId: string,
    state: TaskState,
    spec: TaskSpec,
    revision: nat,
    activeRunId: Option<Id>,
    runIds: seq<Id>,
    evidenceIds: seq<Id>,
    workspaceConflict: Option<set<string>>,
    session: Option<Session>,
    specHistory: seq<HistoryEntry>,
    createdSeq: nat)

  datatype Run = Run(taskId: Id, taskRevision: nat, state: RunState)

  datatype QuestionState = Open | Answered | Superseded
  datatype Question = Question(taskId: Id, taskRevision: nat, runId: Id, state: QuestionState)

  datatype ConfirmationState = Pending | Approved | Declined | Consumed
  datatype Confirmation = Confirmation(taskId: Id, taskRevision: nat, fingerprint: string, state: ConfirmationState)

  datatype State = State(
    seqNo: nat,
    active: Option<Id>,
    queue: seq<Id>,
    tasks: map<Id, Task>,
    runs: map<Id, Run>,
    confirmations: map<Id, Confirmation>,
    questions: map<Id, Question>)

  const EMPTY := State(0, None, [], map[], map[], map[], map[])

  /** States that own the active slot. */
  predicate OwnsSlot(st: TaskState) {
    st == Running || st == PauseWanted || st == Paused || st == Awaiting
  }

  predicate Executing(st: TaskState) {
    st == Running || st == PauseWanted
  }

  predicate Terminal(st: TaskState) {
    st == Completed || st == Failed || st == Cancelled
  }

  /** First position of x, or |s| when absent. */
  function IndexOf(s: seq<Id>, x: Id): (i: nat)
    ensures i <= |s| && x !in s[..i]
    ensures i < |s| <==> x in s
    ensures i < |s| ==> s[i] == x
  {
    if s == [] then 0
    else if s[0] == x then 0
    else
      var i := IndexOf(s[1..], x);
      assert s[..i + 1] == [s[0]] + s[1..][..i];
      i + 1
  }

  /** Drops the first occurrence of x, if any. */
  function Without(s: seq<Id>, x: Id): (r: seq<Id>)
    ensures x !in s ==> r == s
    ensures x in s ==> |r| == |s| - 1 && multiset(r) == multiset(s) - multiset{x}
  {
    var i := IndexOf(s, x);
    if i < |s| then
      assert s == s[..i] + [x] + s[i + 1..];
      s[..i] + s[i + 1..]
    else s
  }

  function InsertAt(s: seq<Id>, position: nat, x: Id): (r: seq<Id>)
    ensures |r| == |s| + 1 && multiset(r) == multiset(s) + multiset{x}
  {
    var p := if position <= |s| then position else |s|;
    assert s == s[..p] + s[p..];
    s[..p] + [x] + s[p..]
  }

  function OpenQuestions(questions: map<Id, Question>, taskId: Id): set<Id> {
    set q | q in questions && questions[q].taskId == taskId && questions[q].state == Open
  }

  /** True exactly when the event switch reaches its end: no missing record, no duplicate
      id, no foreign owner of the active slot. */
  predicate Guard(s: State, e: Event) {
    match e
    case TaskCreated(t, _, _) => t !in s.tasks
    case TaskStarted(t, r, _) => t in s.tasks && (s.active == None || s.active == Some(t)) && r !in s.runs
    case TaskResumed(t, r, _) => t in s.tasks && (s.active == None || s.active == Some(t)) && r !in s.runs
    case TaskPaused(t, r, _) => t in s.tasks && r in s.runs
    case AwaitingUser(t, r) => t in s.tasks && r in s.runs
    case QuestionAsked(t, q, r, _, _) => t in s.tasks && r in s.runs && q !in s.questions
    case QuestionAnswered(_, q, _, _) => q in s.questions
    case TaskCompleted(t, r, _, _) => t in s.tasks && r in s.runs
    case TaskFailed(t, r, _) => t in s.tasks && r in s.runs
    case TaskCancelled(t) =>
      t in s.tasks && (s.tasks[t].activeRunId.Some? ==> s.tasks[t].activeRunId.value in s.runs)
    case RunInterrupted(_, r) => r in s.runs
    case PolicyDecisionRecorded(_, _, _, _) => true
    case ApprovalRequested(_, c, _, _) => c !in s.confirmations
    case ApprovalResolved(_, c, _, _) => c in s.confirmations
    case ApprovalConsumed(_, c, _, _) => c in s.confirmations
    case QueueReordered(_, _) => true
    case _ => e.taskId in s.tasks
  }

  function SetRun(s: State, r: Id, st: RunState): State
    requires r in s.runs
  {
    s.(runs := s.runs[r := s.runs[r].(state := st)])
  }

  function SetTask(s: State, t: Id, task: Task): State {
    s.(tasks := s.tasks[t := task])
  }

  function Start(s: State, t: Id, r: Id, revision: nat): (s': State)
    requires t in s.tasks
    ensures s'.confirmations == s.confirmations && s'.questions == s.questions
  {
    s.(queue := Without(s.queue, t),
       tasks := s.tasks[t := s.tasks[t].(state := Running, activeRunId := Some(r), runIds := s.tasks[t].runIds + [r])],
       runs := s.runs[r := Run(t, revision, RunRunning)],
       active := Some(t))
  }

  /** The run stops and the task leaves the running states but keeps the slot. */
  function Park(s: State, t: Id, r: Id, runState: RunState, taskState: TaskState): (s': State)
    requires t in s.tasks && r in s.runs
    ensures s'.confirmations == s.confirmations && s'.questions == s.questions
  {
    SetTask(SetRun(s, r, runState), t, s.tasks[t].(state := taskState, activeRunId := None))
  }

  /** The common tail of completed, failed and cancelled. */
  function Finish(s: State, t: Id, r: Option<Id>, runState: RunState, taskState: TaskState): (s': State)
    requires t in s.tasks && (r.Some? ==> r.value in s.runs)
    ensures s'.confirmations == s.confirmations && s'.questions == s.questions
  {
    (if r.Some? then SetRun(s, r.value, runState) else s)
      .(tasks := s.tasks[t := s.tasks[t].(state := taskState, activeRunId := None)],
        queue := Without(s.queue, t),
        active := if s.active == Some(t) then None else s.active)
  }

  function Supersede(questions: map<Id, Question>, t: Id): map<Id, Question> {
    map q | q in questions ::
      if questions[q].taskId == t && questions[q].state == Open then questions[q].(state := Superseded)
      else questions[q]
  }

  function NewTask(spec: TaskSpec, revision: nat, seqNo: nat): Task {
    Task(spec.repositoryId, Queued, spec, revision, None, [], [], None, None,
         [HistoryEntry(revision, spec.objective)], seqNo)
  }

  function RevisedTask(task: Task, revision: nat, spec: TaskSpec): Task {
    task.(spec := spec, revision := revision,
          specHistory := task.specHistory + [HistoryEntry(revision, spec.objective)])
  }

  function WithBoundary(task: Task, session: string, r: Id): Task {
    if task.session.Some? && task.session.value.id == session then
      task.(session := Some(task.session.value.(recoveryBoundary := Some(r))))
    else task
  }

  function WithEvidence(task: Task, artifact: Id): Task {
    if artifact in task.evidenceIds then task else task.(evidenceIds := task.evidenceIds + [artifact])
  }

  function Ask(s: State, t: Id, q: Id, r: Id, revision: nat): State
    requires t in s.tasks && r in s.runs
  {
    Park(s, t, r, RunPaused, Awaiting).(questions := s.questions[q := Question(t, revision, r, Open)])
  }

  function Revised(s: State, t: Id, revision: nat, spec: TaskSpec): State
    requires t in s.tasks
  {
    SetTask(s, t, RevisedTask(s.tasks[t], revision, spec)).(questions := Supersede(s.questions, t))
  }

  function Enqueue(s: State, t: Id, position: nat): (s': State)
    requires t in s.tasks
    ensures s'.confirmations == s.confirmations && s'.questions == s.questions
  {
    SetTask(s.(queue := InsertAt(Without(s.queue, t), position, t)), t, s.tasks[t].(state := Queued))
  }

  function SetConfirmation(s: State, c: Id, st: ConfirmationState): State
    requires c in s.confirmations
  {
    s.(confirmations := s.confirmations[c := s.confirmations[c].(state := st)])
  }

  /** What the event switch does; `seqNo` is the event's sequence number. */
  function Effect(s: State, seqNo: nat, e: Event): State
    requires Guard(s, e)
  {
    match e
    case TaskCreated(t, spec, revision) => SetTask(s, t, NewTask(spec, revision, seqNo))
    case TaskEnqueued(t, position) => Enqueue(s, t, position)
    case TaskStarted(t, r, revision) => Start(s, t, r, revision)
    case TaskResumed(t, r, revision) => Start(s, t, r, revision)
    case PauseRequested(t) => SetTask(s, t, s.tasks[t].(state := PauseWanted))
    case TaskPaused(t, r, _) =>
      Park(s, t, r, if s.runs[r].state == RunInterruptedState then RunInterruptedState else RunPaused, Paused)
    case AwaitingUser(t, r) => Park(s, t, r, RunPaused, Awaiting)
    case QuestionAsked(t, q, r, revision, _) => Ask(s, t, q, r, revision)
    case QuestionAnswered(_, q, _, _) => s.(questions := s.questions[q := s.questions[q].(state := Answered)])
    case SessionBound(t, session, r, _) => SetTask(s, t, s.tasks[t].(session := Some(Session(session, r, None))))
    case RecoveryBoundary(t, session, r) => SetTask(s, t, WithBoundary(s.tasks[t], session, r))
    case SpecRevised(t, _, revision, spec) => Revised(s, t, revision, spec)
    case TaskCompleted(t, r, _, _) => Finish(s, t, Some(r), RunCompleted, Completed)
    case TaskFailed(t, r, _) => Finish(s, t, Some(r), RunFailed, Failed)
    case TaskCancelled(t) => Finish(s, t, s.tasks[t].activeRunId, RunCancelled, Cancelled)
    case RunInterrupted(_, r) => SetRun(s, r, RunInterruptedState)
    case PolicyDecisionRecorded(_, _, _, _) => s
    case ArtifactCreated(t, a, _, _) => SetTask(s, t, WithEvidence(s.tasks[t], a))
    case ConflictDetected(t, _, paths, _) => SetTask(s, t, s.tasks[t].(workspaceConflict := Some(paths)))
    case ConflictResolved(t, _) => SetTask(s, t, s.tasks[t].(workspaceConflict := None))
    case ApprovalRequested(t, c, revision, fingerprint) =>
      s.(confirmations := s.confirmations[c := Confirmation(t, revision, fingerprint, Pending)])
    case ApprovalResolved(_, c, _, approve) => SetConfirmation(s, c, if approve then Approved else Declined)
    case ApprovalConsumed(_, c, _, _) => SetConfirmation(s, c, Consumed)
    case QueueReordered(_, ids) => s.(queue := ids)
  }

  predicate QueueChecks(s: State) {
    && NoDuplicates(s.queue)
    && forall t :: t in s.queue ==> t in s.tasks && s.tasks[t].state == Queued
  }

  predicate SlotChecks(s: State) {
    s.active.Some? ==>
      && s.active.value in s.tasks
      && OwnsSlot(s.tasks[s.active.value].state)
      && s.active.value !in s.queue
  }

  predicate TaskChecks(s: State, t: Id)
    requires t in s.tasks
  {
    var task := s.tasks[t];
    && (task.activeRunId.Some? ==>
          var r := task.activeRunId.value;
          && r in s.runs
          && s.runs[r].taskId == t
          && (s.runs[r].state == RunRunning || s.runs[r].state == RunInterruptedState)
          && (s.runs[r].state == RunInterruptedState ==> Executing(task.state)))
    && |OpenQuestions(s.questions, t)| <= 1
    && (|OpenQuestions(s.questions, t)| == 1 ==> task.state == Awaiting)
    && |task.specHistory| > 0
    && task.specHistory[|task.specHistory| - 1].revision == task.revision
  }

  /** What `assertStateInvariants` checks after every event. */
  predicate Checks(s: State) {
    && QueueChecks(s)
    && SlotChecks(s)
    && forall t :: t in s.tasks ==> TaskChecks(s, t)
  }

  /** A throw leaves the in-memory state it was about to reject behind. */
  datatype Applied = Ok(state: State) | Threw(state: State)

  function Apply(s: State, seqNo: nat, e: Event): Applied {
    if seqNo != s.seqNo + 1 || !Guard(s, e) then Threw(s)
    else
      var s' := Effect(s, seqNo, e).(seqNo := seqNo);
      if Checks(s') then Ok(s') else Threw(s')
  }

  /** Folds events numbered `first`, `first + 1`, ... and stops at the first throw. */
  function ApplyAll(s: State, first: nat, events: seq<Event>): Applied
    decreases |events|
  {
    if events == [] then Ok(s)
    else
      match Apply(s, first, events[0])
      case Threw(s') => Threw(s')
      case Ok(s') => ApplyAll(s', first + 1, events[1..])
  }

  function Replay(log: seq<Event>): Applied {
    ApplyAll(EMPTY, 1, log)
  }

  /** Applying a concatenation is applying its parts in turn. */
  lemma {:induction false} ApplyAllConcat(s: State, first: nat, a: seq<Event>, b: seq<Event>)
    ensures ApplyAll(s, first, a + b) ==
            if ApplyAll(s, first, a).Ok? then ApplyAll(ApplyAll(s, first, a).state, first + |a|, b)
            else ApplyAll(s, first, a)
    decreases |a|
  {
    hide Apply;
    if a == [] {
      assert a + b == b;
    } else {
      assert (a + b)[1..] == a[1..] + b;
      if Apply(s, first, a[0]).Ok? {
        ApplyAllConcat(Apply(s, first, a[0]).state, first + 1, a[1..], b);
      }
    }
  }
}

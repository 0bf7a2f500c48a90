/** The inductive invariant behind `assertStateInvariants`, and the condition under which one
    event keeps it. */
module Invariants {
  import opened Protocol
  import opened Domain
  import opened Decisions

  ghost predicate TaskOk(s: State, t: Id)
    requires t in s.tasks
  {
    var task := s.tasks[t];
    && HistoryOk(task)
    && task.repositoryId == task.spec.repositoryId
    && (OwnsSlot(task.state) ==> s.active == Some(t) && task.runIds != [])
    && (task.activeRunId.Some? <==> Executing(task.state))
    && (task.activeRunId.Some? ==> ActiveRunOk(s, task))
    && (task.workspaceConflict.Some? ==>
          task.state in {Running, Awaiting, Cancelled} && task.workspaceConflict.value != {})
    && RunListOk(s, t)
  }

  /** The spec history holds exactly the revisions 1, 2, ..., current. */
  ghost predicate HistoryOk(task: Task) {
    && task.revision >= 1
    && |task.specHistory| == task.revision
    && forall i :: 0 <= i < |task.specHistory| ==> task.specHistory[i].revision == i + 1
  }

  ghost predicate ActiveRunOk(s: State, task: Task)
    requires task.activeRunId.Some?
  {
    var r := task.activeRunId.value;
    && task.runIds != [] && task.runIds[|task.runIds| - 1] == r
    && r in s.runs
    && s.runs[r].taskRevision == task.revision
    && (s.runs[r].state == RunRunning || s.runs[r].state == RunInterruptedState)
  }

  /** Every listed run belongs to the task, and revisions never decrease along the list. */
  ghost predicate RunListOk(s: State, t: Id)
    requires t in s.tasks
  {
    var task := s.tasks[t];
    && (forall i :: 0 <= i < |task.runIds| ==>
          task.runIds[i] in s.runs && s.runs[task.runIds[i]].taskId == t
          && s.runs[task.runIds[i]].taskRevision <= task.revision)
    && forall i, j :: 0 <= i < j < |task.runIds| ==>
         s.runs[task.runIds[i]].taskRevision <= s.runs[task.runIds[j]].taskRevision
  }

  ghost predicate TasksOk(s: State) {
    forall t :: t in s.tasks ==> TaskOk(s, t)
  }

  ghost predicate RunsOk(s: State) {
    forall r :: r in s.runs ==>
      && s.runs[r].taskId in s.tasks
      && (s.runs[r].state == RunRunning ==> s.tasks[s.runs[r].taskId].activeRunId == Some(r))
  }

  ghost predicate IsOpen(s: State, q: Id) {
    q in s.questions && s.questions[q].state == Open
  }

  /** Pending at the current revision of its task. */
  ghost predicate IsPending(s: State, c: Id) {
    && c in s.confirmations
    && s.confirmations[c].state == Pending
    && s.confirmations[c].taskId in s.tasks
    && s.confirmations[c].taskRevision == s.tasks[s.confirmations[c].taskId].revision
  }

  ghost predicate QuestionsOk(s: State) {
    && (forall q :: IsOpen(s, q) ==>
          var t := s.questions[q].taskId;
          && t in s.tasks
          && s.tasks[t].state == Awaiting
          && s.tasks[t].workspaceConflict.None?
          && s.questions[q].taskRevision == s.tasks[t].revision)
    && (forall q, p :: IsOpen(s, q) && IsOpen(s, p) && s.questions[q].taskId == s.questions[p].taskId ==> q == p)
    && (forall q, c :: IsOpen(s, q) && IsPending(s, c) ==> s.questions[q].taskId != s.confirmations[c].taskId)
  }

  ghost predicate Live(c: Confirmation) {
    c.state == Pending || c.state == Approved
  }

  /** What a task with a pending approval at its revision looks like. */
  ghost predicate HostsPending(task: Task) {
    task.state in {Running, Awaiting, Cancelled} && task.workspaceConflict.None?
  }

  ghost predicate ConfirmationsOk(s: State) {
    && (forall c :: c in s.confirmations ==>
          && s.confirmations[c].taskId in s.tasks
          && 1 <= s.confirmations[c].taskRevision <= s.tasks[s.confirmations[c].taskId].revision)
    && (forall c :: IsPending(s, c) ==> HostsPending(s.tasks[s.confirmations[c].taskId]))
    && forall c, d | c in s.confirmations && d in s.confirmations ::
         Collide(s.confirmations[c], s.confirmations[d]) ==> c == d
  }

  /** Two records that may not coexist: both pending on one revision, or both able to
      authorise the same effect on one revision. */
  ghost predicate Collide(c: Confirmation, d: Confirmation) {
    && c.taskId == d.taskId
    && c.taskRevision == d.taskRevision
    && ((c.state == Pending && d.state == Pending) || (Live(c) && Live(d) && c.fingerprint == d.fingerprint))
  }

  /** Holds in every reachable state, also between the events of one decision. */
  ghost predicate Inv(s: State) {
    && QueueChecks(s)
    && SlotChecks(s)
    && TasksOk(s)
    && RunsOk(s)
    && QuestionsOk(s)
    && ConfirmationsOk(s)
  }

  /** Holds in addition between decisions. */
  ghost predicate Settled(s: State) {
    && (s.active == None ==> s.queue == [])
    && forall t :: t in s.tasks ==> CalmTask(s, t)
  }

  /** Nothing about the task is half done: a queued one waits in the queue, a running one has
      neither a conflict nor a pending approval, and an active run is really running. */
  ghost predicate CalmTask(s: State, t: Id)
    requires t in s.tasks
  {
    var task := s.tasks[t];
    && (task.state == Queued ==> t in s.queue)
    && (task.state == Running ==> task.workspaceConflict.None? && NoPending(s, t))
    && (task.activeRunId.Some? ==>
          task.activeRunId.value in s.runs && s.runs[task.activeRunId.value].state == RunRunning)
  }

  ghost predicate NoPending(s: State, t: Id) {
    forall c :: IsPending(s, c) ==> s.confirmations[c].taskId != t
  }

  ghost predicate NoOpen(s: State, t: Id) {
    forall q :: IsOpen(s, q) ==> s.questions[q].taskId != t
  }

  /** When an event may be applied in a state: stronger than the guards that throw. */
  ghost predicate Legal(s: State, e: Event) {
    match e
    case TaskCreated(t, _, revision) => t !in s.tasks && revision == 1
    case TaskEnqueued(t, _) => t in s.tasks && s.tasks[t].state == Queued && t !in s.queue
    case TaskStarted(t, r, revision) =>
      t in s.queue && t in s.tasks && s.active == None && r !in s.runs && revision == s.tasks[t].revision
    case TaskResumed(t, r, revision) =>
      && t in s.tasks && (s.tasks[t].state == Paused || s.tasks[t].state == Awaiting)
      && r !in s.runs && revision == s.tasks[t].revision && NoOpen(s, t)
    case PauseRequested(t) =>
      t in s.tasks && s.tasks[t].state == Running && NoPending(s, t) && s.tasks[t].workspaceConflict.None?
    case TaskPaused(t, r, _) =>
      && t in s.tasks && OwnsSlot(s.tasks[t].state) && s.tasks[t].state != Paused
      && s.tasks[t].runIds != [] && s.tasks[t].runIds[|s.tasks[t].runIds| - 1] == r
      && NoOpen(s, t) && NoPending(s, t) && s.tasks[t].workspaceConflict.None?
    case AwaitingUser(t, r) => t in s.tasks && s.tasks[t].state == Running && s.tasks[t].activeRunId == Some(r)
    case QuestionAsked(t, q, r, revision, _) =>
      && t in s.tasks && s.tasks[t].state == Running && s.tasks[t].activeRunId == Some(r)
      && q !in s.questions && revision == s.tasks[t].revision
      && NoPending(s, t) && s.tasks[t].workspaceConflict.None?
    case QuestionAnswered(_, q, _, _) => IsOpen(s, q)
    case SpecRevised(t, previous, revision, spec) =>
      && t in s.tasks && (s.tasks[t].state == Paused || s.tasks[t].state == Awaiting)
      && revision == s.tasks[t].revision + 1 && previous == s.tasks[t].revision
      && spec.repositoryId == s.tasks[t].repositoryId
    case TaskCompleted(t, r, _, _) =>
      && t in s.tasks && Executing(s.tasks[t].state) && s.tasks[t].activeRunId == Some(r)
      && NoPending(s, t) && s.tasks[t].workspaceConflict.None?
    case TaskFailed(t, r, _) =>
      && t in s.tasks && Executing(s.tasks[t].state) && s.tasks[t].activeRunId == Some(r)
      && NoPending(s, t) && s.tasks[t].workspaceConflict.None?
    case TaskCancelled(t) => t in s.tasks && !Terminal(s.tasks[t].state) && NoOpen(s, t)
    case RunInterrupted(t, r) => t in s.tasks && s.tasks[t].activeRunId == Some(r)
    case ConflictDetected(t, _, paths, _) =>
      t in s.tasks && s.tasks[t].state == Running && NoPending(s, t) && paths != {}
    case ApprovalRequested(t, c, revision, fingerprint) =>
      && t in s.tasks && s.tasks[t].state == Running && c !in s.confirmations
      && revision == s.tasks[t].revision && NoPending(s, t) && s.tasks[t].workspaceConflict.None?
      && forall d :: d in s.confirmations ==> !Matches(s.confirmations[d], t, revision, fingerprint, Approved)
    case ApprovalResolved(t, c, revision, _) =>
      && c in s.confirmations && s.confirmations[c].taskId == t
      && s.confirmations[c].taskRevision == revision && s.confirmations[c].state == Pending
    case ApprovalConsumed(t, c, revision, fingerprint) =>
      c in s.confirmations && Matches(s.confirmations[c], t, revision, fingerprint, Approved)
    case QueueReordered(_, ids) => multiset(ids) == multiset(s.queue)
    case PolicyDecisionRecorded(_, _, _, _) => true
    case _ => e.taskId in s.tasks
  }

  /** What the invariant says about one task and its runs, without quantifiers. */
  lemma TaskFacts(s: State, t: Id)
    requires Inv(s) && t in s.tasks
    ensures TaskOk(s, t)
    ensures s.tasks[t].runIds != [] ==> s.tasks[t].runIds[|s.tasks[t].runIds| - 1] in s.runs
  {
    hide QueueChecks, RunsOk, QuestionsOk, ConfirmationsOk;
  }

  lemma LegalPassesGuard(s: State, e: Event)
    requires Inv(s) && Legal(s, e)
    ensures Guard(s, e)
  {
    hide Inv, NoPending, NoOpen, RunListOk, HistoryOk, Matches;
    if e.taskId in s.tasks { TaskFacts(s, e.taskId); }
  }

  lemma DistinctFromMultiset(a: seq<Id>, b: seq<Id>)
    requires multiset(a) == multiset(b) && NoDuplicates(b)
    ensures NoDuplicates(a)
    ensures forall x :: x in a <==> x in b
  {
    forall x ensures x in a <==> x in b { assert x in a <==> x in multiset(a); }
    forall i, j | 0 <= i < j < |a| ensures a[i] != a[j] {
      if a[i] == a[j] {
        Twice(a, i, j);
        assert multiset(b)[a[i]] >= 2;
        OnceEach(b, a[i]);
      }
    }
  }

  lemma Twice(a: seq<Id>, i: nat, j: nat)
    requires i < j < |a| && a[i] == a[j]
    ensures multiset(a)[a[i]] >= 2
  {
    assert a == a[..i] + [a[i]] + a[i + 1..j] + [a[j]] + a[j + 1..];
  }

  lemma {:induction false} OnceEach(b: seq<Id>, x: Id)
    requires NoDuplicates(b)
    ensures multiset(b)[x] <= 1
  {
    if b != [] {
      assert b == [b[0]] + b[1..];
      OnceEach(b[1..], x);
      if x == b[0] { assert x !in b[1..]; }
    }
  }

  lemma DistinctSum(a: seq<Id>, b: seq<Id>, x: Id)
    requires NoDuplicates(a) && x !in a && multiset(b) == multiset(a) + multiset{x}
    ensures NoDuplicates(b)
    ensures forall y :: y in b <==> y in a || y == x
  {
    assert multiset(a + [x]) == multiset(b);
    DistinctFromMultiset(b, a + [x]);
  }

  lemma WithoutDistinct(a: seq<Id>, x: Id)
    requires NoDuplicates(a)
    ensures NoDuplicates(Without(a, x))
    ensures forall y :: y in Without(a, x) <==> y in a && y != x
  {
    if x in a {
      var r := Without(a, x);
      assert multiset(r + [x]) == multiset(a);
      DistinctFromMultiset(r + [x], a);
      forall i, j | 0 <= i < j < |r| ensures r[i] != r[j] {
        assert (r + [x])[i] != (r + [x])[j];
      }
      forall y ensures y in r <==> y in a && y != x {
        assert y in r + [x] <==> y in a;
      }
    }
  }

  // ------------------------------------------------ one change touches one task

  /** s' differs from s in task t, at most one of its runs, questions of t that were
      closed, the queue and possibly the slot. */
  ghost predicate Moves(s: State, s': State, t: Id, r: Option<Id>) {
    && t in s.tasks && t in s'.tasks
    && s'.tasks == s.tasks[t := s'.tasks[t]]
    && (r.None? ==> s'.runs == s.runs)
    && (r.Some? ==>
          && r.value in s'.runs
          && s'.runs == s.runs[r.value := s'.runs[r.value]]
          && s'.runs[r.value].taskId == t
          && (r.value in s.runs ==>
                s.runs[r.value].taskId == t && s'.runs[r.value].taskRevision == s.runs[r.value].taskRevision))
    && s'.confirmations == s.confirmations
    && (s'.questions == s.questions || s'.questions == Supersede(s.questions, t))
    && (s.active.Some? && s.active.value != t ==> s'.active == s.active)
  }

  lemma OtherTask(s: State, s': State, t: Id, r: Option<Id>, u: Id)
    requires Moves(s, s', t, r) && u in s.tasks && u != t && TaskOk(s, u)
    ensures TaskOk(s', u)
  {
    hide Supersede, HistoryOk;
    var task := s.tasks[u];
    assert s'.tasks[u] == task;
    forall i | 0 <= i < |task.runIds|
      ensures task.runIds[i] in s'.runs && s'.runs[task.runIds[i]] == s.runs[task.runIds[i]] {
    }
  }

  lemma TasksKept(s: State, s': State, t: Id, r: Option<Id>)
    requires TasksOk(s) && Moves(s, s', t, r) && TaskOk(s', t)
    ensures TasksOk(s')
  {
    forall u | u in s'.tasks && u != t ensures TaskOk(s', u) {
      assert u in s.tasks && TaskOk(s, u);
      OtherTask(s, s', t, r, u);
    }
  }

  lemma RunsKept(s: State, s': State, t: Id, r: Option<Id>)
    requires RunsOk(s) && Moves(s, s', t, r)
    requires r.Some? && s'.runs[r.value].state == RunRunning ==> s'.tasks[t].activeRunId == r
    requires s.tasks[t].activeRunId == s'.tasks[t].activeRunId || s.tasks[t].activeRunId.None?
             || s.tasks[t].activeRunId == r
    ensures RunsOk(s')
  {
    hide Supersede;
  }

  lemma PendingKept(s: State, s': State, t: Id, r: Option<Id>, c: Id)
    requires ConfirmationsOk(s) && Moves(s, s', t, r) && IsPending(s', c)
    requires s'.tasks[t].revision >= s.tasks[t].revision
    requires s'.tasks[t].revision > s.tasks[t].revision || NoPending(s, t) || HostsPending(s'.tasks[t])
    ensures IsPending(s, c) && HostsPending(s'.tasks[s.confirmations[c].taskId])
  {
    hide Supersede, Collide;
    var u := s.confirmations[c].taskId;
    assert u in s.tasks && s.confirmations[c].taskRevision <= s.tasks[u].revision;
  }

  lemma ConfirmationsKept(s: State, s': State, t: Id, r: Option<Id>)
    requires ConfirmationsOk(s) && Moves(s, s', t, r)
    requires s'.tasks[t].revision >= s.tasks[t].revision
    requires s'.tasks[t].revision > s.tasks[t].revision || NoPending(s, t) || HostsPending(s'.tasks[t])
    ensures ConfirmationsOk(s')
    ensures forall c :: IsPending(s', c) ==> IsPending(s, c)
  {
    hide Supersede, Collide, NoPending;
    forall c | IsPending(s', c) ensures IsPending(s, c) && HostsPending(s'.tasks[s'.confirmations[c].taskId]) {
      PendingKept(s, s', t, r, c);
    }
  }

  lemma QuestionsKept(s: State, s': State, t: Id, r: Option<Id>)
    requires QuestionsOk(s) && Moves(s, s', t, r)
    requires forall c :: IsPending(s', c) ==> IsPending(s, c)
    requires || NoOpen(s, t) || s'.questions == Supersede(s.questions, t)
             || (s'.tasks[t].state == Awaiting && s'.tasks[t].workspaceConflict.None?
                  && s'.tasks[t].revision == s.tasks[t].revision)
    ensures QuestionsOk(s')
  {
    forall q | IsOpen(s', q)
      ensures IsOpen(s, q) && s'.questions[q] == s.questions[q]
      ensures NoOpen(s, t) || s'.questions == Supersede(s.questions, t) ==> s.questions[q].taskId != t {
    }
  }

  /** The conditions on the moved task itself. */
  ghost predicate GoodMove(s: State, s': State, t: Id, r: Option<Id>) {
    && Moves(s, s', t, r)
    && TaskOk(s', t)
    && (r.Some? && s'.runs[r.value].state == RunRunning ==> s'.tasks[t].activeRunId == r)
    && (s.tasks[t].activeRunId == s'.tasks[t].activeRunId || s.tasks[t].activeRunId.None?
        || s.tasks[t].activeRunId == r)
    && s'.tasks[t].revision >= s.tasks[t].revision
    && (s'.tasks[t].revision > s.tasks[t].revision || NoPending(s, t) || HostsPending(s'.tasks[t]))
    && (|| NoOpen(s, t) || s'.questions == Supersede(s.questions, t)
        || (s'.tasks[t].state == Awaiting && s'.tasks[t].workspaceConflict.None?
                  && s'.tasks[t].revision == s.tasks[t].revision))
  }

  lemma MoveKeeps(s: State, s': State, t: Id, r: Option<Id>)
    requires Inv(s) && GoodMove(s, s', t, r) && QueueChecks(s') && SlotChecks(s')
    ensures Inv(s')
  {
    hide Moves, TaskOk, TasksOk, RunsOk, QuestionsOk, ConfirmationsOk, NoPending, NoOpen, HostsPending;
    hide QueueChecks, SlotChecks, Supersede;
    TasksKept(s, s', t, r);
    RunsKept(s, s', t, r);
    ConfirmationsKept(s, s', t, r);
    QuestionsKept(s, s', t, r);
  }

  // --------------------------------------------------------- the kinds of change

  lemma StartKeeps(s: State, t: Id, r: Id)
    requires Inv(s) && t in s.tasks && r !in s.runs && NoOpen(s, t)
    requires (t in s.queue && s.active == None) || s.tasks[t].state == Paused || s.tasks[t].state == Awaiting
    ensures Inv(Start(s, t, r, s.tasks[t].revision))
  {
    hide Inv, Collide, Without, Supersede;
    TaskFacts(s, t);
    var s' := Start(s, t, r, s.tasks[t].revision);
    QueueFacts(s, t);
    PendingFacts(s, t);
    WithoutDistinct(s.queue, t);
    MoveKeeps(s, s', t, Some(r));
  }

  /** A queued task is not active, and the queue is in order. */
  lemma QueueFacts(s: State, t: Id)
    requires Inv(s)
    ensures QueueChecks(s) && SlotChecks(s)
  {
  }

  lemma PendingFacts(s: State, t: Id)
    requires Inv(s) && t in s.tasks
    ensures !NoPending(s, t) ==> HostsPending(s.tasks[t])
  {
    hide TasksOk, QuestionsOk, RunsOk, Collide, HostsPending;
  }

  lemma ParkKeeps(s: State, t: Id, r: Id, runState: RunState, taskState: TaskState)
    requires Inv(s) && t in s.tasks && OwnsSlot(s.tasks[t].state) && NoOpen(s, t)
    requires s.tasks[t].runIds != [] && s.tasks[t].runIds[|s.tasks[t].runIds| - 1] == r && r in s.runs
    requires runState != RunRunning
    requires taskState == Awaiting || (taskState == Paused && NoPending(s, t) && s.tasks[t].workspaceConflict.None?)
    ensures Inv(Park(s, t, r, runState, taskState))
  {
    hide Inv, Collide, Supersede;
    TaskFacts(s, t);
    QueueFacts(s, t);
    PendingFacts(s, t);
    MoveKeeps(s, Park(s, t, r, runState, taskState), t, Some(r));
  }

  /** The run list stays in order while runs only change their state. */
  lemma RunListKept(s: State, s': State, t: Id)
    requires t in s.tasks && t in s'.tasks && RunListOk(s, t)
    requires s'.tasks[t].runIds == s.tasks[t].runIds && s'.tasks[t].revision == s.tasks[t].revision
    requires forall r :: r in s.runs ==>
               && r in s'.runs && s'.runs[r].taskId == s.runs[r].taskId
               && s'.runs[r].taskRevision == s.runs[r].taskRevision
    ensures RunListOk(s', t)
  {
  }

  lemma FinishedMoves(s: State, t: Id, runState: RunState, taskState: TaskState)
    requires Inv(s) && t in s.tasks
    requires s.tasks[t].activeRunId.Some? ==> s.tasks[t].activeRunId.value in s.runs
    ensures var r := s.tasks[t].activeRunId; Moves(s, Finish(s, t, r, runState, taskState), t, r)
  {
    TaskFacts(s, t);
    ActiveRunOwner(s, t);
    hide Inv, Supersede, Without, TaskOk;
  }

  lemma FinishedTaskOk(s: State, t: Id, runState: RunState, taskState: TaskState)
    requires Inv(s) && t in s.tasks && Terminal(taskState)
    requires s.tasks[t].activeRunId.Some? ==> s.tasks[t].activeRunId.value in s.runs
    requires taskState == Cancelled || s.tasks[t].workspaceConflict.None?
    ensures TaskOk(Finish(s, t, s.tasks[t].activeRunId, runState, taskState), t)
  {
    hide Inv, Finish, HistoryOk, RunListOk, ActiveRunOk;
    TaskFacts(s, t);
    var s' := Finish(s, t, s.tasks[t].activeRunId, runState, taskState);
    FinishedFrame(s, t, s.tasks[t].activeRunId, runState, taskState);
    RunListKept(s, s', t);
    SameHistory(s.tasks[t], s'.tasks[t]);
  }

  lemma FinishedFrame(s: State, t: Id, r: Option<Id>, runState: RunState, taskState: TaskState)
    requires t in s.tasks && (r.Some? ==> r.value in s.runs)
    ensures var s' := Finish(s, t, r, runState, taskState);
            && s'.tasks == s.tasks[t := s.tasks[t].(state := taskState, activeRunId := None)]
            && forall x :: x in s.runs ==>
                 && x in s'.runs && s'.runs[x].taskId == s.runs[x].taskId
                 && s'.runs[x].taskRevision == s.runs[x].taskRevision
  {
    hide Without;
  }

  lemma SameHistory(a: Task, b: Task)
    requires HistoryOk(a) && b.revision == a.revision && b.specHistory == a.specHistory
    ensures HistoryOk(b)
  {
  }

  lemma FinishedQueue(s: State, t: Id, r: Option<Id>, runState: RunState, taskState: TaskState)
    requires Inv(s) && t in s.tasks && (r.Some? ==> r.value in s.runs)
    ensures var s' := Finish(s, t, r, runState, taskState); QueueChecks(s') && SlotChecks(s')
  {
    QueueFacts(s, t);
    WithoutDistinct(s.queue, t);
    hide Inv, Without;
  }

  lemma FinishKeeps(s: State, t: Id, runState: RunState, taskState: TaskState)
    requires Inv(s) && t in s.tasks && NoOpen(s, t) && Terminal(taskState) && runState != RunRunning
    requires s.tasks[t].activeRunId.Some? ==> s.tasks[t].activeRunId.value in s.runs
    requires taskState == Cancelled || (NoPending(s, t) && s.tasks[t].workspaceConflict.None?)
    ensures Inv(Finish(s, t, s.tasks[t].activeRunId, runState, taskState))
  {
    hide Inv, Supersede, Without, Moves, TaskOk, QueueChecks, SlotChecks, NoPending, NoOpen;
    var r := s.tasks[t].activeRunId;
    var s' := Finish(s, t, r, runState, taskState);
    PendingFacts(s, t);
    FinishedMoves(s, t, runState, taskState);
    FinishedTaskOk(s, t, runState, taskState);
    FinishedQueue(s, t, r, runState, taskState);
    MoveKeeps(s, s', t, r);
  }

  /** Updates of a record that leave its runs, revisions and spec alone. */
  lemma RecordKeeps(s: State, t: Id, task: Task)
    requires Inv(s) && t in s.tasks
    requires task == s.tasks[t].(state := task.state, workspaceConflict := task.workspaceConflict,
                                 session := task.session, evidenceIds := task.evidenceIds)
    requires task.state == s.tasks[t].state
             || (s.tasks[t].state == Running && task.state == PauseWanted && NoPending(s, t)
                 && s.tasks[t].workspaceConflict.None?)
    requires task.workspaceConflict == s.tasks[t].workspaceConflict || task.workspaceConflict == None
             || (task.state == Running && NoPending(s, t) && task.workspaceConflict.value != {})
    ensures Inv(SetTask(s, t, task))
  {
    hide Inv, Collide, Supersede;
    TaskFacts(s, t);
    QueueFacts(s, t);
    PendingFacts(s, t);
    OpenFacts(s, t);
    MoveKeeps(s, SetTask(s, t, task), t, None);
  }

  lemma OpenFacts(s: State, t: Id)
    requires Inv(s) && t in s.tasks
    ensures !NoOpen(s, t) ==> s.tasks[t].state == Awaiting && s.tasks[t].workspaceConflict.None?
  {
    hide TasksOk, ConfirmationsOk, RunsOk;
  }

  lemma RevisedKeeps(s: State, t: Id, spec: TaskSpec)
    requires Inv(s) && t in s.tasks && (s.tasks[t].state == Paused || s.tasks[t].state == Awaiting)
    requires spec.repositoryId == s.tasks[t].repositoryId
    ensures Inv(Revised(s, t, s.tasks[t].revision + 1, spec))
  {
    hide Inv, Collide, Supersede;
    TaskFacts(s, t);
    QueueFacts(s, t);
    MoveKeeps(s, Revised(s, t, s.tasks[t].revision + 1, spec), t, None);
  }

  lemma EnqueueKeeps(s: State, t: Id, position: nat)
    requires Inv(s) && t in s.tasks && s.tasks[t].state == Queued && t !in s.queue
    ensures Inv(Enqueue(s, t, position))
  {
    hide Inv, Collide, Supersede, InsertAt;
    TaskFacts(s, t);
    QueueFacts(s, t);
    PendingFacts(s, t);
    OpenFacts(s, t);
    DistinctSum(s.queue, InsertAt(s.queue, position, t), t);
    MoveKeeps(s, Enqueue(s, t, position), t, None);
  }

  lemma InterruptKeeps(s: State, t: Id, r: Id)
    requires Inv(s) && t in s.tasks && s.tasks[t].activeRunId == Some(r) && r in s.runs
    ensures Inv(SetRun(s, r, RunInterruptedState))
  {
    hide Inv, Collide, Supersede;
    TaskFacts(s, t);
    QueueFacts(s, t);
    PendingFacts(s, t);
    OpenFacts(s, t);
    MoveKeeps(s, SetRun(s, r, RunInterruptedState), t, Some(r));
  }

  /** Adding a task changes no question, confirmation, run or queue entry. */
  ghost predicate Adds(s: State, s': State, t: Id) {
    t !in s.tasks && t in s'.tasks && s' == s.(tasks := s.tasks[t := s'.tasks[t]])
  }

  lemma AddedTasks(s: State, s': State, t: Id)
    requires TasksOk(s) && Adds(s, s', t) && TaskOk(s', t)
    ensures TasksOk(s')
  {
    hide HistoryOk;
    forall u | u in s.tasks ensures TaskOk(s', u) {
      assert TaskOk(s, u);
    }
  }

  lemma AddedConfirmations(s: State, s': State, t: Id)
    requires ConfirmationsOk(s) && Adds(s, s', t)
    ensures ConfirmationsOk(s')
    ensures forall c :: IsPending(s', c) ==> IsPending(s, c)
  {
    hide Collide;
  }

  lemma AddedRest(s: State, s': State, t: Id)
    requires QueueChecks(s) && SlotChecks(s) && RunsOk(s) && QuestionsOk(s) && Adds(s, s', t)
    requires forall c :: IsPending(s', c) ==> IsPending(s, c)
    ensures QueueChecks(s') && SlotChecks(s') && RunsOk(s') && QuestionsOk(s')
  {
    forall q ensures IsOpen(s', q) == IsOpen(s, q) {}
  }

  lemma CreateKeeps(s: State, t: Id, spec: TaskSpec, n: nat)
    requires Inv(s) && t !in s.tasks
    ensures Inv(SetTask(s, t, NewTask(spec, 1, n)))
  {
    hide QueueChecks, SlotChecks, TasksOk, RunsOk, QuestionsOk, ConfirmationsOk;
    var s' := SetTask(s, t, NewTask(spec, 1, n));
    AddedTasks(s, s', t);
    AddedConfirmations(s, s', t);
    AddedRest(s, s', t);
  }

  /** Components of the invariant that do not read the changed part. */
  lemma SameTasks(s: State, s': State)
    requires TasksOk(s) && RunsOk(s) && s'.tasks == s.tasks && s'.runs == s.runs && s'.active == s.active
    ensures TasksOk(s') && RunsOk(s')
  {
    hide HistoryOk;
    forall t | t in s'.tasks ensures TaskOk(s', t) { assert TaskOk(s, t); }
  }

  lemma SameConfirmations(s: State, s': State)
    requires ConfirmationsOk(s) && s'.tasks == s.tasks && s'.confirmations == s.confirmations
    ensures ConfirmationsOk(s')
    ensures forall c :: IsPending(s', c) <==> IsPending(s, c)
  {
    hide Collide, HostsPending;
    assert forall c :: IsPending(s', c) <==> IsPending(s, c) by {
      hide ConfirmationsOk;
    }
  }

  lemma SameQueue(s: State, s': State)
    requires QueueChecks(s) && SlotChecks(s) && s'.tasks == s.tasks && s'.queue == s.queue && s'.active == s.active
    ensures QueueChecks(s') && SlotChecks(s')
  {
  }

  /** Opening a question on a task that is already waiting and has neither a question nor
      a pending approval nor a conflict. */
  lemma OpenKeeps(s: State, t: Id, q: Id, question: Question)
    requires Inv(s) && q !in s.questions && question.taskId == t && t in s.tasks
    requires question.taskRevision == s.tasks[t].revision
    requires s.tasks[t].state == Awaiting && s.tasks[t].workspaceConflict.None? && NoOpen(s, t) && NoPending(s, t)
    ensures Inv(s.(questions := s.questions[q := question]))
  {
    hide QueueChecks, SlotChecks, TasksOk, RunsOk, ConfirmationsOk;
    var s' := s.(questions := s.questions[q := question]);
    SameTasks(s, s');
    SameConfirmations(s, s');
    SameQueue(s, s');
    assert forall p :: IsOpen(s', p) && p != q ==> IsOpen(s, p);
  }

  lemma AnswerKeeps(s: State, q: Id)
    requires Inv(s) && q in s.questions
    ensures Inv(s.(questions := s.questions[q := s.questions[q].(state := Answered)]))
  {
    hide QueueChecks, SlotChecks, TasksOk, RunsOk, ConfirmationsOk;
    var s' := s.(questions := s.questions[q := s.questions[q].(state := Answered)]);
    SameTasks(s, s');
    SameConfirmations(s, s');
    SameQueue(s, s');
    assert forall p :: IsOpen(s', p) ==> IsOpen(s, p);
  }

  lemma SetOneConfirmation(s: State, c: Id, confirmation: Confirmation)
    requires ConfirmationsOk(s) && confirmation.taskId in s.tasks
    requires 1 <= confirmation.taskRevision <= s.tasks[confirmation.taskId].revision
    requires confirmation.state == Pending ==> HostsPending(s.tasks[confirmation.taskId])
    requires forall d :: d in s.confirmations && d != c ==>
               !Collide(confirmation, s.confirmations[d]) && !Collide(s.confirmations[d], confirmation)
    ensures ConfirmationsOk(s.(confirmations := s.confirmations[c := confirmation]))
    ensures forall d :: d != c && IsPending(s.(confirmations := s.confirmations[c := confirmation]), d) ==>
              IsPending(s, d)
  {
    hide Collide;
  }

  /** Recording or moving on a confirmation keeps everything else in place. */
  lemma ConfirmationKeeps(s: State, c: Id, confirmation: Confirmation)
    requires Inv(s) && confirmation.taskId in s.tasks
    requires 1 <= confirmation.taskRevision <= s.tasks[confirmation.taskId].revision
    requires confirmation.state == Pending ==>
               HostsPending(s.tasks[confirmation.taskId]) && NoOpen(s, confirmation.taskId)
    requires forall d :: d in s.confirmations && d != c ==> !Collide(confirmation, s.confirmations[d])
    ensures Inv(s.(confirmations := s.confirmations[c := confirmation]))
  {
    hide QueueChecks, SlotChecks, TasksOk, RunsOk, ConfirmationsOk;
    var s' := s.(confirmations := s.confirmations[c := confirmation]);
    SameTasks(s, s');
    SameQueue(s, s');
    SetOneConfirmation(s, c, confirmation);
    forall q ensures IsOpen(s', q) == IsOpen(s, q) {}
  }

  lemma ReorderKeeps(s: State, ids: seq<Id>)
    requires Inv(s) && multiset(ids) == multiset(s.queue)
    ensures Inv(s.(queue := ids))
  {
    hide TasksOk, RunsOk, ConfirmationsOk;
    var s' := s.(queue := ids);
    SameTasks(s, s');
    SameConfirmations(s, s');
    DistinctFromMultiset(ids, s.queue);
    forall q ensures IsOpen(s', q) == IsOpen(s, q) {}
  }

  lemma RequestKeeps(s: State, t: Id, c: Id, fingerprint: string)
    requires Inv(s) && t in s.tasks
    requires Legal(s, ApprovalRequested(t, c, s.tasks[t].revision, fingerprint))
    ensures Inv(s.(confirmations := s.confirmations[c := Confirmation(t, s.tasks[t].revision, fingerprint, Pending)]))
  {
    hide QueueChecks, SlotChecks, TasksOk, RunsOk, QuestionsOk, ConfirmationsOk, TaskOk;
    var requested := Confirmation(t, s.tasks[t].revision, fingerprint, Pending);
    OpenFacts(s, t);
    TaskFacts(s, t);
    assert s.tasks[t].revision >= 1 by { TaskRevision(s, t); }
    forall d | d in s.confirmations ensures !Collide(requested, s.confirmations[d]) {}
    ConfirmationKeeps(s, c, requested);
  }

  lemma TaskRevision(s: State, t: Id)
    requires t in s.tasks && TaskOk(s, t)
    ensures s.tasks[t].revision >= 1
  {
  }

  lemma AdvanceKeeps(s: State, c: Id, st: ConfirmationState)
    requires Inv(s) && c in s.confirmations && st != Pending
    requires st == Approved ==> Live(s.confirmations[c])
    ensures Inv(SetConfirmation(s, c, st))
  {
    hide QueueChecks, SlotChecks, TasksOk, RunsOk, QuestionsOk;
    var moved := s.confirmations[c].(state := st);
    forall d | d in s.confirmations && d != c ensures !Collide(moved, s.confirmations[d]) {
      assert !Collide(s.confirmations[c], s.confirmations[d]);
    }
    ConfirmationKeeps(s, c, moved);
  }

  /** A legal event passes its guards and keeps the invariant. */
  lemma LegalKeeps(s: State, n: nat, e: Event)
    requires Inv(s) && Legal(s, e)
    ensures Guard(s, e) && Inv(Effect(s, n, e))
  {
    hide Inv, TaskOk, Matches, Start, Park, Finish, Revised, Enqueue, Ask, SetConfirmation;
    hide NewTask, RevisedTask, NoPending, NoOpen;
    LegalPassesGuard(s, e);
    if e.taskId in s.tasks {
      LegalFacts(s, e);
    }
    match e
    case TaskCreated(t, spec, _) => CreateKeeps(s, t, spec, n);
    case TaskEnqueued(t, position) => EnqueueKeeps(s, t, position);
    case TaskStarted(t, r, _) => StartKeeps(s, t, r);
    case TaskResumed(t, r, _) => StartKeeps(s, t, r);
    case PauseRequested(t) => RecordKeeps(s, t, s.tasks[t].(state := PauseWanted));
    case TaskPaused(t, r, _) =>
      ParkKeeps(s, t, r, if s.runs[r].state == RunInterruptedState then RunInterruptedState else RunPaused, Paused);
    case AwaitingUser(t, r) => ParkKeeps(s, t, r, RunPaused, Awaiting);
    case QuestionAsked(t, q, r, _, _) => AskKeeps(s, t, q, r);
    case QuestionAnswered(_, q, _, _) => AnswerKeeps(s, q);
    case SessionBound(t, session, r, _) => RecordKeeps(s, t, s.tasks[t].(session := Some(Session(session, r, None))));
    case RecoveryBoundary(t, session, r) => RecordKeeps(s, t, WithBoundary(s.tasks[t], session, r));
    case SpecRevised(t, _, _, spec) => RevisedKeeps(s, t, spec);
    case TaskCompleted(t, r, _, _) => FinishKeeps(s, t, RunCompleted, Completed);
    case TaskFailed(t, r, _) => FinishKeeps(s, t, RunFailed, Failed);
    case TaskCancelled(t) => FinishKeeps(s, t, RunCancelled, Cancelled);
    case RunInterrupted(t, r) => InterruptKeeps(s, t, r);
    case PolicyDecisionRecorded(_, _, _, _) =>
    case ArtifactCreated(t, a, _, _) => RecordKeeps(s, t, WithEvidence(s.tasks[t], a));
    case ConflictDetected(t, _, paths, _) => RecordKeeps(s, t, s.tasks[t].(workspaceConflict := Some(paths)));
    case ConflictResolved(t, _) => RecordKeeps(s, t, s.tasks[t].(workspaceConflict := None));
    case ApprovalRequested(t, c, _, fingerprint) => RequestKeeps(s, t, c, fingerprint);
    case ApprovalResolved(_, c, _, approve) => AdvanceKeeps(s, c, if approve then Approved else Declined);
    case ApprovalConsumed(_, c, _, _) => AdvanceKeeps(s, c, Consumed);
    case QueueReordered(_, ids) => ReorderKeeps(s, ids);
  }

  /** What the state of the named task excludes. */
  lemma LegalFacts(s: State, e: Event)
    requires Inv(s) && Legal(s, e) && e.taskId in s.tasks
    ensures e.TaskStarted? || e.AwaitingUser? || e.QuestionAsked? || e.TaskCompleted? || e.TaskFailed? ==>
              NoOpen(s, e.taskId)
    ensures e.TaskPaused? || e.AwaitingUser? || e.QuestionAsked? ==> OwnsSlot(s.tasks[e.taskId].state)
    ensures e.AwaitingUser? || e.QuestionAsked? ==>
              s.tasks[e.taskId].runIds != [] && s.tasks[e.taskId].runIds[|s.tasks[e.taskId].runIds| - 1] == e.runId
    ensures e.TaskCancelled? && s.tasks[e.taskId].activeRunId.Some? ==> s.tasks[e.taskId].activeRunId.value in s.runs
    ensures e.RecoveryBoundary? || e.SessionBound? || e.ArtifactCreated? || e.ConflictResolved? ==>
              s.tasks[e.taskId].workspaceConflict.Some? ==> s.tasks[e.taskId].workspaceConflict.value != {}
  {
    hide Inv, Matches, RunListOk, HistoryOk, NoOpen, NoPending;
    TaskFacts(s, e.taskId);
    OpenFacts(s, e.taskId);
    QueueFacts(s, e.taskId);
  }

  lemma AskKeeps(s: State, t: Id, q: Id, r: Id)
    requires Inv(s) && t in s.tasks && r in s.runs && NoOpen(s, t) && q !in s.questions
    requires OwnsSlot(s.tasks[t].state) && NoPending(s, t) && s.tasks[t].workspaceConflict.None?
    requires s.tasks[t].runIds != [] && s.tasks[t].runIds[|s.tasks[t].runIds| - 1] == r
    ensures Inv(Ask(s, t, q, r, s.tasks[t].revision))
  {
    hide Inv;
    var parked := Park(s, t, r, RunPaused, Awaiting);
    ParkKeeps(s, t, r, RunPaused, Awaiting);
    forall c | IsPending(parked, c) ensures IsPending(s, c) {}
    forall p | IsOpen(parked, p) ensures IsOpen(s, p) {}
    OpenKeeps(parked, t, q, Question(t, s.tasks[t].revision, r, Open));
  }

  // ------------------------------------------------- legal events never throw

  lemma AtMostOneOpen(s: State, t: Id)
    requires QuestionsOk(s)
    ensures |OpenQuestions(s.questions, t)| <= 1
    ensures |OpenQuestions(s.questions, t)| == 1 ==> t in s.tasks && s.tasks[t].state == Awaiting
    ensures NoOpen(s, t) <==> OpenQuestions(s.questions, t) == {}
  {
    var open := OpenQuestions(s.questions, t);
    forall q ensures q in open <==> IsOpen(s, q) && s.questions[q].taskId == t {}
    if open != {} {
      var q :| q in open;
      assert open == {q};
    }
  }

  /** The inductive invariant implies everything the controller checks after an event. */
  lemma InvImpliesChecks(s: State)
    requires Inv(s)
    ensures Checks(s)
  {
    hide QuestionsOk, ConfirmationsOk, QueueChecks, SlotChecks, OpenQuestions, RunListOk;
    forall t | t in s.tasks ensures TaskChecks(s, t) {
      assert TaskOk(s, t);
      ActiveRunOwner(s, t);
      AtMostOneOpen(s, t);
    }
  }

  lemma ActiveRunOwner(s: State, t: Id)
    requires t in s.tasks && TaskOk(s, t)
    ensures s.tasks[t].activeRunId.Some? ==> s.runs[s.tasks[t].activeRunId.value].taskId == t
  {
  }

  /** The state after an event that does not throw. */
  function Next(s: State, e: Event): State
    requires Guard(s, e)
  {
    Effect(s, s.seqNo + 1, e).(seqNo := s.seqNo + 1)
  }

  lemma InvIgnoresSeq(s: State, n: nat)
    requires Inv(s)
    ensures Inv(s.(seqNo := n))
  {
    var s' := s.(seqNo := n);
    hide QueueChecks, SlotChecks, TasksOk, RunsOk, ConfirmationsOk;
    SameTasks(s, s');
    SameConfirmations(s, s');
    SameQueue(s, s');
    forall q ensures IsOpen(s', q) == IsOpen(s, q) {}
  }

  lemma LegalApplies(s: State, e: Event)
    requires Inv(s) && Legal(s, e)
    ensures Guard(s, e)
    ensures Apply(s, s.seqNo + 1, e) == Ok(Next(s, e))
    ensures Inv(Next(s, e))
  {
    hide Inv, Legal, Effect, Guard, Checks;
    LegalKeeps(s, s.seqNo + 1, e);
    InvIgnoresSeq(Effect(s, s.seqNo + 1, e), s.seqNo + 1);
    InvImpliesChecks(Next(s, e));
  }

  /** Each event is legal in the state the previous ones lead to. */
  ghost predicate LegalAll(s: State, events: seq<Event>)
    decreases |events|
  {
    events == [] || (Legal(s, events[0]) && Guard(s, events[0]) && LegalAll(Next(s, events[0]), events[1..]))
  }

  ghost function After(s: State, events: seq<Event>): State
    requires LegalAll(s, events)
    decreases |events|
  {
    if events == [] then s else After(Next(s, events[0]), events[1..])
  }

  /** A legal chain applies event by event without a throw, at every intermediate state. */
  lemma {:induction false} LegalAllApplies(s: State, events: seq<Event>)
    requires Inv(s) && LegalAll(s, events)
    ensures ApplyAll(s, s.seqNo + 1, events) == Ok(After(s, events))
    ensures Inv(After(s, events))
    ensures After(s, events).seqNo == s.seqNo + |events|
    decreases |events|
  {
    hide Inv, Legal, Guard, Apply, Effect;
    if events != [] {
      LegalApplies(s, events[0]);
      LegalAllApplies(Next(s, events[0]), events[1..]);
    }
  }

  // --------------------------------------------------- events spare other tasks

  ghost predicate Spares(s: State, s': State, u: Id) {
    && (u in s'.tasks ==> u in s.tasks && s'.tasks[u] == s.tasks[u])
    && (u in s.queue ==> u in s'.queue)
    && (forall r :: r in s.runs && s.runs[r].taskId == u ==> r in s'.runs && s'.runs[r] == s.runs[r])
    && SparesApprovals(s, s', u)
  }

  ghost predicate SparesApprovals(s: State, s': State, u: Id) {
    forall c :: c in s'.confirmations && s'.confirmations[c].taskId == u ==>
      c in s.confirmations && s'.confirmations[c] == s.confirmations[c]
  }

  lemma SparedIsCalm(s: State, s': State, u: Id)
    requires Inv(s) && Spares(s, s', u) && u in s'.tasks && u in s.tasks && CalmTask(s, u)
    ensures CalmTask(s', u)
  {
    TaskFacts(s, u);
    ActiveRunOwner(s, u);
    hide Inv, TaskOk;
    forall c | IsPending(s', c) && s'.confirmations[c].taskId == u ensures IsPending(s, c) {}
  }

  predicate TouchesApprovals(e: Event) {
    e.ApprovalRequested? || e.ApprovalResolved? || e.ApprovalConsumed?
  }

  /** The run whose record the event writes. */
  function RunOf(s: State, e: Event): Option<Id>
    requires Guard(s, e)
  {
    match e
    case TaskStarted(_, r, _) => Some(r)
    case TaskResumed(_, r, _) => Some(r)
    case TaskPaused(_, r, _) => Some(r)
    case AwaitingUser(_, r) => Some(r)
    case QuestionAsked(_, _, r, _, _) => Some(r)
    case TaskCompleted(_, r, _, _) => Some(r)
    case TaskFailed(_, r, _) => Some(r)
    case RunInterrupted(_, r) => Some(r)
    case TaskCancelled(t) => s.tasks[t].activeRunId
    case _ => None
  }

  predicate Parks(e: Event) {
    e.TaskPaused? || e.AwaitingUser? || e.QuestionAsked?
  }

  predicate Finishes(e: Event) {
    e.TaskCompleted? || e.TaskFailed? || e.TaskCancelled?
  }

  /** The events that move a task in, out of or around the slot and the queue. */
  predicate Travels(e: Event) {
    Parks(e) || Finishes(e) || e.TaskStarted? || e.TaskResumed? || e.TaskEnqueued?
  }

  /** The maps of the state an event writes, each at one key. */
  ghost predicate WritesTask(s: State, e: Event)
    requires Guard(s, e)
  {
    var tasks := Next(s, e).tasks;
    tasks == s.tasks || (e.taskId in tasks && tasks == s.tasks[e.taskId := tasks[e.taskId]])
  }

  lemma TravelWritesTask(s: State, e: Event)
    requires Guard(s, e) && Travels(e)
    ensures WritesTask(s, e)
  {
    hide InsertAt, Without;
  }

  lemma NoteWritesTask(s: State, e: Event)
    requires Guard(s, e) && !Travels(e)
    ensures WritesTask(s, e)
  {
    hide Supersede, NewTask, RevisedTask, WithBoundary, WithEvidence;
  }

  /** An event writes at most the record of its own task. */
  lemma ShapeOfTasks(s: State, e: Event)
    requires Guard(s, e)
    ensures var tasks := Next(s, e).tasks;
            tasks == s.tasks || (e.taskId in tasks && tasks == s.tasks[e.taskId := tasks[e.taskId]])
  {
    hide Guard, Next;
    if Travels(e) { TravelWritesTask(s, e); } else { NoteWritesTask(s, e); }
  }

  /** What an event makes of the record of an existing task. */
  function RecordAfter(task: Task, e: Event): Task {
    match e
    case TaskEnqueued(_, _) => task.(state := Queued)
    case TaskStarted(_, r, _) => task.(state := Running, activeRunId := Some(r), runIds := task.runIds + [r])
    case TaskResumed(_, r, _) => task.(state := Running, activeRunId := Some(r), runIds := task.runIds + [r])
    case PauseRequested(_) => task.(state := PauseWanted)
    case TaskPaused(_, _, _) => task.(state := Paused, activeRunId := None)
    case AwaitingUser(_, _) => task.(state := Awaiting, activeRunId := None)
    case QuestionAsked(_, _, _, _, _) => task.(state := Awaiting, activeRunId := None)
    case SessionBound(_, session, r, _) => task.(session := Some(Session(session, r, None)))
    case RecoveryBoundary(_, session, r) => WithBoundary(task, session, r)
    case SpecRevised(_, _, revision, spec) => RevisedTask(task, revision, spec)
    case TaskCompleted(_, _, _, _) => task.(state := Completed, activeRunId := None)
    case TaskFailed(_, _, _) => task.(state := Failed, activeRunId := None)
    case TaskCancelled(_) => task.(state := Cancelled, activeRunId := None)
    case ArtifactCreated(_, a, _, _) => WithEvidence(task, a)
    case ConflictDetected(_, _, paths, _) => task.(workspaceConflict := Some(paths))
    case ConflictResolved(_, _) => task.(workspaceConflict := None)
    case _ => task
  }

  /** The state an event puts its task in. */
  function Sets(e: Event): Option<TaskState> {
    match e
    case TaskEnqueued(_, _) => Some(Queued)
    case TaskStarted(_, _, _) => Some(Running)
    case TaskResumed(_, _, _) => Some(Running)
    case PauseRequested(_) => Some(PauseWanted)
    case TaskPaused(_, _, _) => Some(Paused)
    case AwaitingUser(_, _) => Some(Awaiting)
    case QuestionAsked(_, _, _, _, _) => Some(Awaiting)
    case TaskCompleted(_, _, _, _) => Some(Completed)
    case TaskFailed(_, _, _) => Some(Failed)
    case TaskCancelled(_) => Some(Cancelled)
    case _ => None
  }

  lemma ShapeOfParked(s: State, e: Event)
    requires Guard(s, e) && e.taskId in s.tasks && Parks(e)
    ensures e.taskId in Next(s, e).tasks && Next(s, e).tasks[e.taskId] == RecordAfter(s.tasks[e.taskId], e)
  {
  }

  lemma ShapeOfFinished(s: State, e: Event)
    requires Guard(s, e) && e.taskId in s.tasks && Finishes(e)
    ensures e.taskId in Next(s, e).tasks && Next(s, e).tasks[e.taskId] == RecordAfter(s.tasks[e.taskId], e)
  {
    hide Without;
  }

  lemma ShapeOfRecord(s: State, e: Event)
    requires Guard(s, e) && e.taskId in s.tasks
    ensures e.taskId in Next(s, e).tasks && Next(s, e).tasks[e.taskId] == RecordAfter(s.tasks[e.taskId], e)
  {
    hide InsertAt, Without, Supersede, NewTask, RevisedTask, WithBoundary, WithEvidence, Park, Finish, Ask;
    if Parks(e) { ShapeOfParked(s, e); }
    if Finishes(e) { ShapeOfFinished(s, e); }
  }

  ghost predicate WritesRun(s: State, e: Event)
    requires Guard(s, e)
  {
    var runs := Next(s, e).runs; var r := RunOf(s, e);
    && (r.None? ==> runs == s.runs)
    && (r.Some? ==> r.value in runs && runs == s.runs[r.value := runs[r.value]])
  }

  lemma TravelWritesRun(s: State, e: Event)
    requires Guard(s, e) && Travels(e)
    ensures WritesRun(s, e)
  {
    hide InsertAt, Without;
  }

  lemma NoteWritesRun(s: State, e: Event)
    requires Guard(s, e) && !Travels(e)
    ensures WritesRun(s, e)
  {
    hide Supersede, NewTask, RevisedTask, WithBoundary, WithEvidence;
  }

  lemma ShapeOfRuns(s: State, e: Event)
    requires Guard(s, e)
    ensures var runs := Next(s, e).runs; var r := RunOf(s, e);
            && (r.None? ==> runs == s.runs)
            && (r.Some? ==> r.value in runs && runs == s.runs[r.value := runs[r.value]])
  {
    hide Guard, Next, RunOf;
    if Travels(e) { TravelWritesRun(s, e); } else { NoteWritesRun(s, e); }
  }

  lemma TravelSparesApprovals(s: State, e: Event)
    requires Guard(s, e) && Travels(e)
    ensures Next(s, e).confirmations == s.confirmations
  {
    hide Start, Park, Finish, Enqueue;
  }

  lemma NoteSparesApprovals(s: State, e: Event)
    requires Guard(s, e) && !Travels(e) && !TouchesApprovals(e)
    ensures Next(s, e).confirmations == s.confirmations
  {
    hide Supersede, NewTask, RevisedTask, WithBoundary, WithEvidence;
  }

  lemma ApprovalWritesOne(s: State, e: Event)
    requires Guard(s, e) && TouchesApprovals(e)
    ensures var confirmations := Next(s, e).confirmations;
            && e.confirmationId in confirmations
            && confirmations == s.confirmations[e.confirmationId := confirmations[e.confirmationId]]
  {
  }

  lemma ShapeOfConfirmations(s: State, e: Event)
    requires Guard(s, e)
    ensures var confirmations := Next(s, e).confirmations;
            if TouchesApprovals(e) then
              && e.confirmationId in confirmations
              && confirmations == s.confirmations[e.confirmationId := confirmations[e.confirmationId]]
            else confirmations == s.confirmations
  {
    hide Guard, Next;
    if TouchesApprovals(e) {
      ApprovalWritesOne(s, e);
    } else if Travels(e) {
      TravelSparesApprovals(s, e);
    } else {
      NoteSparesApprovals(s, e);
    }
  }

  lemma AskWritesOne(s: State, e: Event)
    requires Guard(s, e) && (e.QuestionAsked? || e.QuestionAnswered?)
    ensures var q' := Next(s, e).questions;
            e.questionId in q' && q' == s.questions[e.questionId := q'[e.questionId]]
  {
    hide Park;
  }

  lemma RevisionSupersedes(s: State, e: Event)
    requires Guard(s, e) && e.SpecRevised?
    ensures Next(s, e).questions == Supersede(s.questions, e.taskId)
  {
    hide Supersede, RevisedTask;
  }

  lemma TravelSparesQuestions(s: State, e: Event)
    requires Guard(s, e) && Travels(e) && !e.QuestionAsked?
    ensures Next(s, e).questions == s.questions
  {
    hide Start, Park, Finish, Enqueue;
  }

  lemma NoteSparesQuestions(s: State, e: Event)
    requires Guard(s, e) && !Travels(e) && !e.QuestionAnswered? && !e.SpecRevised?
    ensures Next(s, e).questions == s.questions
  {
    hide NewTask, WithBoundary, WithEvidence;
  }

  lemma ShapeOfQuestions(s: State, e: Event)
    requires Guard(s, e)
    ensures var q' := Next(s, e).questions;
            && (e.QuestionAsked? || e.QuestionAnswered? ==>
                  e.questionId in q' && q' == s.questions[e.questionId := q'[e.questionId]])
            && (e.SpecRevised? ==> q' == Supersede(s.questions, e.taskId))
            && (!e.QuestionAsked? && !e.QuestionAnswered? && !e.SpecRevised? ==> q' == s.questions)
  {
    hide Guard, Next, Supersede;
    if e.QuestionAsked? || e.QuestionAnswered? {
      AskWritesOne(s, e);
    } else if e.SpecRevised? {
      RevisionSupersedes(s, e);
    } else if Travels(e) {
      TravelSparesQuestions(s, e);
    } else {
      NoteSparesQuestions(s, e);
    }
  }

  /** What an event does to the queue. */
  lemma ShapeOfQueue(s: State, e: Event)
    requires Guard(s, e)
    ensures Next(s, e).queue == match e
                                case TaskEnqueued(t, position) => InsertAt(Without(s.queue, t), position, t)
                                case TaskStarted(t, _, _) => Without(s.queue, t)
                                case TaskResumed(t, _, _) => Without(s.queue, t)
                                case TaskCompleted(t, _, _, _) => Without(s.queue, t)
                                case TaskFailed(t, _, _) => Without(s.queue, t)
                                case TaskCancelled(t) => Without(s.queue, t)
                                case QueueReordered(_, ids) => ids
                                case _ => s.queue
  {
    hide InsertAt, Without, Supersede, NewTask, RevisedTask, WithBoundary, WithEvidence;
  }

  lemma QueueMembersStay(s: State, e: Event, u: Id)
    requires Inv(s) && Legal(s, e) && Guard(s, e) && u != e.taskId && u in s.queue
    ensures u in Next(s, e).queue
  {
    hide Inv, Next, NoPending, NoOpen, Matches, InsertAt, Without, Guard;
    ShapeOfQueue(s, e);
    QueueFacts(s, e.taskId);
    WithoutDistinct(s.queue, e.taskId);
    if e.TaskEnqueued? { DistinctSum(s.queue, InsertAt(s.queue, e.position, e.taskId), e.taskId); }
    if e.QueueReordered? { DistinctFromMultiset(e.taskIds, s.queue); }
  }

  lemma ApprovalOwner(s: State, e: Event)
    requires TouchesApprovals(e) && Legal(s, e) && Guard(s, e)
    ensures Next(s, e).confirmations[e.confirmationId].taskId == e.taskId
    ensures e.confirmationId in s.confirmations ==> s.confirmations[e.confirmationId].taskId == e.taskId
  {
    hide NoPending;
  }

  lemma EventSparesRuns(s: State, e: Event, r: Id)
    requires Inv(s) && Legal(s, e) && Guard(s, e) && r in s.runs && s.runs[r].taskId != e.taskId
    ensures r in Next(s, e).runs && Next(s, e).runs[r] == s.runs[r]
  {
    hide Inv, Legal, Guard, Next, RunOf;
    ShapeOfRuns(s, e);
    RunOfOwner(s, e);
  }

  lemma EventSparesApprovals(s: State, e: Event, u: Id)
    requires Inv(s) && Legal(s, e) && Guard(s, e) && u != e.taskId
    ensures SparesApprovals(s, Next(s, e), u)
  {
    hide Inv, Legal, Guard, Next;
    ShapeOfConfirmations(s, e);
    if TouchesApprovals(e) { ApprovalOwner(s, e); }
  }

  lemma EventSpares(s: State, e: Event, u: Id)
    requires Inv(s) && Legal(s, e) && Guard(s, e) && u != e.taskId
    ensures Spares(s, Next(s, e), u)
  {
    hide Inv, Legal, Guard, Next, SparesApprovals;
    ShapeOfTasks(s, e);
    EventSparesApprovals(s, e, u);
    if u in s.queue { QueueMembersStay(s, e, u); }
    forall r | r in s.runs && s.runs[r].taskId == u
      ensures r in Next(s, e).runs && Next(s, e).runs[r] == s.runs[r] {
      EventSparesRuns(s, e, r);
    }
  }

  lemma RunOfOwner(s: State, e: Event)
    requires Inv(s) && Legal(s, e) && Guard(s, e)
    ensures RunOf(s, e).Some? && RunOf(s, e).value in s.runs ==> s.runs[RunOf(s, e).value].taskId == e.taskId
  {
    hide Inv, NoPending, NoOpen, Matches;
    if e.taskId in s.tasks { LegalRunOwner(s, e); }
  }

  lemma LegalRunOwner(s: State, e: Event)
    requires Inv(s) && Legal(s, e) && e.taskId in s.tasks
    ensures e.TaskPaused? || e.AwaitingUser? || e.QuestionAsked? || e.TaskCompleted? || e.TaskFailed?
            || e.RunInterrupted?
            ==> e.runId in s.runs && s.runs[e.runId].taskId == e.taskId
    ensures e.TaskCancelled? && s.tasks[e.taskId].activeRunId.Some? ==>
              s.tasks[e.taskId].activeRunId.value in s.runs
                  && s.runs[s.tasks[e.taskId].activeRunId.value].taskId == e.taskId
  {
    hide Inv, NoPending, NoOpen, Matches, HistoryOk;
    TaskFacts(s, e.taskId);
  }
}

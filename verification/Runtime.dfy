/** The mutable objects of the daemon: the state that events are applied to in place, the event
    store, and the controller that folds one into the other. Each method is proved against the
    functions of Domain and Controller. */
module Runtime {
  import opened Protocol
  import opened Domain
  import opened Evidence
  import opened Decisions
  import opened Controller

  lemma OneMore(s: seq<Id>, x: Id)
    ensures NoDuplicates(s + [x]) <==> NoDuplicates(s) && x !in s
  {
    if NoDuplicates(s + [x]) {
      forall i, j | 0 <= i < j < |s|
        ensures s[i] != s[j]
      {
        assert (s + [x])[i] == s[i] && (s + [x])[j] == s[j];
      }
      forall i | 0 <= i < |s|
        ensures s[i] != x
      {
        assert (s + [x])[i] == s[i] && (s + [x])[|s|] == x;
      }
    }
  }

  /** `ControllerState` of packages/core/src/domain.ts; the record maps are reassigned entry
      by entry. */
  class ControllerState {
    var seqNo: nat
    var active: Option<Id>
    var queue: seq<Id>
    var tasks: map<Id, Task>
    var runs: map<Id, Domain.Run>
    var confirmations: map<Id, Confirmation>
    var questions: map<Id, Question>

    function Value(): State
      reads this
    {
      State(seqNo, active, queue, tasks, runs, confirmations, questions)
    }

    constructor ()
      ensures Value() == EMPTY
    {
      seqNo, active, queue := 0, None, [];
      tasks, runs, confirmations, questions := map[], map[], map[], map[];
    }

    method RemoveFromQueue(t: Id)
      modifies this`queue
      ensures queue == Without(old(queue), t)
    {
      var index := 0;
      while index < |queue| && queue[index] != t
        invariant index <= |queue| && t !in queue[..index]
      {
        index := index + 1;
      }
      assert IndexOf(queue, t) == index;
      if index < |queue| {
        queue := queue[..index] + queue[index + 1..];
      }
    }

    method SetTask(t: Id, task: Task)
      modifies this`tasks
      ensures tasks == old(tasks)[t := task]
    {
      tasks := tasks[t := task];
    }

    method StartRun(t: Id, r: Id, revision: nat)
      requires t in tasks
      modifies this`queue, this`tasks, this`runs, this`active
      ensures Value() == Start(old(Value()), t, r, revision)
    {
      RemoveFromQueue(t);
      SetTask(t, tasks[t].(state := Running, activeRunId := Some(r), runIds := tasks[t].runIds + [r]));
      runs := runs[r := Domain.Run(t, revision, RunRunning)];
      active := Some(t);
    }

    method ParkTask(t: Id, r: Id, runState: RunState, taskState: TaskState)
      requires t in tasks && r in runs
      modifies this`tasks, this`runs
      ensures Value() == Park(old(Value()), t, r, runState, taskState)
    {
      runs := runs[r := runs[r].(state := runState)];
      SetTask(t, tasks[t].(state := taskState, activeRunId := None));
    }

    /** Parks the task and opens its question. */
    method AskUser(t: Id, q: Id, r: Id, revision: nat)
      requires t in tasks && r in runs
      modifies this`tasks, this`runs, this`questions
      ensures Value() == Ask(old(Value()), t, q, r, revision)
    {
      ParkTask(t, r, RunPaused, Awaiting);
      questions := questions[q := Question(t, revision, r, Open)];
    }

    method FinishTask(t: Id, r: Option<Id>, runState: RunState, taskState: TaskState)
      requires t in tasks && (r.Some? ==> r.value in runs)
      modifies this`queue, this`tasks, this`runs, this`active
      ensures Value() == Finish(old(Value()), t, r, runState, taskState)
    {
      hide Without;
      if r.Some? {
        runs := runs[r.value := runs[r.value].(state := runState)];
      }
      SetTask(t, tasks[t].(state := taskState, activeRunId := None));
      RemoveFromQueue(t);
      if active == Some(t) {
        active := None;
      }
    }

    /** Walks over all questions and closes the open ones of the task. */
    method SupersedeQuestions(t: Id)
      modifies this`questions
      ensures questions == Supersede(old(questions), t)
    {
      var rest := questions.Keys;
      ghost var before := questions;
      ghost var all := Supersede(before, t);
      while rest != {}
        invariant questions.Keys == before.Keys && rest <= before.Keys
        invariant forall q :: q in before ==> questions[q] == if q in rest then before[q] else all[q]
        decreases rest
      {
        var q :| q in rest;
        if questions[q].taskId == t && questions[q].state == Open {
          questions := questions[q := questions[q].(state := Superseded)];
        }
        rest := rest - {q};
      }
    }

    method ReviseTask(t: Id, revision: nat, spec: TaskSpec)
      requires t in tasks
      modifies this`tasks, this`questions
      ensures Value() == Revised(old(Value()), t, revision, spec)
    {
      SetTask(t, RevisedTask(tasks[t], revision, spec));
      SupersedeQuestions(t);
    }

    method EnqueueTask(t: Id, position: nat)
      requires t in tasks
      modifies this`queue, this`tasks
      ensures Value() == Enqueue(old(Value()), t, position)
    {
      hide InsertAt, Without;
      RemoveFromQueue(t);
      queue := InsertAt(queue, position, t);
      SetTask(t, tasks[t].(state := Queued));
    }

    /** The cases of the event switch that touch no task record. */
    method SwitchRecord(n: nat, e: Event)
      requires Guard(Value(), e)
      requires e.QuestionAnswered? || e.RunInterrupted? || e.PolicyDecisionRecorded? || e.ApprovalRequested?
               || e.ApprovalResolved? || e.ApprovalConsumed? || e.QueueReordered?
      modifies this`queue, this`runs, this`confirmations, this`questions
      ensures Value() == Effect(old(Value()), n, e)
    {
      match e
      case QuestionAnswered(_, q, _, _) => questions := questions[q := questions[q].(state := Answered)];
      case RunInterrupted(_, r) => runs := runs[r := runs[r].(state := RunInterruptedState)];
      case PolicyDecisionRecorded(_, _, _, _) =>
      case ApprovalRequested(t, c, revision, fingerprint) =>
        confirmations := confirmations[c := Confirmation(t, revision, fingerprint, Pending)];
      case ApprovalResolved(_, c, _, approve) =>
        confirmations := confirmations[c := confirmations[c].(state := if approve then Approved else Declined)];
      case ApprovalConsumed(_, c, _, _) => confirmations := confirmations[c := confirmations[c].(state := Consumed)];
      case QueueReordered(_, ids) => queue := ids;
    }

    /** The event switch. False means that a guard threw, before anything was written. */
    method Switch(n: nat, e: Event) returns (ok: bool)
      modifies this`active, this`queue, this`tasks, this`runs, this`confirmations, this`questions
      ensures ok == Guard(old(Value()), e)
      ensures Value() == if ok then Effect(old(Value()), n, e) else old(Value())
    {
      hide Start, Park, Ask, Finish, Revised, Enqueue, NewTask, RevisedTask, WithBoundary, WithEvidence, Supersede;
      ok := Guard(Value(), e);
      if !ok {
        return;
      }
      match e
      case TaskCreated(t, spec, revision) => SetTask(t, NewTask(spec, revision, n));
      case TaskEnqueued(t, position) => EnqueueTask(t, position);
      case TaskStarted(t, r, revision) => StartRun(t, r, revision);
      case TaskResumed(t, r, revision) => StartRun(t, r, revision);
      case PauseRequested(t) => SetTask(t, tasks[t].(state := PauseWanted));
      case TaskPaused(t, r, _) =>
        ParkTask(t, r, if runs[r].state == RunInterruptedState then RunInterruptedState else RunPaused, Paused);
      case AwaitingUser(t, r) => ParkTask(t, r, RunPaused, Awaiting);
      case QuestionAsked(t, q, r, revision, _) => AskUser(t, q, r, revision);
      case SessionBound(t, session, r, _) => SetTask(t, tasks[t].(session := Some(Session(session, r, None))));
      case RecoveryBoundary(t, session, r) => SetTask(t, WithBoundary(tasks[t], session, r));
      case SpecRevised(t, _, revision, spec) => ReviseTask(t, revision, spec);
      case TaskCompleted(t, r, _, _) => FinishTask(t, Some(r), RunCompleted, Completed);
      case TaskFailed(t, r, _) => FinishTask(t, Some(r), RunFailed, Failed);
      case TaskCancelled(t) => FinishTask(t, tasks[t].activeRunId, RunCancelled, Cancelled);
      case ArtifactCreated(t, a, _, _) => SetTask(t, WithEvidence(tasks[t], a));
      case ConflictDetected(t, _, paths, _) => SetTask(t, tasks[t].(workspaceConflict := Some(paths)));
      case ConflictResolved(t, _) => SetTask(t, tasks[t].(workspaceConflict := None));
      case _ => SwitchRecord(n, e);
    }

    /** The queue has no duplicates, counted by a set, and only names queued tasks. */
    method CheckQueue() returns (ok: bool)
      ensures ok == QueueChecks(Value())
    {
      var queued: set<Id> := {};
      for i := 0 to |queue|
        invariant forall t :: t in queued <==> t in queue[..i]
        invariant |queued| <= i
        invariant |queued| == i <==> NoDuplicates(queue[..i])
      {
        assert queue[..i + 1] == queue[..i] + [queue[i]];
        assert NoDuplicates(queue[..i + 1]) <==> NoDuplicates(queue[..i]) && queue[i] !in queue[..i] by {
          OneMore(queue[..i], queue[i]);
        }
        queued := queued + {queue[i]};
      }
      assert queue[..|queue|] == queue;
      if |queued| != |queue| {
        return false;
      }
      for i := 0 to |queue|
        invariant forall j :: 0 <= j < i ==> queue[j] in tasks && tasks[queue[j]].state == Queued
      {
        if queue[i] !in tasks {
          return false;
        }
        if tasks[queue[i]].state != Queued {
          return false;
        }
      }
      return true;
    }

    /** The active task exists, owns the slot by its state, and is not queued. */
    method CheckSlot() returns (ok: bool)
      ensures ok == SlotChecks(Value())
    {
      if active.None? {
        return true;
      }
      var t := active.value;
      if t !in tasks {
        return false;
      }
      var st := tasks[t].state;
      if st != Running && st != PauseWanted && st != Paused && st != Awaiting {
        return false;
      }
      return t !in queue;
    }

    method CheckTask(t: Id) returns (ok: bool)
      requires t in tasks
      ensures ok == TaskChecks(Value(), t)
    {
      var task := tasks[t];
      if task.activeRunId.Some? {
        var r := task.activeRunId.value;
        if r !in runs || runs[r].taskId != t {
          return false;
        }
        if runs[r].state != RunRunning && runs[r].state != RunInterruptedState {
          return false;
        }
        if runs[r].state == RunInterruptedState && task.state != Running && task.state != PauseWanted {
          return false;
        }
      }
      var open := CollectOpen(t);
      if |open| > 1 {
        return false;
      }
      if |open| == 1 && task.state != Awaiting {
        return false;
      }
      return |task.specHistory| > 0 && task.specHistory[|task.specHistory| - 1].revision == task.revision;
    }

    /** Walks over all questions and keeps the open ones of the task. */
    method CollectOpen(t: Id) returns (open: set<Id>)
      ensures open == OpenQuestions(questions, t)
    {
      open := {};
      var rest := questions.Keys;
      while rest != {}
        invariant rest <= questions.Keys
        invariant forall q :: q in open <==> q in OpenQuestions(questions, t) && q !in rest
        decreases rest
      {
        var q :| q in rest;
        rest := rest - {q};
        if questions[q].taskId == t && questions[q].state == Open {
          open := open + {q};
        }
      }
    }

    /** `assertStateInvariants`, record by record; the result is whether nothing threw. */
    method AssertStateInvariants() returns (ok: bool)
      ensures ok == Checks(Value())
    {
      hide TaskChecks, QueueChecks, SlotChecks;
      ok := CheckQueue();
      if !ok {
        return;
      }
      ok := CheckSlot();
      if !ok {
        return;
      }
      var rest := tasks.Keys;
      while rest != {}
        invariant rest <= tasks.Keys
        invariant forall t :: t in tasks && t !in rest ==> TaskChecks(Value(), t)
        decreases rest
      {
        var t :| t in rest;
        rest := rest - {t};
        ok := CheckTask(t);
        if !ok {
          return;
        }
      }
      ok := true;
    }

    /** Applies one stored event; a throw leaves the state as it is at that moment. */
    method ApplyEvent(n: nat, e: Event) returns (threw: bool)
      modifies this
      ensures Apply(old(Value()), n, e) == if threw then Threw(Value()) else Ok(Value())
    {
      hide Guard, Effect, Checks;
      if n != seqNo + 1 {
        return true;
      }
      var ok := Switch(n, e);
      if !ok {
        return true;
      }
      seqNo := n;
      ok := AssertStateInvariants();
      threw := !ok;
    }
  }

  /** `EventStore` of packages/core/src/event-store.ts. */
  class EventStore {
    var log: seq<Event>
    var commands: map<Id, ActionResult>

    function Value(): Store
      reads this
    {
      Store(log, commands)
    }

    constructor ()
      ensures Value() == Store([], map[])
    {
      log, commands := [], map[];
    }

    /** One immediate transaction: event rows are inserted one by one, and a row that does not
        parse rolls everything back. */
    method ExecuteCommand(id: Id, d: Decision) returns (execution: Execution)
      modifies this
      ensures (Value(), execution) == Controller.ExecuteCommand(old(Value()), id, d)
    {
      if id in commands {
        return Executed(commands[id], []);
      }
      var rows, stored := log, [];
      for i := 0 to |d.events|
        invariant stored == d.events[..i] && rows == log + stored
        invariant forall e :: e in d.events[..i] ==> WellFormed(e)
      {
        if !WellFormed(d.events[i]) {
          return RolledBack;
        }
        rows, stored := rows + [d.events[i]], stored + [d.events[i]];
      }
      assert stored == d.events;
      log, commands := rows, commands[id := d.result];
      execution := Executed(d.result, stored);
    }

    /** The events numbered above `afterSeq`, in order. */
    method ReadAfter(afterSeq: nat) returns (events: seq<Event>)
      ensures forall k :: 0 <= k < |events| ==> afterSeq + k < |log| && events[k] == log[afterSeq + k]
      ensures |events| == if afterSeq <= |log| then |log| - afterSeq else 0
    {
      events := if afterSeq <= |log| then log[afterSeq..] else [];
    }
  }

  /** `TaskController` of packages/core/src/controller.ts. */
  class TaskController {
    const store: EventStore
    const state: ControllerState

    constructor (store: EventStore)
      ensures this.store == store && fresh(state) && state.Value() == EMPTY
    {
      this.store := store;
      state := new ControllerState();
    }

    ghost function Value(rows: seq<Artifact>): Sys
      reads this, store, state
    {
      Sys(store.Value(), state.Value(), rows)
    }

    /** Folds stored events into memory, one by one, up to the first throw. */
    method Fold(first: nat, events: seq<Event>) returns (threw: bool)
      modifies state
      ensures ApplyAll(old(state.Value()), first, events) == if threw then Threw(state.Value()) else Ok(state.Value())
    {
      hide Apply;
      threw := false;
      for i := 0 to |events|
        invariant !threw
        invariant ApplyAll(old(state.Value()), first, events) == ApplyAll(state.Value(), first + i, events[i..])
      {
        assert events[i..][0] == events[i] && events[i..][1..] == events[i + 1..];
        threw := state.ApplyEvent(first + i, events[i]);
        if threw {
          return;
        }
      }
    }

    /** What the constructor does after creating the empty state: replay the whole log. */
    method Load(ghost rows: seq<Artifact>) returns (threw: bool)
      requires state.Value() == EMPTY
      modifies state
      ensures Restart(store.Value(), rows) == if threw then None else Some(Value(rows))
    {
      var events := store.ReadAfter(0);
      assert events == store.log;
      threw := Fold(1, events);
    }

    /** `#moveQueue`: splices a copy of the queue. */
    method MoveQueue(t: Id, operation: QueueOperation, anchor: Option<Id>) returns (d: Decision)
      ensures d == DecideMove(state.Value(), t, operation, anchor)
    {
      hide Without, IndexOf;
      if t !in state.tasks || state.tasks[t].state != Queued || t !in state.queue {
        return Reject(NotQueued);
      }
      var queue := Without(state.queue, t);
      match operation {
        case MoveFirst =>
          if anchor.Some? {
            return Reject(InvalidAnchor);
          }
          queue := [t] + queue;
        case MoveLast =>
          if anchor.Some? {
            return Reject(InvalidAnchor);
          }
          queue := queue + [t];
        case _ =>
          if anchor.None? || anchor.value == t {
            return Reject(InvalidAnchor);
          }
          var index := IndexOf(queue, anchor.value);
          if index == |queue| {
            return Reject(InvalidAnchor);
          }
          if operation == MoveAfter {
            index := index + 1;
          }
          queue := queue[..index] + [t] + queue[index..];
      }
      d := Accept(t, [QueueReordered(t, queue)]);
    }

    /** `handle` and the internal signals: decide, persist, then fold. */
    method HandleSignal(id: Id, ids: FreshIds, sig: Signal, rows: seq<Artifact>)
      returns (threw: bool, result: ActionResult)
      modifies store, state
      ensures Handle(old(Value(rows)), id, ids, sig) ==
              if threw then Thrown(Value(rows)) else Returned(Value(rows), result)
    {
      hide Decide, ApplyAll, RefusedUnrecorded, UnrecordedRefusal;
      if RefusedUnrecorded(state.Value(), sig) {
        return false, UnrecordedRefusal(sig);
      }
      var first := |store.log| + 1;
      var execution := store.ExecuteCommand(id, Decide(state.Value(), rows, id, ids, sig));
      if execution.RolledBack? {
        return true, Rejected(InvalidState);
      }
      threw := Fold(first, execution.events);
      result := execution.result;
    }
  }
}

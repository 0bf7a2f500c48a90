/** A task's own record over a run: its revisions, its repository and its runs. */
module TaskHistory {
  import opened Protocol
  import opened Domain
  import opened Evidence
  import opened Decisions
  import opened Invariants
  import opened Progress
  import opened Controller

  /** The spec history is exactly the revisions 1..n with n the current one, run revisions
      never decrease along the run list, and an active run is the last of the list and carries
      the current revision. */
  lemma HistoryIsExact(sys: Sys, t: Id)
    requires Reachable(sys) && t in sys.mem.tasks
    ensures var task := sys.mem.tasks[t];
            && |task.specHistory| == task.revision >= 1
            && (forall i :: 0 <= i < task.revision ==> task.specHistory[i].revision == i + 1)
            && task.repositoryId == task.spec.repositoryId
            && (forall r :: r in task.runIds ==> r in sys.mem.runs && sys.mem.runs[r].taskId == t)
            && (forall i, j :: 0 <= i < j < |task.runIds| ==>
                  sys.mem.runs[task.runIds[i]].taskRevision <= sys.mem.runs[task.runIds[j]].taskRevision)
            && (task.activeRunId.Some? ==>
                  && task.runIds != [] && task.activeRunId.value == task.runIds[|task.runIds| - 1]
                  && sys.mem.runs[task.activeRunId.value].taskRevision == task.revision)
  {
    hide Reachable, Justified;
    ReachableIsOk(sys);
    TaskFacts(sys.mem, t);
    hide Inv, Settled;
  }

  /** How one record may change: history and runs only grow, identity never changes, and a
      terminal task stays as it is except for what it has already recorded. */
  ghost predicate Evolves(a: Task, b: Task) {
    && b.repositoryId == a.repositoryId
    && b.createdSeq == a.createdSeq
    && a.revision <= b.revision
    && a.specHistory <= b.specHistory
    && a.runIds <= b.runIds
    && a.evidenceIds <= b.evidenceIds
    && (Terminal(a.state) ==> b.state == a.state && b.revision == a.revision && b.runIds == a.runIds)
  }

  lemma EvolvesTransitive(a: Task, b: Task, c: Task)
    requires Evolves(a, b) && Evolves(b, c)
    ensures Evolves(a, c)
  {
  }

  lemma RecordGrows(task: Task, e: Event)
    requires e.SpecRevised? ==> task.revision <= e.revision
    ensures var b := RecordAfter(task, e);
            && b.repositoryId == task.repositoryId && b.createdSeq == task.createdSeq && task.revision <= b.revision
            && task.specHistory <= b.specHistory && task.runIds <= b.runIds && task.evidenceIds <= b.evidenceIds
  {
  }

  /** A finished task only takes events that leave its state, revision and runs alone. */
  lemma FinishedStays(s: State, e: Event)
    requires Inv(s) && Legal(s, e) && e.taskId in s.tasks && Terminal(s.tasks[e.taskId].state)
    ensures var b := RecordAfter(s.tasks[e.taskId], e); var a := s.tasks[e.taskId];
            b.state == a.state && b.revision == a.revision && b.runIds == a.runIds
  {
    hide Inv, NoPending, NoOpen, Matches;
    if e.taskId in s.queue { QueuedInQueue(s, e.taskId); }
  }

  lemma QueuedInQueue(s: State, t: Id)
    requires Inv(s) && t in s.queue
    ensures t in s.tasks && s.tasks[t].state == Queued
  {
    QueueFacts(s, t);
    hide Inv;
  }

  lemma RevisionGoesUp(s: State, e: Event)
    requires Legal(s, e) && e.SpecRevised?
    ensures e.taskId in s.tasks && s.tasks[e.taskId].revision <= e.revision
  {
  }

  lemma OwnRecordEvolves(s: State, e: Event)
    requires Inv(s) && Legal(s, e) && e.taskId in s.tasks
    ensures Evolves(s.tasks[e.taskId], RecordAfter(s.tasks[e.taskId], e))
  {
    hide Inv, Legal, RecordAfter;
    if e.SpecRevised? { RevisionGoesUp(s, e); }
    RecordGrows(s.tasks[e.taskId], e);
    if Terminal(s.tasks[e.taskId].state) { FinishedStays(s, e); }
  }

  lemma EventEvolves(s: State, e: Event, t: Id)
    requires Inv(s) && Legal(s, e) && Guard(s, e) && t in s.tasks
    ensures t in Next(s, e).tasks && Evolves(s.tasks[t], Next(s, e).tasks[t])
  {
    hide Inv, Legal, Guard, Next;
    if t == e.taskId {
      ShapeOfRecord(s, e);
      OwnRecordEvolves(s, e);
    } else {
      ShapeOfTasks(s, e);
    }
  }

  lemma {:induction false} EventsEvolve(s: State, events: seq<Event>, t: Id)
    requires Inv(s) && LegalAll(s, events) && t in s.tasks
    ensures t in After(s, events).tasks && Evolves(s.tasks[t], After(s, events).tasks[t])
    decreases |events|
  {
    hide Inv, Legal, Guard, Next, Evolves;
    if events == [] {
      assert Evolves(s.tasks[t], s.tasks[t]) by { EvolvesReflexive(s.tasks[t]); }
    } else {
      LegalApplies(s, events[0]);
      EventEvolves(s, events[0], t);
      EventsEvolve(Next(s, events[0]), events[1..], t);
      EvolvesTransitive(s.tasks[t], Next(s, events[0]).tasks[t], After(s, events).tasks[t]);
    }
  }

  lemma EvolvesReflexive(a: Task)
    ensures Evolves(a, a)
  {
  }

  /** No step of a run loses a task, changes its repository, rewrites its history, or revives
      a finished one. */
  lemma StepEvolves(sys: Sys, step: Step, t: Id)
    requires Reachable(sys) && Perform(sys, step).Some? && t in sys.mem.tasks
    ensures var later := Perform(sys, step).value.mem;
            t in later.tasks && Evolves(sys.mem.tasks[t], later.tasks[t])
  {
    hide Inv, Settled, Justified, Reachable, Evolves, Decide, Fresh, RefusedUnrecorded, ApplyAll;
    ReachableIsOk(sys);
    EvolvesReflexive(sys.mem.tasks[t]);
    match step
    case Signalled(id, ids, sig) =>
      if RefusedUnrecorded(sys.mem, sig) {
        RefusalKeeps(sys, id, ids, sig);
      } else if id in sys.store.commands {
        RepeatedCommand(sys, id, ids, sig);
      } else {
        DecisionApplies(sys.mem, sys.rows, id, ids, sig);
        EventsEvolve(sys.mem, Decide(sys.mem, sys.rows, id, ids, sig).events, t);
      }
    case Recorded(_) =>
    case Restarted => ReplayRestoresMemory(sys);
  }

  /** The same over any continuation of a run. */
  lemma {:induction false} RunEvolves(before: seq<Step>, steps: seq<Step>, t: Id)
    requires Execute(before).Some? && Execute(before + steps).Some? && t in Execute(before).value.mem.tasks
    ensures t in Execute(before + steps).value.mem.tasks
    ensures Evolves(Execute(before).value.mem.tasks[t], Execute(before + steps).value.mem.tasks[t])
    decreases |steps|
  {
    hide Perform, Evolves;
    if steps == [] {
      assert before + steps == before;
      EvolvesReflexive(Execute(before).value.mem.tasks[t]);
    } else {
      var n := |steps| - 1;
      var all := before + steps;
      assert all[..|all| - 1] == before + steps[..n];
      RunEvolves(before, steps[..n], t);
      var sys := Execute(before + steps[..n]).value;
      assert Reachable(sys);
      StepEvolves(sys, steps[n], t);
      EvolvesTransitive(Execute(before).value.mem.tasks[t], sys.mem.tasks[t], Execute(all).value.mem.tasks[t]);
    }
  }
}

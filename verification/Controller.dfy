/** The event-sourced controller over its store: a command is decided against the state in
    memory, persisted with its result in one transaction, and folded into memory
    (packages/core/src/controller.ts, packages/core/src/event-store.ts). */
module Controller {
  import opened Protocol
  import opened Domain
  import opened Evidence
  import opened Decisions
  import opened Invariants
  import opened Progress

  /** Event row i of the log has sequence number i + 1. */
  datatype Store = Store(log: seq<Event>, commands: map<Id, ActionResult>)

  datatype Execution = Executed(result: ActionResult, events: seq<Event>) | RolledBack

  /** A known id returns its stored result. Otherwise the events and the result are stored
      together, or nothing is when an event does not satisfy its schema. */
  function ExecuteCommand(store: Store, id: Id, d: Decision): (Store, Execution) {
    if id in store.commands then (store, Executed(store.commands[id], []))
    else if exists e :: e in d.events && !WellFormed(e) then (store, RolledBack)
    else (Store(store.log + d.events, store.commands[id := d.result]), Executed(d.result, d.events))
  }

  /** The daemon: store, controller memory and evidence table. */
  datatype Sys = Sys(store: Store, mem: State, rows: seq<Artifact>)

  datatype Outcome = Returned(sys: Sys, result: ActionResult) | Thrown(sys: Sys)

  function Handle(sys: Sys, id: Id, ids: FreshIds, sig: Signal): Outcome {
    if RefusedUnrecorded(sys.mem, sig) then Returned(sys, UnrecordedRefusal(sig))
    else
      var (store, execution) := ExecuteCommand(sys.store, id, Decide(sys.mem, sys.rows, id, ids, sig));
      match execution
      case RolledBack => Thrown(sys)
      case Executed(result, events) =>
        match ApplyAll(sys.mem, |sys.store.log| + 1, events)
        case Ok(mem) => Returned(Sys(store, mem, sys.rows), result)
        case Threw(mem) => Thrown(Sys(store, mem, sys.rows))
  }

  /** A new controller over an existing store. */
  function Restart(store: Store, rows: seq<Artifact>): Option<Sys> {
    match Replay(store.log)
    case Ok(mem) => Some(Sys(store, mem, rows))
    case Threw(_) => None
  }

  datatype Step =
    | Signalled(id: Id, ids: FreshIds, sig: Signal)
    | Recorded(artifact: Artifact)
    | Restarted

  const INITIAL := Sys(Store([], map[]), EMPTY, [])

  /** One step that does not throw. `createId` and the evidence table hand out fresh ids. */
  ghost function Perform(sys: Sys, step: Step): Option<Sys> {
    match step
    case Signalled(id, ids, sig) =>
      if !Fresh(sys.mem, ids) then None
      else (match Handle(sys, id, ids, sig)
            case Returned(sys', _) => Some(sys')
            case Thrown(_) => None)
    case Recorded(artifact) =>
      if ValidTable(sys.rows + [artifact]) then Some(sys.(rows := sys.rows + [artifact])) else None
    case Restarted => Restart(sys.store, sys.rows)
  }

  /** The system after a run, or None when one of its steps throws. */
  ghost function Execute(steps: seq<Step>): Option<Sys> {
    if steps == [] then Some(INITIAL)
    else
      var before := Execute(steps[..|steps| - 1]);
      if before.None? then None else Perform(before.value, steps[|steps| - 1])
  }

  ghost predicate Reachable(sys: Sys) {
    exists steps :: Execute(steps) == Some(sys)
  }

  // ------------------------------------------------------------ the run invariant

  ghost predicate CompletionsJustified(log: seq<Event>, rows: seq<Artifact>) {
    forall e :: e in log && e.TaskCompleted? ==> Justified(rows, e.taskId, e.runId, e.evidenceIds)
  }

  ghost predicate SysOk(sys: Sys) {
    && Ready(sys.mem)
    && Replay(sys.store.log) == Ok(sys.mem)
    && sys.mem.seqNo == |sys.store.log|
    && (forall q :: q in sys.mem.questions ==> q in sys.store.commands)
    && SessionsNamed(sys.mem)
    && ValidTable(sys.rows)
    && CompletionsJustified(sys.store.log, sys.rows)
  }

  lemma EmptyIsReady()
    ensures Ready(EMPTY)
  {
  }

  lemma InitialOk()
    ensures SysOk(INITIAL)
  {
    hide Ready, Justified;
    EmptyIsReady();
  }

  /** Questions are only asked under the id of the signal. */
  lemma {:induction false} QuestionIds(s: State, events: seq<Event>)
    requires LegalAll(s, events)
    ensures forall q :: q in After(s, events).questions && q !in s.questions ==>
              exists i :: 0 <= i < |events| && events[i].QuestionAsked? && events[i].questionId == q
    decreases |events|
  {
    hide Legal, Guard, Next;
    if events != [] {
      QuestionKeys(s, events[0]);
      QuestionIds(Next(s, events[0]), events[1..]);
      forall q | q in After(s, events).questions && q !in s.questions
        ensures exists i :: 0 <= i < |events| && events[i].QuestionAsked? && events[i].questionId == q {
        if q in Next(s, events[0]).questions {
          assert events[0].QuestionAsked? && events[0].questionId == q;
        } else {
          var i :| 0 <= i < |events[1..]| && events[1..][i].QuestionAsked? && events[1..][i].questionId == q;
          assert events[i + 1].QuestionAsked?;
        }
      }
    }
  }

  lemma QuestionKeys(s: State, e: Event)
    requires Guard(s, e)
    ensures Next(s, e).questions.Keys == s.questions.Keys + if e.QuestionAsked? then {e.questionId} else {}
  {
    hide Guard, Next;
    ShapeOfQuestions(s, e);
    if e.QuestionAnswered? { AnsweredExists(s, e); }
  }

  lemma AnsweredExists(s: State, e: Event)
    requires Guard(s, e) && e.QuestionAnswered?
    ensures e.questionId in s.questions
  {
  }

  /** Only asking asks, under the signal's id; only completing completes, past the gate. */
  lemma DecidedEvents(s: State, rows: seq<Artifact>, id: Id, ids: FreshIds, sig: Signal)
    requires !RefusedUnrecorded(s, sig)
    ensures forall e :: e in Decide(s, rows, id, ids, sig).events ==>
              && (e.QuestionAsked? ==> e.questionId == id)
              && (e.TaskCompleted? ==> ValidateCompletion(rows, e.taskId, e.runId, e.evidenceIds).valid)
  {
    hide Decide, ValidateCompletion;
    DecidedQuestions(s, rows, id, ids, sig);
    DecidedCompletions(s, rows, id, ids, sig);
  }

  lemma NotAsked(sig: Signal)
    requires !sig.AskQuestion?
    ensures forall e :: MayDecide(sig, e) ==> !e.QuestionAsked?
  {
  }

  lemma NotCompleted(sig: Signal)
    requires !sig.Complete?
    ensures forall e :: MayDecide(sig, e) ==> !e.TaskCompleted?
  {
  }

  lemma AskedUnderItsId(s: State, rows: seq<Artifact>, id: Id, ids: FreshIds, sig: Signal)
    requires sig.AskQuestion?
    ensures forall e :: e in Decide(s, rows, id, ids, sig).events && e.QuestionAsked? ==> e.questionId == id
  {
    hide HasOpenQuestion;
  }

  lemma CompletedPastGate(s: State, rows: seq<Artifact>, id: Id, ids: FreshIds, sig: Signal)
    requires sig.Complete?
    ensures forall e :: e in Decide(s, rows, id, ids, sig).events && e.TaskCompleted? ==>
              ValidateCompletion(rows, e.taskId, e.runId, e.evidenceIds).valid
  {
    hide ValidateCompletion;
  }

  lemma DecidedQuestions(s: State, rows: seq<Artifact>, id: Id, ids: FreshIds, sig: Signal)
    requires !RefusedUnrecorded(s, sig)
    ensures forall e :: e in Decide(s, rows, id, ids, sig).events ==> (e.QuestionAsked? ==> e.questionId == id)
  {
    hide Decide;
    DecidedKinds(s, rows, id, ids, sig);
    hide MayDecide;
    if sig.AskQuestion? { AskedUnderItsId(s, rows, id, ids, sig); } else { NotAsked(sig); }
  }

  lemma DecidedCompletions(s: State, rows: seq<Artifact>, id: Id, ids: FreshIds, sig: Signal)
    requires !RefusedUnrecorded(s, sig)
    ensures forall e :: e in Decide(s, rows, id, ids, sig).events ==>
              (e.TaskCompleted? ==> ValidateCompletion(rows, e.taskId, e.runId, e.evidenceIds).valid)
  {
    hide Decide, ValidateCompletion;
    DecidedKinds(s, rows, id, ids, sig);
    hide MayDecide;
    if sig.Complete? { CompletedPastGate(s, rows, id, ids, sig); } else { NotCompleted(sig); }
  }

  lemma AppendedLog(sys: Sys, events: seq<Event>)
    requires SysOk(sys) && LegalAll(sys.mem, events)
    ensures Replay(sys.store.log + events) == Ok(After(sys.mem, events))
  {
    hide Apply, Justified, Settled, Inv;
    ApplyAllConcat(EMPTY, 1, sys.store.log, events);
    LegalAllApplies(sys.mem, events);
  }

  lemma CommandKeeps(sys: Sys, id: Id, ids: FreshIds, sig: Signal)
    requires SysOk(sys) && Fresh(sys.mem, ids) && id !in sys.store.commands && !RefusedUnrecorded(sys.mem, sig)
    requires Handle(sys, id, ids, sig).Returned?
    ensures SysOk(Handle(sys, id, ids, sig).sys)
  {
    hide Inv, Settled, Justified, Decide, Fresh, RefusedUnrecorded, ApplyAll;
    var d := Decide(sys.mem, sys.rows, id, ids, sig);
    var sys' := Handle(sys, id, ids, sig).sys;
    DecisionApplies(sys.mem, sys.rows, id, ids, sig);
    AppendedLog(sys, d.events);
    assert AllWellFormed(d.events);
    SessionsStayNamed(sys.mem, d.events);
    QuestionIds(sys.mem, d.events);
    DecidedEvents(sys.mem, sys.rows, id, ids, sig);
    forall q | q in sys'.mem.questions ensures q in sys'.store.commands {
      if q !in sys.mem.questions { assert q == id; }
    }
    forall e | e in sys'.store.log && e.TaskCompleted? ensures Justified(sys'.rows, e.taskId, e.runId, e.evidenceIds) {
      if e in d.events { GateMeaning(sys.rows, e.taskId, e.runId, e.evidenceIds); }
    }
  }

  /** Idempotence: a repeated id returns the stored result and changes nothing. */
  lemma RepeatedCommand(sys: Sys, id: Id, ids: FreshIds, sig: Signal)
    requires id in sys.store.commands && !RefusedUnrecorded(sys.mem, sig)
    ensures Handle(sys, id, ids, sig) == Returned(sys, sys.store.commands[id])
  {
  }

  /** A restart reads back exactly the state in memory. */
  lemma ReplayRestoresMemory(sys: Sys)
    requires SysOk(sys)
    ensures Restart(sys.store, sys.rows) == Some(sys)
  {
  }

  lemma StepKeeps(sys: Sys, step: Step)
    requires SysOk(sys) && Perform(sys, step).Some?
    ensures SysOk(Perform(sys, step).value)
  {
    hide Inv, Settled, Justified, Decide, Fresh, RefusedUnrecorded, ApplyAll, Handle;
    match step
    case Signalled(id, ids, sig) =>
      if RefusedUnrecorded(sys.mem, sig) {
        RefusalKeeps(sys, id, ids, sig);
      } else if id in sys.store.commands {
        RepeatedCommand(sys, id, ids, sig);
      } else {
        CommandKeeps(sys, id, ids, sig);
      }
    case Recorded(artifact) =>
      var rows := sys.rows + [artifact];
      forall e | e in sys.store.log && e.TaskCompleted? ensures Justified(rows, e.taskId, e.runId, e.evidenceIds) {
        JustifiedForever(sys.rows, rows, e.taskId, e.runId, e.evidenceIds);
      }
    case Restarted => ReplayRestoresMemory(sys);
  }

  lemma RefusalKeeps(sys: Sys, id: Id, ids: FreshIds, sig: Signal)
    requires RefusedUnrecorded(sys.mem, sig)
    ensures Handle(sys, id, ids, sig) == Returned(sys, UnrecordedRefusal(sig))
  {
  }

  /** In every run of non-throwing steps, memory is the replay of the log, its sequence number
      is the length of the log, the inductive invariant holds, and every completion in the log
      is justified by the evidence stored now. */
  lemma {:induction false} RunsAreOk(steps: seq<Step>)
    requires Execute(steps).Some?
    ensures SysOk(Execute(steps).value)
  {
    hide SysOk, Perform;
    if steps == [] {
      InitialOk();
    } else {
      RunsAreOk(steps[..|steps| - 1]);
      StepKeeps(Execute(steps[..|steps| - 1]).value, steps[|steps| - 1]);
    }
  }

  lemma ReachableIsOk(sys: Sys)
    requires Reachable(sys)
    ensures SysOk(sys)
  {
    var steps :| Execute(steps) == Some(sys);
    RunsAreOk(steps);
  }

  /** When a new command throws: an internal signal does not meet the schema of its event while its task
      is at work in the way it expects, and then nothing is recorded; or it cancels a task with an open
      question. Nothing else throws. */
  lemma CommandThrowsExactlyWhen(sys: Sys, id: Id, ids: FreshIds, sig: Signal)
    requires SysOk(sys) && Fresh(sys.mem, ids) && id !in sys.store.commands && !RefusedUnrecorded(sys.mem, sig)
    ensures var refused := Malformed(sig) && Applicable(sys.mem, sys.rows, sig);
            && (Handle(sys, id, ids, sig).Thrown? <==> refused || CancelsOpenQuestion(sys.mem, sig))
            && (refused ==> Handle(sys, id, ids, sig) == Thrown(sys))
  {
    hide Inv, Settled, Justified, Decide, Fresh, RefusedUnrecorded, ApplyAll, NoDuplicates, CancelsOpenQuestion;
    hide Malformed, Applicable, SessionsNamed, ValidTable;
    DecisionApplies(sys.mem, sys.rows, id, ids, sig);
    DecisionIsWellFormed(sys.mem, sys.rows, id, ids, sig);
    var d := Decide(sys.mem, sys.rows, id, ids, sig);
    assert AllWellFormed(d.events) <==> !exists e :: e in d.events && !WellFormed(e);
    assert Malformed(sig) ==> !CancelsOpenQuestion(sys.mem, sig) by { OnlySignalsAreMalformed(sys.mem, sig); }
  }

  lemma OnlySignalsAreMalformed(s: State, sig: Signal)
    ensures Malformed(sig) ==> !CancelsOpenQuestion(s, sig)
  {
  }

  lemma OnlyCancelCancels(s: State, sig: Signal)
    ensures CancelsOpenQuestion(s, sig) ==> sig.Cancel?
  {
  }

  // ------------------------------------------------------------------- over whole runs

  /** A controller opened over the store of any reachable system has exactly its memory. */
  lemma RestartRestoresMemory(sys: Sys)
    requires Reachable(sys)
    ensures Restart(sys.store, sys.rows) == Some(sys)
  {
    hide Reachable, Ready, CompletionsJustified;
    ReachableIsOk(sys);
  }

  /** The log is only appended to, and a recorded command stays as it is. */
  ghost predicate StoreGrows(a: Store, b: Store) {
    a.log <= b.log && forall id :: id in a.commands ==> id in b.commands && b.commands[id] == a.commands[id]
  }

  lemma StepGrowsStore(sys: Sys, step: Step)
    requires Perform(sys, step).Some?
    ensures StoreGrows(sys.store, Perform(sys, step).value.store)
  {
    hide Decide, ApplyAll, Replay, Fresh, RefusedUnrecorded, ValidTable;
  }

  lemma {:induction false} RunGrowsStore(before: seq<Step>, steps: seq<Step>)
    requires Execute(before).Some? && Execute(before + steps).Some?
    ensures StoreGrows(Execute(before).value.store, Execute(before + steps).value.store)
    decreases |steps|
  {
    hide Perform;
    if steps == [] {
      assert before + steps == before;
    } else {
      var n := |steps| - 1;
      var all := before + steps;
      assert all[..|all| - 1] == before + steps[..n];
      RunGrowsStore(before, steps[..n]);
      StepGrowsStore(Execute(before + steps[..n]).value, steps[n]);
    }
  }

  /** Exactly once: however long after it was recorded, a command sent again under its id gets the
      result of the first time and changes nothing, whatever it now says. */
  lemma ExactlyOnce(before: seq<Step>, steps: seq<Step>, id: Id, ids: FreshIds, sig: Signal)
    requires Execute(before).Some? && Execute(before + steps).Some?
    requires id in Execute(before).value.store.commands
    requires !RefusedUnrecorded(Execute(before + steps).value.mem, sig)
    ensures var first, later := Execute(before).value, Execute(before + steps).value;
            Handle(later, id, ids, sig) == Returned(later, first.store.commands[id])
  {
    hide Execute, RefusedUnrecorded, Decide;
    RunGrowsStore(before, steps);
    RepeatedCommand(Execute(before + steps).value, id, ids, sig);
  }

  /** The result that is recorded is the one that was returned: a command answered once gets that answer
      ever after, whatever happens in between. */
  lemma FirstAnswerLasts(before: seq<Step>, first: Step, steps: seq<Step>, ids: FreshIds, sig: Signal)
    requires first.Signalled? && Execute(before).Some? && first.id !in Execute(before).value.store.commands
    requires !RefusedUnrecorded(Execute(before).value.mem, first.sig)
    requires Execute(before + [first]).Some? && Execute(before + [first] + steps).Some?
    requires !RefusedUnrecorded(Execute(before + [first] + steps).value.mem, sig)
    ensures var answered := Handle(Execute(before).value, first.id, first.ids, first.sig);
            var later := Execute(before + [first] + steps).value;
            answered.Returned? && Handle(later, first.id, ids, sig) == Returned(later, answered.result)
  {
    hide RefusedUnrecorded, Decide, Handle;
    var run := before + [first];
    assert run[..|run| - 1] == before;
    hide Execute;
    AnswerIsRecorded(Execute(before).value, first.id, first.ids, first.sig);
    ExactlyOnce(run, steps, first.id, ids, sig);
  }

  lemma AnswerIsRecorded(sys: Sys, id: Id, ids: FreshIds, sig: Signal)
    requires id !in sys.store.commands && !RefusedUnrecorded(sys.mem, sig) && Handle(sys, id, ids, sig).Returned?
    ensures var out := Handle(sys, id, ids, sig); out.sys.store.commands == sys.store.commands[id := out.result]
  {
    hide RefusedUnrecorded, Decide, ApplyAll;
  }

  lemma ReachableExtends(sys: Sys, step: Step)
    requires Reachable(sys) && Perform(sys, step).Some?
    ensures Reachable(Perform(sys, step).value)
  {
    hide Perform;
    var steps :| Execute(steps) == Some(sys);
    var longer := steps + [step];
    assert longer[..|longer| - 1] == steps && longer[|longer| - 1] == step;
    assert Execute(longer) == Perform(sys, step);
  }
}

/** What a signal can touch, and which signals move a task through its states: one statement for all
    seventeen signals, in every reachable state. */
module Frame {
  import opened Protocol
  import opened Domain
  import opened Evidence
  import opened Decisions
  import opened Invariants
  import opened Progress
  import opened Controller
  import opened SlotTheorems
  import opened TaskHistory
  import opened Outcomes

  // ------------------------------------------------------------------- a scope of change

  /** The records that may change. */
  datatype Scope = Scope(tasks: set<Id>, runs: set<Id>, questions: set<Id>, confirmations: set<Id>)

  ghost predicate SameOutside<V>(m: map<Id, V>, m': map<Id, V>, keys: set<Id>) {
    forall k :: k !in keys ==> (k in m <==> k in m') && (k in m ==> m'[k] == m[k])
  }

  /** Nothing outside the scope is added, removed or changed, and no stopped run runs again. */
  ghost predicate Within(s: State, s': State, scope: Scope) {
    && SameOutside(s.tasks, s'.tasks, scope.tasks)
    && SameOutside(s.runs, s'.runs, scope.runs)
    && SameOutside(s.questions, s'.questions, scope.questions)
    && SameOutside(s.confirmations, s'.confirmations, scope.confirmations)
    && (forall r :: r in s.runs ==> r in s'.runs && (s'.runs[r].state == RunRunning ==> s.runs[r].state == RunRunning))
  }

  lemma WithinComposes(s: State, s1: State, s2: State, scope: Scope)
    requires Within(s, s1, scope) && Within(s1, s2, scope)
    ensures Within(s, s2, scope)
  {
  }

  /** The run an event writes, except for a cancellation, which names none. */
  function RunIdOf(e: Event): set<Id> {
    match e
    case TaskStarted(_, r, _) => {r}
    case TaskResumed(_, r, _) => {r}
    case TaskPaused(_, r, _) => {r}
    case AwaitingUser(_, r) => {r}
    case QuestionAsked(_, _, r, _, _) => {r}
    case TaskCompleted(_, r, _, _) => {r}
    case TaskFailed(_, r, _) => {r}
    case RunInterrupted(_, r) => {r}
    case _ => {}
  }

  /** The event by itself only names records of the scope. */
  predicate Names(e: Event, scope: Scope) {
    && e.taskId in scope.tasks
    && RunIdOf(e) <= scope.runs
    && (e.QuestionAsked? || e.QuestionAnswered? ==> e.questionId in scope.questions)
    && (TouchesApprovals(e) ==> e.confirmationId in scope.confirmations)
  }

  /** A cancellation also writes the active run, a revision the open questions. */
  predicate Reaches(s: State, e: Event, scope: Scope) {
    && (e.TaskCancelled? && e.taskId in s.tasks && s.tasks[e.taskId].activeRunId.Some? ==>
          s.tasks[e.taskId].activeRunId.value in scope.runs)
    && (e.SpecRevised? ==> OpenQuestions(s.questions, e.taskId) <= scope.questions)
  }

  lemma RunsOfEvent(s: State, e: Event, scope: Scope)
    requires Guard(s, e) && Names(e, scope) && Reaches(s, e, scope)
    ensures RunOf(s, e).Some? ==> RunOf(s, e).value in scope.runs
  {
  }

  lemma NoRevival(s: State, e: Event, r: Id)
    requires Legal(s, e) && Guard(s, e) && r in s.runs && r in Next(s, e).runs
    ensures Next(s, e).runs[r].state == RunRunning ==> s.runs[r].state == RunRunning
  {
    hide Legal, Guard, Next;
    if e.TaskStarted? || e.TaskResumed? {
      StartAddsRun(s, e, r);
    } else if Parks(e) {
      ParkingStopsRun(s, e, r);
    } else if Travels(e) {
      FinishStopsRun(s, e, r);
    } else {
      NoteStopsRuns(s, e, r);
    }
  }

  lemma StartAddsRun(s: State, e: Event, r: Id)
    requires Legal(s, e) && Guard(s, e) && (e.TaskStarted? || e.TaskResumed?) && r in s.runs && r in Next(s, e).runs
    ensures Next(s, e).runs[r] == s.runs[r]
  {
    hide NoOpen, NoPending, Without, InsertAt;
  }

  lemma ParkingStopsRun(s: State, e: Event, r: Id)
    requires Guard(s, e) && Parks(e) && r in s.runs && r in Next(s, e).runs
    ensures Next(s, e).runs[r].state == RunRunning ==> s.runs[r].state == RunRunning
  {
  }

  lemma FinishStopsRun(s: State, e: Event, r: Id)
    requires Guard(s, e) && (Finishes(e) || e.TaskEnqueued?) && r in s.runs && r in Next(s, e).runs
    ensures Next(s, e).runs[r].state == RunRunning ==> s.runs[r].state == RunRunning
  {
    hide Without, InsertAt;
  }

  lemma NoteStopsRuns(s: State, e: Event, r: Id)
    requires Guard(s, e) && !Travels(e) && r in s.runs && r in Next(s, e).runs
    ensures Next(s, e).runs[r].state == RunRunning ==> s.runs[r].state == RunRunning
  {
    hide Supersede, NewTask, RevisedTask, WithBoundary, WithEvidence;
  }

  lemma QuestionsOfEvent(s: State, e: Event, scope: Scope)
    requires Guard(s, e) && Names(e, scope) && Reaches(s, e, scope)
    ensures SameOutside(s.questions, Next(s, e).questions, scope.questions)
  {
    hide Guard, Next, OpenQuestions;
    ShapeOfQuestions(s, e);
    if e.SpecRevised? { OnlyOpenOnesClose(s.questions, e.taskId, scope.questions); }
  }

  lemma OnlyOpenOnesClose(questions: map<Id, Question>, t: Id, keys: set<Id>)
    requires OpenQuestions(questions, t) <= keys
    ensures SameOutside(questions, Supersede(questions, t), keys)
  {
    forall q | q !in keys && q in questions
      ensures Supersede(questions, t)[q] == questions[q]
    {
      assert q !in OpenQuestions(questions, t);
    }
  }

  lemma RecordsOfEvent(s: State, e: Event, scope: Scope)
    requires Guard(s, e) && Names(e, scope)
    ensures SameOutside(s.tasks, Next(s, e).tasks, scope.tasks)
    ensures SameOutside(s.confirmations, Next(s, e).confirmations, scope.confirmations)
  {
    hide Guard, Next, RunIdOf;
    ShapeOfTasks(s, e);
    ShapeOfConfirmations(s, e);
  }

  lemma RunsWithin(s: State, e: Event, scope: Scope)
    requires Guard(s, e) && Names(e, scope) && Reaches(s, e, scope)
    ensures SameOutside(s.runs, Next(s, e).runs, scope.runs)
    ensures s.runs.Keys <= Next(s, e).runs.Keys
  {
    hide Guard, Next, RunOf, Reaches, Names;
    ShapeOfRuns(s, e);
    RunsOfEvent(s, e, scope);
  }

  lemma EventWithin(s: State, e: Event, scope: Scope)
    requires Legal(s, e) && Guard(s, e) && Names(e, scope) && Reaches(s, e, scope)
    ensures Within(s, Next(s, e), scope)
  {
    hide Legal, Guard, Next, Names, Reaches;
    RecordsOfEvent(s, e, scope);
    RunsWithin(s, e, scope);
    QuestionsOfEvent(s, e, scope);
    forall r | r in s.runs
      ensures r in Next(s, e).runs && (Next(s, e).runs[r].state == RunRunning ==> s.runs[r].state == RunRunning)
    {
      NoRevival(s, e, r);
    }
  }

  /** Events that are neither cancellations nor revisions reach only what they name. */
  lemma {:induction false} EventsWithin(s: State, events: seq<Event>, scope: Scope)
    requires Inv(s) && LegalAll(s, events)
    requires forall e :: e in events ==> Names(e, scope) && !e.TaskCancelled? && !e.SpecRevised?
    ensures Within(s, After(s, events), scope)
    decreases |events|
  {
    hide Inv, Legal, Guard, Next, Names, Within;
    if events == [] {
      StaysWithin(s, scope);
    } else {
      var e := events[0];
      LegalApplies(s, e);
      EventWithin(s, e, scope);
      EventsWithin(Next(s, e), events[1..], scope);
      WithinComposes(s, Next(s, e), After(s, events), scope);
    }
  }

  lemma StaysWithin(s: State, scope: Scope)
    ensures Within(s, s, scope)
  {
  }

  // ---------------------------------------------------------------- the scope of a signal

  /** The task a signal is about. */
  function Named(s: State, ids: FreshIds, sig: Signal): Option<Id> {
    match sig
    case Submit(_) => Some(ids.task)
    case Recover => s.active
    case ResolveApproval(c, _, _) => if c in s.confirmations then Some(s.confirmations[c].taskId) else None
    case _ => Some(sig.taskId)
  }

  /** The last run of a task: the only one that can still be at work. */
  function LastRun(s: State, t: Id): set<Id> {
    if t in s.tasks && s.tasks[t].runIds != [] then {s.tasks[t].runIds[|s.tasks[t].runIds| - 1]} else {}
  }

  predicate MayEnd(sig: Signal) {
    sig.Cancel? || sig.Complete? || sig.Fail?
  }

  /** The named task; the head of the queue when the named task may leave the slot; its last run and a
      new one; its open questions, or a new one; at most one confirmation. */
  function ScopeOf(s: State, id: Id, ids: FreshIds, sig: Signal): Scope {
    var named := Named(s, ids, sig);
    var t := if named.Some? then named.value else 0;
    Scope((if named.Some? then {t} else {})
          + (if MayEnd(sig) && s.active == Some(t) && s.queue != [] then {s.queue[0]} else {}),
          {ids.run} + (if named.Some? then LastRun(s, t) else {}),
          if sig.AskQuestion? then {id} else if named.Some? then OpenQuestions(s.questions, t) else {},
          match sig
          case ResolveApproval(c, _, _) => {c}
          case Authorize(_, _, fingerprint, _) =>
            if t !in s.tasks then {}
            else
              var approved := FindConfirmation(s, t, s.tasks[t].revision, fingerprint, Approved);
              if approved.Some? then {approved.value} else {ids.confirmation}
          case _ => {})
  }

  lemma ActiveIsLast(s: State, t: Id)
    requires Inv(s) && t in s.tasks && s.tasks[t].activeRunId.Some?
    ensures LastRun(s, t) == {s.tasks[t].activeRunId.value}
  {
    TaskFacts(s, t);
    hide Inv, HistoryOk, RunListOk;
  }

  ghost predicate AllNamed(events: seq<Event>, scope: Scope) {
    forall e :: e in events ==> Names(e, scope) && !e.TaskCancelled? && !e.SpecRevised?
  }

  lemma StartNextNamed(s: State, ids: FreshIds, scope: Scope)
    requires s.queue != [] ==> s.queue[0] in scope.tasks
    requires ids.run in scope.runs
    ensures AllNamed(StartNext(s, ids), scope)
  {
  }

  /** The signals that record something about the task in the slot. */
  lemma NoteNamed(s: State, rows: seq<Artifact>, id: Id, ids: FreshIds, sig: Signal)
    requires sig.BindSession? || sig.RecordArtifact? || sig.RequestPause?
    ensures AllNamed(Decide(s, rows, id, ids, sig).events, ScopeOf(s, id, ids, sig))
  {
    hide OpenQuestions, LastRun, FindConfirmation;
  }

  /** The signals that set the task in the slot aside. */
  lemma WorkNamed(s: State, rows: seq<Artifact>, id: Id, ids: FreshIds, sig: Signal)
    requires Inv(s) && (sig.SafeBoundary? || sig.AskQuestion? || sig.ReportConflict? || sig.Recover?)
    ensures AllNamed(Decide(s, rows, id, ids, sig).events, ScopeOf(s, id, ids, sig))
  {
    hide Inv, HasOpenQuestion, OpenQuestions, LastRun, ConflictPaths, FindConfirmation;
    var named := Named(s, ids, sig);
    if named.Some? && named.value in s.tasks && s.tasks[named.value].activeRunId.Some? {
      ActiveIsLast(s, named.value);
    }
  }

  lemma AuthorizeNamed(s: State, rows: seq<Artifact>, id: Id, ids: FreshIds, sig: Signal)
    requires Ready(s) && sig.Authorize?
    ensures AllNamed(Decide(s, rows, id, ids, sig).events, ScopeOf(s, id, ids, sig))
  {
    hide Inv, Settled, OpenQuestions, LastRun, FindConfirmation, Matches;
    var t := sig.taskId;
    if t in s.tasks && s.tasks[t].activeRunId.Some? { ActiveIsLast(s, t); }
  }

  /** The signals that wait for the user's word, and those about the queue. */
  lemma WordNamed(s: State, rows: seq<Artifact>, id: Id, ids: FreshIds, sig: Signal)
    requires Inv(s) && (sig.Submit? || sig.Resume? || sig.AnswerQuestion? || sig.ResolveApproval? || sig.MoveQueue?)
    ensures AllNamed(Decide(s, rows, id, ids, sig).events, ScopeOf(s, id, ids, sig))
  {
    hide Inv, HasOpenQuestion, HasPending, FirstFast, MovedQueue, FindConfirmation;
  }

  lemma FinishNamed(s: State, rows: seq<Artifact>, id: Id, ids: FreshIds, sig: Signal)
    requires Inv(s) && (sig.Complete? || sig.Fail?)
    ensures AllNamed(Decide(s, rows, id, ids, sig).events, ScopeOf(s, id, ids, sig))
  {
    hide Inv, OpenQuestions, LastRun, FindConfirmation, ValidateCompletion, StartNext, Names;
    var t := sig.taskId;
    if Decide(s, rows, id, ids, sig).events != [] {
      ActiveIsLast(s, t);
      StartNextNamed(s, ids, ScopeOf(s, id, ids, sig));
      FirstNamed(s, rows, id, ids, sig);
    }
  }

  lemma FirstNamed(s: State, rows: seq<Artifact>, id: Id, ids: FreshIds, sig: Signal)
    requires (sig.Complete? || sig.Fail?) && sig.taskId in s.tasks && s.tasks[sig.taskId].activeRunId.Some?
    requires LastRun(s, sig.taskId) == {s.tasks[sig.taskId].activeRunId.value}
    ensures var t, run := sig.taskId, s.tasks[sig.taskId].activeRunId.value;
      && (sig.Fail? ==> Names(TaskFailed(t, run, sig.error), ScopeOf(s, id, ids, sig)))
      && (sig.Complete? ==> Names(TaskCompleted(t, run, sig.evidenceIds, sig.summary), ScopeOf(s, id, ids, sig)))
  {
    hide OpenQuestions, LastRun, FindConfirmation;
  }

  lemma DecisionWithin(s: State, rows: seq<Artifact>, id: Id, ids: FreshIds, sig: Signal)
    requires Ready(s) && LegalAll(s, Decide(s, rows, id, ids, sig).events)
    ensures Within(s, After(s, Decide(s, rows, id, ids, sig).events), ScopeOf(s, id, ids, sig))
  {
    hide Inv, Settled, Decide, LegalAll, After, Within, ScopeOf, Names;
    if sig.Cancel? {
      CancelWithin(s, rows, id, ids, sig);
    } else if sig.Revise? {
      ReviseWithin(s, rows, id, ids, sig);
    } else {
      if sig.Complete? || sig.Fail? {
        FinishNamed(s, rows, id, ids, sig);
      } else if sig.Authorize? {
        AuthorizeNamed(s, rows, id, ids, sig);
      } else if sig.Submit? || sig.Resume? || sig.AnswerQuestion? || sig.ResolveApproval? || sig.MoveQueue? {
        WordNamed(s, rows, id, ids, sig);
      } else if sig.BindSession? || sig.RecordArtifact? || sig.RequestPause? {
        NoteNamed(s, rows, id, ids, sig);
      } else {
        WorkNamed(s, rows, id, ids, sig);
      }
      EventsWithin(s, Decide(s, rows, id, ids, sig).events, ScopeOf(s, id, ids, sig));
    }
  }

  lemma ReviseWithin(s: State, rows: seq<Artifact>, id: Id, ids: FreshIds, sig: Signal)
    requires Ready(s) && sig.Revise? && LegalAll(s, Decide(s, rows, id, ids, sig).events)
    ensures Within(s, After(s, Decide(s, rows, id, ids, sig).events), ScopeOf(s, id, ids, sig))
  {
    hide Inv, Settled, LegalAll, After, Within, OpenQuestions, LastRun, FindConfirmation;
    var d, scope := Decide(s, rows, id, ids, sig), ScopeOf(s, id, ids, sig);
    if d.events == [] {
      StaysWithin(s, scope);
      EmptyChain(s);
    } else {
      var e := d.events[0];
      assert d.events == [e];
      SingleEvent(s, e);
      EventWithin(s, e, scope);
    }
  }

  lemma EmptyChain(s: State)
    ensures LegalAll(s, []) && After(s, []) == s
  {
  }

  lemma SingleEvent(s: State, e: Event)
    requires LegalAll(s, [e])
    ensures Legal(s, e) && Guard(s, e) && After(s, [e]) == Next(s, e)
  {
    hide Legal, Guard, Next;
    assert [e][1..] == [];
  }

  lemma CancelWithin(s: State, rows: seq<Artifact>, id: Id, ids: FreshIds, sig: Signal)
    requires Ready(s) && sig.Cancel? && LegalAll(s, Decide(s, rows, id, ids, sig).events)
    ensures Within(s, After(s, Decide(s, rows, id, ids, sig).events), ScopeOf(s, id, ids, sig))
  {
    hide Inv, Settled, LegalAll, After, Within, OpenQuestions, FindConfirmation, Names, Next, Guard, Legal, StartNext;
    var d, scope := Decide(s, rows, id, ids, sig), ScopeOf(s, id, ids, sig);
    if d.events == [] {
      StaysWithin(s, scope);
      EmptyChain(s);
    } else {
      var t := sig.taskId;
      var e, rest := d.events[0], d.events[1..];
      assert e == TaskCancelled(t) && (rest == [] || (s.active == Some(t) && rest == StartNext(s, ids)));
      HeadOfChain(s, d.events);
      CancelReaches(s, id, ids, sig);
      LegalApplies(s, e);
      EventWithin(s, e, scope);
      if rest != [] { StartNextNamed(s, ids, scope); }
      EventsWithin(Next(s, e), rest, scope);
      WithinComposes(s, Next(s, e), After(s, d.events), scope);
    }
  }

  lemma HeadOfChain(s: State, events: seq<Event>)
    requires LegalAll(s, events) && events != []
    ensures Legal(s, events[0]) && Guard(s, events[0]) && LegalAll(Next(s, events[0]), events[1..])
    ensures After(s, events) == After(Next(s, events[0]), events[1..])
  {
    hide Legal, Guard, Next;
  }

  lemma CancelReaches(s: State, id: Id, ids: FreshIds, sig: Signal)
    requires Inv(s) && sig.Cancel? && sig.taskId in s.tasks
    ensures Names(TaskCancelled(sig.taskId), ScopeOf(s, id, ids, sig))
    ensures Reaches(s, TaskCancelled(sig.taskId), ScopeOf(s, id, ids, sig))
  {
    hide Inv, OpenQuestions, LastRun, FindConfirmation;
    if s.tasks[sig.taskId].activeRunId.Some? { ActiveIsLast(s, sig.taskId); }
  }

  // ------------------------------------------------------------- who sets a task's state

  lemma RecordState(task: Task, e: Event)
    ensures RecordAfter(task, e).state == if Sets(e).Some? then Sets(e).value else task.state
  {
  }

  /** A changed state was set by one of the events. */
  lemma {:induction false} Setter(s: State, events: seq<Event>, t: Id) returns (e: Event)
    requires Inv(s) && LegalAll(s, events) && t in s.tasks && t in After(s, events).tasks
    requires After(s, events).tasks[t].state != s.tasks[t].state
    ensures e in events && e.taskId == t && Sets(e) == Some(After(s, events).tasks[t].state)
    decreases |events|
  {
    hide Inv, Legal, Guard, Next, RecordAfter, Sets;
    if events == [] {
      e := PolicyDecisionRecorded(t, Automatic, "", Labels("", "", ""));
      assert false;
    } else {
      var first, s1 := events[0], Next(s, events[0]);
      HeadOfChain(s, events);
      LegalApplies(s, first);
      ShapeOfTasks(s, first);
      if first.taskId == t {
        ShapeOfRecord(s, first);
        RecordState(s.tasks[t], first);
      }
      if s1.tasks[t].state == After(s, events).tasks[t].state {
        e := first;
      } else {
        e := Setter(s1, events[1..], t);
      }
    }
  }

  /** Which signals can put a task into which states. */
  lemma FinishersAre(s: State, rows: seq<Artifact>, id: Id, ids: FreshIds, sig: Signal)
    ensures forall e :: e in Decide(s, rows, id, ids, sig).events && Finishes(e) ==> MayEnd(sig)
  {
    hide Decide;
    DecidedKinds(s, rows, id, ids, sig);
  }

  lemma QueuersAre(s: State, rows: seq<Artifact>, id: Id, ids: FreshIds, sig: Signal)
    ensures forall e :: e in Decide(s, rows, id, ids, sig).events && e.TaskEnqueued? ==> sig.Submit?
  {
    hide Decide;
    DecidedKinds(s, rows, id, ids, sig);
  }

  predicate PutsBackToWork(sig: Signal) {
    sig.Resume? || sig.AnswerQuestion? || (sig.ResolveApproval? && sig.approve)
  }

  lemma ResumersAre(s: State, rows: seq<Artifact>, id: Id, ids: FreshIds, sig: Signal)
    ensures forall e :: e in Decide(s, rows, id, ids, sig).events && e.TaskResumed? ==> PutsBackToWork(sig)
  {
    hide Decide;
    DecidedKinds(s, rows, id, ids, sig);
  }

  lemma StartedIsHead(s: State, rows: seq<Artifact>, id: Id, ids: FreshIds, sig: Signal)
    requires MayEnd(sig)
    ensures forall e :: e in Decide(s, rows, id, ids, sig).events && e.TaskStarted? ==>
              s.queue != [] && e.taskId == s.queue[0]
  {
    hide ValidateCompletion;
  }

  lemma StartersAre(s: State, rows: seq<Artifact>, id: Id, ids: FreshIds, sig: Signal)
    ensures forall e :: e in Decide(s, rows, id, ids, sig).events && e.TaskStarted? ==>
              sig.Submit? || (s.queue != [] && e.taskId == s.queue[0])
  {
    hide Decide;
    DecidedKinds(s, rows, id, ids, sig);
    if MayEnd(sig) { StartedIsHead(s, rows, id, ids, sig); }
  }

  predicate SetsAside(sig: Signal) {
    sig.SafeBoundary? || sig.AskQuestion? || sig.ReportConflict? || sig.Authorize? || sig.Recover?
    || (sig.ResolveApproval? && !sig.approve)
  }

  lemma ParkersAre(s: State, rows: seq<Artifact>, id: Id, ids: FreshIds, sig: Signal)
    ensures forall e :: e in Decide(s, rows, id, ids, sig).events && Parks(e) ==> SetsAside(sig)
  {
    hide Decide;
    DecidedKinds(s, rows, id, ids, sig);
  }

  // ------------------------------------------------------------------- the frame theorem

  ghost predicate Differs<V>(m: map<Id, V>, m': map<Id, V>, k: Id) {
    (k in m) != (k in m') || (k in m && m[k] != m'[k])
  }

  /** The named task has left the slot for good, and the head of the queue has it. */
  ghost predicate HandedOver(s: State, s': State, named: Option<Id>) {
    && named.Some? && s.active == named
    && named.value in s'.tasks && Terminal(s'.tasks[named.value].state)
    && s'.active == (if s.queue == [] then None else Some(s.queue[0]))
  }

  /** What any one signal can touch. */
  ghost predicate Frugal(s: State, s': State, ids: FreshIds, sig: Signal) {
    var named := Named(s, ids, sig);
    && (forall t: Id :: Differs(s.tasks, s'.tasks, t) ==>
          (named == Some(t) && (t in s.tasks || sig.Submit?))
          || (HandedOver(s, s', named) && s.queue != [] && t == s.queue[0]))
    && (forall r :: Differs(s.runs, s'.runs, r) ==> r == ids.run || (named.Some? && r in LastRun(s, named.value)))
    && (forall r :: r in s'.runs && s'.runs[r].state == RunRunning ==>
          r == ids.run || (r in s.runs && s.runs[r].state == RunRunning))
    && (forall q, p :: Differs(s.questions, s'.questions, q) && Differs(s.questions, s'.questions, p) ==> q == p)
    && (forall c, d | Differs(s.confirmations, s'.confirmations, c) && Differs(s.confirmations, s'.confirmations, d) ::
            c == d)
    && (s'.active == s.active || (s.active == None && sig.Submit? && s'.active == named) || HandedOver(s, s', named))
  }

  /** A signal that is neither accepted nor answered with a confirmation leaves the state as it was. */
  lemma RefusedDecision(s: State, rows: seq<Artifact>, id: Id, ids: FreshIds, sig: Signal)
    ensures var d := Decide(s, rows, id, ids, sig);
      !d.result.Accepted? && !d.result.ConfirmationRequired? ==> forall e :: e in d.events ==> e.PolicyDecisionRecorded?
    ensures var d := Decide(s, rows, id, ids, sig); d.result.ConfirmationRequired? ==> sig.Authorize?
    ensures Named(s, ids, sig).None? || (Named(s, ids, sig).value !in s.tasks && !sig.Submit?) ==>
              !Decide(s, rows, id, ids, sig).result.Accepted?
                  && !Decide(s, rows, id, ids, sig).result.ConfirmationRequired?
  {
    hide HasOpenQuestion, HasPending, FindConfirmation, FirstFast, MovedQueue, ValidateCompletion, StartNext;
    hide ConflictPaths;
  }

  lemma PolicyStep(s: State, e: Event)
    requires Guard(s, e) && e.PolicyDecisionRecorded?
    ensures Next(s, e) == s.(seqNo := s.seqNo + 1)
  {
  }

  lemma {:induction false} PolicyOnly(s: State, events: seq<Event>)
    requires LegalAll(s, events) && forall e :: e in events ==> e.PolicyDecisionRecorded?
    ensures After(s, events) == s.(seqNo := After(s, events).seqNo)
    decreases |events|
  {
    hide Legal, Guard, Next;
    if events != [] {
      HeadOfChain(s, events);
      PolicyStep(s, events[0]);
      PolicyOnly(Next(s, events[0]), events[1..]);
    }
  }

  lemma QuestionScope(s: State, s': State, id: Id, ids: FreshIds, sig: Signal)
    requires Inv(s) && SameOutside(s.questions, s'.questions, ScopeOf(s, id, ids, sig).questions)
    ensures forall q, p :: Differs(s.questions, s'.questions, q) && Differs(s.questions, s'.questions, p) ==> q == p
  {
    hide Inv, FindConfirmation, LastRun;
    var named := Named(s, ids, sig);
    if named.Some? { OneOpen(s, named.value); }
  }

  lemma OneOpen(s: State, t: Id)
    requires Inv(s)
    ensures forall q, p :: q in OpenQuestions(s.questions, t) && p in OpenQuestions(s.questions, t) ==> q == p
  {
    hide TasksOk, RunsOk, ConfirmationsOk, QueueChecks, SlotChecks;
    forall q, p | q in OpenQuestions(s.questions, t) && p in OpenQuestions(s.questions, t)
      ensures q == p
    {
      assert IsOpen(s, q) && IsOpen(s, p);
    }
  }

  lemma RecordScope(s: State, s': State, id: Id, ids: FreshIds, sig: Signal)
    requires Inv(s) && Within(s, s', ScopeOf(s, id, ids, sig))
    ensures var named := Named(s, ids, sig);
      && (forall t: Id :: Differs(s.tasks, s'.tasks, t) ==>
            named == Some(t) || (MayEnd(sig) && s.active == named && s.queue != [] && t == s.queue[0]))
      && (forall r :: Differs(s.runs, s'.runs, r) ==> r == ids.run || (named.Some? && r in LastRun(s, named.value)))
      && (forall r :: r in s'.runs && s'.runs[r].state == RunRunning ==>
            r == ids.run || (r in s.runs && s.runs[r].state == RunRunning))
      && (forall c, d | Differs(s.confirmations, s'.confirmations, c)
                        && Differs(s.confirmations, s'.confirmations, d) :: c == d)
  {
    hide Inv, LastRun, OpenQuestions, FindConfirmation;
    var named := Named(s, ids, sig);
    if named.Some? { LastRunIsKnown(s, named.value); }
  }

  lemma LastRunIsKnown(s: State, t: Id)
    requires Inv(s)
    ensures LastRun(s, t) <= s.runs.Keys
  {
    if t in s.tasks { TaskFacts(s, t); }
    hide Inv;
  }

  lemma NamedMayLeave(sys: Sys, id: Id, ids: FreshIds, sig: Signal)
    requires Handled(sys, id, ids, sig) && MayEnd(sig) && sys.mem.active == Some(sig.taskId)
    requires Handle(sys, id, ids, sig).result.Accepted?
    ensures HandedOver(sys.mem, Handle(sys, id, ids, sig).sys.mem, Some(sig.taskId))
  {
    hide Handled, Handle, Justified;
    if sig.Cancel? { CancelOutcome(sys, id, ids, sig); } else { FinishOutcome(sys, id, ids, sig); }
  }

  /** Every signal answered in a reachable state is frugal: it changes at most the named task and, when
      that leaves the slot, the head of the queue; it stops at most the last run of the named task and
      starts at most one, which is new; it touches at most one question and one confirmation; and the
      slot only passes from a finished task to the head of the queue, or to a submission when empty. */
  lemma SignalIsFrugal(sys: Sys, id: Id, ids: FreshIds, sig: Signal)
    requires Handled(sys, id, ids, sig)
    ensures Frugal(sys.mem, Handle(sys, id, ids, sig).sys.mem, ids, sig)
  {
    hide Handled, Handle, Inv, Settled, Decide, LegalAll, After, Within, LastRun, ScopeOf, Reachable;
    HandledFacts(sys, id, ids, sig);
    var s, out := sys.mem, Handle(sys, id, ids, sig);
    var s', named := out.sys.mem, Named(s, ids, sig);
    DecisionWithin(s, sys.rows, id, ids, sig);
    RefusedDecision(s, sys.rows, id, ids, sig);
    if !out.result.Accepted? && !out.result.ConfirmationRequired? {
      PolicyOnly(s, Decide(s, sys.rows, id, ids, sig).events);
    } else {
      RecordScope(s, s', id, ids, sig);
      QuestionScopeOf(s, s', id, ids, sig);
      if MayEnd(sig) && s.active == named { NamedMayLeave(sys, id, ids, sig); }
      SlotMoves(sys, id, ids, sig);
    }
  }

  lemma QuestionScopeOf(s: State, s': State, id: Id, ids: FreshIds, sig: Signal)
    requires Inv(s) && Within(s, s', ScopeOf(s, id, ids, sig))
    ensures forall q, p :: Differs(s.questions, s'.questions, q) && Differs(s.questions, s'.questions, p) ==> q == p
  {
    hide Inv, ScopeOf;
    QuestionScope(s, s', id, ids, sig);
  }

  /** Who owns the slot afterwards follows from the records, and a task that stops owning it has
      finished. */
  lemma SlotMoves(sys: Sys, id: Id, ids: FreshIds, sig: Signal)
    requires Handled(sys, id, ids, sig)
    requires var s, s' := sys.mem, Handle(sys, id, ids, sig).sys.mem; var named := Named(s, ids, sig);
      && (forall t: Id :: Differs(s.tasks, s'.tasks, t) ==>
            || (named == Some(t) && (t in s.tasks || sig.Submit?))
            || (MayEnd(sig) && s.active == named && s.queue != [] && t == s.queue[0]))
      && (MayEnd(sig) && s.active == named ==> HandedOver(s, s', named))
    ensures var s, s' := sys.mem, Handle(sys, id, ids, sig).sys.mem; var named := Named(s, ids, sig);
      s'.active == s.active || (s.active == None && sig.Submit? && s'.active == named) || HandedOver(s, s', named)
  {
    hide Handled, Handle, HandedOver;
    var s, s' := sys.mem, Handle(sys, id, ids, sig).sys.mem;
    OwnersBefore(sys, id, ids, sig);
    if s.active.Some? {
      var a := s.active.value;
      StepKeepsTask(sys, id, ids, sig, a);
      if s'.active != s.active && !(MayEnd(sig) && s.active == Named(s, ids, sig)) {
        StaysInSlot(sys, id, ids, sig, a);
      }
    } else if s'.active.Some? {
      var b := s'.active.value;
      if b in s.tasks { StepKeepsTask(sys, id, ids, sig, b); }
    }
  }

  /** Before and after the signal, the slot belongs to exactly the task whose state owns it, and while
      nobody owns it nobody waits. */
  lemma OwnersBefore(sys: Sys, id: Id, ids: FreshIds, sig: Signal)
    requires Handled(sys, id, ids, sig)
    ensures Owner(sys.mem) && Owner(Handle(sys, id, ids, sig).sys.mem)
  {
    hide Handled, Handle, Inv, Settled, Reachable, Owner;
    HandledFacts(sys, id, ids, sig);
    HandledReaches(sys, id, ids, sig);
    OwnerIsKnown(sys);
    OwnerIsKnown(Handle(sys, id, ids, sig).sys);
  }

  ghost predicate Owner(s: State) {
    && (s.active.Some? ==> s.active.value in s.tasks)
    && (forall t :: t in s.tasks ==> (OwnsSlot(s.tasks[t].state) <==> s.active == Some(t)))
    && (s.active == None ==> forall t :: t in s.tasks ==> s.tasks[t].state != Queued)
  }

  lemma OwnerIsKnown(sys: Sys)
    requires Reachable(sys)
    ensures Owner(sys.mem)
  {
    hide Inv, Settled, Reachable, Justified;
    ReachableIsOk(sys);
    SlotDiscipline(sys);
    ActiveExists(sys.mem);
  }

  lemma ActiveExists(s: State)
    requires Inv(s)
    ensures s.active.Some? ==> s.active.value in s.tasks
  {
    QueueFacts(s, 0);
    hide Inv;
  }

  lemma StepKeepsTask(sys: Sys, id: Id, ids: FreshIds, sig: Signal, t: Id)
    requires Handled(sys, id, ids, sig) && t in sys.mem.tasks
    ensures var s' := Handle(sys, id, ids, sig).sys.mem;
      t in s'.tasks && (Terminal(sys.mem.tasks[t].state) ==> s'.tasks[t].state == sys.mem.tasks[t].state)
  {
    hide Handle, Handled, Reachable, Perform;
    HandledReaches(sys, id, ids, sig);
    StepEvolves(sys, Signalled(id, ids, sig), t);
  }

  /** Without a signal that may end it, the owner of the slot keeps it. */
  lemma StaysInSlot(sys: Sys, id: Id, ids: FreshIds, sig: Signal, t: Id)
    requires Handled(sys, id, ids, sig) && !MayEnd(sig)
    requires t in sys.mem.tasks && t in Handle(sys, id, ids, sig).sys.mem.tasks && OwnsSlot(sys.mem.tasks[t].state)
    ensures OwnsSlot(Handle(sys, id, ids, sig).sys.mem.tasks[t].state)
  {
    hide Handle, Handled, Inv, Settled, Decide, LegalAll, After;
    HandledFacts(sys, id, ids, sig);
    var s, events := sys.mem, Decide(sys.mem, sys.rows, id, ids, sig).events;
    FinishersAre(s, sys.rows, id, ids, sig);
    QueuersAre(s, sys.rows, id, ids, sig);
    if After(s, events).tasks[t].state != s.tasks[t].state {
      var e := Setter(s, events, t);
      if sig.Submit? { NotSubmitted(sys, id, ids, sig, e); }
    }
  }

  /** A submission writes no state of a task that was there. */
  lemma NotSubmitted(sys: Sys, id: Id, ids: FreshIds, sig: Signal, e: Event)
    requires Handled(sys, id, ids, sig) && sig.Submit?
    requires e in Decide(sys.mem, sys.rows, id, ids, sig).events
    ensures e.taskId == ids.task && ids.task !in sys.mem.tasks
  {
    hide Handle, Reachable, FirstFast;
  }

  // --------------------------------------------- into work, out of work, out of the slot

  /** Whatever signal takes a paused or waiting task back to work, it runs again in a new run at its
      revision with its conflict cleared, the slot and the queue stay, and nobody else is touched. */
  lemma BackToWork(sys: Sys, id: Id, ids: FreshIds, sig: Signal, t: Id)
    requires Handled(sys, id, ids, sig) && t in sys.mem.tasks && t in Handle(sys, id, ids, sig).sys.mem.tasks
    requires sys.mem.tasks[t].state in {Paused, Awaiting}
    requires Handle(sys, id, ids, sig).sys.mem.tasks[t].state == Running
    ensures PutsBackToWork(sig) && Named(sys.mem, ids, sig) == Some(t)
    ensures RunsAgain(sys.mem, Handle(sys, id, ids, sig).sys.mem, t, ids.run)
  {
    hide Handle, Handled, Inv, Settled, Decide, LegalAll, After, RunsAgain, LastRun, HandedOver;
    HandledFacts(sys, id, ids, sig);
    var s, s' := sys.mem, Handle(sys, id, ids, sig).sys.mem;
    SignalIsFrugal(sys, id, ids, sig);
    var e := Setter(s, Decide(s, sys.rows, id, ids, sig).events, t);
    ResumersAre(s, sys.rows, id, ids, sig);
    StartersAre(s, sys.rows, id, ids, sig);
    HeadIsQueued(s);
    assert e.TaskStarted? || e.TaskResumed?;
    if sig.Submit? { NotSubmitted(sys, id, ids, sig, e); }
    assert Differs(s.tasks, s'.tasks, t);
    RefusedChangesNothing(sys, id, ids, sig);
    if sig.Resume? {
      ResumeOutcome(sys, id, ids, sig);
    } else if sig.AnswerQuestion? {
      AnswerOutcome(sys, id, ids, sig);
    } else {
      ApprovalOutcome(sys, id, ids, sig);
    }
  }

  lemma HeadIsQueued(s: State)
    requires Inv(s)
    ensures s.queue != [] ==> s.queue[0] in s.tasks && s.tasks[s.queue[0]].state == Queued
  {
    QueueFacts(s, 0);
    hide Inv;
  }

  lemma RefusedChangesNothing(sys: Sys, id: Id, ids: FreshIds, sig: Signal)
    requires Handled(sys, id, ids, sig)
    ensures var s, out := sys.mem, Handle(sys, id, ids, sig);
      && out.Returned?
      && (!out.result.Accepted? && !out.result.ConfirmationRequired? ==> out.sys.mem == s.(seqNo := out.sys.mem.seqNo))
      && (out.result.ConfirmationRequired? ==> sig.Authorize?)
  {
    hide Handle, Handled, Inv, Settled, Decide, LegalAll, After;
    HandledFacts(sys, id, ids, sig);
    RefusedDecision(sys.mem, sys.rows, id, ids, sig);
    var d := Decide(sys.mem, sys.rows, id, ids, sig);
    if !d.result.Accepted? && !d.result.ConfirmationRequired? { PolicyOnly(sys.mem, d.events); }
  }

  /** Exactly one of answer, verdict and resume is accepted, and it is resume when the task is paused. */
  ghost predicate ExactlyOneWayOn(sys: Sys, ids: FreshIds, t: Id)
    requires t in sys.mem.tasks
  {
    && (AnswerAccepted(sys, ids, t) || ApprovalAccepted(sys, ids, t) || ResumeAccepted(sys, ids, t))
    && !(AnswerAccepted(sys, ids, t) && ApprovalAccepted(sys, ids, t))
    && !(AnswerAccepted(sys, ids, t) && ResumeAccepted(sys, ids, t))
    && !(ApprovalAccepted(sys, ids, t) && ResumeAccepted(sys, ids, t))
    && (sys.mem.tasks[t].state == Paused ==> ResumeAccepted(sys, ids, t))
  }

  /** Whatever signal takes a task out of work without ending it, the task keeps the slot, its run is
      set aside, nobody else's record or run is touched, and there is exactly one way on: resuming when it
      is paused, otherwise exactly one of answering, a verdict and resuming. */
  lemma SetAside(sys: Sys, id: Id, ids: FreshIds, sig: Signal, t: Id, laterIds: FreshIds)
    requires Handled(sys, id, ids, sig) && t in sys.mem.tasks && t in Handle(sys, id, ids, sig).sys.mem.tasks
    requires Executing(sys.mem.tasks[t].state)
    requires Handle(sys, id, ids, sig).sys.mem.tasks[t].state in {Paused, Awaiting}
    ensures SetsAside(sig) && Named(sys.mem, ids, sig) == Some(t)
    ensures var s, s' := sys.mem, Handle(sys, id, ids, sig).sys.mem;
      && s.active == Some(t) && s'.active == Some(t) && s'.tasks[t].activeRunId.None?
      && (forall u: Id :: u != t ==> !Differs(s.tasks, s'.tasks, u))
      && (forall r :: r in s'.runs ==> s'.runs[r].state != RunRunning)
    ensures ExactlyOneWayOn(Handle(sys, id, ids, sig).sys, laterIds, t)
  {
    hide Handle, Handled, Inv, Settled, Reachable, SetsAside, Named;
    hide ResumeAccepted, AnswerAccepted, ApprovalAccepted;
    HandledReaches(sys, id, ids, sig);
    SetAsideBy(sys, id, ids, sig, t);
    SetAsideTouches(sys, id, ids, sig, t);
    WayOn(Handle(sys, id, ids, sig).sys, laterIds, t);
  }

  lemma SetAsideBy(sys: Sys, id: Id, ids: FreshIds, sig: Signal, t: Id)
    requires Handled(sys, id, ids, sig) && t in sys.mem.tasks && t in Handle(sys, id, ids, sig).sys.mem.tasks
    requires Executing(sys.mem.tasks[t].state)
    requires Handle(sys, id, ids, sig).sys.mem.tasks[t].state in {Paused, Awaiting}
    ensures SetsAside(sig) && sys.mem.active == Some(t)
  {
    hide Handle, Handled, Inv, Settled, Decide, LegalAll, After, LastRun, HandedOver, Reachable, Justified, SetsAside;
    HandledFacts(sys, id, ids, sig);
    OwnersBefore(sys, id, ids, sig);
    var s := sys.mem;
    var e := Setter(s, Decide(s, sys.rows, id, ids, sig).events, t);
    ParkersAre(s, sys.rows, id, ids, sig);
    assert Parks(e);
  }

  lemma SetAsideTouches(sys: Sys, id: Id, ids: FreshIds, sig: Signal, t: Id)
    requires Handled(sys, id, ids, sig) && t in sys.mem.tasks && t in Handle(sys, id, ids, sig).sys.mem.tasks
    requires SetsAside(sig) && sys.mem.active == Some(t) && Executing(sys.mem.tasks[t].state)
    requires Handle(sys, id, ids, sig).sys.mem.tasks[t].state in {Paused, Awaiting}
    ensures Named(sys.mem, ids, sig) == Some(t)
    ensures var s, s' := sys.mem, Handle(sys, id, ids, sig).sys.mem;
      && s'.active == Some(t) && s'.tasks[t].activeRunId.None?
      && (forall u: Id :: u != t ==> !Differs(s.tasks, s'.tasks, u))
      && (forall r :: r in s'.runs ==> s'.runs[r].state != RunRunning)
  {
    hide Handle, Handled, Inv, Settled, LastRun, HandedOver, Reachable, Named;
    var s, out := sys.mem, Handle(sys, id, ids, sig).sys;
    HandledReaches(sys, id, ids, sig);
    OwnersBefore(sys, id, ids, sig);
    SignalIsFrugal(sys, id, ids, sig);
    NotHandedOver(s, out.mem, Named(s, ids, sig), t);
    assert Differs(s.tasks, out.mem.tasks, t);
    NoRunWhileWaiting(out, t);
  }

  lemma PausedOnlyResumes(sys: Sys, ids: FreshIds, t: Id)
    requires t in sys.mem.tasks && sys.mem.tasks[t].state == Paused
    ensures !AnswerAccepted(sys, ids, t) && !ApprovalAccepted(sys, ids, t)
  {
    hide HasOpenQuestion;
  }

  lemma WayOn(out: Sys, laterIds: FreshIds, t: Id)
    requires Reachable(out) && t in out.mem.tasks && out.mem.tasks[t].state in {Paused, Awaiting}
    ensures ExactlyOneWayOn(out, laterIds, t)
  {
    hide Reachable, ResumeAccepted, AnswerAccepted, ApprovalAccepted;
    if out.mem.tasks[t].state == Paused {
      PausedTaskResumes(out, laterIds, t);
      PausedOnlyResumes(out, laterIds, t);
    } else {
      WaitingTaskHasExactlyOneWayOn(out, laterIds, t);
    }
  }

  lemma NotHandedOver(s: State, s': State, named: Option<Id>, t: Id)
    requires s.active == Some(t) && t in s'.tasks && OwnsSlot(s'.tasks[t].state)
    ensures !HandedOver(s, s', named)
  {
  }

  lemma NoRunWhileWaiting(sys: Sys, t: Id)
    requires Reachable(sys) && t in sys.mem.tasks && sys.mem.tasks[t].state in {Paused, Awaiting}
    ensures sys.mem.tasks[t].activeRunId.None?
    ensures forall r :: r in sys.mem.runs ==> sys.mem.runs[r].state != RunRunning
  {
    hide Reachable, Settled, Justified, Inv, HistoryOk, RunListOk;
    SlotDiscipline(sys);
    ReachableIsOk(sys);
    TaskFacts(sys.mem, t);
  }

  /** Whatever signal ends the task in the slot, the head of the queue starts at its revision in a new
      run, the rest of the queue stays in order, and nobody else's record is touched. */
  lemma EndOfTask(sys: Sys, id: Id, ids: FreshIds, sig: Signal, t: Id)
    requires Handled(sys, id, ids, sig) && sys.mem.active == Some(t)
    requires t in sys.mem.tasks && t in Handle(sys, id, ids, sig).sys.mem.tasks
    requires Terminal(Handle(sys, id, ids, sig).sys.mem.tasks[t].state)
    ensures MayEnd(sig) && sig.taskId == t
    ensures HandsOver(sys.mem, Handle(sys, id, ids, sig).sys.mem, t, ids.run)
  {
    hide Handle, Handled, Inv, Settled, Decide, LegalAll, After, LastRun, HandedOver, HandsOver, Reachable, Justified;
    HandledFacts(sys, id, ids, sig);
    HandledReaches(sys, id, ids, sig);
    SlotDiscipline(sys);
    var s := sys.mem;
    var e := Setter(s, Decide(s, sys.rows, id, ids, sig).events, t);
    FinishersAre(s, sys.rows, id, ids, sig);
    assert Finishes(e);
    FinishedIsNamed(s, sys.rows, id, ids, sig, e);
    RefusedChangesNothing(sys, id, ids, sig);
    if sig.Cancel? { CancelOutcome(sys, id, ids, sig); } else { FinishOutcome(sys, id, ids, sig); }
  }

  lemma FinishedIsNamed(s: State, rows: seq<Artifact>, id: Id, ids: FreshIds, sig: Signal, e: Event)
    requires MayEnd(sig) && e in Decide(s, rows, id, ids, sig).events && Finishes(e)
    ensures e.taskId == sig.taskId
  {
    hide ValidateCompletion;
  }
}

/** The order of the queue: the fast class waits behind the others, each class is first come
    first served, and moving a task moves nothing else. */
module QueueOrder {
  import opened Protocol
  import opened Domain
  import opened Evidence
  import opened Decisions
  import opened Invariants
  import opened Progress
  import opened Controller

  /** a may stand before b in the queue. */
  ghost predicate Precedes(s: State, a: Id, b: Id) {
    && a in s.tasks && b in s.tasks
    && (IsFast(s, a) ==> IsFast(s, b))
    && (IsFast(s, a) == IsFast(s, b) ==> s.tasks[a].createdSeq < s.tasks[b].createdSeq)
  }

  ghost predicate Ordered(s: State) {
    && (forall t :: t in s.tasks ==> s.tasks[t].createdSeq <= s.seqNo)
    && forall i, j :: 0 <= i < j < |s.queue| ==> Precedes(s, s.queue[i], s.queue[j])
  }

  /** The position keeps the order when the task is the youngest. */
  ghost predicate Proper(s: State, t: Id, position: nat) {
    && position <= |s.queue|
    && (forall i :: 0 <= i < position ==> Precedes(s, s.queue[i], t))
    && (forall i :: position <= i < |s.queue| ==> Precedes(s, t, s.queue[i]))
  }

  /** Where the elements of the shortened queue come from. */
  lemma WithoutAt(queue: seq<Id>, x: Id, i: nat)
    requires i < |Without(queue, x)|
    ensures x !in queue ==> Without(queue, x) == queue
    ensures x in queue ==> i + 1 < |queue|
    ensures x in queue ==> Without(queue, x)[i] == queue[if i < IndexOf(queue, x) then i else i + 1]
  {
    hide IndexOf;
    var k, r := IndexOf(queue, x), Without(queue, x);
    if x in queue {
      assert r == queue[..k] + queue[k + 1..];
      hide Without;
      if i < k { assert r[i] == queue[..k][i]; } else { assert r[i] == queue[k + 1..][i - k]; }
    }
  }

  lemma WithoutKeepsOrder(s: State, x: Id)
    requires Ordered(s)
    ensures forall i, j :: 0 <= i < j < |Without(s.queue, x)| ==>
              Precedes(s, Without(s.queue, x)[i], Without(s.queue, x)[j])
  {
    hide Precedes, Without, IndexOf;
    var r := Without(s.queue, x);
    forall i, j | 0 <= i < j < |r| ensures Precedes(s, r[i], r[j]) {
      WithoutAt(s.queue, x, i);
      WithoutAt(s.queue, x, j);
    }
  }

  lemma InsertKeepsOrder(s: State, t: Id, position: nat)
    requires Ordered(s) && Proper(s, t, position)
    ensures var r := InsertAt(s.queue, position, t);
            forall i, j :: 0 <= i < j < |r| ==> Precedes(s, r[i], r[j])
  {
    hide Precedes;
  }

  ghost predicate SameClass(s: State, s': State, t: Id) {
    t in s.tasks && t in s'.tasks && s'.tasks[t].spec == s.tasks[t].spec
        && s'.tasks[t].createdSeq == s.tasks[t].createdSeq
  }

  /** Ordering is about the queue and the class and age of the queued tasks. */
  lemma SameClasses(s: State, s': State)
    requires QueueChecks(s)
    requires forall t :: t in s.queue ==> SameClass(s, s', t)
    ensures forall a, b :: a in s.queue && b in s.queue ==> Precedes(s', a, b) == Precedes(s, a, b)
  {
  }

  /** Queued tasks keep class and age; records only get younger events. */
  lemma EventKeepsClasses(s: State, e: Event)
    requires Inv(s) && Legal(s, e) && Guard(s, e)
    requires forall t :: t in s.tasks ==> s.tasks[t].createdSeq <= s.seqNo
    ensures forall t :: t in s.queue ==> SameClass(s, Next(s, e), t)
    ensures forall t :: t in Next(s, e).tasks ==> Next(s, e).tasks[t].createdSeq <= Next(s, e).seqNo
  {
    hide Inv, Legal, Guard, Next;
    QueueFacts(s, e.taskId);
    ShapeOfTasks(s, e);
    ClassOfTouched(s, e);
  }

  lemma RecordKeepsClass(task: Task, e: Event)
    requires e.SpecRevised? ==> task.state != Queued
    ensures RecordAfter(task, e).createdSeq == task.createdSeq
    ensures task.state == Queued ==> RecordAfter(task, e).spec == task.spec
  {
  }

  lemma RevisedIsNotQueued(s: State, e: Event)
    requires Legal(s, e) && e.SpecRevised?
    ensures e.taskId in s.tasks && s.tasks[e.taskId].state != Queued
  {
  }

  lemma CreatedStamp(s: State, e: Event)
    requires Guard(s, e) && e.taskId !in s.tasks && e.taskId in Next(s, e).tasks
    ensures Next(s, e).tasks[e.taskId].createdSeq == s.seqNo + 1
  {
    hide InsertAt, Without, Supersede, RevisedTask, WithBoundary, WithEvidence, Park, Finish, Ask;
  }

  lemma CountsEvents(s: State, e: Event)
    requires Guard(s, e)
    ensures Next(s, e).seqNo == s.seqNo + 1
  {
    hide InsertAt, Without, Supersede, RevisedTask, WithBoundary, WithEvidence, NewTask;
  }

  lemma ClassOfTouched(s: State, e: Event)
    requires Legal(s, e) && Guard(s, e)
    ensures Next(s, e).seqNo == s.seqNo + 1
    ensures e.taskId in s.tasks ==>
              && e.taskId in Next(s, e).tasks
              && Next(s, e).tasks[e.taskId].createdSeq == s.tasks[e.taskId].createdSeq
              && (s.tasks[e.taskId].state == Queued ==> Next(s, e).tasks[e.taskId].spec == s.tasks[e.taskId].spec)
    ensures e.taskId !in s.tasks && e.taskId in Next(s, e).tasks ==>
              Next(s, e).tasks[e.taskId].createdSeq == s.seqNo + 1
  {
    hide Legal, Guard, Next, RecordAfter;
    CountsEvents(s, e);
    if e.taskId in s.tasks {
      ShapeOfRecord(s, e);
      if e.SpecRevised? { RevisedIsNotQueued(s, e); }
      RecordKeepsClass(s.tasks[e.taskId], e);
    } else if e.taskId in Next(s, e).tasks {
      CreatedStamp(s, e);
    }
  }

  lemma EnqueueKeepsOrder(s: State, e: Event)
    requires e.TaskEnqueued? && Legal(s, e) && Guard(s, e) && Ordered(s) && Proper(s, e.taskId, e.position)
    requires forall t :: t in Next(s, e).tasks ==> Next(s, e).tasks[t].createdSeq <= Next(s, e).seqNo
    ensures Ordered(Next(s, e))
  {
    hide Guard, Next, Precedes, InsertAt;
    EnqueueKeepsClasses(s, e);
    ShapeOfQueue(s, e);
    InsertKeepsOrder(s, e.taskId, e.position);
    SameState(s, Next(s, e));
  }

  lemma RemovalKeepsOrder(s: State, s': State, t: Id)
    requires Ordered(s) && QueueChecks(s) && (s'.queue == s.queue || s'.queue == Without(s.queue, t))
    requires forall u :: u in s.queue ==> SameClass(s, s', u)
    requires forall u :: u in s'.tasks ==> s'.tasks[u].createdSeq <= s'.seqNo
    ensures Ordered(s')
  {
    WithoutKeepsOrder(s, t);
    WithoutDistinct(s.queue, t);
    SameClasses(s, s');
    hide Precedes, Without;
  }

  lemma EventKeepsOrder(s: State, e: Event)
    requires Inv(s) && Legal(s, e) && Guard(s, e) && Ordered(s) && !e.QueueReordered?
    requires e.TaskEnqueued? ==> Proper(s, e.taskId, e.position)
    ensures Ordered(Next(s, e))
  {
    hide Inv, Legal, Guard, Next, Precedes, SameClass, Proper;
    QueueFacts(s, e.taskId);
    EventKeepsClasses(s, e);
    if e.TaskEnqueued? {
      EnqueueKeepsOrder(s, e);
    } else {
      ShapeOfQueue(s, e);
      RemovalKeepsOrder(s, Next(s, e), e.taskId);
    }
  }

  lemma EnqueueKeepsClasses(s: State, e: Event)
    requires e.TaskEnqueued? && Guard(s, e) && Legal(s, e)
    ensures Next(s, e).tasks == s.tasks
  {
    assert s.tasks[e.taskId := s.tasks[e.taskId]] == s.tasks;
  }

  lemma SameState(s: State, s': State)
    requires s'.tasks == s.tasks
    ensures forall a, b :: Precedes(s', a, b) == Precedes(s, a, b)
  {
  }

  lemma {:induction false} EventsKeepOrder(s: State, events: seq<Event>)
    requires Inv(s) && Ordered(s) && LegalAll(s, events)
    requires forall e :: e in events ==> !e.QueueReordered? && !e.TaskEnqueued?
    ensures Ordered(After(s, events))
    decreases |events|
  {
    hide Inv, Legal, Guard, Next, Ordered, Proper;
    if events != [] {
      LegalApplies(s, events[0]);
      EventKeepsOrder(s, events[0]);
      EventsKeepOrder(Next(s, events[0]), events[1..]);
    }
  }

  /** A submitted task is placed behind everything it may not overtake. */
  lemma SubmitKeepsOrder(s: State, ids: FreshIds, spec: TaskSpec)
    requires Inv(s) && Ordered(s) && Fresh(s, ids) && LegalAll(s, DecideSubmit(s, ids, spec).events)
    ensures Ordered(After(s, DecideSubmit(s, ids, spec).events))
  {
    hide Inv, Legal, Ordered, Precedes, FirstFast;
    var events := DecideSubmit(s, ids, spec).events;
    var created, enqueued := events[0], events[1];
    assert created == TaskCreated(ids.task, spec, 1);
    LegalApplies(s, created);
    EventKeepsOrder(s, created);
    var s1 := Next(s, created);
    CreatedFacts(s, created);
    assert Proper(s1, ids.task, enqueued.position) by {
      YoungestIsProper(s, s1, ids.task, enqueued.position, spec);
    }
    hide Next, Guard, Proper;
    assert events[1..][0] == enqueued;
    LegalApplies(s1, enqueued);
    EventKeepsOrder(s1, enqueued);
    var s2 := Next(s1, enqueued);
    var rest := events[1..][1..];
    assert rest == [] || rest == [TaskStarted(ids.task, ids.run, 1)];
    EventsKeepOrder(s2, rest);
  }

  lemma CreatedFacts(s: State, e: Event)
    requires e.TaskCreated? && Guard(s, e)
    ensures Next(s, e).queue == s.queue && Next(s, e).seqNo == s.seqNo + 1
    ensures Next(s, e).tasks == s.tasks[e.taskId := NewTask(e.spec, e.revision, s.seqNo + 1)]
  {
  }

  lemma YoungestIsProper(s: State, s1: State, t: Id, position: nat, spec: TaskSpec)
    requires Inv(s) && Ordered(s) && t !in s.tasks
    requires s1.queue == s.queue && s1.tasks == s.tasks[t := NewTask(spec, 1, s.seqNo + 1)]
    requires position == if spec.codingProfileId == FAST_PROFILE then |s.queue| else FirstFast(s, s.queue)
    ensures Proper(s1, t, position)
  {
    QueueFacts(s, t);
    hide Inv;
    forall i | 0 <= i < |s.queue|
      ensures s.queue[i] in s.tasks && s.queue[i] != t && s.tasks[s.queue[i]].createdSeq <= s.seqNo {
      assert s.queue[i] in s.queue;
    }
    hide QueueChecks, SlotChecks, FirstFast, Ordered;
    FastFromFirst(s, position, spec);
    NewcomerFits(s, s1, t, position, spec);
  }

  /** Whoever was there is older; a newcomer that is not fast waits behind those that are not either. */
  lemma NewcomerFits(s: State, s1: State, t: Id, position: nat, spec: TaskSpec)
    requires s1.queue == s.queue && s1.tasks == s.tasks[t := NewTask(spec, 1, s.seqNo + 1)]
    requires forall i :: 0 <= i < |s.queue| ==>
               s.queue[i] in s.tasks && s.queue[i] != t && s.tasks[s.queue[i]].createdSeq <= s.seqNo
    requires position <= |s.queue| && (spec.codingProfileId == FAST_PROFILE ==> position == |s.queue|)
    requires forall i :: position <= i < |s.queue| ==> IsFast(s, s.queue[i])
    requires spec.codingProfileId != FAST_PROFILE ==> forall i :: 0 <= i < position ==> !IsFast(s, s.queue[i])
    ensures Proper(s1, t, position)
  {
  }

  lemma FastFromFirst(s: State, position: nat, spec: TaskSpec)
    requires Ordered(s) && forall i :: 0 <= i < |s.queue| ==> s.queue[i] in s.tasks
    requires position == if spec.codingProfileId == FAST_PROFILE then |s.queue| else FirstFast(s, s.queue)
    ensures forall i :: position <= i < |s.queue| ==> IsFast(s, s.queue[i])
    ensures spec.codingProfileId != FAST_PROFILE ==> forall i :: 0 <= i < position ==> !IsFast(s, s.queue[i])
  {
    forall i | position <= i < |s.queue| ensures IsFast(s, s.queue[i]) {
      if i != position { assert Precedes(s, s.queue[position], s.queue[i]); }
    }
  }

  lemma DecidedQueueEvents(s: State, rows: seq<Artifact>, id: Id, ids: FreshIds, sig: Signal)
    requires !RefusedUnrecorded(s, sig) && !sig.Submit? && !sig.MoveQueue?
    ensures forall e :: e in Decide(s, rows, id, ids, sig).events ==> !e.QueueReordered? && !e.TaskEnqueued?
  {
    hide Decide;
    DecidedKinds(s, rows, id, ids, sig);
  }

  lemma DecisionKeepsOrder(s: State, rows: seq<Artifact>, id: Id, ids: FreshIds, sig: Signal)
    requires Asked(s, id, ids, sig) && !CancelsOpenQuestion(s, sig) && !sig.MoveQueue? && Ordered(s)
    requires LegalAll(s, Decide(s, rows, id, ids, sig).events)
    ensures Ordered(After(s, Decide(s, rows, id, ids, sig).events))
  {
    hide Inv, Settled, Ordered, DecideSubmit, HasOpenQuestion, HasPending, FindConfirmation;
    if sig.Submit? {
      assert Decide(s, rows, id, ids, sig) == DecideSubmit(s, ids, sig.spec);
      SubmitKeepsOrder(s, ids, sig.spec);
    } else {
      DecidedQueueEvents(s, rows, id, ids, sig);
      EventsKeepOrder(s, Decide(s, rows, id, ids, sig).events);
    }
  }

  ghost predicate NoMoves(steps: seq<Step>) {
    forall step :: step in steps ==> !(step.Signalled? && step.sig.MoveQueue?)
  }

  /** In every run without queue.move, non-fast queued tasks stand before fast ones, and each
      class stands in the order of submission. */
  lemma {:induction false} RunsStayOrdered(steps: seq<Step>)
    requires Execute(steps).Some? && NoMoves(steps)
    ensures Ordered(Execute(steps).value.mem)
  {
    hide Ordered, Perform;
    if steps == [] {
      EmptyIsOrdered();
    } else {
      var n := |steps| - 1;
      RunsStayOrdered(steps[..n]);
      RunsAreOk(steps[..n]);
      StepKeepsOrder(Execute(steps[..n]).value, steps[n]);
    }
  }

  lemma EmptyIsOrdered()
    ensures Ordered(EMPTY)
  {
  }

  lemma StepKeepsOrder(sys: Sys, step: Step)
    requires SysOk(sys) && Ordered(sys.mem) && Perform(sys, step).Some? && !(step.Signalled? && step.sig.MoveQueue?)
    ensures Ordered(Perform(sys, step).value.mem)
  {
    hide Inv, Settled, Justified, Ordered, Decide, Fresh, RefusedUnrecorded, ApplyAll;
    match step
    case Signalled(id, ids, sig) =>
      if RefusedUnrecorded(sys.mem, sig) {
        RefusalKeeps(sys, id, ids, sig);
      } else if id in sys.store.commands {
        RepeatedCommand(sys, id, ids, sig);
      } else {
        DecisionApplies(sys.mem, sys.rows, id, ids, sig);
        DecisionKeepsOrder(sys.mem, sys.rows, id, ids, sig);
      }
    case Recorded(_) =>
    case Restarted => ReplayRestoresMemory(sys);
  }

  /** No fast task is started from the queue while a non-fast one waits, and within its class
      the started task is the oldest. */
  lemma StartedFromTheFront(s: State, rows: seq<Artifact>, id: Id, ids: FreshIds, sig: Signal, e: Event, u: Id)
    requires Asked(s, id, ids, sig) && Ordered(s)
    requires e in Decide(s, rows, id, ids, sig).events && e.TaskStarted? && e.taskId in s.queue
    requires u in s.queue && u != e.taskId
    ensures IsFast(s, e.taskId) ==> IsFast(s, u)
    ensures IsFast(s, e.taskId) == IsFast(s, u) ==> s.tasks[e.taskId].createdSeq < s.tasks[u].createdSeq
  {
    QueueFacts(s, u);
    StartsHead(s, rows, id, ids, sig, e);
    hide Inv, Settled, Decide;
    var i :| 0 <= i < |s.queue| && s.queue[i] == u;
    assert Precedes(s, s.queue[0], s.queue[i]);
  }

  lemma StartsHead(s: State, rows: seq<Artifact>, id: Id, ids: FreshIds, sig: Signal, e: Event)
    requires QueueChecks(s) && Fresh(s, ids) && !RefusedUnrecorded(s, sig)
    requires e in Decide(s, rows, id, ids, sig).events && e.TaskStarted? && e.taskId in s.queue
    ensures s.queue != [] && e.taskId == s.queue[0]
  {
    hide HasOpenQuestion, HasPending, FindConfirmation, FirstFast, MovedQueue, ValidateCompletion;
  }

  // ------------------------------------------------------------------ queue.move

  /** a stands directly before b. */
  ghost predicate Adjacent(queue: seq<Id>, a: Id, b: Id) {
    exists i :: 0 <= i < |queue| - 1 && queue[i] == a && queue[i + 1] == b
  }

  /** Moving permutes the queue, keeps the relative order of all other tasks, and puts the task
      first, last, or directly before or after its anchor. It is refused exactly when the anchor
      is present for the first two operations, or is not another queued task for the others. */
  lemma MoveMeaning(queue: seq<Id>, t: Id, operation: QueueOperation, anchor: Option<Id>)
    requires NoDuplicates(queue) && t in queue
    ensures var moved := MovedQueue(queue, t, operation, anchor);
            && (moved.Some? <==>
                  if operation in {MoveFirst, MoveLast} then anchor.None?
                  else anchor.Some? && anchor.value != t && anchor.value in queue)
            && (moved.Some? ==>
                  && multiset(moved.value) == multiset(queue)
                  && NoDuplicates(moved.value)
                  && Without(moved.value, t) == Without(queue, t)
                  && match operation
                     case MoveFirst => moved.value[0] == t
                     case MoveLast => moved.value[|queue| - 1] == t
                     case MoveBefore => Adjacent(moved.value, t, anchor.value)
                     case MoveAfter => Adjacent(moved.value, anchor.value, t))
  {
    hide Without, IndexOf, InsertAt, MovedQueue;
    MoveAcceptance(queue, t, operation, anchor);
    var moved := MovedQueue(queue, t, operation, anchor);
    if moved.Some? {
      MovedIsPermutation(queue, t, operation, anchor);
      DistinctFromMultiset(moved.value, queue);
      MovePlaces(queue, t, operation, anchor);
    }
  }

  lemma MoveAcceptance(queue: seq<Id>, t: Id, operation: QueueOperation, anchor: Option<Id>)
    requires NoDuplicates(queue) && t in queue
    ensures MovedQueue(queue, t, operation, anchor).Some? <==>
              if operation in {MoveFirst, MoveLast} then anchor.None?
              else anchor.Some? && anchor.value != t && anchor.value in queue
  {
    hide Without, IndexOf, InsertAt;
    WithoutDistinct(queue, t);
  }

  lemma MovePlaces(queue: seq<Id>, t: Id, operation: QueueOperation, anchor: Option<Id>)
    requires NoDuplicates(queue) && t in queue && MovedQueue(queue, t, operation, anchor).Some?
    ensures var moved := MovedQueue(queue, t, operation, anchor).value;
            && |moved| == |queue| && Without(moved, t) == Without(queue, t)
            && match operation
               case MoveFirst => moved[0] == t
               case MoveLast => moved[|queue| - 1] == t
               case MoveBefore => Adjacent(moved, t, anchor.value)
               case MoveAfter => Adjacent(moved, anchor.value, t)
  {
    hide Without, IndexOf;
    var rest := Without(queue, t);
    WithoutDistinct(queue, t);
    var moved := MovedQueue(queue, t, operation, anchor).value;
    var i := if anchor.Some? then IndexOf(rest, anchor.value) else 0;
    var p := match operation case MoveFirst => 0 case MoveLast => |rest| case MoveBefore => i case MoveAfter => i + 1;
    assert moved == rest[..p] + [t] + rest[p..];
    InsertThenRemove(rest, p, t);
    if operation == MoveBefore { assert moved[i] == t && moved[i + 1] == rest[i]; }
    if operation == MoveAfter { assert moved[i] == rest[i] && moved[i + 1] == t; }
  }

  lemma InsertedIndex(rest: seq<Id>, p: nat, t: Id)
    requires p <= |rest| && t !in rest
    ensures IndexOf(rest[..p] + [t] + rest[p..], t) == p
  {
    hide IndexOf;
    var q := rest[..p] + [t] + rest[p..];
    var i := IndexOf(q, t);
    assert q[p] == t;
    assert forall k :: 0 <= k < p ==> q[k] == rest[k];
    assert forall k :: 0 <= k < i ==> q[..i][k] == q[k];
  }

  lemma InsertThenRemove(rest: seq<Id>, p: nat, t: Id)
    requires p <= |rest| && t !in rest
    ensures Without(rest[..p] + [t] + rest[p..], t) == rest
  {
    hide IndexOf;
    InsertedIndex(rest, p, t);
    var q := rest[..p] + [t] + rest[p..];
    assert q[..p] == rest[..p] && q[p + 1..] == rest[p..];
  }
}

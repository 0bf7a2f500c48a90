/** Concurrent spoken task changes: the pause, revise, resume protocol of `propose_task_change`
    (packages/core/src/voice-toolkit.ts:1049-1120), interleaved with everything else that drives
    the controller. */
module VoiceRevision {
  import opened Protocol
  import opened Domain
  import opened Evidence
  import opened Decisions
  import opened Invariants
  import opened Progress
  import opened Controller

  /** The arguments of one `propose_task_change`. */
  datatype Proposal = Proposal(taskId: Id, change: string, desiredOutcome: Option<string>,
                               addedConstraints: seq<string>)

  function ChangeConstraint(p: Proposal): string {
    "Requested change: " + p.change
  }

  /** The spec a proposal asks for, given the spec it has read. */
  function Proposed(spec: TaskSpec, p: Proposal): TaskSpec {
    spec.(constraints := Dedupe(spec.constraints + [ChangeConstraint(p)] + p.addedConstraints),
          acceptanceCriteria :=
            if p.desiredOutcome.Some? && p.desiredOutcome.value != "" then
              Dedupe(spec.acceptanceCriteria + [p.desiredOutcome.value])
            else spec.acceptanceCriteria)
  }

  /** Where one call is. `read` is the task record of the snapshot it last looked at. */
  datatype Call =
    | Begun(p: Proposal)
    | Pausing(p: Proposal, read: Task)
    | Polling(p: Proposal)
    | Revising(p: Proposal, read: Task)
    | Resuming(p: Proposal)
    | Replied(p: Proposal, result: ActionResult)
    | Aborted(p: Proposal)

  /** A poll of `#waitForTaskState`: None keeps waiting. */
  function Waited(task: Task): Option<Task> {
    if task.state == Paused || Terminal(task.state) then Some(task) else None
  }

  /** The check after waiting. */
  function Settle(p: Proposal, read: Task): Call {
    if read.state == Paused || read.state == Awaiting then Revising(p, read) else Replied(p, Rejected(InvalidState))
  }

  predicate Stopped(task: Task) {
    task.state in {Paused, Completed, Failed, Cancelled}
  }

  /** `#waitForTaskState` over the snapshots taken until the deadline. */
  datatype Wait = Found(task: Task) | Disappeared | TimedOut

  method WaitForTaskState(polls: seq<Option<Task>>) returns (r: Wait)
    ensures r.TimedOut? <==> forall i :: 0 <= i < |polls| ==> polls[i].Some? && !Stopped(polls[i].value)
    ensures !r.TimedOut? ==>
              exists i :: 0 <= i < |polls|
                && (forall j :: 0 <= j < i ==> polls[j].Some? && !Stopped(polls[j].value))
                && match polls[i]
                   case None => r == Disappeared
                   case Some(task) => Stopped(task) && r == Found(task)
  {
    var i := 0;
    while i < |polls|
      invariant 0 <= i <= |polls|
      invariant forall j :: 0 <= j < i ==> polls[j].Some? && !Stopped(polls[j].value)
    {
      if polls[i].None? {
        return Disappeared;
      }
      if polls[i].value.state == Paused {
        return Found(polls[i].value);
      }
      if Terminal(polls[i].value.state) {
        return Found(polls[i].value);
      }
      i := i + 1;
    }
    return TimedOut;
  }

  /** The command a call issues next; a call that only reads issues none. */
  function Issues(c: Call, s: State): Option<Signal> {
    match c
    case Pausing(p, read) => Some(RequestPause(p.taskId, read.revision))
    case Revising(p, read) => Some(Signal.Revise(p.taskId, read.revision, Proposed(read.spec, p)))
    case Resuming(p) =>
      if p.taskId in s.tasks then Some(Signal.Resume(p.taskId, s.tasks[p.taskId].revision)) else None
    case _ => None
  }

  /** The call after its command was answered. */
  function Continue(c: Call, result: ActionResult): Call {
    match c
    case Pausing(p, _) => if result.Accepted? then Polling(p) else Replied(p, result)
    case Revising(p, _) => if result.Accepted? then Resuming(p) else Replied(p, result)
    case _ => Replied(c.p, result)
  }

  /** The call after a step that only reads the snapshot. */
  function Look(c: Call, s: State): Call {
    var t := c.p.taskId;
    match c
    case Begun(p) =>
      if t !in s.tasks then Replied(p, Rejected(TaskNotFound))
      else if s.tasks[t].state == Running then Pausing(p, s.tasks[t])
      else if s.tasks[t].state == PauseWanted then Polling(p)
      else Settle(p, s.tasks[t])
    case Polling(p) =>
      if t !in s.tasks then Aborted(p)
      else if Waited(s.tasks[t]).None? then c
      else Settle(p, s.tasks[t])
    case Resuming(p) => if t in s.tasks then c else Aborted(p)
    case _ => c
  }

  /** `origin` is the spec every task was submitted with, and `accepted` the proposals whose
      revisions were accepted, per task and in order: both only record what happened. */
  datatype World = World(sys: Sys, calls: map<Id, Call>, origin: map<Id, TaskSpec>, accepted: map<Id, seq<Proposal>>)

  /** Anything but a revision may happen beside the calls. */
  datatype Move =
    | Elsewhere(step: Step)
    | Propose(who: Id, p: Proposal)
    | Looks(who: Id)
    | Sends(who: Id, id: Id, ids: FreshIds)
    | GivesUp(who: Id)

  function Noted(w: World, sys: Sys): World {
    w.(sys := sys,
       origin := map t | t in sys.mem.tasks :: if t in w.origin then w.origin[t] else sys.mem.tasks[t].spec,
       accepted := map t | t in sys.mem.tasks :: if t in w.accepted then w.accepted[t] else [])
  }

  function Credit(w: World, c: Call, result: ActionResult): World {
    var t := c.p.taskId;
    if c.Revising? && result.Accepted? && t in w.accepted then w.(accepted := w.accepted[t := w.accepted[t] + [c.p]])
    else w
  }

  /** None when the move cannot happen, or throws in the controller. */
  ghost function Play(w: World, move: Move): Option<World> {
    match move
    case Elsewhere(step) =>
      if step.Signalled? && step.sig.Revise? then None
      else (match Controller.Perform(w.sys, step)
            case None => None
            case Some(sys) => Some(Noted(w, sys)))
    case Propose(who, p) => if who in w.calls then None else Some(w.(calls := w.calls[who := Begun(p)]))
    case Looks(who) =>
      if who !in w.calls then None else Some(w.(calls := w.calls[who := Look(w.calls[who], w.sys.mem)]))
    case Sends(who, id, ids) =>
      if who !in w.calls || Issues(w.calls[who], w.sys.mem).None? then None
      else if id in w.sys.store.commands || !Fresh(w.sys.mem, ids) then None
      else
        var c := w.calls[who];
        (match Handle(w.sys, id, ids, Issues(c, w.sys.mem).value)
         case Thrown(_) => None
         case Returned(sys, result) =>
           Some(Credit(Noted(w, sys), c, result).(calls := w.calls[who := Continue(c, result)])))
    case GivesUp(who) =>
      if who in w.calls && w.calls[who].Polling? then Some(w.(calls := w.calls[who := Aborted(w.calls[who].p)]))
          else None
  }

  const START := World(Controller.INITIAL, map[], map[], map[])

  ghost function PlayAll(moves: seq<Move>): Option<World> {
    if moves == [] then Some(START)
    else
      var before := PlayAll(moves[..|moves| - 1]);
      if before.None? then None else Play(before.value, moves[|moves| - 1])
  }

  // ------------------------------------------------------------------------- the invariant

  /** All the accepted proposals, applied one after another. */
  function Folded(spec: TaskSpec, ps: seq<Proposal>): TaskSpec {
    if ps == [] then spec else Proposed(Folded(spec, ps[..|ps| - 1]), ps[|ps| - 1])
  }

  /** A record read earlier: while the revision is the same, so is the spec. */
  ghost predicate StillSpeaks(read: Task, now: Task) {
    read.revision <= now.revision && (read.revision == now.revision ==> read.spec == now.spec)
  }

  ghost predicate CallOk(c: Call, s: State) {
    c.Pausing? || c.Revising? ==> c.p.taskId in s.tasks && StillSpeaks(c.read, s.tasks[c.p.taskId])
  }

  ghost predicate LedgerOk(w: World, t: Id)
    requires t in w.sys.mem.tasks
  {
    && t in w.origin && t in w.accepted
    && w.sys.mem.tasks[t].revision == 1 + |w.accepted[t]|
    && w.sys.mem.tasks[t].spec == Folded(w.origin[t], w.accepted[t])
  }

  ghost predicate WorldOk(w: World) {
    && SysOk(w.sys)
    && w.origin.Keys == w.sys.mem.tasks.Keys && w.accepted.Keys == w.sys.mem.tasks.Keys
    && (forall t :: t in w.sys.mem.tasks ==> LedgerOk(w, t))
    && (forall who :: who in w.calls ==> CallOk(w.calls[who], w.sys.mem))
  }

  /** No existing spec changed; new tasks are at revision 1. */
  ghost predicate SpecsKept(s: State, s': State) {
    && (forall t :: t in s.tasks ==>
          t in s'.tasks && s'.tasks[t].spec == s.tasks[t].spec && s'.tasks[t].revision == s.tasks[t].revision)
    && (forall t :: t in s'.tasks && t !in s.tasks ==> s'.tasks[t].revision == 1)
  }

  lemma CreatedRecord(s: State, e: Event)
    requires Legal(s, e) && Guard(s, e) && e.taskId !in s.tasks && e.taskId in Next(s, e).tasks
    ensures Next(s, e).tasks[e.taskId].revision == 1
  {
    hide InsertAt, Without, Supersede, RevisedTask, WithBoundary, WithEvidence, Park, Finish, Ask;
  }

  lemma RecordKeepsSpec(task: Task, e: Event)
    requires !e.SpecRevised?
    ensures RecordAfter(task, e).spec == task.spec && RecordAfter(task, e).revision == task.revision
  {
  }

  lemma EventKeepsSpecs(s: State, e: Event)
    requires Legal(s, e) && Guard(s, e) && !e.SpecRevised?
    ensures SpecsKept(s, Next(s, e))
  {
    hide Legal, Guard, Next, RecordAfter;
    ShapeOfTasks(s, e);
    if e.taskId in s.tasks {
      ShapeOfRecord(s, e);
      RecordKeepsSpec(s.tasks[e.taskId], e);
    } else if e.taskId in Next(s, e).tasks {
      CreatedRecord(s, e);
    }
  }

  lemma {:induction false} EventsKeepSpecs(s: State, events: seq<Event>)
    requires Inv(s) && LegalAll(s, events) && forall e :: e in events ==> !e.SpecRevised?
    ensures SpecsKept(s, After(s, events))
    decreases |events|
  {
    hide Inv, Legal, Guard, Next;
    if events != [] {
      LegalApplies(s, events[0]);
      EventKeepsSpecs(s, events[0]);
      EventsKeepSpecs(Next(s, events[0]), events[1..]);
    }
  }

  lemma OnlyReviseRevises(s: State, rows: seq<Artifact>, id: Id, ids: FreshIds, sig: Signal)
    requires !sig.Revise?
    ensures forall e :: e in Decide(s, rows, id, ids, sig).events ==> !e.SpecRevised?
  {
    hide Decide;
    DecidedKinds(s, rows, id, ids, sig);
  }

  /** Every signal but a revision keeps every spec. */
  lemma SignalKeepsSpecs(sys: Sys, id: Id, ids: FreshIds, sig: Signal)
    requires SysOk(sys) && Fresh(sys.mem, ids) && !sig.Revise? && Handle(sys, id, ids, sig).Returned?
    ensures SpecsKept(sys.mem, Handle(sys, id, ids, sig).sys.mem)
  {
    hide Inv, Settled, Justified, Decide, Fresh, RefusedUnrecorded, ApplyAll;
    if RefusedUnrecorded(sys.mem, sig) {
      RefusalKeeps(sys, id, ids, sig);
    } else if id in sys.store.commands {
      RepeatedCommand(sys, id, ids, sig);
    } else {
      DecisionApplies(sys.mem, sys.rows, id, ids, sig);
      OnlyReviseRevises(sys.mem, sys.rows, id, ids, sig);
      EventsKeepSpecs(sys.mem, Decide(sys.mem, sys.rows, id, ids, sig).events);
    }
  }

  /** What a revision does to the tasks: nothing when it is not accepted; otherwise it names the
      current revision, and exactly that task gets the new spec under the next one. */
  lemma RevisionDoes(sys: Sys, id: Id, ids: FreshIds, t: Id, r: nat, spec: TaskSpec)
    requires SysOk(sys) && Fresh(sys.mem, ids) && id !in sys.store.commands
    requires Handle(sys, id, ids, Signal.Revise(t, r, spec)).Returned?
    ensures var out := Handle(sys, id, ids, Signal.Revise(t, r, spec));
      && out.sys.mem.tasks.Keys == sys.mem.tasks.Keys
      && (forall u :: u in sys.mem.tasks && (u != t || !out.result.Accepted?) ==>
            out.sys.mem.tasks[u] == sys.mem.tasks[u])
      && (out.result.Accepted? ==>
            && t in sys.mem.tasks && sys.mem.tasks[t].revision == r
            && out.sys.mem.tasks[t].spec == spec && out.sys.mem.tasks[t].revision == r + 1)
  {
    hide Inv, Settled, Justified, Fresh, ApplyAll, Next, Guard, Legal, Decide;
    var sig := Signal.Revise(t, r, spec);
    DecisionApplies(sys.mem, sys.rows, id, ids, sig);
    ReviseDecision(sys.mem, sys.rows, id, ids, t, r, spec);
    if Decide(sys.mem, sys.rows, id, ids, sig).result.Accepted? {
      var e := SpecRevised(t, r, r + 1, spec);
      AfterSingle(sys.mem, e);
      ShapeOfTasks(sys.mem, e);
      ShapeOfRecord(sys.mem, e);
    }
  }

  lemma ReviseDecision(s: State, rows: seq<Artifact>, id: Id, ids: FreshIds, t: Id, r: nat, spec: TaskSpec)
    ensures var d := Decide(s, rows, id, ids, Signal.Revise(t, r, spec));
      if d.result.Accepted? then t in s.tasks && s.tasks[t].revision == r
          && d.events == [SpecRevised(t, r, r + 1, spec)]
      else d.events == []
  {
  }

  lemma AfterSingle(s: State, e: Event)
    requires LegalAll(s, [e])
    ensures Guard(s, e) && After(s, [e]) == Next(s, e)
  {
    hide Legal, Guard, Next;
    assert [e][1..] == [];
  }

  // -------------------------------------------------------------------- the step lemmas

  lemma SpeaksOn(read: Task, now: Task, later: Task)
    requires StillSpeaks(read, now) && StillSpeaks(now, later)
    ensures StillSpeaks(read, later)
  {
  }

  /** Every record speaks on as long as revisions go up. */
  ghost predicate RecordsSpeakOn(s: State, s': State) {
    forall t :: t in s.tasks ==> t in s'.tasks && StillSpeaks(s.tasks[t], s'.tasks[t])
  }

  lemma CallStaysOk(c: Call, s: State, s': State)
    requires CallOk(c, s) && RecordsSpeakOn(s, s')
    ensures CallOk(c, s')
  {
    if c.Pausing? || c.Revising? {
      SpeaksOn(c.read, s.tasks[c.p.taskId], s'.tasks[c.p.taskId]);
    }
  }

  /** A step that keeps the specs keeps the ledger. */
  lemma NotedKeeps(w: World, sys: Sys)
    requires WorldOk(w) && SysOk(sys) && SpecsKept(w.sys.mem, sys.mem)
    ensures WorldOk(Noted(w, sys))
  {
    hide SysOk, CallOk, Folded;
    var after := Noted(w, sys);
    forall t | t in sys.mem.tasks
      ensures LedgerOk(after, t)
    {
      if t in w.sys.mem.tasks {
        assert LedgerOk(w, t);
      } else {
        FoldNothing(after.origin[t]);
      }
    }
    forall who | who in w.calls
      ensures CallOk(w.calls[who], sys.mem)
    {
      CallStaysOk(w.calls[who], w.sys.mem, sys.mem);
    }
  }

  lemma FoldNothing(spec: TaskSpec)
    ensures Folded(spec, []) == spec
  {
  }

  lemma FoldOneMore(spec: TaskSpec, ps: seq<Proposal>, p: Proposal)
    ensures Folded(spec, ps + [p]) == Proposed(Folded(spec, ps), p)
  {
    assert (ps + [p])[..|ps|] == ps;
  }

  lemma ElsewhereKeeps(w: World, step: Step)
    requires WorldOk(w) && Play(w, Elsewhere(step)).Some?
    ensures WorldOk(Play(w, Elsewhere(step)).value)
  {
    hide SysOk, CallOk, LedgerOk, Handle, Noted, Fresh, SpecsKept;
    StepKeeps(w.sys, step);
    var sys := Controller.Perform(w.sys, step).value;
    assert SpecsKept(w.sys.mem, w.sys.mem) by { SpecsStay(w.sys.mem); }
    if step.Signalled? {
      SignalKeepsSpecs(w.sys, step.id, step.ids, step.sig);
    } else if step.Restarted? {
      ReplayRestoresMemory(w.sys);
    }
    NotedKeeps(w, sys);
  }

  lemma SpecsStay(s: State)
    ensures SpecsKept(s, s)
  {
  }

  /** The system after a call sent its revision. */
  function Revised(sys: Sys, c: Call, id: Id, ids: FreshIds): Outcome
    requires c.Revising?
  {
    Handle(sys, id, ids, Signal.Revise(c.p.taskId, c.read.revision, Proposed(c.read.spec, c.p)))
  }

  /** An accepted revision proposed by a call applies to the spec of this very moment, although the
      call may have read it long before. */
  lemma AcceptedRevisionIsCurrent(sys: Sys, c: Call, id: Id, ids: FreshIds)
    requires SysOk(sys) && c.Revising? && CallOk(c, sys.mem)
    requires Fresh(sys.mem, ids) && id !in sys.store.commands && Revised(sys, c, id, ids).Returned?
    ensures var out := Revised(sys, c, id, ids);
      RevisedBy(sys.mem, out.sys.mem, c.p, out.result.Accepted?)
  {
    hide SysOk, Handle, Fresh, Proposed;
    RevisionDoes(sys, id, ids, c.p.taskId, c.read.revision, Proposed(c.read.spec, c.p));
  }

  /** The tasks after a sent revision: only the named one may differ, and then by the proposal. */
  ghost predicate RevisedBy(s: State, s': State, p: Proposal, accepted: bool) {
    && s'.tasks.Keys == s.tasks.Keys && p.taskId in s.tasks
    && (forall u :: u in s.tasks && (u != p.taskId || !accepted) ==> s'.tasks[u] == s.tasks[u])
    && (accepted ==>
          && s'.tasks[p.taskId].revision == s.tasks[p.taskId].revision + 1
          && s'.tasks[p.taskId].spec == Proposed(s.tasks[p.taskId].spec, p))
  }

  lemma LedgerEntryAfterRevision(w: World, c: Call, sys: Sys, result: ActionResult, u: Id)
    requires c.Revising? && u in w.sys.mem.tasks && LedgerOk(w, u)
    requires RevisedBy(w.sys.mem, sys.mem, c.p, result.Accepted?)
    ensures LedgerOk(Credit(Noted(w, sys), c, result), u)
  {
    hide Proposed, Folded;
    if u == c.p.taskId && result.Accepted? { FoldOneMore(w.origin[u], w.accepted[u], c.p); }
  }

  /** The bookkeeping of a sent revision. */
  lemma LedgerAfterRevision(w: World, c: Call, sys: Sys, result: ActionResult)
    requires c.Revising? && w.accepted.Keys == w.sys.mem.tasks.Keys && w.origin.Keys == w.sys.mem.tasks.Keys
    requires forall u :: u in w.sys.mem.tasks ==> LedgerOk(w, u)
    requires RevisedBy(w.sys.mem, sys.mem, c.p, result.Accepted?)
    ensures var after := Credit(Noted(w, sys), c, result);
      && after.sys == sys && after.calls == w.calls
      && after.accepted.Keys == sys.mem.tasks.Keys && after.origin.Keys == sys.mem.tasks.Keys
      && forall u :: u in sys.mem.tasks ==> LedgerOk(after, u)
  {
    hide LedgerOk;
    forall u | u in sys.mem.tasks
      ensures LedgerOk(Credit(Noted(w, sys), c, result), u)
    {
      LedgerEntryAfterRevision(w, c, sys, result, u);
    }
  }

  lemma CallsAfterRevision(w: World, who: Id, c: Call, s: State)
    requires who in w.calls && !c.Pausing? && !c.Revising?
    requires forall other :: other in w.calls ==> CallOk(w.calls[other], w.sys.mem)
    requires RecordsSpeakOn(w.sys.mem, s)
    ensures var calls := w.calls[who := c]; forall other :: other in calls ==> CallOk(calls[other], s)
  {
    hide CallOk, RecordsSpeakOn;
    var calls := w.calls[who := c];
    forall other | other in calls
      ensures CallOk(calls[other], s)
    {
      if other == who { IdleCallOk(c, s); } else { CallStaysOk(w.calls[other], w.sys.mem, s); }
    }
  }

  lemma SentRevision(w: World, who: Id, id: Id, ids: FreshIds)
    requires who in w.calls && w.calls[who].Revising? && Play(w, Sends(who, id, ids)).Some?
    ensures var c := w.calls[who]; var out := Revised(w.sys, c, id, ids);
      && id !in w.sys.store.commands && Fresh(w.sys.mem, ids) && out.Returned?
      && Controller.Perform(w.sys, Signalled(id, ids,
           Signal.Revise(c.p.taskId, c.read.revision, Proposed(c.read.spec, c.p)))) == Some(out.sys)
      && Play(w, Sends(who, id, ids))
         == Some(Credit(Noted(w, out.sys), c, out.result).(calls := w.calls[who := Continue(c, out.result)]))
  {
    hide Handle, Fresh, Noted, Credit, Continue, Proposed;
  }

  lemma ContinuesIdle(c: Call, result: ActionResult)
    requires c.Revising?
    ensures !Continue(c, result).Pausing? && !Continue(c, result).Revising?
  {
  }

  lemma RevisionKeeps(w: World, who: Id, id: Id, ids: FreshIds)
    requires WorldOk(w) && who in w.calls && w.calls[who].Revising?
    requires Play(w, Sends(who, id, ids)).Some?
    ensures WorldOk(Play(w, Sends(who, id, ids)).value)
  {
    hide SysOk, Handle, Fresh, Proposed, CallOk, LedgerOk, Noted, Credit, Play, Continue, Controller.Perform;
    var c := w.calls[who];
    var out := Revised(w.sys, c, id, ids);
    SentRevision(w, who, id, ids);
    StepKeeps(w.sys, Signalled(id, ids, Signal.Revise(c.p.taskId, c.read.revision, Proposed(c.read.spec, c.p))));
    ContinuesIdle(c, out.result);
    AcceptedRevisionIsCurrent(w.sys, c, id, ids);
    LedgerAfterRevision(w, c, out.sys, out.result);
    CallsAfterRevision(w, who, Continue(c, out.result), out.sys.mem);
    SameLedger(Credit(Noted(w, out.sys), c, out.result), w.calls[who := Continue(c, out.result)]);
  }

  lemma SameLedger(w: World, calls: map<Id, Call>)
    requires forall t :: t in w.sys.mem.tasks ==> LedgerOk(w, t)
    ensures forall t :: t in w.sys.mem.tasks ==> LedgerOk(w.(calls := calls), t)
  {
    hide Folded;
    forall t | t in w.sys.mem.tasks
      ensures LedgerOk(w.(calls := calls), t)
    {
      assert LedgerOk(w, t);
    }
  }

  lemma IdleCallOk(c: Call, s: State)
    requires !c.Pausing? && !c.Revising?
    ensures CallOk(c, s)
  {
  }

  lemma OtherCommandKeeps(w: World, who: Id, id: Id, ids: FreshIds)
    requires WorldOk(w) && who in w.calls && !w.calls[who].Revising?
    requires Play(w, Sends(who, id, ids)).Some?
    ensures WorldOk(Play(w, Sends(who, id, ids)).value)
  {
    hide SysOk, Handle, Fresh, CallOk, LedgerOk, Noted, SpecsKept;
    var c := w.calls[who];
    var sig := Issues(c, w.sys.mem).value;
    var out := Handle(w.sys, id, ids, sig);
    StepKeeps(w.sys, Signalled(id, ids, sig));
    SignalKeepsSpecs(w.sys, id, ids, sig);
    NotedKeeps(w, out.sys);
    var noted := Noted(w, out.sys);
    var next := Continue(c, out.result);
    IdleCallOk(next, out.sys.mem);
    NotedKeepsCalls(w, out.sys);
    CallChangeKeeps(noted, who, next);
  }

  lemma NotedKeepsCalls(w: World, sys: Sys)
    ensures Noted(w, sys).calls == w.calls && Noted(w, sys).sys == sys
  {
  }

  lemma CallChangeKeeps(w: World, who: Id, c: Call)
    requires WorldOk(w) && CallOk(c, w.sys.mem)
    ensures WorldOk(w.(calls := w.calls[who := c]))
  {
    hide SysOk, CallOk, Folded;
    var after := w.(calls := w.calls[who := c]);
    forall t | t in w.sys.mem.tasks ensures LedgerOk(after, t) { assert LedgerOk(w, t); }
  }

  lemma MoveKeeps(w: World, move: Move)
    requires WorldOk(w) && Play(w, move).Some?
    ensures WorldOk(Play(w, move).value)
  {
    hide WorldOk, Noted, Handle, Fresh, Issues;
    match move
    case Elsewhere(step) => ElsewhereKeeps(w, step);
    case Propose(who, p) =>
      IdleCallOk(Begun(p), w.sys.mem);
      CallChangeKeeps(w, who, Begun(p));
    case Looks(who) =>
      LookIsOk(w, who);
      CallChangeKeeps(w, who, Look(w.calls[who], w.sys.mem));
    case Sends(who, id, ids) =>
      if w.calls[who].Revising? { RevisionKeeps(w, who, id, ids); } else { OtherCommandKeeps(w, who, id, ids); }
    case GivesUp(who) =>
      IdleCallOk(Aborted(w.calls[who].p), w.sys.mem);
      CallChangeKeeps(w, who, Aborted(w.calls[who].p));
  }

  lemma LookIsOk(w: World, who: Id)
    requires WorldOk(w) && who in w.calls
    ensures CallOk(Look(w.calls[who], w.sys.mem), w.sys.mem)
  {
    hide SysOk, LedgerOk;
    assert CallOk(w.calls[who], w.sys.mem);
  }

  lemma {:induction false} PlaysAreOk(moves: seq<Move>)
    requires PlayAll(moves).Some?
    ensures WorldOk(PlayAll(moves).value)
  {
    hide SysOk, Play, CallOk, LedgerOk;
    if moves == [] {
      InitialOk();
    } else {
      PlaysAreOk(moves[..|moves| - 1]);
      MoveKeeps(PlayAll(moves[..|moves| - 1]).value, moves[|moves| - 1]);
    }
  }

  // ----------------------------------------------------------------------- the theorems

  /** However the calls interleave with each other and with everything else, every task's spec is the
      one it was submitted with plus exactly the accepted proposals, applied in order of acceptance. */
  lemma SpecIsTheFoldOfAccepted(moves: seq<Move>, t: Id)
    requires PlayAll(moves).Some? && t in PlayAll(moves).value.sys.mem.tasks
    ensures var w := PlayAll(moves).value; var task := w.sys.mem.tasks[t];
      && t in w.origin && t in w.accepted
      && task.revision == 1 + |w.accepted[t]|
      && task.spec == Folded(w.origin[t], w.accepted[t])
  {
    hide SysOk, PlayAll, Folded, CallOk;
    PlaysAreOk(moves);
    assert LedgerOk(PlayAll(moves).value, t);
  }

  /** Every requirement of a proposal: its change, its added constraints and its desired outcome. */
  predicate Includes(spec: TaskSpec, p: Proposal) {
    && ChangeConstraint(p) in spec.constraints
    && (forall c :: c in p.addedConstraints ==> c in spec.constraints)
    && (p.desiredOutcome.Some? && p.desiredOutcome.value != "" ==> p.desiredOutcome.value in spec.acceptanceCriteria)
  }

  /** Nothing that one spec asks for is missing from the other. */
  predicate AsksFor(spec: TaskSpec, earlier: TaskSpec) {
    && (forall c :: c in earlier.constraints ==> c in spec.constraints)
    && (forall c :: c in earlier.acceptanceCriteria ==> c in spec.acceptanceCriteria)
  }

  lemma ProposalAdds(spec: TaskSpec, p: Proposal)
    ensures AsksFor(Proposed(spec, p), spec) && Includes(Proposed(spec, p), p)
  {
    ProposalMeans(spec, p);
  }

  /** A proposal asks for its change, its constraints and its outcome besides what the spec asks for, and
      changes nothing else. Every constraint is listed once, in the order of first naming. */
  lemma ProposalMeans(spec: TaskSpec, p: Proposal)
    ensures var r := Proposed(spec, p);
      && (forall c :: c in r.constraints <==>
            c in spec.constraints || c == "Requested change: " + p.change || c in p.addedConstraints)
      && (forall c :: c in r.acceptanceCriteria <==>
            c in spec.acceptanceCriteria || (p.desiredOutcome == Some(c) && c != ""))
      && NoDuplicates(r.constraints)
      && InOrderOf(r.constraints, spec.constraints + [ChangeConstraint(p)] + p.addedConstraints)
      && r == spec.(constraints := r.constraints, acceptanceCriteria := r.acceptanceCriteria)
  {
    hide Dedupe;
    DedupeOrder(spec.constraints + [ChangeConstraint(p)] + p.addedConstraints);
  }

  lemma IncludedStays(spec: TaskSpec, earlier: TaskSpec, p: Proposal)
    requires AsksFor(spec, earlier) && Includes(earlier, p)
    ensures Includes(spec, p)
  {
  }

  lemma {:induction false} FoldLosesNothing(spec: TaskSpec, ps: seq<Proposal>, n: nat)
    requires n <= |ps|
    ensures AsksFor(Folded(spec, ps), Folded(spec, ps[..n]))
    ensures forall i :: n <= i < |ps| ==> Includes(Folded(spec, ps), ps[i])
    decreases |ps|
  {
    hide Includes, Proposed;
    if n == |ps| {
      assert ps[..n] == ps;
    } else {
      var m := |ps| - 1;
      FoldLosesNothing(spec, ps[..m], n);
      assert ps[..m][..n] == ps[..n];
      ProposalAdds(Folded(spec, ps[..m]), ps[m]);
      forall i | n <= i < |ps|
        ensures Includes(Folded(spec, ps), ps[i])
      {
        if i < m {
          assert ps[..m][i] == ps[i];
          IncludedStays(Folded(spec, ps), Folded(spec, ps[..m]), ps[i]);
        }
      }
    }
  }

  /** No lost update: the spec asks for everything the submitted spec and every earlier revision
      asked for, and includes every accepted proposal. */
  lemma NoLostUpdate(moves: seq<Move>, t: Id, n: nat)
    requires PlayAll(moves).Some? && t in PlayAll(moves).value.sys.mem.tasks
    requires t in PlayAll(moves).value.accepted && n <= |PlayAll(moves).value.accepted[t]|
    ensures var w := PlayAll(moves).value; var spec := w.sys.mem.tasks[t].spec;
      && t in w.origin
      && AsksFor(spec, Folded(w.origin[t], w.accepted[t][..n]))
      && (forall i :: 0 <= i < |w.accepted[t]| ==> Includes(spec, w.accepted[t][i]))
  {
    hide PlayAll, Folded, Includes, AsksFor;
    SpecIsTheFoldOfAccepted(moves, t);
    var w := PlayAll(moves).value;
    FoldLosesNothing(w.origin[t], w.accepted[t], n);
    FoldLosesNothing(w.origin[t], w.accepted[t], 0);
  }
}

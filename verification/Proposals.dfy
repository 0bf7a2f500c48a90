/** What becomes of a spoken task change (packages/core/src/voice-toolkit.ts:1049-1120): an undisturbed one
    goes through, one that comes too late is refused, and a reply never claims what did not happen. */
module Proposals {
  import opened Protocol
  import opened Domain
  import opened Evidence
  import opened Decisions
  import opened Invariants
  import opened Progress
  import opened Controller
  import opened Outcomes
  import opened VoiceRevision
  import SlotTheorems
  import TaskHistory
  import Answers

  // ----------------------------------------------------------------- the worlds of a run

  lemma PlayReaches(w: World, move: Move)
    requires Reachable(w.sys) && Play(w, move).Some?
    ensures Reachable(Play(w, move).value.sys)
  {
    hide Reachable, Handle, Fresh, Issues, Look, Continue;
    match move
    case Elsewhere(step) => ReachableExtends(w.sys, step);
    case Sends(who, id, ids) =>
      ReachableExtends(w.sys, Signalled(id, ids, Issues(w.calls[who], w.sys.mem).value));
    case _ =>
  }

  lemma {:induction false} PlaysReach(moves: seq<Move>)
    requires PlayAll(moves).Some?
    ensures Reachable(PlayAll(moves).value.sys)
  {
    hide Play;
    if moves == [] {
      assert Execute([]) == Some(Controller.INITIAL);
    } else {
      PlaysReach(moves[..|moves| - 1]);
      PlayReaches(PlayAll(moves[..|moves| - 1]).value, moves[|moves| - 1]);
    }
  }

  lemma PlayOneMore(moves: seq<Move>, move: Move)
    requires PlayAll(moves).Some?
    ensures PlayAll(moves + [move]) == Play(PlayAll(moves).value, move)
  {
    hide Play;
    assert (moves + [move])[..|moves|] == moves;
  }

  // ------------------------------------------------------------------- the commands of a call

  /** The ids one command is issued under, and may give to what it creates. */
  datatype Stamp = Stamp(id: Id, ids: FreshIds)

  ghost predicate Unused(sys: Sys, stamp: Stamp) {
    stamp.id !in sys.store.commands && Fresh(sys.mem, stamp.ids)
  }

  /** Only this task record differs, the slot is as before, and ids unused before are unused still. */
  ghost predicate Rewrites(sys: Sys, sys': Sys, t: Id, task: Task, used: Id) {
    && sys'.mem.tasks == sys.mem.tasks[t := task] && sys'.mem.active == sys.mem.active
    && sys'.mem.runs.Keys == sys.mem.runs.Keys && sys'.mem.confirmations.Keys == sys.mem.confirmations.Keys
    && sys'.store.commands.Keys == sys.store.commands.Keys + {used}
  }

  lemma StaysUnused(sys: Sys, sys': Sys, t: Id, task: Task, used: Id, stamp: Stamp)
    requires t in sys.mem.tasks && Rewrites(sys, sys', t, task, used) && Unused(sys, stamp) && stamp.id != used
    ensures Unused(sys', stamp)
  {
  }

  lemma CommandReturns(sys: Sys, stamp: Stamp, sig: Signal)
    requires Reachable(sys) && Unused(sys, stamp)
    requires sig.RequestPause? || sig.Revise? || sig.Resume? || (sig.SafeBoundary? && sig.reason != "")
    ensures Handled(sys, stamp.id, stamp.ids, sig)
  {
    hide Reachable, Fresh, Handle, SysOk;
    ReachableIsOk(sys);
    CommandThrowsExactlyWhen(sys, stamp.id, stamp.ids, sig);
  }

  lemma NoteWrites(s: State, e: Event)
    requires Guard(s, e) && (e.PauseRequested? || e.TaskPaused? || e.SpecRevised?)
    ensures var s' := Next(s, e);
      s'.active == s.active && s'.runs.Keys == s.runs.Keys && s'.confirmations.Keys == s.confirmations.Keys
  {
    hide Supersede, RevisedTask;
  }

  /** A command or signal that is decided to one of these events rewrites the record by it. */
  lemma SingleRewrites(sys: Sys, stamp: Stamp, sig: Signal, e: Event)
    requires Handled(sys, stamp.id, stamp.ids, sig)
    requires Decide(sys.mem, sys.rows, stamp.id, stamp.ids, sig) == Accept(e.taskId, [e])
    requires (e.PauseRequested? || e.TaskPaused? || e.SpecRevised?) && e.taskId in sys.mem.tasks
    ensures var out := Handle(sys, stamp.id, stamp.ids, sig);
      && out.result == Accepted(e.taskId)
      && Rewrites(sys, out.sys, e.taskId, RecordAfter(sys.mem.tasks[e.taskId], e), stamp.id)
  {
    hide Handle, Decide, Guard, Next, LegalAll, After, RecordAfter, Ready, Reachable, Fresh, RefusedUnrecorded;
    HandledFacts(sys, stamp.id, stamp.ids, sig);
    Chain1(sys.mem, e);
    NoteWrites(sys.mem, e);
    ShapeOfTasks(sys.mem, e);
    ShapeOfRecord(sys.mem, e);
    AnswerIsRecorded(sys, stamp.id, stamp.ids, sig);
  }

  lemma OwnerIsActive(sys: Sys, t: Id)
    requires Reachable(sys) && t in sys.mem.tasks && OwnsSlot(sys.mem.tasks[t].state)
    ensures sys.mem.active == Some(t)
  {
    hide Reachable;
    SlotTheorems.SlotDiscipline(sys);
  }

  lemma PauseGoes(sys: Sys, stamp: Stamp, t: Id)
    requires Reachable(sys) && Unused(sys, stamp) && t in sys.mem.tasks && sys.mem.tasks[t].state == Running
    ensures var task := sys.mem.tasks[t]; var sig := RequestPause(t, task.revision);
      && Handled(sys, stamp.id, stamp.ids, sig)
      && Handle(sys, stamp.id, stamp.ids, sig).result == Accepted(t)
      && Rewrites(sys, Handle(sys, stamp.id, stamp.ids, sig).sys, t, task.(state := PauseWanted), stamp.id)
  {
    hide Reachable, Fresh, Handle, Rewrites;
    var sig := RequestPause(t, sys.mem.tasks[t].revision);
    CommandReturns(sys, stamp, sig);
    OwnerIsActive(sys, t);
    SingleRewrites(sys, stamp, sig, PauseRequested(t));
  }

  lemma BoundaryGoes(sys: Sys, stamp: Stamp, t: Id, reason: string)
    requires Reachable(sys) && Unused(sys, stamp) && t in sys.mem.tasks && sys.mem.tasks[t].state == PauseWanted
    requires reason != ""
    ensures var sig := SafeBoundary(t, reason);
      && Handled(sys, stamp.id, stamp.ids, sig)
      && Handle(sys, stamp.id, stamp.ids, sig).result == Accepted(t)
      && Rewrites(sys, Handle(sys, stamp.id, stamp.ids, sig).sys, t,
                  sys.mem.tasks[t].(state := Paused, activeRunId := None), stamp.id)
  {
    hide Reachable, Fresh, Handle, Rewrites, Handled, Ready;
    var sig := SafeBoundary(t, reason);
    CommandReturns(sys, stamp, sig);
    HandledFacts(sys, stamp.id, stamp.ids, sig);
    Answers.StateMeans(sys.mem, t);
    SingleRewrites(sys, stamp, sig, TaskPaused(t, sys.mem.tasks[t].activeRunId.value, reason));
  }

  /** A revision of an idle task is accepted, and so is a resume after it. */
  lemma ReviseGoes(sys: Sys, stamp: Stamp, t: Id, spec: TaskSpec, later: Stamp)
    requires Reachable(sys) && Unused(sys, stamp) && t in sys.mem.tasks && sys.mem.tasks[t].state in {Paused, Awaiting}
    requires spec.repositoryId == sys.mem.tasks[t].repositoryId
    ensures var task := sys.mem.tasks[t]; var sig := Signal.Revise(t, task.revision, spec);
      && Handled(sys, stamp.id, stamp.ids, sig)
      && var out := Handle(sys, stamp.id, stamp.ids, sig);
         && out.result == Accepted(t)
         && Rewrites(sys, out.sys, t, RevisedTask(task, task.revision + 1, spec), stamp.id)
         && t in out.sys.mem.tasks && SlotTheorems.ResumeAccepted(out.sys, later.ids, t)
  {
    hide Reachable, Fresh, Handle, Rewrites, RevisedTask, SlotTheorems.ResumeAccepted;
    var task := sys.mem.tasks[t];
    var sig := Signal.Revise(t, task.revision, spec);
    CommandReturns(sys, stamp, sig);
    OwnerIsActive(sys, t);
    SingleRewrites(sys, stamp, sig, SpecRevised(t, task.revision, task.revision + 1, spec));
    SlotTheorems.ReviseThenResume(sys, stamp.id, stamp.ids, later.ids, t, spec);
  }

  lemma ResumeGoes(sys: Sys, stamp: Stamp, t: Id)
    requires Reachable(sys) && Unused(sys, stamp) && t in sys.mem.tasks
    requires SlotTheorems.ResumeAccepted(sys, stamp.ids, t)
    ensures var sig := Signal.Resume(t, sys.mem.tasks[t].revision);
      && Handled(sys, stamp.id, stamp.ids, sig)
      && Handle(sys, stamp.id, stamp.ids, sig).result == Accepted(t)
      && RunsAgain(sys.mem, Handle(sys, stamp.id, stamp.ids, sig).sys.mem, t, stamp.ids.run)
  {
    hide Reachable, Fresh, Handle, HasOpenQuestion, HasPending, RunsAgain, Ready;
    var sig := Signal.Resume(t, sys.mem.tasks[t].revision);
    CommandReturns(sys, stamp, sig);
    HandledFacts(sys, stamp.id, stamp.ids, sig);
    ResumeOutcome(sys, stamp.id, stamp.ids, sig);
  }

  // ---------------------------------------------------------- an undisturbed change goes through

  lemma SendGoes(w: World, who: Id, stamp: Stamp, sig: Signal)
    requires who in w.calls && Issues(w.calls[who], w.sys.mem) == Some(sig)
    requires Handled(w.sys, stamp.id, stamp.ids, sig)
    ensures Play(w, Sends(who, stamp.id, stamp.ids)).Some?
    ensures var out := Handle(w.sys, stamp.id, stamp.ids, sig);
      var after := Play(w, Sends(who, stamp.id, stamp.ids)).value;
      after.sys == out.sys && after.calls == w.calls[who := Continue(w.calls[who], out.result)]
  {
    hide Handle, Reachable, Fresh, Issues, Continue;
  }

  /** The change is in the spec under the next revision, the task runs again, and nobody else is touched. */
  ghost predicate Applied(w: World, w': World, who: Id, p: Proposal, run: Id) {
    var t, s, s' := p.taskId, w.sys.mem, w'.sys.mem;
    && w'.calls == w.calls[who := Replied(p, Accepted(t))]
    && t in s.tasks && t in s'.tasks && s'.tasks == s.tasks[t := s'.tasks[t]] && s'.active == Some(t)
    && s'.tasks[t].state == Running && s'.tasks[t].activeRunId == Some(run)
    && s'.tasks[t].revision == s.tasks[t].revision + 1
    && s'.tasks[t].spec == Proposed(s.tasks[t].spec, p)
  }

  lemma RevisingGoesThrough(w: World, who: Id, p: Proposal, revise: Stamp, resume: Stamp)
    requires Reachable(w.sys) && p.taskId in w.sys.mem.tasks && w.sys.mem.tasks[p.taskId].state in {Paused, Awaiting}
    requires who in w.calls && w.calls[who] == Revising(p, w.sys.mem.tasks[p.taskId])
    requires Unused(w.sys, revise) && Unused(w.sys, resume) && revise.id != resume.id
    ensures var revised := Play(w, Sends(who, revise.id, revise.ids));
      && revised.Some?
      && var resumed := Play(revised.value, Sends(who, resume.id, resume.ids));
         resumed.Some? && Applied(w, resumed.value, who, p, resume.ids.run)
  {
    hide Reachable, Handle, Handled, Play, Unused, Proposed, SlotTheorems.ResumeAccepted;
    var t := p.taskId;
    var task := w.sys.mem.tasks[t];
    var spec := Proposed(task.spec, p);
    TaskHistory.HistoryIsExact(w.sys, t);
    assert spec.repositoryId == task.repositoryId by { SameRepository(task.spec, p); }
    ReviseGoes(w.sys, revise, t, spec, resume);
    SendGoes(w, who, revise, Signal.Revise(t, task.revision, spec));
    var revised := Play(w, Sends(who, revise.id, revise.ids)).value;
    StaysUnused(w.sys, revised.sys, t, RevisedTask(task, task.revision + 1, spec), revise.id, resume);
    HandledReaches(w.sys, revise.id, revise.ids, Signal.Revise(t, task.revision, spec));
    ResumingGoesThrough(revised, who, p, resume);
  }

  lemma ResumingGoesThrough(w: World, who: Id, p: Proposal, resume: Stamp)
    requires Reachable(w.sys) && p.taskId in w.sys.mem.tasks && SlotTheorems.ResumeAccepted(w.sys, resume.ids, p.taskId)
    requires who in w.calls && w.calls[who] == Resuming(p) && Unused(w.sys, resume)
    ensures var resumed := Play(w, Sends(who, resume.id, resume.ids));
      && resumed.Some? && resumed.value.calls == w.calls[who := Replied(p, Accepted(p.taskId))]
      && RunsAgain(w.sys.mem, resumed.value.sys.mem, p.taskId, resume.ids.run)
  {
    hide Reachable, Handle, Handled, Play, Unused, SlotTheorems.ResumeAccepted, RunsAgain;
    ResumeGoes(w.sys, resume, p.taskId);
    SendGoes(w, who, resume, Signal.Resume(p.taskId, w.sys.mem.tasks[p.taskId].revision));
  }

  lemma SameRepository(spec: TaskSpec, p: Proposal)
    ensures Proposed(spec, p).repositoryId == spec.repositoryId
  {
  }

  lemma ProposeThenLook(moves: seq<Move>, who: Id, p: Proposal)
    requires PlayAll(moves).Some? && who !in PlayAll(moves).value.calls
    ensures var w := PlayAll(moves).value;
      PlayAll(moves + [Propose(who, p)] + [Looks(who)])
      == Some(w.(calls := w.calls[who := Look(Begun(p), w.sys.mem)]))
  {
    hide PlayAll, Look, Play;
    var w := PlayAll(moves).value;
    PlayOneMore(moves, Propose(who, p));
    ProposePlays(w, who, p);
    PlayOneMore(moves + [Propose(who, p)], Looks(who));
    LookPlays(w.(calls := w.calls[who := Begun(p)]), who);
    var c := Look(Begun(p), w.sys.mem);
    assert w.calls[who := Begun(p)][who := c] == w.calls[who := c];
  }

  lemma ProposePlays(w: World, who: Id, p: Proposal)
    requires who !in w.calls
    ensures Play(w, Propose(who, p)) == Some(w.(calls := w.calls[who := Begun(p)]))
  {
    hide Handle, Fresh, Controller.Perform, Noted, Credit, Issues, Continue, Look;
  }

  lemma LookPlays(w: World, who: Id)
    requires who in w.calls
    ensures Play(w, Looks(who)) == Some(w.(calls := w.calls[who := Look(w.calls[who], w.sys.mem)]))
  {
    hide Look, Handle, Fresh, Controller.Perform, Noted, Credit, Issues, Continue;
  }

  lemma ElsewhereGoes(w: World, stamp: Stamp, sig: Signal)
    requires Handled(w.sys, stamp.id, stamp.ids, sig) && !sig.Revise?
    ensures var played := Play(w, Elsewhere(Signalled(stamp.id, stamp.ids, sig)));
      played.Some? && played.value.sys == Handle(w.sys, stamp.id, stamp.ids, sig).sys && played.value.calls == w.calls
  {
    hide Handle, Reachable, Fresh;
  }

  /** A change proposed to a task that is paused or waiting for the user goes through when nothing comes
      between: two commands later the task runs again with it, whatever question or approval it waited for. */
  lemma IdleProposalGoesThrough(moves: seq<Move>, who: Id, p: Proposal, revise: Stamp, resume: Stamp)
    returns (all: seq<Move>)
    requires PlayAll(moves).Some? && who !in PlayAll(moves).value.calls
    requires var w := PlayAll(moves).value;
      && p.taskId in w.sys.mem.tasks && w.sys.mem.tasks[p.taskId].state in {Paused, Awaiting}
      && Unused(w.sys, revise) && Unused(w.sys, resume) && revise.id != resume.id
    ensures all == moves + [Propose(who, p)] + [Looks(who)]
                   + [Sends(who, revise.id, revise.ids)] + [Sends(who, resume.id, resume.ids)]
    ensures PlayAll(all).Some? && Applied(PlayAll(moves).value, PlayAll(all).value, who, p, resume.ids.run)
  {
    hide PlayAll, Play, Reachable, Unused, Proposed;
    var w := PlayAll(moves).value;
    PlaysReach(moves);
    ProposeThenLook(moves, who, p);
    var looked := moves + [Propose(who, p)] + [Looks(who)];
    var w1 := PlayAll(looked).value;
    RevisingGoesThrough(w1, who, p, revise, resume);
    PlayOneMore(looked, Sends(who, revise.id, revise.ids));
    var revised := looked + [Sends(who, revise.id, revise.ids)];
    PlayOneMore(revised, Sends(who, resume.id, resume.ids));
    all := revised + [Sends(who, resume.id, resume.ids)];
  }

  /** Asked to pause, the task stops at the next safe boundary, and the call, which kept waiting until then,
      is about to revise it. */
  lemma PausingStops(w: World, who: Id, p: Proposal, pause: Stamp, boundary: Stamp, reason: string)
    requires Reachable(w.sys) && p.taskId in w.sys.mem.tasks && w.sys.mem.tasks[p.taskId].state == Running
    requires who in w.calls && w.calls[who] == Pausing(p, w.sys.mem.tasks[p.taskId])
    requires Unused(w.sys, pause) && Unused(w.sys, boundary) && pause.id != boundary.id && reason != ""
    ensures var t, asked := p.taskId, Play(w, Sends(who, pause.id, pause.ids));
      && asked.Some? && Play(asked.value, Looks(who)) == asked
      && var stopped := Play(asked.value, Elsewhere(Signalled(boundary.id, boundary.ids, SafeBoundary(t, reason))));
         && stopped.Some?
         && var s := stopped.value.sys.mem;
            && Rewritten(w.sys, stopped.value.sys, t, pause.id, boundary.id) && t in s.tasks
            && Reachable(stopped.value.sys)
            && s.tasks[t] == w.sys.mem.tasks[t].(state := Paused, activeRunId := None)
            && Play(stopped.value, Looks(who))
               == Some(stopped.value.(calls := w.calls[who := Revising(p, s.tasks[t])]))
  {
    hide Reachable, Handle, Handled, Unused, Play, Rewrites, Rewritten;
    var t := p.taskId;
    var task := w.sys.mem.tasks[t];
    var pausing, stopping := RequestPause(t, task.revision), SafeBoundary(t, reason);
    PauseGoes(w.sys, pause, t);
    SendGoes(w, who, pause, pausing);
    HandledReaches(w.sys, pause.id, pause.ids, pausing);
    var asked := Play(w, Sends(who, pause.id, pause.ids)).value;
    StaysUnused(w.sys, asked.sys, t, task.(state := PauseWanted), pause.id, boundary);
    RewritesRecord(w.sys, asked.sys, t, task.(state := PauseWanted), pause.id);
    LookPlays(asked, who);
    assert asked.calls[who := Polling(p)] == asked.calls;
    WantedStops(asked, who, p, boundary, reason);
    var stopped := Play(asked, Elsewhere(Signalled(boundary.id, boundary.ids, stopping))).value;
    TwiceRewritten(w.sys, asked.sys, stopped.sys, t, task.(state := PauseWanted), pause.id, boundary.id);
    LookPlays(stopped, who);
    var revising := Revising(p, stopped.sys.mem.tasks[t]);
    assert w.calls[who := Polling(p)][who := revising] == w.calls[who := revising];
  }

  lemma WantedStops(w: World, who: Id, p: Proposal, boundary: Stamp, reason: string)
    requires Reachable(w.sys) && p.taskId in w.sys.mem.tasks && w.sys.mem.tasks[p.taskId].state == PauseWanted
    requires Unused(w.sys, boundary) && reason != ""
    ensures var t := p.taskId;
      var stopped := Play(w, Elsewhere(Signalled(boundary.id, boundary.ids, SafeBoundary(t, reason))));
      && stopped.Some? && stopped.value.calls == w.calls && Reachable(stopped.value.sys)
      && Rewrites(w.sys, stopped.value.sys, t, w.sys.mem.tasks[t].(state := Paused, activeRunId := None), boundary.id)
  {
    hide Reachable, Handle, Handled, Unused, Play, Rewrites;
    var stopping := SafeBoundary(p.taskId, reason);
    BoundaryGoes(w.sys, boundary, p.taskId, reason);
    ElsewhereGoes(w, boundary, stopping);
    HandledReaches(w.sys, boundary.id, boundary.ids, stopping);
  }

  lemma RewritesRecord(sys: Sys, sys': Sys, t: Id, task: Task, used: Id)
    requires Rewrites(sys, sys', t, task, used)
    ensures t in sys'.mem.tasks && sys'.mem.tasks[t] == task
  {
  }

  lemma TwiceRewritten(sys: Sys, sys1: Sys, sys2: Sys, t: Id, asked: Task, first: Id, second: Id)
    requires t in sys.mem.tasks && asked == sys.mem.tasks[t].(state := PauseWanted)
    requires Rewrites(sys, sys1, t, asked, first)
    requires Rewrites(sys1, sys2, t, asked.(state := Paused, activeRunId := None), second)
    ensures Rewritten(sys, sys2, t, first, second)
    ensures t in sys2.mem.tasks && sys2.mem.tasks[t] == sys.mem.tasks[t].(state := Paused, activeRunId := None)
  {
  }

  /** Only task `t` was written, under two command ids. */
  ghost predicate Rewritten(sys: Sys, sys': Sys, t: Id, first: Id, second: Id) {
    && t in sys'.mem.tasks && sys'.mem.tasks == sys.mem.tasks[t := sys'.mem.tasks[t]]
    && sys'.mem.runs.Keys == sys.mem.runs.Keys && sys'.mem.confirmations.Keys == sys.mem.confirmations.Keys
    && sys'.store.commands.Keys == sys.store.commands.Keys + {first, second}
  }

  /** The moves of a call that pauses the task first: `boundary` is where the coder stops. */
  function PausedMoves(who: Id, p: Proposal, pause: Stamp, boundary: Stamp, reason: string): seq<Move> {
    [Propose(who, p), Looks(who), Sends(who, pause.id, pause.ids), Looks(who),
     Elsewhere(Signalled(boundary.id, boundary.ids, SafeBoundary(p.taskId, reason))), Looks(who)]
  }

  /** A change proposed to a running task goes through as soon as the coder stops at a safe boundary. */
  lemma RunningProposalGoesThrough(moves: seq<Move>, who: Id, p: Proposal, pause: Stamp, boundary: Stamp,
                                   reason: string, revise: Stamp, resume: Stamp)
    returns (all: seq<Move>)
    requires PlayAll(moves).Some? && who !in PlayAll(moves).value.calls && reason != ""
    requires var w := PlayAll(moves).value;
      && p.taskId in w.sys.mem.tasks && w.sys.mem.tasks[p.taskId].state == Running
      && Unused(w.sys, pause) && Unused(w.sys, boundary) && Unused(w.sys, revise) && Unused(w.sys, resume)
    requires NoDuplicates([pause.id, boundary.id, revise.id, resume.id])
    ensures all == moves + PausedMoves(who, p, pause, boundary, reason)
                   + [Sends(who, revise.id, revise.ids), Sends(who, resume.id, resume.ids)]
    ensures PlayAll(all).Some? && Applied(PlayAll(moves).value, PlayAll(all).value, who, p, resume.ids.run)
  {
    hide PlayAll, Play, Reachable, Proposed, Unused, Rewritten;
    var w := PlayAll(moves).value;
    Distinct(pause.id, boundary.id, revise.id, resume.id);
    StopsFirst(moves, who, p, pause, boundary, reason);
    var stopped := moves + PausedMoves(who, p, pause, boundary, reason);
    var w1 := PlayAll(stopped).value;
    PlaysReach(stopped);
    RewrittenUnused(w.sys, w1.sys, p.taskId, pause.id, boundary.id, revise);
    RewrittenUnused(w.sys, w1.sys, p.taskId, pause.id, boundary.id, resume);
    RevisingGoesThrough(w1, who, p, revise, resume);
    PlayOneMore(stopped, Sends(who, revise.id, revise.ids));
    var revised := stopped + [Sends(who, revise.id, revise.ids)];
    PlayOneMore(revised, Sends(who, resume.id, resume.ids));
    all := stopped + [Sends(who, revise.id, revise.ids), Sends(who, resume.id, resume.ids)];
    assert all == revised + [Sends(who, resume.id, resume.ids)];
    AppliedLater(w, w1, PlayAll(all).value, who, p, resume.ids.run, pause.id, boundary.id);
  }

  lemma AppliedLater(w: World, w1: World, w2: World, who: Id, p: Proposal, run: Id, first: Id, second: Id)
    requires p.taskId in w.sys.mem.tasks && Rewritten(w.sys, w1.sys, p.taskId, first, second)
    requires w1.sys.mem.tasks[p.taskId] == w.sys.mem.tasks[p.taskId].(state := Paused, activeRunId := None)
    requires who in w1.calls && w1.calls == w.calls[who := w1.calls[who]] && Applied(w1, w2, who, p, run)
    ensures Applied(w, w2, who, p, run)
  {
    hide Proposed;
    var done := Replied(p, Accepted(p.taskId));
    assert w.calls[who := w1.calls[who]][who := done] == w.calls[who := done];
  }

  /** Up to the look that finds the task paused. */
  lemma StopsFirst(moves: seq<Move>, who: Id, p: Proposal, pause: Stamp, boundary: Stamp, reason: string)
    requires PlayAll(moves).Some? && who !in PlayAll(moves).value.calls && reason != ""
    requires var w := PlayAll(moves).value;
      && p.taskId in w.sys.mem.tasks && w.sys.mem.tasks[p.taskId].state == Running
      && Unused(w.sys, pause) && Unused(w.sys, boundary) && pause.id != boundary.id
    ensures var w, t, all := PlayAll(moves).value, p.taskId, moves + PausedMoves(who, p, pause, boundary, reason);
      && PlayAll(all).Some?
      && var w1 := PlayAll(all).value;
         && Rewritten(w.sys, w1.sys, t, pause.id, boundary.id) && t in w1.sys.mem.tasks
         && w1.sys.mem.tasks[t] == w.sys.mem.tasks[t].(state := Paused, activeRunId := None)
         && w1.calls == w.calls[who := Revising(p, w1.sys.mem.tasks[t])]
  {
    hide PlayAll, Play, Reachable, Unused, Rewritten;
    PlaysReach(moves);
    ProposeThenLook(moves, who, p);
    var w, t := PlayAll(moves).value, p.taskId;
    var m0 := moves + [Propose(who, p)] + [Looks(who)];
    var w0 := PlayAll(m0).value;
    PausingStops(w0, who, p, pause, boundary, reason);
    var m1 := m0 + [Sends(who, pause.id, pause.ids)];
    PlayOneMore(m0, Sends(who, pause.id, pause.ids));
    var m2 := m1 + [Looks(who)];
    PlayOneMore(m1, Looks(who));
    var stop := Elsewhere(Signalled(boundary.id, boundary.ids, SafeBoundary(t, reason)));
    var m3 := m2 + [stop];
    PlayOneMore(m2, stop);
    PlayOneMore(m3, Looks(who));
    assert moves + PausedMoves(who, p, pause, boundary, reason) == m3 + [Looks(who)];
    var revising := Revising(p, PlayAll(m3).value.sys.mem.tasks[t]);
    assert w.calls[who := Pausing(p, w.sys.mem.tasks[t])][who := revising] == w.calls[who := revising];
  }

  lemma Distinct(a: Id, b: Id, c: Id, d: Id)
    requires NoDuplicates([a, b, c, d])
    ensures a != b && a != c && a != d && b != c && b != d && c != d
  {
    var s := [a, b, c, d];
    assert s[0] != s[1] && s[0] != s[2] && s[0] != s[3] && s[1] != s[2] && s[1] != s[3] && s[2] != s[3];
  }

  lemma RewrittenUnused(sys: Sys, sys': Sys, t: Id, first: Id, second: Id, stamp: Stamp)
    requires t in sys.mem.tasks && Rewritten(sys, sys', t, first, second)
    requires Unused(sys, stamp) && stamp.id != first && stamp.id != second
    ensures Unused(sys', stamp)
  {
  }

  // ------------------------------------------------------------------- what else a look decides

  /** What a look makes of a call, for every state of its task. A call that has just begun is refused at
      once when its task is unknown, queued or finished, and revises a task that is paused or waiting for the
      user; one that waits keeps waiting until its task is paused, finished or gone. */
  function AfterLook(c: Call, s: State): Call {
    var t := c.p.taskId;
    match c
    case Begun(p) =>
      if t !in s.tasks then Replied(p, Rejected(TaskNotFound))
      else (match s.tasks[t].state
            case Queued => Replied(p, Rejected(InvalidState))
            case Running => Pausing(p, s.tasks[t])
            case PauseWanted => Polling(p)
            case Paused => Revising(p, s.tasks[t])
            case Awaiting => Revising(p, s.tasks[t])
            case Completed => Replied(p, Rejected(InvalidState))
            case Failed => Replied(p, Rejected(InvalidState))
            case Cancelled => Replied(p, Rejected(InvalidState)))
    case Polling(p) =>
      if t !in s.tasks then Aborted(p)
      else (match s.tasks[t].state
            case Queued => Polling(p)
            case Running => Polling(p)
            case PauseWanted => Polling(p)
            case Paused => Revising(p, s.tasks[t])
            case Awaiting => Polling(p)
            case Completed => Replied(p, Rejected(InvalidState))
            case Failed => Replied(p, Rejected(InvalidState))
            case Cancelled => Replied(p, Rejected(InvalidState)))
    case Resuming(p) => if t in s.tasks then c else Aborted(p)
    case _ => c
  }

  lemma LookAnswers(w: World, who: Id)
    requires who in w.calls
    ensures Play(w, Looks(who)) == Some(w.(calls := w.calls[who := AfterLook(w.calls[who], w.sys.mem)]))
  {
    hide Play;
    LookPlays(w, who);
  }

  // -------------------------------------------------------------------- a reply is earned

  /** The proposal's revision has been accepted. */
  predicate Credited(w: World, c: Call) {
    c.p.taskId in w.accepted && c.p in w.accepted[c.p.taskId]
  }

  /** Such a call's revision has been accepted. */
  predicate Past(c: Call) {
    c.Resuming? || (c.Replied? && c.result.Accepted?)
  }

  ghost predicate RepliesOk(w: World) {
    && (forall who :: who in w.calls && Past(w.calls[who]) ==> Credited(w, w.calls[who]))
    && (forall t, i :: t in w.accepted && 0 <= i < |w.accepted[t]| ==> HasCall(w, t, w.accepted[t][i]))
  }

  ghost predicate HasCall(w: World, t: Id, p: Proposal) {
    p.taskId == t && exists who :: who in w.calls && w.calls[who].p == p
  }

  lemma NotedKeepsReplies(w: World, sys: Sys)
    requires RepliesOk(w) && (forall t :: t in w.accepted ==> t in sys.mem.tasks)
    ensures RepliesOk(Noted(w, sys)) && Noted(w, sys).calls == w.calls
  {
    var after := Noted(w, sys);
    forall t, i | t in after.accepted && 0 <= i < |after.accepted[t]|
      ensures HasCall(after, t, after.accepted[t][i])
    {
      assert t in w.accepted && HasCall(w, t, w.accepted[t][i]);
    }
  }

  lemma CallChangeKeepsReplies(w: World, who: Id, c: Call)
    requires RepliesOk(w) && (who in w.calls ==> w.calls[who].p == c.p) && (Past(c) ==> Credited(w, c))
    ensures RepliesOk(w.(calls := w.calls[who := c]))
  {
    hide Past;
    var after := w.(calls := w.calls[who := c]);
    forall t, i | t in w.accepted && 0 <= i < |w.accepted[t]|
      ensures HasCall(after, t, w.accepted[t][i])
    {
      assert HasCall(w, t, w.accepted[t][i]);
      var other :| other in w.calls && w.calls[other].p == w.accepted[t][i];
      assert other in after.calls && after.calls[other].p == w.accepted[t][i];
    }
  }

  lemma CreditKeepsReplies(w: World, who: Id, c: Call, result: ActionResult)
    requires RepliesOk(w) && who in w.calls && w.calls[who].p == c.p
    ensures RepliesOk(Credit(w, c, result))
  {
    var after, t := Credit(w, c, result), c.p.taskId;
    forall u, i | u in after.accepted && 0 <= i < |after.accepted[u]|
      ensures HasCall(after, u, after.accepted[u][i])
    {
      if u in w.accepted && i < |w.accepted[u]| { assert HasCall(w, u, w.accepted[u][i]); }
    }
  }

  /** Over every run: a call that has replied with an acceptance had its change accepted, and every accepted
      change of a task was proposed for it by a call. */
  lemma {:induction false} ReplyIsEarned(moves: seq<Move>)
    requires PlayAll(moves).Some?
    ensures RepliesOk(PlayAll(moves).value)
  {
    hide Play, RepliesOk, WorldOk, Reachable;
    if moves == [] {
      NothingReplied();
    } else {
      var before := PlayAll(moves[..|moves| - 1]).value;
      ReplyIsEarned(moves[..|moves| - 1]);
      PlaysReach(moves[..|moves| - 1]);
      PlaysAreOk(moves[..|moves| - 1]);
      MoveKeepsReplies(before, moves[|moves| - 1]);
    }
  }

  lemma NothingReplied()
    ensures RepliesOk(START)
  {
  }

  lemma MoveKeepsReplies(w: World, move: Move)
    requires WorldOk(w) && Reachable(w.sys) && RepliesOk(w) && Play(w, move).Some?
    ensures RepliesOk(Play(w, move).value)
  {
    hide WorldOk, Reachable, RepliesOk, Noted, Handle, Fresh, Issues, Look, Continue, Past, Credited;
    KeysAgree(w);
    match move
    case Elsewhere(step) =>
      TasksStay(w.sys, step);
      NotedKeepsReplies(w, Controller.Perform(w.sys, step).value);
    case Propose(who, p) => NewCall(p, w); CallChangeKeepsReplies(w, who, Begun(p));
    case Looks(who) =>
      LookEarns(w, who);
      CallChangeKeepsReplies(w, who, Look(w.calls[who], w.sys.mem));
    case Sends(who, id, ids) => SendEarns(w, who, id, ids);
    case GivesUp(who) => NewCall(w.calls[who].p, w); CallChangeKeepsReplies(w, who, Aborted(w.calls[who].p));
  }

  lemma KeysAgree(w: World)
    requires WorldOk(w)
    ensures w.accepted.Keys == w.sys.mem.tasks.Keys
  {
    hide SysOk, LedgerOk, CallOk;
  }

  lemma NewCall(p: Proposal, w: World)
    ensures !Past(Begun(p)) && !Past(Aborted(p))
  {
  }

  lemma TasksStay(sys: Sys, step: Step)
    requires Reachable(sys) && Controller.Perform(sys, step).Some?
    ensures forall t :: t in sys.mem.tasks ==> t in Controller.Perform(sys, step).value.mem.tasks
  {
    hide Reachable, Controller.Perform;
    forall t | t in sys.mem.tasks
      ensures t in Controller.Perform(sys, step).value.mem.tasks
    {
      TaskHistory.StepEvolves(sys, step, t);
    }
  }

  lemma LookEarns(w: World, who: Id)
    requires RepliesOk(w) && who in w.calls
    ensures var c := Look(w.calls[who], w.sys.mem); c.p == w.calls[who].p && (Past(c) ==> Credited(w, c))
  {
    hide Credited;
  }

  lemma SendEarns(w: World, who: Id, id: Id, ids: FreshIds)
    requires WorldOk(w) && Reachable(w.sys) && RepliesOk(w) && Play(w, Sends(who, id, ids)).Some?
    ensures RepliesOk(Play(w, Sends(who, id, ids)).value)
  {
    hide WorldOk, Reachable, RepliesOk, Noted, Handle, Fresh, Issues, Continue, Past, Credited, Credit;
    KeysAgree(w);
    var c := w.calls[who];
    var sig := Issues(c, w.sys.mem).value;
    var out := Handle(w.sys, id, ids, sig);
    TasksStay(w.sys, Signalled(id, ids, sig));
    SenderHasTask(w, who);
    NotedKeepsReplies(w, out.sys);
    CreditKeepsReplies(Noted(w, out.sys), who, c, out.result);
    ContinueEarns(w, who, out.sys, out.result);
    CallChangeKeepsReplies(Credit(Noted(w, out.sys), c, out.result), who, Continue(c, out.result));
  }

  lemma SenderHasTask(w: World, who: Id)
    requires WorldOk(w) && who in w.calls && Issues(w.calls[who], w.sys.mem).Some?
    ensures w.calls[who].p.taskId in w.sys.mem.tasks
  {
    hide SysOk, LedgerOk;
    assert CallOk(w.calls[who], w.sys.mem);
  }

  lemma ContinueEarns(w: World, who: Id, sys: Sys, result: ActionResult)
    requires RepliesOk(w) && who in w.calls && Issues(w.calls[who], w.sys.mem).Some?
    requires forall t :: t in w.accepted ==> t in sys.mem.tasks
    requires w.calls[who].p.taskId in sys.mem.tasks
    ensures var c := w.calls[who]; var next := Continue(c, result); var after := Credit(Noted(w, sys), c, result);
      && next.p == c.p && after.calls == w.calls
      && (Past(next) ==> Credited(after, next))
  {
    var c := w.calls[who];
    assert Past(c) ==> Credited(w, c);
  }
}

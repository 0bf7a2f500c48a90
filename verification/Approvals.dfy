/** One approval, one execution (packages/core/src/controller.ts, authorizeToolCall and
    #resolveApproval): the log of every confirmation is one of four lifecycles. */
module Approvals {
  import opened Protocol
  import opened Domain
  import opened Evidence
  import opened Decisions
  import opened Invariants
  import opened Progress
  import opened Controller
  import opened Outcomes

  predicate Concerns(e: Event, c: Id) {
    TouchesApprovals(e) && e.confirmationId == c
  }

  /** The events of the log that concern one confirmation, in order. */
  function ApprovalLog(log: seq<Event>, c: Id): seq<Event> {
    if log == [] then []
    else
      var n := |log| - 1;
      ApprovalLog(log[..n], c) + if Concerns(log[n], c) then [log[n]] else []
  }

  /** What the log must contain about a confirmation, given its state. */
  function Lifecycle(c: Id, record: Confirmation): seq<Event> {
    var requested := ApprovalRequested(record.taskId, c, record.taskRevision, record.fingerprint);
    var granted := ApprovalResolved(record.taskId, c, record.taskRevision, true);
    match record.state
    case Pending => [requested]
    case Approved => [requested, granted]
    case Declined => [requested, ApprovalResolved(record.taskId, c, record.taskRevision, false)]
    case Consumed =>
      [requested, granted, ApprovalConsumed(record.taskId, c, record.taskRevision, record.fingerprint)]
  }

  function Expected(s: State, c: Id): seq<Event> {
    if c in s.confirmations then Lifecycle(c, s.confirmations[c]) else []
  }

  ghost predicate LogsMatch(log: seq<Event>, s: State) {
    forall c :: ApprovalLog(log, c) == Expected(s, c)
  }

  lemma ApprovalStep(s: State, e: Event, c: Id)
    requires Legal(s, e) && Guard(s, e)
    ensures Expected(Next(s, e), c) == Expected(s, c) + if Concerns(e, c) then [e] else []
  {
    if Concerns(e, c) {
      OwnApprovalStep(s, e);
    } else {
      hide Legal, Guard, Next, Lifecycle;
      ShapeOfConfirmations(s, e);
    }
  }

  lemma OwnApprovalStep(s: State, e: Event)
    requires Legal(s, e) && Guard(s, e) && TouchesApprovals(e)
    ensures Expected(Next(s, e), e.confirmationId) == Expected(s, e.confirmationId) + [e]
  {
    hide NoPending, NoOpen, InsertAt, Without, Supersede, OpenQuestions, NewTask, RevisedTask;
  }

  lemma {:induction false} ApprovalSteps(log: seq<Event>, s: State, events: seq<Event>)
    requires Inv(s) && LegalAll(s, events) && LogsMatch(log, s)
    ensures LogsMatch(log + events, After(s, events))
    decreases |events|
  {
    hide Inv, Legal, Guard, Next, Expected, Concerns;
    if events == [] {
      assert log + events == log;
    } else {
      var e := events[0];
      LegalApplies(s, e);
      forall c ensures ApprovalLog(log + [e], c) == Expected(Next(s, e), c) {
        ApprovalStep(s, e, c);
        assert (log + [e])[..|log|] == log;
      }
      ApprovalSteps(log + [e], Next(s, e), events[1..]);
      assert log + events == log + [e] + events[1..];
    }
  }

  lemma StepKeepsLogs(sys: Sys, step: Step)
    requires SysOk(sys) && LogsMatch(sys.store.log, sys.mem) && Perform(sys, step).Some?
    ensures LogsMatch(Perform(sys, step).value.store.log, Perform(sys, step).value.mem)
  {
    hide Inv, Settled, Justified, LogsMatch, Decide, Fresh, RefusedUnrecorded, ApplyAll;
    match step
    case Signalled(id, ids, sig) =>
      if RefusedUnrecorded(sys.mem, sig) {
        RefusalKeeps(sys, id, ids, sig);
      } else if id in sys.store.commands {
        RepeatedCommand(sys, id, ids, sig);
      } else {
        DecisionApplies(sys.mem, sys.rows, id, ids, sig);
        ApprovalSteps(sys.store.log, sys.mem, Decide(sys.mem, sys.rows, id, ids, sig).events);
      }
    case Recorded(_) =>
    case Restarted => ReplayRestoresMemory(sys);
  }

  /** In every run, what the log says about a confirmation is exactly the lifecycle of its
      state: requested, then at most one verdict, then, only after a grant, at most one use. */
  lemma {:induction false} LifecyclesAreExact(steps: seq<Step>)
    requires Execute(steps).Some?
    ensures LogsMatch(Execute(steps).value.store.log, Execute(steps).value.mem)
  {
    hide Perform, Expected;
    if steps == [] {
      assert LogsMatch([], EMPTY) by { EmptyMatches(); }
    } else {
      var n := |steps| - 1;
      LifecyclesAreExact(steps[..n]);
      RunsAreOk(steps[..n]);
      StepKeepsLogs(Execute(steps[..n]).value, steps[n]);
    }
  }

  lemma EmptyMatches()
    ensures LogsMatch([], EMPTY)
  {
  }

  // --------------------------------------------------------- positions in the log

  lemma {:induction false} ApprovalLogPrefix(log: seq<Event>, n: nat, c: Id)
    requires n <= |log|
    ensures ApprovalLog(log[..n], c) <= ApprovalLog(log, c)
    decreases |log|
  {
    if n == |log| {
      assert log[..n] == log;
    } else {
      var m := |log| - 1;
      assert log[..m][..n] == log[..n];
      ApprovalLogPrefix(log[..m], n, c);
    }
  }

  /** How many events about c come before position i. */
  function Rank(log: seq<Event>, c: Id, i: nat): nat
    requires i <= |log|
  {
    |ApprovalLog(log[..i], c)|
  }

  lemma RankOf(log: seq<Event>, c: Id, i: nat)
    requires i < |log| && Concerns(log[i], c)
    ensures Rank(log, c, i) < |ApprovalLog(log, c)| && ApprovalLog(log, c)[Rank(log, c, i)] == log[i]
    ensures Rank(log, c, i + 1) == Rank(log, c, i) + 1
  {
    assert log[..i + 1][..i] == log[..i] && log[..i + 1][i] == log[i];
    ApprovalLogPrefix(log, i + 1, c);
  }

  lemma RankMonotone(log: seq<Event>, c: Id, i: nat, j: nat)
    requires i <= j <= |log|
    ensures Rank(log, c, i) <= Rank(log, c, j)
  {
    assert log[..j][..i] == log[..i];
    ApprovalLogPrefix(log[..j], i, c);
  }

  /** Every earlier entry of the lifecycle stands at some earlier position of the log. */
  lemma {:induction false} EarlierPosition(log: seq<Event>, c: Id, i: nat, r: nat) returns (j: nat)
    requires i <= |log| && r < Rank(log, c, i)
    ensures r < |ApprovalLog(log, c)|
    ensures j < i && log[j] == ApprovalLog(log, c)[r] && Rank(log, c, j) == r && Concerns(log[j], c)
    decreases i
  {
    var n := i - 1;
    assert log[..i][..n] == log[..n] && log[..i][n] == log[n];
    if r < Rank(log, c, n) {
      j := EarlierPosition(log, c, n, r);
    } else {
      j := n;
      RankOf(log, c, n);
    }
  }

  /** One approval, one execution. Every use in the log is preceded by the one grant of the same
      confirmation and its one request, all for the same task, revision and effect; no other
      event uses or grants that confirmation. */
  lemma EveryUseHasItsOwnGrant(sys: Sys, i: nat)
    returns (asked: nat, granted: nat)
    requires Reachable(sys) && i < |sys.store.log| && sys.store.log[i].ApprovalConsumed?
    ensures var log := sys.store.log; var use := log[i];
            && asked < granted < i
            && log[asked] == ApprovalRequested(use.taskId, use.confirmationId, use.revision, use.fingerprint)
            && log[granted] == ApprovalResolved(use.taskId, use.confirmationId, use.revision, true)
            && (forall j :: 0 <= j < |log| && j != i && log[j].ApprovalConsumed? ==>
                  log[j].confirmationId != use.confirmationId)
            && (forall j :: 0 <= j < |log| && j != granted && log[j].ApprovalResolved? ==>
                  log[j].confirmationId != use.confirmationId)
  {
    hide Execute, SysOk, ApprovalLog, Expected, Concerns;
    var steps :| Execute(steps) == Some(sys);
    LifecyclesAreExact(steps);
    var log := sys.store.log;
    UsedLifecycle(log, sys.mem, i);
    asked, granted := UsePositions(log, i);
  }

  /** The log of a confirmation that has been used. */
  ghost predicate FullLife(log: seq<Event>, use: Event)
    requires use.ApprovalConsumed?
  {
    ApprovalLog(log, use.confirmationId)
    == [ApprovalRequested(use.taskId, use.confirmationId, use.revision, use.fingerprint),
        ApprovalResolved(use.taskId, use.confirmationId, use.revision, true), use]
  }

  lemma UsedLifecycle(log: seq<Event>, s: State, i: nat)
    requires LogsMatch(log, s) && i < |log| && log[i].ApprovalConsumed?
    ensures FullLife(log, log[i])
  {
    hide ApprovalLog;
    var c := log[i].confirmationId;
    assert ApprovalLog(log, c) == Expected(s, c);
    RankOf(log, c, i);
  }

  lemma UsePositions(log: seq<Event>, i: nat) returns (asked: nat, granted: nat)
    requires i < |log| && log[i].ApprovalConsumed? && FullLife(log, log[i])
    ensures var use := log[i];
            && asked < granted < i
            && log[asked] == ApprovalRequested(use.taskId, use.confirmationId, use.revision, use.fingerprint)
            && log[granted] == ApprovalResolved(use.taskId, use.confirmationId, use.revision, true)
            && (forall j :: 0 <= j < |log| && j != i && log[j].ApprovalConsumed? ==>
                  log[j].confirmationId != use.confirmationId)
            && (forall j :: 0 <= j < |log| && j != granted && log[j].ApprovalResolved? ==>
                  log[j].confirmationId != use.confirmationId)
  {
    hide ApprovalLog;
    var c := log[i].confirmationId;
    RankOf(log, c, i);
    asked := EarlierPosition(log, c, i, 0);
    granted := EarlierPosition(log, c, i, 1);
    if granted <= asked { RankMonotone(log, c, granted, asked); }
    forall j | 0 <= j < |log| && Concerns(log[j], c)
      ensures log[j].ApprovalConsumed? ==> j == i
      ensures log[j].ApprovalResolved? ==> j == granted {
      RankOf(log, c, j);
      SameRank(log, c, i, j);
      SameRank(log, c, granted, j);
    }
  }

  lemma SameRank(log: seq<Event>, c: Id, i: nat, j: nat)
    requires i < |log| && j < |log| && Concerns(log[i], c) && Concerns(log[j], c)
    ensures Rank(log, c, i) == Rank(log, c, j) ==> i == j
  {
    RankOf(log, c, i);
    RankOf(log, c, j);
    if i < j { RankMonotone(log, c, i + 1, j); }
    if j < i { RankMonotone(log, c, j + 1, i); }
  }

  // ------------------------------------------------------------------ counting

  /** The positions of the uses of approvals for one task, revision and effect. */
  ghost function Uses(log: seq<Event>, t: Id, revision: nat, fingerprint: string): set<nat> {
    set i: nat | i < |log| && log[i].ApprovalConsumed? && log[i].taskId == t && log[i].revision == revision
                 && log[i].fingerprint == fingerprint
  }

  /** The positions at which the user granted one that was requested for them. */
  ghost function Grants(log: seq<Event>, t: Id, revision: nat, fingerprint: string): set<nat> {
    set j: nat | j < |log| && Grant(log, j, t, revision, fingerprint)
  }

  ghost predicate Grant(log: seq<Event>, j: nat, t: Id, revision: nat, fingerprint: string)
    requires j < |log|
  {
    && log[j].ApprovalResolved? && log[j].approve && log[j].taskId == t && log[j].revision == revision
    && ApprovalRequested(t, log[j].confirmationId, revision, fingerprint) in log[..j]
  }

  ghost predicate SameConfirmation(log: seq<Event>, i: nat, j: nat) {
    i < |log| && j < |log| && log[i].ApprovalConsumed? && log[j].ApprovalResolved?
    && log[i].confirmationId == log[j].confirmationId
  }

  lemma {:induction false} InjectionBounds(a: set<nat>, b: set<nat>, f: map<nat, nat>)
    requires f.Keys == a && forall i :: i in a ==> f[i] in b
    requires forall i, j :: i in a && j in a && f[i] == f[j] ==> i == j
    ensures |a| <= |b|
  {
    if a != {} {
      var i :| i in a;
      InjectionBounds(a - {i}, b - {f[i]}, f - {i});
    }
  }

  /** Over any run, and so over every prefix of its log, an effect has been let through on approval
      at most as often as the user granted it. */
  lemma UsesNeverExceedGrants(sys: Sys, t: Id, revision: nat, fingerprint: string)
    requires Reachable(sys)
    ensures |Uses(sys.store.log, t, revision, fingerprint)| <= |Grants(sys.store.log, t, revision, fingerprint)|
  {
    hide Reachable;
    var log := sys.store.log;
    var uses, grants := Uses(log, t, revision, fingerprint), Grants(log, t, revision, fingerprint);
    forall i | i in uses
      ensures exists j :: j in grants && SameConfirmation(log, i, j)
      ensures forall k :: k in uses && k != i ==> log[k].confirmationId != log[i].confirmationId
    {
      var asked, granted := EveryUseHasItsOwnGrant(sys, i);
      assert log[..granted][asked] == log[asked];
      assert granted in grants && SameConfirmation(log, i, granted);
    }
    var f := map i | i in uses :: (var j :| j in grants && SameConfirmation(log, i, j); j);
    InjectionBounds(uses, grants, f);
  }

  // ------------------------------------------------------------- the gate itself

  lemma AcceptedCallDecides(s: State, rows: seq<Artifact>, id: Id, ids: FreshIds, t: Id, fingerprint: string,
                            labels: Labels)
    returns (c: Id)
    requires t in s.tasks
    requires Decide(s, rows, id, ids, Authorize(t, VisualApprovalTier, fingerprint, labels)).result.Accepted?
    ensures Decide(s, rows, id, ids, Authorize(t, VisualApprovalTier, fingerprint, labels)).events
         == [PolicyDecisionRecorded(t, Automatic, fingerprint, labels),
             ApprovalConsumed(t, c, s.tasks[t].revision, fingerprint)]
  {
    hide FindConfirmation, Matches;
    c := FindConfirmation(s, t, s.tasks[t].revision, fingerprint, Approved).value;
  }

  /** A call of the approval tier that is accepted under a new id appends exactly one use, of a grant
      that the user gave earlier for exactly this task, revision and effect, and that no other use in the
      log has. */
  lemma AcceptedCallConsumes(sys: Sys, id: Id, ids: FreshIds, t: Id, fingerprint: string, labels: Labels)
    returns (granted: nat)
    requires Handled(sys, id, ids, Authorize(t, VisualApprovalTier, fingerprint, labels))
    requires Handle(sys, id, ids, Authorize(t, VisualApprovalTier, fingerprint, labels)).result.Accepted?
    ensures t in sys.mem.tasks && granted < |sys.store.log|
    ensures var log, revision := sys.store.log, sys.mem.tasks[t].revision;
            var log' := Handle(sys, id, ids, Authorize(t, VisualApprovalTier, fingerprint, labels)).sys.store.log;
            && log[granted].ApprovalResolved?
            && var c := log[granted].confirmationId;
               && log[granted] == ApprovalResolved(t, c, revision, true)
               && log' == log + [PolicyDecisionRecorded(t, Automatic, fingerprint, labels),
                                 ApprovalConsumed(t, c, revision, fingerprint)]
               && (forall j :: 0 <= j < |log'| && log'[j].ApprovalConsumed? && log'[j].confirmationId == c ==>
                     j == |log| + 1)
  {
    hide Reachable, Fresh, Decide, ApplyAll, Inv, Settled;
    var sig := Authorize(t, VisualApprovalTier, fingerprint, labels);
    HandledFacts(sys, id, ids, sig);
    HandledReaches(sys, id, ids, sig);
    var c := AcceptedCallDecides(sys.mem, sys.rows, id, ids, t, fingerprint, labels);
    var out := Handle(sys, id, ids, sig).sys;
    var i := |sys.store.log| + 1;
    assert out.store.log[i] == ApprovalConsumed(t, c, sys.mem.tasks[t].revision, fingerprint);
    var asked;
    asked, granted := EveryUseHasItsOwnGrant(out, i);
    assert granted < |sys.store.log|;
  }

  /** At most one confirmation is pending or approved per task, revision and effect. */
  lemma AtMostOneLive(sys: Sys, c: Id, d: Id)
    requires Reachable(sys) && c in sys.mem.confirmations && d in sys.mem.confirmations
    requires Live(sys.mem.confirmations[c]) && Live(sys.mem.confirmations[d])
    requires sys.mem.confirmations[c].(state := Pending) == sys.mem.confirmations[d].(state := Pending)
    ensures c == d
  {
    hide Reachable, Justified, TasksOk, RunsOk, QuestionsOk, QueueChecks, SlotChecks, Settled;
    ReachableIsOk(sys);
    assert Collide(sys.mem.confirmations[c], sys.mem.confirmations[d]);
  }

  /** A running task never meets the branch that finds a confirmation already pending: a call
      that needs one always asks anew. */
  lemma PendingBranchIsUnreachable(sys: Sys, id: Id, ids: FreshIds, t: Id, tier: PolicyTier,
                                   fingerprint: string, labels: Labels)
    requires Reachable(sys) && t in sys.mem.tasks
    ensures sys.mem.tasks[t].state == Running ==>
              FindConfirmation(sys.mem, t, sys.mem.tasks[t].revision, fingerprint, Pending).None?
    ensures var d := Decide(sys.mem, sys.rows, id, ids, Authorize(t, tier, fingerprint, labels));
            d.result.ConfirmationRequired? ==> d.result.confirmationId == ids.confirmation && d.events != []
  {
    hide Reachable, Justified, Inv, Settled, NoPending;
    ReachableIsOk(sys);
    if sys.mem.tasks[t].state == Running {
      RunningIsClear(sys.mem, t);
      NoneFound(sys.mem, t, fingerprint);
    }
  }

  lemma NoneFound(s: State, t: Id, fingerprint: string)
    requires t in s.tasks && NoPending(s, t)
    ensures FindConfirmation(s, t, s.tasks[t].revision, fingerprint, Pending).None?
  {
    var pending := FindConfirmation(s, t, s.tasks[t].revision, fingerprint, Pending);
    assert pending.Some? ==> IsPending(s, pending.value);
  }
}

/** The persisted evidence table, the completion gate over it
    (packages/core/src/artifact-store.ts) and the facts projected from it
    (packages/core/src/fact-projector.ts). */
module Evidence {
  import opened Protocol
  import opened Domain

  datatype Kind = ToolResult | FileChange | Verification

  datatype Artifact = Artifact(
    ordinal: nat, id: Id, taskId: Id, runId: Id, kind: Kind, successful: bool, changedFiles: seq<string>)

  /** Rows as the autoincrement ordinal and the unique id column keep them. */
  ghost predicate ValidTable(rows: seq<Artifact>) {
    && (forall i :: 0 <= i < |rows| ==> rows[i].ordinal == i + 1)
    && (forall i, j :: 0 <= i < j < |rows| ==> rows[i].id != rows[j].id)
  }

  function Filter<T(!new)>(s: seq<T>, p: T -> bool): (r: seq<T>)
    ensures forall x :: x in r <==> x in s && p(x)
    ensures |r| <= |s|
  {
    if s == [] then []
    else
      assert s == [s[0]] + s[1..];
      if p(s[0]) then [s[0]] + Filter(s[1..], p) else Filter(s[1..], p)
  }

  /** First occurrences, in order: the elements of a JavaScript Set built from s. */
  function Dedupe<T(==,!new)>(s: seq<T>): (r: seq<T>)
    ensures NoDuplicates(r)
    ensures forall x :: x in r <==> x in s
  {
    if s == [] then []
    else
      var n := |s| - 1;
      assert s == s[..n] + [s[n]];
      var rest := Dedupe(s[..n]);
      if s[n] in rest then rest else rest + [s[n]]
  }

  // ---------------------------------------------------------------- recording

  datatype ToolOutcome = ToolOutcome(
    taskId: Id, runId: Id, toolName: string, lspMutation: bool, declaredPaths: seq<string>,
    verifies: bool, isError: bool, attributed: Option<seq<string>>)

  function ChangedFiles(o: ToolOutcome): seq<string> {
    if o.attributed.Some? then Dedupe(Filter(o.attributed.value, (p: string) => p != ""))
    else if o.toolName in {"edit", "write", "ast_edit"} || o.lspMutation then o.declaredPaths
    else []
  }

  function EvidenceKind(o: ToolOutcome): Kind {
    if ChangedFiles(o) != [] then FileChange
    else if o.toolName == "bash" && o.verifies then Verification
    else ToolResult
  }

  /** `paths` names `x` before it first names `y`. */
  ghost predicate NamedBefore(paths: seq<string>, x: string, y: string) {
    exists k :: 0 <= k < |paths| && paths[k] == x && y !in paths[..k]
  }

  ghost predicate InOrderOf(files: seq<string>, paths: seq<string>) {
    forall i, j :: 0 <= i < j < |files| ==> NamedBefore(paths, files[i], files[j])
  }

  /** Lists each path once, in the order in which `paths` first names it. */
  ghost predicate ListsOnce(files: seq<string>, paths: seq<string>) {
    && NoDuplicates(files)
    && (forall f :: f in files <==> f in paths && f != "")
    && InOrderOf(files, paths)
  }

  predicate WritingTool(o: ToolOutcome) {
    o.toolName == "edit" || o.toolName == "write" || o.toolName == "ast_edit" || o.lspMutation
  }

  /** The row says what the tool did: which files it changed, that it changed files, that it was a command
      that verifies and changed none, or neither; and whether it succeeded. */
  ghost predicate Reports(row: Artifact, o: ToolOutcome) {
    && row.taskId == o.taskId && row.runId == o.runId && (row.successful <==> !o.isError)
    && (o.attributed.Some? ==> ListsOnce(row.changedFiles, o.attributed.value))
    && (o.attributed.None? && WritingTool(o) ==> row.changedFiles == o.declaredPaths)
    && (o.attributed.None? && !WritingTool(o) ==> row.changedFiles == [])
    && (row.kind == FileChange <==> row.changedFiles != [])
    && (row.kind == Verification <==> row.changedFiles == [] && o.toolName == "bash" && o.verifies)
  }

  lemma RowReports(o: ToolOutcome, ordinal: nat, id: Id)
    ensures Reports(Artifact(ordinal, id, o.taskId, o.runId, EvidenceKind(o), !o.isError, ChangedFiles(o)), o)
  {
    hide Dedupe, Filter, ListsOnce;
    if o.attributed.Some? { AttributedOnce(o.attributed.value); }
  }

  lemma AttributedOnce(paths: seq<string>)
    ensures ListsOnce(Dedupe(Filter(paths, (p: string) => p != "")), paths)
  {
    hide Dedupe, Filter;
    var kept := Filter(paths, (p: string) => p != "");
    DedupeOrder(kept);
    FilterOrder(paths, kept, Dedupe(kept));
  }

  lemma {:induction false} DedupeOrder(s: seq<string>)
    ensures InOrderOf(Dedupe(s), s)
  {
    if s != [] {
      var n := |s| - 1;
      DedupeOrder(s[..n]);
      var r, rest := Dedupe(s), Dedupe(s[..n]);
      forall i, j | 0 <= i < j < |r|
        ensures NamedBefore(s, r[i], r[j])
      {
        if j < |rest| {
          assert NamedBefore(s[..n], rest[i], rest[j]);
          var k :| 0 <= k < |s[..n]| && s[..n][k] == rest[i] && rest[j] !in s[..n][..k];
          assert s[..n][..k] == s[..k];
        } else {
          assert r[i] == rest[i] && rest[i] in s[..n];
          var k :| 0 <= k < n && s[k] == r[i];
          assert forall x :: x in s[..k] ==> x in s[..n];
        }
      }
    }
  }

  /** The order of first occurrences in the kept paths is that in all paths. */
  lemma FilterOrder(paths: seq<string>, kept: seq<string>, files: seq<string>)
    requires kept == Filter(paths, (p: string) => p != "")
    requires InOrderOf(files, kept) && forall f :: f in files ==> f in kept
    ensures InOrderOf(files, paths)
  {
    hide Filter;
    forall i, j | 0 <= i < j < |files|
      ensures NamedBefore(paths, files[i], files[j])
    {
      assert NamedBefore(kept, files[i], files[j]);
      var k :| 0 <= k < |kept| && kept[k] == files[i] && files[j] !in kept[..k];
      assert files[j] in files && files[j] in kept;
      var m := PlaceOf(paths, kept, k, files[j]);
    }
  }

  lemma {:induction false} PlaceOf(paths: seq<string>, kept: seq<string>, k: nat, other: string) returns (m: nat)
    requires kept == Filter(paths, (p: string) => p != "") && k < |kept| && other !in kept[..k] && other != ""
    ensures m < |paths| && paths[m] == kept[k] && other !in paths[..m]
  {
    assert paths == [paths[0]] + paths[1..];
    if paths[0] != "" && k == 0 {
      m := 0;
    } else {
      var rest := Filter(paths[1..], (p: string) => p != "");
      var at := if paths[0] != "" then k - 1 else k;
      if paths[0] != "" {
        assert kept == [paths[0]] + rest;
        assert kept[0] in kept[..k];
        assert kept[..k] == [paths[0]] + rest[..at];
      }
      m := PlaceOf(paths[1..], rest, at, other);
      assert paths[..m + 1] == [paths[0]] + paths[1..][..m];
      m := m + 1;
    }
  }

  /** The table with its two operations that loop or insert. */
  class ArtifactStore {
    var rows: seq<Artifact>

    ghost predicate Valid()
      reads this
    {
      ValidTable(rows)
    }

    constructor ()
      ensures Valid() && rows == []
    {
      rows := [];
    }

    /** Inserts one row; `id` is the fresh UUID of the artifact. */
    method RecordToolEvidence(o: ToolOutcome, id: Id) returns (artifact: Artifact)
      requires Valid()
      requires forall i :: 0 <= i < |rows| ==> rows[i].id != id
      modifies this
      ensures Valid() && rows == old(rows) + [artifact]
      ensures artifact.id == id && Reports(artifact, o)
      ensures forall i :: 0 <= i < |old(rows)| ==> old(rows)[i].ordinal < artifact.ordinal
    {
      RowReports(o, |rows| + 1, id);
      artifact := Artifact(|rows| + 1, id, o.taskId, o.runId, EvidenceKind(o), !o.isError, ChangedFiles(o));
      rows := rows + [artifact];
    }

    method GetEvidence(ids: seq<Id>) returns (artifacts: seq<Artifact>)
      requires Valid()
      ensures artifacts == Fetch(rows, ids)
    {
      artifacts := [];
      for i := 0 to |ids|
        invariant artifacts == Fetch(rows, ids[..i])
      {
        assert ids[..i + 1][..i] == ids[..i];
        var row := FetchOne(rows, ids[i]);
        if row.Some? {
          artifacts := artifacts + [row.value];
        }
      }
      assert ids[..|ids|] == ids;
    }
  }

  /** The row with this id: `SELECT ... WHERE id = ?`. */
  function FetchOne(rows: seq<Artifact>, id: Id): (r: Option<Artifact>)
    ensures r.Some? ==> r.value in rows && r.value.id == id
    ensures r.None? ==> forall e :: e in rows ==> e.id != id
  {
    if rows == [] then None
    else
      assert rows == [rows[0]] + rows[1..];
      if rows[0].id == id then Some(rows[0]) else FetchOne(rows[1..], id)
  }

  function Fetch(rows: seq<Artifact>, ids: seq<Id>): (r: seq<Artifact>)
    ensures |r| <= |ids|
  {
    if ids == [] then []
    else
      var n := |ids| - 1;
      var row := FetchOne(rows, ids[n]);
      if row.Some? then Fetch(rows, ids[..n]) + [row.value] else Fetch(rows, ids[..n])
  }

  // --------------------------------------------------------------------- gate

  datatype Validation = Validation(valid: bool, implementationComplete: bool, verificationComplete: bool)

  function MaxOrdinal(es: seq<Artifact>): (m: nat)
    ensures forall e :: e in es ==> e.ordinal <= m
    ensures m == 0 || exists e :: e in es && e.ordinal == m
  {
    if es == [] then 0
    else
      assert es == [es[0]] + es[1..];
      var rest := MaxOrdinal(es[1..]);
      if es[0].ordinal > rest then assert es[0] in es; es[0].ordinal else rest
  }

  function Successes(es: seq<Artifact>): seq<Artifact> {
    Filter(es, (e: Artifact) => e.successful)
  }

  function SuccessfulChanges(es: seq<Artifact>): seq<Artifact> {
    Filter(Successes(es), (e: Artifact) => e.kind == FileChange)
  }

  function ValidateCompletion(rows: seq<Artifact>, taskId: Id, runId: Id, evidenceIds: seq<Id>): Validation {
    var uniqueIds := Dedupe(evidenceIds);
    var evidence := Fetch(rows, uniqueIds);
    if |uniqueIds| == 0 || |evidence| != |uniqueIds| then Validation(false, false, false)
    else if exists e :: e in evidence && (e.taskId != taskId || e.runId != runId) then
      Validation(false, false, false)
    else
      var successful := Successes(evidence);
      var fileChanges := SuccessfulChanges(evidence);
      var lastFileChange := MaxOrdinal(fileChanges);
      var verificationComplete :=
        |fileChanges| == 0 ||
        exists e :: e in successful && e.kind == Verification && e.ordinal > lastFileChange;
      Validation(|successful| > 0 && verificationComplete, |fileChanges| > 0 || |successful| > 0,
                 verificationComplete)
  }

  ghost predicate Stored(rows: seq<Artifact>, id: Id) {
    exists e :: e in rows && e.id == id
  }

  ghost function CitedRows(rows: seq<Artifact>, ids: seq<Id>): set<Artifact> {
    set e | e in rows && e.id in ids
  }

  ghost function ChangesIn(es: set<Artifact>): set<Artifact> {
    set f | f in es && f.successful && f.kind == FileChange
  }

  /** v is a successful verification later than every change. */
  ghost predicate Verifies(v: Artifact, changes: set<Artifact>) {
    v.successful && v.kind == Verification && forall f :: f in changes ==> f.ordinal < v.ordinal
  }

  /** What a completion has to be backed by, without the gate's order of checks. */
  ghost predicate Justified(rows: seq<Artifact>, taskId: Id, runId: Id, ids: seq<Id>) {
    var cited := CitedRows(rows, ids);
    && (forall id :: id in ids ==> Stored(rows, id))
    && (forall e :: e in cited ==> e.taskId == taskId && e.runId == runId)
    && (exists e :: e in cited && e.successful)
    && (ChangesIn(cited) == {} || exists v :: v in cited && Verifies(v, ChangesIn(cited)))
  }

  lemma {:induction false} FetchMembers(rows: seq<Artifact>, ids: seq<Id>)
    ensures forall e :: e in Fetch(rows, ids) ==> e in CitedRows(rows, ids)
    ensures |Fetch(rows, ids)| == |ids| <==> forall id :: id in ids ==> Stored(rows, id)
  {
    if ids != [] {
      var n := |ids| - 1;
      assert ids == ids[..n] + [ids[n]];
      FetchMembers(rows, ids[..n]);
      assert FetchOne(rows, ids[n]).Some? <==> Stored(rows, ids[n]);
      assert forall id :: id in ids[..n] ==> id in ids;
    }
  }

  lemma {:induction false} FetchCovers(rows: seq<Artifact>, ids: seq<Id>, e: Artifact)
    requires ValidTable(rows) && e in CitedRows(rows, ids)
    ensures e in Fetch(rows, ids)
  {
    var n := |ids| - 1;
    assert ids == ids[..n] + [ids[n]];
    if ids[n] == e.id {
      var row := FetchOne(rows, e.id);
      assert row.Some?;
      assert row.value == e;
    } else {
      FetchCovers(rows, ids[..n], e);
    }
  }

  /** Being later than the greatest ordinal of the changes is being later than all of them. */
  lemma AfterMax(changes: seq<Artifact>, v: Artifact)
    requires changes != []
    ensures v.ordinal > MaxOrdinal(changes) <==> forall f :: f in changes ==> f.ordinal < v.ordinal
  {
    if forall f :: f in changes ==> f.ordinal < v.ordinal {
      assert changes[0] in changes;
      if MaxOrdinal(changes) != 0 {
        var m :| m in changes && m.ordinal == MaxOrdinal(changes);
      }
    }
  }

  lemma SuccessfulChangesAre(es: seq<Artifact>, cited: set<Artifact>)
    requires forall e :: e in es <==> e in cited
    ensures forall e :: e in SuccessfulChanges(es) <==> e in ChangesIn(cited)
    ensures SuccessfulChanges(es) == [] <==> ChangesIn(cited) == {}
  {
    if SuccessfulChanges(es) != [] {
      var c := SuccessfulChanges(es)[0];
      assert c in SuccessfulChanges(es);
      assert c in ChangesIn(cited);
    }
  }

  /** What the gate fetches is what is cited. */
  lemma FetchedIsCited(rows: seq<Artifact>, ids: seq<Id>)
    requires ValidTable(rows)
    ensures forall e :: e in Fetch(rows, Dedupe(ids)) <==> e in CitedRows(rows, ids)
    ensures |Fetch(rows, Dedupe(ids))| == |Dedupe(ids)| <==> forall id :: id in ids ==> Stored(rows, id)
  {
    hide Fetch, Dedupe;
    var unique := Dedupe(ids);
    assert CitedRows(rows, ids) == CitedRows(rows, unique);
    FetchMembers(rows, unique);
    forall e ensures e in Fetch(rows, unique) <==> e in CitedRows(rows, ids) {
      if e in CitedRows(rows, ids) { FetchCovers(rows, unique, e); }
    }
  }

  /** The last-change test asks for a verification after every cited change. */
  lemma VerificationTestMeans(evidence: seq<Artifact>, cited: set<Artifact>)
    requires forall e :: e in evidence <==> e in cited
    ensures var changes := SuccessfulChanges(evidence);
      (|changes| == 0 ||
         exists e :: e in Successes(evidence) && e.kind == Verification && e.ordinal > MaxOrdinal(changes))
      <==> (ChangesIn(cited) == {} || exists v :: v in cited && Verifies(v, ChangesIn(cited)))
  {
    hide Filter, MaxOrdinal;
    SuccessfulChangesAre(evidence, cited);
    var changes := SuccessfulChanges(evidence);
    if changes != [] {
      forall v: Artifact ensures v.successful && v.kind == Verification && v.ordinal > MaxOrdinal(changes)
                       <==> Verifies(v, ChangesIn(cited)) {
        AfterMax(changes, v);
      }
    }
  }

  lemma SuccessTestMeans(evidence: seq<Artifact>, cited: set<Artifact>)
    requires forall e :: e in evidence <==> e in cited
    ensures |Successes(evidence)| > 0 <==> exists e :: e in cited && e.successful
  {
    hide Filter;
    if Successes(evidence) != [] { assert Successes(evidence)[0] in Successes(evidence); }
    if e :| e in cited && e.successful { assert e in Successes(evidence); }
  }

  /** Every cited id is stored, and cites a row of this run. */
  ghost predicate Grounded(rows: seq<Artifact>, taskId: Id, runId: Id, ids: seq<Id>) {
    && ids != []
    && (forall id :: id in ids ==> Stored(rows, id))
    && (forall e :: e in CitedRows(rows, ids) ==> e.taskId == taskId && e.runId == runId)
  }

  /** The gate accepts exactly the justified completions, and its two other answers say which half is met. */
  lemma GateMeaning(rows: seq<Artifact>, taskId: Id, runId: Id, ids: seq<Id>)
    requires ValidTable(rows)
    ensures var gate, cited := ValidateCompletion(rows, taskId, runId, ids), CitedRows(rows, ids);
      && (gate.valid <==> Justified(rows, taskId, runId, ids))
      && (gate.implementationComplete <==>
          Grounded(rows, taskId, runId, ids) && exists e :: e in cited && e.successful)
      && (gate.verificationComplete <==>
          && Grounded(rows, taskId, runId, ids)
          && (ChangesIn(cited) == {} || exists v :: v in cited && Verifies(v, ChangesIn(cited))))
  {
    hide Filter, Fetch, Dedupe, MaxOrdinal, Verifies, ChangesIn, Successes, SuccessfulChanges, Stored;
    var evidence, cited := Fetch(rows, Dedupe(ids)), CitedRows(rows, ids);
    FetchedIsCited(rows, ids);
    VerificationTestMeans(evidence, cited);
    SuccessTestMeans(evidence, cited);
    ChangesSucceeded(evidence);
    DedupeEmpty(ids);
  }

  lemma DedupeEmpty(ids: seq<Id>)
    ensures Dedupe(ids) == [] <==> ids == []
  {
    if ids != [] { assert ids[0] in Dedupe(ids); }
  }

  lemma ChangesSucceeded(evidence: seq<Artifact>)
    ensures SuccessfulChanges(evidence) != [] ==> Successes(evidence) != []
  {
    hide Filter;
    if SuccessfulChanges(evidence) != [] {
      assert SuccessfulChanges(evidence)[0] in SuccessfulChanges(evidence);
      assert SuccessfulChanges(evidence)[0] in Successes(evidence);
    }
  }

  /** With every row recorded by a tool: an accepted completion that cites a successful change cites, later
      than every such change, a successful shell command that verifies and changed nothing. */
  lemma CompletionWasTested(rows: seq<Artifact>, outcomes: seq<ToolOutcome>, taskId: Id, runId: Id, ids: seq<Id>)
    returns (test: nat)
    requires ValidTable(rows) && |outcomes| == |rows|
    requires forall i :: 0 <= i < |rows| ==> Reports(rows[i], outcomes[i])
    requires ValidateCompletion(rows, taskId, runId, ids).valid
    requires exists i :: 0 <= i < |rows| && CitedChange(rows, outcomes, ids, i)
    ensures test < |rows| && rows[test].id in ids
    ensures var o := outcomes[test];
            && o.toolName == "bash" && o.verifies && !o.isError && o.taskId == taskId && o.runId == runId
            && rows[test].changedFiles == []
    ensures forall i :: 0 <= i < |rows| && CitedChange(rows, outcomes, ids, i) ==> i < test
  {
    hide ValidateCompletion, Reports;
    GateMeaning(rows, taskId, runId, ids);
    var cited := CitedRows(rows, ids);
    forall k | 0 <= k < |rows| && CitedChange(rows, outcomes, ids, k)
      ensures rows[k] in ChangesIn(cited)
    {
      ChangeReported(rows[k], outcomes[k]);
    }
    var v :| v in cited && Verifies(v, ChangesIn(cited));
    test :| 0 <= test < |rows| && rows[test] == v;
    TestReported(rows[test], outcomes[test]);
  }

  lemma ChangeReported(row: Artifact, o: ToolOutcome)
    requires Reports(row, o) && !o.isError && row.changedFiles != []
    ensures row.successful && row.kind == FileChange
  {
    hide ListsOnce;
  }

  lemma TestReported(row: Artifact, o: ToolOutcome)
    requires Reports(row, o) && row.kind == Verification
    ensures o.toolName == "bash" && o.verifies && row.changedFiles == []
    ensures row.taskId == o.taskId && row.runId == o.runId && (row.successful <==> !o.isError)
  {
    hide ListsOnce;
  }

  /** The `i`th call succeeded and changed files, and its row is cited. */
  predicate CitedChange(rows: seq<Artifact>, outcomes: seq<ToolOutcome>, ids: seq<Id>, i: nat)
    requires |outcomes| == |rows| && i < |rows|
  {
    rows[i].id in ids && !outcomes[i].isError && rows[i].changedFiles != []
  }

  /** A completion justified once stays justified while the table only grows. */
  lemma JustifiedForever(rows: seq<Artifact>, later: seq<Artifact>, taskId: Id, runId: Id, ids: seq<Id>)
    requires ValidTable(rows) && ValidTable(later) && rows <= later
    requires Justified(rows, taskId, runId, ids)
    ensures Justified(later, taskId, runId, ids)
  {
    forall e | e in CitedRows(later, ids) ensures e in CitedRows(rows, ids) {
      assert Stored(rows, e.id);
      var known :| known in rows && known.id == e.id;
      assert known in later && known == e;
    }
    assert CitedRows(later, ids) == CitedRows(rows, ids);
    forall id | id in ids ensures Stored(later, id) {
      var known :| known in rows && known.id == id;
      assert known in later;
    }
  }

  // ---------------------------------------------------------------- projector

  datatype VerificationState = NotRequired | PendingVerification | Passed | VerificationFailed
  datatype ImplementationState = ImplementationPending | Observed | Changed | ImplementationComplete
  datatype Phase =
    | QueuedPhase | Understanding | Execution | Implementation | VerificationPhase
    | AwaitingUserPhase | PausedPhase | CompletePhase | FailedPhase | CancelledPhase

  datatype Facts = Facts(
    phase: Phase, implementationState: ImplementationState, verificationState: VerificationState)

  function EvidenceForTask(rows: seq<Artifact>, taskId: Id): seq<Artifact> {
    Filter(rows, (e: Artifact) => e.taskId == taskId)
  }

  function VerificationsAfterChange(evidence: seq<Artifact>): seq<Artifact> {
    var last := MaxOrdinal(SuccessfulChanges(evidence));
    Filter(evidence, (e: Artifact) => e.kind == Verification && e.ordinal > last)
  }

  function ProjectVerification(evidence: seq<Artifact>): VerificationState {
    var after := VerificationsAfterChange(evidence);
    if SuccessfulChanges(evidence) == [] then NotRequired
    else if after == [] then PendingVerification
    else if after[|after| - 1].successful then Passed
    else VerificationFailed
  }

  function RunningPhase(fileChanges: nat, successes: nat, verification: VerificationState): Phase {
    if fileChanges > 0 && verification != PendingVerification then VerificationPhase
    else if fileChanges > 0 then Implementation
    else if successes > 0 then Execution
    else Understanding
  }

  function ProjectTask(rows: seq<Artifact>, taskId: Id, state: TaskState): Facts {
    var evidence := EvidenceForTask(rows, taskId);
    var changes := SuccessfulChanges(evidence);
    var successes := Successes(evidence);
    var verification := ProjectVerification(evidence);
    var implementation :=
      if state == Completed then ImplementationComplete
      else if changes != [] then Changed
      else if successes != [] then Observed
      else ImplementationPending;
    var phase := match state
      case Queued => QueuedPhase
      case Awaiting => AwaitingUserPhase
      case Paused => PausedPhase
      case PauseWanted => PausedPhase
      case Completed => CompletePhase
      case Failed => FailedPhase
      case Cancelled => CancelledPhase
      case Running => RunningPhase(|changes|, |successes|, verification);
    Facts(phase, implementation, verification)
  }

  /** The ids cite exactly the evidence of the task, and all of it comes from one run. */
  ghost predicate CitesAll(rows: seq<Artifact>, taskId: Id, runId: Id, ids: seq<Id>) {
    && (forall id :: id in ids ==> Stored(rows, id))
    && (forall e :: e in CitedRows(rows, ids) <==> e in rows && e.taskId == taskId)
    && (forall e :: e in rows && e.taskId == taskId ==> e.runId == runId)
  }

  /** The newest verification since the last change. */
  ghost predicate Newest(v: Artifact, es: set<Artifact>) {
    && v in es && v.kind == Verification && (forall f :: f in ChangesIn(es) ==> f.ordinal < v.ordinal)
    && forall w :: w in es && w.kind == Verification ==> w.ordinal <= v.ordinal
  }

  /** Rows in the order of their ordinals, as the table keeps them. */
  predicate InOrder(evidence: seq<Artifact>) {
    forall i, j :: 0 <= i < j < |evidence| ==> evidence[i].ordinal < evidence[j].ordinal
  }

  /** What each projected state says about the evidence as a set: no change; a change and no verification
      since; a change and a newest verification since, which succeeded or failed. */
  lemma ProjectionIsExact(evidence: seq<Artifact>, es: set<Artifact>)
    requires (forall e :: e in evidence <==> e in es) && InOrder(evidence)
    ensures var state := ProjectVerification(evidence);
            && (state == NotRequired <==> ChangesIn(es) == {})
            && (state == PendingVerification <==> ChangesIn(es) != {} && !VerifiedSince(es))
            && (state == Passed <==> ChangesIn(es) != {} && exists v :: Newest(v, es) && v.successful)
            && (state == VerificationFailed <==> ChangesIn(es) != {} && exists v :: Newest(v, es) && !v.successful)
  {
    hide Filter, MaxOrdinal;
    SuccessfulChangesAre(evidence, es);
    VerificationsAre(evidence, es);
    var changes, after := SuccessfulChanges(evidence), VerificationsAfterChange(evidence);
    if changes != [] && after != [] {
      var v := after[|after| - 1];
      LastIsNewest(evidence, es);
      forall u | Newest(u, es)
        ensures u == v
      {
        SameOrdinal(evidence, u, v);
      }
    }
    if u :| Newest(u, es) { assert VerifiedSince(es); }
  }

  lemma SameOrdinal(evidence: seq<Artifact>, u: Artifact, v: Artifact)
    requires InOrder(evidence) && u in evidence && v in evidence && u.ordinal == v.ordinal
    ensures u == v
  {
    var i :| 0 <= i < |evidence| && evidence[i] == u;
    var j :| 0 <= j < |evidence| && evidence[j] == v;
  }

  lemma LastIsNewest(evidence: seq<Artifact>, es: set<Artifact>)
    requires (forall e :: e in evidence <==> e in es) && InOrder(evidence)
    requires SuccessfulChanges(evidence) != [] && VerificationsAfterChange(evidence) != []
    ensures var after := VerificationsAfterChange(evidence); Newest(after[|after| - 1], es)
  {
    hide Filter, MaxOrdinal;
    var changes, after := SuccessfulChanges(evidence), VerificationsAfterChange(evidence);
    SuccessfulChangesAre(evidence, es);
    AfterIsInOrder(evidence);
    var v := after[|after| - 1];
    assert v in after;
    AfterMax(changes, v);
    forall w | w in es && w.kind == Verification
      ensures w.ordinal <= v.ordinal
    {
      AfterMax(changes, w);
      if w in after { AtMostLast(after, w); }
    }
  }

  lemma AtMostLast(es: seq<Artifact>, w: Artifact)
    requires InOrder(es) && w in es
    ensures w.ordinal <= es[|es| - 1].ordinal
  {
    var i :| 0 <= i < |es| && es[i] == w;
  }

  lemma AfterIsInOrder(evidence: seq<Artifact>)
    requires InOrder(evidence)
    ensures InOrder(VerificationsAfterChange(evidence))
  {
    var last := MaxOrdinal(SuccessfulChanges(evidence));
    FilterInOrder(evidence, (e: Artifact) => e.kind == Verification && e.ordinal > last);
  }

  lemma {:induction false} FilterInOrder(s: seq<Artifact>, p: Artifact -> bool)
    requires InOrder(s)
    ensures InOrder(Filter(s, p))
  {
    if s != [] {
      var rest := Filter(s[1..], p);
      FilterInOrder(s[1..], p);
      forall e | e in rest ensures s[0].ordinal < e.ordinal { HeadIsFirst(s, e); }
      hide Filter;
      FirstInOrder(s[0], rest);
    }
  }

  lemma HeadIsFirst(s: seq<Artifact>, e: Artifact)
    requires InOrder(s) && s != [] && e in s[1..]
    ensures s[0].ordinal < e.ordinal
  {
    var i :| 0 <= i < |s[1..]| && s[1..][i] == e;
    assert s[i + 1] == e;
  }

  lemma FirstInOrder(e: Artifact, rest: seq<Artifact>)
    requires InOrder(rest) && forall f :: f in rest ==> e.ordinal < f.ordinal
    ensures InOrder([e] + rest)
  {
  }

  /** What the projected verification state says about the evidence of the task. */
  lemma VerificationMeaning(rows: seq<Artifact>, taskId: Id, state: TaskState)
    requires ValidTable(rows)
    ensures var verification, es := ProjectTask(rows, taskId, state).verificationState, OfTask(rows, taskId);
            && (verification == NotRequired <==> ChangesIn(es) == {})
            && (verification == PendingVerification <==> ChangesIn(es) != {} && !VerifiedSince(es))
            && (verification == Passed <==> ChangesIn(es) != {} && exists v :: Newest(v, es) && v.successful)
            && (verification == VerificationFailed <==>
                  ChangesIn(es) != {} && exists v :: Newest(v, es) && !v.successful)
  {
    hide Filter, Newest, VerifiedSince, ProjectVerification;
    FilterInOrder(rows, (e: Artifact) => e.taskId == taskId);
    ProjectionIsExact(EvidenceForTask(rows, taskId), OfTask(rows, taskId));
  }

  /** What the states that the gate is compared with say about the evidence as a set. */
  lemma ProjectionMeaning(evidence: seq<Artifact>, cited: set<Artifact>)
    requires forall e :: e in evidence <==> e in cited
    ensures ProjectVerification(evidence) == NotRequired <==> ChangesIn(cited) == {}
    ensures ProjectVerification(evidence) == Passed ==> exists v :: v in cited && Verifies(v, ChangesIn(cited))
    ensures ProjectVerification(evidence) == PendingVerification ==>
              !exists v :: v in cited && Verifies(v, ChangesIn(cited))
  {
    hide Filter, MaxOrdinal;
    SuccessfulChangesAre(evidence, cited);
    var changes := SuccessfulChanges(evidence);
    if changes != [] {
      var after := VerificationsAfterChange(evidence);
      forall v: Artifact ensures v in after <==> v in cited && v.kind == Verification
                                                 && forall f :: f in ChangesIn(cited) ==> f.ordinal < v.ordinal {
        AfterMax(changes, v);
      }
      if after != [] {
        assert after[|after| - 1] in after;
      }
    }
  }

  /** Some verification, successful or not, later than every change. */
  ghost predicate VerifiedSince(es: set<Artifact>) {
    exists v :: v in es && v.kind == Verification && forall f :: f in ChangesIn(es) ==> f.ordinal < v.ordinal
  }

  ghost function OfTask(rows: seq<Artifact>, taskId: Id): set<Artifact> {
    set e | e in rows && e.taskId == taskId
  }

  lemma VerificationsAre(evidence: seq<Artifact>, es: set<Artifact>)
    requires forall e :: e in evidence <==> e in es
    ensures SuccessfulChanges(evidence) != [] ==> (VerificationsAfterChange(evidence) != [] <==> VerifiedSince(es))
  {
    hide Filter, MaxOrdinal;
    SuccessfulChangesAre(evidence, es);
    var changes, after := SuccessfulChanges(evidence), VerificationsAfterChange(evidence);
    if changes != [] {
      forall v: Artifact
        ensures v in after <==> v in es && v.kind == Verification
                                && forall f :: f in ChangesIn(es) ==> f.ordinal < v.ordinal
      {
        AfterMax(changes, v);
      }
      if after != [] { assert after[0] in after; }
    }
  }

  /** What the projected facts say about the state and the evidence of the task as a set. The phase is that
      of the state, and for a running task: nothing succeeded yet, something did, files were changed, and a
      verification was attempted since. */
  lemma PhaseMeaning(rows: seq<Artifact>, taskId: Id, state: TaskState)
    ensures var facts, es := ProjectTask(rows, taskId, state), OfTask(rows, taskId);
      var succeeded := exists e :: e in es && e.successful;
      && (state == Running ==>
            && (facts.phase == Understanding <==> !succeeded)
            && (facts.phase == Execution <==> succeeded && ChangesIn(es) == {})
            && (facts.phase == Implementation <==> ChangesIn(es) != {} && !VerifiedSince(es))
            && (facts.phase == VerificationPhase <==> ChangesIn(es) != {} && VerifiedSince(es)))
      && (state in {Paused, PauseWanted} <==> facts.phase == PausedPhase)
      && (state == Queued <==> facts.phase == QueuedPhase) && (state == Awaiting <==> facts.phase == AwaitingUserPhase)
      && (state == Completed <==> facts.phase == CompletePhase) && (state == Failed <==> facts.phase == FailedPhase)
      && (state == Cancelled <==> facts.phase == CancelledPhase)
      && (facts.implementationState == ImplementationComplete <==> state == Completed)
      && (state != Completed ==>
            && (facts.implementationState == Changed <==> ChangesIn(es) != {})
            && (facts.implementationState == Observed <==> succeeded && ChangesIn(es) == {})
            && (facts.implementationState == ImplementationPending <==> !succeeded))
  {
    hide Filter, MaxOrdinal, VerifiedSince;
    var evidence, es := EvidenceForTask(rows, taskId), OfTask(rows, taskId);
    SuccessfulChangesAre(evidence, es);
    SuccessTestMeans(evidence, es);
    VerificationsAre(evidence, es);
    if f :| f in ChangesIn(es) { assert f in es && f.successful; }
  }

  /** Gate and projector agree on a single-run task whose evidence is all cited: `Passed`
      is accepted, `PendingVerification` is refused, `NotRequired` is accepted exactly when
      something succeeded. `VerificationFailed` only says that the newest verification failed;
      the gate then still accepts exactly when an older one after the last change succeeded. */
  lemma GateAgreesWithProjector(rows: seq<Artifact>, taskId: Id, runId: Id, ids: seq<Id>, state: TaskState)
    requires ValidTable(rows) && CitesAll(rows, taskId, runId, ids)
    ensures var accepted := ValidateCompletion(rows, taskId, runId, ids).valid;
            match ProjectTask(rows, taskId, state).verificationState
            case Passed => accepted
            case PendingVerification => !accepted
            case NotRequired => accepted <==> exists e :: e in rows && e.taskId == taskId && e.successful
            case VerificationFailed =>
              accepted <==> exists v :: v in CitedRows(rows, ids) && Verifies(v, ChangesIn(CitedRows(rows, ids)))
  {
    hide Filter, ValidateCompletion, ProjectVerification;
    GateMeaning(rows, taskId, runId, ids);
    var cited := CitedRows(rows, ids);
    ProjectionMeaning(EvidenceForTask(rows, taskId), cited);
    if v :| v in cited && Verifies(v, ChangesIn(cited)) {
      assert v.successful;
    }
  }

  /** The two may differ when verification failed: a later failure does not undo an earlier
      success for the gate. */
  lemma FailedProjectionMayStillPassTheGate()
    ensures var rows := [Artifact(1, 1, 0, 0, FileChange, true, ["a"]),
                         Artifact(2, 2, 0, 0, Verification, true, []),
                         Artifact(3, 3, 0, 0, Verification, false, [])];
            && ValidTable(rows) && CitesAll(rows, 0, 0, [1, 2, 3])
            && ProjectTask(rows, 0, Running).verificationState == VerificationFailed
            && ValidateCompletion(rows, 0, 0, [1, 2, 3]).valid
  {
    hide Filter, ValidateCompletion, ProjectVerification;
    var change := Artifact(1, 1, 0, 0, FileChange, true, ["a"]);
    var pass := Artifact(2, 2, 0, 0, Verification, true, []);
    var fail := Artifact(3, 3, 0, 0, Verification, false, []);
    var rows, ids := [change, pass, fail], [1, 2, 3];
    assert forall e :: e in rows <==> e == change || e == pass || e == fail;
    assert forall id :: id in ids <==> id == 1 || id == 2 || id == 3;
    assert Stored(rows, 1) && Stored(rows, 2) && Stored(rows, 3);
    assert ChangesIn(CitedRows(rows, ids)) == {change};
    GateAgreesWithProjector(rows, 0, 0, ids, Running);
    assert pass in rows && Verifies(pass, {change});
    FilterAll(rows, (e: Artifact) => e.taskId == 0);
    ThreeRowProjection(change, pass, fail);
  }

  lemma {:induction false} FilterAll(s: seq<Artifact>, p: Artifact -> bool)
    requires forall e :: e in s ==> p(e)
    ensures Filter(s, p) == s
  {
    if s != [] { FilterAll(s[1..], p); }
  }

  lemma ThreeRowProjection(change: Artifact, pass: Artifact, fail: Artifact)
    requires change.ordinal == 1 && change.kind == FileChange && change.successful
    requires pass.ordinal == 2 && pass.kind == Verification && pass.successful
    requires fail.ordinal == 3 && fail.kind == Verification && !fail.successful
    ensures ProjectVerification([change, pass, fail]) == VerificationFailed
  {
    var rows := [change, pass, fail];
    SuccessfulChangesAre(rows, {change, pass, fail});
    var changes := SuccessfulChanges(rows);
    assert change in changes;
    assert forall e :: e in changes ==> e == change;
    var later := (e: Artifact) => e.kind == Verification && e.ordinal > MaxOrdinal(changes);
    assert rows[1..] == [pass, fail];
    FilterAll([pass, fail], later);
    assert VerificationsAfterChange(rows) == [pass, fail];
  }
}

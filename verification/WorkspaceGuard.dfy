/** The workspace guard (packages/core/src/workspace-guard.ts): it tells the coding agent's
    changes on disk from the user's, and decides whether a tool may write.

    A scan is one atomic read of the disk; paths are already normalised, and what the shell
    pattern and the path extraction find in a tool's input is part of the call. */
module Workspace {
  import opened Protocol

  type Path = nat
  type Fingerprint = nat
  type Disk = map<Path, Fingerprint>

  datatype Editor = Editor(version: nat, dirty: bool)

  /** An editor report; `inside` says that the path lies inside its workspace. */
  datatype Report = Report(workspace: Id, path: Path, inside: bool, editor: Editor, open: bool)

  datatype Reported = Reported(workspace: Id, inside: bool, editor: Editor)

  datatype ToolCall = ToolCall(name: string, targets: set<Path>, lspApply: bool, lspAction: string, shellMutation: bool)

  datatype Scope = Scope(targets: set<Path>, canMutate: bool, mayMutateUnknownFiles: bool, replacesWholeFile: bool)

  datatype Baseline = Baseline(scope: Scope, files: Disk, versions: map<Path, nat>)

  datatype Overlap = Overlap(paths: set<Path>, externalChanges: set<Path>, dirtyFiles: set<Path>)

  datatype Decision = Allowed | Conflicted(conflict: Overlap)

  datatype Mutation = Mutation(toolCallId: Id, paths: set<Path>)

  /** The guard's fields. `repository` is set exactly while a task and a run are. */
  datatype Guard = Guard(
    repository: Option<Id>,
    known: Disk,
    preExisting: set<Path>,
    external: set<Path>,
    editors: map<Path, Editor>,
    reported: map<Path, Reported>,
    baselines: map<Id, Baseline>,
    pending: Option<Overlap>,
    mutations: seq<Mutation>)

  const IDLE := Guard(None, map[], {}, {}, map[], map[], map[], None, [])

  // ---------------------------------------------------------------- what the guard computes

  function Lookup<V>(m: map<Path, V>, p: Path): Option<V> {
    if p in m then Some(m[p]) else None
  }

  /** `changedPaths`. */
  function Changed(before: Disk, after: Disk): (r: set<Path>)
    ensures forall p :: p in r <==> Lookup(before, p) != Lookup(after, p)
  {
    set p | p in before.Keys + after.Keys && Lookup(before, p) != Lookup(after, p)
  }

  function Dirty(editors: map<Path, Editor>): set<Path> {
    set p | p in editors && editors[p].dirty
  }

  function Versions(editors: map<Path, Editor>): map<Path, nat> {
    map p | p in editors :: editors[p].version
  }

  /** `#mutationScope`. */
  function MutationScope(call: ToolCall): Scope {
    var lsp := call.name == "lsp" && call.lspApply && call.lspAction in {"rename", "rename_file", "code_actions"};
    var shell := call.name == "bash" && call.shellMutation;
    Scope(call.targets,
          call.name in {"edit", "write", "ast_edit"} || lsp || shell,
          call.name == "bash",
          call.name == "write" || (lsp && call.lspAction == "rename_file"))
  }

  const TURN := Scope({}, true, true, false)

  /** What a mutating call must not touch. */
  function Overlaps(g: Guard, scope: Scope): set<Path> {
    if scope.mayMutateUnknownFiles then g.external + Dirty(g.editors) + g.preExisting
    else set p | p in scope.targets &&
                 (p in Dirty(g.editors) || p in g.external || (scope.replacesWholeFile && p in g.preExisting))
  }

  /** The relevant open documents whose version is not the one at the start of the window. */
  function Concurrent(g: Guard, b: Baseline): set<Path> {
    set p | p in g.editors && (b.scope.mayMutateUnknownFiles || p in b.scope.targets)
         && Lookup(b.versions, p) != Some(g.editors[p].version)
  }

  function Attributed(g: Guard, b: Baseline, disk: Disk): set<Path> {
    Changed(b.files, disk) - Concurrent(g, b)
  }

  function OpenWindow(g: Guard, id: Id, scope: Scope, disk: Disk): Guard {
    g.(baselines := g.baselines[id := Baseline(scope, disk, Versions(g.editors))])
  }

  // --------------------------------------------------------------------- its operations

  function Start(g: Guard, repository: Id, disk: Disk, preExisting: set<Path>): Guard {
    Guard(Some(repository), disk, preExisting, {},
          map p | p in g.reported && g.reported[p].workspace == repository && g.reported[p].inside
            :: g.reported[p].editor,
          g.reported, map[], None, [])
  }

  function UpdateEditorState(g: Guard, r: Report): Guard {
    var g1 := g.(reported := if r.open then g.reported[r.path := Reported(r.workspace, r.inside, r.editor)]
                             else g.reported - {r.path});
    if g.repository != Some(r.workspace) || !r.inside then g1
    else
      var wasDirty := r.path in g.editors && g.editors[r.path].dirty;
      g1.(editors := if r.open then g.editors[r.path := r.editor] else g.editors - {r.path},
          external := if r.editor.dirty || wasDirty then g.external + {r.path} else g.external)
  }

  /** The scan every call starts with: what changed since the last known state is the user's. */
  function Scanned(g: Guard, disk: Disk): Guard {
    g.(external := g.external + Changed(g.known, disk))
  }

  function BeforeTool(g: Guard, id: Id, call: ToolCall, disk: Disk): (Guard, Decision) {
    if g.pending.Some? then (g, Conflicted(g.pending.value))
    else if g.repository.None? then (g, Allowed)
    else
      var g1 := Scanned(g, disk);
      var scope := MutationScope(call);
      if !scope.canMutate then (if scope.mayMutateUnknownFiles then OpenWindow(g1, id, scope, disk) else g1, Allowed)
      else if Overlaps(g1, scope) != {} then
        (g1, Conflicted(Overlap(Overlaps(g1, scope), g1.external, Dirty(g1.editors))))
      else (OpenWindow(g1, id, scope, disk), Allowed)
  }

  function BeginTurn(g: Guard, id: Id, disk: Disk): (Guard, Decision) {
    if g.pending.Some? then (g, Conflicted(g.pending.value))
    else if g.repository.None? then (g, Allowed)
    else
      var g1 := Scanned(g, disk);
      var overlaps := Changed(g.known, disk) + Dirty(g.editors);
      if overlaps != {} then (g1, Conflicted(Overlap(overlaps, g1.external, Dirty(g.editors))))
      else (OpenWindow(g1, id, TURN, disk), Allowed)
  }

  /** `#attributeTool`: what changed since the baseline is the tool's, except for the documents edited
      meanwhile, which are reported. */
  function AttributeTool(g: Guard, id: Id, b: Baseline, disk: Disk): Guard {
    var concurrent := Concurrent(g, b);
    var attributed := Attributed(g, b, disk);
    var external := g.external - attributed + concurrent;
    g.(known := disk,
       external := external,
       mutations := if attributed == {} then g.mutations else g.mutations + [Mutation(id, attributed)],
       pending := if concurrent == {} then None else Some(Overlap(concurrent, external, Dirty(g.editors))))
  }

  /** `afterTool`, whose result the guard keeps as the pending attribution. */
  function AfterTool(g: Guard, id: Id, disk: Disk): Guard {
    var g1 := g.(baselines := g.baselines - {id}, pending := None);
    if id !in g.baselines || g.repository.None? then g1
    else AttributeTool(g1, id, g.baselines[id], disk)
  }

  /** With no repository the scan is empty. */
  function Reconcile(g: Guard, disk: Disk): Guard {
    g.(pending := None, known := if g.repository.None? then map[] else disk, external := {}, baselines := map[])
  }

  function Finish(g: Guard): Guard {
    g.(repository := None, known := map[], preExisting := {}, external := {}, editors := map[],
       baselines := map[], mutations := [])
  }

  // -------------------------------------------------------- the guard among users and tools

  /** `trusted` is the content every path had when the guard started, at the last reconcile, or
      when the agent last wrote it, whichever is latest. `touched` and `written` are the paths the
      user and the agent have written since the last window opened, `lost` those whose user's change
      slipped through a window. */
  datatype World = World(guard: Guard, disk: Disk, trusted: Disk, touched: set<Path>, written: set<Path>,
                         lost: set<Path>)

  datatype Step =
    | Started(repository: Id, files: Disk, preExisting: set<Path>)
    | UserWrites(path: Path, content: Option<Fingerprint>)
    | AgentWrites(path: Path, content: Option<Fingerprint>)
    | EditorReports(report: Report)
    | ToolBegins(id: Id, call: ToolCall)
    | TurnBegins(id: Id)
    | ToolEnds(id: Id)
    | Reconciled
    | Finished

  const INITIAL := World(IDLE, map[], map[], {}, {}, {})

  function Put(disk: Disk, path: Path, content: Option<Fingerprint>): (r: Disk)
    ensures forall p :: Lookup(r, p) == if p == path then content else Lookup(disk, p)
  {
    if content.Some? then disk[path := content.value] else disk - {path}
  }

  /** The world after the guard answered; a new window starts with nothing written in it. */
  function Answered(w: World, g: Guard): World {
    if w.guard.baselines == map[] then w.(guard := g, touched := {}, written := {}) else w.(guard := g)
  }

  /** The document is open at another version than when the window of `b` opened, or was not open then. */
  predicate EditedSince(w: World, b: Baseline, p: Path) {
    p in w.guard.editors && !(p in b.versions && b.versions[p] == w.guard.editors[p].version)
  }

  /** An edit that the window of `b` is about and that shows in the editor. */
  predicate Shows(w: World, b: Baseline, p: Path) {
    EditedSince(w, b, p) && (b.scope.mayMutateUnknownFiles || p in b.scope.targets)
  }

  /** A user's change that a window ends without noticing: made inside it, or lost before and not
      overwritten by the agent since, without an open document at another version, and either taken for
      the tool's or never recorded. */
  predicate Slips(w: World, b: Baseline, p: Path) {
    && p in w.touched + w.lost && !Shows(w, b, p)
    && Lookup(w.disk, p) != Lookup(w.trusted, p)
    && (Lookup(w.disk, p) != Lookup(b.files, p) || p !in w.guard.external)
  }

  function Slipped(w: World, id: Id): set<Path> {
    if id in w.guard.baselines && w.guard.repository.Some? then
      set p | p in w.touched + w.lost && Slips(w, w.guard.baselines[id], p)
    else w.lost
  }

  function Perform(w: World, step: Step): World {
    match step
    case Started(repository, files, preExisting) =>
      World(Start(w.guard, repository, files, preExisting), files, files, {}, {}, {})
    case UserWrites(path, content) => w.(disk := Put(w.disk, path, content), touched := w.touched + {path})
    case AgentWrites(path, content) =>
      w.(disk := Put(w.disk, path, content), trusted := Put(w.trusted, path, content),
         written := w.written + {path}, lost := w.lost - {path})
    case EditorReports(report) => w.(guard := UpdateEditorState(w.guard, report))
    case ToolBegins(id, call) => Answered(w, BeforeTool(w.guard, id, call, w.disk).0)
    case TurnBegins(id) => Answered(w, BeginTurn(w.guard, id, w.disk).0)
    case ToolEnds(id) => w.(guard := AfterTool(w.guard, id, w.disk), lost := Slipped(w, id))
    case Reconciled => w.(guard := Reconcile(w.guard, w.disk), trusted := w.disk, lost := {})
    case Finished => w.(guard := Finish(w.guard))
  }

  /** Tool windows do not overlap, and the agent writes only inside one. */
  predicate Proper(w: World, step: Step) {
    match step
    case AgentWrites(_, _) => w.guard.baselines != map[]
    case ToolBegins(_, _) => w.guard.baselines == map[]
    case TurnBegins(_) => w.guard.baselines == map[]
    case _ => true
  }

  /** What the user wrote inside the window shows in an editor version when it ends. */
  predicate Visible(w: World, step: Step) {
    step.ToolEnds? && step.id in w.guard.baselines ==>
      forall p :: p in w.touched ==> Shows(w, w.guard.baselines[step.id], p)
  }

  /** The world after a run, None when one of its steps is not proper. */
  function Run(steps: seq<Step>): Option<World> {
    if steps == [] then Some(INITIAL)
    else
      var before := Run(steps[..|steps| - 1]);
      if before.Some? && Proper(before.value, steps[|steps| - 1]) then
        Some(Perform(before.value, steps[|steps| - 1]))
      else None
  }

  /** Every step of the run was visible. */
  predicate AllVisible(steps: seq<Step>) {
    steps == []
    || (var before := Run(steps[..|steps| - 1]);
        AllVisible(steps[..|steps| - 1]) && (before.Some? ==> Visible(before.value, steps[|steps| - 1])))
  }

  // ------------------------------------------------------------------------ the invariant

  /** Inside a window a path that is neither the user's nor lost is as the agent left it, or it was
      already recorded as the user's and has not changed; a path the user did not write has only been
      changed by the agent. */
  ghost predicate WindowOk(w: World, b: Baseline) {
    forall p :: p !in w.touched ==>
      && (p in w.lost || Lookup(w.disk, p) == Lookup(w.trusted, p)
          || (p in w.guard.external && Lookup(w.disk, p) == Lookup(b.files, p)))
      && (Lookup(w.disk, p) == Lookup(b.files, p) || p in w.written)
  }

  /** Between windows every path that is neither recorded as the user's nor lost is known with its
      trusted content. */
  ghost predicate QuietOk(w: World) {
    forall p :: p !in w.guard.external + w.lost ==> Lookup(w.guard.known, p) == Lookup(w.trusted, p)
  }

  ghost predicate WorldOk(w: World) {
    && (w.guard.repository.None? ==> w.guard.baselines == map[])
    && (w.guard.repository.Some? ==>
          && (forall id, id' :: id in w.guard.baselines && id' in w.guard.baselines ==> id == id')
          && (w.guard.baselines == map[] ==> QuietOk(w))
          && (forall id :: id in w.guard.baselines ==> WindowOk(w, w.guard.baselines[id])))
  }

  /** What was lost has been taken for known: it is known with another content than the trusted one. */
  ghost predicate LostOk(w: World) {
    w.guard.repository.Some? ==> forall p :: p in w.lost ==> Lookup(w.guard.known, p) != Lookup(w.trusted, p)
  }

  lemma LossKeeps(w: World, step: Step)
    requires LostOk(w)
    ensures LostOk(Perform(w, step))
  {
    hide AfterTool, BeforeTool, BeginTurn, UpdateEditorState, Slipped, Start, Put;
    match step
    case ToolEnds(id) => WindowLoses(w, id);
    case ToolBegins(id, call) => ToolKnowsNoMore(w.guard, id, call, w.disk);
    case TurnBegins(id) => TurnKnowsNoMore(w.guard, id, w.disk);
    case EditorReports(report) => ReportKnowsNoMore(w.guard, report);
    case _ =>
  }

  /** The fields that only starting, finishing and the editors write. */
  predicate SameSetting(g: Guard, g': Guard) {
    && g'.editors == g.editors && g'.reported == g.reported && g'.repository == g.repository
    && g'.preExisting == g.preExisting
  }

  lemma ToolKnowsNoMore(g: Guard, id: Id, call: ToolCall, disk: Disk)
    ensures var after := BeforeTool(g, id, call, disk).0; after.known == g.known && SameSetting(g, after)
  {
    hide MutationScope, Overlaps, Versions, Changed, Dirty;
  }

  lemma TurnKnowsNoMore(g: Guard, id: Id, disk: Disk)
    ensures var after := BeginTurn(g, id, disk).0; after.known == g.known && SameSetting(g, after)
  {
    hide Changed, Versions;
  }

  lemma EndKeepsSetting(g: Guard, id: Id, disk: Disk)
    ensures SameSetting(g, AfterTool(g, id, disk))
  {
    hide Concurrent, Attributed;
  }

  lemma ReportKnowsNoMore(g: Guard, report: Report)
    ensures var after := UpdateEditorState(g, report); after.known == g.known && after.repository == g.repository
  {
  }

  lemma WindowLoses(w: World, id: Id)
    requires LostOk(w)
    ensures LostOk(Perform(w, ToolEnds(id)))
  {
    hide Changed, Concurrent;
  }

  lemma WindowOpens(w: World, id: Id, scope: Scope)
    requires WorldOk(w) && w.guard.repository.Some? && w.guard.baselines == map[]
    ensures WorldOk(Answered(w, OpenWindow(Scanned(w.guard, w.disk), id, scope, w.disk)))
    ensures WorldOk(Answered(w, Scanned(w.guard, w.disk)))
  {
  }

  lemma ConcurrentAre(w: World, b: Baseline)
    ensures forall q :: q in Concurrent(w.guard, b) <==> Shows(w, b, q)
  {
  }

  lemma WindowCloses(w: World, id: Id)
    requires WorldOk(w)
    ensures WorldOk(Perform(w, ToolEnds(id)))
  {
    if id in w.guard.baselines {
      var b, after := w.guard.baselines[id], Perform(w, ToolEnds(id));
      assert w.guard.baselines - {id} == map[];
      assert WindowOk(w, b);
      ConcurrentAre(w, b);
      forall p | p !in after.guard.external + after.lost
        ensures Lookup(w.disk, p) == Lookup(w.trusted, p)
      {
        assert !Slips(w, b, p);
      }
    } else {
      assert w.guard.baselines - {id} == w.guard.baselines;
    }
  }

  lemma WriteKeeps(w: World, path: Path, content: Option<Fingerprint>)
    requires WorldOk(w)
    ensures WorldOk(Perform(w, UserWrites(path, content)))
    ensures w.guard.baselines != map[] ==> WorldOk(Perform(w, AgentWrites(path, content)))
  {
    hide Put;
    var after := Perform(w, AgentWrites(path, content));
    if w.guard.baselines != map[] {
      forall id | id in w.guard.baselines
        ensures WindowOk(after, w.guard.baselines[id])
      {
        assert WindowOk(w, w.guard.baselines[id]);
      }
    }
  }

  lemma ReportKeeps(w: World, report: Report)
    requires WorldOk(w)
    ensures WorldOk(Perform(w, EditorReports(report)))
  {
    var after := Perform(w, EditorReports(report));
    assert w.guard.external <= after.guard.external;
    assert after.guard.baselines == w.guard.baselines && after.guard.known == w.guard.known;
    forall id | id in w.guard.baselines
      ensures WindowOk(after, w.guard.baselines[id])
    {
      assert WindowOk(w, w.guard.baselines[id]);
    }
  }

  lemma StepKeeps(w: World, step: Step)
    requires WorldOk(w) && Proper(w, step)
    ensures WorldOk(Perform(w, step))
  {
    hide WindowOk;
    match step
    case UserWrites(path, content) => WriteKeeps(w, path, content);
    case AgentWrites(path, content) => WriteKeeps(w, path, content);
    case EditorReports(report) => ReportKeeps(w, report);
    case ToolBegins(id, call) =>
      if w.guard.repository.Some? { WindowOpens(w, id, MutationScope(call)); }
    case TurnBegins(id) =>
      if w.guard.repository.Some? { WindowOpens(w, id, TURN); }
    case ToolEnds(id) => WindowCloses(w, id);
    case _ =>
  }

  lemma {:induction false} RunIsOk(steps: seq<Step>)
    requires Run(steps).Some?
    ensures WorldOk(Run(steps).value) && LostOk(Run(steps).value)
    ensures AllVisible(steps) ==> Run(steps).value.lost == {}
  {
    if steps != [] {
      var n := |steps| - 1;
      RunIsOk(steps[..n]);
      StepKeeps(Run(steps[..n]).value, steps[n]);
      LossKeeps(Run(steps[..n]).value, steps[n]);
      if AllVisible(steps) { VisibleLosesNothing(Run(steps[..n]).value, steps[n]); }
    }
  }

  lemma VisibleLosesNothing(w: World, step: Step)
    requires w.lost == {} && Visible(w, step)
    ensures Perform(w, step).lost == {}
  {
  }

  // ------------------------------------------------------------------------- the theorems

  /** The document of the path is open with unsaved edits. */
  predicate BeingEdited(w: World, p: Path) {
    p in w.guard.editors && w.guard.editors[p].dirty
  }

  /** No change of the user's: the path holds what the guard started with, what the last reconcile
      accepted, or what the agent last wrote, and is not being edited. */
  ghost predicate Untouched(w: World, p: Path) {
    Lookup(w.disk, p) == Lookup(w.trusted, p) && !BeingEdited(w, p)
  }

  /** The calls that write: the editing tools, a refactoring that is applied, a shell command that the
      pattern for mutations matches. */
  predicate Writes(call: ToolCall) {
    || call.name == "edit" || call.name == "write" || call.name == "ast_edit"
    || AppliesRefactoring(call) || WritesAnywhere(call)
  }

  predicate AppliesRefactoring(call: ToolCall) {
    && call.name == "lsp" && call.lspApply
    && (call.lspAction == "rename" || call.lspAction == "rename_file" || call.lspAction == "code_actions")
  }

  /** Among them, those that may write files they do not name. */
  predicate WritesAnywhere(call: ToolCall) {
    call.name == "bash" && call.shellMutation
  }

  /** Among them, those that replace files as a whole. */
  predicate ReplacesFiles(call: ToolCall) {
    call.name == "write" || (AppliesRefactoring(call) && call.lspAction == "rename_file")
  }

  lemma ScopeOf(call: ToolCall)
    ensures var scope := MutationScope(call);
            && (scope.canMutate <==> Writes(call)) && scope.targets == call.targets
            && (scope.canMutate ==> (scope.mayMutateUnknownFiles <==> WritesAnywhere(call)))
            && (scope.replacesWholeFile <==> ReplacesFiles(call))
            && (scope.mayMutateUnknownFiles <==> call.name == "bash")
  {
  }

  /** Lost in a window, and nothing has happened to it since that the guard could see. */
  ghost predicate Hidden(w: World, p: Path) {
    && p in w.lost && p !in w.guard.external && !BeingEdited(w, p)
    && Lookup(w.disk, p) == Lookup(w.guard.known, p)
  }

  /** Over every run: an allowed targeted edit finds exactly those of its files untouched that were not
      lost in a window, and an allowed mutating shell command the same of the whole workspace; nobody is
      editing them, and what is replaced as a whole had no earlier uncommitted change. As long as what
      users write inside tool windows shows in their editors, nothing is lost. */
  lemma AllowedToolIsSafeExactlyWhen(steps: seq<Step>, id: Id, call: ToolCall)
    requires Run(steps).Some? && Proper(Run(steps).value, ToolBegins(id, call))
    requires var w := Run(steps).value;
      w.guard.repository.Some? && BeforeTool(w.guard, id, call, w.disk).1 == Allowed
    ensures var w := Run(steps).value;
      Writes(call) ==>
        forall p :: p in call.targets || WritesAnywhere(call) ==>
          && (Untouched(w, p) <==> p !in w.lost) && !BeingEdited(w, p)
          && (ReplacesFiles(call) || WritesAnywhere(call) ==> p !in w.guard.preExisting)
    ensures AllVisible(steps) ==> Run(steps).value.lost == {}
  {
    RunIsOk(steps);
    ScopeOf(call);
    var w, scope := Run(steps).value, MutationScope(call);
    var g1 := Scanned(w.guard, w.disk);
    if Writes(call) {
      assert Overlaps(g1, scope) == {};
      forall p | p in call.targets || WritesAnywhere(call)
        ensures (Untouched(w, p) <==> p !in w.lost) && !BeingEdited(w, p)
        ensures ReplacesFiles(call) || WritesAnywhere(call) ==> p !in w.guard.preExisting
      {
        assert p !in Overlaps(g1, scope);
        SettledPath(w, p);
      }
    }
  }

  /** A call that writes nothing is only held up by a conflict that is still pending. */
  lemma HarmlessCallPasses(w: World, id: Id, call: ToolCall)
    requires !Writes(call)
    ensures BeforeTool(w.guard, id, call, w.disk).1
            == if w.guard.pending.Some? then Conflicted(w.guard.pending.value) else Allowed
  {
    ScopeOf(call);
  }

  /** A path that the guard sees nothing on is untouched exactly when it was not lost. */
  lemma SettledPath(w: World, p: Path)
    requires WorldOk(w) && LostOk(w) && w.guard.repository.Some? && w.guard.baselines == map[]
    requires p !in w.guard.external && p !in Changed(w.guard.known, w.disk) && !BeingEdited(w, p)
    ensures Untouched(w, p) <==> p !in w.lost
  {
    assert Lookup(w.disk, p) == Lookup(w.guard.known, p);
  }

  /** A mutating call that names a file the user changed or is editing is refused, unless the change was
      lost in a window and nothing visible has happened to the file since. */
  lemma UserChangeBlocks(steps: seq<Step>, id: Id, call: ToolCall, p: Path)
    requires Run(steps).Some? && Proper(Run(steps).value, ToolBegins(id, call))
    requires Run(steps).value.guard.repository.Some?
    requires !Untouched(Run(steps).value, p) && !Hidden(Run(steps).value, p)
    requires Writes(call) && (p in call.targets || WritesAnywhere(call))
    ensures var w := Run(steps).value;
      var decision := BeforeTool(w.guard, id, call, w.disk).1;
      decision.Conflicted? && (w.guard.pending.None? ==> p in decision.conflict.paths)
  {
    RunIsOk(steps);
    ScopeOf(call);
    var w := Run(steps).value;
    if p !in w.guard.external && p !in Changed(w.guard.known, w.disk) && !BeingEdited(w, p) {
      SettledPath(w, p);
    }
    assert p in Overlaps(Scanned(w.guard, w.disk), MutationScope(call));
  }

  /** What was changed in the window of `b` by whoever wrote, except the documents the user edited. */
  ghost function Made(w: World, b: Baseline): set<Path> {
    set p | p in w.written + w.touched && Lookup(w.disk, p) != Lookup(b.files, p) && !Shows(w, b, p)
  }

  /** What the guard credits to an ending tool is exactly what was changed in the window, except the
      documents the user edited meanwhile. When the user's changes all show, it is all the agent's. */
  lemma CreditIsExact(steps: seq<Step>, id: Id)
    requires Run(steps).Some? && id in Run(steps).value.guard.baselines
    ensures var w := Run(steps).value;
      var b := w.guard.baselines[id];
      && (Visible(w, ToolEnds(id)) ==> Made(w, b) !! w.touched && Made(w, b) <= w.written)
      && AfterTool(w.guard, id, w.disk).mutations
         == if Made(w, b) == {} then w.guard.mutations else w.guard.mutations + [Mutation(id, Made(w, b))]
  {
    RunIsOk(steps);
    var w := Run(steps).value;
    var b := w.guard.baselines[id];
    assert WindowOk(w, b);
    ConcurrentAre(w, b);
    assert Attributed(w.guard, b, w.disk) == Made(w, b);
  }

  // ------------------------------------------------------------ where the guard loses track

  /** What still speaks against the call writing `q` when the window of `b` ends: being edited, recorded
      before and not changed in the window, or uncommitted from before. */
  predicate Against(w: World, b: Baseline, call: ToolCall, q: Path) {
    || BeingEdited(w, q)
    || (q in w.guard.external && Lookup(w.disk, q) == Lookup(b.files, q))
    || ((WritesAnywhere(call) || ReplacesFiles(call)) && q in w.guard.preExisting)
  }

  /** Over every run: when a window ends over a change of the user's to a file, a call that may write this
      file is allowed if and only if no document that the window was about was edited meanwhile and nothing
      speaks against any file the call may write. Whenever it is allowed, the change is lost. */
  lemma WindowIsSafeExactlyWhen(steps: seq<Step>, id: Id, later: Id, call: ToolCall, p: Path)
    requires Run(steps).Some? && id in Run(steps).value.guard.baselines
    requires Writes(call) && (p in call.targets || WritesAnywhere(call))
    requires Lookup(Run(steps).value.disk, p) != Lookup(Run(steps).value.trusted, p)
    ensures var w := Run(steps).value;
      var b, after := w.guard.baselines[id], Perform(w, ToolEnds(id));
      var allowed := BeforeTool(after.guard, later, call, after.disk).1 == Allowed;
      && (allowed <==>
            && (forall q :: !Shows(w, b, q))
            && forall q :: q in call.targets || WritesAnywhere(call) ==> !Against(w, b, call, q))
      && (allowed ==> p in after.lost && !Untouched(after, p))
  {
    RunIsOk(steps);
    ScopeOf(call);
    var w := Run(steps).value;
    var b, after := w.guard.baselines[id], Perform(w, ToolEnds(id));
    assert WindowOk(w, b);
    ConcurrentAre(w, b);
    var scope, g1 := MutationScope(call), Scanned(after.guard, after.disk);
    assert g1.external == after.guard.external;
    if Concurrent(w.guard, b) == {} {
      OverlapsAre(w, b, g1, call);
      assert Overlaps(g1, scope) == {} <==> forall q :: q !in Overlaps(g1, scope);
    }
    if BeforeTool(after.guard, later, call, after.disk).1 == Allowed {
      assert p !in Overlaps(g1, scope);
      assert Slips(w, b, p);
    }
  }

  lemma OverlapsAre(w: World, b: Baseline, g: Guard, call: ToolCall)
    requires g.editors == w.guard.editors && g.preExisting == w.guard.preExisting && Writes(call)
    requires forall q :: q in g.external <==> q in w.guard.external && Lookup(w.disk, q) == Lookup(b.files, q)
    ensures forall q :: q in Overlaps(g, MutationScope(call)) <==>
              (q in call.targets || WritesAnywhere(call)) && Against(w, b, call, q)
  {
    ScopeOf(call);
  }

  /** The coding process of another backend may start a turn only while the disk is what the guard
      knows and nothing is being edited. */
  lemma TurnAllowedExactlyWhen(g: Guard, id: Id, disk: Disk)
    requires g.repository.Some?
    ensures BeginTurn(g, id, disk).1 == Allowed
            <==> g.pending.None? && (forall p :: p in g.editors ==> !g.editors[p].dirty) && disk == g.known
  {
    assert Dirty(g.editors) == {} <==> forall p :: p in g.editors ==> !g.editors[p].dirty by {
      assert forall p :: p in Dirty(g.editors) <==> p in g.editors && g.editors[p].dirty;
    }
    if disk == g.known {
      assert Changed(g.known, disk) == {};
    }
    if Changed(g.known, disk) == {} {
      forall p ensures p in disk <==> p in g.known
      {
        assert Lookup(g.known, p) == Lookup(disk, p);
      }
      forall p | p in disk ensures disk[p] == g.known[p]
      {
        assert Lookup(g.known, p) == Lookup(disk, p);
      }
      assert disk == g.known;
    }
  }

  /** Over every run: a turn that may begin finds the whole workspace untouched if and only if nothing was
      lost in a window and every path recorded as the user's holds its trusted content all the same; so
      it does when nothing is recorded or lost. */
  lemma TurnIsSafeExactlyWhen(steps: seq<Step>, id: Id)
    requires Run(steps).Some? && Proper(Run(steps).value, TurnBegins(id))
    requires var w := Run(steps).value; w.guard.repository.Some? && BeginTurn(w.guard, id, w.disk).1 == Allowed
    ensures var w := Run(steps).value;
      (forall p :: Untouched(w, p))
      <==> w.lost == {} && forall p :: p in w.guard.external ==> Lookup(w.disk, p) == Lookup(w.trusted, p)
    ensures var w := Run(steps).value;
      w.guard.external == {} && AllVisible(steps) ==> forall p :: Untouched(w, p)
  {
    RunIsOk(steps);
    var w := Run(steps).value;
    TurnAllowedExactlyWhen(w.guard, id, w.disk);
    assert QuietOk(w);
    if w.lost != {} {
      var p :| p in w.lost;
      assert Lookup(w.guard.known, p) != Lookup(w.trusted, p);
      assert !Untouched(w, p);
    } else if forall p :: p in w.guard.external ==> Lookup(w.disk, p) == Lookup(w.trusted, p) {
      forall p
        ensures Untouched(w, p)
      {
        assert p !in w.guard.external + w.lost ==> Lookup(w.guard.known, p) == Lookup(w.trusted, p);
      }
    } else {
      var p :| p in w.guard.external && Lookup(w.disk, p) != Lookup(w.trusted, p);
      assert !Untouched(w, p);
    }
  }

  // ------------------------------------------------------ what the guard remembers of a run

  /** The last thing an editor said about the path. */
  function LastReport(steps: seq<Step>, p: Path): Option<Report> {
    if steps == [] then None
    else
      var n := |steps| - 1;
      if steps[n].EditorReports? && steps[n].report.path == p then Some(steps[n].report)
      else LastReport(steps[..n], p)
  }

  /** The repository being worked on. */
  function Worked(steps: seq<Step>): Option<Id> {
    if steps == [] then None
    else
      var n := |steps| - 1;
      if steps[n].Started? then Some(steps[n].repository)
      else if steps[n].Finished? then None
      else Worked(steps[..n])
  }

  /** What had uncommitted changes when the work began. */
  function Uncommitted(steps: seq<Step>): set<Path> {
    if steps == [] then {}
    else
      var n := |steps| - 1;
      if steps[n].Started? then steps[n].preExisting
      else if steps[n].Finished? then {}
      else Uncommitted(steps[..n])
  }

  /** The document of the path in the editors of the repository being worked on: as last reported for it
      since the work began, or as last reported at all when it began. */
  function Shown(steps: seq<Step>, p: Path): Option<Editor> {
    if steps == [] then None
    else
      var n := |steps| - 1;
      var before := steps[..n];
      match steps[n]
      case EditorReports(r) =>
        if r.path == p && r.inside && Worked(before) == Some(r.workspace) then (if r.open then Some(r.editor) else None)
        else Shown(before, p)
      case Started(repository, _, _) =>
        var last := LastReport(before, p);
        if last.Some? && last.value.open && last.value.inside && last.value.workspace == repository
        then Some(last.value.editor) else None
      case Finished => None
      case _ => Shown(before, p)
  }

  /** Over every run the guard knows the documents as the editors reported them, the repository, and what
      was uncommitted when the work began. */
  lemma {:induction false} GuardRemembers(steps: seq<Step>, p: Path)
    requires Run(steps).Some?
    ensures var g := Run(steps).value.guard;
      && Lookup(g.editors, p) == Shown(steps, p)
      && g.repository == Worked(steps) && g.preExisting == Uncommitted(steps)
      && Lookup(g.reported, p) == Kept(LastReport(steps, p))
  {
    if steps != [] {
      var n := |steps| - 1;
      GuardRemembers(steps[..n], p);
      hide Run, Shown, LastReport, Worked, Uncommitted, Kept;
      var w := RunStep(steps);
      RememberOne(steps, w, p);
    }
  }

  /** What is kept of a report. */
  function Kept(r: Option<Report>): Option<Reported> {
    if r.Some? && r.value.open then Some(Reported(r.value.workspace, r.value.inside, r.value.editor)) else None
  }

  lemma RunStep(steps: seq<Step>) returns (w: World)
    requires Run(steps).Some? && steps != []
    ensures var n := |steps| - 1;
      Run(steps[..n]) == Some(w) && Proper(w, steps[n]) && Run(steps).value == Perform(w, steps[n])
  {
    w := Run(steps[..|steps| - 1]).value;
  }

  /** Calls, turns, writes and reconciling leave these fields alone. */
  lemma StepRemembers(w: World, step: Step)
    requires !step.Started? && !step.Finished? && !step.EditorReports?
    ensures SameSetting(w.guard, Perform(w, step).guard)
  {
    hide BeforeTool, BeginTurn, AfterTool, Put, Slipped;
    match step
    case ToolBegins(id, call) => ToolKnowsNoMore(w.guard, id, call, w.disk);
    case TurnBegins(id) => TurnKnowsNoMore(w.guard, id, w.disk);
    case ToolEnds(id) => EndKeepsSetting(w.guard, id, w.disk);
    case _ =>
  }

  lemma RememberOne(steps: seq<Step>, w: World, p: Path)
    requires steps != [] && Run(steps).Some? && Run(steps).value == Perform(w, steps[|steps| - 1])
    requires var before := steps[..|steps| - 1];
      && Lookup(w.guard.editors, p) == Shown(before, p)
      && w.guard.repository == Worked(before) && w.guard.preExisting == Uncommitted(before)
      && Lookup(w.guard.reported, p) == Kept(LastReport(before, p))
    ensures var g := Run(steps).value.guard;
      && Lookup(g.editors, p) == Shown(steps, p)
      && g.repository == Worked(steps) && g.preExisting == Uncommitted(steps)
      && Lookup(g.reported, p) == Kept(LastReport(steps, p))
  {
    hide Run, Perform;
    match steps[|steps| - 1]
    case EditorReports(report) => ReportShows(w, report, p);
    case Started(repository, disk, preExisting) => StartShows(w, repository, disk, preExisting, p);
    case Finished => FinishShows(w, p);
    case _ => StepRemembers(w, steps[|steps| - 1]);
  }

  lemma ReportShows(w: World, r: Report, p: Path)
    ensures var g := Perform(w, EditorReports(r)).guard;
      && g.repository == w.guard.repository && g.preExisting == w.guard.preExisting
      && Lookup(g.reported, p) == (if r.path == p then Kept(Some(r)) else Lookup(w.guard.reported, p))
      && Lookup(g.editors, p) == (if r.path == p && r.inside && w.guard.repository == Some(r.workspace)
                                  then if r.open then Some(r.editor) else None
                                  else Lookup(w.guard.editors, p))
  {
  }

  lemma StartShows(w: World, repository: Id, disk: Disk, preExisting: set<Path>, p: Path)
    ensures var g, last := Perform(w, Started(repository, disk, preExisting)).guard, Lookup(w.guard.reported, p);
      && g.repository == Some(repository) && g.preExisting == preExisting && g.reported == w.guard.reported
      && Lookup(g.editors, p) == (if last.Some? && last.value.inside && last.value.workspace == repository
                                  then Some(last.value.editor) else None)
  {
  }

  lemma FinishShows(w: World, p: Path)
    ensures var g := Perform(w, Finished).guard;
      g.repository == None && g.preExisting == {} && g.reported == w.guard.reported && Lookup(g.editors, p) == None
  {
  }

  /** An editor that reports unsaved edits, or that they have just been saved, counts as a change of the
      user's from then on. */
  lemma EditingIsRecorded(w: World, report: Report)
    requires report.inside && w.guard.repository == Some(report.workspace)
    ensures var after := Perform(w, EditorReports(report));
      after.guard.external
      == w.guard.external + if report.editor.dirty || BeingEdited(w, report.path) then {report.path} else {}
  {
  }

  // ------------------------------------------------- what every step makes of the bookkeeping

  /** The window that the step ends. */
  function Ended(w: World, step: Step): Option<Baseline> {
    if step.ToolEnds? && w.guard.repository.Some? && step.id in w.guard.baselines then Some(w.guard.baselines[step.id])
    else None
  }

  /** A call or turn that begins, and is not held up by a pending conflict, looks at the disk. */
  predicate LooksAtDisk(w: World, step: Step) {
    (step.ToolBegins? || step.TurnBegins?) && w.guard.repository.Some? && w.guard.pending.None?
  }

  /** The last disk the guard has taken for known: where the work began, the user reconciled, or a window
      ended. */
  function KnownAfter(w: World, step: Step, p: Path): Option<Fingerprint> {
    match step
    case Started(_, files, _) => Lookup(files, p)
    case Finished => None
    case Reconciled => if w.guard.repository.Some? then Lookup(w.disk, p) else None
    case ToolEnds(_) => if Ended(w, step).Some? then Lookup(w.disk, p) else Lookup(w.guard.known, p)
    case _ => Lookup(w.guard.known, p)
  }

  /** The path counts as changed by the user: something else than known was found on the disk, or it was
      edited, and since then no window in which it changed has ended without an edit, and nobody reconciled. */
  predicate RecordedAfter(w: World, step: Step, p: Path) {
    match step
    case Started(_, _, _) => false
    case Finished => false
    case Reconciled => false
    case EditorReports(r) =>
      || p in w.guard.external
      || (p == r.path && r.inside && w.guard.repository == Some(r.workspace) && (r.editor.dirty || BeingEdited(w, p)))
    case ToolEnds(_) =>
      var b := Ended(w, step);
      if b.None? then p in w.guard.external
      else Shows(w, b.value, p) || (p in w.guard.external && Lookup(w.disk, p) == Lookup(b.value.files, p))
    case _ => p in w.guard.external || (LooksAtDisk(w, step) && Lookup(w.guard.known, p) != Lookup(w.disk, p))
  }

  /** A conflict is pending from a window that ends over an edit until the next one ends, the user
      reconciles, or the work begins anew. */
  ghost predicate PendingAfter(w: World, step: Step) {
    match step
    case Started(_, _, _) => false
    case Reconciled => false
    case ToolEnds(_) => Ended(w, step).Some? && exists p :: Shows(w, Ended(w, step).value, p)
    case _ => w.guard.pending.Some?
  }

  lemma StepRecords(w: World, step: Step, p: Path)
    ensures var g := Perform(w, step).guard;
      && Lookup(g.known, p) == KnownAfter(w, step, p)
      && (p in g.external <==> RecordedAfter(w, step, p))
      && (g.pending.Some? <==> PendingAfter(w, step))
  {
    hide Perform, KnownAfter, RecordedAfter, PendingAfter;
    match step
    case ToolEnds(id) => EndRecords(w, id, p);
    case ToolBegins(id, call) => ToolRecords(w, id, call, p);
    case TurnBegins(id) => TurnRecords(w, id, p);
    case _ => OtherRecords(w, step, p);
  }

  lemma EndRecords(w: World, id: Id, p: Path)
    ensures var step := ToolEnds(id); var g := Perform(w, step).guard;
      && Lookup(g.known, p) == KnownAfter(w, step, p)
      && (p in g.external <==> RecordedAfter(w, step, p))
      && (g.pending.Some? <==> PendingAfter(w, step))
  {
    hide Slipped, Versions, Dirty;
    if Ended(w, ToolEnds(id)).Some? {
      var b := w.guard.baselines[id];
      ConcurrentAre(w, b);
      assert Concurrent(w.guard, b) == {} <==> forall q :: q !in Concurrent(w.guard, b);
    }
  }

  lemma ToolRecords(w: World, id: Id, call: ToolCall, p: Path)
    ensures var step := ToolBegins(id, call); var g := Perform(w, step).guard;
      && Lookup(g.known, p) == KnownAfter(w, step, p)
      && (p in g.external <==> RecordedAfter(w, step, p))
      && (g.pending.Some? <==> PendingAfter(w, step))
  {
    hide BeforeTool;
    ToolKnowsNoMore(w.guard, id, call, w.disk);
    ToolScans(w.guard, id, call, w.disk);
  }

  lemma ToolScans(g: Guard, id: Id, call: ToolCall, disk: Disk)
    ensures var after := BeforeTool(g, id, call, disk).0;
      && after.pending == g.pending
      && after.external == if g.pending.Some? || g.repository.None? then g.external
                           else g.external + Changed(g.known, disk)
  {
    hide MutationScope, Overlaps, Versions, Changed, Dirty;
  }

  lemma TurnScans(g: Guard, id: Id, disk: Disk)
    ensures var after := BeginTurn(g, id, disk).0;
      && after.pending == g.pending
      && after.external == if g.pending.Some? || g.repository.None? then g.external
                           else g.external + Changed(g.known, disk)
  {
    hide Versions, Changed, Dirty;
  }

  lemma TurnRecords(w: World, id: Id, p: Path)
    ensures var step := TurnBegins(id); var g := Perform(w, step).guard;
      && Lookup(g.known, p) == KnownAfter(w, step, p)
      && (p in g.external <==> RecordedAfter(w, step, p))
      && (g.pending.Some? <==> PendingAfter(w, step))
  {
    hide BeginTurn;
    TurnKnowsNoMore(w.guard, id, w.disk);
    TurnScans(w.guard, id, w.disk);
  }

  lemma OtherRecords(w: World, step: Step, p: Path)
    requires !step.ToolBegins? && !step.TurnBegins? && !step.ToolEnds?
    ensures var g := Perform(w, step).guard;
      && Lookup(g.known, p) == KnownAfter(w, step, p)
      && (p in g.external <==> RecordedAfter(w, step, p))
      && (g.pending.Some? <==> PendingAfter(w, step))
  {
    hide Put;
  }

  /** Finishing forgets everything but what editors reported and a conflict that is still pending. */
  lemma FinishForgets(w: World)
    ensures Perform(w, Finished).guard == IDLE.(reported := w.guard.reported, pending := w.guard.pending)
  {
  }

  // --------------------------------------------------------------------- a window over a run

  /** What the window opened by the step is about: everything, or what the call names. */
  predicate Concerns(step: Step, p: Path)
    requires step.ToolBegins? || step.TurnBegins?
  {
    step.TurnBegins? || step.call.name == "bash" || p in step.call.targets
  }

  predicate Undisturbed(step: Step, id: Id) {
    !step.Started? && !step.Reconciled? && !step.Finished? && step != ToolEnds(id)
  }

  /** The step opens a window: the guard answers that the call or turn may go on, and the call writes or
      is a shell command. */
  predicate WindowOpened(w: World, step: Step)
    requires step.ToolBegins? || step.TurnBegins?
  {
    && w.guard.repository.Some?
    && (if step.TurnBegins? then BeginTurn(w.guard, step.id, w.disk).1 == Allowed
        else BeforeTool(w.guard, step.id, step.call, w.disk).1 == Allowed
             && (Writes(step.call) || step.call.name == "bash"))
  }

  lemma OpeningRemembers(w: World, step: Step)
    requires (step.ToolBegins? || step.TurnBegins?) && WindowOpened(w, step)
    ensures var g := Perform(w, step).guard;
      && step.id in g.baselines && g.baselines[step.id].files == w.disk
      && (forall p :: Lookup(g.baselines[step.id].versions, p)
                      == if p in w.guard.editors then Some(w.guard.editors[p].version) else None)
      && (forall p :: Concerns(step, p) <==>
            g.baselines[step.id].scope.mayMutateUnknownFiles || p in g.baselines[step.id].scope.targets)
  {
    if step.ToolBegins? { ScopeOf(step.call); }
  }

  lemma InsideKeeps(w: World, step: Step, id: Id)
    requires id in w.guard.baselines && Undisturbed(step, id) && Proper(w, step)
    ensures id in Perform(w, step).guard.baselines
    ensures Perform(w, step).guard.baselines[id] == w.guard.baselines[id]
  {
  }

  lemma {:induction false} WindowRemembers(before: seq<Step>, begin: Step, inside: seq<Step>)
    requires (begin.ToolBegins? || begin.TurnBegins?) && Run(before + [begin] + inside).Some?
    requires forall i :: 0 <= i < |inside| ==> Undisturbed(inside[i], begin.id)
    requires Run(before).Some? && WindowOpened(Run(before).value, begin)
    ensures var first, now := Perform(Run(before).value, begin).guard, Run(before + [begin] + inside).value.guard;
      begin.id in first.baselines && begin.id in now.baselines
      && now.baselines[begin.id] == first.baselines[begin.id]
    decreases |inside|
  {
    hide Perform;
    var all := before + [begin] + inside;
    var w := RunStep(all);
    if inside == [] {
      assert all[..|all| - 1] == before;
      OpeningRemembers(w, begin);
    } else {
      var n := |inside| - 1;
      assert all[..|all| - 1] == before + [begin] + inside[..n];
      WindowRemembers(before, begin, inside[..n]);
      InsideKeeps(w, inside[n], begin.id);
    }
  }

  /** Over every run: the documents a window is about that are open at its end at another version than at
      its beginning, or were not open then, are exactly what its end reports; they count as changes of the
      user's, and every call is refused until the next window ends or the user reconciles. Without any,
      nothing is reported. */
  lemma WindowReportsExactly(before: seq<Step>, begin: Step, inside: seq<Step>, later: Id, call: ToolCall)
    requires (begin.ToolBegins? || begin.TurnBegins?) && Run(before + [begin] + inside).Some?
    requires forall i :: 0 <= i < |inside| ==> Undisturbed(inside[i], begin.id)
    requires Run(before).Some? && WindowOpened(Run(before).value, begin)
    requires Worked(before + [begin] + inside).Some?
    ensures var all := before + [begin] + inside;
      var after := Perform(Run(all).value, ToolEnds(begin.id));
      && (after.guard.pending.None? <==> forall p :: !EditedDuring(before, all, begin, p))
      && (after.guard.pending.Some? ==>
            && (forall p :: p in after.guard.pending.value.paths <==> EditedDuring(before, all, begin, p))
            && after.guard.pending.value.paths <= after.guard.external
            && BeforeTool(after.guard, later, call, after.disk).1 == Conflicted(after.guard.pending.value)
            && BeginTurn(after.guard, later, after.disk).1 == Conflicted(after.guard.pending.value))
  {
    hide Run, Shown, Worked, Perform, WindowOpened;
    var all := before + [begin] + inside;
    WindowRemembers(before, begin, inside);
    OpeningRemembers(Run(before).value, begin);
    var w := Run(all).value;
    var b := w.guard.baselines[begin.id];
    ConcurrentAre(w, b);
    forall p
      ensures Shows(w, b, p) <==> EditedDuring(before, all, begin, p)
    {
      GuardRemembers(all, p);
      GuardRemembers(before, p);
    }
    GuardRemembers(all, 0);
    EndingReports(w, begin.id, later, call);
  }

  predicate EditedDuring(before: seq<Step>, all: seq<Step>, begin: Step, p: Path)
    requires begin.ToolBegins? || begin.TurnBegins?
  {
    && Concerns(begin, p) && Shown(all, p).Some?
    && (Shown(before, p).None? || Shown(before, p).value.version != Shown(all, p).value.version)
  }

  lemma EndingReports(w: World, id: Id, later: Id, call: ToolCall)
    requires id in w.guard.baselines && w.guard.repository.Some?
    ensures var after, b := Perform(w, ToolEnds(id)), w.guard.baselines[id];
      && (after.guard.pending.None? <==> forall p :: !Shows(w, b, p))
      && (after.guard.pending.Some? ==>
            && (forall p :: p in after.guard.pending.value.paths <==> Shows(w, b, p))
            && after.guard.pending.value.paths <= after.guard.external
            && BeforeTool(after.guard, later, call, after.disk).1 == Conflicted(after.guard.pending.value)
            && BeginTurn(after.guard, later, after.disk).1 == Conflicted(after.guard.pending.value))
  {
    ConcurrentAre(w, w.guard.baselines[id]);
    var b := w.guard.baselines[id];
    assert Concurrent(w.guard, b) == {} <==> forall p :: p !in Concurrent(w.guard, b);
  }

  // --------------------------------------------------------------------- two concrete runs

  lemma Extend(steps: seq<Step>, n: nat, w: World)
    requires n < |steps| && Run(steps[..n]) == Some(w) && Proper(w, steps[n])
    ensures Run(steps[..n + 1]) == Some(Perform(w, steps[n]))
  {
    assert steps[..n + 1][..n] == steps[..n];
  }

  lemma Beginning(steps: seq<Step>)
    ensures Run(steps[..0]) == Some(INITIAL)
  {
  }

  function EditOf(p: Path): ToolCall {
    ToolCall("edit", {p}, false, "", false)
  }

  function SeenInEditor(version: nat, dirty: bool, open: bool): Report {
    Report(0, 7, true, Editor(version, dirty), open)
  }

  /** The user edits, saves and closes a document inside a tool's window. */
  const CLOSED_DOCUMENT := [
    Started(0, map[7 := 1], {}),
    EditorReports(SeenInEditor(1, false, true)),
    ToolBegins(5, EditOf(7)),
    EditorReports(SeenInEditor(2, true, true)),
    UserWrites(7, Some(2)),
    EditorReports(SeenInEditor(2, false, false)),
    ToolEnds(5)]

  /** The user changes a file before a tool that writes another one. */
  const RECORDED_CHANGE := [
    Started(0, map[1 := 1, 2 := 1], {}),
    UserWrites(1, Some(9)),
    ToolBegins(5, EditOf(2)),
    AgentWrites(2, Some(3)),
    ToolEnds(5)]

  /** The world inside the window of tool 5, with file 7 open in the editor. */
  const EDITING := World(
    Guard(Some(0), map[7 := 1], {}, {}, map[7 := Editor(1, false)], map[7 := Reported(0, true, Editor(1, false))],
          map[5 := Baseline(MutationScope(EditOf(7)), map[7 := 1], map[7 := 1])], None, []),
    map[7 := 1], map[7 := 1], {}, {}, {})

  lemma EditingIsReached()
    ensures Run(CLOSED_DOCUMENT[..3]) == Some(EDITING)
  {
    hide Run;
    Beginning(CLOSED_DOCUMENT);
    var disk: Disk := map[7 := 1];
    var w1 := World(Start(IDLE, 0, disk, {}), disk, disk, {}, {}, {});
    Extend(CLOSED_DOCUMENT, 0, INITIAL);
    Extend(CLOSED_DOCUMENT, 1, w1);
    var g2 := UpdateEditorState(w1.guard, SeenInEditor(1, false, true));
    assert g2.editors == map[7 := Editor(1, false)];
    assert Changed(disk, disk) == {} && Scanned(g2, disk) == g2;
    assert Overlaps(g2, MutationScope(EditOf(7))) == {};
    assert Versions(g2.editors) == map[7 := 1];
    assert BeforeTool(g2, 5, EditOf(7), disk).0 == EDITING.guard;
    Extend(CLOSED_DOCUMENT, 2, w1.(guard := g2));
  }

  lemma SavingIsReached() returns (w: World)
    ensures Run(CLOSED_DOCUMENT[..5]) == Some(w)
    ensures w.guard == UpdateEditorState(EDITING.guard, SeenInEditor(2, true, true))
    ensures w.disk == map[7 := 2] && w.trusted == map[7 := 1] && w.touched == {7} && w.lost == {}
  {
    hide Run, UpdateEditorState;
    EditingIsReached();
    var c := CLOSED_DOCUMENT;
    var w4 := Perform(EDITING, c[3]);
    w := Perform(w4, c[4]);
    Extend(c, 3, EDITING);
    Extend(c, 4, w4);
    assert w.disk == map[7 := 2];
  }

  /** The world of that run before its tool ends. */
  lemma ClosingIsReached() returns (w: World)
    ensures Run(CLOSED_DOCUMENT[..6]) == Some(w)
    ensures w.guard == EDITING.guard.(external := {7}, editors := map[], reported := map[])
    ensures w.disk == map[7 := 2] && w.trusted == map[7 := 1] && w.touched == {7} && w.lost == {}
  {
    hide Run;
    var w5 := SavingIsReached();
    w := Perform(w5, CLOSED_DOCUMENT[5]);
    Extend(CLOSED_DOCUMENT, 5, w5);
    assert w.guard.editors == map[] && w.guard.reported == map[];
  }

  /** The change is credited to the tool, and the next edit of the file is allowed over it. */
  lemma ClosedDocumentEscapes()
    ensures Run(CLOSED_DOCUMENT).Some?
    ensures var w := Run(CLOSED_DOCUMENT).value;
      && w.guard.mutations == [Mutation(5, {7})] && w.lost == {7} && !Untouched(w, 7)
      && BeforeTool(w.guard, 6, EditOf(7), w.disk).1 == Allowed
  {
    hide Run;
    var before := ClosingIsReached();
    var c, b, disk := CLOSED_DOCUMENT, before.guard.baselines[5], before.disk;
    var w := Perform(before, ToolEnds(5));
    Extend(c, 6, before);
    assert c[..7] == c;
    assert Concurrent(before.guard, b) == {} && Changed(b.files, disk) == {7};
    assert Attributed(before.guard, b, disk) == {7};
    assert Slips(before, b, 7);
    assert w.guard.external == {} && w.guard.known == disk;
    assert Changed(disk, disk) == {} && Scanned(w.guard, disk) == w.guard;
    assert Overlaps(w.guard, MutationScope(EditOf(7))) == {};
  }

  /** The guard has recorded the change, and a turn of another backend may begin all the same. */
  lemma RecordedChangeDoesNotStopTurn()
    ensures Run(RECORDED_CHANGE).Some?
    ensures var w := Run(RECORDED_CHANGE).value;
      && Proper(w, TurnBegins(6)) && w.lost == {} && w.guard.external == {1}
      && BeginTurn(w.guard, 6, w.disk).1 == Allowed && !Untouched(w, 1)
  {
    hide Run;
    var w4 := WrittenIsReached();
    var c, w, disk := RECORDED_CHANGE, Perform(w4, ToolEnds(5)), w4.disk;
    Extend(c, 4, w4);
    assert c[..5] == c;
    var b := w4.guard.baselines[5];
    assert Concurrent(w4.guard, b) == {} && Changed(b.files, disk) == {2};
    assert Slipped(w4, 5) == {};
    assert w4.guard.baselines - {5} == map[];
    assert w.guard.external == {1};
    assert Changed(disk, disk) == {} && Dirty(w.guard.editors) == {};
  }

  lemma WrittenIsReached() returns (w: World)
    ensures Run(RECORDED_CHANGE[..4]) == Some(w)
    ensures w.disk == map[1 := 9, 2 := 3] && w.trusted == map[1 := 1, 2 := 3] && w.touched == {} && w.lost == {}
    ensures w.guard == Guard(Some(0), map[1 := 1, 2 := 1], {}, {1}, map[], map[],
                             map[5 := Baseline(MutationScope(EditOf(2)), map[1 := 9, 2 := 1], map[])], None, [])
  {
    hide Run;
    var before := RecordedIsReached();
    assert 5 in before.guard.baselines;
    Extend(RECORDED_CHANGE, 3, before);
    w := Perform(before, AgentWrites(2, Some(3)));
    assert w.disk == map[1 := 9, 2 := 3] && w.trusted == map[1 := 1, 2 := 3];
  }

  lemma RecordedIsReached() returns (w: World)
    ensures Run(RECORDED_CHANGE[..3]) == Some(w)
    ensures var files: Disk := map[1 := 9, 2 := 1];
      && w.disk == files && w.trusted == map[1 := 1, 2 := 1] && w.touched == {} && w.lost == {}
      && w.guard == Guard(Some(0), w.trusted, {}, {1}, map[], map[],
                          map[5 := Baseline(MutationScope(EditOf(2)), files, map[])], None, [])
  {
    hide Run;
    var c := RECORDED_CHANGE;
    Beginning(c);
    var start: Disk := map[1 := 1, 2 := 1];
    var files: Disk := map[1 := 9, 2 := 1];
    var g := Start(IDLE, 0, start, {});
    assert g.editors == map[];
    var w1 := World(g, start, start, {}, {}, {});
    var w2 := Perform(w1, c[1]);
    assert w2.disk == files;
    Extend(c, 0, INITIAL);
    Extend(c, 1, w1);
    Extend(c, 2, w2);
    w := Perform(w2, c[2]);
    assert Changed(start, files) == {1};
    assert Overlaps(Scanned(g, files), MutationScope(EditOf(2))) == {};
    assert Versions(g.editors) == map[];
  }

  // ---------------------------------------------------------------- the guard as an object

  /** `WorkspaceGuard`: the fields its methods update in place. */
  class WorkspaceGuard {
    var repository: Option<Id>
    var known: Disk
    var preExisting: set<Path>
    var external: set<Path>
    var editors: map<Path, Editor>
    var reported: map<Path, Reported>
    var baselines: map<Id, Baseline>
    var pending: Option<Overlap>
    var mutations: seq<Mutation>

    function Value(): Guard
      reads this
    {
      Guard(repository, known, preExisting, external, editors, reported, baselines, pending, mutations)
    }

    constructor ()
      ensures Value() == IDLE
    {
      repository, known, preExisting, external := None, map[], {}, {};
      editors, reported, baselines, pending, mutations := map[], map[], map[], None, [];
    }

    /** The editors reported for the repository that is being opened. */
    method RestoreEditors(repositoryId: Id)
      modifies this`editors
      ensures editors == map p | p in reported && reported[p].workspace == repositoryId && reported[p].inside
                           :: reported[p].editor
    {
      editors := map[];
      var todo := reported.Keys;
      while todo != {}
        invariant todo <= reported.Keys
        invariant forall p :: p in editors <==>
            p in reported && p !in todo && reported[p].workspace == repositoryId && reported[p].inside
        invariant forall p :: p in editors ==> editors[p] == reported[p].editor
      {
        var p :| p in todo;
        todo := todo - {p};
        if reported[p].workspace == repositoryId && reported[p].inside {
          editors := editors[p := reported[p].editor];
        }
      }
    }

    /** `start`, given what the scan and git report. */
    method Begin(repositoryId: Id, files: Disk, changes: set<Path>)
      modifies this
      ensures Value() == Start(old(Value()), repositoryId, files, changes)
    {
      RestoreEditors(repositoryId);
      repository := Some(repositoryId);
      known, preExisting, external := files, changes, {};
      baselines, mutations, pending := map[], [], None;
    }

    method EditorState(r: Report)
      modifies this
      ensures Value() == UpdateEditorState(old(Value()), r)
    {
      if r.open {
        reported := reported[r.path := Reported(r.workspace, r.inside, r.editor)];
      } else {
        reported := reported - {r.path};
      }
      if repository != Some(r.workspace) || !r.inside {
        return;
      }
      var wasDirty := r.path in editors && editors[r.path].dirty;
      if r.open {
        editors := editors[r.path := r.editor];
      } else {
        editors := editors - {r.path};
      }
      if r.editor.dirty || wasDirty {
        external := external + {r.path};
      }
    }

    /** The loop that adds what changed since the last known state to the external changes. */
    method NoteExternal(files: Disk)
      modifies this`external
      ensures Value() == Scanned(old(Value()), files)
    {
      var todo := Changed(known, files);
      while todo != {}
        invariant external + todo == old(external) + Changed(known, files)
      {
        var p :| p in todo;
        todo := todo - {p};
        external := external + {p};
      }
    }

    method Before(id: Id, call: ToolCall, files: Disk) returns (decision: Decision)
      modifies this`external, this`baselines
      ensures (Value(), decision) == BeforeTool(old(Value()), id, call, files)
    {
      if pending.Some? {
        return Conflicted(pending.value);
      }
      if repository.None? {
        return Allowed;
      }
      NoteExternal(files);
      var scope := MutationScope(call);
      if !scope.canMutate {
        if scope.mayMutateUnknownFiles {
          baselines := baselines[id := Baseline(scope, files, Versions(editors))];
        }
        return Allowed;
      }
      var overlaps := Overlaps(Value(), scope);
      if overlaps != {} {
        return Conflicted(Overlap(overlaps, external, Dirty(editors)));
      }
      baselines := baselines[id := Baseline(scope, files, Versions(editors))];
      return Allowed;
    }

    method BeginExternalTurn(id: Id, files: Disk) returns (decision: Decision)
      modifies this`external, this`baselines
      ensures (Value(), decision) == BeginTurn(old(Value()), id, files)
    {
      if pending.Some? {
        return Conflicted(pending.value);
      }
      if repository.None? {
        return Allowed;
      }
      var overlaps := Changed(known, files) + Dirty(editors);
      NoteExternal(files);
      if overlaps != {} {
        return Conflicted(Overlap(overlaps, external, Dirty(editors)));
      }
      baselines := baselines[id := Baseline(TURN, files, Versions(editors))];
      return Allowed;
    }

    /** `afterTool`. */
    method After(id: Id, files: Disk) returns (conflict: Option<Overlap>)
      modifies this
      ensures Value() == AfterTool(old(Value()), id, files) && conflict == pending
    {
      pending, conflict := None, None;
      if id !in baselines {
        baselines := baselines - {id};
        assert baselines == old(baselines);
        return;
      }
      var b := baselines[id];
      baselines := baselines - {id};
      if repository.None? {
        return;
      }
      conflict := Attribute(id, b, files);
    }

    /** `#attributeTool`. */
    method Attribute(id: Id, b: Baseline, files: Disk) returns (conflict: Option<Overlap>)
      requires pending.None?
      modifies this
      ensures Value() == AttributeTool(old(Value()), id, b, files) && conflict == pending
    {
      hide Concurrent, Changed, Dirty;
      conflict := None;
      var concurrent := Concurrent(Value(), b);
      var attributed := Changed(b.files, files) - concurrent;
      external, known := external - attributed, files;
      if attributed != {} {
        mutations := mutations + [Mutation(id, attributed)];
      }
      if concurrent == {} {
        return;
      }
      external := external + concurrent;
      conflict := Some(Overlap(concurrent, external, Dirty(editors)));
      pending := conflict;
    }

    /** Reports the first mutation recorded under the id, even when that is an earlier turn's; a
        fresh id gets exactly what was credited to it. */
    method EndExternalTurn(id: Id, files: Disk) returns (changedFiles: set<Path>, conflict: Option<Overlap>)
      modifies this
      ensures Value() == AfterTool(old(Value()), id, files) && conflict == pending
      ensures (forall i :: 0 <= i < |mutations| ==> mutations[i].toolCallId != id) ==> changedFiles == {}
      ensures forall i | 0 <= i < |mutations| && mutations[i].toolCallId == id ::
                (forall j :: 0 <= j < i ==> mutations[j].toolCallId != id) ==> changedFiles == mutations[i].paths
      ensures (forall m :: m in old(mutations) ==> m.toolCallId != id) && old(repository.Some? && id in baselines)
              ==> changedFiles == Attributed(old(Value()), old(baselines)[id], files)
    {
      conflict := After(id, files);
      changedFiles := {};
      ghost var last := |mutations| - 1;
      assert old(repository.Some? && id in baselines) && Attributed(old(Value()), old(baselines)[id], files) != {} ==>
          last >= 0 && mutations[last] == Mutation(id, Attributed(old(Value()), old(baselines)[id], files));
      for i := 0 to |mutations|
        invariant forall j :: 0 <= j < i ==> mutations[j].toolCallId != id
      {
        if mutations[i].toolCallId == id {
          changedFiles := mutations[i].paths;
          return;
        }
      }
    }

    /** The result is what the reconciliation accepted. */
    method Accept(files: Disk) returns (accepted: set<Path>)
      modifies this
      ensures Value() == Reconcile(old(Value()), files)
      ensures old(repository.Some?) ==> accepted == old(external) + Changed(old(known), files)
    {
      var current := if repository.None? then map[] else files;
      accepted := external + Changed(known, current);
      pending, known, external, baselines := None, current, {}, map[];
    }

    method End()
      modifies this
      ensures Value() == Finish(old(Value()))
    {
      repository, known, preExisting, external := None, map[], {}, {};
      editors, baselines, mutations := map[], map[], [];
    }
  }
}

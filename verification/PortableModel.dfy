/** Portable declarations and their resolution against a workspace (crates/idk/src/portable.rs). */
module PortableModel {
  import opened Faults
  import Text

  type Id = nat

  /** A path by its components; a relative one may hold the components "." and "..". */
  datatype Path = Path(absolute: bool, parts: seq<string>)

  function WithoutDots(parts: seq<string>): seq<string> {
    if parts == [] then []
    else (if parts[0] == "." then [] else [parts[0]]) + WithoutDots(parts[1..])
  }

  /** `path`: relative values are taken from the base, and "." components vanish. */
  function At(base: Path, value: Path): Path {
    if value.absolute then Path(true, WithoutDots(value.parts))
    else Path(base.absolute, WithoutDots(base.parts + value.parts))
  }

  datatype Program = Explicit(path: Path) | Bare(name: string)

  datatype Source = Source(path: Path, args: seq<string>)

  datatype Native = Native(args: seq<string>, env: map<string, string>)

  datatype Shell = Shell(
    executable: Path, login: bool, initCwd: Path, sources: seq<Source>,
    native: Option<Native>, trusted: Option<string>)

  datatype Terminal = Terminal(
    id: Id, name: string, cwd: Path, sources: seq<Source>, persistent: bool, trusted: Option<string>)

  datatype Execution =
    | Process(program: Path, args: seq<string>, env: map<string, string>)
    | Script(interpreter: Path, args: seq<string>, script: string, env: map<string, string>)

  datatype TaskStep = TaskStep(name: string, command: string)

  datatype Task = Task(
    id: Id, name: string, execution: Option<Execution>, command: string, cwd: Path, sources: seq<Source>,
    artifact: Option<Path>, approved: Option<string>, steps: seq<TaskStep>, stopOnFailure: bool, rawLog: bool,
    interactive: bool, outputs: seq<Path>, artifactFrom: Option<Id>, timeout: Option<nat>)

  datatype Editor = Editor(executable: Path, args: seq<string>, externalGui: bool)

  datatype Project = Project(
    id: Id, name: string, root: Path, repository: Option<Path>, defaultTerminal: Option<Id>,
    shell: Shell, terminals: seq<Terminal>, tasks: seq<Task>, editor: Option<Editor>)

  datatype ShellDeclaration = ShellDeclaration(
    program: Option<Program>, args: Option<seq<string>>, env: map<string, string>, unset: seq<string>,
    clear: bool, cwd: Option<Path>, legacy: Option<bool>, login: Option<bool>, sources: Option<seq<Source>>)

  datatype EditorDeclaration = EditorDeclaration(
    program: Option<Program>, args: Option<seq<string>>, externalGui: Option<bool>)

  datatype TerminalDeclaration = TerminalDeclaration(
    name: Option<string>, cwd: Option<Path>, sources: Option<seq<Source>>, persistent: Option<bool>)

  datatype TaskDeclaration = TaskDeclaration(
    name: Option<string>, program: Option<Program>, args: Option<seq<string>>, interpreter: Option<Program>,
    script: Option<string>, command: Option<string>, cwd: Option<Path>, env: map<string, string>,
    sources: seq<Source>, steps: seq<TaskStep>, interactive: bool, disableLogging: bool,
    continueOnFailure: bool, artifact: Option<Path>, outputs: seq<Path>, artifactFrom: Option<string>,
    timeout: Option<nat>)

  /** An ordered table: entries in key order, each key once. */
  datatype Entry<+V> = Entry(key: string, value: V)

  predicate HasKey<V>(entries: seq<Entry<V>>, key: string) {
    exists i :: 0 <= i < |entries| && entries[i].key == key
  }

  datatype Declaration = Declaration(
    name: Option<string>, shell: Option<ShellDeclaration>, editor: Option<EditorDeclaration>,
    terminals: seq<Entry<TerminalDeclaration>>, tasks: seq<Entry<TaskDeclaration>>)

  const EMPTY_DECLARATION := Declaration(None, None, None, [], [])

  datatype Preferences = Preferences(shell: Option<ShellDeclaration>, editor: Option<EditorDeclaration>)

  datatype Binding = Binding(taskIds: map<string, Id>, terminalIds: map<string, Id>, resolved: Project)

  /** What the request and the file system contribute, and the checks of single fields. */
  datatype Environment = Environment(
    root: Path, configDir: Path, rootName: string, repository: Option<Path>,
    executable: Path -> bool, search: (string, Path) -> Option<Path>, defaultShell: Option<Path>,
    discovered: Option<Editor>,
    acceptsExecution: (seq<string>, map<string, string>) -> bool, acceptsUnset: string -> bool,
    connectable: (string, Shell) -> bool, fields: Project -> bool)

  /** Fresh identities for a new project and for keys that have none yet. */
  datatype Fresh = Fresh(project: Id, task: string -> Id, terminal: string -> Id)

  // ---------------------------------------------------------------- valid projects

  /** An absolute path as its components: "." never occurs among them. */
  predicate Plain(path: Path) {
    path.absolute && "." !in path.parts
  }

  predicate PlainSources(sources: seq<Source>) {
    forall i :: 0 <= i < |sources| ==> Plain(sources[i].path)
  }

  predicate PlainPaths(paths: seq<Path>) {
    forall i :: 0 <= i < |paths| ==> Plain(paths[i])
  }

  predicate WellFormedTerminal(t: Terminal) {
    Text.ValidName(t.name) && Plain(t.cwd) && PlainSources(t.sources)
  }

  function ProgramOf(e: Execution): Path {
    match e
    case Process(program, _, _) => program
    case Script(interpreter, _, _, _) => interpreter
  }

  predicate WellFormedTask(t: Task) {
    && Text.ValidName(t.name) && Plain(t.cwd) && PlainSources(t.sources) && PlainPaths(t.outputs)
    && (t.execution.Some? ==> t.command == "" && t.steps == [] && t.sources == [] && Plain(ProgramOf(t.execution.value)))
    && (t.execution.None? && t.steps == [] ==> exists c :: c in t.command && !Text.IsWhitespace(c))
    && (t.interactive ==> !t.rawLog)
    && (t.artifact.Some? ==> Plain(t.artifact.value))
  }

  predicate PersistentIn(terminals: seq<Terminal>, id: Option<Id>) {
    id.Some? && exists i :: 0 <= i < |terminals| && terminals[i].id == id.value && terminals[i].persistent
  }

  predicate DistinctTerminals(ts: seq<Terminal>) {
    forall i, j :: 0 <= i < j < |ts| ==> ts[i].id != ts[j].id
  }

  predicate DistinctTasks(ts: seq<Task>) {
    forall i, j :: 0 <= i < j < |ts| ==> ts[i].id != ts[j].id
  }

  /** The checks of `Project::validate` that relate parts of a project to each other. */
  predicate WellFormed(p: Project) {
    && Plain(p.root) && Plain(p.shell.executable) && Plain(p.shell.initCwd) && PlainSources(p.shell.sources)
    && (p.shell.native.Some? ==>
          && !p.shell.login && p.shell.sources == []
          && forall i :: 0 <= i < |p.terminals| ==> p.terminals[i].sources == [])
    && |p.terminals| <= 64 && |p.tasks| <= 128
    && (forall i :: 0 <= i < |p.terminals| ==> WellFormedTerminal(p.terminals[i]))
    && (forall i :: 0 <= i < |p.tasks| ==> WellFormedTask(p.tasks[i]))
    && DistinctTerminals(p.terminals) && DistinctTasks(p.tasks)
    && (forall i, j :: 0 <= i < |p.terminals| && 0 <= j < |p.tasks| ==> p.terminals[i].id != p.tasks[j].id)
    && (p.defaultTerminal.Some? ==> PersistentIn(p.terminals, p.defaultTerminal))
    && (p.editor.Some? ==> Plain(p.editor.value.executable))
  }

  /** `Project::validate`: the relations above, and the checks of single fields. */
  predicate Valid(env: Environment, p: Project) {
    WellFormed(p) && env.fields(p)
  }

  // ---------------------------------------------------------------- programs and shells

  function ResolveProgram(env: Environment, program: Program, base: Path): Option<Path> {
    match program
    case Bare(name) => env.search(name, base)
    case Explicit(path) => if env.executable(At(base, path)) then Some(At(base, path)) else None
  }

  function Sources(base: Path, values: seq<Source>): seq<Source> {
    seq(|values|, i requires 0 <= i < |values| => Source(At(base, values[i].path), values[i].args))
  }

  function Or<T>(declared: Option<T>, otherwise: T): T {
    if declared.Some? then declared.value else otherwise
  }

  function Unset(env: map<string, string>, keys: seq<string>): map<string, string> {
    env - (set key | key in keys)
  }

  /** `EnvironmentPatch::apply` without a replacement. */
  function PatchedEnvironment(target: map<string, string>, clear: bool, set_: map<string, string>, unset: seq<string>): map<string, string> {
    Unset(if clear then map[] else target, unset) + set_
  }

  function PatchNative(env: Environment, native: Native, d: ShellDeclaration): Option<Native> {
    var next := PatchedEnvironment(native.env, d.clear, d.env, d.unset);
    var args := Or(d.args, native.args);
    if d.args.Some? && !env.acceptsExecution(args, native.env) then None
    else if !(forall key :: key in d.unset ==> env.acceptsUnset(key)) || !env.acceptsExecution([], next) then None
    else Some(Native(args, next))
  }

  function Mode(shell: Shell, legacy: Option<bool>): Shell {
    if legacy.None? then shell
    else if legacy.value then shell.(native := None)
    else if shell.native.None? then shell.(native := Some(Native([], map[])), login := false, sources := [])
    else shell
  }

  /** `apply_shell` up to arguments and environment. */
  function StartedShell(env: Environment, shell: Shell, d: ShellDeclaration, base: Path): Option<Shell> {
    var program := if d.program.Some? then ResolveProgram(env, d.program.value, base) else Some(shell.executable);
    if program.None? then None
    else
      var moved := shell.(executable := program.value,
                          initCwd := if d.cwd.Some? then At(base, d.cwd.value) else shell.initCwd);
      var mode := Mode(moved, d.legacy);
      Some(mode.(login := Or(d.login, mode.login),
                 sources := if d.sources.Some? then Sources(base, d.sources.value) else mode.sources))
  }

  predicate PatchesNative(d: ShellDeclaration) {
    d.args.Some? || d.env != map[] || d.unset != [] || d.clear
  }

  function ApplyShell(env: Environment, shell: Shell, d: ShellDeclaration, base: Path): Option<Shell> {
    var started := StartedShell(env, shell, d, base);
    if started.None? || !PatchesNative(d) then started
    else if started.value.native.None? then None
    else
      var native := PatchNative(env, started.value.native.value, d);
      if native.None? then None else Some(started.value.(native := native))
  }

  function ApplyEditor(env: Environment, editor: Option<Editor>, d: EditorDeclaration, base: Path): Option<Editor> {
    var program :=
      if d.program.Some? then ResolveProgram(env, d.program.value, base)
      else if editor.Some? then Some(editor.value.executable) else None;
    if program.None? then None
    else Some(Editor(program.value,
                     Or(d.args, if editor.Some? then editor.value.args else ["{file}"]),
                     Or(d.externalGui, editor.Some? && editor.value.externalGui)))
  }

  // ---------------------------------------------------------------- the declared project

  function DeclaredShell(env: Environment, d: Declaration, prefs: Preferences): Option<Shell> {
    if env.defaultShell.None? then None
    else
      var initial := Shell(env.defaultShell.value, false, env.root, [], Some(Native([], map[])), None);
      var preferred :=
        if prefs.shell.None? then Some(initial)
        else
          var chosen := d.shell.Some? && d.shell.value.program.Some?;
          var p := prefs.shell.value;
          ApplyShell(env, initial, if chosen then p.(program := None) else p, env.configDir);
      if preferred.None? || d.shell.None? then preferred
      else ApplyShell(env, preferred.value, d.shell.value, env.root)
  }

  function DeclaredTerminal(env: Environment, shell: Shell, id: Id, key: string, d: TerminalDeclaration): Terminal {
    Terminal(id, Or(d.name, key),
             if d.cwd.Some? then At(env.root, d.cwd.value) else if shell.native.Some? then shell.initCwd else env.root,
             Sources(env.root, Or(d.sources, [])), Or(d.persistent, true), None)
  }

  function DeclaredTerminals(
      env: Environment, shell: Shell, ids: map<string, Id>, entries: seq<Entry<TerminalDeclaration>>): (ts: seq<Terminal>)
    requires forall i :: 0 <= i < |entries| ==> entries[i].key in ids
    ensures |ts| == |entries|
    ensures forall i :: 0 <= i < |ts| ==> ts[i] == DeclaredTerminal(env, shell, ids[entries[i].key], entries[i].key, entries[i].value)
  {
    seq(|entries|, i requires 0 <= i < |entries| =>
      DeclaredTerminal(env, shell, ids[entries[i].key], entries[i].key, entries[i].value))
  }

  /** A project without declared terminals gets one, named "dev". */
  function TerminalEntries(d: Declaration): seq<Entry<TerminalDeclaration>> {
    if d.terminals == [] then [Entry("dev", TerminalDeclaration(None, None, None, None))] else d.terminals
  }

  /** Process, script or legacy: exactly one of them must be chosen. */
  function DeclaredExecution(env: Environment, d: TaskDeclaration): Option<Option<Execution>> {
    var modes := (if d.program.Some? then 1 else 0)
                 + (if d.interpreter.Some? || d.script.Some? then 1 else 0)
                 + (if d.command.Some? || d.steps != [] then 1 else 0);
    if modes != 1 then None
    else if d.program.Some? then
      var program := ResolveProgram(env, d.program.value, env.root);
      if program.None? then None else Some(Some(Process(program.value, Or(d.args, []), d.env)))
    else if d.interpreter.Some? then
      var interpreter := ResolveProgram(env, d.interpreter.value, env.root);
      if interpreter.None? || d.script.None? then None
      else Some(Some(Script(interpreter.value, Or(d.args, []), d.script.value, d.env)))
    else if d.script.Some? || d.args.Some? || d.env != map[] then None
    else Some(None)
  }

  function Paths(root: Path, values: seq<Path>): seq<Path> {
    seq(|values|, i requires 0 <= i < |values| => At(root, values[i]))
  }

  function DeclaredTask(
      env: Environment, shell: Shell, ids: map<string, Id>, all: seq<Entry<TaskDeclaration>>,
      key: string, d: TaskDeclaration): Option<Task>
    requires key in ids && forall i :: 0 <= i < |all| ==> all[i].key in ids
  {
    var execution := DeclaredExecution(env, d);
    if execution.None? || (execution.value.None? && shell.native.Some?) then None
    else if d.artifactFrom.Some? && !HasKey(all, d.artifactFrom.value) then None
    else
      Some(Task(
        ids[key], Or(d.name, key), execution.value, Or(d.command, ""),
        if d.cwd.Some? then At(env.root, d.cwd.value) else env.root,
        Sources(env.root, d.sources),
        if d.artifact.Some? then Some(At(env.root, d.artifact.value)) else None,
        None, d.steps, !d.continueOnFailure, !(d.interactive || d.disableLogging), d.interactive,
        Paths(env.root, d.outputs),
        if d.artifactFrom.Some? then Some(ids[d.artifactFrom.value]) else None,
        d.timeout))
  }

  function DeclaredTasks(
      env: Environment, shell: Shell, ids: map<string, Id>, all: seq<Entry<TaskDeclaration>>,
      entries: seq<Entry<TaskDeclaration>>): (ts: Option<seq<Task>>)
    requires forall i :: 0 <= i < |all| ==> all[i].key in ids
    requires forall i :: 0 <= i < |entries| ==> entries[i].key in ids
    ensures ts.Some? ==> |ts.value| == |entries|
    ensures ts.Some? ==> forall i :: 0 <= i < |entries| ==>
      DeclaredTask(env, shell, ids, all, entries[i].key, entries[i].value) == Some(ts.value[i])
  {
    if entries == [] then Some([])
    else
      var first := DeclaredTask(env, shell, ids, all, entries[0].key, entries[0].value);
      var rest := DeclaredTasks(env, shell, ids, all, entries[1..]);
      if first.None? || rest.None? then None else Some([first.value] + rest.value)
  }

  function DeclaredEditor(env: Environment, d: Declaration, prefs: Preferences): Option<Option<Editor>> {
    if prefs.editor.None? && d.editor.None? then Some(None)
    else
      var p := Or(prefs.editor, EditorDeclaration(None, None, None));
      var e := Or(d.editor, EditorDeclaration(None, None, None));
      var joined := EditorDeclaration(
        if e.program.Some? then e.program else p.program,
        if e.args.Some? then e.args else p.args,
        if e.externalGui.Some? then e.externalGui else p.externalGui);
      var editor := ApplyEditor(env, None, joined, if e.program.Some? then env.root else env.configDir);
      if editor.None? then None else Some(editor)
  }

  /** Known keys keep their identity; new keys get a fresh one. */
  function ExtendIds<V>(ids: map<string, Id>, entries: seq<Entry<V>>, issue: string -> Id): (r: map<string, Id>)
    ensures forall key :: key in ids ==> key in r && r[key] == ids[key]
    ensures forall i :: 0 <= i < |entries| ==> entries[i].key in r
    ensures forall key :: key in r && key !in ids ==> HasKey(entries, key) && r[key] == issue(key)
  {
    map key | key in ids.Keys + (set i | 0 <= i < |entries| :: entries[i].key) ::
      if key in ids then ids[key] else issue(key)
  }

  /** The project that the declaration alone describes, under the identity of the existing one. */
  function Declared(
      env: Environment, d: Declaration, prefs: Preferences, existing: Option<Project>, freshId: Id,
      taskIds: map<string, Id>, terminalIds: map<string, Id>): Option<Project>
    requires forall i :: 0 <= i < |d.tasks| ==> d.tasks[i].key in taskIds
    requires forall i :: 0 <= i < |TerminalEntries(d)| ==> TerminalEntries(d)[i].key in terminalIds
  {
    var shell := DeclaredShell(env, d, prefs);
    var name := Or(d.name, env.rootName);
    if shell.None? || !env.connectable(name, shell.value) then None
    else
      var terminals := DeclaredTerminals(env, shell.value, terminalIds, TerminalEntries(d));
      var tasks := DeclaredTasks(env, shell.value, taskIds, d.tasks, d.tasks);
      var editor := DeclaredEditor(env, d, prefs);
      if tasks.None? || editor.None? then None
      else
        Some(Project(
          if existing.Some? then existing.value.id else freshId, name, env.root,
          if existing.Some? then existing.value.repository else env.repository,
          if terminals[0].persistent then Some(terminals[0].id) else None,
          shell.value, terminals, tasks.value, editor.value))
  }

  // ---------------------------------------------------------------- local edits

  /** The three-way choice for one value: a local edit wins, otherwise the declaration. */
  function Merge<T(==)>(declared: T, baseline: T, local: T): T {
    if local != baseline then local else declared
  }

  function Lookup(env: map<string, string>, key: string): Option<string> {
    if key in env then Some(env[key]) else None
  }

  /** The environment part of `local_overrides`: locally removed keys go, local values win. */
  function MergeEnvironment(declared: map<string, string>, baseline: map<string, string>, local: map<string, string>): map<string, string> {
    (declared - (baseline.Keys - local.Keys))
    + (map key | key in local && Lookup(baseline, key) != Some(local[key]) :: local[key])
  }

  function MergeNative(declared: Option<Native>, baseline: Option<Native>, local: Option<Native>): Option<Native> {
    if local.Some? && baseline.Some? && declared.Some? then
      Some(Native(Merge(declared.value.args, baseline.value.args, local.value.args),
                  MergeEnvironment(declared.value.env, baseline.value.env, local.value.env)))
    else Merge(declared, baseline, local)
  }

  function MergeShell(declared: Shell, baseline: Shell, local: Shell): Shell {
    Shell(Merge(declared.executable, baseline.executable, local.executable),
          Merge(declared.login, baseline.login, local.login),
          Merge(declared.initCwd, baseline.initCwd, local.initCwd),
          Merge(declared.sources, baseline.sources, local.sources),
          MergeNative(declared.native, baseline.native, local.native),
          declared.trusted)
  }

  function FindTerminal(terminals: seq<Terminal>, id: Id): (found: Option<Terminal>)
    ensures found.Some? ==> found.value in terminals && found.value.id == id
    ensures found.None? ==> forall t :: t in terminals ==> t.id != id
  {
    if terminals == [] then None
    else if terminals[0].id == id then Some(terminals[0]) else FindTerminal(terminals[1..], id)
  }

  function MergeTerminal(next: Terminal, baseline: seq<Terminal>, local: seq<Terminal>): Terminal {
    var mine, theirs := FindTerminal(local, next.id), FindTerminal(baseline, next.id);
    if mine.None? || theirs.None? then next
    else
      next.(name := Merge(next.name, theirs.value.name, mine.value.name),
            cwd := Merge(next.cwd, theirs.value.cwd, mine.value.cwd),
            sources := Merge(next.sources, theirs.value.sources, mine.value.sources),
            persistent := Merge(next.persistent, theirs.value.persistent, mine.value.persistent))
  }

  function MergeTerminals(terminals: seq<Terminal>, baseline: seq<Terminal>, local: seq<Terminal>): seq<Terminal> {
    seq(|terminals|, i requires 0 <= i < |terminals| => MergeTerminal(terminals[i], baseline, local))
  }

  /** `local_overrides`. */
  function LocalOverrides(project: Project, current: Project, baseline: Project): Project {
    project.(
      shell := MergeShell(project.shell, baseline.shell, current.shell),
      editor := Merge(project.editor, baseline.editor, current.editor),
      name := Merge(project.name, baseline.name, current.name),
      terminals := MergeTerminals(project.terminals, baseline.terminals, current.terminals))
  }

  function SemanticTask(t: Task): Task { t.(approved := None) }
  function SemanticShell(s: Shell): Shell { s.(trusted := None) }
  function SemanticTerminal(t: Terminal): Terminal { t.(trusted := None) }

  function FindTask(tasks: seq<Task>, id: Id): (found: Option<Task>)
    ensures found.Some? ==> found.value in tasks && found.value.id == id
    ensures found.None? ==> forall t :: t in tasks ==> t.id != id
  {
    if tasks == [] then None
    else if tasks[0].id == id then Some(tasks[0]) else FindTask(tasks[1..], id)
  }

  /** A local edit of a declaration-owned task must have reached the declaration. */
  predicate EditsDeclared(project: Project, existing: Project, baseline: Project) {
    forall k :: 0 <= k < |baseline.tasks| ==>
      var was := baseline.tasks[k];
      var local := FindTask(existing.tasks, was.id);
      local.Some? ==>
        || SemanticTask(local.value) == SemanticTask(was)
        || exists j :: 0 <= j < |project.tasks| && project.tasks[j].id == local.value.id
                       && SemanticTask(project.tasks[j]) == SemanticTask(local.value)
  }

  function LocalTasks(tasks: seq<Task>, managed: set<Id>, declared: seq<Task>): seq<Task> {
    if tasks == [] then []
    else
      (if tasks[0].id in managed || FindTask(declared, tasks[0].id).Some? then [] else [tasks[0]])
      + LocalTasks(tasks[1..], managed, declared)
  }

  function LocalTerminals(terminals: seq<Terminal>, managed: set<Id>, declared: seq<Terminal>): seq<Terminal> {
    if terminals == [] then []
    else
      (if terminals[0].id in managed || FindTerminal(declared, terminals[0].id).Some? then [] else [terminals[0]])
      + LocalTerminals(terminals[1..], managed, declared)
  }

  /** The first existing definition that this one repeats, approvals aside. */
  function SameTask(tasks: seq<Task>, t: Task): (found: Option<Task>)
    ensures found.Some? ==> found.value in tasks && found.value.id == t.id && SemanticTask(found.value) == SemanticTask(t)
    ensures found.None? ==> forall o :: o in tasks ==> o.id != t.id || SemanticTask(o) != SemanticTask(t)
  {
    if tasks == [] then None
    else if tasks[0].id == t.id && SemanticTask(tasks[0]) == SemanticTask(t) then Some(tasks[0])
    else SameTask(tasks[1..], t)
  }

  function SameTerminal(terminals: seq<Terminal>, t: Terminal): (found: Option<Terminal>)
    ensures found.Some? ==> found.value in terminals && found.value.id == t.id && SemanticTerminal(found.value) == SemanticTerminal(t)
    ensures found.None? ==> forall o :: o in terminals ==> o.id != t.id || SemanticTerminal(o) != SemanticTerminal(t)
  {
    if terminals == [] then None
    else if terminals[0].id == t.id && SemanticTerminal(terminals[0]) == SemanticTerminal(t) then Some(terminals[0])
    else SameTerminal(terminals[1..], t)
  }

  function ApproveTask(t: Task, existing: seq<Task>): Task {
    var same := SameTask(existing, t);
    if same.Some? then t.(approved := same.value.approved) else t
  }

  function TrustTerminal(t: Terminal, existing: seq<Terminal>): Terminal {
    var same := SameTerminal(existing, t);
    if same.Some? then t.(trusted := same.value.trusted) else t
  }

  function ApproveTasks(tasks: seq<Task>, existing: seq<Task>): seq<Task> {
    seq(|tasks|, i requires 0 <= i < |tasks| => ApproveTask(tasks[i], existing))
  }

  function TrustTerminals(terminals: seq<Terminal>, existing: seq<Terminal>): seq<Terminal> {
    seq(|terminals|, i requires 0 <= i < |terminals| => TrustTerminal(terminals[i], existing))
  }

  /** Adds undeclared local definitions and carries approvals over. */
  function CarryOver(project: Project, existing: Project, managedTasks: set<Id>, managedTerminals: set<Id>): Project {
    var tasks := project.tasks + LocalTasks(existing.tasks, managedTasks, project.tasks);
    var terminals := project.terminals + LocalTerminals(existing.terminals, managedTerminals, project.terminals);
    var trusted :=
      if SemanticShell(project.shell) == SemanticShell(existing.shell) then existing.shell.trusted else project.shell.trusted;
    var trustedTerminals := TrustTerminals(terminals, existing.terminals);
    project.(
      tasks := ApproveTasks(tasks, existing.tasks),
      terminals := trustedTerminals,
      shell := project.shell.(trusted := trusted),
      defaultTerminal :=
        if PersistentIn(trustedTerminals, existing.defaultTerminal) then existing.defaultTerminal else project.defaultTerminal)
  }

  // ---------------------------------------------------------------- resolution

  datatype Resolved = Resolved(project: Project, binding: Option<Binding>)

  function WithEditor(env: Environment, project: Project): Project {
    if project.editor.None? then project.(editor := env.discovered) else project
  }

  function Ids(binding: Option<Binding>): (map<string, Id>, map<string, Id>) {
    if binding.Some? then (binding.value.taskIds, binding.value.terminalIds) else (map[], map[])
  }

  /** A declaration that is new to the workspace leaves the local shell and editor where it names none. */
  function Kept(declared: Project, d: Declaration, existing: Project): Project {
    declared.(shell := if d.shell.None? then existing.shell else declared.shell,
              editor := if d.editor.None? then existing.editor else declared.editor)
  }

  /** The project over the existing one, before an editor is looked for. */
  function Reconciled(
      declared: Project, d: Declaration, existing: Option<Project>, previous: Option<Binding>): Option<Project>
  {
    if existing.None? then Some(declared)
    else
      var e := existing.value;
      var ids := Ids(previous);
      if previous.Some? then
        if !EditsDeclared(LocalOverrides(declared, e, previous.value.resolved), e, previous.value.resolved) then None
        else Some(CarryOver(LocalOverrides(declared, e, previous.value.resolved), e, ids.0.Values, ids.1.Values))
      else
        Some(CarryOver(Kept(declared, d, e), e, {}, {}))
  }

  /** `resolve_for` with a declaration in the project folder. */
  function ResolveDeclared(
      env: Environment, d: Declaration, prefs: Preferences, issue: Fresh,
      existing: Option<Project>, previous: Option<Binding>): Option<Resolved>
  {
    var ids := Ids(previous);
    var taskIds := ExtendIds(ids.0, d.tasks, issue.task);
    var terminalIds := ExtendIds(ids.1, TerminalEntries(d), issue.terminal);
    var declared := Declared(env, d, prefs, existing, issue.project, taskIds, terminalIds);
    if declared.None? then None
    else
      var reconciled := Reconciled(declared.value, d, existing, previous);
      if reconciled.None? then None
      else
        var project := WithEditor(env, reconciled.value);
        var baseline :=
          if reconciled.value.editor.None? then declared.value.(editor := project.editor) else declared.value;
        if !Valid(env, project) then None
        else Some(Resolved(project, Some(Binding(taskIds, terminalIds, baseline))))
  }

  /** `resolve_for`: a managed declaration must not vanish, and a project without one stays local. */
  function Resolve(
      env: Environment, declaration: Option<Declaration>, prefs: Preferences, issue: Fresh,
      existing: Option<Project>, previous: Option<Binding>): Option<Resolved>
  {
    if previous.Some? && declaration.None? then None
    else if declaration.None? && existing.Some? then Some(Resolved(WithEditor(env, existing.value), None))
    else
      var r := ResolveDeclared(env, Or(declaration, EMPTY_DECLARATION), prefs, issue, existing, previous);
      if r.None? || declaration.Some? then r else Some(r.value.(binding := None))
  }
}

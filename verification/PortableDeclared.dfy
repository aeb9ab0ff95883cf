/** What a declaration over preferences makes of shell, tasks and terminals (`apply_shell` and `resolve_for` of portable.rs). */
module PortableDeclared {
  import opened Faults
  import opened PortableModel
  import opened PortableSync
  import opened PortableFixpoint

  /** A declaration that says nothing. */
  const SILENT := ShellDeclaration(None, None, map[], [], false, None, None, None, None)

  // ---------------------------------------------------------------- declaration over preferences over defaults

  /** Where the shell program comes from: the project's declaration, the user's preference, the first shell found. */
  predicate ShellProgramFrom(env: Environment, project: ShellDeclaration, user: ShellDeclaration, program: Path) {
    if project.program.Some? then ResolveProgram(env, project.program.value, env.root) == Some(program)
    else if user.program.Some? then ResolveProgram(env, user.program.value, env.configDir) == Some(program)
    else env.defaultShell == Some(program)
  }

  /** A native declaration over a preferred legacy shell starts from nothing. */
  predicate Reentered(project: ShellDeclaration, user: ShellDeclaration) {
    project.legacy == Some(false) && user.legacy == Some(true)
  }

  function ShellSources(env: Environment, project: ShellDeclaration, user: ShellDeclaration): seq<Source> {
    if project.sources.Some? then Sources(env.root, project.sources.value)
    else if user.sources.Some? && !Reentered(project, user) then Sources(env.configDir, user.sources.value)
    else []
  }

  /** A key of the launch environment: set by the project, removed by it, set by the user, or absent. */
  function ShellVariable(project: ShellDeclaration, user: ShellDeclaration, key: string): Option<string> {
    if key in project.env then Some(project.env[key])
    else if project.clear || key in project.unset then None
    else if key in user.env then Some(user.env[key])
    else None
  }

  lemma SilentChangesNothing(env: Environment, shell: Shell, base: Path)
    ensures ApplyShell(env, shell, SILENT, base) == Some(shell)
  {
  }

  function Initial(env: Environment): Shell
    requires env.defaultShell.Some?
  {
    Shell(env.defaultShell.value, false, env.root, [], Some(Native([], map[])), None)
  }

  /** The preference as it is applied: a declared program replaces it before it is looked for. */
  function Preferred(project: ShellDeclaration, user: ShellDeclaration): ShellDeclaration {
    if project.program.Some? then user.(program := None) else user
  }

  lemma TwoSteps(env: Environment, d: Declaration, prefs: Preferences)
    requires DeclaredShell(env, d, prefs).Some?
    ensures env.defaultShell.Some?
    ensures var project, user := Or(d.shell, SILENT), Or(prefs.shell, SILENT);
            var first := ApplyShell(env, Initial(env), Preferred(project, user), env.configDir);
            first.Some? && ApplyShell(env, first.value, project, env.root) == DeclaredShell(env, d, prefs)
  {
    var project, user := Or(d.shell, SILENT), Or(prefs.shell, SILENT);
    if prefs.shell.None? {
      assert Preferred(project, user) == SILENT;
      SilentChangesNothing(env, Initial(env), env.configDir);
    }
    var first := ApplyShell(env, Initial(env), Preferred(project, user), env.configDir);
    if d.shell.None? {
      SilentChangesNothing(env, first.value, env.root);
    }
  }

  /** One application, field by field. */
  predicate FieldsApplied(env: Environment, shell: Shell, d: ShellDeclaration, base: Path, next: Shell) {
    var entering := d.legacy == Some(false) && shell.native.None?;
    && (if d.program.Some? then ResolveProgram(env, d.program.value, base) == Some(next.executable)
        else next.executable == shell.executable)
    && next.initCwd == (if d.cwd.Some? then At(base, d.cwd.value) else shell.initCwd)
    && (next.native.None? <==> d.legacy == Some(true) || (d.legacy.None? && shell.native.None?))
    && next.login == Or(d.login, !entering && shell.login)
    && next.sources == (if d.sources.Some? then Sources(base, d.sources.value) else if entering then [] else shell.sources)
  }

  /** Arguments and variables only exist in native mode. */
  predicate NativeApplied(shell: Shell, d: ShellDeclaration, next: Shell, key: string) {
    if next.native.None? then d.args == None && d.env == map[] && d.unset == [] && !d.clear
    else
      && next.native.value.args == Or(d.args, if shell.native.Some? then shell.native.value.args else [])
      && Lookup(next.native.value.env, key) ==
           if key in d.env then Some(d.env[key]) else if d.clear || key in d.unset || shell.native.None? then None
           else Lookup(shell.native.value.env, key)
  }

  lemma Applied(env: Environment, shell: Shell, d: ShellDeclaration, base: Path, next: Shell, key: string)
    requires ApplyShell(env, shell, d, base) == Some(next)
    ensures FieldsApplied(env, shell, d, base, next) && NativeApplied(shell, d, next, key)
  {
    StartedFields(env, shell, d, base);
    NativeKept(env, shell, d, base);
    if next.native.Some? && PatchesNative(d) {
      assert PatchNative(env, StartedShell(env, shell, d, base).value.native.value, d) == next.native;
    }
  }

  lemma StartedFields(env: Environment, shell: Shell, d: ShellDeclaration, base: Path)
    ensures StartedShell(env, shell, d, base).Some? ==> FieldsApplied(env, shell, d, base, StartedShell(env, shell, d, base).value)
    ensures var s := StartedShell(env, shell, d, base);
            s.Some? && s.value.native.Some? ==> s.value.native.value == if shell.native.Some? then shell.native.value else Native([], map[])
  {
  }

  lemma NativeKept(env: Environment, shell: Shell, d: ShellDeclaration, base: Path)
    requires ApplyShell(env, shell, d, base).Some?
    ensures var s, next := StartedShell(env, shell, d, base), ApplyShell(env, shell, d, base).value;
            s.Some? && next == s.value.(native := next.native) && (next.native.Some? <==> s.value.native.Some?)
            && (!PatchesNative(d) ==> next == s.value)
  {
  }

  lemma TwoFields(
      env: Environment, project: ShellDeclaration, user: ShellDeclaration, initial: Shell, first: Shell, shell: Shell)
    requires env.defaultShell == Some(initial.executable)
    requires initial == Shell(initial.executable, false, env.root, [], Some(Native([], map[])), None)
    requires FieldsApplied(env, initial, Preferred(project, user), env.configDir, first)
    requires FieldsApplied(env, first, project, env.root, shell)
    ensures ShellProgramFrom(env, project, user, shell.executable)
    ensures shell.initCwd == (if project.cwd.Some? then At(env.root, project.cwd.value)
                              else if user.cwd.Some? then At(env.configDir, user.cwd.value) else env.root)
    ensures shell.native.None? <==> Or(project.legacy, Or(user.legacy, false))
    ensures shell.login == Or(project.login, !Reentered(project, user) && Or(user.login, false))
    ensures shell.sources == ShellSources(env, project, user)
  {
  }

  lemma TwoNatives(
      project: ShellDeclaration, user: ShellDeclaration, initial: Shell, first: Shell, shell: Shell, key: string)
    requires initial.native == Some(Native([], map[])) && shell.native.Some?
    requires NativeApplied(initial, Preferred(project, user), first, key) && NativeApplied(first, project, shell, key)
    ensures shell.native.value.args == Or(project.args, Or(user.args, []))
    ensures Lookup(shell.native.value.env, key) == ShellVariable(project, user, key)
  {
  }

  /** The shell of a project, field by field: the declaration wins over the preference, and that over the default. */
  lemma ShellPrecedence(env: Environment, d: Declaration, prefs: Preferences, shell: Shell, key: string)
    requires DeclaredShell(env, d, prefs) == Some(shell)
    ensures var project, user := Or(d.shell, SILENT), Or(prefs.shell, SILENT);
            && ShellProgramFrom(env, project, user, shell.executable)
            && shell.initCwd == (if project.cwd.Some? then At(env.root, project.cwd.value)
                                 else if user.cwd.Some? then At(env.configDir, user.cwd.value) else env.root)
            && (shell.native.None? <==> Or(project.legacy, Or(user.legacy, false)))
            && shell.login == Or(project.login, !Reentered(project, user) && Or(user.login, false))
            && shell.sources == ShellSources(env, project, user)
            && (shell.native.Some? ==> shell.native.value.args == Or(project.args, Or(user.args, [])))
            && (shell.native.Some? ==> Lookup(shell.native.value.env, key) == ShellVariable(project, user, key))
  {
    var project, user := Or(d.shell, SILENT), Or(prefs.shell, SILENT);
    TwoSteps(env, d, prefs);
    var first := ApplyShell(env, Initial(env), Preferred(project, user), env.configDir).value;
    Applied(env, Initial(env), Preferred(project, user), env.configDir, first, key);
    Applied(env, first, project, env.root, shell, key);
    TwoFields(env, project, user, Initial(env), first, shell);
    if shell.native.Some? {
      TwoNatives(project, user, Initial(env), first, shell, key);
    }
  }

  // ---------------------------------------------------------------- declared tasks and terminals in the result

  /** Exactly one way to run: a program, an interpreted script, or shell commands, which only a legacy shell runs. */
  predicate RunsAs(env: Environment, d: TaskDeclaration, native: bool, execution: Option<Execution>) {
    match execution
    case Some(Process(program, args, variables)) =>
      && d.program.Some? && d.interpreter.None? && d.script.None? && d.command.None? && d.steps == []
      && ResolveProgram(env, d.program.value, env.root) == Some(program) && args == Or(d.args, []) && variables == d.env
    case Some(Script(interpreter, args, script, variables)) =>
      && d.program.None? && d.interpreter.Some? && d.script == Some(script) && d.command.None? && d.steps == []
      && ResolveProgram(env, d.interpreter.value, env.root) == Some(interpreter) && args == Or(d.args, []) && variables == d.env
    case None =>
      && d.program.None? && d.interpreter.None? && d.script.None? && (d.command.Some? || d.steps != [])
      && d.args.None? && d.env == map[] && !native
  }

  predicate TaskFields(env: Environment, key: string, d: TaskDeclaration, t: Task) {
    && t.name == Or(d.name, key) && t.command == Or(d.command, "") && t.steps == d.steps
    && t.cwd == (if d.cwd.Some? then At(env.root, d.cwd.value) else env.root)
    && t.interactive == d.interactive && (t.rawLog <==> !d.interactive && !d.disableLogging)
    && (t.stopOnFailure <==> !d.continueOnFailure) && t.timeout == d.timeout
    && (t.artifact.Some? <==> d.artifact.Some?) && (d.artifact.Some? ==> t.artifact.value == At(env.root, d.artifact.value))
    && |t.outputs| == |d.outputs| && (forall i :: 0 <= i < |t.outputs| ==> t.outputs[i] == At(env.root, d.outputs[i]))
    && |t.sources| == |d.sources|
    && (forall i :: 0 <= i < |t.sources| ==> t.sources[i] == Source(At(env.root, d.sources[i].path), d.sources[i].args))
  }

  lemma DeclaredRunsAs(env: Environment, d: TaskDeclaration, native: bool)
    requires DeclaredExecution(env, d).Some? && (DeclaredExecution(env, d).value.None? ==> !native)
    ensures RunsAs(env, d, native, DeclaredExecution(env, d).value)
  {
  }

  lemma DeclaredTaskFields(
      env: Environment, shell: Shell, ids: map<string, Id>, all: seq<Entry<TaskDeclaration>>, key: string, d: TaskDeclaration, t: Task)
    requires key in ids && forall i :: 0 <= i < |all| ==> all[i].key in ids
    requires DeclaredTask(env, shell, ids, all, key, d) == Some(t)
    ensures t.id == ids[key] && TaskFields(env, key, d, t) && RunsAs(env, d, shell.native.Some?, t.execution)
    ensures t.artifactFrom == if d.artifactFrom.Some? && HasKey(all, d.artifactFrom.value) then Some(ids[d.artifactFrom.value]) else None
    ensures d.artifactFrom.Some? ==> HasKey(all, d.artifactFrom.value)
  {
    DeclaredRunsAs(env, d, shell.native.Some?);
  }

  lemma SameButApproval(env: Environment, key: string, d: TaskDeclaration, a: Task, b: Task)
    requires SemanticTask(b) == a && TaskFields(env, key, d, a)
    ensures TaskFields(env, key, d, b) && b.id == a.id && b.execution == a.execution && b.artifactFrom == a.artifactFrom
  {
  }

  /** Every declared task is in the resolved project at its place, with each field as declared. */
  lemma DeclaredTaskIsResolved(
      env: Environment, d: Declaration, prefs: Preferences, issue: Fresh, existing: Option<Project>, previous: Option<Binding>,
      r: Resolved, i: nat)
    requires existing.None? ==> previous.None?
    requires ResolveDeclared(env, d, prefs, issue, existing, previous) == Some(r) && i < |d.tasks|
    ensures DeclaredShell(env, d, prefs).Some? && r.binding.Some? && i < |r.project.tasks| && d.tasks[i].key in r.binding.value.taskIds
    ensures var key, v, t := d.tasks[i].key, d.tasks[i].value, r.project.tasks[i];
            && t.id == r.binding.value.taskIds[key] && TaskFields(env, key, v, t)
            && RunsAs(env, v, DeclaredShell(env, d, prefs).value.native.Some?, t.execution)
            && (v.artifactFrom.None? ==> t.artifactFrom == None)
            && (v.artifactFrom.Some? ==>
                  v.artifactFrom.value in r.binding.value.taskIds && t.artifactFrom == Some(r.binding.value.taskIds[v.artifactFrom.value]))
  {
    ResolvedParts(env, d, prefs, issue, existing, previous, r);
    var declared := DeclaredHere(env, d, prefs, issue, existing, previous).value;
    FirstFollows(env, d, prefs, issue, existing, previous, r, declared);
    var ids := TaskIds(d, issue, previous);
    DeclaredParts(env, d, prefs, existing, issue.project, ids, TerminalIds(d, issue, previous), declared);
    DeclaredTaskFields(env, declared.shell, ids, d.tasks, d.tasks[i].key, d.tasks[i].value, declared.tasks[i]);
    SameButApproval(env, d.tasks[i].key, d.tasks[i].value, declared.tasks[i], r.project.tasks[i]);
  }

  /** What the declaration makes of its terminals; one that declares none gets a persistent terminal named "dev". */
  lemma DeclaredTerminalFields(
      env: Environment, d: Declaration, prefs: Preferences, issue: Fresh, existing: Option<Project>, previous: Option<Binding>,
      declared: Project, i: nat)
    requires DeclaredHere(env, d, prefs, issue, existing, previous) == Some(declared) && i < |declared.terminals|
    ensures |declared.terminals| == if d.terminals == [] then 1 else |d.terminals|
    ensures d.terminals == [] ==> declared.terminals[i].name == "dev" && declared.terminals[i].persistent && declared.terminals[i].sources == []
    ensures d.terminals != [] ==>
      var v, t := d.terminals[i].value, declared.terminals[i];
      && t.name == Or(v.name, d.terminals[i].key) && t.persistent == Or(v.persistent, true)
      && t.sources == Sources(env.root, Or(v.sources, []))
      && (v.cwd.Some? ==> t.cwd == At(env.root, v.cwd.value))
    ensures d.terminals == [] || d.terminals[i].value.cwd.None? ==>
      declared.terminals[i].cwd == if declared.shell.native.Some? then declared.shell.initCwd else env.root
    ensures declared.defaultTerminal == if declared.terminals[0].persistent then Some(declared.terminals[0].id) else None
    ensures declared.name == Or(d.name, env.rootName)
  {
    DeclaredParts(env, d, prefs, existing, issue.project, TaskIds(d, issue, previous), TerminalIds(d, issue, previous), declared);
  }

  /** The editor: each of program, arguments and kind from the declaration, then the preference, then the default. */
  lemma EditorPrecedence(env: Environment, d: Declaration, prefs: Preferences, editor: Editor)
    requires DeclaredEditor(env, d, prefs) == Some(Some(editor))
    ensures var silent := EditorDeclaration(None, None, None);
            var project, user := Or(d.editor, silent), Or(prefs.editor, silent);
            && (if project.program.Some? then ResolveProgram(env, project.program.value, env.root) == Some(editor.executable)
                else user.program.Some? && ResolveProgram(env, user.program.value, env.configDir) == Some(editor.executable))
            && editor.args == Or(project.args, Or(user.args, ["{file}"]))
            && editor.externalGui == Or(project.externalGui, Or(user.externalGui, false))
  {
  }
}

/** When the declaration of an exported project resolves in a fresh workspace. */
module PortableImport {
  import opened Faults
  import opened PortableModel
  import opened PortableKeys
  import opened PortableExport
  import opened PortableSync
  import opened PortableFixpoint
  import opened PortableRoundTrip

  // ---------------------------------------------------------------- the condition

  /** The shell that the preferences give, without their program: an export names its own. */
  function PreferredFor(env: Environment, prefs: Preferences): Option<Shell>
    requires env.defaultShell.Some?
  {
    var initial := Shell(env.defaultShell.value, false, env.root, [], Some(Native([], map[])), None);
    if prefs.shell.None? then Some(initial)
    else ApplyShell(env, initial, prefs.shell.value.(program := None), env.configDir)
  }

  function NativeEnvironment(shell: Shell): map<string, string> {
    if shell.native.Some? then shell.native.value.env else map[]
  }

  /** The exported program is here, and a native shell's arguments fit, also beside the preferred environment. */
  predicate ShellApplies(env: Environment, p: Project, preferred: Shell) {
    && env.executable(p.shell.executable)
    && (p.shell.native.Some? ==>
          && env.acceptsExecution(p.shell.native.value.args, NativeEnvironment(preferred))
          && env.acceptsExecution([], p.shell.native.value.env))
  }

  predicate ShellUsable(env: Environment, p: Project, prefs: Preferences) {
    && env.defaultShell.Some?
    && PreferredFor(env, prefs).Some?
    && ShellApplies(env, p, PreferredFor(env, prefs).value)
  }

  /** A process or script needs its program here; a shell command needs a shell that is not native. */
  predicate TaskUsable(env: Environment, native: bool, t: Task) {
    if t.execution.Some? then env.executable(ProgramOf(t.execution.value)) else !native
  }

  predicate EditorUsable(env: Environment, p: Project, prefs: Preferences) {
    if p.editor.Some? then env.executable(p.editor.value.executable)
    else prefs.editor.None? || ApplyEditor(env, None, prefs.editor.value, env.configDir).Some?
  }

  /** What an environment must offer so that this project can be declared in it. */
  predicate Usable(env: Environment, p: Project, prefs: Preferences) {
    && ShellUsable(env, p, prefs)
    && env.connectable(p.name, p.shell.(trusted := None))
    && (forall i :: 0 <= i < |p.tasks| ==> TaskUsable(env, p.shell.native.Some?, p.tasks[i]))
    && EditorUsable(env, p, prefs)
  }

  // ---------------------------------------------------------------- shell and editor

  lemma ShellAppliesIff(env: Environment, p: Project, preferred: Shell)
    requires WellFormed(p) && env.root == p.root
    ensures ApplyShell(env, preferred, ExportedShell(p), env.root).Some? <==> ShellApplies(env, p, preferred)
  {
    RelativeThenAt(p.root, p.shell.executable);
    if p.shell.native.Some? {
      assert PatchedEnvironment(NativeEnvironment(preferred), true, p.shell.native.value.env, []) == p.shell.native.value.env;
    }
  }

  lemma DeclaredShellIff(env: Environment, p: Project, d: Declaration, prefs: Preferences)
    requires WellFormed(p) && env.root == p.root && d.shell == Some(ExportedShell(p))
    ensures DeclaredShell(env, d, prefs).Some? <==> ShellUsable(env, p, prefs)
  {
    if env.defaultShell.Some? {
      var preferred := PreferredFor(env, prefs);
      if preferred.Some? {
        ShellAppliesIff(env, p, preferred.value);
      }
    }
  }

  lemma DeclaredEditorIff(env: Environment, p: Project, d: Declaration, prefs: Preferences)
    requires WellFormed(p) && env.root == p.root
    requires d.editor == if p.editor.None? then None else Some(EditorDeclaration(
      Some(PortableProgram(p.root, p.editor.value.executable)), Some(p.editor.value.args), Some(p.editor.value.externalGui)))
    ensures DeclaredEditor(env, d, prefs).Some? <==> EditorUsable(env, p, prefs)
  {
    if p.editor.Some? {
      RelativeThenAt(p.root, p.editor.value.executable);
    } else if prefs.editor.Some? {
      var e := prefs.editor.value;
      assert EditorDeclaration(e.program, e.args, e.externalGui) == e;
    }
  }

  // ---------------------------------------------------------------- tasks

  lemma ExecutionIff(env: Environment, keys: map<Id, string>, t: Task, d: TaskDeclaration)
    requires Plain(env.root) && WellFormedTask(t) && ExportedTask(env.root, keys, t) == Some(d)
    ensures DeclaredExecution(env, d).Some? <==> (t.execution.Some? ==> env.executable(ProgramOf(t.execution.value)))
  {
    if t.execution.Some? {
      RelativeThenAt(env.root, ProgramOf(t.execution.value));
    }
  }

  lemma TaskIff(
      env: Environment, shell: Shell, ids: map<string, Id>, all: seq<Entry<TaskDeclaration>>,
      keys: map<Id, string>, t: Task, key: string, d: TaskDeclaration)
    requires Plain(env.root) && WellFormedTask(t) && ExportedTask(env.root, keys, t) == Some(d)
    requires key in ids && forall i :: 0 <= i < |all| ==> all[i].key in ids
    requires t.artifactFrom.Some? ==> HasKey(all, keys[t.artifactFrom.value])
    ensures DeclaredTask(env, shell, ids, all, key, d).Some? <==> TaskUsable(env, shell.native.Some?, t)
  {
    ExecutionIff(env, keys, t, d);
    ExecutionReturns(env, keys, t, d);
  }

  lemma {:induction false} TasksIff(
      env: Environment, shell: Shell, ids: map<string, Id>, all: seq<Entry<TaskDeclaration>>, entries: seq<Entry<TaskDeclaration>>)
    requires forall i :: 0 <= i < |all| ==> all[i].key in ids
    requires forall i :: 0 <= i < |entries| ==> entries[i].key in ids
    ensures DeclaredTasks(env, shell, ids, all, entries).Some? <==>
      forall i :: 0 <= i < |entries| ==> DeclaredTask(env, shell, ids, all, entries[i].key, entries[i].value).Some?
    decreases |entries|
  {
    if entries != [] {
      var rest := entries[1..];
      TasksIff(env, shell, ids, all, rest);
      assert forall i :: 0 <= i < |rest| ==> rest[i] == entries[i + 1];
      if forall i :: 0 <= i < |rest| ==> DeclaredTask(env, shell, ids, all, rest[i].key, rest[i].value).Some? {
        assert forall i :: 1 <= i < |entries| ==> entries[i] == rest[i - 1];
      }
    }
  }

  /** An exported artifact names the key of another entry. */
  lemma ProducerHasKey(p: Project, table: seq<Entry<TaskDeclaration>>, i: nat)
    requires DistinctIds(TaskNames(p.tasks)) && forall i :: 0 <= i < |p.tasks| ==> p.tasks[i].id in TaskKeys(p)
    requires TaskTable(p.root, TaskKeys(p), p.tasks) == Some(table)
    requires i < |p.tasks| && p.tasks[i].artifactFrom.Some?
    ensures p.tasks[i].artifactFrom.value in TaskKeys(p)
    ensures HasKey(table, TaskKeys(p)[p.tasks[i].artifactFrom.value])
  {
    assert ExportedTask(p.root, TaskKeys(p), p.tasks[i]) == Some(table[i].value);
    KeysAreDistinct(TaskNames(p.tasks));
    var k :| 0 <= k < |p.tasks| && TaskNames(p.tasks)[k].id == p.tasks[i].artifactFrom.value;
    assert table[k].key == TaskKeys(p)[p.tasks[k].id];
  }

  lemma ExportedTaskIff(
      env: Environment, p: Project, shell: Shell, ids: map<string, Id>, table: seq<Entry<TaskDeclaration>>,
      all: seq<Entry<TaskDeclaration>>, i: nat)
    requires WellFormed(p) && env.root == p.root
    requires DistinctIds(TaskNames(p.tasks)) && forall i :: 0 <= i < |p.tasks| ==> p.tasks[i].id in TaskKeys(p)
    requires TaskTable(p.root, TaskKeys(p), p.tasks) == Some(table) && multiset(all) == multiset(table)
    requires forall i :: 0 <= i < |all| ==> all[i].key in ids
    requires i < |p.tasks| && table[i].key in ids
    ensures DeclaredTask(env, shell, ids, all, table[i].key, table[i].value).Some? <==> TaskUsable(env, shell.native.Some?, p.tasks[i])
  {
    assert WellFormedTask(p.tasks[i]);
    if p.tasks[i].artifactFrom.Some? {
      ProducerHasKey(p, table, i);
      SameKeys(table, all, TaskKeys(p)[p.tasks[i].artifactFrom.value]);
    }
    TaskIff(env, shell, ids, all, TaskKeys(p), p.tasks[i], table[i].key, table[i].value);
  }

  lemma ExportedTasksIff(
      env: Environment, p: Project, shell: Shell, ids: map<string, Id>, table: seq<Entry<TaskDeclaration>>,
      all: seq<Entry<TaskDeclaration>>)
    requires WellFormed(p) && env.root == p.root
    requires DistinctIds(TaskNames(p.tasks)) && forall i :: 0 <= i < |p.tasks| ==> p.tasks[i].id in TaskKeys(p)
    requires TaskTable(p.root, TaskKeys(p), p.tasks) == Some(table) && multiset(all) == multiset(table)
    requires forall i :: 0 <= i < |all| ==> all[i].key in ids
    ensures DeclaredTasks(env, shell, ids, all, all).Some? <==>
      forall i :: 0 <= i < |p.tasks| ==> TaskUsable(env, shell.native.Some?, p.tasks[i])
  {
    TasksIff(env, shell, ids, all, all);
    forall i | 0 <= i < |p.tasks|
      ensures exists k :: 0 <= k < |all| && all[k] == table[i]
      ensures table[i].key in ids
      ensures DeclaredTask(env, shell, ids, all, table[i].key, table[i].value).Some? <==> TaskUsable(env, shell.native.Some?, p.tasks[i])
    {
      assert table[i] in multiset(all);
      var k :| 0 <= k < |all| && all[k] == table[i];
      ExportedTaskIff(env, p, shell, ids, table, all, i);
    }
    forall k | 0 <= k < |all|
      ensures exists i :: 0 <= i < |table| && table[i] == all[k]
    {
      assert all[k] in multiset(table);
    }
  }

  // ---------------------------------------------------------------- the declared project

  lemma DeclaredIff(
      env: Environment, d: Declaration, prefs: Preferences, existing: Option<Project>, id: Id,
      taskIds: map<string, Id>, terminalIds: map<string, Id>)
    requires forall i :: 0 <= i < |d.tasks| ==> d.tasks[i].key in taskIds
    requires forall i :: 0 <= i < |TerminalEntries(d)| ==> TerminalEntries(d)[i].key in terminalIds
    ensures Declared(env, d, prefs, existing, id, taskIds, terminalIds).Some? <==>
      && DeclaredShell(env, d, prefs).Some?
      && env.connectable(Or(d.name, env.rootName), DeclaredShell(env, d, prefs).value)
      && DeclaredTasks(env, DeclaredShell(env, d, prefs).value, taskIds, d.tasks, d.tasks).Some?
      && DeclaredEditor(env, d, prefs).Some?
  {
  }

  lemma AllTasksIff(env: Environment, p: Project, d: Declaration, shell: Shell, ids: map<string, Id>)
    requires Export(env, p) == Some(d) && env.root == p.root
    requires forall i :: 0 <= i < |d.tasks| ==> d.tasks[i].key in ids
    ensures DeclaredTasks(env, shell, ids, d.tasks, d.tasks).Some? <==>
      forall i :: 0 <= i < |p.tasks| ==> TaskUsable(env, shell.native.Some?, p.tasks[i])
  {
    ExportParts(env, p, d);
    EveryTaskHasAKey(p);
    TablesKeepEntries(p);
    ExportedTasksIff(env, p, shell, ids, TaskTable(p.root, TaskKeys(p), p.tasks).value, d.tasks);
  }

  lemma ExportedShellIff(env: Environment, p: Project, d: Declaration, prefs: Preferences)
    requires Export(env, p) == Some(d) && env.root == p.root
    ensures DeclaredShell(env, d, prefs).Some? <==> ShellUsable(env, p, prefs)
    ensures DeclaredShell(env, d, prefs).Some? ==> DeclaredShell(env, d, prefs).value == p.shell.(trusted := None)
    ensures DeclaredEditor(env, d, prefs).Some? <==> EditorUsable(env, p, prefs)
    ensures d.name == Some(p.name)
  {
    ExportParts(env, p, d);
    DeclaredShellIff(env, p, d, prefs);
    DeclaredEditorIff(env, p, d, prefs);
    DeclaredShellReturns(env, p, d, prefs);
  }

  /** The exported declaration describes a project here if and only if the environment offers what it needs. */
  lemma ExportDeclaresIff(env: Environment, p: Project, d: Declaration, prefs: Preferences, issue: Fresh)
    requires Export(env, p) == Some(d) && env.root == p.root
    ensures DeclaredHere(env, d, prefs, issue, None, None).Some? <==> Usable(env, p, prefs)
  {
    var ids := TaskIds(d, issue, None);
    DeclaredIff(env, d, prefs, None, issue.project, ids, TerminalIds(d, issue, None));
    ExportedShellIff(env, p, d, prefs);
    AllTasksIff(env, p, d, p.shell.(trusted := None), ids);
  }

  // ---------------------------------------------------------------- the resolved project

  /** Fresh identities differ from each other. */
  predicate NewIds(issue: Fresh, d: Declaration) {
    && (forall i, j :: 0 <= i < j < |d.tasks| ==> issue.task(d.tasks[i].key) != issue.task(d.tasks[j].key))
    && (forall i, j :: 0 <= i < j < |d.terminals| ==> issue.terminal(d.terminals[i].key) != issue.terminal(d.terminals[j].key))
    && (forall i, j :: 0 <= i < |d.terminals| && 0 <= j < |d.tasks| ==> issue.terminal(d.terminals[i].key) != issue.task(d.tasks[j].key))
  }

  lemma DeclaredIds(env: Environment, d: Declaration, shell: Shell, issue: Fresh, tasks: seq<Task>)
    requires NewIds(issue, d) && TerminalEntries(d) == d.terminals
    requires DeclaredTasks(env, shell, TaskIds(d, issue, None), d.tasks, d.tasks) == Some(tasks)
    ensures var terminals := DeclaredTerminals(env, shell, TerminalIds(d, issue, None), TerminalEntries(d));
      && DistinctTasks(tasks) && DistinctTerminals(terminals)
      && forall i, j :: 0 <= i < |terminals| && 0 <= j < |tasks| ==> terminals[i].id != tasks[j].id
  {
    forall i | 0 <= i < |d.tasks| ensures tasks[i].id == issue.task(d.tasks[i].key) {
      TaskIdAt(env, shell, TaskIds(d, issue, None), d.tasks, tasks, i);
    }
    forall i | 0 <= i < |d.terminals|
      ensures DeclaredTerminals(env, shell, TerminalIds(d, issue, None), d.terminals)[i].id == issue.terminal(d.terminals[i].key)
    {
      TerminalIdAt(env, shell, TerminalIds(d, issue, None), d.terminals, i);
    }
  }

  /** What is renamed only stays well-formed. */
  lemma RenamedTerminalsFit(p: Project, terminals: seq<Terminal>, rename: Id -> Id)
    requires WellFormed(p) && multiset(terminals) == multiset(RenamedTerminals(p.terminals, rename))
    ensures |terminals| == |p.terminals|
    ensures forall i :: 0 <= i < |terminals| ==> WellFormedTerminal(terminals[i])
    ensures p.shell.native.Some? ==> forall i :: 0 <= i < |terminals| ==> terminals[i].sources == []
  {
    var renamed := RenamedTerminals(p.terminals, rename);
    assert |terminals| == |multiset(terminals)| == |multiset(renamed)| == |renamed|;
    forall i | 0 <= i < |terminals|
      ensures exists k :: 0 <= k < |p.terminals| && terminals[i] == RenamedTerminal(p.terminals[k], rename)
    {
      assert terminals[i] in multiset(renamed);
      var k :| 0 <= k < |renamed| && renamed[k] == terminals[i];
      assert terminals[i] == RenamedTerminal(p.terminals[k], rename);
    }
  }

  lemma RenamedTasksFit(p: Project, tasks: seq<Task>, rename: Id -> Id)
    requires WellFormed(p) && multiset(tasks) == multiset(RenamedTasks(p.tasks, rename))
    ensures |tasks| == |p.tasks|
    ensures forall i :: 0 <= i < |tasks| ==> WellFormedTask(tasks[i])
  {
    var renamed := RenamedTasks(p.tasks, rename);
    assert |tasks| == |multiset(tasks)| == |multiset(renamed)| == |renamed|;
    forall i | 0 <= i < |tasks|
      ensures WellFormedTask(tasks[i])
    {
      assert tasks[i] in multiset(renamed);
      var k :| 0 <= k < |renamed| && renamed[k] == tasks[i];
      RenamedTaskFits(p.tasks[k], rename);
    }
  }

  lemma RenamedTaskFits(t: Task, rename: Id -> Id)
    requires WellFormedTask(t)
    ensures WellFormedTask(RenamedTask(t, rename))
  {
  }

  /** The editor that the result has: the exported one, the preferred one, or the one found here. */
  function EditorHere(env: Environment, p: Project, prefs: Preferences): Option<Editor> {
    if p.editor.Some? then p.editor
    else if prefs.editor.Some? then ApplyEditor(env, None, prefs.editor.value, env.configDir)
    else env.discovered
  }

  lemma EditorIsHere(env: Environment, p: Project, d: Declaration, prefs: Preferences)
    requires Export(env, p) == Some(d) && env.root == p.root && DeclaredEditor(env, d, prefs).Some?
    ensures var e := DeclaredEditor(env, d, prefs).value;
      (if e.None? then env.discovered else e) == EditorHere(env, p, prefs)
  {
    ExportParts(env, p, d);
    if p.editor.Some? {
      EditorReturns(env, p, d, prefs);
    } else if prefs.editor.Some? {
      var e := prefs.editor.value;
      assert EditorDeclaration(e.program, e.args, e.externalGui) == e;
    }
  }

  /** Terminals and tasks that may stand for those of a well-formed project. */
  predicate ListsFit(p: Project, terminals: seq<Terminal>, tasks: seq<Task>) {
    && |terminals| == |p.terminals| && |tasks| == |p.tasks|
    && (forall i :: 0 <= i < |terminals| ==> WellFormedTerminal(terminals[i]))
    && (forall i :: 0 <= i < |tasks| ==> WellFormedTask(tasks[i]))
    && (p.shell.native.Some? ==> forall i :: 0 <= i < |terminals| ==> terminals[i].sources == [])
  }

  lemma AssembledIsWellFormed(p: Project, q: Project)
    requires WellFormed(p) && Imported(p, q)
    requires q.editor.Some? ==> Plain(q.editor.value.executable)
    ensures WellFormed(q)
  {
  }

  lemma DeclaredFields(env: Environment, d: Declaration, prefs: Preferences, issue: Fresh, declared: Project)
    requires DeclaredHere(env, d, prefs, issue, None, None) == Some(declared)
    ensures declared.root == env.root && declared.terminals != []
    ensures declared.defaultTerminal == if declared.terminals[0].persistent then Some(declared.terminals[0].id) else None
    ensures DeclaredEditor(env, d, prefs) == Some(declared.editor)
  {
  }

  predicate IdsDiffer(q: Project) {
    && DistinctTasks(q.tasks) && DistinctTerminals(q.terminals)
    && forall i, j :: 0 <= i < |q.terminals| && 0 <= j < |q.tasks| ==> q.terminals[i].id != q.tasks[j].id
  }

  lemma DeclaredIdsDiffer(env: Environment, d: Declaration, prefs: Preferences, issue: Fresh, declared: Project)
    requires NewIds(issue, d) && d.terminals != []
    requires DeclaredHere(env, d, prefs, issue, None, None) == Some(declared)
    ensures IdsDiffer(declared)
  {
    DeclaredParts(env, d, prefs, None, issue.project, TaskIds(d, issue, None), TerminalIds(d, issue, None), declared);
    DeclaredIds(env, d, declared.shell, issue, declared.tasks);
  }

  lemma TerminalsAreExported(env: Environment, p: Project, d: Declaration)
    requires Export(env, p) == Some(d) && p.terminals != []
    ensures d.terminals != [] && WellFormed(p)
  {
    ExportedEntries(env, p, d);
  }

  lemma ImportedListsFit(env: Environment, p: Project, d: Declaration, prefs: Preferences, issue: Fresh, declared: Project)
    requires Export(env, p) == Some(d) && env.root == p.root && p.terminals != [] && WellFormed(p)
    requires IdsDiffer(declared) && DeclaredHere(env, d, prefs, issue, None, None) == Some(declared)
    ensures ListsFit(p, declared.terminals, declared.tasks)
    ensures declared.shell == p.shell.(trusted := None)
  {
    var taskIds, terminalIds := TaskIds(d, issue, None), TerminalIds(d, issue, None);
    DeclaredFromExport(env, p, d, prefs, None, issue.project, taskIds, terminalIds, declared);
    RenamedTerminalsFit(p, declared.terminals, Renaming(TerminalKeys(p), terminalIds));
    RenamedTasksFit(p, declared.tasks, Renaming(TaskKeys(p), taskIds));
  }

  lemma EditedIsHere(env: Environment, p: Project, d: Declaration, prefs: Preferences, issue: Fresh, declared: Project)
    requires Export(env, p) == Some(d) && env.root == p.root
    requires DeclaredHere(env, d, prefs, issue, None, None) == Some(declared)
    ensures WithEditor(env, declared) == declared.(editor := EditorHere(env, p, prefs))
  {
    DeclaredFields(env, d, prefs, issue, declared);
    EditorIsHere(env, p, d, prefs);
  }

  /** What the declared project of an export is, apart from name, repository and editor. */
  predicate Imported(p: Project, q: Project) {
    && q.root == p.root && q.shell == p.shell.(trusted := None)
    && ListsFit(p, q.terminals, q.tasks) && IdsDiffer(q) && q.terminals != []
    && q.defaultTerminal == if q.terminals[0].persistent then Some(q.terminals[0].id) else None
  }

  lemma ImportedParts(env: Environment, p: Project, d: Declaration, prefs: Preferences, issue: Fresh, declared: Project)
    requires Export(env, p) == Some(d) && env.root == p.root && p.terminals != [] && NewIds(issue, d)
    requires DeclaredHere(env, d, prefs, issue, None, None) == Some(declared)
    ensures WellFormed(p) && Imported(p, declared)
  {
    TerminalsAreExported(env, p, d);
    DeclaredIdsDiffer(env, d, prefs, issue, declared);
    ImportedListsFit(env, p, d, prefs, issue, declared);
    DeclaredFields(env, d, prefs, issue, declared);
  }

  lemma EditedIsWellFormed(p: Project, q: Project, editor: Option<Editor>)
    requires WellFormed(p) && Imported(p, q) && (editor.Some? ==> Plain(editor.value.executable))
    ensures WellFormed(q.(editor := editor))
  {
    AssembledIsWellFormed(p, q.(editor := editor));
  }

  lemma ImportIsWellFormed(env: Environment, p: Project, d: Declaration, prefs: Preferences, issue: Fresh, declared: Project)
    requires Export(env, p) == Some(d) && env.root == p.root && p.terminals != [] && NewIds(issue, d)
    requires EditorHere(env, p, prefs).Some? ==> Plain(EditorHere(env, p, prefs).value.executable)
    requires DeclaredHere(env, d, prefs, issue, None, None) == Some(declared)
    ensures WellFormed(WithEditor(env, declared))
  {
    ImportedParts(env, p, d, prefs, issue, declared);
    EditedIsHere(env, p, d, prefs, issue, declared);
    EditedIsWellFormed(p, declared, EditorHere(env, p, prefs));
  }

  /**
   When an exported project comes back: with different fresh identities and a canonical editor path, the
   declaration resolves in a fresh workspace if and only if the environment offers what the project needs
   and accepts the single fields of the result. What it resolves to is ExportThenResolve's matter.
   */
  lemma ExportResolvesIff(env: Environment, p: Project, d: Declaration, prefs: Preferences, issue: Fresh)
    requires Export(env, p) == Some(d) && env.root == p.root && p.terminals != [] && NewIds(issue, d)
    requires EditorHere(env, p, prefs).Some? ==> Plain(EditorHere(env, p, prefs).value.executable)
    ensures Resolve(env, Some(d), prefs, issue, None, None).Some? <==>
      && Usable(env, p, prefs)
      && var declared := DeclaredHere(env, d, prefs, issue, None, None);
         declared.Some? && env.fields(WithEditor(env, declared.value))
  {
    ExportDeclaresIff(env, p, d, prefs, issue);
    var declared := DeclaredHere(env, d, prefs, issue, None, None);
    if declared.Some? {
      ImportIsWellFormed(env, p, d, prefs, issue, declared.value);
    }
    ResolvesIff(env, d, prefs, issue);
  }

  lemma ResolvesIff(env: Environment, d: Declaration, prefs: Preferences, issue: Fresh)
    ensures Resolve(env, Some(d), prefs, issue, None, None).Some? <==>
      var declared := DeclaredHere(env, d, prefs, issue, None, None);
      declared.Some? && Valid(env, WithEditor(env, declared.value))
  {
  }
}

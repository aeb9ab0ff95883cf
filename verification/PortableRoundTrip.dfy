/** Resolving an exported declaration gives the exported project back. */
module PortableRoundTrip {
  import opened Faults
  import opened PortableModel
  import opened PortableKeys
  import opened PortableExport
  import opened PortableSync
  import opened PortableFixpoint
  import Text

  // ---------------------------------------------------------------- the exported keys

  lemma TablesAreDistinct(p: Project)
    requires WellFormed(p)
    ensures forall i :: 0 <= i < |p.tasks| ==> p.tasks[i].id in TaskKeys(p)
    ensures forall i :: 0 <= i < |p.terminals| ==> p.terminals[i].id in TerminalKeys(p)
    ensures TaskTable(p.root, TaskKeys(p), p.tasks).Some? ==> DistinctKeys(TaskTable(p.root, TaskKeys(p), p.tasks).value)
    ensures DistinctKeys(TerminalTable(p, TerminalKeys(p)))
  {
    EveryIdHasAKey(p);
    TerminalTableIsDistinct(p);
    if TaskTable(p.root, TaskKeys(p), p.tasks).Some? {
      TaskTableIsDistinct(p, TaskTable(p.root, TaskKeys(p), p.tasks).value);
    }
  }

  lemma TaskTableIsDistinct(p: Project, table: seq<Entry<TaskDeclaration>>)
    requires DistinctIds(TaskNames(p.tasks)) && forall i :: 0 <= i < |p.tasks| ==> p.tasks[i].id in TaskKeys(p)
    requires TaskTable(p.root, TaskKeys(p), p.tasks) == Some(table)
    ensures DistinctKeys(table)
  {
    var names := TaskNames(p.tasks);
    KeysAreDistinct(names);
    forall i, j | 0 <= i < j < |table|
      ensures table[i].key != table[j].key
    {
      assert names[i].id == p.tasks[i].id && names[j].id == p.tasks[j].id;
      assert table[i].key == TaskKeys(p)[p.tasks[i].id] && table[j].key == TaskKeys(p)[p.tasks[j].id];
    }
  }

  lemma TerminalTableIsDistinct(p: Project)
    requires DistinctIds(TerminalNames(p.terminals)) && forall i :: 0 <= i < |p.terminals| ==> p.terminals[i].id in TerminalKeys(p)
    ensures DistinctKeys(TerminalTable(p, TerminalKeys(p)))
  {
    var names := TerminalNames(p.terminals);
    KeysAreDistinct(names);
    assert forall i :: 0 <= i < |p.terminals| ==> names[i].id == p.terminals[i].id;
  }

  lemma KeysStayDistinct<V>(a: seq<Entry<V>>, b: seq<Entry<V>>)
    requires DistinctKeys(a) && multiset(a) == multiset(b)
    ensures DistinctKeys(b)
  {
    forall i, j | 0 <= i < j < |b|
      ensures b[i].key != b[j].key
    {
      if b[i].key == b[j].key {
        assert b[i] in multiset(a) && b[j] in multiset(a);
        var k :| 0 <= k < |a| && a[k] == b[i];
        var l :| 0 <= l < |a| && a[l] == b[j];
        assert k == l;
        TwoOf(b, i, j);
        OneOf(a, k);
      }
    }
  }

  lemma TwoOf<T>(s: seq<T>, i: nat, j: nat)
    requires i < j < |s| && s[i] == s[j]
    ensures multiset(s)[s[i]] >= 2
  {
    assert s == s[..i] + [s[i]] + s[i + 1..j] + [s[j]] + s[j + 1..];
  }

  lemma OneOf<V>(s: seq<Entry<V>>, k: nat)
    requires DistinctKeys(s) && k < |s|
    ensures multiset(s)[s[k]] == 1
  {
    assert s == s[..k] + [s[k]] + s[k + 1..];
    assert s[k] !in s[..k] && s[k] !in s[k + 1..];
  }

  // ---------------------------------------------------------------- shell, editor, definitions

  lemma TrustIsNotApplied(env: Environment, shell: Shell, d: ShellDeclaration, base: Path)
    ensures ApplyShell(env, shell, d, base).Some? ==> ApplyShell(env, shell, d, base).value.trusted == shell.trusted
  {
  }

  /** Whatever shell it is applied to, the exported declaration sets every field. */
  lemma ShellReturns(env: Environment, p: Project, preferred: Shell)
    requires WellFormed(p) && env.root == p.root
    ensures ApplyShell(env, preferred, ExportedShell(p), env.root).Some? ==>
      ApplyShell(env, preferred, ExportedShell(p), env.root).value == p.shell.(trusted := preferred.trusted)
  {
    RelativeThenAt(p.root, p.shell.executable);
    RelativeThenAt(p.root, p.shell.initCwd);
    SourcesReturn(p.root, p.shell.sources);
    if p.shell.native.Some? {
      assert PatchedEnvironment(map[], true, p.shell.native.value.env, []) == p.shell.native.value.env;
    }
  }

  lemma DeclaredShellReturns(env: Environment, p: Project, d: Declaration, prefs: Preferences)
    requires WellFormed(p) && env.root == p.root && d.shell == Some(ExportedShell(p))
    ensures DeclaredShell(env, d, prefs).Some? ==> DeclaredShell(env, d, prefs).value == p.shell.(trusted := None)
  {
    if env.defaultShell.Some? {
      var initial := Shell(env.defaultShell.value, false, env.root, [], Some(Native([], map[])), None);
      var preferred := PreferredShell(env, initial, d, prefs);
      if preferred.Some? {
        ShellReturns(env, p, preferred.value);
      }
    }
  }

  function PreferredShell(env: Environment, initial: Shell, d: Declaration, prefs: Preferences): (r: Option<Shell>)
    ensures r.Some? ==> r.value.trusted == initial.trusted
  {
    if prefs.shell.None? then Some(initial)
    else
      var chosen := d.shell.Some? && d.shell.value.program.Some?;
      var declared := if chosen then prefs.shell.value.(program := None) else prefs.shell.value;
      TrustIsNotApplied(env, initial, declared, env.configDir);
      ApplyShell(env, initial, declared, env.configDir)
  }

  lemma TerminalReturns(env: Environment, shell: Shell, id: Id, key: string, t: Terminal)
    requires Plain(env.root) && Plain(t.cwd) && PlainSources(t.sources)
    ensures DeclaredTerminal(env, shell, id, key, ExportedTerminal(env.root, t)) == t.(id := id, trusted := None)
  {
    RelativeThenAt(env.root, t.cwd);
    SourcesReturn(env.root, t.sources);
  }

  lemma ExecutionReturns(env: Environment, keys: map<Id, string>, t: Task, d: TaskDeclaration)
    requires Plain(env.root) && WellFormedTask(t) && ExportedTask(env.root, keys, t) == Some(d)
    ensures DeclaredExecution(env, d).Some? ==> DeclaredExecution(env, d).value == t.execution
  {
    if t.execution.Some? {
      RelativeThenAt(env.root, ProgramOf(t.execution.value));
    }
  }

  function RenamedTask(t: Task, rename: Id -> Id): Task {
    t.(id := rename(t.id), approved := None,
       artifactFrom := if t.artifactFrom.Some? then Some(rename(t.artifactFrom.value)) else None)
  }

  function RenamedTerminal(t: Terminal, rename: Id -> Id): Terminal {
    t.(id := rename(t.id), trusted := None)
  }

  /** The identity that a definition has after export and resolution. */
  function Renaming(keys: map<Id, string>, ids: map<string, Id>): Id -> Id {
    (id: Id) => if id in keys && keys[id] in ids then ids[keys[id]] else 0
  }

  lemma TaskReturns(
      env: Environment, shell: Shell, ids: map<string, Id>, all: seq<Entry<TaskDeclaration>>,
      keys: map<Id, string>, t: Task, d: TaskDeclaration, u: Task)
    requires Plain(env.root) && WellFormedTask(t) && t.id in keys && ExportedTask(env.root, keys, t) == Some(d)
    requires keys[t.id] in ids && forall i :: 0 <= i < |all| ==> all[i].key in ids
    requires DeclaredTask(env, shell, ids, all, keys[t.id], d) == Some(u)
    ensures u == RenamedTask(t, Renaming(keys, ids))
  {
    ExecutionReturns(env, keys, t, d);
    RelativeThenAt(env.root, t.cwd);
    SourcesReturn(env.root, t.sources);
    PathsReturn(env.root, t.outputs);
    if t.artifact.Some? {
      RelativeThenAt(env.root, t.artifact.value);
    }
    if t.artifactFrom.Some? {
      var key := keys[t.artifactFrom.value];
      var i :| 0 <= i < |all| && all[i].key == key;
      assert key in ids;
    }
  }

  // ---------------------------------------------------------------- reordering

  function Map<A, B>(f: A -> B, s: seq<A>): (r: seq<B>)
    ensures |r| == |s| && forall i :: 0 <= i < |s| ==> r[i] == f(s[i])
  {
    seq(|s|, i requires 0 <= i < |s| => f(s[i]))
  }

  /** A list without one of its elements. */
  function Cut<A>(s: seq<A>, j: nat): (r: seq<A>)
    requires j < |s|
    ensures |r| == |s| - 1
  {
    s[..j] + s[j + 1..]
  }

  lemma CutMap<A, B>(f: A -> B, s: seq<A>, j: nat)
    requires j < |s|
    ensures Cut(Map(f, s), j) == Map(f, Cut(s, j))
  {
  }

  lemma CutOne<A>(s: seq<A>, j: nat)
    requires j < |s|
    ensures multiset(s) == multiset(Cut(s, j)) + multiset{s[j]}
  {
    assert s == s[..j] + [s[j]] + s[j + 1..];
  }

  lemma Occurs<A>(a: seq<A>, b: seq<A>) returns (j: nat)
    requires multiset(a) == multiset(b) && a != []
    ensures j < |b| && b[j] == a[0]
  {
    assert a[0] in multiset(b);
    j :| 0 <= j < |b| && b[j] == a[0];
  }

  lemma CutBoth<A>(a: seq<A>, b: seq<A>, j: nat)
    requires multiset(a) == multiset(b) && a != [] && j < |b| && b[j] == a[0]
    ensures multiset(Cut(a, 0)) == multiset(Cut(b, j))
  {
    CutOne(a, 0);
    CutOne(b, j);
    assert multiset(Cut(a, 0)) == multiset(a) - multiset{a[0]};
    assert multiset(Cut(b, j)) == multiset(b) - multiset{b[j]};
  }

  /** Mapping a reordered list gives a reordering of the mapped list. */
  lemma {:induction false} MapReordered<A, B>(f: A -> B, a: seq<A>, b: seq<A>)
    requires multiset(a) == multiset(b)
    ensures multiset(Map(f, a)) == multiset(Map(f, b))
    decreases |a|
  {
    assert |a| == |multiset(a)| == |multiset(b)| == |b|;
    if a != [] {
      var j := Occurs(a, b);
      CutBoth(a, b, j);
      MapReordered(f, Cut(a, 0), Cut(b, j));
      CutMap(f, a, 0);
      CutMap(f, b, j);
      CutOne(Map(f, a), 0);
      CutOne(Map(f, b), j);
    }
  }

  function RenamedTasks(tasks: seq<Task>, rename: Id -> Id): seq<Task> {
    seq(|tasks|, i requires 0 <= i < |tasks| => RenamedTask(tasks[i], rename))
  }

  function RenamedTerminals(terminals: seq<Terminal>, rename: Id -> Id): seq<Terminal> {
    seq(|terminals|, i requires 0 <= i < |terminals| => RenamedTerminal(terminals[i], rename))
  }

  // ---------------------------------------------------------------- the whole project

  lemma TerminalsReturn(env: Environment, p: Project, shell: Shell, ids: map<string, Id>, entries: seq<Entry<TerminalDeclaration>>)
    requires WellFormed(p) && env.root == p.root
    requires forall i :: 0 <= i < |p.terminals| ==> p.terminals[i].id in TerminalKeys(p)
    requires multiset(entries) == multiset(TerminalTable(p, TerminalKeys(p)))
    requires forall i :: 0 <= i < |entries| ==> entries[i].key in ids
    ensures multiset(DeclaredTerminals(env, shell, ids, entries))
         == multiset(RenamedTerminals(p.terminals, Renaming(TerminalKeys(p), ids)))
  {
    var keys := TerminalKeys(p);
    var table := TerminalTable(p, keys);
    var f := (e: Entry<TerminalDeclaration>) => DeclaredTerminal(env, shell, if e.key in ids then ids[e.key] else 0, e.key, e.value);
    assert DeclaredTerminals(env, shell, ids, entries) == Map(f, entries);
    MapReordered(f, entries, table);
    forall i | 0 <= i < |p.terminals|
      ensures f(table[i]) == RenamedTerminal(p.terminals[i], Renaming(keys, ids))
    {
      assert table[i] in multiset(entries);
      assert WellFormedTerminal(p.terminals[i]);
      TerminalReturns(env, shell, Renaming(keys, ids)(p.terminals[i].id), table[i].key, p.terminals[i]);
    }
    assert Map(f, table) == RenamedTerminals(p.terminals, Renaming(keys, ids));
  }

  /** The declared task of an entry, as a total function. */
  function DeclaredOr(
      env: Environment, shell: Shell, ids: map<string, Id>, all: seq<Entry<TaskDeclaration>>, e: Entry<TaskDeclaration>, otherwise: Task): Task
    requires forall i :: 0 <= i < |all| ==> all[i].key in ids
  {
    if e.key !in ids then otherwise else Or(DeclaredTask(env, shell, ids, all, e.key, e.value), otherwise)
  }

  lemma DeclaredAt(
      env: Environment, shell: Shell, ids: map<string, Id>, all: seq<Entry<TaskDeclaration>>, tasks: seq<Task>, otherwise: Task, i: nat)
    requires forall i :: 0 <= i < |all| ==> all[i].key in ids
    requires DeclaredTasks(env, shell, ids, all, all) == Some(tasks) && i < |all|
    ensures |tasks| == |all| && DeclaredOr(env, shell, ids, all, all[i], otherwise) == tasks[i]
  {
    assert DeclaredTask(env, shell, ids, all, all[i].key, all[i].value) == Some(tasks[i]);
  }

  lemma TasksReturn(
      env: Environment, p: Project, shell: Shell, ids: map<string, Id>, entries: seq<Entry<TaskDeclaration>>,
      table: seq<Entry<TaskDeclaration>>, tasks: seq<Task>)
    requires WellFormed(p) && env.root == p.root
    requires forall i :: 0 <= i < |p.tasks| ==> p.tasks[i].id in TaskKeys(p)
    requires TaskTable(p.root, TaskKeys(p), p.tasks) == Some(table) && multiset(entries) == multiset(table)
    requires forall i :: 0 <= i < |entries| ==> entries[i].key in ids
    requires DeclaredTasks(env, shell, ids, entries, entries) == Some(tasks)
    ensures multiset(tasks) == multiset(RenamedTasks(p.tasks, Renaming(TaskKeys(p), ids)))
  {
    if p.tasks == [] {
      assert |multiset(entries)| == 0;
      assert entries == [] && tasks == [];
    } else {
      var keys := TaskKeys(p);
      var f := (e: Entry<TaskDeclaration>) => DeclaredOr(env, shell, ids, entries, e, p.tasks[0]);
      forall i | 0 <= i < |entries|
        ensures f(entries[i]) == tasks[i]
      {
        DeclaredAt(env, shell, ids, entries, tasks, p.tasks[0], i);
      }
      assert tasks == Map(f, entries);
      MapReordered(f, entries, table);
      forall i | 0 <= i < |p.tasks|
        ensures f(table[i]) == RenamedTask(p.tasks[i], Renaming(keys, ids))
      {
        assert table[i] in multiset(entries);
        var k :| 0 <= k < |entries| && entries[k] == table[i];
        OneTaskReturns(env, p, shell, ids, entries, table, tasks, i, k);
      }
      assert Map(f, table) == RenamedTasks(p.tasks, Renaming(keys, ids));
    }
  }

  lemma OneTaskReturns(
      env: Environment, p: Project, shell: Shell, ids: map<string, Id>, entries: seq<Entry<TaskDeclaration>>,
      table: seq<Entry<TaskDeclaration>>, tasks: seq<Task>, i: nat, k: nat)
    requires WellFormed(p) && env.root == p.root
    requires forall i :: 0 <= i < |p.tasks| ==> p.tasks[i].id in TaskKeys(p)
    requires TaskTable(p.root, TaskKeys(p), p.tasks) == Some(table)
    requires forall i :: 0 <= i < |entries| ==> entries[i].key in ids
    requires DeclaredTasks(env, shell, ids, entries, entries) == Some(tasks)
    requires i < |p.tasks| && k < |entries| && entries[k] == table[i]
    ensures tasks[k] == RenamedTask(p.tasks[i], Renaming(TaskKeys(p), ids))
  {
    assert DeclaredTask(env, shell, ids, entries, entries[k].key, entries[k].value) == Some(tasks[k]);
    assert WellFormedTask(p.tasks[i]);
    TaskReturns(env, shell, ids, entries, TaskKeys(p), p.tasks[i], table[i].value, tasks[k]);
  }

  // ---------------------------------------------------------------- the round trip

  lemma ExportParts(env: Environment, p: Project, d: Declaration)
    requires Export(env, p) == Some(d)
    ensures WellFormed(p) && d.name == Some(p.name) && d.shell == Some(ExportedShell(p))
    ensures forall i :: 0 <= i < |p.tasks| ==> p.tasks[i].id in TaskKeys(p)
    ensures forall i :: 0 <= i < |p.terminals| ==> p.terminals[i].id in TerminalKeys(p)
    ensures TaskTable(p.root, TaskKeys(p), p.tasks).Some?
    ensures d.tasks == Collect(TaskTable(p.root, TaskKeys(p), p.tasks).value)
    ensures d.terminals == Collect(TerminalTable(p, TerminalKeys(p)))
    ensures d.editor.Some? <==> p.editor.Some?
    ensures d.editor.Some? ==> d.editor.value == EditorDeclaration(
      Some(PortableProgram(p.root, p.editor.value.executable)), Some(p.editor.value.args), Some(p.editor.value.externalGui))
  {
    EveryIdHasAKey(p);
  }

  lemma TablesKeepEntries(p: Project)
    requires WellFormed(p)
    ensures forall i :: 0 <= i < |p.tasks| ==> p.tasks[i].id in TaskKeys(p)
    ensures forall i :: 0 <= i < |p.terminals| ==> p.terminals[i].id in TerminalKeys(p)
    ensures var table := TerminalTable(p, TerminalKeys(p));
      DistinctKeys(table) && multiset(Collect(table)) == multiset(table) && |Collect(table)| == |p.terminals|
    ensures var table := TaskTable(p.root, TaskKeys(p), p.tasks);
      table.Some? ==> DistinctKeys(table.value) && multiset(Collect(table.value)) == multiset(table.value) && |Collect(table.value)| == |p.tasks|
  {
    TablesAreDistinct(p);
    CollectKeeps(TerminalTable(p, TerminalKeys(p)));
    var table := TaskTable(p.root, TaskKeys(p), p.tasks);
    if table.Some? {
      CollectKeeps(table.value);
    }
  }

  lemma TaskKeysAreValid(p: Project, table: seq<Entry<TaskDeclaration>>, entries: seq<Entry<TaskDeclaration>>)
    requires WellFormed(p) && forall i :: 0 <= i < |p.tasks| ==> p.tasks[i].id in TaskKeys(p)
    requires TaskTable(p.root, TaskKeys(p), p.tasks) == Some(table) && multiset(entries) == multiset(table)
    ensures forall i :: 0 <= i < |entries| ==> Text.ValidName(entries[i].key)
  {
    assert forall i :: 0 <= i < |p.tasks| ==> WellFormedTask(p.tasks[i]);
    KeysAreValid(TaskNames(p.tasks), {});
    forall i | 0 <= i < |entries|
      ensures Text.ValidName(entries[i].key)
    {
      assert entries[i] in multiset(table);
      var k :| 0 <= k < |table| && table[k] == entries[i];
      assert table[k].key == TaskKeys(p)[p.tasks[k].id];
    }
  }

  lemma TerminalKeysAreValid(p: Project, entries: seq<Entry<TerminalDeclaration>>)
    requires WellFormed(p) && forall i :: 0 <= i < |p.terminals| ==> p.terminals[i].id in TerminalKeys(p)
    requires multiset(entries) == multiset(TerminalTable(p, TerminalKeys(p)))
    ensures forall i :: 0 <= i < |entries| ==> Text.ValidName(entries[i].key)
  {
    var table := TerminalTable(p, TerminalKeys(p));
    assert forall i :: 0 <= i < |p.terminals| ==> WellFormedTerminal(p.terminals[i]);
    KeysAreValid(TerminalNames(p.terminals), {});
    forall i | 0 <= i < |entries|
      ensures Text.ValidName(entries[i].key)
    {
      assert entries[i] in multiset(table);
      var k :| 0 <= k < |table| && table[k] == entries[i];
      assert table[k].key == TerminalKeys(p)[p.terminals[k].id];
    }
  }

  /** No entry is lost: keys are distinct, valid, and each definition has its entry. */
  lemma ExportedEntries(env: Environment, p: Project, d: Declaration)
    requires Export(env, p) == Some(d)
    ensures |d.tasks| == |p.tasks| && |d.terminals| == |p.terminals|
    ensures DistinctKeys(d.tasks) && DistinctKeys(d.terminals)
    ensures forall i :: 0 <= i < |d.tasks| ==> Text.ValidName(d.tasks[i].key)
    ensures forall i :: 0 <= i < |d.terminals| ==> Text.ValidName(d.terminals[i].key)
  {
    ExportParts(env, p, d);
    TablesKeepEntries(p);
    var table := TaskTable(p.root, TaskKeys(p), p.tasks).value;
    KeysStayDistinct(table, d.tasks);
    KeysStayDistinct(TerminalTable(p, TerminalKeys(p)), d.terminals);
    TaskKeysAreValid(p, table, d.tasks);
    TerminalKeysAreValid(p, d.terminals);
  }

  lemma EditorReturns(env: Environment, p: Project, d: Declaration, prefs: Preferences)
    requires WellFormed(p) && env.root == p.root && p.editor.Some? && d.editor == Some(EditorDeclaration(
      Some(PortableProgram(p.root, p.editor.value.executable)), Some(p.editor.value.args), Some(p.editor.value.externalGui)))
    ensures DeclaredEditor(env, d, prefs).Some? ==> DeclaredEditor(env, d, prefs).value == p.editor
  {
    RelativeThenAt(p.root, p.editor.value.executable);
  }

  /** Without an existing project, the result is the declared project, an editor looked for. */
  lemma FirstResolution(env: Environment, d: Declaration, prefs: Preferences, issue: Fresh, r: Resolved)
    requires Resolve(env, Some(d), prefs, issue, None, None) == Some(r)
    ensures DeclaredHere(env, d, prefs, issue, None, None).Some? && r.binding.Some?
    ensures r.project == WithEditor(env, DeclaredHere(env, d, prefs, issue, None, None).value)
    ensures r.binding.value.taskIds == TaskIds(d, issue, None) && r.binding.value.terminalIds == TerminalIds(d, issue, None)
    ensures DeclaredEditor(env, d, prefs).Some?
    ensures DeclaredHere(env, d, prefs, issue, None, None).value.editor == DeclaredEditor(env, d, prefs).value
    ensures r.project.name == Or(d.name, env.rootName) && Valid(env, r.project)
  {
    ResolvedParts(env, d, prefs, issue, None, None, r);
  }

  /** Keys that differ have different identities in the result. */
  lemma TaskIdsDiffer(
      env: Environment, shell: Shell, ids: map<string, Id>, all: seq<Entry<TaskDeclaration>>, tasks: seq<Task>, a: string, b: string)
    requires forall i :: 0 <= i < |all| ==> all[i].key in ids
    requires DeclaredTasks(env, shell, ids, all, all) == Some(tasks) && DistinctTasks(tasks)
    requires HasKey(all, a) && HasKey(all, b) && a != b
    ensures ids[a] != ids[b]
  {
    var i :| 0 <= i < |all| && all[i].key == a;
    var j :| 0 <= j < |all| && all[j].key == b;
    TaskIdAt(env, shell, ids, all, tasks, i);
    TaskIdAt(env, shell, ids, all, tasks, j);
  }

  lemma TaskIdAt(
      env: Environment, shell: Shell, ids: map<string, Id>, all: seq<Entry<TaskDeclaration>>, tasks: seq<Task>, i: nat)
    requires forall i :: 0 <= i < |all| ==> all[i].key in ids
    requires DeclaredTasks(env, shell, ids, all, all) == Some(tasks) && i < |all|
    ensures tasks[i].id == ids[all[i].key]
  {
    assert DeclaredTask(env, shell, ids, all, all[i].key, all[i].value) == Some(tasks[i]);
  }

  lemma TerminalIdsDiffer(
      env: Environment, shell: Shell, ids: map<string, Id>, all: seq<Entry<TerminalDeclaration>>, a: string, b: string)
    requires forall i :: 0 <= i < |all| ==> all[i].key in ids
    requires DistinctTerminals(DeclaredTerminals(env, shell, ids, all))
    requires HasKey(all, a) && HasKey(all, b) && a != b
    ensures ids[a] != ids[b]
  {
    var terminals := DeclaredTerminals(env, shell, ids, all);
    var i :| 0 <= i < |all| && all[i].key == a;
    var j :| 0 <= j < |all| && all[j].key == b;
    TerminalIdAt(env, shell, ids, all, i);
    TerminalIdAt(env, shell, ids, all, j);
    assert terminals[i].id != terminals[j].id;
  }

  lemma TerminalIdAt(env: Environment, shell: Shell, ids: map<string, Id>, all: seq<Entry<TerminalDeclaration>>, i: nat)
    requires forall i :: 0 <= i < |all| ==> all[i].key in ids
    requires i < |all|
    ensures |DeclaredTerminals(env, shell, ids, all)| == |all|
    ensures DeclaredTerminals(env, shell, ids, all)[i].id == ids[all[i].key]
  {
  }

  /** The renaming keeps different tasks different. */
  lemma TaskRenamingIsInjective(
      env: Environment, p: Project, shell: Shell, ids: map<string, Id>, table: seq<Entry<TaskDeclaration>>,
      all: seq<Entry<TaskDeclaration>>, tasks: seq<Task>, i: nat, j: nat)
    requires WellFormed(p) && i < j < |p.tasks|
    requires forall i :: 0 <= i < |p.tasks| ==> p.tasks[i].id in TaskKeys(p)
    requires TaskTable(p.root, TaskKeys(p), p.tasks) == Some(table) && DistinctKeys(table) && multiset(all) == multiset(table)
    requires forall i :: 0 <= i < |all| ==> all[i].key in ids
    requires DeclaredTasks(env, shell, ids, all, all) == Some(tasks) && DistinctTasks(tasks)
    ensures Renaming(TaskKeys(p), ids)(p.tasks[i].id) != Renaming(TaskKeys(p), ids)(p.tasks[j].id)
  {
    SameKeys(table, all, table[i].key);
    SameKeys(table, all, table[j].key);
    TaskIdsDiffer(env, shell, ids, all, tasks, table[i].key, table[j].key);
  }

  lemma TerminalRenamingIsInjective(
      env: Environment, p: Project, shell: Shell, ids: map<string, Id>, all: seq<Entry<TerminalDeclaration>>, i: nat, j: nat)
    requires WellFormed(p) && i < j < |p.terminals|
    requires forall i :: 0 <= i < |p.terminals| ==> p.terminals[i].id in TerminalKeys(p)
    requires DistinctKeys(TerminalTable(p, TerminalKeys(p))) && multiset(all) == multiset(TerminalTable(p, TerminalKeys(p)))
    requires forall i :: 0 <= i < |all| ==> all[i].key in ids
    requires DistinctTerminals(DeclaredTerminals(env, shell, ids, all))
    ensures Renaming(TerminalKeys(p), ids)(p.terminals[i].id) != Renaming(TerminalKeys(p), ids)(p.terminals[j].id)
  {
    var table := TerminalTable(p, TerminalKeys(p));
    SameKeys(table, all, table[i].key);
    SameKeys(table, all, table[j].key);
    TerminalIdsDiffer(env, shell, ids, all, table[i].key, table[j].key);
  }

  predicate InjectiveOnTasks(rename: Id -> Id, tasks: seq<Task>) {
    forall i, j :: 0 <= i < j < |tasks| ==> rename(tasks[i].id) != rename(tasks[j].id)
  }

  predicate InjectiveOnTerminals(rename: Id -> Id, terminals: seq<Terminal>) {
    forall i, j :: 0 <= i < j < |terminals| ==> rename(terminals[i].id) != rename(terminals[j].id)
  }

  /** What the declared project of an export holds. */
  lemma DeclaredFromExport(
      env: Environment, p: Project, d: Declaration, prefs: Preferences, existing: Option<Project>, id: Id,
      taskIds: map<string, Id>, terminalIds: map<string, Id>, declared: Project)
    requires Export(env, p) == Some(d) && env.root == p.root && p.terminals != []
    requires forall i :: 0 <= i < |d.tasks| ==> d.tasks[i].key in taskIds
    requires forall i :: 0 <= i < |TerminalEntries(d)| ==> TerminalEntries(d)[i].key in terminalIds
    requires Declared(env, d, prefs, existing, id, taskIds, terminalIds) == Some(declared)
    requires DistinctTasks(declared.tasks) && DistinctTerminals(declared.terminals)
    ensures declared.shell == p.shell.(trusted := None)
    ensures var rename := Renaming(TerminalKeys(p), terminalIds);
      multiset(declared.terminals) == multiset(RenamedTerminals(p.terminals, rename)) && InjectiveOnTerminals(rename, p.terminals)
    ensures var rename := Renaming(TaskKeys(p), taskIds);
      multiset(declared.tasks) == multiset(RenamedTasks(p.tasks, rename)) && InjectiveOnTasks(rename, p.tasks)
  {
    DeclaredParts(env, d, prefs, existing, id, taskIds, terminalIds, declared);
    ExportParts(env, p, d);
    TablesKeepEntries(p);
    DeclaredShellReturns(env, p, d, prefs);
    assert TerminalEntries(d) == d.terminals;
    var table := TaskTable(p.root, TaskKeys(p), p.tasks).value;
    TerminalsReturn(env, p, declared.shell, terminalIds, d.terminals);
    TasksReturn(env, p, declared.shell, taskIds, d.tasks, table, declared.tasks);
    forall i, j | 0 <= i < j < |p.tasks|
      ensures Renaming(TaskKeys(p), taskIds)(p.tasks[i].id) != Renaming(TaskKeys(p), taskIds)(p.tasks[j].id)
    {
      TaskRenamingIsInjective(env, p, declared.shell, taskIds, table, d.tasks, declared.tasks, i, j);
    }
    forall i, j | 0 <= i < j < |p.terminals|
      ensures Renaming(TerminalKeys(p), terminalIds)(p.terminals[i].id) != Renaming(TerminalKeys(p), terminalIds)(p.terminals[j].id)
    {
      TerminalRenamingIsInjective(env, p, declared.shell, terminalIds, d.terminals, i, j);
    }
  }

  /**
   Exporting a project and resolving the declaration in a fresh workspace, whatever the user prefers:
   when it resolves, the shell, the name and an editor that was set come back, and so do all terminals and
   tasks, under new identities that also follow artifacts to their producers; only trust, approvals and order
   are not exported.
   */
  lemma ExportThenResolve(env: Environment, p: Project, d: Declaration, prefs: Preferences, issue: Fresh, r: Resolved)
    requires Export(env, p) == Some(d) && env.root == p.root && p.terminals != []
    requires Resolve(env, Some(d), prefs, issue, None, None) == Some(r)
    ensures r.binding.Some? && r.project.name == p.name && r.project.root == p.root
    ensures r.project.shell == p.shell.(trusted := None)
    ensures p.editor.Some? ==> r.project.editor == p.editor
    ensures var rename := Renaming(TerminalKeys(p), r.binding.value.terminalIds);
      multiset(r.project.terminals) == multiset(RenamedTerminals(p.terminals, rename)) && InjectiveOnTerminals(rename, p.terminals)
    ensures var rename := Renaming(TaskKeys(p), r.binding.value.taskIds);
      multiset(r.project.tasks) == multiset(RenamedTasks(p.tasks, rename)) && InjectiveOnTasks(rename, p.tasks)
  {
    FirstResolution(env, d, prefs, issue, r);
    var declared := DeclaredHere(env, d, prefs, issue, None, None).value;
    assert DistinctTasks(r.project.tasks) && DistinctTerminals(r.project.terminals);
    DeclaredFromExport(env, p, d, prefs, None, issue.project, r.binding.value.taskIds, r.binding.value.terminalIds, declared);
    ExportParts(env, p, d);
    if p.editor.Some? {
      EditorReturns(env, p, d, prefs);
    }
  }
}

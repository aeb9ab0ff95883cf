/** `export_declaration`: a project as a declaration that resolves to it. */
module PortableExport {
  import opened Faults
  import opened PortableModel
  import opened PortableKeys
  import Text

  // ---------------------------------------------------------------- paths

  predicate Beneath(root: Path, value: Path) {
    root.absolute == value.absolute && root.parts <= value.parts
  }

  /** A path beneath the root becomes relative; any other stays as it is. */
  function Relative(root: Path, value: Path): Path {
    if !Beneath(root, value) then value
    else if value.parts == root.parts then Path(false, ["."])
    else Path(false, value.parts[|root.parts|..])
  }

  /** A program beneath the root keeps a leading "." so that it is not searched for. */
  function PortableProgram(root: Path, value: Path): Program {
    if Beneath(root, value) then Explicit(Path(false, ["."] + value.parts[|root.parts|..])) else Explicit(value)
  }

  lemma {:induction false} WithoutDotsConcat(a: seq<string>, b: seq<string>)
    ensures WithoutDots(a + b) == WithoutDots(a) + WithoutDots(b)
  {
    if a == [] {
      assert a + b == b;
    } else {
      assert (a + b)[1..] == a[1..] + b;
      WithoutDotsConcat(a[1..], b);
    }
  }

  lemma {:induction false} WithoutDotsPlain(parts: seq<string>)
    requires "." !in parts
    ensures WithoutDots(parts) == parts
  {
    if parts != [] {
      assert parts == [parts[0]] + parts[1..];
      WithoutDotsPlain(parts[1..]);
    }
  }

  /** Extending a plain path: "." components vanish, plain ones stay. */
  lemma Extended(root: seq<string>, dots: seq<string>, rest: seq<string>)
    requires "." !in root && "." !in rest && (dots == [] || dots == ["."])
    ensures WithoutDots(root + (dots + rest)) == root + rest
  {
    WithoutDotsPlain(root);
    WithoutDotsPlain(rest);
    WithoutDotsConcat(root, dots + rest);
    if dots == [] {
      assert dots + rest == rest;
    } else {
      assert (dots + rest)[0] == "." && (dots + rest)[1..] == rest;
      assert WithoutDots(dots + rest) == [] + WithoutDots(rest) == rest;
    }
  }

  lemma RelativeThenAt(root: Path, value: Path)
    requires Plain(root) && Plain(value)
    ensures At(root, Relative(root, value)) == value
    ensures PortableProgram(root, value).Explicit? && At(root, PortableProgram(root, value).path) == value
  {
    if Beneath(root, value) {
      var rest := value.parts[|root.parts|..];
      assert value.parts == root.parts + rest;
      Extended(root.parts, ["."], rest);
      if value.parts == root.parts {
        Extended(root.parts, ["."], []);
        assert ["."] + [] == ["."];
      } else {
        Extended(root.parts, [], rest);
        assert [] + rest == rest;
      }
    } else {
      WithoutDotsPlain(value.parts);
    }
  }

  function RelativePaths(root: Path, values: seq<Path>): seq<Path> {
    seq(|values|, i requires 0 <= i < |values| => Relative(root, values[i]))
  }

  function RelativeSources(root: Path, values: seq<Source>): seq<Source> {
    seq(|values|, i requires 0 <= i < |values| => Source(Relative(root, values[i].path), values[i].args))
  }

  lemma PathsReturn(root: Path, values: seq<Path>)
    requires Plain(root) && PlainPaths(values)
    ensures Paths(root, RelativePaths(root, values)) == values
  {
    forall i | 0 <= i < |values|
      ensures At(root, Relative(root, values[i])) == values[i]
    {
      RelativeThenAt(root, values[i]);
    }
  }

  lemma SourcesReturn(root: Path, values: seq<Source>)
    requires Plain(root) && PlainSources(values)
    ensures Sources(root, RelativeSources(root, values)) == values
  {
    forall i | 0 <= i < |values|
      ensures At(root, Relative(root, values[i].path)) == values[i].path
    {
      RelativeThenAt(root, values[i].path);
    }
  }

  // ---------------------------------------------------------------- ordered tables

  /** Strings in the order of their characters. */
  predicate Before(a: string, b: string) {
    if b == "" then false
    else if a == "" then true
    else a[0] < b[0] || (a[0] == b[0] && Before(a[1..], b[1..]))
  }

  function Insert<V>(entries: seq<Entry<V>>, e: Entry<V>): (r: seq<Entry<V>>)
    ensures |r| <= |entries| + 1
  {
    if entries == [] then [e]
    else if entries[0].key == e.key then [e] + entries[1..]
    else if Before(e.key, entries[0].key) then [e] + entries
    else [entries[0]] + Insert(entries[1..], e)
  }

  function Collect<V>(entries: seq<Entry<V>>): seq<Entry<V>> {
    if entries == [] then []
    else Insert(Collect(entries[..|entries| - 1]), entries[|entries| - 1])
  }

  lemma {:induction false} InsertIntoMultiset<V>(entries: seq<Entry<V>>, e: Entry<V>)
    requires !HasKey(entries, e.key)
    ensures multiset(Insert(entries, e)) == multiset(entries) + multiset{e}
    ensures |Insert(entries, e)| == |entries| + 1
  {
    if entries != [] {
      assert entries[0].key != e.key;
      assert entries == [entries[0]] + entries[1..];
      if !Before(e.key, entries[0].key) {
        assert forall i :: 0 <= i < |entries[1..]| ==> entries[1..][i] == entries[i + 1];
        InsertIntoMultiset(entries[1..], e);
      }
    }
  }

  lemma SameKeys<V>(a: seq<Entry<V>>, b: seq<Entry<V>>, key: string)
    requires multiset(a) == multiset(b)
    ensures HasKey(a, key) ==> HasKey(b, key)
  {
    if HasKey(a, key) {
      var i :| 0 <= i < |a| && a[i].key == key;
      assert a[i] in multiset(b);
      var j :| 0 <= j < |b| && b[j] == a[i];
    }
  }

  predicate DistinctKeys<V>(entries: seq<Entry<V>>) {
    forall i, j :: 0 <= i < j < |entries| ==> entries[i].key != entries[j].key
  }

  lemma InsertLast<V>(init: seq<Entry<V>>, table: seq<Entry<V>>, last: Entry<V>)
    requires multiset(table) == multiset(init) && |table| == |init|
    requires !HasKey(init, last.key)
    ensures multiset(Insert(table, last)) == multiset(init + [last]) && |Insert(table, last)| == |init| + 1
  {
    SameKeys(table, init, last.key);
    InsertIntoMultiset(table, last);
  }

  lemma LastIsNew<V>(entries: seq<Entry<V>>)
    requires DistinctKeys(entries) && entries != []
    ensures DistinctKeys(entries[..|entries| - 1]) && !HasKey(entries[..|entries| - 1], entries[|entries| - 1].key)
  {
  }

  /** With distinct keys a table holds every entry. */
  lemma {:induction false} CollectKeeps<V>(entries: seq<Entry<V>>)
    requires DistinctKeys(entries)
    ensures multiset(Collect(entries)) == multiset(entries) && |Collect(entries)| == |entries|
  {
    if entries != [] {
      var n := |entries| - 1;
      LastIsNew(entries);
      CollectKeeps(entries[..n]);
      InsertLast(entries[..n], Collect(entries[..n]), entries[n]);
      assert entries == entries[..n] + [entries[n]];
    }
  }

  // ---------------------------------------------------------------- the export

  function TaskNames(tasks: seq<Task>): seq<Named> {
    seq(|tasks|, i requires 0 <= i < |tasks| => Named(tasks[i].id, tasks[i].name))
  }

  function TerminalNames(terminals: seq<Terminal>): seq<Named> {
    seq(|terminals|, i requires 0 <= i < |terminals| => Named(terminals[i].id, terminals[i].name))
  }

  function TaskKeys(p: Project): map<Id, string> { UniqueKeys(TaskNames(p.tasks), {}) }

  function TerminalKeys(p: Project): map<Id, string> { UniqueKeys(TerminalNames(p.terminals), {}) }

  function ExportedShell(p: Project): ShellDeclaration {
    ShellDeclaration(
      Some(PortableProgram(p.root, p.shell.executable)),
      if p.shell.native.Some? then Some(p.shell.native.value.args) else None,
      if p.shell.native.Some? then p.shell.native.value.env else map[],
      [], p.shell.native.Some?,
      Some(Relative(p.root, p.shell.initCwd)),
      Some(p.shell.native.None?), Some(p.shell.login), Some(RelativeSources(p.root, p.shell.sources)))
  }

  function ExportedTerminal(root: Path, t: Terminal): TerminalDeclaration {
    TerminalDeclaration(Some(t.name), Some(Relative(root, t.cwd)), Some(RelativeSources(root, t.sources)), Some(t.persistent))
  }

  /** A task, unless its artifact comes from a task that is not registered. */
  function ExportedTask(root: Path, keys: map<Id, string>, t: Task): Option<TaskDeclaration> {
    if t.artifactFrom.Some? && t.artifactFrom.value !in keys then None
    else
      var x := t.execution;
      Some(TaskDeclaration(
        Some(t.name),
        if x.Some? && x.value.Process? then Some(PortableProgram(root, x.value.program)) else None,
        if x.Some? then Some(x.value.args) else None,
        if x.Some? && x.value.Script? then Some(PortableProgram(root, x.value.interpreter)) else None,
        if x.Some? && x.value.Script? then Some(x.value.script) else None,
        if x.None? then Some(t.command) else None,
        Some(Relative(root, t.cwd)),
        if x.Some? then x.value.env else map[],
        RelativeSources(root, t.sources), t.steps, t.interactive, !t.rawLog, !t.stopOnFailure,
        if t.artifact.Some? then Some(Relative(root, t.artifact.value)) else None,
        RelativePaths(root, t.outputs),
        if t.artifactFrom.Some? then Some(keys[t.artifactFrom.value]) else None,
        t.timeout))
  }

  function TerminalTable(p: Project, keys: map<Id, string>): (entries: seq<Entry<TerminalDeclaration>>)
    requires forall i :: 0 <= i < |p.terminals| ==> p.terminals[i].id in keys
  {
    seq(|p.terminals|, i requires 0 <= i < |p.terminals| => Entry(keys[p.terminals[i].id], ExportedTerminal(p.root, p.terminals[i])))
  }

  function TaskTable(root: Path, keys: map<Id, string>, tasks: seq<Task>): (entries: Option<seq<Entry<TaskDeclaration>>>)
    requires forall i :: 0 <= i < |tasks| ==> tasks[i].id in keys
    ensures entries.Some? ==> |entries.value| == |tasks| && forall i :: 0 <= i < |tasks| ==>
      && entries.value[i].key == keys[tasks[i].id]
      && ExportedTask(root, keys, tasks[i]) == Some(entries.value[i].value)
    ensures entries.None? ==> exists i :: 0 <= i < |tasks| && ExportedTask(root, keys, tasks[i]).None?
  {
    if tasks == [] then Some([])
    else
      var first, rest := ExportedTask(root, keys, tasks[0]), TaskTable(root, keys, tasks[1..]);
      if first.None? || rest.None? then None else Some([Entry(keys[tasks[0].id], first.value)] + rest.value)
  }

  lemma EveryIdHasAKey(p: Project)
    requires WellFormed(p)
    ensures DistinctIds(TaskNames(p.tasks)) && DistinctIds(TerminalNames(p.terminals))
    ensures forall i :: 0 <= i < |p.tasks| ==> p.tasks[i].id in TaskKeys(p)
    ensures forall i :: 0 <= i < |p.terminals| ==> p.terminals[i].id in TerminalKeys(p)
  {
    EveryTaskHasAKey(p);
    EveryTerminalHasAKey(p);
  }

  lemma EveryTaskHasAKey(p: Project)
    requires DistinctTasks(p.tasks)
    ensures DistinctIds(TaskNames(p.tasks))
    ensures forall i :: 0 <= i < |p.tasks| ==> p.tasks[i].id in TaskKeys(p)
  {
    KeysAreDistinct(TaskNames(p.tasks));
    assert forall i :: 0 <= i < |p.tasks| ==> TaskNames(p.tasks)[i].id == p.tasks[i].id;
  }

  lemma EveryTerminalHasAKey(p: Project)
    requires DistinctTerminals(p.terminals)
    ensures DistinctIds(TerminalNames(p.terminals))
    ensures forall i :: 0 <= i < |p.terminals| ==> p.terminals[i].id in TerminalKeys(p)
  {
    KeysAreDistinct(TerminalNames(p.terminals));
    assert forall i :: 0 <= i < |p.terminals| ==> TerminalNames(p.terminals)[i].id == p.terminals[i].id;
  }

  /** `export_declaration`. */
  function Export(env: Environment, p: Project): Option<Declaration> {
    if !Valid(env, p) then None
    else
      EveryIdHasAKey(p);
      var tasks := TaskTable(p.root, TaskKeys(p), p.tasks);
      if tasks.None? then None
      else
        Some(Declaration(
          Some(p.name), Some(ExportedShell(p)),
          if p.editor.Some? then
            Some(EditorDeclaration(Some(PortableProgram(p.root, p.editor.value.executable)),
                                   Some(p.editor.value.args), Some(p.editor.value.externalGui)))
          else None,
          Collect(TerminalTable(p, TerminalKeys(p))),
          Collect(tasks.value)))
  }
}

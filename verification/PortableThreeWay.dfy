/** Field by field, a local edit wins and everything else follows the declaration (`local_overrides` of portable.rs). */
module PortableThreeWay {
  import opened Faults
  import opened PortableModel
  import opened PortableSync
  import opened PortableFixpoint

  // ---------------------------------------------------------------- what a three-way merge is

  /** Nobody edited it: the declared value. Edited since the last synchronisation: the local value. */
  predicate ThreeWay<T(==)>(declared: T, baseline: T, local: T, merged: T) {
    && (local == baseline ==> merged == declared)
    && (local != baseline ==> merged == local)
  }

  /** Native launches on all three sides merge by argument list and by single keys; others as a whole. */
  ghost predicate ThreeWayNative(
      declared: Option<Native>, baseline: Option<Native>, local: Option<Native>, merged: Option<Native>)
  {
    if declared.Some? && baseline.Some? && local.Some? then
      && merged.Some?
      && ThreeWay(declared.value.args, baseline.value.args, local.value.args, merged.value.args)
      && forall key: string ::
           ThreeWay(Lookup(declared.value.env, key), Lookup(baseline.value.env, key), Lookup(local.value.env, key),
                    Lookup(merged.value.env, key))
    else ThreeWay(declared, baseline, local, merged)
  }

  ghost predicate ThreeWayShell(declared: Shell, baseline: Shell, local: Shell, merged: Shell) {
    && ThreeWay(declared.executable, baseline.executable, local.executable, merged.executable)
    && ThreeWay(declared.login, baseline.login, local.login, merged.login)
    && ThreeWay(declared.initCwd, baseline.initCwd, local.initCwd, merged.initCwd)
    && ThreeWay(declared.sources, baseline.sources, local.sources, merged.sources)
    && ThreeWayNative(declared.native, baseline.native, local.native, merged.native)
  }

  /** The position holds the first terminal with this identity. */
  predicate FirstAt(terminals: seq<Terminal>, k: nat, id: Id) {
    k < |terminals| && terminals[k].id == id && forall i :: 0 <= i < k ==> terminals[i].id != id
  }

  /** A declared terminal merges with those of its identity on both other sides, and stays where one has none. */
  ghost predicate ThreeWayTerminal(declared: Terminal, baseline: seq<Terminal>, local: seq<Terminal>, merged: Terminal) {
    && merged.id == declared.id
    && ((forall t :: t in baseline ==> t.id != declared.id) || (forall t :: t in local ==> t.id != declared.id) ==>
          && merged.name == declared.name && merged.cwd == declared.cwd
          && merged.sources == declared.sources && merged.persistent == declared.persistent)
    && (forall j: nat, k: nat :: FirstAt(baseline, j, declared.id) && FirstAt(local, k, declared.id) ==>
          && ThreeWay(declared.name, baseline[j].name, local[k].name, merged.name)
          && ThreeWay(declared.cwd, baseline[j].cwd, local[k].cwd, merged.cwd)
          && ThreeWay(declared.sources, baseline[j].sources, local[k].sources, merged.sources)
          && ThreeWay(declared.persistent, baseline[j].persistent, local[k].persistent, merged.persistent))
  }

  ghost predicate ThreeWayTerminals(declared: seq<Terminal>, baseline: seq<Terminal>, local: seq<Terminal>, merged: seq<Terminal>)
    requires |declared| <= |merged|
  {
    forall i :: 0 <= i < |declared| ==> ThreeWayTerminal(declared[i], baseline, local, merged[i])
  }

  // ---------------------------------------------------------------- the merge of two projects

  lemma EnvironmentMerges(declared: map<string, string>, baseline: map<string, string>, local: map<string, string>, key: string)
    ensures ThreeWay(Lookup(declared, key), Lookup(baseline, key), Lookup(local, key),
                     Lookup(MergeEnvironment(declared, baseline, local), key))
  {
    MergeEnvironmentIsThreeWay(declared, baseline, local, key);
  }

  lemma NativeMerges(declared: Option<Native>, baseline: Option<Native>, local: Option<Native>)
    ensures ThreeWayNative(declared, baseline, local, MergeNative(declared, baseline, local))
  {
    if declared.Some? && baseline.Some? && local.Some? {
      forall key: string
        ensures ThreeWay(Lookup(declared.value.env, key), Lookup(baseline.value.env, key), Lookup(local.value.env, key),
                         Lookup(MergeEnvironment(declared.value.env, baseline.value.env, local.value.env), key))
      {
        EnvironmentMerges(declared.value.env, baseline.value.env, local.value.env, key);
      }
    }
  }

  lemma ShellMerges(declared: Shell, baseline: Shell, local: Shell)
    ensures ThreeWayShell(declared, baseline, local, MergeShell(declared, baseline, local))
  {
    NativeMerges(declared.native, baseline.native, local.native);
  }

  lemma {:induction false} FirstIsFound(terminals: seq<Terminal>, k: nat, id: Id)
    requires FirstAt(terminals, k, id)
    ensures FindTerminal(terminals, id) == Some(terminals[k])
  {
    if k > 0 {
      assert terminals[0].id != id;
      FirstIsFound(terminals[1..], k - 1, id);
    }
  }

  lemma TerminalMerges(declared: Terminal, baseline: seq<Terminal>, local: seq<Terminal>)
    ensures ThreeWayTerminal(declared, baseline, local, MergeTerminal(declared, baseline, local))
  {
    forall j: nat, k: nat | FirstAt(baseline, j, declared.id) && FirstAt(local, k, declared.id)
      ensures FindTerminal(baseline, declared.id) == Some(baseline[j]) && FindTerminal(local, declared.id) == Some(local[k])
    {
      FirstIsFound(baseline, j, declared.id);
      FirstIsFound(local, k, declared.id);
    }
  }

  /** Every field of the merged project is the three-way choice, and what cannot be edited locally is untouched. */
  lemma LocalEditsWin(declared: Project, local: Project, baseline: Project)
    ensures var merged := LocalOverrides(declared, local, baseline);
            && ThreeWay(declared.name, baseline.name, local.name, merged.name)
            && ThreeWay(declared.editor, baseline.editor, local.editor, merged.editor)
            && ThreeWayShell(declared.shell, baseline.shell, local.shell, merged.shell)
            && |merged.terminals| == |declared.terminals|
            && ThreeWayTerminals(declared.terminals, baseline.terminals, local.terminals, merged.terminals)
            && merged.id == declared.id && merged.root == declared.root && merged.repository == declared.repository
            && merged.defaultTerminal == declared.defaultTerminal && merged.tasks == declared.tasks
            && merged.shell.trusted == declared.shell.trusted
  {
    ShellMerges(declared.shell, baseline.shell, local.shell);
    forall i | 0 <= i < |declared.terminals|
      ensures ThreeWayTerminal(declared.terminals[i], baseline.terminals, local.terminals,
                               MergeTerminal(declared.terminals[i], baseline.terminals, local.terminals))
    {
      TerminalMerges(declared.terminals[i], baseline.terminals, local.terminals);
    }
  }

  // ---------------------------------------------------------------- the project that a synchronisation returns

  /** Apart from the approval of its start-up. */
  predicate SameShell(a: Shell, b: Shell) {
    && a.executable == b.executable && a.login == b.login && a.initCwd == b.initCwd
    && a.sources == b.sources && a.native == b.native
  }

  predicate SameTerminals(front: seq<Terminal>, all: seq<Terminal>) {
    && |front| <= |all|
    && forall i :: 0 <= i < |front| ==>
         && all[i].id == front[i].id && all[i].name == front[i].name && all[i].cwd == front[i].cwd
         && all[i].sources == front[i].sources && all[i].persistent == front[i].persistent
  }

  lemma TrustChangesNothingElse(t: Terminal, existing: seq<Terminal>)
    ensures TrustTerminal(t, existing) == t.(trusted := TrustTerminal(t, existing).trusted)
  {
  }

  /** Local definitions and approvals are added to the merged project; nothing else of it changes. */
  lemma CarryOverKeepsFields(project: Project, existing: Project, tasks: set<Id>, terminals: set<Id>)
    ensures var carried := CarryOver(project, existing, tasks, terminals);
            && carried.id == project.id && carried.name == project.name && carried.editor == project.editor
            && SameShell(carried.shell, project.shell)
            && SameTerminals(project.terminals, carried.terminals)
  {
    var all := project.terminals + LocalTerminals(existing.terminals, terminals, project.terminals);
    forall i | 0 <= i < |project.terminals| ensures TrustTerminal(all[i], existing.terminals).(trusted := None) == project.terminals[i].(trusted := None) {
      TrustChangesNothingElse(all[i], existing.terminals);
    }
    assert CarryOver(project, existing, tasks, terminals).terminals == TrustTerminals(all, existing.terminals);
    assert forall i :: 0 <= i < |project.terminals| ==> all[i] == project.terminals[i];
  }

  lemma SameTerminalsMerge(
      declared: seq<Terminal>, baseline: seq<Terminal>, local: seq<Terminal>, merged: seq<Terminal>, all: seq<Terminal>)
    requires |merged| == |declared| && ThreeWayTerminals(declared, baseline, local, merged) && SameTerminals(merged, all)
    ensures ThreeWayTerminals(declared, baseline, local, all)
  {
    forall i | 0 <= i < |declared| ensures ThreeWayTerminal(declared[i], baseline, local, all[i]) {
      assert ThreeWayTerminal(declared[i], baseline, local, merged[i]);
    }
  }

  /**
   The project that a synchronisation returns is the three-way merge of what is declared now, what was
   declared at the last one, and the local project; an editor is looked for only if that leaves none.
   */
  lemma SynchronisedIsThreeWay(
      env: Environment, d: Declaration, prefs: Preferences, issue: Fresh, local: Project, binding: Binding, r: Resolved)
    requires ResolveDeclared(env, d, prefs, issue, Some(local), Some(binding)) == Some(r)
    ensures DeclaredHere(env, d, prefs, issue, Some(local), Some(binding)).Some?
    ensures var declared := DeclaredHere(env, d, prefs, issue, Some(local), Some(binding)).value;
            var baseline := binding.resolved;
            var editor := if local.editor == baseline.editor then declared.editor else local.editor;
            && ThreeWay(declared.name, baseline.name, local.name, r.project.name)
            && ThreeWayShell(declared.shell, baseline.shell, local.shell, r.project.shell)
            && |declared.terminals| <= |r.project.terminals|
            && ThreeWayTerminals(declared.terminals, baseline.terminals, local.terminals, r.project.terminals)
            && r.project.editor == if editor.Some? then editor else env.discovered
  {
    ResolvedParts(env, d, prefs, issue, Some(local), Some(binding), r);
    var declared := DeclaredHere(env, d, prefs, issue, Some(local), Some(binding)).value;
    var merged := LocalOverrides(declared, local, binding.resolved);
    LocalEditsWin(declared, local, binding.resolved);
    CarryOverKeepsFields(merged, local, binding.taskIds.Values, binding.terminalIds.Values);
    ReconciledOver(declared, d, local, binding);
    SameTerminalsMerge(declared.terminals, binding.resolved.terminals, local.terminals, merged.terminals, r.project.terminals);
  }

  lemma ReconciledOver(declared: Project, d: Declaration, local: Project, binding: Binding)
    requires Reconciled(declared, d, Some(local), Some(binding)).Some?
    ensures Reconciled(declared, d, Some(local), Some(binding)).value
         == CarryOver(LocalOverrides(declared, local, binding.resolved), local, binding.taskIds.Values, binding.terminalIds.Values)
  {
  }

  /** A declaration that is new to a local project replaces the shell and the editor only where it names one. */
  lemma AdoptedKeepsUndeclared(
      env: Environment, d: Declaration, prefs: Preferences, issue: Fresh, local: Project, r: Resolved)
    requires ResolveDeclared(env, d, prefs, issue, Some(local), None) == Some(r)
    ensures DeclaredHere(env, d, prefs, issue, Some(local), None).Some?
    ensures var declared := DeclaredHere(env, d, prefs, issue, Some(local), None).value;
            var editor := if d.editor.Some? then declared.editor else local.editor;
            && r.project.name == declared.name
            && SameShell(r.project.shell, if d.shell.Some? then declared.shell else local.shell)
            && SameTerminals(declared.terminals, r.project.terminals)
            && r.project.editor == if editor.Some? then editor else env.discovered
  {
    ResolvedParts(env, d, prefs, issue, Some(local), None, r);
    var declared := DeclaredHere(env, d, prefs, issue, Some(local), None).value;
    CarryOverKeepsFields(Kept(declared, d, local), local, {}, {});
  }

  /** A declared task that was edited locally is in the result as edited: the synchronisation is refused otherwise. */
  lemma EditedTaskSurvives(
      env: Environment, d: Declaration, prefs: Preferences, issue: Fresh, local: Project, binding: Binding, r: Resolved,
      was: Task, mine: Task)
    requires ResolveDeclared(env, d, prefs, issue, Some(local), Some(binding)) == Some(r)
    requires was in binding.resolved.tasks && mine in local.tasks && mine.id == was.id && DistinctTasks(local.tasks)
    requires mine.(approved := None) != was.(approved := None)
    ensures exists t :: t in r.project.tasks && t.(approved := None) == mine.(approved := None)
  {
    ResolvedParts(env, d, prefs, issue, Some(local), Some(binding), r);
    var declared := DeclaredHere(env, d, prefs, issue, Some(local), Some(binding)).value;
    var merged := LocalOverrides(declared, local, binding.resolved);
    ReconciledOver(declared, d, local, binding);
    EditReachedDeclaration(merged, local, binding.resolved, was, mine);
    CarriedTasks(merged, local, binding.taskIds.Values, binding.terminalIds.Values, mine);
  }

  lemma EditReachedDeclaration(merged: Project, local: Project, baseline: Project, was: Task, mine: Task)
    requires EditsDeclared(merged, local, baseline) && DistinctTasks(local.tasks)
    requires was in baseline.tasks && mine in local.tasks && mine.id == was.id && SemanticTask(mine) != SemanticTask(was)
    ensures exists t :: t in merged.tasks && SemanticTask(t) == SemanticTask(mine)
  {
    var i :| 0 <= i < |local.tasks| && local.tasks[i] == mine;
    FindTaskAt(local.tasks, i);
    var k :| 0 <= k < |baseline.tasks| && baseline.tasks[k] == was;
    var j :| 0 <= j < |merged.tasks| && merged.tasks[j].id == mine.id && SemanticTask(merged.tasks[j]) == SemanticTask(mine);
    assert merged.tasks[j] in merged.tasks;
  }

  lemma CarriedTasks(merged: Project, local: Project, tasks: set<Id>, terminals: set<Id>, mine: Task)
    requires exists t :: t in merged.tasks && SemanticTask(t) == SemanticTask(mine)
    ensures exists t :: t in CarryOver(merged, local, tasks, terminals).tasks && SemanticTask(t) == SemanticTask(mine)
  {
    var t :| t in merged.tasks && SemanticTask(t) == SemanticTask(mine);
    var k :| 0 <= k < |merged.tasks| && merged.tasks[k] == t;
    var all := merged.tasks + LocalTasks(local.tasks, tasks, merged.tasks);
    var carried := ApproveTasks(all, local.tasks);
    assert CarryOver(merged, local, tasks, terminals).tasks == carried;
    assert carried[k] == ApproveTask(all[k], local.tasks) && all[k] == t;
    assert carried[k] in carried;
  }
}

/** Resolving a managed project again changes nothing, the editor aside. */
module PortableFixpoint {
  import opened Faults
  import opened PortableModel
  import opened PortableSync

  // ---------------------------------------------------------------- the first resolution

  function TaskIds(d: Declaration, issue: Fresh, previous: Option<Binding>): map<string, Id> {
    ExtendIds(Ids(previous).0, d.tasks, issue.task)
  }

  function TerminalIds(d: Declaration, issue: Fresh, previous: Option<Binding>): map<string, Id> {
    ExtendIds(Ids(previous).1, TerminalEntries(d), issue.terminal)
  }

  /** What the declaration alone gives in this resolution. */
  function DeclaredHere(
      env: Environment, d: Declaration, prefs: Preferences, issue: Fresh,
      existing: Option<Project>, previous: Option<Binding>): Option<Project>
  {
    Declared(env, d, prefs, existing, issue.project, TaskIds(d, issue, previous), TerminalIds(d, issue, previous))
  }

  lemma DeclaredParts(
      env: Environment, d: Declaration, prefs: Preferences, existing: Option<Project>, id: Id,
      taskIds: map<string, Id>, terminalIds: map<string, Id>, declared: Project)
    requires forall i :: 0 <= i < |d.tasks| ==> d.tasks[i].key in taskIds
    requires forall i :: 0 <= i < |TerminalEntries(d)| ==> TerminalEntries(d)[i].key in terminalIds
    requires Declared(env, d, prefs, existing, id, taskIds, terminalIds) == Some(declared)
    ensures DeclaredShell(env, d, prefs) == Some(declared.shell)
    ensures DeclaredTasks(env, declared.shell, taskIds, d.tasks, d.tasks) == Some(declared.tasks)
    ensures declared.terminals == DeclaredTerminals(env, declared.shell, terminalIds, TerminalEntries(d))
    ensures declared.shell.trusted == None
  {
    DeclaredShellIsUntrusted(env, d, prefs);
  }

  /** Each declared definition is managed and unapproved, and each new identity belongs to one. */
  predicate TasksManaged(tasks: seq<Task>, before: set<Id>, managed: set<Id>) {
    && (forall i :: 0 <= i < |tasks| ==> tasks[i].approved == None && tasks[i].id in managed)
    && (forall id :: id in managed ==> id in before || FindTask(tasks, id).Some?)
  }

  predicate TerminalsManaged(terminals: seq<Terminal>, before: set<Id>, managed: set<Id>) {
    && (forall i :: 0 <= i < |terminals| ==> terminals[i].trusted == None && terminals[i].id in managed)
    && (forall id :: id in managed ==> id in before || FindTerminal(terminals, id).Some?)
  }

  lemma DeclaredIsManaged(
      env: Environment, d: Declaration, prefs: Preferences, issue: Fresh,
      existing: Option<Project>, previous: Option<Binding>, declared: Project)
    requires DeclaredHere(env, d, prefs, issue, existing, previous) == Some(declared)
    ensures declared.shell.trusted == None
    ensures TasksManaged(declared.tasks, Ids(previous).0.Values, TaskIds(d, issue, previous).Values)
    ensures TerminalsManaged(declared.terminals, Ids(previous).1.Values, TerminalIds(d, issue, previous).Values)
  {
    DeclaredParts(env, d, prefs, existing, issue.project, TaskIds(d, issue, previous), TerminalIds(d, issue, previous), declared);
    ManagedTaskIds(env, declared.shell, d.tasks, Ids(previous).0, issue.task, declared.tasks);
    ManagedTerminalIds(env, declared.shell, TerminalEntries(d), Ids(previous).1, issue.terminal);
  }

  /** `merged` is the declared project after local edits of its fields. */
  lemma CarryOverFollows(
      declared: Project, merged: Project, existing: Project, beforeTasks: set<Id>, beforeTerminals: set<Id>,
      managedTasks: set<Id>, managedTerminals: set<Id>)
    requires merged.id == declared.id && merged.root == declared.root && merged.repository == declared.repository
    requires merged.defaultTerminal == declared.defaultTerminal && merged.tasks == declared.tasks
    requires declared.shell.trusted == None
    requires |merged.terminals| == |declared.terminals|
    requires forall i :: 0 <= i < |declared.terminals| ==> merged.terminals[i].id == declared.terminals[i].id
    requires TasksManaged(declared.tasks, beforeTasks, managedTasks)
    requires TerminalsManaged(declared.terminals, beforeTerminals, managedTerminals)
    ensures Follows(declared, CarryOver(merged, existing, beforeTasks, beforeTerminals), managedTasks, managedTerminals)
  {
    CarriedTasksFollow(declared.tasks, existing.tasks, beforeTasks, managedTasks);
    CarriedTerminalsFollow(declared.terminals, merged.terminals, existing.terminals, beforeTerminals, managedTerminals);
  }

  lemma UnchangedFollows(declared: Project, managedTasks: set<Id>, managedTerminals: set<Id>)
    requires declared.shell.trusted == None
    requires TasksManaged(declared.tasks, {}, managedTasks)
    requires TerminalsManaged(declared.terminals, {}, managedTerminals)
    ensures Follows(declared, declared, managedTasks, managedTerminals)
  {
    assert forall i :: 0 <= i < |declared.tasks| ==> SemanticTask(declared.tasks[i]) == declared.tasks[i];
  }

  /** Every reconciled project keeps the declared definitions first, and local ones after them. */
  lemma ReconciledFollows(
      d: Declaration, existing: Option<Project>, previous: Option<Binding>, declared: Project, reconciled: Project,
      managedTasks: set<Id>, managedTerminals: set<Id>)
    requires existing.None? ==> previous.None?
    requires declared.shell.trusted == None
    requires TasksManaged(declared.tasks, Ids(previous).0.Values, managedTasks)
    requires TerminalsManaged(declared.terminals, Ids(previous).1.Values, managedTerminals)
    requires Reconciled(declared, d, existing, previous) == Some(reconciled)
    ensures Follows(declared, reconciled, managedTasks, managedTerminals)
  {
    if existing.None? {
      assert Ids(previous).0.Values == {} && Ids(previous).1.Values == {};
      UnchangedFollows(declared, managedTasks, managedTerminals);
    } else if previous.Some? {
      CarryOverFollows(declared, LocalOverrides(declared, existing.value, previous.value.resolved), existing.value,
                       Ids(previous).0.Values, Ids(previous).1.Values, managedTasks, managedTerminals);
    } else {
      assert Ids(previous).0.Values == {} && Ids(previous).1.Values == {};
      CarryOverFollows(declared, Kept(declared, d, existing.value), existing.value, {}, {}, managedTasks, managedTerminals);
    }
  }

  // ---------------------------------------------------------------- the second resolution

  lemma FoundAmong(ts: seq<Terminal>, id: Id)
    ensures FindTerminal(ts, id).Some? <==> exists k :: 0 <= k < |ts| && ts[k].id == id
  {
  }

  lemma FoundAmongTasks(ts: seq<Task>, id: Id)
    ensures FindTask(ts, id).Some? <==> exists k :: 0 <= k < |ts| && ts[k].id == id
  {
  }

  /** The declared tasks with the local ones of the first result are the first result again. */
  lemma TasksSettle(declared: seq<Task>, result: seq<Task>, managed: set<Id>)
    requires TasksFollow(declared, result, managed) && DistinctTasks(result)
    ensures ApproveTasks(declared + LocalTasks(result, managed, declared), result) == result
  {
    var n := |declared|;
    forall i | 0 <= i < |result|
      ensures i < n ==> FindTask(declared, result[i].id).Some?
      ensures i >= n ==> FindTask(declared, result[i].id).None?
    {
      FoundAmongTasks(declared, result[i].id);
      assert forall k :: 0 <= k < n ==> result[k].id == declared[k].id;
    }
    LocalTasksSplit(result, n, managed, declared);
    var all := declared + result[n..];
    forall i | 0 <= i < |result|
      ensures ApproveTask(all[i], result) == result[i]
    {
      ApproveFromSelf(result, i, all[i]);
    }
    assert ApproveTasks(all, result) == result;
  }

  lemma TerminalsMergeBack(declared: seq<Terminal>, result: seq<Terminal>, managed: set<Id>)
    requires TerminalsFollow(declared, result, managed) && DistinctTerminals(result)
    ensures MergeTerminals(declared, declared, result) == seq(|declared|, i requires 0 <= i < |declared| => SemanticTerminal(result[i]))
  {
    assert forall i, j :: 0 <= i < j < |declared| ==> result[i].id != result[j].id;
    assert DistinctTerminals(declared);
    forall i | 0 <= i < |declared|
      ensures MergeTerminal(declared[i], declared, result) == SemanticTerminal(result[i])
    {
      FindTerminalAt(declared, i);
      FindTerminalAt(result, i);
    }
  }

  lemma FoundIffDeclared(merged: seq<Terminal>, result: seq<Terminal>, i: nat)
    requires |merged| <= |result| && i < |result| && DistinctTerminals(result)
    requires forall k :: 0 <= k < |merged| ==> merged[k].id == result[k].id
    ensures FindTerminal(merged, result[i].id).Some? <==> i < |merged|
  {
    FoundAmong(merged, result[i].id);
  }

  lemma TerminalsSettle(declared: seq<Terminal>, result: seq<Terminal>, managed: set<Id>)
    requires TerminalsFollow(declared, result, managed) && DistinctTerminals(result)
    ensures var merged := MergeTerminals(declared, declared, result);
      TrustTerminals(merged + LocalTerminals(result, managed, merged), result) == result
  {
    var n := |declared|;
    var merged := MergeTerminals(declared, declared, result);
    TerminalsMergeBack(declared, result, managed);
    forall i | 0 <= i < |result|
      ensures FindTerminal(merged, result[i].id).Some? <==> i < n
    {
      FoundIffDeclared(merged, result, i);
    }
    LocalTerminalsSplit(result, n, managed, merged);
    var all := merged + result[n..];
    forall i | 0 <= i < |result|
      ensures TrustTerminal(all[i], result) == result[i]
    {
      TrustFromSelf(result, i, all[i]);
    }
    assert TrustTerminals(all, result) == result;
  }

  /** Reconciling a result with its own declaration gives the result back; only the editor is merged anew. */
  lemma CarryOverSettles(declared: Project, baseline: Project, result: Project, managedTasks: set<Id>, managedTerminals: set<Id>)
    requires Follows(declared, result, managedTasks, managedTerminals)
    requires DistinctTasks(result.tasks) && DistinctTerminals(result.terminals)
    requires baseline == declared.(editor := baseline.editor)
    ensures CarryOver(LocalOverrides(declared, result, baseline), result, managedTasks, managedTerminals)
         == result.(editor := Merge(declared.editor, baseline.editor, result.editor))
  {
    MergeShellOverBaseline(declared.shell, result.shell);
    TasksSettle(declared.tasks, result.tasks, managedTasks);
    TerminalsSettle(declared.terminals, result.terminals, managedTerminals);
  }

  lemma NoEditIsLost(declared: Project, baseline: Project, result: Project, managedTasks: set<Id>)
    requires TasksFollow(declared.tasks, result.tasks, managedTasks) && DistinctTasks(result.tasks)
    requires baseline.tasks == declared.tasks
    ensures EditsDeclared(LocalOverrides(declared, result, baseline), result, baseline)
  {
    forall k | 0 <= k < |baseline.tasks|
      ensures FindTask(result.tasks, baseline.tasks[k].id) == Some(result.tasks[k])
    {
      FindTaskAt(result.tasks, k);
    }
  }

  lemma ExtendIdsAgain<V>(ids: map<string, Id>, entries: seq<Entry<V>>, issue: string -> Id)
    requires forall i :: 0 <= i < |entries| ==> entries[i].key in ids
    ensures ExtendIds(ids, entries, issue) == ids
  {
    var again := ExtendIds(ids, entries, issue);
    assert forall key :: key in again ==> key in ids;
    assert again.Keys == ids.Keys;
  }

  /** The editor that the next resolution chooses. */
  function NextEditor(env: Environment, declared: Project, baseline: Project, result: Project): Option<Editor> {
    var merged := Merge(declared.editor, baseline.editor, result.editor);
    if merged.None? then env.discovered else merged
  }

  lemma DeclaredAgain(
      env: Environment, d: Declaration, prefs: Preferences, existing: Option<Project>, next: Project, id: Id, later: Id,
      taskIds: map<string, Id>, terminalIds: map<string, Id>, declared: Project)
    requires forall i :: 0 <= i < |d.tasks| ==> d.tasks[i].key in taskIds
    requires forall i :: 0 <= i < |TerminalEntries(d)| ==> TerminalEntries(d)[i].key in terminalIds
    requires Declared(env, d, prefs, existing, id, taskIds, terminalIds) == Some(declared)
    requires next.id == declared.id && next.repository == declared.repository
    ensures Declared(env, d, prefs, Some(next), later, taskIds, terminalIds) == Some(declared)
  {
  }

  /** The parts of a successful resolution. */
  lemma ResolvedParts(
      env: Environment, d: Declaration, prefs: Preferences, issue: Fresh,
      existing: Option<Project>, previous: Option<Binding>, r: Resolved)
    requires ResolveDeclared(env, d, prefs, issue, existing, previous) == Some(r)
    ensures DeclaredHere(env, d, prefs, issue, existing, previous).Some?
    ensures var declared := DeclaredHere(env, d, prefs, issue, existing, previous).value;
      && Reconciled(declared, d, existing, previous).Some?
      && r.project == WithEditor(env, Reconciled(declared, d, existing, previous).value)
      && r.binding.Some?
      && r.binding.value.taskIds == TaskIds(d, issue, previous)
      && r.binding.value.terminalIds == TerminalIds(d, issue, previous)
      && r.binding.value.resolved == declared.(
           editor := if Reconciled(declared, d, existing, previous).value.editor.None? then env.discovered else declared.editor)
    ensures Valid(env, r.project)
  {
  }

  lemma FirstFollows(
      env: Environment, d: Declaration, prefs: Preferences, issue: Fresh,
      existing: Option<Project>, previous: Option<Binding>, first: Resolved, declared: Project)
    requires existing.None? ==> previous.None?
    requires ResolveDeclared(env, d, prefs, issue, existing, previous) == Some(first)
    requires DeclaredHere(env, d, prefs, issue, existing, previous) == Some(declared)
    ensures first.binding.Some?
    ensures Follows(declared, first.project, first.binding.value.taskIds.Values, first.binding.value.terminalIds.Values)
  {
    ResolvedParts(env, d, prefs, issue, existing, previous, first);
    DeclaredIsManaged(env, d, prefs, issue, existing, previous, declared);
    ReconciledFollows(d, existing, previous, declared, Reconciled(declared, d, existing, previous).value,
                      TaskIds(d, issue, previous).Values, TerminalIds(d, issue, previous).Values);
  }

  /** Reconciling the first result: nothing is refused, and only the editor is chosen anew. */
  lemma ReconciledAgain(declared: Project, d: Declaration, binding: Binding, p: Project)
    requires Follows(declared, p, binding.taskIds.Values, binding.terminalIds.Values)
    requires DistinctTasks(p.tasks) && DistinctTerminals(p.terminals)
    requires binding.resolved == declared.(editor := binding.resolved.editor)
    ensures Reconciled(declared, d, Some(p), Some(binding))
         == Some(p.(editor := Merge(declared.editor, binding.resolved.editor, p.editor)))
  {
    NoEditIsLost(declared, binding.resolved, p, binding.taskIds.Values);
    CarryOverSettles(declared, binding.resolved, p, binding.taskIds.Values, binding.terminalIds.Values);
  }

  /** A resolution over a known declared project and its reconciliation. */
  lemma ResolveFrom(
      env: Environment, d: Declaration, prefs: Preferences, issue: Fresh,
      existing: Option<Project>, previous: Option<Binding>, declared: Project, reconciled: Project)
    requires DeclaredHere(env, d, prefs, issue, existing, previous) == Some(declared)
    requires Reconciled(declared, d, existing, previous) == Some(reconciled)
    ensures var r := ResolveDeclared(env, d, prefs, issue, existing, previous);
      && (r.Some? <==> Valid(env, WithEditor(env, reconciled)))
      && (r.Some? ==>
            && r.value.project == WithEditor(env, reconciled)
            && r.value.binding == Some(Binding(TaskIds(d, issue, previous), TerminalIds(d, issue, previous),
                 if reconciled.editor.None? then declared.(editor := env.discovered) else declared)))
  {
  }

  /** The result of a further resolution, from the declared project, the last binding and the last result. */
  function Next(env: Environment, declared: Project, binding: Binding, p: Project): Resolved {
    var merged := Merge(declared.editor, binding.resolved.editor, p.editor);
    Resolved(WithEditor(env, p.(editor := merged)),
             Some(binding.(resolved := if merged.None? then declared.(editor := env.discovered) else declared)))
  }

  /** What the first resolution leaves for the next one to work on. */
  ghost predicate Managed(
      env: Environment, d: Declaration, prefs: Preferences, declared: Project, binding: Binding, p: Project)
  {
    && (forall i :: 0 <= i < |d.tasks| ==> d.tasks[i].key in binding.taskIds)
    && (forall i :: 0 <= i < |TerminalEntries(d)| ==> TerminalEntries(d)[i].key in binding.terminalIds)
    && (exists existing, id :: Declared(env, d, prefs, existing, id, binding.taskIds, binding.terminalIds) == Some(declared))
    && Follows(declared, p, binding.taskIds.Values, binding.terminalIds.Values)
    && DistinctTasks(p.tasks) && DistinctTerminals(p.terminals)
    && binding.resolved == declared.(editor := binding.resolved.editor)
  }

  lemma FirstIsManaged(
      env: Environment, d: Declaration, prefs: Preferences, issue: Fresh,
      existing: Option<Project>, previous: Option<Binding>, first: Resolved)
    requires existing.None? ==> previous.None?
    requires ResolveDeclared(env, d, prefs, issue, existing, previous) == Some(first)
    ensures first.binding.Some? && DeclaredHere(env, d, prefs, issue, existing, previous).Some?
    ensures Managed(env, d, prefs, DeclaredHere(env, d, prefs, issue, existing, previous).value, first.binding.value, first.project)
  {
    ResolvedParts(env, d, prefs, issue, existing, previous, first);
    FirstFollows(env, d, prefs, issue, existing, previous, first, DeclaredHere(env, d, prefs, issue, existing, previous).value);
  }

  /** A further resolution of a managed project: exactly its result, and what it leaves is managed again. */
  lemma ManagedStep(
      env: Environment, d: Declaration, prefs: Preferences, later: Fresh, declared: Project, binding: Binding, p: Project)
    requires Managed(env, d, prefs, declared, binding, p)
    ensures ResolveDeclared(env, d, prefs, later, Some(p), Some(binding))
         == if Valid(env, Next(env, declared, binding, p).project) then Some(Next(env, declared, binding, p)) else None
  {
    var existing, id :| Declared(env, d, prefs, existing, id, binding.taskIds, binding.terminalIds) == Some(declared);
    ExtendIdsAgain(binding.taskIds, d.tasks, later.task);
    ExtendIdsAgain(binding.terminalIds, TerminalEntries(d), later.terminal);
    DeclaredAgain(env, d, prefs, existing, p, id, later.project, binding.taskIds, binding.terminalIds, declared);
    ReconciledAgain(declared, d, binding, p);
    ResolveFrom(env, d, prefs, later, Some(p), Some(binding), declared,
                p.(editor := Merge(declared.editor, binding.resolved.editor, p.editor)));
  }

  lemma NextIsManaged(
      env: Environment, d: Declaration, prefs: Preferences, declared: Project, binding: Binding, p: Project)
    requires Managed(env, d, prefs, declared, binding, p)
    ensures Managed(env, d, prefs, declared, Next(env, declared, binding, p).binding.value, Next(env, declared, binding, p).project)
  {
  }

  /**
   Resolving, applying and resolving again with unchanged inputs: the same identities for the same keys
   and the same project, whatever fresh identities are on offer, apart from the editor. The second
   resolution can only fail where its editor makes the project invalid.
   */
  lemma ResolvingAgain(
      env: Environment, d: Declaration, prefs: Preferences, issue: Fresh, later: Fresh,
      existing: Option<Project>, previous: Option<Binding>, first: Resolved)
    requires existing.None? ==> previous.None?
    requires ResolveDeclared(env, d, prefs, issue, existing, previous) == Some(first)
    ensures first.binding.Some? && DeclaredHere(env, d, prefs, issue, existing, previous).Some?
    ensures var declared := DeclaredHere(env, d, prefs, issue, existing, previous).value;
      var editor := NextEditor(env, declared, first.binding.value.resolved, first.project);
      var second := ResolveDeclared(env, d, prefs, later, Some(first.project), first.binding);
      && (second.Some? <==> Valid(env, first.project.(editor := editor)))
      && (second.Some? ==>
            && second.value.project == first.project.(editor := editor)
            && second.value.binding.Some?
            && second.value.binding.value.taskIds == first.binding.value.taskIds
            && second.value.binding.value.terminalIds == first.binding.value.terminalIds)
  {
    FirstIsManaged(env, d, prefs, issue, existing, previous, first);
    var declared := DeclaredHere(env, d, prefs, issue, existing, previous).value;
    ManagedStep(env, d, prefs, later, declared, first.binding.value, first.project);
  }

  /** The project comes without an editor: it was removed after a synchronisation, or a new declaration names none. */
  predicate ComesWithoutEditor(d: Declaration, existing: Option<Project>, previous: Option<Binding>) {
    && existing.Some? && existing.value.editor.None?
    && if previous.Some? then previous.value.resolved.editor.Some? else d.editor.None?
  }

  /**
   The exact exception: the second resolution changes the editor when, and only when, the project comes
   without one although the declaration or the preferences name one, other than the discovered one.
   */
  lemma EditorSettlesUnless(
      env: Environment, d: Declaration, prefs: Preferences, issue: Fresh,
      existing: Option<Project>, previous: Option<Binding>, first: Resolved)
    requires existing.None? ==> previous.None?
    requires ResolveDeclared(env, d, prefs, issue, existing, previous) == Some(first)
    ensures var declared := DeclaredHere(env, d, prefs, issue, existing, previous).value;
      && DeclaredEditor(env, d, prefs) == Some(declared.editor)
      && (NextEditor(env, declared, first.binding.value.resolved, first.project) == first.project.editor
          <==> !(ComesWithoutEditor(d, existing, previous) && declared.editor.Some? && declared.editor != env.discovered))
  {
    MergedEditor(DeclaredHere(env, d, prefs, issue, existing, previous).value, d, existing, previous);
  }

  lemma MergedEditor(declared: Project, d: Declaration, existing: Option<Project>, previous: Option<Binding>)
    requires existing.None? ==> previous.None?
    requires Reconciled(declared, d, existing, previous).Some?
    ensures Reconciled(declared, d, existing, previous).value.editor.None? && declared.editor.Some?
       <==> ComesWithoutEditor(d, existing, previous) && declared.editor.Some?
  {
  }

  /** Two further resolutions choose the same editor. */
  lemma NextSettles(env: Environment, declared: Project, binding: Binding, p: Project, first: Option<Editor>)
    requires p.editor == if first.None? then env.discovered else first
    requires binding.resolved == declared.(editor := if first.None? then env.discovered else declared.editor)
    ensures var second := Next(env, declared, binding, p);
      Next(env, declared, second.binding.value, second.project) == second
  {
  }

  /** The second resolution is a fixed point, editor included. */
  lemma SecondResolutionSettles(
      env: Environment, d: Declaration, prefs: Preferences, issue: Fresh, later: Fresh, last: Fresh,
      existing: Option<Project>, previous: Option<Binding>, first: Resolved, second: Resolved)
    requires existing.None? ==> previous.None?
    requires ResolveDeclared(env, d, prefs, issue, existing, previous) == Some(first)
    requires ResolveDeclared(env, d, prefs, later, Some(first.project), first.binding) == Some(second)
    ensures ResolveDeclared(env, d, prefs, last, Some(second.project), second.binding) == Some(second)
  {
    FirstIsManaged(env, d, prefs, issue, existing, previous, first);
    ResolvedParts(env, d, prefs, issue, existing, previous, first);
    var declared := DeclaredHere(env, d, prefs, issue, existing, previous).value;
    var reconciled := Reconciled(declared, d, existing, previous).value;
    var binding := first.binding.value;
    ManagedStep(env, d, prefs, later, declared, binding, first.project);
    NextIsManaged(env, d, prefs, declared, binding, first.project);
    ManagedStep(env, d, prefs, last, declared, second.binding.value, second.project);
    NextSettles(env, declared, binding, first.project, reconciled.editor);
  }
}

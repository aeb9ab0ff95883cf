/** What a resolution keeps of the workspace: approvals, local definitions, identities; and how it is applied. */
module PortableKeeps {
  import opened Faults
  import opened PortableModel
  import opened PortableSync
  import opened PortableFixpoint

  // ---------------------------------------------------------------- approvals

  lemma ApprovedTasks(declared: seq<Task>, existing: seq<Task>, managed: set<Id>, t: Task)
    requires forall i :: 0 <= i < |declared| ==> declared[i].approved == None
    requires t in ApproveTasks(declared + LocalTasks(existing, managed, declared), existing) && t.approved.Some?
    ensures exists o :: o in existing && o.id == t.id && SemanticTask(o) == SemanticTask(t) && o.approved == t.approved
  {
    var local := LocalTasks(existing, managed, declared);
    LocalTasksAre(existing, managed, declared);
    var all := declared + local;
    var i :| 0 <= i < |all| && t == ApproveTask(all[i], existing);
    var same := SameTask(existing, all[i]);
    if i >= |declared| {
      assert all[i] == local[i - |declared|] && all[i] in existing;
    }
    assert same.Some?;
    assert same.value in existing && same.value.approved == t.approved && SemanticTask(same.value) == SemanticTask(t);
  }

  lemma TrustedTerminals(merged: seq<Terminal>, existing: seq<Terminal>, managed: set<Id>, t: Terminal)
    requires forall i :: 0 <= i < |merged| ==> merged[i].trusted == None
    requires t in TrustTerminals(merged + LocalTerminals(existing, managed, merged), existing) && t.trusted.Some?
    ensures exists o :: o in existing && o.id == t.id && SemanticTerminal(o) == SemanticTerminal(t) && o.trusted == t.trusted
  {
    var local := LocalTerminals(existing, managed, merged);
    LocalTerminalsAre(existing, managed, merged);
    var all := merged + local;
    var i :| 0 <= i < |all| && t == TrustTerminal(all[i], existing);
    var same := SameTerminal(existing, all[i]);
    if i >= |merged| {
      assert all[i] == local[i - |merged|] && all[i] in existing;
    }
    assert same.Some?;
    assert same.value in existing && same.value.trusted == t.trusted && SemanticTerminal(same.value) == SemanticTerminal(t);
  }

  /** The project that approvals and local definitions are carried over to. */
  function Merged(declared: Project, d: Declaration, e: Project, previous: Option<Binding>): Project {
    if previous.Some? then LocalOverrides(declared, e, previous.value.resolved) else Kept(declared, d, e)
  }

  lemma ReconciledIsCarried(declared: Project, d: Declaration, e: Project, previous: Option<Binding>, reconciled: Project)
    requires Reconciled(declared, d, Some(e), previous) == Some(reconciled)
    ensures reconciled == CarryOver(Merged(declared, d, e, previous), e, Ids(previous).0.Values, Ids(previous).1.Values)
  {
    if previous.None? {
      assert Ids(previous).0.Values == {} && Ids(previous).1.Values == {};
    }
  }

  /** An approval of the result was given to a definition that nobody changed since. */
  lemma ApprovalsFollowDefinitions(
      env: Environment, d: Declaration, prefs: Preferences, issue: Fresh, e: Project, previous: Option<Binding>, r: Resolved)
    requires ResolveDeclared(env, d, prefs, issue, Some(e), previous) == Some(r)
    ensures forall t :: t in r.project.tasks && t.approved.Some? ==>
      exists o :: o in e.tasks && o.id == t.id && SemanticTask(o) == SemanticTask(t) && o.approved == t.approved
    ensures forall t :: t in r.project.terminals && t.trusted.Some? ==>
      exists o :: o in e.terminals && o.id == t.id && SemanticTerminal(o) == SemanticTerminal(t) && o.trusted == t.trusted
    ensures r.project.shell.trusted.Some? ==> r.project.shell == e.shell
  {
    ResolvedParts(env, d, prefs, issue, Some(e), previous, r);
    var declared := DeclaredHere(env, d, prefs, issue, Some(e), previous).value;
    DeclaredIsManaged(env, d, prefs, issue, Some(e), previous, declared);
    ReconciledIsCarried(declared, d, e, previous, Reconciled(declared, d, Some(e), previous).value);
    var merged := Merged(declared, d, e, previous);
    CarriedApprovals(declared, merged, e, Ids(previous).0.Values, Ids(previous).1.Values);
    CarriedShellTrust(declared, d, e, previous);
  }

  lemma CarriedApprovals(declared: Project, merged: Project, e: Project, managedTasks: set<Id>, managedTerminals: set<Id>)
    requires merged.tasks == declared.tasks && |merged.terminals| == |declared.terminals|
    requires forall i :: 0 <= i < |declared.tasks| ==> declared.tasks[i].approved == None
    requires forall i :: 0 <= i < |merged.terminals| ==> merged.terminals[i].trusted == None
    ensures var p := CarryOver(merged, e, managedTasks, managedTerminals);
      && (forall t :: t in p.tasks && t.approved.Some? ==>
            exists o :: o in e.tasks && o.id == t.id && SemanticTask(o) == SemanticTask(t) && o.approved == t.approved)
      && (forall t :: t in p.terminals && t.trusted.Some? ==>
            exists o :: o in e.terminals && o.id == t.id && SemanticTerminal(o) == SemanticTerminal(t) && o.trusted == t.trusted)
  {
    var p := CarryOver(merged, e, managedTasks, managedTerminals);
    forall t | t in p.tasks && t.approved.Some?
      ensures exists o :: o in e.tasks && o.id == t.id && SemanticTask(o) == SemanticTask(t) && o.approved == t.approved
    {
      ApprovedTasks(declared.tasks, e.tasks, managedTasks, t);
    }
    forall t | t in p.terminals && t.trusted.Some?
      ensures exists o :: o in e.terminals && o.id == t.id && SemanticTerminal(o) == SemanticTerminal(t) && o.trusted == t.trusted
    {
      TrustedTerminals(merged.terminals, e.terminals, managedTerminals, t);
    }
  }

  lemma CarriedShellTrust(declared: Project, d: Declaration, e: Project, previous: Option<Binding>)
    requires declared.shell.trusted == None
    ensures var p := CarryOver(Merged(declared, d, e, previous), e, Ids(previous).0.Values, Ids(previous).1.Values);
      p.shell.trusted.Some? ==> p.shell == e.shell
  {
    var shell := Merged(declared, d, e, previous).shell;
    if SemanticShell(shell) == SemanticShell(e.shell) {
      assert shell.(trusted := e.shell.trusted) == SemanticShell(shell).(trusted := e.shell.trusted)
          == SemanticShell(e.shell).(trusted := e.shell.trusted) == e.shell;
    }
  }

  // ---------------------------------------------------------------- local definitions

  lemma LocalTaskCarried(declared: seq<Task>, existing: seq<Task>, managed: set<Id>, i: nat)
    requires i < |existing| && DistinctTasks(existing)
    requires existing[i].id !in managed && FindTask(declared, existing[i].id).None?
    ensures existing[i] in ApproveTasks(declared + LocalTasks(existing, managed, declared), existing)
  {
    var local := LocalTasks(existing, managed, declared);
    LocalTasksAre(existing, managed, declared);
    var k :| 0 <= k < |local| && local[k] == existing[i];
    var all := declared + local;
    assert all[|declared| + k] == existing[i];
    ApproveFromSelf(existing, i, existing[i]);
    assert ApproveTasks(all, existing)[|declared| + k] == existing[i];
  }

  lemma LocalTerminalCarried(merged: seq<Terminal>, existing: seq<Terminal>, managed: set<Id>, i: nat)
    requires i < |existing| && DistinctTerminals(existing)
    requires existing[i].id !in managed && FindTerminal(merged, existing[i].id).None?
    ensures existing[i] in TrustTerminals(merged + LocalTerminals(existing, managed, merged), existing)
  {
    var local := LocalTerminals(existing, managed, merged);
    LocalTerminalsAre(existing, managed, merged);
    var k :| 0 <= k < |local| && local[k] == existing[i];
    var all := merged + local;
    assert all[|merged| + k] == existing[i];
    TrustFromSelf(existing, i, existing[i]);
    assert TrustTerminals(all, existing)[|merged| + k] == existing[i];
  }

  /** An identity outside the binding and outside the fresh ones is not a declared one. */
  lemma NotAmongDeclared(
      env: Environment, d: Declaration, prefs: Preferences, issue: Fresh, existing: Option<Project>,
      previous: Option<Binding>, declared: Project, id: Id)
    requires DeclaredHere(env, d, prefs, issue, existing, previous) == Some(declared)
    ensures id !in Ids(previous).0.Values && (forall key :: issue.task(key) != id) ==> FindTask(declared.tasks, id).None?
    ensures id !in Ids(previous).1.Values && (forall key :: issue.terminal(key) != id) ==> FindTerminal(declared.terminals, id).None?
  {
    DeclaredIsManaged(env, d, prefs, issue, existing, previous, declared);
    ExtendedValues(Ids(previous).0, d.tasks, issue.task, id);
    ExtendedValues(Ids(previous).1, TerminalEntries(d), issue.terminal, id);
    AbsentDefinitions(declared.tasks, declared.terminals, Ids(previous).0.Values, TaskIds(d, issue, previous).Values,
                      Ids(previous).1.Values, TerminalIds(d, issue, previous).Values, id);
  }

  lemma AbsentDefinitions(
      tasks: seq<Task>, terminals: seq<Terminal>, beforeTasks: set<Id>, managedTasks: set<Id>,
      beforeTerminals: set<Id>, managedTerminals: set<Id>, id: Id)
    requires TasksManaged(tasks, beforeTasks, managedTasks) && TerminalsManaged(terminals, beforeTerminals, managedTerminals)
    ensures id !in managedTasks ==> FindTask(tasks, id).None?
    ensures id !in managedTerminals ==> FindTerminal(terminals, id).None?
  {
  }

  lemma ExtendedValues<V>(ids: map<string, Id>, entries: seq<Entry<V>>, issue: string -> Id, id: Id)
    ensures id !in ids.Values && (forall key :: issue(key) != id) ==> id !in ExtendIds(ids, entries, issue).Values
  {
    assert forall key :: key in ids ==> ids[key] in ids.Values;
  }

  /** A local task that no declaration ever owned comes through unchanged, approval included. */
  lemma LocalTaskSurvives(
      env: Environment, d: Declaration, prefs: Preferences, issue: Fresh, e: Project, previous: Option<Binding>, r: Resolved, i: nat)
    requires ResolveDeclared(env, d, prefs, issue, Some(e), previous) == Some(r)
    requires i < |e.tasks| && DistinctTasks(e.tasks)
    requires e.tasks[i].id !in Ids(previous).0.Values && forall key :: issue.task(key) != e.tasks[i].id
    ensures e.tasks[i] in r.project.tasks
  {
    ResolvedParts(env, d, prefs, issue, Some(e), previous, r);
    var declared := DeclaredHere(env, d, prefs, issue, Some(e), previous).value;
    ReconciledIsCarried(declared, d, e, previous, Reconciled(declared, d, Some(e), previous).value);
    NotAmongDeclared(env, d, prefs, issue, Some(e), previous, declared, e.tasks[i].id);
    assert Merged(declared, d, e, previous).tasks == declared.tasks;
    LocalTaskCarried(declared.tasks, e.tasks, Ids(previous).0.Values, i);
  }

  /** So does a local terminal, its trust included. */
  lemma LocalTerminalSurvives(
      env: Environment, d: Declaration, prefs: Preferences, issue: Fresh, e: Project, previous: Option<Binding>, r: Resolved, i: nat)
    requires ResolveDeclared(env, d, prefs, issue, Some(e), previous) == Some(r)
    requires i < |e.terminals| && DistinctTerminals(e.terminals)
    requires e.terminals[i].id !in Ids(previous).1.Values && forall key :: issue.terminal(key) != e.terminals[i].id
    ensures e.terminals[i] in r.project.terminals
  {
    ResolvedParts(env, d, prefs, issue, Some(e), previous, r);
    var declared := DeclaredHere(env, d, prefs, issue, Some(e), previous).value;
    ReconciledIsCarried(declared, d, e, previous, Reconciled(declared, d, Some(e), previous).value);
    NotAmongDeclared(env, d, prefs, issue, Some(e), previous, declared, e.terminals[i].id);
    var merged := Merged(declared, d, e, previous).terminals;
    SameIdsSameFinds(declared.terminals, merged, e.terminals[i].id);
    LocalTerminalCarried(merged, e.terminals, Ids(previous).1.Values, i);
  }

  // ---------------------------------------------------------------- identities over a history

  /** One synchronisation: its inputs, and the project as the user left it. */
  datatype Sync = Sync(env: Environment, d: Declaration, prefs: Preferences, issue: Fresh, local: Project)

  /** The binding after a history of synchronisations, a refused one leaving the binding as it is. */
  function BindingAfter(history: seq<Sync>, binding: Binding): Binding {
    if history == [] then binding
    else
      var s := history[0];
      var r := ResolveDeclared(s.env, s.d, s.prefs, s.issue, Some(s.local), Some(binding));
      BindingAfter(history[1..], if r.Some? && r.value.binding.Some? then r.value.binding.value else binding)
  }

  /** A key keeps its identity for ever, through edits, refusals and declarations that drop it for a while. */
  lemma {:induction false} KeysKeepIdentities(history: seq<Sync>, binding: Binding)
    ensures forall key :: key in binding.taskIds ==>
      key in BindingAfter(history, binding).taskIds && BindingAfter(history, binding).taskIds[key] == binding.taskIds[key]
    ensures forall key :: key in binding.terminalIds ==>
      key in BindingAfter(history, binding).terminalIds && BindingAfter(history, binding).terminalIds[key] == binding.terminalIds[key]
  {
    if history != [] {
      var s := history[0];
      var r := ResolveDeclared(s.env, s.d, s.prefs, s.issue, Some(s.local), Some(binding));
      if r.Some? {
        ResolvedParts(s.env, s.d, s.prefs, s.issue, Some(s.local), Some(binding), r.value);
        KeysKeepIdentities(history[1..], r.value.binding.value);
      } else {
        KeysKeepIdentities(history[1..], binding);
      }
    }
  }

  /** Every declared key has its definition in the result, under the identity the binding records. */
  lemma DeclaredKeysArePresent(
      env: Environment, d: Declaration, prefs: Preferences, issue: Fresh,
      existing: Option<Project>, previous: Option<Binding>, r: Resolved)
    requires existing.None? ==> previous.None?
    requires ResolveDeclared(env, d, prefs, issue, existing, previous) == Some(r)
    ensures r.binding.Some?
    ensures |d.tasks| <= |r.project.tasks| && forall i :: 0 <= i < |d.tasks| ==>
      d.tasks[i].key in r.binding.value.taskIds && r.project.tasks[i].id == r.binding.value.taskIds[d.tasks[i].key]
    ensures var entries := TerminalEntries(d);
      |entries| <= |r.project.terminals| && forall i :: 0 <= i < |entries| ==>
        entries[i].key in r.binding.value.terminalIds && r.project.terminals[i].id == r.binding.value.terminalIds[entries[i].key]
  {
    ResolvedParts(env, d, prefs, issue, existing, previous, r);
    var declared := DeclaredHere(env, d, prefs, issue, existing, previous).value;
    FirstFollows(env, d, prefs, issue, existing, previous, r, declared);
    DeclaredParts(env, d, prefs, existing, issue.project, TaskIds(d, issue, previous), TerminalIds(d, issue, previous), declared);
    TasksAreAtKeys(env, declared.shell, TaskIds(d, issue, previous), d.tasks, declared.tasks, r.project.tasks, r.binding.value.taskIds.Values);
    TerminalsAreAtKeys(env, declared.shell, TerminalIds(d, issue, previous), TerminalEntries(d), r.project.terminals, r.binding.value.terminalIds.Values);
  }

  lemma TasksAreAtKeys(
      env: Environment, shell: Shell, ids: map<string, Id>, entries: seq<Entry<TaskDeclaration>>,
      declared: seq<Task>, result: seq<Task>, managed: set<Id>)
    requires forall i :: 0 <= i < |entries| ==> entries[i].key in ids
    requires DeclaredTasks(env, shell, ids, entries, entries) == Some(declared) && TasksFollow(declared, result, managed)
    ensures |entries| <= |result| && forall i :: 0 <= i < |entries| ==> result[i].id == ids[entries[i].key]
  {
    forall i | 0 <= i < |entries|
      ensures result[i].id == ids[entries[i].key]
    {
      assert DeclaredTask(env, shell, ids, entries, entries[i].key, entries[i].value) == Some(declared[i]);
      assert SemanticTask(result[i]) == declared[i];
    }
  }

  lemma TerminalsAreAtKeys(
      env: Environment, shell: Shell, ids: map<string, Id>, entries: seq<Entry<TerminalDeclaration>>,
      result: seq<Terminal>, managed: set<Id>)
    requires forall i :: 0 <= i < |entries| ==> entries[i].key in ids
    requires TerminalsFollow(DeclaredTerminals(env, shell, ids, entries), result, managed)
    ensures |entries| <= |result| && forall i :: 0 <= i < |entries| ==> result[i].id == ids[entries[i].key]
  {
  }
}

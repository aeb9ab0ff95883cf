/** Synchronising a workspace with a declaration: local edits, identities, approvals, and a fixed point. */
module PortableSync {
  import opened Faults
  import opened PortableModel

  // ---------------------------------------------------------------- the three-way merge

  /** Key by key, the merged environment is the three-way choice, absence included. */
  lemma MergeEnvironmentIsThreeWay(declared: map<string, string>, baseline: map<string, string>, local: map<string, string>, key: string)
    ensures Lookup(MergeEnvironment(declared, baseline, local), key)
         == Merge(Lookup(declared, key), Lookup(baseline, key), Lookup(local, key))
  {
    if key in local {
      assert Lookup(local, key) == Some(local[key]);
    } else {
      assert Lookup(local, key) == None;
    }
  }

  /** Against an unchanged declaration the merge gives back the local environment. */
  lemma MergeEnvironmentOverBaseline(baseline: map<string, string>, local: map<string, string>)
    ensures MergeEnvironment(baseline, baseline, local) == local
  {
    var merged := MergeEnvironment(baseline, baseline, local);
    forall key: string
      ensures Lookup(merged, key) == Lookup(local, key)
    {
      MergeEnvironmentIsThreeWay(baseline, baseline, local, key);
    }
    assert forall key :: key in merged <==> Lookup(merged, key).Some?;
    assert forall key :: key in local <==> Lookup(local, key).Some?;
    assert merged.Keys == local.Keys;
    forall key | key in merged
      ensures merged[key] == local[key]
    {
      assert Lookup(merged, key) == Lookup(local, key);
    }
  }

  lemma MergeShellOverBaseline(baseline: Shell, local: Shell)
    ensures MergeShell(baseline, baseline, local) == local.(trusted := baseline.trusted)
  {
    if local.native.Some? && baseline.native.Some? {
      MergeEnvironmentOverBaseline(baseline.native.value.env, local.native.value.env);
    }
  }

  // ---------------------------------------------------------------- definitions found by identity

  lemma {:induction false} FindTerminalAt(ts: seq<Terminal>, i: nat)
    requires i < |ts| && DistinctTerminals(ts)
    ensures FindTerminal(ts, ts[i].id) == Some(ts[i])
  {
    if i > 0 {
      assert ts[0].id != ts[i].id;
      assert DistinctTerminals(ts[1..]);
      FindTerminalAt(ts[1..], i - 1);
    }
  }

  lemma {:induction false} FindTaskAt(ts: seq<Task>, i: nat)
    requires i < |ts| && DistinctTasks(ts)
    ensures FindTask(ts, ts[i].id) == Some(ts[i])
  {
    if i > 0 {
      assert ts[0].id != ts[i].id;
      assert DistinctTasks(ts[1..]);
      FindTaskAt(ts[1..], i - 1);
    }
  }

  /** Only the definition with its identity can hand an approval over. */
  lemma ApproveFromSelf(ts: seq<Task>, i: nat, t: Task)
    requires i < |ts| && DistinctTasks(ts) && t.id == ts[i].id && SemanticTask(t) == SemanticTask(ts[i])
    ensures ApproveTask(t, ts) == ts[i]
  {
    var same := SameTask(ts, t);
    assert ts[i] in ts;
    if same.Some? {
      var j :| 0 <= j < |ts| && ts[j] == same.value;
      assert j == i;
      assert t.(approved := ts[i].approved) == SemanticTask(t).(approved := ts[i].approved) == ts[i];
    }
  }

  lemma TrustFromSelf(ts: seq<Terminal>, i: nat, t: Terminal)
    requires i < |ts| && DistinctTerminals(ts) && t.id == ts[i].id && SemanticTerminal(t) == SemanticTerminal(ts[i])
    ensures TrustTerminal(t, ts) == ts[i]
  {
    var same := SameTerminal(ts, t);
    assert ts[i] in ts;
    if same.Some? {
      var j :| 0 <= j < |ts| && ts[j] == same.value;
      assert j == i;
      assert t.(trusted := ts[i].trusted) == SemanticTerminal(t).(trusted := ts[i].trusted) == ts[i];
    }
  }

  // ---------------------------------------------------------------- local definitions

  lemma {:induction false} LocalTasksAre(ts: seq<Task>, managed: set<Id>, declared: seq<Task>)
    ensures forall t :: t in LocalTasks(ts, managed, declared) <==>
      t in ts && t.id !in managed && FindTask(declared, t.id).None?
  {
    if ts != [] {
      LocalTasksAre(ts[1..], managed, declared);
      assert ts == [ts[0]] + ts[1..];
    }
  }

  lemma {:induction false} LocalTerminalsAre(ts: seq<Terminal>, managed: set<Id>, declared: seq<Terminal>)
    ensures forall t :: t in LocalTerminals(ts, managed, declared) <==>
      t in ts && t.id !in managed && FindTerminal(declared, t.id).None?
  {
    if ts != [] {
      LocalTerminalsAre(ts[1..], managed, declared);
      assert ts == [ts[0]] + ts[1..];
    }
  }

  /** Of a list whose first `n` definitions are declared and whose others are not, the others are local. */
  lemma {:induction false} LocalTasksSplit(ts: seq<Task>, n: nat, managed: set<Id>, declared: seq<Task>)
    requires n <= |ts|
    requires forall i :: 0 <= i < n ==> FindTask(declared, ts[i].id).Some?
    requires forall i :: n <= i < |ts| ==> ts[i].id !in managed && FindTask(declared, ts[i].id).None?
    ensures LocalTasks(ts, managed, declared) == ts[n..]
  {
    if ts != [] {
      var rest := ts[1..];
      var m := if n == 0 then 0 else n - 1;
      assert forall i :: 0 <= i < |rest| ==> rest[i] == ts[i + 1];
      LocalTasksSplit(rest, m, managed, declared);
      if n == 0 {
        assert FindTask(declared, ts[0].id).None?;
        assert [ts[0]] + rest == ts;
      } else {
        assert FindTask(declared, ts[0].id).Some?;
        assert rest[m..] == ts[n..];
      }
    }
  }

  lemma {:induction false} LocalTerminalsSplit(ts: seq<Terminal>, n: nat, managed: set<Id>, declared: seq<Terminal>)
    requires n <= |ts|
    requires forall i :: 0 <= i < n ==> FindTerminal(declared, ts[i].id).Some?
    requires forall i :: n <= i < |ts| ==> ts[i].id !in managed && FindTerminal(declared, ts[i].id).None?
    ensures LocalTerminals(ts, managed, declared) == ts[n..]
  {
    if ts != [] {
      var rest := ts[1..];
      var m := if n == 0 then 0 else n - 1;
      assert forall i :: 0 <= i < |rest| ==> rest[i] == ts[i + 1];
      LocalTerminalsSplit(rest, m, managed, declared);
      if n == 0 {
        assert FindTerminal(declared, ts[0].id).None?;
        assert [ts[0]] + rest == ts;
      } else {
        assert FindTerminal(declared, ts[0].id).Some?;
        assert rest[m..] == ts[n..];
      }
    }
  }

  // ---------------------------------------------------------------- what a reconciled project looks like

  predicate TasksFollow(declared: seq<Task>, result: seq<Task>, managed: set<Id>) {
    && |declared| <= |result|
    && (forall i :: 0 <= i < |declared| ==>
          declared[i].approved == None && SemanticTask(result[i]) == declared[i] && declared[i].id in managed)
    && (forall i :: |declared| <= i < |result| ==> result[i].id !in managed)
  }

  predicate TerminalsFollow(declared: seq<Terminal>, result: seq<Terminal>, managed: set<Id>) {
    && |declared| <= |result|
    && (forall i :: 0 <= i < |declared| ==>
          declared[i].trusted == None && result[i].id == declared[i].id && declared[i].id in managed)
    && (forall i :: |declared| <= i < |result| ==> result[i].id !in managed)
  }

  predicate Follows(declared: Project, result: Project, managedTasks: set<Id>, managedTerminals: set<Id>) {
    && result.id == declared.id && result.root == declared.root && result.repository == declared.repository
    && declared.shell.trusted == None
    && TasksFollow(declared.tasks, result.tasks, managedTasks)
    && TerminalsFollow(declared.terminals, result.terminals, managedTerminals)
    && (result.defaultTerminal == declared.defaultTerminal || PersistentIn(result.terminals, result.defaultTerminal))
  }

  lemma CarriedTasksFollow(declared: seq<Task>, existing: seq<Task>, before: set<Id>, managed: set<Id>)
    requires forall i :: 0 <= i < |declared| ==> declared[i].approved == None && declared[i].id in managed
    requires forall id :: id in managed ==> id in before || FindTask(declared, id).Some?
    ensures TasksFollow(declared, ApproveTasks(declared + LocalTasks(existing, before, declared), existing), managed)
  {
    var local := LocalTasks(existing, before, declared);
    LocalTasksAre(existing, before, declared);
    var all := ApproveTasks(declared + local, existing);
    forall i | 0 <= i < |declared|
      ensures SemanticTask(all[i]) == declared[i]
    {
      assert all[i] == ApproveTask(declared[i], existing);
    }
    forall i | |declared| <= i < |all|
      ensures all[i].id !in managed
    {
      assert local[i - |declared|] in local;
      assert all[i] == ApproveTask(local[i - |declared|], existing);
    }
  }

  lemma {:induction false} SameIdsSameFinds(a: seq<Terminal>, b: seq<Terminal>, id: Id)
    requires |a| == |b| && forall i :: 0 <= i < |a| ==> a[i].id == b[i].id
    ensures FindTerminal(a, id).Some? <==> FindTerminal(b, id).Some?
  {
    if a != [] {
      SameIdsSameFinds(a[1..], b[1..], id);
    }
  }

  /** `merged` are the declared terminals after local edits: same identities, still untrusted. */
  lemma CarriedTerminalsFollow(
      declared: seq<Terminal>, merged: seq<Terminal>, existing: seq<Terminal>, before: set<Id>, managed: set<Id>)
    requires |merged| == |declared|
    requires forall i :: 0 <= i < |declared| ==>
      merged[i].id == declared[i].id && declared[i].trusted == None && declared[i].id in managed
    requires forall id :: id in managed ==> id in before || FindTerminal(declared, id).Some?
    ensures TerminalsFollow(declared, TrustTerminals(merged + LocalTerminals(existing, before, merged), existing), managed)
  {
    var local := LocalTerminals(existing, before, merged);
    LocalTerminalsAre(existing, before, merged);
    var all := TrustTerminals(merged + local, existing);
    forall i | 0 <= i < |all|
      ensures all[i].id == (merged + local)[i].id
    {
      TrustKeepsId((merged + local)[i], existing);
    }
    forall i | |declared| <= i < |all|
      ensures all[i].id !in managed
    {
      assert local[i - |declared|] in local;
      SameIdsSameFinds(declared, merged, local[i - |declared|].id);
    }
  }

  lemma TrustKeepsId(t: Terminal, existing: seq<Terminal>)
    ensures TrustTerminal(t, existing).id == t.id
  {
  }

  /** Every identity given to a key of the declaration belongs to the declared definition. */
  lemma ManagedTaskIds(
      env: Environment, shell: Shell, entries: seq<Entry<TaskDeclaration>>, before: map<string, Id>, issue: string -> Id,
      tasks: seq<Task>)
    requires DeclaredTasks(env, shell, ExtendIds(before, entries, issue), entries, entries) == Some(tasks)
    ensures forall i :: 0 <= i < |tasks| ==>
      tasks[i].approved == None && tasks[i].id in ExtendIds(before, entries, issue).Values
    ensures forall t :: t in ExtendIds(before, entries, issue).Values ==> t in before.Values || FindTask(tasks, t).Some?
  {
    var ids := ExtendIds(before, entries, issue);
    forall i | 0 <= i < |tasks|
      ensures tasks[i].approved == None && tasks[i].id == ids[entries[i].key]
    {
      assert DeclaredTask(env, shell, ids, entries, entries[i].key, entries[i].value) == Some(tasks[i]);
    }
    forall t | t in ids.Values && t !in before.Values
      ensures FindTask(tasks, t).Some?
    {
      var i := NewIdAt(before, entries, issue, t);
      assert tasks[i] in tasks && tasks[i].id == t;
    }
  }

  /** An identity that was not there before belongs to an entry. */
  lemma NewIdAt<V>(before: map<string, Id>, entries: seq<Entry<V>>, issue: string -> Id, id: Id) returns (i: nat)
    requires id in ExtendIds(before, entries, issue).Values && id !in before.Values
    ensures i < |entries| && ExtendIds(before, entries, issue)[entries[i].key] == id
  {
    var ids := ExtendIds(before, entries, issue);
    assert forall key :: key in before ==> before[key] in before.Values;
    var key :| key in ids && ids[key] == id;
    i :| 0 <= i < |entries| && entries[i].key == key;
  }

  lemma ManagedTerminalIds(
      env: Environment, shell: Shell, entries: seq<Entry<TerminalDeclaration>>, before: map<string, Id>, issue: string -> Id)
    ensures var ids := ExtendIds(before, entries, issue);
      var terminals := DeclaredTerminals(env, shell, ids, entries);
      && (forall i :: 0 <= i < |terminals| ==> terminals[i].trusted == None && terminals[i].id in ids.Values)
      && (forall t :: t in ids.Values ==> t in before.Values || FindTerminal(terminals, t).Some?)
  {
    var ids := ExtendIds(before, entries, issue);
    var terminals := DeclaredTerminals(env, shell, ids, entries);
    forall t | t in ids.Values && t !in before.Values
      ensures FindTerminal(terminals, t).Some?
    {
      var i := NewIdAt(before, entries, issue, t);
      assert terminals[i] in terminals && terminals[i].id == t;
    }
  }

  lemma DeclaredShellIsUntrusted(env: Environment, d: Declaration, prefs: Preferences)
    ensures DeclaredShell(env, d, prefs).Some? ==> DeclaredShell(env, d, prefs).value.trusted == None
  {
    if env.defaultShell.Some? {
      var initial := Shell(env.defaultShell.value, false, env.root, [], Some(Native([], map[])), None);
      if prefs.shell.Some? {
        var p := prefs.shell.value;
        var given := if d.shell.Some? && d.shell.value.program.Some? then p.(program := None) else p;
        ApplyingGivesNoTrust(env, initial, given, env.configDir);
        var preferred := ApplyShell(env, initial, given, env.configDir);
        if preferred.Some? && d.shell.Some? {
          ApplyingGivesNoTrust(env, preferred.value, d.shell.value, env.root);
        }
      } else if d.shell.Some? {
        ApplyingGivesNoTrust(env, initial, d.shell.value, env.root);
      }
    }
  }

  lemma ApplyingGivesNoTrust(env: Environment, shell: Shell, d: ShellDeclaration, base: Path)
    ensures ApplyShell(env, shell, d, base).Some? ==> ApplyShell(env, shell, d, base).value.trusted == shell.trusted
  {
  }
}

/** The project under resolution as it is edited in place, and the workspace it is applied to. */
module PortableDraft {
  import opened Faults
  import opened PortableModel
  import opened PortableSync
  import opened PortableFixpoint

  datatype EnvironmentPatch = EnvironmentPatch(
    replace: Option<map<string, string>>, clear: bool, entries: map<string, string>, unset: seq<string>)

  predicate Contradictory(patch: EnvironmentPatch) {
    patch.replace.Some? && (patch.clear || patch.entries != map[] || patch.unset != [])
  }

  /** What a patch makes of one key: set beats unset, and a replacement or a clearing hides the old value. */
  function PatchedKey(patch: EnvironmentPatch, target: map<string, string>, key: string): Option<string> {
    if key in patch.entries then Some(patch.entries[key])
    else if key in patch.unset then None
    else if patch.replace.Some? then Lookup(patch.replace.value, key)
    else if patch.clear then None
    else Lookup(target, key)
  }

  function Start(patch: EnvironmentPatch, target: map<string, string>): map<string, string> {
    if patch.replace.Some? then patch.replace.value else if patch.clear then map[] else target
  }

  function Patched(patch: EnvironmentPatch, target: map<string, string>): map<string, string> {
    Unset(Start(patch, target), patch.unset) + patch.entries
  }

  lemma PatchedKeyByKey(patch: EnvironmentPatch, target: map<string, string>, key: string)
    ensures Lookup(Patched(patch, target), key) == PatchedKey(patch, target, key)
  {
    assert key in patch.entries ==> Lookup(Patched(patch, target), key) == Some(patch.entries[key]);
  }

  /** A replacement excludes single keys, removed keys must be valid, and the result too. */
  predicate PatchApplies(env: Environment, patch: EnvironmentPatch, target: map<string, string>) {
    && !Contradictory(patch)
    && (forall key :: key in patch.unset ==> env.acceptsUnset(key))
    && env.acceptsExecution([], Patched(patch, target))
  }

  /** `EnvironmentPatch::apply`: a refused patch leaves the environment as it was. */
  method ApplyPatch(env: Environment, patch: EnvironmentPatch, target: map<string, string>) returns (ok: bool, next: map<string, string>)
    ensures ok <==> PatchApplies(env, patch, target)
    ensures next == if ok then Patched(patch, target) else target
  {
    if Contradictory(patch) {
      return false, target;
    }
    next := Start(patch, target);
    var i := 0;
    while i < |patch.unset|
      invariant 0 <= i <= |patch.unset|
      invariant next == Unset(Start(patch, target), patch.unset[..i])
      invariant forall k :: 0 <= k < i ==> env.acceptsUnset(patch.unset[k])
    {
      if !env.acceptsUnset(patch.unset[i]) {
        return false, target;
      }
      next := next - {patch.unset[i]};
      assert patch.unset[..i + 1] == patch.unset[..i] + [patch.unset[i]];
      i := i + 1;
    }
    assert patch.unset[..i] == patch.unset;
    next := next + patch.entries;
    ok := env.acceptsExecution([], next);
    if !ok {
      next := target;
    }
  }

  lemma SameLookups(a: map<string, string>, b: map<string, string>)
    requires forall key: string :: Lookup(a, key) == Lookup(b, key)
    ensures a == b
  {
    assert forall key :: key in a <==> Lookup(a, key).Some?;
    assert forall key :: key in b <==> Lookup(b, key).Some?;
    assert forall key :: key in a ==> Lookup(a, key) == Some(a[key]);
    assert forall key :: key in b ==> Lookup(b, key) == Some(b[key]);
  }

  method RemoveKeys(target: map<string, string>, keys: set<string>) returns (next: map<string, string>)
    ensures forall key: string :: Lookup(next, key) == if key in keys then None else Lookup(target, key)
  {
    next := target;
    var left := keys;
    while left != {}
      invariant left <= keys
      invariant forall key: string :: Lookup(next, key) == if key in keys && key !in left then None else Lookup(target, key)
      decreases left
    {
      var key :| key in left;
      next := next - {key};
      left := left - {key};
    }
  }

  method InsertChanged(target: map<string, string>, baseline: map<string, string>, local: map<string, string>)
    returns (next: map<string, string>)
    ensures forall key: string ::
      Lookup(next, key) == if key in local && Lookup(baseline, key) != Lookup(local, key) then Lookup(local, key) else Lookup(target, key)
  {
    next := target;
    var left := local.Keys;
    while left != {}
      invariant left <= local.Keys
      invariant forall key: string ::
        Lookup(next, key)
          == if key in local && key !in left && Lookup(baseline, key) != Lookup(local, key) then Lookup(local, key) else Lookup(target, key)
      decreases left
    {
      var key :| key in left;
      if Lookup(baseline, key) != Some(local[key]) {
        next := next[key := local[key]];
      }
      left := left - {key};
    }
  }

  /** The environment loops of `local_overrides`, over the keys in any order. */
  method MergeEnvironmentInto(declared: map<string, string>, baseline: map<string, string>, local: map<string, string>)
    returns (next: map<string, string>)
    ensures next == MergeEnvironment(declared, baseline, local)
  {
    next := RemoveKeys(declared, baseline.Keys - local.Keys);
    next := InsertChanged(next, baseline, local);
    forall key: string
      ensures Lookup(next, key) == Lookup(MergeEnvironment(declared, baseline, local), key)
    {
      MergeEnvironmentIsThreeWay(declared, baseline, local, key);
    }
    SameLookups(next, MergeEnvironment(declared, baseline, local));
  }

  /** The shell part of `local_overrides`. */
  method MergeShellInto(declared: Shell, baseline: Shell, local: Shell) returns (shell: Shell)
    ensures shell == MergeShell(declared, baseline, local)
  {
    shell := declared;
    if local.executable != baseline.executable {
      shell := shell.(executable := local.executable);
    }
    if local.login != baseline.login {
      shell := shell.(login := local.login);
    }
    if local.initCwd != baseline.initCwd {
      shell := shell.(initCwd := local.initCwd);
    }
    if local.sources != baseline.sources {
      shell := shell.(sources := local.sources);
    }
    if local.native.Some? && baseline.native.Some? && shell.native.Some? {
      var next, mine, theirs := shell.native.value, local.native.value, baseline.native.value;
      if mine.args != theirs.args {
        next := next.(args := mine.args);
      }
      var merged := MergeEnvironmentInto(next.env, theirs.env, mine.env);
      shell := shell.(native := Some(next.(env := merged)));
    } else if local.native != baseline.native {
      shell := shell.(native := local.native);
    }
  }

  const NO_PATCH := EnvironmentPatch(None, false, map[], [])

  predicate EmptyPatch(patch: EnvironmentPatch) {
    patch.replace.None? && !patch.clear && patch.entries == map[] && patch.unset == []
  }

  /** Entering native mode starts from nothing and forgets what only a sourced shell uses. */
  function Entered(shell: Shell, native: bool): Shell {
    Mode(shell, if native then Some(false) else None)
  }

  /** What a patch of a shell leads to, or nothing when it is refused. */
  function PatchedShell(env: Environment, shell: Shell, native: bool, args: Option<seq<string>>, patch: EnvironmentPatch): Option<Shell> {
    var start := Entered(shell, native);
    if args.None? && EmptyPatch(patch) then Some(start)
    else if start.native.None? then None
    else if args.Some? && !env.acceptsExecution(args.value, start.native.value.env) then None
    else if !PatchApplies(env, patch, start.native.value.env) then None
    else Some(start.(native := Some(Native(Or(args, start.native.value.args), Patched(patch, start.native.value.env)))))
  }

  /** What a refused patch leaves: the mode, and the arguments when only the environment was refused. */
  function HalfPatched(env: Environment, shell: Shell, native: bool, args: Option<seq<string>>): Shell {
    var start := Entered(shell, native);
    if start.native.None? || args.None? || !env.acceptsExecution(args.value, start.native.value.env) then start
    else start.(native := Some(start.native.value.(args := args.value)))
  }

  /** A patch keeps program and directory, touches the rest only to enter native mode, and edits single keys. */
  lemma PatchedShellFields(
      env: Environment, shell: Shell, native: bool, args: Option<seq<string>>, patch: EnvironmentPatch, next: Shell, key: string)
    requires PatchedShell(env, shell, native, args, patch) == Some(next)
    ensures next.executable == shell.executable && next.initCwd == shell.initCwd && next.trusted == shell.trusted
    ensures shell.native.Some? || !native ==> next.login == shell.login && next.sources == shell.sources
    ensures next.native.Some? <==> shell.native.Some? || native
    ensures next.native.Some? ==>
      && next.native.value.args == Or(args, if shell.native.Some? then shell.native.value.args else [])
      && Lookup(next.native.value.env, key)
         == PatchedKey(patch, if shell.native.Some? then shell.native.value.env else map[], key)
  {
    PatchedKeyByKey(patch, if shell.native.Some? then shell.native.value.env else map[], key);
  }

  /** The patch of a declaration is the one that `apply_shell` makes. */
  lemma DeclaredPatch(env: Environment, shell: Shell, d: ShellDeclaration)
    requires PatchesNative(d)
    ensures PatchedShell(env, shell, false, d.args, EnvironmentPatch(None, d.clear, d.env, d.unset))
         == if shell.native.None? then None
            else
              var native := PatchNative(env, shell.native.value, d);
              if native.None? then None else Some(shell.(native := native))
  {
  }

  /** The project that resolution builds. */
  class Draft {
    var project: Project

    constructor (start: Project)
      ensures project == start
    {
      project := start;
    }

    /** `patch_native`; after an error the shell is left as far as it came. */
    method PatchNativeShell(env: Environment, native: bool, args: Option<seq<string>>, patch: EnvironmentPatch) returns (ok: bool)
      modifies this
      ensures ok <==> PatchedShell(env, old(project).shell, native, args, patch).Some?
      ensures ok ==> project == old(project).(shell := PatchedShell(env, old(project).shell, native, args, patch).value)
      ensures !ok ==> project == old(project).(shell := HalfPatched(env, old(project).shell, native, args))
    {
      if native && project.shell.native.None? {
        project := project.(shell := project.shell.(native := Some(Native([], map[])), login := false, sources := []));
      }
      ok := true;
      if args.Some? || !EmptyPatch(patch) {
        if project.shell.native.None? {
          return false;
        }
        if args.Some? {
          if !env.acceptsExecution(args.value, project.shell.native.value.env) {
            return false;
          }
          project := project.(shell := project.shell.(native := Some(project.shell.native.value.(args := args.value))));
        }
        var definition := project.shell.native.value;
        var applied, next := ApplyPatch(env, patch, definition.env);
        project := project.(shell := project.shell.(native := Some(definition.(env := next))));
        ok := applied;
      }
    }

    /** The assignments of `apply_shell` before arguments and environment. */
    method StartShell(env: Environment, d: ShellDeclaration, base: Path) returns (ok: bool)
      modifies this
      ensures ok <==> StartedShell(env, old(project).shell, d, base).Some?
      ensures ok ==> project == old(project).(shell := StartedShell(env, old(project).shell, d, base).value)
    {
      if d.program.Some? {
        var program := ResolveProgram(env, d.program.value, base);
        if program.None? {
          return false;
        }
        project := project.(shell := project.shell.(executable := program.value));
      }
      if d.cwd.Some? {
        project := project.(shell := project.shell.(initCwd := At(base, d.cwd.value)));
      }
      if d.legacy.Some? {
        if d.legacy.value {
          project := project.(shell := project.shell.(native := None));
        } else {
          var entered := PatchNativeShell(env, true, None, NO_PATCH);
        }
      }
      if d.login.Some? {
        project := project.(shell := project.shell.(login := d.login.value));
      }
      if d.sources.Some? {
        project := project.(shell := project.shell.(sources := Sources(base, d.sources.value)));
      }
      ok := true;
    }

    /** `apply_shell`; after an error the draft is thrown away. */
    method ApplyShellDeclaration(env: Environment, d: ShellDeclaration, base: Path) returns (ok: bool)
      modifies this
      ensures ok <==> ApplyShell(env, old(project).shell, d, base).Some?
      ensures ok ==> project == old(project).(shell := ApplyShell(env, old(project).shell, d, base).value)
    {
      ok := StartShell(env, d, base);
      if ok && PatchesNative(d) {
        DeclaredPatch(env, project.shell, d);
        ok := PatchNativeShell(env, false, d.args, EnvironmentPatch(None, d.clear, d.env, d.unset));
      }
    }

    /** `local_overrides`. */
    method OverrideLocally(current: Project, baseline: Project)
      modifies this
      ensures project == LocalOverrides(old(project), current, baseline)
    {
      var shell := MergeShellInto(project.shell, baseline.shell, current.shell);
      project := project.(shell := shell);
      if current.editor != baseline.editor {
        project := project.(editor := current.editor);
      }
      if current.name != baseline.name {
        project := project.(name := current.name);
      }
      var terminals := MergeTerminalsInto(project.terminals, baseline.terminals, current.terminals);
      project := project.(terminals := terminals);
    }

    method MergeTerminalsInto(declared: seq<Terminal>, baseline: seq<Terminal>, local: seq<Terminal>) returns (next: seq<Terminal>)
      ensures next == MergeTerminals(declared, baseline, local)
    {
      next := declared;
      var i := 0;
      while i < |declared|
        invariant 0 <= i <= |declared| && |next| == |declared|
        invariant forall k :: 0 <= k < i ==> next[k] == MergeTerminal(declared[k], baseline, local)
        invariant forall k :: i <= k < |declared| ==> next[k] == declared[k]
      {
        var mine, theirs := FindTerminal(local, next[i].id), FindTerminal(baseline, next[i].id);
        if mine.Some? && theirs.Some? {
          if mine.value.name != theirs.value.name {
            next := next[i := next[i].(name := mine.value.name)];
          }
          if mine.value.cwd != theirs.value.cwd {
            next := next[i := next[i].(cwd := mine.value.cwd)];
          }
          if mine.value.sources != theirs.value.sources {
            next := next[i := next[i].(sources := mine.value.sources)];
          }
          if mine.value.persistent != theirs.value.persistent {
            next := next[i := next[i].(persistent := mine.value.persistent)];
          }
        }
        i := i + 1;
      }
    }

    /** The definitions and approvals that the existing project hands over. */
    method CarryOverFrom(existing: Project, managedTasks: set<Id>, managedTerminals: set<Id>)
      modifies this
      ensures project == CarryOver(old(project), existing, managedTasks, managedTerminals)
    {
      var tasks := ExtendTasks(project.tasks, existing.tasks, managedTasks);
      var terminals := ExtendTerminals(project.terminals, existing.terminals, managedTerminals);
      if SemanticShell(project.shell) == SemanticShell(existing.shell) {
        project := project.(shell := project.shell.(trusted := existing.shell.trusted));
      }
      var trusted := TrustInto(terminals, existing.terminals);
      var approved := ApproveInto(tasks, existing.tasks);
      project := project.(terminals := trusted, tasks := approved);
      if PersistentIn(trusted, existing.defaultTerminal) {
        project := project.(defaultTerminal := existing.defaultTerminal);
      }
    }

    method ExtendTasks(declared: seq<Task>, existing: seq<Task>, managed: set<Id>) returns (next: seq<Task>)
      ensures next == declared + LocalTasks(existing, managed, declared)
    {
      next := declared;
      var i := 0;
      while i < |existing|
        invariant 0 <= i <= |existing|
        invariant next + LocalTasks(existing[i..], managed, declared) == declared + LocalTasks(existing, managed, declared)
      {
        var t := existing[i];
        assert existing[i..][1..] == existing[i + 1..];
        if t.id !in managed && FindTask(declared, t.id).None? {
          assert next + LocalTasks(existing[i..], managed, declared) == (next + [t]) + LocalTasks(existing[i + 1..], managed, declared);
          next := next + [t];
        }
        i := i + 1;
      }
      assert existing[i..] == [];
    }

    method ExtendTerminals(declared: seq<Terminal>, existing: seq<Terminal>, managed: set<Id>) returns (next: seq<Terminal>)
      ensures next == declared + LocalTerminals(existing, managed, declared)
    {
      next := declared;
      var i := 0;
      while i < |existing|
        invariant 0 <= i <= |existing|
        invariant next + LocalTerminals(existing[i..], managed, declared) == declared + LocalTerminals(existing, managed, declared)
      {
        var t := existing[i];
        assert existing[i..][1..] == existing[i + 1..];
        if t.id !in managed && FindTerminal(declared, t.id).None? {
          assert next + LocalTerminals(existing[i..], managed, declared) == (next + [t]) + LocalTerminals(existing[i + 1..], managed, declared);
          next := next + [t];
        }
        i := i + 1;
      }
      assert existing[i..] == [];
    }

    method TrustInto(terminals: seq<Terminal>, existing: seq<Terminal>) returns (next: seq<Terminal>)
      ensures next == TrustTerminals(terminals, existing)
    {
      next := terminals;
      var i := 0;
      while i < |terminals|
        invariant 0 <= i <= |terminals| && |next| == |terminals|
        invariant forall k :: 0 <= k < i ==> next[k] == TrustTerminal(terminals[k], existing)
        invariant forall k :: i <= k < |terminals| ==> next[k] == terminals[k]
      {
        var same := SameTerminal(existing, next[i]);
        if same.Some? {
          next := next[i := next[i].(trusted := same.value.trusted)];
        }
        i := i + 1;
      }
    }

    method ApproveInto(tasks: seq<Task>, existing: seq<Task>) returns (next: seq<Task>)
      ensures next == ApproveTasks(tasks, existing)
    {
      next := tasks;
      var i := 0;
      while i < |tasks|
        invariant 0 <= i <= |tasks| && |next| == |tasks|
        invariant forall k :: 0 <= k < i ==> next[k] == ApproveTask(tasks[k], existing)
        invariant forall k :: i <= k < |tasks| ==> next[k] == tasks[k]
      {
        var same := SameTask(existing, next[i]);
        if same.Some? {
          next := next[i := next[i].(approved := same.value.approved)];
        }
        i := i + 1;
      }
    }
  }

  // ---------------------------------------------------------------- the workspace

  const RECENT_LIMIT := 32

  datatype Workspace = Workspace(
    revision: nat, projects: seq<Project>, portable: seq<Binding>, selected: Option<Id>, recent: seq<Id>)

  function FindProject(projects: seq<Project>, id: Id): (found: Option<Project>)
    ensures found.Some? ==> found.value in projects && found.value.id == id
    ensures found.None? ==> forall p :: p in projects ==> p.id != id
  {
    if projects == [] then None
    else if projects[0].id == id then Some(projects[0]) else FindProject(projects[1..], id)
  }

  function FindBinding(portable: seq<Binding>, id: Id): (found: Option<Binding>)
    ensures found.Some? ==> found.value in portable && found.value.resolved.id == id
    ensures found.None? ==> forall b :: b in portable ==> b.resolved.id != id
  {
    if portable == [] then None
    else if portable[0].resolved.id == id then Some(portable[0]) else FindBinding(portable[1..], id)
  }

  function Replaced(projects: seq<Project>, p: Project): seq<Project> {
    if projects == [] then [p]
    else if projects[0].id == p.id then [p] + projects[1..] else [projects[0]] + Replaced(projects[1..], p)
  }

  function Without(portable: seq<Binding>, id: Id): seq<Binding> {
    if portable == [] then []
    else (if portable[0].resolved.id == id then [] else [portable[0]]) + Without(portable[1..], id)
  }

  function WithoutId(ids: seq<Id>, id: Id): (rest: seq<Id>)
    ensures id !in rest
    ensures forall other :: other in rest <==> other in ids && other != id
  {
    if ids == [] then []
    else (if ids[0] == id then [] else [ids[0]]) + WithoutId(ids[1..], id)
  }

  function Recent(recent: seq<Id>, id: Id): seq<Id> {
    var next := [id] + WithoutId(recent, id);
    if |next| > RECENT_LIMIT then next[..RECENT_LIMIT] else next
  }

  function Applied(ws: Workspace, r: Resolved): Workspace {
    Workspace(ws.revision + 1, Replaced(ws.projects, r.project),
              Without(ws.portable, r.project.id) + (if r.binding.Some? then [r.binding.value] else []),
              Some(r.project.id), Recent(ws.recent, r.project.id))
  }

  /** What a draft was resolved from: the workspace's revision and the digests of the two files. */
  datatype Basis = Basis(revision: nat, declaration: nat, preferences: Option<nat>)

  /** The two files when the draft is applied; `None` twice for preferences that cannot be read. */
  datatype Found = Found(declaration: Option<nat>, preferences: Option<Option<nat>>)

  /** A declaration counts only for a project that is bound to it; preferences may be missing, but then they were before. */
  predicate StillBased(ws: Workspace, r: Resolved, basis: Basis, found: Found) {
    && ws.revision == basis.revision
    && (r.binding.Some? ==> found.declaration == Some(basis.declaration))
    && found.preferences == Some(basis.preferences)
  }

  /** `apply`: refused unless the workspace, the declaration and the preferences are as they were. */
  class Store {
    var disk: Workspace

    constructor (start: Workspace)
      ensures disk == start
    {
      disk := start;
    }

    method Apply(r: Resolved, basis: Basis, found: Found, save: Outcome) returns (ok: bool)
      modifies this
      ensures ok <==> StillBased(old(disk), r, basis, found) && save.Done?
      ensures disk == if StillBased(old(disk), r, basis, found) && !save.FailedBefore? then Applied(old(disk), r) else old(disk)
    {
      if disk.revision != basis.revision {
        return false;
      }
      if r.binding.Some? {
        if found.declaration.None? || found.declaration.value != basis.declaration {
          return false;
        }
      }
      if found.preferences.None? || found.preferences.value != basis.preferences {
        return false;
      }
      var projects := ReplaceProject(disk.projects, r.project);
      var portable := DropBinding(disk.portable, r.project.id);
      if r.binding.Some? {
        portable := portable + [r.binding.value];
      }
      var recent := DropRecent(disk.recent, r.project.id);
      recent := [r.project.id] + recent;
      if |recent| > RECENT_LIMIT {
        recent := recent[..RECENT_LIMIT];
      }
      if !save.FailedBefore? {
        disk := Workspace(disk.revision + 1, projects, portable, Some(r.project.id), recent);
      }
      ok := save.Done?;
    }

    method DropRecent(recent: seq<Id>, id: Id) returns (next: seq<Id>)
      ensures next == WithoutId(recent, id)
    {
      next := [];
      var i := 0;
      while i < |recent|
        invariant 0 <= i <= |recent|
        invariant next + WithoutId(recent[i..], id) == WithoutId(recent, id)
      {
        assert recent[i..][1..] == recent[i + 1..];
        if recent[i] != id {
          assert next + ([recent[i]] + WithoutId(recent[i + 1..], id)) == (next + [recent[i]]) + WithoutId(recent[i + 1..], id);
          next := next + [recent[i]];
        }
        i := i + 1;
      }
      assert recent[i..] == [];
    }

    method ReplaceProject(projects: seq<Project>, p: Project) returns (next: seq<Project>)
      ensures next == Replaced(projects, p)
    {
      var i := 0;
      while i < |projects| && projects[i].id != p.id
        invariant 0 <= i <= |projects|
        invariant projects[..i] + Replaced(projects[i..], p) == Replaced(projects, p)
      {
        assert projects[i..][1..] == projects[i + 1..];
        assert projects[..i] + ([projects[i]] + Replaced(projects[i + 1..], p)) == projects[..i + 1] + Replaced(projects[i + 1..], p);
        i := i + 1;
      }
      if i < |projects| {
        assert projects[i := p] == projects[..i] + ([p] + projects[i..][1..]);
        next := projects[i := p];
      } else {
        assert projects[..i] == projects && projects[i..] == [];
        next := projects + [p];
      }
    }

    method DropBinding(portable: seq<Binding>, id: Id) returns (next: seq<Binding>)
      ensures next == Without(portable, id)
    {
      next := [];
      var i := 0;
      while i < |portable|
        invariant 0 <= i <= |portable|
        invariant next + Without(portable[i..], id) == Without(portable, id)
      {
        WithoutStep(portable, i, id, next);
        if portable[i].resolved.id != id {
          next := next + [portable[i]];
        }
        i := i + 1;
      }
      assert portable[i..] == [];
    }
  }

  lemma WithoutStep(portable: seq<Binding>, i: nat, id: Id, kept: seq<Binding>)
    requires i < |portable|
    ensures kept + Without(portable[i..], id)
         == (if portable[i].resolved.id == id then kept else kept + [portable[i]]) + Without(portable[i + 1..], id)
  {
    var rest := portable[i..];
    assert rest[0] == portable[i] && rest[1..] == portable[i + 1..];
    Regrouped(kept, portable[i], Without(portable[i + 1..], id));
  }

  lemma Regrouped<T>(front: seq<T>, x: T, back: seq<T>)
    ensures front + ([x] + back) == (front + [x]) + back
    ensures [] + back == back
  {
  }

  /** The project of this folder: the selected one, or the only one with this root. */
  function Chosen(ws: Workspace, env: Environment, selected: Option<Id>): Option<Option<Project>> {
    var matches := Rooted(ws.projects, env.root);
    if selected.Some? then
      var p := FindProject(ws.projects, selected.value);
      if p.None? || p.value.root != env.root then None else Some(p)
    else if |matches| > 1 then None
    else if matches == [] then Some(None) else Some(Some(matches[0]))
  }

  function Rooted(projects: seq<Project>, root: Path): seq<Project> {
    if projects == [] then []
    else (if projects[0].root == root then [projects[0]] else []) + Rooted(projects[1..], root)
  }

  /** `resolve_for` over the workspace. */
  function ResolveIn(
      ws: Workspace, env: Environment, declaration: Option<Declaration>, prefs: Preferences, issue: Fresh, selected: Option<Id>): Option<Resolved>
  {
    var existing := Chosen(ws, env, selected);
    if existing.None? then None
    else
      var previous := if existing.value.Some? then FindBinding(ws.portable, existing.value.value.id) else None;
      Resolve(env, declaration, prefs, issue, existing.value, previous)
  }

  lemma {:induction false} ReplacedFinds(projects: seq<Project>, p: Project, id: Id)
    ensures FindProject(Replaced(projects, p), id) == if id == p.id then Some(p) else FindProject(projects, id)
  {
    if projects != [] && projects[0].id != p.id {
      ReplacedFinds(projects[1..], p, id);
    }
  }

  lemma {:induction false} WithoutFinds(portable: seq<Binding>, id: Id, extra: seq<Binding>, other: Id)
    requires forall b :: b in extra ==> b.resolved.id == id
    ensures FindBinding(Without(portable, id) + extra, other)
         == if other == id then (if extra == [] then None else Some(extra[0])) else FindBinding(portable, other)
  {
    if portable == [] {
      assert Without(portable, id) + extra == extra;
      if extra != [] {
        assert extra[0] in extra;
        if other != id {
          assert FindBinding(extra, other).None?;
        }
      }
    } else {
      WithoutFinds(portable[1..], id, extra, other);
      var rest := Without(portable[1..], id);
      if portable[0].resolved.id == id {
        assert Without(portable, id) == rest;
      } else {
        assert Without(portable, id) + extra == [portable[0]] + (rest + extra);
      }
    }
  }

  /** Applying a result stores exactly its project and its binding, and touches no other project. */
  lemma AppliedIsStored(ws: Workspace, r: Resolved, id: Id)
    requires r.binding.Some? ==> r.binding.value.resolved.id == r.project.id
    ensures FindProject(Applied(ws, r).projects, id) == if id == r.project.id then Some(r.project) else FindProject(ws.projects, id)
    ensures FindBinding(Applied(ws, r).portable, id) == if id == r.project.id then r.binding else FindBinding(ws.portable, id)
  {
    ReplacedFinds(ws.projects, r.project, id);
    WithoutFinds(ws.portable, r.project.id, if r.binding.Some? then [r.binding.value] else [], id);
  }

  predicate Distinct(ids: seq<Id>) {
    forall i, j :: 0 <= i < j < |ids| ==> ids[i] != ids[j]
  }

  lemma {:induction false} WithoutIdDistinct(ids: seq<Id>, id: Id)
    requires Distinct(ids)
    ensures Distinct(WithoutId(ids, id)) && |WithoutId(ids, id)| <= |ids|
  {
    if ids != [] {
      assert forall k :: 0 <= k < |ids[1..]| ==> ids[1..][k] == ids[k + 1];
      WithoutIdDistinct(ids[1..], id);
      var rest := WithoutId(ids[1..], id);
      assert ids[0] !in rest;
      assert forall i :: 0 <= i < |rest| ==> rest[i] != ids[0];
    }
  }

  /** The applied project is selected and the first of at most 32 different recent ones. */
  lemma AppliedIsRecent(ws: Workspace, r: Resolved)
    requires Distinct(ws.recent)
    ensures var next := Applied(ws, r);
            && next.selected == Some(r.project.id) && next.recent[..1] == [r.project.id]
            && Distinct(next.recent) && |next.recent| <= RECENT_LIMIT
            && (|ws.recent| < RECENT_LIMIT ==> forall id :: id in ws.recent ==> id in next.recent)
  {
    var rest := WithoutId(ws.recent, r.project.id);
    WithoutIdDistinct(ws.recent, r.project.id);
    assert Distinct([r.project.id] + rest);
    assert forall id :: id in ws.recent ==> id == r.project.id || id in rest;
  }

  /**
   Resolve, apply, resolve and apply, resolve: over a whole workspace, the third resolution repeats the
   second one, and the second one repeats the first one, the editor aside.
   */
  lemma SyncingSettles(
      ws: Workspace, env: Environment, d: Declaration, prefs: Preferences, issue: Fresh, later: Fresh, last: Fresh,
      selected: Option<Id>, first: Resolved, second: Resolved)
    requires ResolveIn(ws, env, Some(d), prefs, issue, selected) == Some(first)
    requires ResolveIn(Applied(ws, first), env, Some(d), prefs, later, Some(first.project.id)) == Some(second)
    ensures second.project == first.project.(editor := second.project.editor)
    ensures first.binding.Some? && second.binding.Some?
    ensures second.binding.value.taskIds == first.binding.value.taskIds
    ensures second.binding.value.terminalIds == first.binding.value.terminalIds
    ensures ResolveIn(Applied(Applied(ws, first), second), env, Some(d), prefs, last, Some(first.project.id)) == Some(second)
  {
    var existing := Chosen(ws, env, selected).value;
    var previous := if existing.Some? then FindBinding(ws.portable, existing.value.id) else None;
    assert ResolveDeclared(env, d, prefs, issue, existing, previous) == Some(first);
    RootIsKept(env, d, prefs, issue, existing, previous, first);
    AppliedIsStored(ws, first, first.project.id);
    assert ResolveDeclared(env, d, prefs, later, Some(first.project), first.binding) == Some(second);
    ResolvingAgain(env, d, prefs, issue, later, existing, previous, first);
    RootIsKept(env, d, prefs, later, Some(first.project), first.binding, second);
    AppliedIsStored(Applied(ws, first), second, first.project.id);
    SecondResolutionSettles(env, d, prefs, issue, later, last, existing, previous, first, second);
  }

  lemma RootIsKept(
      env: Environment, d: Declaration, prefs: Preferences, issue: Fresh,
      existing: Option<Project>, previous: Option<Binding>, r: Resolved)
    requires existing.None? ==> previous.None?
    requires ResolveDeclared(env, d, prefs, issue, existing, previous) == Some(r)
    ensures r.project.root == env.root && r.binding.Some? && r.binding.value.resolved.id == r.project.id
  {
    ResolvedParts(env, d, prefs, issue, existing, previous, r);
    FirstFollows(env, d, prefs, issue, existing, previous, r, DeclaredHere(env, d, prefs, issue, existing, previous).value);
    assert DeclaredHere(env, d, prefs, issue, existing, previous).value.root == env.root;
  }
}

/** A removed editor returns: the one field that does not settle at once, in general and in an example. */
module PortableExample {
  import opened Faults
  import opened PortableModel
  import opened PortableSync
  import opened PortableFixpoint
  import Text
  import PortableExport
  import PortableRoundTrip
  import PortableImport

  /**
   A user removes the declared editor of a synchronised project. The next synchronisation takes the
   discovered editor, and the one after it the declared editor again.
   */
  lemma RemovedEditorReturns(
      env: Environment, d: Declaration, prefs: Preferences, issue: Fresh, later: Fresh, last: Fresh,
      existing: Option<Project>, previous: Option<Binding>, first: Resolved)
    requires existing.None? ==> previous.None?
    requires ResolveDeclared(env, d, prefs, issue, existing, previous) == Some(first)
    requires DeclaredHere(env, d, prefs, issue, existing, previous).Some? && first.binding.Some?
    requires DeclaredHere(env, d, prefs, issue, existing, previous).value.editor.Some?
    requires first.binding.value.resolved == DeclaredHere(env, d, prefs, issue, existing, previous).value
    ensures var declared := DeclaredHere(env, d, prefs, issue, existing, previous).value;
      var removed := first.project.(editor := None);
      var second := ResolveDeclared(env, d, prefs, later, Some(removed), first.binding);
      && (second.Some? <==> Valid(env, removed.(editor := env.discovered)))
      && (second.Some? ==>
            && second.value.project == removed.(editor := env.discovered)
            && var third := ResolveDeclared(env, d, prefs, last, Some(second.value.project), second.value.binding);
               && (third.Some? <==> Valid(env, removed.(editor := declared.editor)))
               && (third.Some? ==> third.value.project == removed.(editor := declared.editor)))
  {
    FirstIsManaged(env, d, prefs, issue, existing, previous, first);
    OtherEditorIsManaged(env, d, prefs, DeclaredHere(env, d, prefs, issue, existing, previous).value,
                         first.binding.value, first.project, None);
    RemovalIsUndone(env, d, prefs, later, last, DeclaredHere(env, d, prefs, issue, existing, previous).value,
                    first.binding.value, first.project.(editor := None));
  }

  lemma OtherEditorIsManaged(
      env: Environment, d: Declaration, prefs: Preferences, declared: Project, binding: Binding, p: Project, editor: Option<Editor>)
    requires Managed(env, d, prefs, declared, binding, p)
    ensures Managed(env, d, prefs, declared, binding, p.(editor := editor))
  {
  }

  lemma RemovalIsUndone(
      env: Environment, d: Declaration, prefs: Preferences, later: Fresh, last: Fresh, declared: Project, binding: Binding, p: Project)
    requires Managed(env, d, prefs, declared, binding, p)
    requires binding.resolved == declared && declared.editor.Some? && p.editor.None?
    ensures var second := ResolveDeclared(env, d, prefs, later, Some(p), Some(binding));
      && (second.Some? <==> Valid(env, p.(editor := env.discovered)))
      && (second.Some? ==>
            && second.value.project == p.(editor := env.discovered)
            && var third := ResolveDeclared(env, d, prefs, last, Some(second.value.project), second.value.binding);
               && (third.Some? <==> Valid(env, p.(editor := declared.editor)))
               && (third.Some? ==> third.value.project == p.(editor := declared.editor)))
  {
    ManagedStep(env, d, prefs, later, declared, binding, p);
    NextIsManaged(env, d, prefs, declared, binding, p);
    var next := Next(env, declared, binding, p);
    assert next.project == p.(editor := env.discovered);
    ManagedStep(env, d, prefs, last, declared, next.binding.value, next.project);
    assert Next(env, declared, next.binding.value, next.project).project == p.(editor := declared.editor);
  }

  // ---------------------------------------------------------------- an example

  const ROOT := Path(true, ["p"])
  const VI := Editor(Path(true, ["vi"]), ["{file}"], false)
  const ED := Editor(Path(true, ["ed"]), ["{file}"], false)
  const SHELL := Shell(Path(true, ["sh"]), false, ROOT, [], Some(Native([], map[])), None)
  const DECLARATION := Declaration(
    Some("p"), None, Some(EditorDeclaration(Some(Explicit(ED.executable)), Some(ED.args), Some(false))), [], [])
  const PREFERENCES := Preferences(None, None)
  const DEV := Terminal(1, "dev", ROOT, [], true, None)
  const SYNCED := Project(0, "p", ROOT, None, Some(1), SHELL, [DEV], [], Some(ED))

  function Machine(): Environment {
    Environment(ROOT, Path(true, ["c"]), "p", None, _ => true, (_, _) => None, Some(SHELL.executable), Some(VI),
                (_, _) => true, _ => true, (_, _) => true, _ => true)
  }

  function Issue(): Fresh { Fresh(0, _ => 2, _ => 1) }

  lemma ExampleIsWellFormed(p: Project)
    requires p == SYNCED.(editor := p.editor) && (p.editor == Some(ED) || p.editor == Some(VI))
    ensures WellFormed(p)
  {
    assert Text.ValidName("dev") by {
      assert 'd' in "dev" && !Text.IsWhitespace('d');
    }
    assert p.terminals[0].id == 1 && p.terminals[0].persistent;
  }

  lemma ExampleIsDeclared()
    ensures DeclaredHere(Machine(), DECLARATION, PREFERENCES, Issue(), None, None) == Some(SYNCED)
  {
    var env := Machine();
    var entries := TerminalEntries(DECLARATION);
    var ids := TerminalIds(DECLARATION, Issue(), None);
    assert entries == [Entry("dev", TerminalDeclaration(None, None, None, None))];
    assert entries[0].key in ids && ids["dev"] == 1;
    assert DeclaredShell(env, DECLARATION, PREFERENCES) == Some(SHELL);
    WithoutDotsOne("ed");
    assert DeclaredEditor(env, DECLARATION, PREFERENCES) == Some(Some(ED));
    assert Sources(ROOT, []) == [];
    assert DeclaredTerminals(env, SHELL, ids, entries) == [DEV];
  }

  lemma WithoutDotsOne(part: string)
    requires part != "."
    ensures WithoutDots([part]) == [part]
  {
    assert WithoutDots([part][1..]) == [];
  }

  /** It does happen: the second synchronisation after a removal changes the editor from the discovered to the declared one. */
  lemma EditorCanChange() returns (first: Resolved, second: Resolved, third: Resolved)
    ensures ResolveDeclared(Machine(), DECLARATION, PREFERENCES, Issue(), None, None) == Some(first)
    ensures ResolveDeclared(Machine(), DECLARATION, PREFERENCES, Issue(), Some(first.project.(editor := None)), first.binding) == Some(second)
    ensures ResolveDeclared(Machine(), DECLARATION, PREFERENCES, Issue(), Some(second.project), second.binding) == Some(third)
    ensures second.project.editor == Some(VI) && third.project.editor == Some(ED)
  {
    var env := Machine();
    ExampleIsDeclared();
    ExampleIsWellFormed(SYNCED);
    ExampleIsWellFormed(SYNCED.(editor := Some(VI)));
    ResolveFrom(env, DECLARATION, PREFERENCES, Issue(), None, None, SYNCED, SYNCED);
    first := ResolveDeclared(env, DECLARATION, PREFERENCES, Issue(), None, None).value;
    RemovedEditorReturns(env, DECLARATION, PREFERENCES, Issue(), Issue(), Issue(), None, None, first);
    var removed := first.project.(editor := None);
    second := ResolveDeclared(env, DECLARATION, PREFERENCES, Issue(), Some(removed), first.binding).value;
    third := ResolveDeclared(env, DECLARATION, PREFERENCES, Issue(), Some(second.project), second.binding).value;
  }

  /** An export does resolve: the example project comes back on its machine. */
  lemma ExampleComesBack()
    ensures PortableExport.Export(Machine(), SYNCED).Some?
    ensures Resolve(Machine(), PortableExport.Export(Machine(), SYNCED), PREFERENCES, Issue(), None, None).Some?
  {
    var env := Machine();
    ExampleIsWellFormed(SYNCED);
    var d := PortableExport.Export(env, SYNCED).value;
    ExampleIsUsable(env, d);
    PortableImport.ExportDeclaresIff(env, SYNCED, d, PREFERENCES, Issue());
    PortableImport.ExportResolvesIff(env, SYNCED, d, PREFERENCES, Issue());
  }

  lemma ExampleIsUsable(env: Environment, d: Declaration)
    requires env == Machine() && PortableExport.Export(env, SYNCED) == Some(d)
    ensures PortableImport.NewIds(Issue(), d) && PortableImport.Usable(env, SYNCED, PREFERENCES)
  {
    PortableRoundTrip.ExportedEntries(env, SYNCED, d);
  }
}

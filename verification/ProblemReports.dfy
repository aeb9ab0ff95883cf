/** Which findings a log has: what its lines say, read off the whole log and not byte by byte (problems.rs:234-513). */
module ProblemReports {
  import opened Faults
  import opened ControlStripper
  import opened RunLog
  import opened Problems
  import Unicode = Text

  // ---------------------------------------------------------------- what a line says

  datatype Line =
    | Diagnosis(file: Option<string>, line: Option<nat>, column: Option<nat>, severity: Severity, message: string)
    | TraceFrame(path: string, position: Option<nat>)
    | TraceHead
    | ErrorName(text: string, otherwise: Line)          // an error if a frame is remembered
    | FormMessage(position: Option<nat>, column: Option<nat>, message: string)
    | FormFile(path: string, otherwise: Line)           // an error if a message is remembered
    | Ordinary(text: string)
    | Unreadable
    | TooLong

  const PATTERNS := 10

  /** The patterns in the order of their precedence; some need a position to apply. */
  predicate Matches(g: Grammar, text: string, pattern: nat) {
    match pattern
    case 0 => g.compiler(text).Some? && g.compiler(text).value.line.Some?
    case 1 => g.cmake(text).Some? && g.cmake(text).value.line.Some?
    case 2 => g.make(text).Some?
    case 3 => g.pytest(text).Some? && g.pytest(text).value.line.Some?
    case 4 => g.frame(text).Some?
    case 5 => "Traceback (most recent call last)" <= text
    case 6 => g.pythonError(Trim(text))
    case 7 => g.uicError(text).Some?
    case 8 => g.uicFile(text).Some?
    case 9 => "Project ERROR:" <= text || "CMake Error:" <= text
    case _ => false
  }

  /** The first pattern that matches, among those from `from` on. */
  predicate First(g: Grammar, text: string, from: nat, pattern: nat) {
    from <= pattern && Matches(g, text, pattern) && forall k: nat :: from <= k < pattern ==> !Matches(g, text, k)
  }

  predicate IsCapture(line: Line, c: Capture, column: Option<nat>, severity: Severity) {
    line == Diagnosis(Some(c.file), c.line, column, severity, c.message)
  }

  /** The line says this when only the patterns from `from` on are considered. */
  ghost predicate Says(g: Grammar, text: string, from: nat, line: Line)
    decreases line
  {
    match line
    case Diagnosis(file, _, _, _, message) =>
      || (First(g, text, from, 0) && IsCapture(line, g.compiler(text).value, g.compiler(text).value.column, g.compiler(text).value.severity))
      || (First(g, text, from, 1) && IsCapture(line, g.cmake(text).value, None, g.cmake(text).value.severity))
      || (First(g, text, from, 2) && IsCapture(line, g.make(text).value, None, Error))
      || (First(g, text, from, 3) && IsCapture(line, g.pytest(text).value, None, Error))
      || (First(g, text, from, 9) && line == Diagnosis(None, None, None, Error, text))
    case TraceFrame(file, number) =>
      First(g, text, from, 4) && file == g.frame(text).value.file && number == g.frame(text).value.line
    case TraceHead => First(g, text, from, 5)
    case ErrorName(name, otherwise) => First(g, text, from, 6) && name == Trim(text) && Says(g, text, 7, otherwise)
    case FormMessage(number, column, message) =>
      First(g, text, from, 7) && Capture("", number, column, Error, message) == g.uicError(text).value.(file := "", severity := Error)
    case FormFile(file, otherwise) => First(g, text, from, 8) && file == g.uicFile(text).value && Says(g, text, 9, otherwise)
    case Ordinary(t) => t == text && forall k: nat :: from <= k < PATTERNS ==> !Matches(g, text, k)
    case Unreadable => false
    case TooLong => false
  }

  /** Every text says something, whatever the patterns are. */
  lemma {:induction false} EveryTextSays(g: Grammar, text: string, from: nat) returns (line: Line)
    requires from <= PATTERNS
    ensures Says(g, text, from, line)
    decreases PATTERNS - from
  {
    if k: nat :| from <= k < PATTERNS && First(g, text, from, k) {
      line := FirstSays(g, text, from, k);
    } else {
      NoneMatches(g, text, from, PATTERNS);
      line := Ordinary(text);
    }
  }

  lemma {:induction false} NoneMatches(g: Grammar, text: string, from: nat, to: nat)
    requires forall k: nat :: from <= k < to ==> !First(g, text, from, k)
    ensures forall k: nat :: from <= k < to ==> !Matches(g, text, k)
  {
    if from < to {
      NoneMatches(g, text, from, to - 1);
      assert !First(g, text, from, to - 1);
    }
  }

  lemma FirstSays(g: Grammar, text: string, from: nat, k: nat) returns (line: Line)
    requires from <= k < PATTERNS && First(g, text, from, k)
    ensures Says(g, text, from, line)
    decreases PATTERNS - from, 0
  {
    match k {
      case 0 => var c := g.compiler(text).value; line := Diagnosis(Some(c.file), c.line, c.column, c.severity, c.message);
      case 1 => var c := g.cmake(text).value; line := Diagnosis(Some(c.file), c.line, None, c.severity, c.message);
      case 2 => var c := g.make(text).value; line := Diagnosis(Some(c.file), c.line, None, Error, c.message);
      case 3 => var c := g.pytest(text).value; line := Diagnosis(Some(c.file), c.line, None, Error, c.message);
      case 4 => line := TraceFrame(g.frame(text).value.file, g.frame(text).value.line);
      case 5 => line := TraceHead;
      case 6 => var otherwise := EveryTextSays(g, text, 7); line := ErrorName(Trim(text), otherwise);
      case 7 => var c := g.uicError(text).value; line := FormMessage(c.line, c.column, c.message);
      case 8 => var otherwise := EveryTextSays(g, text, 9); line := FormFile(g.uicFile(text).value, otherwise);
      case _ => line := Diagnosis(None, None, None, Error, text);
    }
  }

  // ---------------------------------------------------------------- what a log reports

  /** A line and where it starts in the log. */
  datatype Entry = Entry(line: Line, at: nat)

  /** The last Python frame and the last message of the form compiler that are still waiting. */
  datatype Context = Context(frame: Option<Traced>, form: Option<Uic>)

  const NOTHING := Context(None, None)

  /** Without what it refers to, a line is what the later patterns make of it. */
  function Meant(line: Line, c: Context): (meant: Line)
    ensures meant.ErrorName? ==> c.frame.Some?
    ensures meant.FormFile? ==> c.form.Some?
    decreases line
  {
    if line.ErrorName? && c.frame.None? then Meant(line.otherwise, c)
    else if line.FormFile? && c.form.None? then Meant(line.otherwise, c)
    else line
  }

  /** A path of more than 4096 bytes is left out. */
  function Place(file: Option<string>): Option<string> {
    if file.Some? && Unicode.Utf8Length(file.value) > 4096 then None else file
  }

  /** What a line reports, without its details. */
  function ReportOf(e: Entry, c: Context): Option<Problem> {
    match Meant(e.line, c)
    case Diagnosis(file, line, column, severity, message) =>
      Some(Problem(Place(file), line, column, severity, Clip(message, 2048), [], e.at))
    case ErrorName(text, _) =>
      var frame := c.frame.value;
      Some(Problem(Place(Some(frame.file)), Some(frame.line), None, Error, Clip(text, 2048), [], frame.offset))
    case FormFile(file, _) =>
      var form := c.form.value;
      Some(Problem(Place(Some(file)), Some(form.line), form.column, Error, Clip(form.message, 2048), [], form.offset))
    case _ => None
  }

  function Remembering(e: Entry, c: Context): Context {
    match Meant(e.line, c)
    case TraceFrame(file, line) => c.(frame := if line.Some? then Some(Traced(file, line.value, e.at)) else None)
    case TraceHead => c.(frame := None)
    case ErrorName(_, _) => c.(frame := None)
    case FormMessage(line, column, message) =>
      c.(form := if line.Some? then Some(Uic(line.value, column, message, e.at)) else None)
    case FormFile(_, _) => c.(form := None)
    case Unreadable => NOTHING
    case TooLong => NOTHING
    case _ => c
  }

  predicate Blank(text: string) { Trim(text) == "" }

  /** The details of a finding before these lines: the indented ones, up to the first line that ends it. */
  function Following(es: seq<Entry>, c: Context): seq<string>
    decreases |es|
  {
    if es == [] then []
    else
      match Meant(es[0].line, c)
      case Ordinary(text) =>
        if Blank(text) then Following(es[1..], c)
        else if text != "" && Unicode.IsWhitespace(text[0]) then [Clip(text, 512)] + Following(es[1..], c)
        else []
      case TraceFrame(_, _) => Following(es[1..], Remembering(es[0], c))
      case FormMessage(_, _, _) => Following(es[1..], Remembering(es[0], c))
      case _ => []
  }

  /** One finding for each line that reports, in order, each with all its details. */
  function Reported(es: seq<Entry>, c: Context): seq<Problem>
    decreases |es|
  {
    if es == [] then []
    else
      var next := Remembering(es[0], c);
      var report := ReportOf(es[0], c);
      (if report.Some? then [report.value.(details := Following(es[1..], next))] else []) + Reported(es[1..], next)
  }

  function FirstFour(details: seq<string>): seq<string> {
    if |details| <= 4 then details else details[..4]
  }

  function Shortened(p: Problem): Problem { p.(details := FirstFour(p.details)) }

  /** A finding shows at most four details. */
  function Shown(problems: seq<Problem>): (shown: seq<Problem>)
    ensures |shown| == |problems| && forall i :: 0 <= i < |shown| ==> shown[i] == Shortened(problems[i])
  {
    seq(|problems|, i requires 0 <= i < |problems| => Shortened(problems[i]))
  }

  predicate Crowded(problems: seq<Problem>) {
    exists p :: p in problems && |p.details| > 4
  }

  /** At most 256 findings of 512 KiB of text in all. */
  predicate WithinBudget(problems: seq<Problem>) {
    |problems| <= 256 && RetainedSize(problems) <= 524_288
  }

  // ---------------------------------------------------------------- one line in the parser

  function ContextOf(f: Found): Context { Context(f.frame, f.uic) }

  /** What a line that says this does to what was found. */
  function Turned(f: Found, e: Entry): Found {
    var c := ContextOf(f);
    var next := Remembering(e, c);
    var kept := f.(frame := next.frame, uic := next.form);
    var report := ReportOf(e, c);
    if report.Some? then Added(kept, report.value)
    else
      match Meant(e.line, c)
      case Ordinary(text) => Continued(kept, text)
      case TraceHead => kept.(last := None)
      case Unreadable => kept.(last := None)
      case TooLong => kept.(last := None, limited := true)
      case _ => kept
  }

  /** A pattern that matches and finds what it refers to. */
  predicate Fires(g: Grammar, f: Found, text: string, k: nat) {
    Matches(g, text, k) && (k == 6 ==> f.frame.Some?) && (k == 8 ==> f.uic.Some?)
  }

  predicate Silent(g: Grammar, f: Found, text: string, to: nat) {
    forall k: nat :: k < to ==> !Fires(g, f, text, k)
  }

  /** What the parser decides when a pattern is the first that fires. */
  function ActionAt(g: Grammar, f: Found, text: string, at: nat, k: nat): Action
    requires Fires(g, f, text, k)
  {
    match k
    case 0 => Captured(g.compiler(text).value, at)
    case 1 => Captured(g.cmake(text).value.(column := None), at)
    case 2 => Captured(g.make(text).value.(column := None, severity := Error), at)
    case 3 => Captured(g.pytest(text).value.(column := None, severity := Error), at)
    case 4 =>
      var c := g.frame(text).value;
      RememberFrame(if c.line.Some? then Some(Traced(c.file, c.line.value, at)) else None)
    case 5 => ForgetTrace
    case 6 => ReportFrame(NewProblem(Some(f.frame.value.file), Some(f.frame.value.line), None, Error, Trim(text), f.frame.value.offset))
    case 7 =>
      var c := g.uicError(text).value;
      RememberUic(if c.line.Some? then Some(Uic(c.line.value, c.column, c.message, at)) else None)
    case 8 => ReportUic(NewProblem(Some(g.uicFile(text).value), Some(f.uic.value.line), f.uic.value.column, Error, f.uic.value.message, f.uic.value.offset))
    case _ => Report(NewProblem(None, None, None, Error, text, at))
  }

  lemma FirstFires(g: Grammar, f: Found, text: string, at: nat, k: nat)
    requires Fires(g, f, text, k) && Silent(g, f, text, k)
    ensures Decided(g, f, text, at) == ActionAt(g, f, text, at, k)
  {
    SilentBelow(g, f, text, k);
  }

  lemma SilentBelow(g: Grammar, f: Found, text: string, to: nat)
    requires Silent(g, f, text, to)
    ensures to > 0 ==> !Fires(g, f, text, 0)
    ensures to > 1 ==> !Fires(g, f, text, 1)
    ensures to > 2 ==> !Fires(g, f, text, 2)
    ensures to > 3 ==> !Fires(g, f, text, 3)
    ensures to > 4 ==> !Fires(g, f, text, 4)
    ensures to > 5 ==> !Fires(g, f, text, 5)
    ensures to > 6 ==> !Fires(g, f, text, 6)
    ensures to > 7 ==> !Fires(g, f, text, 7)
    ensures to > 8 ==> !Fires(g, f, text, 8)
    ensures to > 9 ==> !Fires(g, f, text, 9)
  {
  }

  lemma NothingFires(g: Grammar, f: Found, text: string, at: nat)
    requires Silent(g, f, text, PATTERNS)
    ensures Decided(g, f, text, at) == Continue
  {
    SilentBelow(g, f, text, PATTERNS);
  }

  lemma FirstIsSilent(g: Grammar, f: Found, text: string, from: nat, k: nat)
    requires Silent(g, f, text, from) && First(g, text, from, k)
    ensures Silent(g, f, text, k)
  {
  }

  lemma DiagnosisTurns(g: Grammar, f: Found, text: string, at: nat, line: Line, from: nat)
    requires line.Diagnosis? && Says(g, text, from, line) && Silent(g, f, text, from)
    ensures Parsed(g, f, text, at) == Turned(f, Entry(line, at))
  {
    var k: nat :| (k <= 3 || k == 9) && First(g, text, from, k) && DiagnosisFrom(g, text, line, k);
    FirstIsSilent(g, f, text, from, k);
    FirstFires(g, f, text, at, k);
    ReportTurns(f, text, at, line);
  }

  predicate DiagnosisFrom(g: Grammar, text: string, line: Line, k: nat)
    requires Matches(g, text, k)
  {
    match k
    case 0 => IsCapture(line, g.compiler(text).value, g.compiler(text).value.column, g.compiler(text).value.severity)
    case 1 => IsCapture(line, g.cmake(text).value, None, g.cmake(text).value.severity)
    case 2 => IsCapture(line, g.make(text).value, None, Error)
    case 3 => IsCapture(line, g.pytest(text).value, None, Error)
    case _ => line == Diagnosis(None, None, None, Error, text)
  }

  lemma ReportTurns(f: Found, text: string, at: nat, line: Line)
    requires line.Diagnosis?
    ensures Performed(f, Report(NewProblem(line.file, line.line, line.column, line.severity, line.message, at)), text)
         == Turned(f, Entry(line, at))
  {
  }

  lemma RememberedTurns(g: Grammar, f: Found, text: string, at: nat, line: Line, from: nat)
    requires line.TraceFrame? || line.TraceHead? || line.FormMessage?
    requires Says(g, text, from, line) && Silent(g, f, text, from)
    ensures Parsed(g, f, text, at) == Turned(f, Entry(line, at))
  {
    var k := if line.TraceFrame? then 4 else if line.TraceHead? then 5 else 7;
    FirstIsSilent(g, f, text, from, k);
    FirstFires(g, f, text, at, k);
  }

  lemma ErrorTurns(g: Grammar, f: Found, text: string, at: nat, line: Line, from: nat)
    requires line.ErrorName? && f.frame.Some?
    requires Says(g, text, from, line) && Silent(g, f, text, from)
    ensures Parsed(g, f, text, at) == Turned(f, Entry(line, at))
  {
    FirstIsSilent(g, f, text, from, 6);
    FirstFires(g, f, text, at, 6);
  }

  lemma FileTurns(g: Grammar, f: Found, text: string, at: nat, line: Line, from: nat)
    requires line.FormFile? && f.uic.Some?
    requires Says(g, text, from, line) && Silent(g, f, text, from)
    ensures Parsed(g, f, text, at) == Turned(f, Entry(line, at))
  {
    FirstIsSilent(g, f, text, from, 8);
    FirstFires(g, f, text, at, 8);
  }

  lemma OrdinaryTurns(g: Grammar, f: Found, text: string, at: nat, line: Line, from: nat)
    requires line.Ordinary?
    requires Says(g, text, from, line) && Silent(g, f, text, from)
    ensures Parsed(g, f, text, at) == Turned(f, Entry(line, at))
  {
    assert Silent(g, f, text, PATTERNS);
    NothingFires(g, f, text, at);
  }

  lemma SameMeaning(f: Found, a: Line, b: Line, at: nat)
    requires Meant(a, ContextOf(f)) == Meant(b, ContextOf(f))
    ensures Turned(f, Entry(a, at)) == Turned(f, Entry(b, at))
  {
  }

  /** The patterns before `from` did not fire: the line does what it says from there on. */
  lemma {:induction false} LineTurns(g: Grammar, f: Found, text: string, at: nat, line: Line, from: nat)
    requires Says(g, text, from, line) && Silent(g, f, text, from)
    ensures Parsed(g, f, text, at) == Turned(f, Entry(line, at))
    decreases line
  {
    if line.Diagnosis? {
      DiagnosisTurns(g, f, text, at, line, from);
    } else if line.ErrorName? && f.frame.Some? {
      ErrorTurns(g, f, text, at, line, from);
    } else if line.FormFile? && f.uic.Some? {
      FileTurns(g, f, text, at, line, from);
    } else if line.ErrorName? || line.FormFile? {
      var next := if line.ErrorName? then 7 else 9;
      assert Silent(g, f, text, next);
      LineTurns(g, f, text, at, line.otherwise, next);
      SameMeaning(f, line, line.otherwise, at);
    } else if line.Ordinary? {
      OrdinaryTurns(g, f, text, at, line, from);
    } else {
      RememberedTurns(g, f, text, at, line, from);
    }
  }
}

/** Findings read out of a log, byte by byte and within budgets (crates/idk/src/problems.rs:163-513). */
module Problems {
  import opened Faults
  import opened ControlStripper
  import opened RunLog
  import Text

  const MAX_LINE := 16 * 1024
  const MAX_PROBLEMS := 256
  const MAX_RETAINED := 512 * 1024
  const MAX_DETAILS := 4
  const MAX_MESSAGE := 2048
  const MAX_FILE := 4096
  const MAX_DETAIL := 512
  const MAX_ENCODED := 128 * 1024

  datatype Severity = Error | Warning | Note

  datatype Problem = Problem(
    file: Option<string>, line: Option<nat>, column: Option<nat>, severity: Severity, message: string,
    details: seq<string>, offset: nat)

  /** What one of the diagnostic patterns captures; the line is absent when it is no position. */
  datatype Capture = Capture(file: string, line: Option<nat>, column: Option<nat>, severity: Severity, message: string)

  datatype Traced = Traced(file: string, line: nat, offset: nat)

  datatype Uic = Uic(line: nat, column: Option<nat>, message: string, offset: nat)

  /** UTF-8 decoding and the patterns, which nothing here depends on. */
  datatype Grammar = Grammar(
    decode: seq<Byte> -> Option<string>,
    compiler: string -> Option<Capture>, cmake: string -> Option<Capture>, make: string -> Option<Capture>,
    pytest: string -> Option<Capture>, frame: string -> Option<Capture>, pythonError: string -> bool,
    uicError: string -> Option<Capture>, uicFile: string -> Option<string>)

  /** What the lines completed so far have left. */
  datatype Found = Found(
    problems: seq<Problem>, limited: bool, retained: nat, last: Option<nat>, frame: Option<Traced>, uic: Option<Uic>)

  datatype Parser = Parser(
    found: Found, partial: bool, line: seq<Byte>, lineOffset: nat, lineLimited: bool, ambiguous: bool,
    escape: Escape, removed: bool)

  const EMPTY := Parser(Found([], false, 0, None, None, None), false, [], 0, false, false, Plain, false)

  // ---------------------------------------------------------------- text

  /** Controls and bidirectional overrides; also the characters that may not be shown. */
  predicate Forbidden(c: char) {
    (Text.IsControl(c) && c != '\n' && c != '\t') || '\U{202A}' <= c <= '\U{202E}' || '\U{2066}' <= c <= '\U{2069}'
  }

  /** `safe_utf8`: forbidden characters go, and the text ends before the first character that does not fit. */
  function Clip(text: string, room: nat): string {
    if text == "" then ""
    else if Forbidden(text[0]) then Clip(text[1..], room)
    else if Text.Utf8Size(text[0]) > room then ""
    else [text[0]] + Clip(text[1..], room - Text.Utf8Size(text[0]))
  }

  lemma {:induction false} ClipFits(text: string, room: nat)
    ensures Text.Utf8Length(Clip(text, room)) <= room
    ensures forall c :: c in Clip(text, room) ==> !Forbidden(c)
  {
    if text != "" {
      if Forbidden(text[0]) {
        ClipFits(text[1..], room);
      } else if Text.Utf8Size(text[0]) <= room {
        var size := Text.Utf8Size(text[0]);
        ClipFits(text[1..], room - size);
        Text.Utf8LengthConcat([text[0]], Clip(text[1..], room - size));
        assert Text.Utf8Length([text[0]]) == Text.Utf8Length([text[0]][..0]) + size;
      }
    }
  }

  /** A line without forbidden characters that fits is parsed as it is: no path in it is altered. */
  lemma {:induction false} ClipExact(text: string, room: nat)
    requires forall c :: c in text ==> !Forbidden(c)
    requires Text.Utf8Length(text) <= room
    ensures Clip(text, room) == text
  {
    if text != "" {
      assert text == [text[0]] + text[1..];
      Text.Utf8LengthConcat([text[0]], text[1..]);
      assert Text.Utf8Length([text[0]]) == Text.Utf8Length([text[0]][..0]) + Text.Utf8Size(text[0]);
      ClipExact(text[1..], room - Text.Utf8Size(text[0]));
    }
  }

  function TrimStart(text: string): string {
    if text != "" && Text.IsWhitespace(text[0]) then TrimStart(text[1..]) else text
  }

  function TrimEnd(text: string): string {
    if text != "" && Text.IsWhitespace(text[|text| - 1]) then TrimEnd(text[..|text| - 1]) else text
  }

  function Trim(text: string): string { TrimEnd(TrimStart(text)) }

  function Size(text: string): nat { Text.Utf8Length(text) }

  // ---------------------------------------------------------------- one line

  function FittingFile(file: Option<string>): Option<string> {
    if file.Some? && Size(file.value) <= MAX_FILE then file else None
  }

  function NewProblem(file: Option<string>, line: Option<nat>, column: Option<nat>, severity: Severity, message: string, offset: nat): Problem {
    Problem(FittingFile(file), line, column, severity, Clip(message, MAX_MESSAGE), [], offset)
  }

  function TextSize(p: Problem): nat {
    Size(p.message) + if p.file.Some? then Size(p.file.value) else 0
  }

  /** `add`, after clipping. */
  function Added(f: Found, p: Problem): Found {
    if |f.problems| >= MAX_PROBLEMS || f.retained + TextSize(p) > MAX_RETAINED then f.(limited := true, last := None)
    else f.(problems := f.problems + [p], retained := f.retained + TextSize(p), last := Some(|f.problems|))
  }

  /** An indented line belongs to the last problem, while that has room. */
  function Detailed(f: Found, line: string): Found {
    if f.last.None? || f.last.value >= |f.problems| then f
    else
      var detail := Clip(line, MAX_DETAIL);
      var problem := f.problems[f.last.value];
      if |problem.details| < MAX_DETAILS && f.retained + Size(detail) <= MAX_RETAINED then
        f.(problems := f.problems[f.last.value := problem.(details := problem.details + [detail])],
           retained := f.retained + Size(detail))
      else f.(limited := true)
  }

  function Continued(f: Found, line: string): Found {
    if Trim(line) == "" then f
    else if line != "" && Text.IsWhitespace(line[0]) then Detailed(f, line) else f.(last := None)
  }

  /** What a line asks for. */
  datatype Action =
    | Report(p: Problem)
    | ReportFrame(p: Problem)       // with the remembered Python frame
    | ReportUic(p: Problem)         // with the remembered message of the form compiler
    | RememberFrame(t: Option<Traced>)
    | RememberUic(u: Option<Uic>)
    | ForgetTrace
    | Continue

  function Captured(c: Capture, at: nat): Action {
    Report(NewProblem(Some(c.file), c.line, c.column, c.severity, c.message, at))
  }

  /** `parse_line`: the first pattern that applies decides; a capture without a position falls through. */
  function Decided(g: Grammar, f: Found, line: string, at: nat): Action {
    var compiler, cmake, make, pytest := g.compiler(line), g.cmake(line), g.make(line), g.pytest(line);
    var frame, uicError, uicFile := g.frame(line), g.uicError(line), g.uicFile(line);
    if compiler.Some? && compiler.value.line.Some? then Captured(compiler.value, at)
    else if cmake.Some? && cmake.value.line.Some? then Captured(cmake.value.(column := None), at)
    else if make.Some? then Captured(make.value.(column := None, severity := Error), at)
    else if pytest.Some? && pytest.value.line.Some? then Captured(pytest.value.(column := None, severity := Error), at)
    else if frame.Some? then
      RememberFrame(if frame.value.line.Some? then Some(Traced(frame.value.file, frame.value.line.value, at)) else None)
    else if "Traceback (most recent call last)" <= line then ForgetTrace
    else if g.pythonError(Trim(line)) && f.frame.Some? then
      var t := f.frame.value;
      ReportFrame(NewProblem(Some(t.file), Some(t.line), None, Error, Trim(line), t.offset))
    else if uicError.Some? then
      var c := uicError.value;
      RememberUic(if c.line.Some? then Some(Uic(c.line.value, c.column, c.message, at)) else None)
    else if uicFile.Some? && f.uic.Some? then
      var u := f.uic.value;
      ReportUic(NewProblem(Some(uicFile.value), Some(u.line), u.column, Error, u.message, u.offset))
    else if "Project ERROR:" <= line || "CMake Error:" <= line then
      Report(NewProblem(None, None, None, Error, line, at))
    else Continue
  }

  function Performed(f: Found, action: Action, line: string): Found {
    match action
    case Report(p) => Added(f, p)
    case ReportFrame(p) => Added(f.(frame := None), p)
    case ReportUic(p) => Added(f.(uic := None), p)
    case RememberFrame(t) => f.(frame := t)
    case RememberUic(u) => f.(uic := u)
    case ForgetTrace => f.(frame := None, last := None)
    case Continue => Continued(f, line)
  }

  function Parsed(g: Grammar, f: Found, line: string, at: nat): Found {
    Performed(f, Decided(g, f, line, at), line)
  }

  predicate HasForbidden(text: string) {
    exists c :: c in text && Forbidden(c)
  }

  /** A refused line also ends what it might have continued. */
  function Forgotten(f: Found): Found { f.(frame := None, uic := None, last := None) }

  predicate Refused(g: Grammar, p: Parser) {
    p.lineLimited || p.ambiguous || g.decode(p.line).None? || HasForbidden(g.decode(p.line).value)
  }

  /** `complete_line`: a line that cannot be shown exactly is refused, not altered. */
  function Completed(g: Grammar, p: Parser): Parser {
    var text := g.decode(p.line);
    p.(line := [], lineLimited := false, ambiguous := false,
       removed := p.removed || (text.Some? && HasForbidden(text.value)),
       partial := p.partial || Refused(g, p),
       found := if Refused(g, p) then Forgotten(p.found) else Parsed(g, p.found, Clip(text.value, MAX_LINE), p.lineOffset))
  }

  // ---------------------------------------------------------------- bytes and chunks

  predicate Ambiguous(state: Escape, b: Byte) {
    state.Plain? && (b < 0x20 || b == 0x7f) && b != LF && b != CR && b != TAB && b != ESC
  }

  function Consumed(p: Parser, b: Byte): Parser {
    p.(ambiguous := p.ambiguous || Ambiguous(p.escape, b),
       escape := NextState(p.escape, b), removed := p.removed || Removes(p.escape, b))
  }

  /** One byte, which ends at `end` in the log. */
  function FedByte(g: Grammar, p: Parser, b: Byte, end: nat): Parser {
    var q := Consumed(p, b);
    var out := Output(p.escape, b);
    if out == [] then q
    else if out[0] == LF then Completed(g, q).(lineOffset := end)
    else if |q.line| < MAX_LINE then q.(line := q.line + out)
    else q.(lineLimited := true, found := q.found.(limited := true))
  }

  /** Bytes that start at `at` in the log. */
  function Fed(g: Grammar, p: Parser, bytes: seq<Byte>, at: nat): Parser
    decreases |bytes|
  {
    if bytes == [] then p else Fed(g, FedByte(g, p, bytes[0], at + 1), bytes[1..], at + 1)
  }

  /** A part of a log as it was read; without data when its encoding is invalid. */
  datatype Chunk = Chunk(d: LogDescriptor, offset: nat, next: nat, encoded: nat, data: Option<seq<Byte>>)

  predicate Accepts(run: nat, generation: nat, at: nat, c: Chunk) {
    && c.d.run == run && c.d.generation == generation
    && c.offset == at
    && c.encoded <= MAX_ENCODED
    && c.data.Some?
    && c.offset + |c.data.value| == c.next <= c.d.bytes
  }

  datatype ProblemSet = ProblemSet(problems: seq<Problem>, parsed: nat, limited: bool, partial: bool, removed: bool)

  /** `finish` after `parsed` bytes. */
  function Finished(g: Grammar, p: Parser, parsed: nat, d: LogDescriptor): ProblemSet {
    var q := Completed(g, p);
    ProblemSet(q.found.problems, parsed,
               q.found.limited || LimitedLog(d),
               q.partial || IncompleteRead(parsed, d) || !q.escape.Plain?,
               q.removed)
  }

  // ---------------------------------------------------------------- budgets

  function DetailsSize(details: seq<string>): nat {
    if details == [] then 0 else DetailsSize(details[..|details| - 1]) + Size(details[|details| - 1])
  }

  function ProblemSize(p: Problem): nat {
    TextSize(p) + DetailsSize(p.details)
  }

  function RetainedSize(problems: seq<Problem>): nat {
    if problems == [] then 0 else RetainedSize(problems[..|problems| - 1]) + ProblemSize(problems[|problems| - 1])
  }

  predicate SmallProblem(p: Problem) {
    && Size(p.message) <= MAX_MESSAGE
    && (p.file.Some? ==> Size(p.file.value) <= MAX_FILE)
    && |p.details| <= MAX_DETAILS
    && forall i :: 0 <= i < |p.details| ==> Size(p.details[i]) <= MAX_DETAIL
  }

  predicate SmallProblems(problems: seq<Problem>) {
    |problems| <= MAX_PROBLEMS && forall i :: 0 <= i < |problems| ==> SmallProblem(problems[i])
  }

  /** The counter is exact and within its budget, and so is everything that is kept. */
  predicate BoundedFound(f: Found) {
    && f.retained == RetainedSize(f.problems) <= MAX_RETAINED
    && SmallProblems(f.problems)
    && (f.last.Some? ==> f.last.value < |f.problems|)
  }

  predicate Bounded(p: Parser) {
    BoundedFound(p.found) && |p.line| <= MAX_LINE
  }

  predicate NewAndSmall(p: Problem) {
    SmallProblem(p) && p.details == []
  }

  lemma NewProblemFits(file: Option<string>, line: Option<nat>, column: Option<nat>, severity: Severity, message: string, offset: nat)
    ensures NewAndSmall(NewProblem(file, line, column, severity, message, offset))
  {
    ClipFits(message, MAX_MESSAGE);
  }

  lemma RetainedSnoc(problems: seq<Problem>, p: Problem)
    ensures RetainedSize(problems + [p]) == RetainedSize(problems) + ProblemSize(p)
  {
    assert (problems + [p])[..|problems|] == problems;
  }

  lemma AddedKeepsBounds(f: Found, p: Problem)
    requires BoundedFound(f) && NewAndSmall(p)
    ensures BoundedFound(Added(f, p))
  {
    RetainedSnoc(f.problems, p);
    assert ProblemSize(p) == TextSize(p);
  }

  lemma {:induction false} RetainedUpdate(problems: seq<Problem>, i: nat, p: Problem)
    requires i < |problems|
    ensures RetainedSize(problems[i := p]) + ProblemSize(problems[i]) == RetainedSize(problems) + ProblemSize(p)
  {
    var n := |problems| - 1;
    if i < n {
      assert problems[i := p][..n] == problems[..n][i := p];
      RetainedUpdate(problems[..n], i, p);
    } else {
      assert problems[i := p][..n] == problems[..n];
    }
  }

  lemma DetailAdds(p: Problem, detail: string)
    requires SmallProblem(p) && |p.details| < MAX_DETAILS && Size(detail) <= MAX_DETAIL
    ensures SmallProblem(p.(details := p.details + [detail]))
    ensures ProblemSize(p.(details := p.details + [detail])) == ProblemSize(p) + Size(detail)
  {
    assert (p.details + [detail])[..|p.details|] == p.details;
  }

  lemma DetailedKeepsBounds(f: Found, line: string)
    requires BoundedFound(f)
    ensures BoundedFound(Detailed(f, line))
  {
    var detail := Clip(line, MAX_DETAIL);
    ClipFits(line, MAX_DETAIL);
    if f.last.Some? && |f.problems[f.last.value].details| < MAX_DETAILS {
      var problem := f.problems[f.last.value];
      DetailAdds(problem, detail);
      RetainedUpdate(f.problems, f.last.value, problem.(details := problem.details + [detail]));
    }
  }

  predicate SmallAction(action: Action) {
    action.Report? || action.ReportFrame? || action.ReportUic? ==> NewAndSmall(action.p)
  }

  lemma DecidedIsSmall(g: Grammar, f: Found, line: string, at: nat)
    ensures SmallAction(Decided(g, f, line, at))
  {
    forall file, number, column, severity, message, offset
      ensures NewAndSmall(NewProblem(file, number, column, severity, message, offset))
    {
      NewProblemFits(file, number, column, severity, message, offset);
    }
  }

  lemma PerformedKeepsBounds(f: Found, action: Action, line: string)
    requires BoundedFound(f) && SmallAction(action)
    ensures BoundedFound(Performed(f, action, line))
  {
    match action
    case Report(p) => AddedKeepsBounds(f, p);
    case ReportFrame(p) => AddedKeepsBounds(f.(frame := None), p);
    case ReportUic(p) => AddedKeepsBounds(f.(uic := None), p);
    case Continue => DetailedKeepsBounds(f, line);
    case _ =>
  }

  lemma ParsedKeepsBounds(g: Grammar, f: Found, line: string, at: nat)
    requires BoundedFound(f)
    ensures BoundedFound(Parsed(g, f, line, at))
  {
    DecidedIsSmall(g, f, line, at);
    PerformedKeepsBounds(f, Decided(g, f, line, at), line);
  }

  lemma CompletedKeepsBounds(g: Grammar, p: Parser)
    requires Bounded(p)
    ensures Bounded(Completed(g, p))
  {
    if !Refused(g, p) {
      ParsedKeepsBounds(g, p.found, Clip(g.decode(p.line).value, MAX_LINE), p.lineOffset);
    }
  }

  lemma FedByteKeepsBounds(g: Grammar, p: Parser, b: Byte, end: nat)
    requires Bounded(p)
    ensures Bounded(FedByte(g, p, b, end))
  {
    var q := Consumed(p, b);
    assert Bounded(q);
    CompletedKeepsBounds(g, q);
    assert Bounded(q.(lineLimited := true, found := q.found.(limited := true)));
  }

  /** Whatever is fed, the budgets hold: 256 findings, 4 details each, 16 KiB lines, 512 KiB in all, counted exactly. */
  lemma {:induction false} FedKeepsBounds(g: Grammar, p: Parser, bytes: seq<Byte>, at: nat)
    requires Bounded(p)
    ensures Bounded(Fed(g, p, bytes, at))
    decreases |bytes|
  {
    if bytes != [] {
      FedByteKeepsBounds(g, p, bytes[0], at + 1);
      FedKeepsBounds(g, FedByte(g, p, bytes[0], at + 1), bytes[1..], at + 1);
    }
  }

  /** The budgets of every log, from its first byte on. */
  lemma BudgetsHold(g: Grammar, bytes: seq<Byte>)
    ensures Bounded(Fed(g, EMPTY, bytes, 0))
    ensures Bounded(Completed(g, Fed(g, EMPTY, bytes, 0)))
  {
    assert RetainedSize([]) == 0;
    FedKeepsBounds(g, EMPTY, bytes, 0);
    CompletedKeepsBounds(g, Fed(g, EMPTY, bytes, 0));
  }

  // ---------------------------------------------------------------- chunks

  lemma {:induction false} FedConcat(g: Grammar, p: Parser, a: seq<Byte>, b: seq<Byte>, at: nat)
    ensures Fed(g, p, a + b, at) == Fed(g, Fed(g, p, a, at), b, at + |a|)
    decreases |a|
  {
    if a == [] {
      assert a + b == b;
    } else {
      assert (a + b)[0] == a[0] && (a + b)[1..] == a[1..] + b;
      FedConcat(g, FedByte(g, p, a[0], at + 1), a[1..], b, at + 1);
    }
  }

  /** A parser and how far it has read. */
  datatype Reading = Reading(p: Parser, at: nat)

  /** The parser after pushing chunks one by one; none once a chunk is refused. */
  function Pushed(g: Grammar, run: nat, generation: nat, r: Reading, chunks: seq<Chunk>): Option<Reading>
    decreases |chunks|
  {
    if chunks == [] then Some(r)
    else if !Accepts(run, generation, r.at, chunks[0]) then None
    else Pushed(g, run, generation, Reading(Fed(g, r.p, chunks[0].data.value, r.at), chunks[0].next), chunks[1..])
  }

  function Contents(chunks: seq<Chunk>): seq<Byte> {
    if chunks == [] then [] else (if chunks[0].data.Some? then chunks[0].data.value else []) + Contents(chunks[1..])
  }

  lemma {:induction false} PushedIsFed(g: Grammar, run: nat, generation: nat, r: Reading, chunks: seq<Chunk>)
    requires Pushed(g, run, generation, r, chunks).Some?
    ensures Pushed(g, run, generation, r, chunks).value
         == Reading(Fed(g, r.p, Contents(chunks), r.at), r.at + |Contents(chunks)|)
    decreases |chunks|
  {
    if chunks != [] {
      var data := chunks[0].data.value;
      PushedIsFed(g, run, generation, Reading(Fed(g, r.p, data, r.at), chunks[0].next), chunks[1..]);
      FedConcat(g, r.p, data, Contents(chunks[1..]), r.at);
    }
  }

  /** Any two chunkings of one log give the same findings, and they are those of the log fed whole. */
  lemma ChunkingDoesNotMatter(g: Grammar, run: nat, generation: nat, a: seq<Chunk>, b: seq<Chunk>, d: LogDescriptor)
    requires Contents(a) == Contents(b)
    requires Pushed(g, run, generation, Reading(EMPTY, 0), a).Some? && Pushed(g, run, generation, Reading(EMPTY, 0), b).Some?
    ensures var ra, rb := Pushed(g, run, generation, Reading(EMPTY, 0), a).value, Pushed(g, run, generation, Reading(EMPTY, 0), b).value;
      && Finished(g, ra.p, ra.at, d) == Finished(g, rb.p, rb.at, d)
      && Finished(g, ra.p, ra.at, d) == Finished(g, Fed(g, EMPTY, Contents(a), 0), |Contents(a)|, d)
  {
    PushedIsFed(g, run, generation, Reading(EMPTY, 0), a);
    PushedIsFed(g, run, generation, Reading(EMPTY, 0), b);
  }

  /** A part that does not start where the last one ended is refused: logs with a gap are never combined. */
  lemma {:induction false} GapsAreRefused(g: Grammar, run: nat, generation: nat, r: Reading, chunks: seq<Chunk>, i: nat)
    requires i < |chunks| && Pushed(g, run, generation, r, chunks).Some?
    ensures chunks[i].offset == r.at + |Contents(chunks[..i])| && chunks[i].next == r.at + |Contents(chunks[..i + 1])|
    decreases |chunks|
  {
    var data := chunks[0].data.value;
    if i > 0 {
      GapsAreRefused(g, run, generation, Reading(Fed(g, r.p, data, r.at), chunks[0].next), chunks[1..], i - 1);
      assert chunks[..i][1..] == chunks[1..][..i - 1];
    }
    assert chunks[..i + 1][1..] == chunks[1..][..i];
  }
}

/** From the bytes of a log to its findings: one finding per reporting line, in order, with the place it names. */
module ProblemLog {
  import opened Faults
  import opened ControlStripper
  import opened RunLog
  import opened Problems
  import opened ProblemReports
  import opened ProblemFindings
  import Unicode = Text

  // ---------------------------------------------------------------- the lines of a log

  /** A line of the log with the byte that ends it, and what it says. */
  datatype LogLine = LogLine(bytes: seq<Byte>, end: Byte, says: Line)

  /** A control that no escape sequence explains is met on the way. */
  predicate Unexplained(state: Escape, bytes: seq<Byte>)
    decreases |bytes|
  {
    bytes != [] && (Ambiguous(state, bytes[0]) || Unexplained(NextState(state, bytes[0]), bytes[1..]))
  }

  /** The bytes of a line that are kept: at most 16 KiB of what is left without escape sequences. */
  function KeptBytes(bytes: seq<Byte>): seq<Byte> {
    if |Strip(bytes)| <= 16_384 then Strip(bytes) else Strip(bytes)[..16_384]
  }

  /** The text of a line, if it can be shown exactly. */
  function Readable(g: Grammar, bytes: seq<Byte>): Option<string> {
    var text := g.decode(KeptBytes(bytes));
    if Unexplained(Plain, bytes) || text.None? || HasForbidden(text.value) then None else text
  }

  /** The bytes hold one line, and it says what its text says. */
  ghost predicate IsLine(g: Grammar, l: LogLine) {
    && LF !in Strip(l.bytes)
    && if |Strip(l.bytes)| > 16_384 then l.says == TooLong
       else match Readable(g, l.bytes)
         case Some(text) => Says(g, text, 0, l.says)
         case None => l.says == Unreadable
  }

  /** Decoding makes no text longer than its bytes. */
  ghost predicate Decodes(g: Grammar) {
    forall bytes :: g.decode(bytes).Some? ==> Unicode.Utf8Length(g.decode(bytes).value) <= |bytes|
  }

  /** Whatever its bytes, a line says something. */
  lemma EveryLineSays(g: Grammar, bytes: seq<Byte>, end: Byte) returns (l: LogLine)
    requires LF !in Strip(bytes)
    ensures IsLine(g, l) && l.bytes == bytes && l.end == end
  {
    l := LogLine(bytes, end, if |Strip(bytes)| > 16_384 then TooLong else Unreadable);
    if |Strip(bytes)| <= 16_384 && Readable(g, bytes).Some? {
      var says := EveryTextSays(g, Readable(g, bytes).value, 0);
      l := l.(says := says);
    }
  }

  /** A line ends outside escape sequences, at a line feed or a carriage return. */
  predicate Ends(l: LogLine) {
    StateAfter(Plain, l.bytes) == Plain && (l.end == LF || l.end == CR)
  }

  ghost predicate AreLines(g: Grammar, lines: seq<LogLine>) {
    forall i :: 0 <= i < |lines| ==> IsLine(g, lines[i]) && Ends(lines[i])
  }

  function LogBytes(lines: seq<LogLine>): seq<Byte> {
    if lines == [] then [] else (lines[0].bytes + [lines[0].end]) + LogBytes(lines[1..])
  }

  /** What the lines say, each with the offset of its first byte. */
  function Entries(lines: seq<LogLine>, at: nat): seq<Entry>
    decreases |lines|
  {
    if lines == [] then [] else [Entry(lines[0].says, at)] + Entries(lines[1..], at + |lines[0].bytes| + 1)
  }

  predicate HidesSomething(g: Grammar, bytes: seq<Byte>) {
    RemovesFrom(Plain, bytes) || (g.decode(KeptBytes(bytes)).Some? && HasForbidden(g.decode(KeptBytes(bytes)).value))
  }

  // ---------------------------------------------------------------- feeding one line

  /** The parser at the start of a line. */
  function AtLine(f: Found, partial: bool, removed: bool, at: nat): Parser {
    Parser(f, partial, [], at, false, false, Plain, removed)
  }

  function Capped(line: seq<Byte>): seq<Byte> {
    if |line| <= MAX_LINE then line else line[..MAX_LINE]
  }

  /** The parser inside a line, with the bytes of the line so far stripped. */
  function Inside(p: Parser, bytes: seq<Byte>): Parser {
    var line := p.line + StripFrom(p.escape, bytes);
    var over := |line| > MAX_LINE;
    p.(line := Capped(line), escape := StateAfter(p.escape, bytes),
       ambiguous := p.ambiguous || Unexplained(p.escape, bytes), removed := p.removed || RemovesFrom(p.escape, bytes),
       lineLimited := p.lineLimited || over, found := p.found.(limited := p.found.limited || over))
  }

  /** One byte inside a line. */
  function InsideByte(p: Parser, b: Byte): Parser {
    var line := p.line + Output(p.escape, b);
    var over := |line| > MAX_LINE;
    p.(line := Capped(line), escape := NextState(p.escape, b),
       ambiguous := p.ambiguous || Ambiguous(p.escape, b), removed := p.removed || Removes(p.escape, b),
       lineLimited := p.lineLimited || over, found := p.found.(limited := p.found.limited || over))
  }

  lemma InsideOne(g: Grammar, p: Parser, b: Byte, end: nat)
    requires Output(p.escape, b) != [LF] && |p.line| <= MAX_LINE
    ensures FedByte(g, p, b, end) == InsideByte(p, b)
  {
    assert p.line + [] == p.line;
    assert |p.line| == MAX_LINE ==> forall c :: (p.line + [c])[..MAX_LINE] == p.line;
  }

  lemma CappedStep(line: seq<Byte>, out: seq<Byte>, rest: seq<Byte>)
    requires |line| <= MAX_LINE && |out| <= 1
    ensures Capped(Capped(line + out) + rest) == Capped(line + (out + rest))
    ensures |line + out| > MAX_LINE || |Capped(line + out) + rest| > MAX_LINE <==> |line + (out + rest)| > MAX_LINE
  {
    assert line + (out + rest) == (line + out) + rest;
    if |line + out| > MAX_LINE {
      assert (line + out)[..MAX_LINE] == line;
      assert (line + (out + rest))[..MAX_LINE] == line;
      assert (line + rest)[..MAX_LINE] == line;
    }
  }

  lemma InsideStep(p: Parser, bytes: seq<Byte>)
    requires bytes != [] && |p.line| <= MAX_LINE
    ensures Inside(InsideByte(p, bytes[0]), bytes[1..]) == Inside(p, bytes)
  {
    CappedStep(p.line, Output(p.escape, bytes[0]), StripFrom(NextState(p.escape, bytes[0]), bytes[1..]));
  }

  lemma NoBreak(state: Escape, bytes: seq<Byte>)
    requires bytes != [] && LF !in StripFrom(state, bytes)
    ensures Output(state, bytes[0]) != [LF] && LF !in StripFrom(NextState(state, bytes[0]), bytes[1..])
  {
    var out, rest := Output(state, bytes[0]), StripFrom(NextState(state, bytes[0]), bytes[1..]);
    assert StripFrom(state, bytes) == out + rest;
    assert forall b :: b in out || b in rest ==> b in out + rest;
    assert out == [LF] ==> LF in out;
  }

  lemma {:induction false} BytesOfLine(g: Grammar, p: Parser, bytes: seq<Byte>, at: nat)
    requires LF !in StripFrom(p.escape, bytes) && |p.line| <= MAX_LINE
    ensures Fed(g, p, bytes, at) == Inside(p, bytes)
    decreases |bytes|
  {
    if bytes == [] {
      assert p.line + [] == p.line;
    } else {
      NoBreak(p.escape, bytes);
      InsideOne(g, p, bytes[0], at + 1);
      InsideStep(p, bytes);
      BytesOfLine(g, InsideByte(p, bytes[0]), bytes[1..], at + 1);
    }
  }

  predicate NotShown(line: Line) { line.Unreadable? || line.TooLong? }

  /** The parser when a line is over: where it stood in an escape sequence stays. */
  function OverLine(f: Found, partial: bool, removed: bool, at: nat, escape: Escape): Parser {
    AtLine(f, partial, removed, at).(escape := escape)
  }

  lemma InsideLine(f: Found, partial: bool, removed: bool, at: nat, bytes: seq<Byte>)
    ensures Inside(AtLine(f, partial, removed, at), bytes)
         == Parser(f.(limited := f.limited || |Strip(bytes)| > MAX_LINE), partial, KeptBytes(bytes), at,
                   |Strip(bytes)| > MAX_LINE, Unexplained(Plain, bytes), StateAfter(Plain, bytes),
                   removed || RemovesFrom(Plain, bytes))
  {
    assert [] + Strip(bytes) == Strip(bytes);
  }

  lemma ReadableCompletes(g: Grammar, f: Found, at: nat, l: LogLine)
    requires Decodes(g) && IsLine(g, l) && |Strip(l.bytes)| <= MAX_LINE && Readable(g, l.bytes).Some?
    ensures Parsed(g, f, Clip(Readable(g, l.bytes).value, MAX_LINE), at) == Turned(f, Entry(l.says, at))
    ensures !NotShown(l.says)
  {
    var text := Readable(g, l.bytes).value;
    assert forall c :: c in text ==> !Forbidden(c);
    ClipExact(text, MAX_LINE);
    LineTurns(g, f, text, at, l.says, 0);
    SaysSomething(g, text, l.says);
  }

  /** Completing a line does what the line says; one that is not shown makes the findings partial. */
  lemma LineCompletes(g: Grammar, f: Found, partial: bool, removed: bool, at: nat, l: LogLine)
    requires Decodes(g) && IsLine(g, l)
    ensures Completed(g, Inside(AtLine(f, partial, removed, at), l.bytes))
         == OverLine(Turned(f, Entry(l.says, at)), partial || NotShown(l.says), removed || HidesSomething(g, l.bytes), at,
                     StateAfter(Plain, l.bytes))
  {
    var p := Inside(AtLine(f, partial, removed, at), l.bytes);
    InsideLine(f, partial, removed, at, l.bytes);
    if |Strip(l.bytes)| > MAX_LINE {
      TooLongTurns(f, at);
    } else if Readable(g, l.bytes).None? {
      UnreadableTurns(f, at);
    } else {
      ReadableCompletes(g, f, at, l);
    }
  }

  lemma TooLongTurns(f: Found, at: nat)
    ensures Turned(f, Entry(TooLong, at)) == Forgotten(f.(limited := true))
  {
  }

  lemma UnreadableTurns(f: Found, at: nat)
    ensures Turned(f, Entry(Unreadable, at)) == Forgotten(f)
  {
  }

  lemma SaysSomething(g: Grammar, text: string, line: Line)
    requires Says(g, text, 0, line)
    ensures !NotShown(line)
  {
  }

  lemma EndByte(g: Grammar, p: Parser, b: Byte, end: nat)
    requires p.escape == Plain && (b == LF || b == CR)
    ensures FedByte(g, p, b, end) == Completed(g, p).(lineOffset := end)
  {
  }

  lemma LineIsFed(g: Grammar, f: Found, partial: bool, removed: bool, at: nat, l: LogLine)
    requires Decodes(g) && IsLine(g, l) && Ends(l)
    ensures Fed(g, AtLine(f, partial, removed, at), l.bytes + [l.end], at)
         == AtLine(Turned(f, Entry(l.says, at)), partial || NotShown(l.says), removed || HidesSomething(g, l.bytes),
                   at + |l.bytes| + 1)
  {
    var p := AtLine(f, partial, removed, at);
    FedConcat(g, p, l.bytes, [l.end], at);
    BytesOfLine(g, p, l.bytes, at);
    var q, n := Inside(p, l.bytes), at + |l.bytes|;
    FedLast(g, q, l.end, n);
    EndByte(g, q, l.end, n + 1);
    LineCompletes(g, f, partial, removed, at, l);
  }

  lemma FedLast(g: Grammar, p: Parser, b: Byte, at: nat)
    ensures Fed(g, p, [b], at) == FedByte(g, p, b, at + 1)
  {
    assert [b][1..] == [];
    assert Fed(g, FedByte(g, p, b, at + 1), [], at + 1) == FedByte(g, p, b, at + 1);
  }

  // ---------------------------------------------------------------- feeding the log

  predicate AnyNotShown(lines: seq<LogLine>) {
    exists i :: 0 <= i < |lines| && NotShown(lines[i].says)
  }

  predicate AnyTooLong(lines: seq<LogLine>) {
    exists i :: 0 <= i < |lines| && lines[i].says.TooLong?
  }

  predicate AnyHides(g: Grammar, lines: seq<LogLine>) {
    exists i :: 0 <= i < |lines| && HidesSomething(g, lines[i].bytes)
  }

  lemma AnyFirst(g: Grammar, l: LogLine, rest: seq<LogLine>)
    ensures AnyNotShown([l] + rest) <==> NotShown(l.says) || AnyNotShown(rest)
    ensures AnyTooLong([l] + rest) <==> l.says.TooLong? || AnyTooLong(rest)
    ensures AnyHides(g, [l] + rest) <==> HidesSomething(g, l.bytes) || AnyHides(g, rest)
  {
    var all := [l] + rest;
    assert all[0] == l && forall i :: 0 <= i < |rest| ==> all[i + 1] == rest[i];
    assert forall i :: 0 < i < |all| ==> all[i] == rest[i - 1];
  }

  /** Where the parser stands at the start of a line. */
  datatype Standing = Standing(found: Found, partial: bool, removed: bool, at: nat) {
    function Parser(): Parser { AtLine(found, partial, removed, at) }
  }

  function Advanced(g: Grammar, s: Standing, l: LogLine): Standing {
    Standing(Turned(s.found, Entry(l.says, s.at)), s.partial || NotShown(l.says), s.removed || HidesSomething(g, l.bytes),
             s.at + |l.bytes| + 1)
  }

  function AdvancedAll(g: Grammar, s: Standing, lines: seq<LogLine>): Standing
    decreases |lines|
  {
    if lines == [] then s else AdvancedAll(g, Advanced(g, s, lines[0]), lines[1..])
  }

  lemma FedAfter(g: Grammar, p: Parser, a: seq<Byte>, b: seq<Byte>, at: nat, q: Parser)
    requires Fed(g, p, a, at) == q
    ensures Fed(g, p, a + b, at) == Fed(g, q, b, at + |a|)
  {
    FedConcat(g, p, a, b, at);
  }

  lemma OneLineIsFed(g: Grammar, s: Standing, l: LogLine)
    requires Decodes(g) && IsLine(g, l) && Ends(l)
    ensures Fed(g, s.Parser(), l.bytes + [l.end], s.at) == Advanced(g, s, l).Parser()
  {
    LineIsFed(g, s.found, s.partial, s.removed, s.at, l);
  }

  lemma FedOn(g: Grammar, s: Standing, t: Standing, line: seq<Byte>, tail: seq<Byte>)
    requires Fed(g, s.Parser(), line, s.at) == t.Parser() && t.at == s.at + |line|
    ensures Fed(g, s.Parser(), line + tail, s.at) == Fed(g, t.Parser(), tail, t.at)
  {
    FedAfter(g, s.Parser(), line, tail, s.at, t.Parser());
  }

  lemma FirstLineIsFed(g: Grammar, s: Standing, l: LogLine, tail: seq<Byte>)
    requires Decodes(g) && IsLine(g, l) && Ends(l)
    ensures Fed(g, s.Parser(), (l.bytes + [l.end]) + tail, s.at)
         == Fed(g, Advanced(g, s, l).Parser(), tail, Advanced(g, s, l).at)
  {
    OneLineIsFed(g, s, l);
    FedOn(g, s, Advanced(g, s, l), l.bytes + [l.end], tail);
  }

  lemma FirstOfLines(g: Grammar, lines: seq<LogLine>)
    requires AreLines(g, lines) && lines != []
    ensures IsLine(g, lines[0]) && Ends(lines[0]) && AreLines(g, lines[1..])
  {
  }

  lemma {:induction false} LinesAreFed(g: Grammar, s: Standing, lines: seq<LogLine>, tail: seq<Byte>)
    requires Decodes(g) && AreLines(g, lines)
    ensures Fed(g, s.Parser(), LogBytes(lines) + tail, s.at)
         == Fed(g, AdvancedAll(g, s, lines).Parser(), tail, AdvancedAll(g, s, lines).at)
    decreases |lines|
  {
    if lines == [] {
      assert LogBytes(lines) + tail == tail;
    } else {
      FirstOfLines(g, lines);
      var line := lines[0].bytes + [lines[0].end];
      assert LogBytes(lines) + tail == line + (LogBytes(lines[1..]) + tail);
      FirstLineIsFed(g, s, lines[0], LogBytes(lines[1..]) + tail);
      LinesAreFed(g, Advanced(g, s, lines[0]), lines[1..], tail);
    }
  }

  lemma {:induction false} AdvancedIs(g: Grammar, s: Standing, lines: seq<LogLine>)
    ensures AdvancedAll(g, s, lines)
         == Standing(TurnedAll(s.found, Entries(lines, s.at)), s.partial || AnyNotShown(lines), s.removed || AnyHides(g, lines),
                     s.at + |LogBytes(lines)|)
    decreases |lines|
  {
    if lines != [] {
      var l, rest := lines[0], lines[1..];
      AdvancedIs(g, Advanced(g, s, l), rest);
      AnyFirst(g, l, rest);
      assert [l] + rest == lines;
      assert Entries(lines, s.at)[1..] == Entries(rest, s.at + |l.bytes| + 1);
    }
  }

  lemma {:induction false} EntriesConcat(a: seq<LogLine>, b: seq<LogLine>, at: nat)
    ensures Entries(a + b, at) == Entries(a, at) + Entries(b, at + |LogBytes(a)|)
    decreases |a|
  {
    if a == [] {
      assert a + b == b;
    } else {
      assert (a + b)[0] == a[0] && (a + b)[1..] == a[1..] + b;
      EntriesConcat(a[1..], b, at + |a[0].bytes| + 1);
    }
  }

  lemma {:induction false} TurnedConcat(f: Found, a: seq<Entry>, b: seq<Entry>)
    ensures TurnedAll(f, a + b) == TurnedAll(TurnedAll(f, a), b)
    decreases |a|
  {
    if a == [] {
      assert a + b == b;
    } else {
      assert (a + b)[0] == a[0] && (a + b)[1..] == a[1..] + b;
      TurnedConcat(Turned(f, a[0]), a[1..], b);
    }
  }

  const START := Found([], false, 0, None, None, None)

  /** A whole log: its lines, and what follows the last line end. */
  ghost predicate IsLog(g: Grammar, lines: seq<LogLine>, last: LogLine) {
    Decodes(g) && AreLines(g, lines) && IsLine(g, last)
  }

  /** The first line of some bytes ends where stripping gives the first line feed. */
  lemma {:induction false} FirstBreak(state: Escape, bytes: seq<Byte>) returns (k: nat)
    requires LF in StripFrom(state, bytes)
    ensures k < |bytes| && (bytes[k] == LF || bytes[k] == CR)
    ensures StateAfter(state, bytes[..k]) == Plain && LF !in StripFrom(state, bytes[..k])
    decreases |bytes|
  {
    var out, rest := Output(state, bytes[0]), StripFrom(NextState(state, bytes[0]), bytes[1..]);
    assert StripFrom(state, bytes) == out + rest;
    if LF in out {
      k := 0;
    } else {
      assert LF in rest;
      var j := FirstBreak(NextState(state, bytes[0]), bytes[1..]);
      k := j + 1;
      assert bytes[..k][0] == bytes[0] && bytes[..k][1..] == bytes[1..][..j];
      assert StripFrom(state, bytes[..k]) == out + StripFrom(NextState(state, bytes[0]), bytes[1..][..j]);
    }
  }

  lemma SplitAt(bytes: seq<Byte>, k: nat, middle: seq<Byte>, end: seq<Byte>)
    requires k < |bytes| && middle + end == bytes[k + 1..]
    ensures ((bytes[..k] + [bytes[k]]) + middle) + end == bytes
  {
  }

  lemma LogGrows(g: Grammar, first: LogLine, rest: seq<LogLine>, last: LogLine)
    requires IsLog(g, rest, last) && IsLine(g, first) && Ends(first)
    ensures IsLog(g, [first] + rest, last)
    ensures LogBytes([first] + rest) == (first.bytes + [first.end]) + LogBytes(rest)
  {
    var lines := [first] + rest;
    assert lines[1..] == rest;
    assert forall i :: 0 < i < |lines| ==> lines[i] == rest[i - 1];
  }

  /** Every log is one of these: any bytes are lines, each of which says something, and a last line without an end. */
  lemma {:induction false} EveryLogHasLines(g: Grammar, bytes: seq<Byte>) returns (lines: seq<LogLine>, last: LogLine)
    requires Decodes(g)
    ensures IsLog(g, lines, last) && LogBytes(lines) + last.bytes == bytes
    decreases |bytes|
  {
    if LF in Strip(bytes) {
      var k := FirstBreak(Plain, bytes);
      var first := EveryLineSays(g, bytes[..k], bytes[k]);
      var rest;
      rest, last := EveryLogHasLines(g, bytes[k + 1..]);
      lines := [first] + rest;
      LogGrows(g, first, rest, last);
      SplitAt(bytes, k, LogBytes(rest), last.bytes);
    } else {
      last := EveryLineSays(g, bytes, LF);
      lines := [];
      assert [] + bytes == bytes;
    }
  }

  lemma LastLineCompletes(g: Grammar, s: Standing, l: LogLine)
    requires Decodes(g) && IsLine(g, l)
    ensures Completed(g, Fed(g, s.Parser(), l.bytes, s.at))
         == Advanced(g, s, l).(at := s.at).Parser().(escape := StateAfter(Plain, l.bytes))
  {
    BytesOfLine(g, s.Parser(), l.bytes, s.at);
    LineCompletes(g, s.found, s.partial, s.removed, s.at, l);
  }

  const BEGINNING := Standing(START, false, false, 0)

  lemma LogIsAdvanced(g: Grammar, s: Standing, lines: seq<LogLine>, last: LogLine)
    requires Decodes(g) && AreLines(g, lines) && IsLine(g, last)
    ensures var t := AdvancedAll(g, s, lines);
      Completed(g, Fed(g, s.Parser(), LogBytes(lines) + last.bytes, s.at))
      == Advanced(g, t, last).(at := t.at).Parser().(escape := StateAfter(Plain, last.bytes))
  {
    LinesAreFed(g, s, lines, last.bytes);
    LastLineCompletes(g, AdvancedAll(g, s, lines), last);
  }

  lemma LogIsFed(g: Grammar, lines: seq<LogLine>, last: LogLine)
    requires IsLog(g, lines, last)
    ensures Completed(g, Fed(g, EMPTY, LogBytes(lines) + last.bytes, 0))
         == OverLine(TurnedAll(START, Entries(lines + [last], 0)), AnyNotShown(lines + [last]), AnyHides(g, lines + [last]),
                     |LogBytes(lines)|, StateAfter(Plain, last.bytes))
  {
    assert EMPTY == BEGINNING.Parser();
    LogIsAdvanced(g, BEGINNING, lines, last);
    AdvancedIs(g, BEGINNING, lines);
    LastEntry(lines, last);
    AnyLast(g, lines, last);
  }

  lemma LastEntry(lines: seq<LogLine>, last: LogLine)
    ensures TurnedAll(START, Entries(lines + [last], 0))
         == Turned(TurnedAll(START, Entries(lines, 0)), Entry(last.says, |LogBytes(lines)|))
  {
    var at := |LogBytes(lines)|;
    EntriesConcat(lines, [last], 0);
    assert Entries([last], at) == [Entry(last.says, at)] by { assert Entries([last][1..], at + |last.bytes| + 1) == []; }
    TurnedConcat(START, Entries(lines, 0), [Entry(last.says, at)]);
    OneTurn(TurnedAll(START, Entries(lines, 0)), Entry(last.says, at));
  }

  lemma OneTurn(f: Found, e: Entry)
    ensures TurnedAll(f, [e]) == Turned(f, e)
  {
    assert [e][1..] == [];
    assert TurnedAll(Turned(f, e), []) == Turned(f, e);
  }

  lemma AnyLast(g: Grammar, lines: seq<LogLine>, last: LogLine)
    ensures AnyNotShown(lines + [last]) <==> AnyNotShown(lines) || NotShown(last.says)
    ensures AnyHides(g, lines + [last]) <==> AnyHides(g, lines) || HidesSomething(g, last.bytes)
  {
    var all := lines + [last];
    assert all[|lines|] == last && forall i :: 0 <= i < |lines| ==> all[i] == lines[i];
  }

  // ---------------------------------------------------------------- the findings of the log

  /** What the lines of a log report, from its first byte on. */
  function ReportedBy(lines: seq<LogLine>): seq<Problem> {
    Reported(Entries(lines, 0), NOTHING)
  }

  lemma StartExpects(es: seq<Entry>)
    ensures Tidy(START) && Expected(START, es) == Shown(Reported(es, NOTHING))
    ensures Overfull(START, es) <==> Crowded(Reported(es, NOTHING)) || Overlong(es, NOTHING)
  {
    assert RetainedSize([]) == 0;
    assert [] + Shown(Reported(es, NOTHING)) == Shown(Reported(es, NOTHING));
  }

  lemma {:induction false} MeantShort(g: Grammar, text: string, from: nat, line: Line, c: Context)
    requires Says(g, text, from, line)
    ensures !Meant(line, c).TooLong?
    decreases line
  {
    if line.ErrorName? {
      MeantShort(g, text, 7, line.otherwise, c);
    } else if line.FormFile? {
      MeantShort(g, text, 9, line.otherwise, c);
    }
  }

  lemma MeantTooLong(g: Grammar, l: LogLine, c: Context)
    requires IsLine(g, l)
    ensures Meant(l.says, c).TooLong? <==> l.says.TooLong?
  {
    if !NotShown(l.says) {
      MeantShort(g, Readable(g, l.bytes).value, 0, l.says, c);
    }
  }

  lemma {:induction false} OverlongIff(g: Grammar, lines: seq<LogLine>, at: nat, c: Context)
    requires forall l :: l in lines ==> IsLine(g, l)
    ensures Overlong(Entries(lines, at), c) <==> AnyTooLong(lines)
    decreases |lines|
  {
    if lines != [] {
      var l, rest := lines[0], lines[1..];
      MeantTooLong(g, l, c);
      OverlongIff(g, rest, at + |l.bytes| + 1, Remembering(Entry(l.says, at), c));
      AnyFirst(g, l, rest);
      assert [l] + rest == lines;
      OverlongFirst(Entry(l.says, at), Entries(rest, at + |l.bytes| + 1), c);
    }
  }

  lemma FewDetails(problems: seq<Problem>)
    requires !Crowded(problems)
    ensures Shown(problems) == problems
  {
    forall i | 0 <= i < |problems| ensures Shortened(problems[i]) == problems[i] {
      assert problems[i] in problems;
    }
  }

  /**
   The findings of a log, whatever the patterns are: within the budgets one for each line that reports, in order, at
   the place, with the severity and the clipped message that its text names and the offset where it starts, and with
   the first four of the indented lines that follow it.
   */
  lemma FindingsAreReported(g: Grammar, lines: seq<LogLine>, last: LogLine, d: LogDescriptor)
    requires IsLog(g, lines, last) && WithinBudget(Shown(ReportedBy(lines + [last])))
    ensures var log := LogBytes(lines) + last.bytes;
            Finished(g, Fed(g, EMPTY, log, 0), |log|, d).problems == Shown(ReportedBy(lines + [last]))
  {
    LogIsFed(g, lines, last);
    StartExpects(Entries(lines + [last], 0));
    AllLines(START, Entries(lines + [last], 0));
  }

  /** Findings that are not called limited are all that the lines report, with every detail. */
  lemma UnlimitedFindingsAreAll(g: Grammar, lines: seq<LogLine>, last: LogLine, d: LogDescriptor)
    requires IsLog(g, lines, last)
    ensures var log := LogBytes(lines) + last.bytes;
            var r := Finished(g, Fed(g, EMPTY, log, 0), |log|, d);
            !r.limited ==> r.problems == ReportedBy(lines + [last])
  {
    LimitedIff(g, lines, last, d);
    var log := LogBytes(lines) + last.bytes;
    if !Finished(g, Fed(g, EMPTY, log, 0), |log|, d).limited {
      FindingsAreReported(g, lines, last, d);
      FewDetails(ReportedBy(lines + [last]));
    }
  }

  /**
   They are called limited exactly if the log is, one of its lines is too long, the reports exceed the budgets, or one
   has a fifth detail.
   */
  lemma LimitedIff(g: Grammar, lines: seq<LogLine>, last: LogLine, d: LogDescriptor)
    requires IsLog(g, lines, last)
    ensures var log := LogBytes(lines) + last.bytes;
            var reported := ReportedBy(lines + [last]);
            Finished(g, Fed(g, EMPTY, log, 0), |log|, d).limited
            <==> LimitedLog(d) || AnyTooLong(lines + [last]) || !WithinBudget(Shown(reported)) || Crowded(reported)
  {
    LogIsFed(g, lines, last);
    OverlongIff(g, lines + [last], 0, NOTHING);
    BudgetsHold(g, LogBytes(lines) + last.bytes);
    FlaggedIff(Entries(lines + [last], 0));
  }

  lemma FlaggedIff(es: seq<Entry>)
    requires WithinBudget(TurnedAll(START, es).problems)
    ensures var reported := Reported(es, NOTHING);
            TurnedAll(START, es).limited <==> !WithinBudget(Shown(reported)) || Crowded(reported) || Overlong(es, NOTHING)
  {
    StartExpects(es);
    if WithinBudget(Shown(Reported(es, NOTHING))) {
      AllLines(START, es);
    } else if !TurnedAll(START, es).limited {
      UnflaggedLines(START, es);
      assert false;
    }
  }

  /**
   They are called partial exactly if the log is read incompletely or ends inside an escape sequence, or one of its
   lines cannot be shown exactly.
   */
  lemma PartialIff(g: Grammar, lines: seq<LogLine>, last: LogLine, d: LogDescriptor)
    requires IsLog(g, lines, last)
    ensures var log := LogBytes(lines) + last.bytes;
            var r := Finished(g, Fed(g, EMPTY, log, 0), |log|, d);
            && (r.partial <==> IncompleteRead(|log|, d) || StateAfter(Plain, last.bytes) != Plain || AnyNotShown(lines + [last]))
            && (r.removed <==> AnyHides(g, lines + [last]))
  {
    LogIsFed(g, lines, last);
  }
}

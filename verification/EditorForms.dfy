/** Every editor command as written text: which forms there are, and what each is read as (editor.rs:558-610). */
module EditorForms {
  import opened Faults
  import opened EditorArgv
  import Text

  // ---------------------------------------------------------------- the written forms

  /** Between double quotes: a character as it is, or a backslash before any character. */
  datatype Inner = Plain(c: char) | AfterBackslash(c: char)

  /** A word is made of these, in any order and without anything between them. */
  datatype Piece = Bare(c: char) | Escaped(c: char) | Single(text: string) | Double(items: seq<Inner>)

  /** A word and the white space after it. */
  datatype Word = Word(pieces: seq<Piece>, gap: string)

  /** What can be missing at the end of a command. */
  datatype Tail = Complete | OpenSingle(text: string) | OpenDouble(items: seq<Inner>) | Cut | CutDouble(items: seq<Inner>)

  datatype Command = Command(lead: string, words: seq<Word>, tail: Tail)

  predicate White(text: string) {
    forall c :: c in text ==> Text.IsWhitespace(c)
  }

  predicate ProperInner(items: seq<Inner>) {
    forall item :: item in items && item.Plain? ==> item.c != '\"' && item.c != '\\'
  }

  predicate ProperPiece(p: Piece) {
    match p
    case Bare(c) => !Text.IsWhitespace(c) && c != '\'' && c != '\"' && c != '\\'
    case Escaped(_) => true
    case Single(text) => '\'' !in text
    case Double(items) => ProperInner(items)
  }

  predicate ProperWord(w: Word) {
    w.pieces != [] && (forall p :: p in w.pieces ==> ProperPiece(p)) && White(w.gap)
  }

  /** White space separates words; behind the last one it may be missing. */
  predicate ProperWords(words: seq<Word>) {
    && (forall w :: w in words ==> ProperWord(w))
    && (forall i :: 0 <= i < |words| - 1 ==> words[i].gap != "")
  }

  predicate ProperTail(tail: Tail) {
    match tail
    case OpenSingle(text) => '\'' !in text
    case OpenDouble(items) => ProperInner(items)
    case CutDouble(items) => ProperInner(items)
    case _ => true
  }

  predicate Proper(c: Command) {
    White(c.lead) && ProperWords(c.words) && ProperTail(c.tail)
  }

  // ---------------------------------------------------------------- how they are written

  function InnerText(items: seq<Inner>): string {
    if items == [] then ""
    else (if items[0].Plain? then [items[0].c] else ['\\', items[0].c]) + InnerText(items[1..])
  }

  function PieceText(p: Piece): string {
    match p
    case Bare(c) => [c]
    case Escaped(c) => ['\\', c]
    case Single(text) => "'" + text + "'"
    case Double(items) => "\"" + InnerText(items) + "\""
  }

  function PiecesText(pieces: seq<Piece>): string {
    if pieces == [] then "" else PieceText(pieces[0]) + PiecesText(pieces[1..])
  }

  function WordsText(words: seq<Word>): string {
    if words == [] then "" else PiecesText(words[0].pieces) + (words[0].gap + WordsText(words[1..]))
  }

  function TailText(tail: Tail): string {
    match tail
    case Complete => ""
    case OpenSingle(text) => "'" + text
    case OpenDouble(items) => "\"" + InnerText(items)
    case Cut => "\\"
    case CutDouble(items) => "\"" + (InnerText(items) + "\\")
  }

  function CommandText(c: Command): string {
    c.lead + (WordsText(c.words) + TailText(c.tail))
  }

  // ---------------------------------------------------------------- what they mean

  /** A backslash quotes `$`, a backtick, `"` and itself; before any other character it stays. */
  function InnerMeaning(item: Inner): string {
    if item.AfterBackslash? && item.c !in "$`\"\\" then ['\\', item.c] else [item.c]
  }

  function InnerMeanings(items: seq<Inner>): string {
    if items == [] then "" else InnerMeaning(items[0]) + InnerMeanings(items[1..])
  }

  function PieceMeaning(p: Piece): string {
    match p
    case Bare(c) => [c]
    case Escaped(c) => [c]
    case Single(text) => text
    case Double(items) => InnerMeanings(items)
  }

  function PiecesMeaning(pieces: seq<Piece>): string {
    if pieces == [] then "" else PieceMeaning(pieces[0]) + PiecesMeaning(pieces[1..])
  }

  /** The arguments of a command: one for each word. */
  function Meanings(words: seq<Word>): (args: seq<string>)
    ensures |args| == |words| && forall i :: 0 <= i < |args| ==> args[i] == PiecesMeaning(words[i].pieces)
  {
    seq(|words|, i requires 0 <= i < |words| => PiecesMeaning(words[i].pieces))
  }

  predicate Small(args: seq<string>) {
    |args| <= 64 && forall arg :: arg in args ==> Text.Utf8Length(arg) <= 8192
  }

  // ---------------------------------------------------------------- reading one form

  /** The bounds, over all that was read so far. */
  predicate Fine(l: Lexer) {
    Small(l.args) && Text.Utf8Length(l.current) <= 8192
  }

  /** Reading goes on from here unless the bounds are exceeded. */
  function Onward(l: Lexer, rest: string): Option<Lexer> {
    if Fine(l) then Run(l, rest) else None
  }

  lemma OneStep(l: Lexer, s: string, next: Lexer, consumed: nat, rest: string)
    requires s != "" && Fine(l) && Step(l, s) == Some(Stepped(next, consumed)) && s[consumed..] == rest
    ensures Run(l, s) == Onward(next, rest)
  {
    assert next.args == l.args || next.args == l.args + [l.current];
  }

  lemma Grows(a: string, b: string)
    ensures Text.Utf8Length(a) <= Text.Utf8Length(a + b)
  {
    Text.Utf8LengthConcat(a, b);
  }

  /** What exceeds the bounds stays beyond them. */
  lemma NeverShrinks(l: Lexer, more: string)
    ensures Fine(l.(current := l.current + more)) ==> Fine(l)
  {
    Grows(l.current, more);
  }

  lemma {:induction false} SingleRuns(l: Lexer, text: string, rest: string)
    requires l.quote == Some('\'') && Fine(l) && '\'' !in text
    ensures Run(l, text + rest) == Onward(l.(current := l.current + text), rest)
    decreases |text|
  {
    if text == "" {
      assert text + rest == rest && l.current + text == l.current;
    } else {
      var next := l.(current := l.current + [text[0]]);
      OneStep(l, text + rest, next, 1, text[1..] + rest) by {
        assert (text + rest)[1..] == text[1..] + rest;
        assert (text + rest)[0] == text[0] && text[0] in text;
      }
      Joins(l.current, [text[0]], text[1..], text);
      if Fine(next) {
        SingleRuns(next, text[1..], rest);
      } else {
        NeverShrinks(next, text[1..]);
      }
    }
  }

  lemma Joins(a: string, b: string, c: string, whole: string)
    requires whole == b + c
    ensures a + whole == (a + b) + c
  {
  }

  lemma InnerStep(l: Lexer, item: Inner, rest: string)
    requires l.quote == Some('\"') && Fine(l) && ProperInner([item])
    ensures Run(l, InnerText([item]) + rest) == Onward(l.(current := l.current + InnerMeaning(item)), rest)
  {
    assert item in [item];
    assert InnerText([item][1..]) == "";
    if item.Plain? {
      assert InnerText([item]) == [item.c];
      OneStep(l, [item.c] + rest, l.(current := l.current + [item.c]), 1, rest) by {
        assert ([item.c] + rest)[1..] == rest;
      }
    } else {
      assert InnerText([item]) == ['\\', item.c];
      BackslashStep(l, item.c, rest);
    }
  }

  lemma BackslashStep(l: Lexer, c: char, rest: string)
    requires l.quote == Some('\"') && Fine(l)
    ensures Run(l, ['\\', c] + rest) == Onward(l.(current := l.current + InnerMeaning(AfterBackslash(c))), rest)
  {
    var s := ['\\', c] + rest;
    assert s[0] == '\\' && s[1] == c && s[2..] == rest;
    EscapedMeaning(l.current, c);
    OneStep(l, s, l.(current := l.current + InnerMeaning(AfterBackslash(c))), 2, rest);
  }

  lemma EscapedMeaning(current: string, c: char)
    ensures current + (if Escapable(c) then [] else ['\\']) + [c] == current + InnerMeaning(AfterBackslash(c))
  {
    assert Escapable(c) <==> c in "$`\"\\";
    assert current + ['\\'] + [c] == current + ['\\', c] && current + [] + [c] == current + [c];
  }

  lemma InnerSplit(items: seq<Inner>, rest: string)
    requires items != []
    ensures InnerText(items) + rest == InnerText([items[0]]) + (InnerText(items[1..]) + rest)
  {
    assert InnerText([items[0]][1..]) == "";
  }

  lemma {:induction false} DoubleRuns(l: Lexer, items: seq<Inner>, rest: string)
    requires l.quote == Some('\"') && Fine(l) && ProperInner(items)
    ensures Run(l, InnerText(items) + rest) == Onward(l.(current := l.current + InnerMeanings(items)), rest)
    decreases |items|
  {
    if items == [] {
      assert InnerText(items) + rest == rest && l.current + InnerMeanings(items) == l.current;
    } else {
      var next := l.(current := l.current + InnerMeaning(items[0]));
      InnerSplit(items, rest);
      InnerStep(l, items[0], InnerText(items[1..]) + rest);
      Joins(l.current, InnerMeaning(items[0]), InnerMeanings(items[1..]), InnerMeanings(items));
      if Fine(next) {
        DoubleRuns(next, items[1..], rest);
      } else {
        NeverShrinks(next, InnerMeanings(items[1..]));
      }
    }
  }

  /** Opening a quote, whatever follows. */
  lemma QuoteOpens(l: Lexer, c: char, rest: string)
    requires l.quote == None && Fine(l) && (c == '\'' || c == '\"')
    ensures Run(l, [c] + rest) == Run(l.(quote := Some(c), active := true), rest)
  {
    OneStep(l, [c] + rest, l.(quote := Some(c), active := true), 1, rest) by {
      assert ([c] + rest)[1..] == rest;
    }
  }

  lemma QuoteCloses(l: Lexer, rest: string)
    requires l.quote.Some? && Fine(l)
    ensures Run(l, [l.quote.value] + rest) == Run(l.(quote := None), rest)
  {
    OneStep(l, [l.quote.value] + rest, l.(quote := None), 1, rest) by {
      assert ([l.quote.value] + rest)[1..] == rest;
    }
  }

  lemma SinglePiece(l: Lexer, text: string, rest: string)
    requires l.quote == None && Fine(l) && '\'' !in text
    ensures Run(l, PieceText(Single(text)) + rest) == Onward(l.(current := l.current + text, active := true), rest)
  {
    assert PieceText(Single(text)) + rest == ['\''] + (text + (['\''] + rest));
    QuoteOpens(l, '\'', text + (['\''] + rest));
    var open := l.(quote := Some('\''), active := true);
    SingleRuns(open, text, ['\''] + rest);
    var read := open.(current := l.current + text);
    if Fine(read) {
      QuoteCloses(read, rest);
    }
  }

  lemma DoublePiece(l: Lexer, items: seq<Inner>, rest: string)
    requires l.quote == None && Fine(l) && ProperInner(items)
    ensures Run(l, PieceText(Double(items)) + rest)
         == Onward(l.(current := l.current + InnerMeanings(items), active := true), rest)
  {
    assert PieceText(Double(items)) + rest == ['\"'] + (InnerText(items) + (['\"'] + rest));
    QuoteOpens(l, '\"', InnerText(items) + (['\"'] + rest));
    var open := l.(quote := Some('\"'), active := true);
    DoubleRuns(open, items, ['\"'] + rest);
    var read := open.(current := l.current + InnerMeanings(items));
    if Fine(read) {
      QuoteCloses(read, rest);
    }
  }

  /** Every piece adds its meaning to the word and leaves the quotes closed. */
  lemma PieceRuns(l: Lexer, p: Piece, rest: string)
    requires l.quote == None && Fine(l) && ProperPiece(p)
    ensures Run(l, PieceText(p) + rest) == Onward(l.(current := l.current + PieceMeaning(p), active := true), rest)
  {
    match p {
      case Bare(c) =>
        OneStep(l, [c] + rest, l.(current := l.current + [c], active := true), 1, rest) by { assert ([c] + rest)[1..] == rest; }
      case Escaped(c) =>
        var s := ['\\', c] + rest;
        assert s[0] == '\\' && s[1] == c && s[2..] == rest;
        OneStep(l, s, l.(current := l.current + [c], active := true), 2, rest);
      case Single(text) => SinglePiece(l, text, rest);
      case Double(items) => DoublePiece(l, items, rest);
    }
  }

  lemma {:induction false} PiecesRun(l: Lexer, pieces: seq<Piece>, rest: string)
    requires l.quote == None && Fine(l) && forall p :: p in pieces ==> ProperPiece(p)
    ensures Run(l, PiecesText(pieces) + rest)
         == Onward(l.(current := l.current + PiecesMeaning(pieces), active := l.active || pieces != []), rest)
    decreases |pieces|
  {
    if pieces == [] {
      assert PiecesText(pieces) + rest == rest && l.current + PiecesMeaning(pieces) == l.current;
    } else {
      var next := l.(current := l.current + PieceMeaning(pieces[0]), active := true);
      Associate(PieceText(pieces[0]), PiecesText(pieces[1..]), rest);
      PieceRuns(l, pieces[0], PiecesText(pieces[1..]) + rest);
      Joins(l.current, PieceMeaning(pieces[0]), PiecesMeaning(pieces[1..]), PiecesMeaning(pieces));
      if Fine(next) {
        PiecesRun(next, pieces[1..], rest);
      } else {
        NeverShrinks(next, PiecesMeaning(pieces[1..]));
      }
    }
  }

  // ---------------------------------------------------------------- reading words and white space

  /** White space after a word ends it; more of it changes nothing. */
  lemma {:induction false} SpaceRuns(l: Lexer, gap: string, rest: string)
    requires l.quote == None && Fine(l) && White(gap) && (!l.active ==> l.current == "")
    ensures Run(l, gap + rest)
         == Onward(if l.active && gap != "" then Lexer(l.args + [l.current], "", false, None) else l, rest)
    decreases |gap|
  {
    if gap == "" {
      assert gap + rest == rest;
    } else {
      var next := if l.active then Lexer(l.args + [l.current], "", false, None) else l;
      OneStep(l, gap + rest, next, 1, gap[1..] + rest) by {
        assert (gap + rest)[1..] == gap[1..] + rest && (gap + rest)[0] == gap[0] && gap[0] in gap;
        assert !Text.IsWhitespace('\'') && !Text.IsWhitespace('\"') && !Text.IsWhitespace('\\');
      }
      if Fine(next) {
        SpaceRuns(next, gap[1..], rest);
      }
    }
  }

  /** The state between words, after these arguments. */
  function Between(args: seq<string>): Lexer { Lexer(args, "", false, None) }

  /** The state after words: the last one is still open if no white space follows it. */
  function AfterWords(args: seq<string>, words: seq<Word>): Lexer {
    var all := args + Meanings(words);
    if words != [] && words[|words| - 1].gap == "" then Lexer(all[..|all| - 1], all[|all| - 1], true, None) else Between(all)
  }

  lemma WordRuns(args: seq<string>, w: Word, rest: string)
    requires Small(args) && ProperWord(w)
    ensures Run(Between(args), PiecesText(w.pieces) + (w.gap + rest)) == Onward(AfterWords(args, [w]), rest)
  {
    var meaning := PiecesMeaning(w.pieces);
    assert "" + meaning == meaning;
    PiecesRun(Between(args), w.pieces, w.gap + rest);
    var read := Lexer(args, meaning, true, None);
    assert Meanings([w]) == [meaning];
    assert (args + [meaning])[..|args|] == args;
    if Fine(read) {
      SpaceRuns(read, w.gap, rest);
    } else {
      assert meaning in args + [meaning];
    }
  }

  lemma AfterOneMore(args: seq<string>, words: seq<Word>)
    requires words != []
    ensures AfterWords(args, words)
         == if |words| == 1 then AfterWords(args, [words[0]]) else AfterWords(args + [PiecesMeaning(words[0].pieces)], words[1..])
  {
    assert args + [PiecesMeaning(words[0].pieces)] + Meanings(words[1..]) == args + Meanings(words);
    if |words| == 1 {
      assert words == [words[0]];
    }
  }

  lemma FineArguments(args: seq<string>, words: seq<Word>)
    ensures Fine(AfterWords(args, words)) ==> Small(args)
  {
    var all := args + Meanings(words);
    assert forall arg :: arg in args ==> arg in all;
    if words != [] && words[|words| - 1].gap == "" {
      assert all[..|all| - 1] == args + Meanings(words)[..|words| - 1];
    }
  }

  lemma {:induction false} WordsRun(args: seq<string>, words: seq<Word>, rest: string)
    requires Small(args) && ProperWords(words)
    ensures Run(Between(args), WordsText(words) + rest) == Onward(AfterWords(args, words), rest)
    decreases |words|
  {
    if words == [] {
      assert WordsText(words) + rest == rest && args + Meanings(words) == args;
    } else {
      WordsSplit(words, rest);
      WordRuns(args, words[0], WordsText(words[1..]) + rest);
      AfterOneMore(args, words);
      if |words| == 1 {
        assert WordsText(words[1..]) + rest == rest;
      } else {
        var more := args + [PiecesMeaning(words[0].pieces)];
        assert AfterWords(args, [words[0]]) == Between(more) by { assert Meanings([words[0]]) == [PiecesMeaning(words[0].pieces)]; }
        FineArguments(more, words[1..]);
        if Small(more) {
          assert ProperWords(words[1..]);
          WordsRun(more, words[1..], rest);
        }
      }
    }
  }

  lemma WordsSplit(words: seq<Word>, rest: string)
    requires words != []
    ensures WordsText(words) + rest
         == PiecesText(words[0].pieces) + (words[0].gap + (WordsText(words[1..]) + rest))
  {
    Associate(PiecesText(words[0].pieces), words[0].gap + WordsText(words[1..]), rest);
    Associate(words[0].gap, WordsText(words[1..]), rest);
  }

  // ---------------------------------------------------------------- whole commands

  /** An end that is missing leaves a quote open or cuts an escape off. */
  lemma TailIsRefused(l: Lexer, tail: Tail)
    requires l.quote == None && Fine(l) && ProperTail(tail) && tail != Complete
    ensures var r := Run(l, TailText(tail)); r.Some? ==> Finished(r.value) == None
  {
    match tail {
      case OpenSingle(text) =>
        QuoteOpens(l, '\'', text);
        SingleRuns(l.(quote := Some('\''), active := true), text, "");
        assert text + "" == text;
      case OpenDouble(items) =>
        QuoteOpens(l, '\"', InnerText(items));
        DoubleRuns(l.(quote := Some('\"'), active := true), items, "");
        assert InnerText(items) + "" == InnerText(items);
      case Cut =>
      case CutDouble(items) =>
        QuoteOpens(l, '\"', InnerText(items) + "\\");
        DoubleRuns(l.(quote := Some('\"'), active := true), items, "\\");
      case Complete =>
    }
  }

  lemma SmallSnoc(args: seq<string>, last: string)
    ensures Small(args + [last]) <==> |args| < 64 && Small(args) && Text.Utf8Length(last) <= 8192
  {
    var all := args + [last];
    assert forall arg :: arg in all <==> arg in args || arg == last;
  }

  lemma OpenArguments(args: seq<string>, last: string)
    ensures var l := Lexer(args, last, true, None);
      (if Fine(l) then Finished(l) else None) == if Small(args + [last]) then Some(args + [last]) else None
  {
    SmallSnoc(args, last);
  }

  lemma NothingBefore(m: seq<string>)
    ensures [] + m == m
  {
  }

  lemma FrontAndLast(m: seq<string>)
    requires m != []
    ensures m == m[..|m| - 1] + [m[|m| - 1]]
  {
  }

  lemma AfterOpen(words: seq<Word>)
    requires words != [] && words[|words| - 1].gap == ""
    ensures var m := Meanings(words);
            AfterWords([], words) == Lexer(m[..|m| - 1], m[|m| - 1], true, None)
  {
    NothingBefore(Meanings(words));
  }

  lemma AfterClosed(words: seq<Word>)
    requires words == [] || words[|words| - 1].gap != ""
    ensures AfterWords([], words) == Between(Meanings(words))
  {
    NothingBefore(Meanings(words));
  }

  lemma ArgumentsAfter(words: seq<Word>)
    ensures var l := AfterWords([], words);
      (if Fine(l) then Finished(l) else None) == if Small(Meanings(words)) then Some(Meanings(words)) else None
  {
    var m := Meanings(words);
    if words != [] && words[|words| - 1].gap == "" {
      AfterOpen(words);
      FrontAndLast(m);
      OpenArguments(m[..|m| - 1], m[|m| - 1]);
    } else {
      AfterClosed(words);
      ClosedArguments(m);
    }
  }

  lemma ClosedArguments(args: seq<string>)
    ensures (if Fine(Between(args)) then Finished(Between(args)) else None) == if Small(args) then Some(args) else None
  {
  }

  /**
   What a command is read as, for every form it can have: the meanings of its words when nothing is missing at its
   end and the bounds of 16384 bytes, 64 arguments and 8192 bytes each are kept; otherwise it is refused.
   */
  lemma CommandIsRead(c: Command)
    requires Proper(c)
    ensures Tokens(CommandText(c)) ==
      if && Text.Utf8Length(CommandText(c)) <= 16384 && Text.NoControls(CommandText(c))
         && c.tail == Complete && Small(Meanings(c.words))
      then Some(Meanings(c.words)) else None
  {
    var l := AfterWords([], c.words);
    SpaceRuns(START, c.lead, WordsText(c.words) + TailText(c.tail));
    WordsRun([], c.words, TailText(c.tail));
    assert Run(START, CommandText(c)) == Onward(l, TailText(c.tail));
    ArgumentsAfter(c.words);
    if Fine(l) && c.tail != Complete {
      TailIsRefused(l, c.tail);
    }
  }

  // ---------------------------------------------------------------- no other commands

  /** The piece that a command starts with, or the tail that begins there. */
  lemma FirstPiece(value: string) returns (p: Option<Piece>, tail: Tail, rest: string)
    requires value != "" && !Text.IsWhitespace(value[0])
    ensures p.Some? ==> ProperPiece(p.value) && value == PieceText(p.value) + rest && |rest| < |value|
    ensures p.None? ==> ProperTail(tail) && value == TailText(tail)
  {
    var c := value[0];
    rest, tail := value[1..], Complete;
    assert value == [c] + rest;
    if c == '\'' {
      p, tail, rest := FirstSingle(rest);
    } else if c == '\"' {
      p, tail, rest := FirstDouble(rest);
    } else if c == '\\' {
      if rest == "" {
        p, tail := None, Cut;
      } else {
        p, rest := Some(Escaped(rest[0])), rest[1..];
        assert value == ['\\', value[1]] + rest;
      }
    } else {
      p := Some(Bare(c));
    }
  }

  lemma {:induction false} UntilQuote(value: string) returns (text: string, closed: bool, rest: string)
    ensures '\'' !in text && value == text + (if closed then ['\''] + rest else "")
  {
    if value == "" {
      text, closed, rest := "", false, "";
    } else if value[0] == '\'' {
      text, closed, rest := "", true, value[1..];
    } else {
      text, closed, rest := UntilQuote(value[1..]);
      text := [value[0]] + text;
      assert value == [value[0]] + value[1..];
    }
  }

  lemma FirstSingle(value: string) returns (p: Option<Piece>, tail: Tail, rest: string)
    ensures p.Some? ==> ProperPiece(p.value) && ['\''] + value == PieceText(p.value) + rest && |rest| < |value|
    ensures p.None? ==> ProperTail(tail) && ['\''] + value == TailText(tail)
  {
    var text, closed, left := UntilQuote(value);
    p, tail, rest := if closed then Some(Single(text)) else None, OpenSingle(text), left;
    assert ['\''] + (text + (['\''] + rest)) == PieceText(Single(text)) + rest;
    assert !closed ==> text == value;
  }

  /** `cut` says that the text ends in a backslash that quotes nothing. */
  lemma {:induction false} UntilDoubleQuote(value: string) returns (items: seq<Inner>, closed: bool, cut: bool, rest: string)
    ensures ProperInner(items)
    ensures value == InnerText(items) + (if closed then ['\"'] + rest else if cut then "\\" else "")
    decreases |value|
  {
    if value == "" {
      items, closed, cut, rest := [], false, false, "";
    } else if value[0] == '\"' {
      items, closed, cut, rest := [], true, false, value[1..];
    } else if value == "\\" {
      items, closed, cut, rest := [], false, true, "";
    } else {
      var first := if value[0] == '\\' then AfterBackslash(value[1]) else Plain(value[0]);
      var n := if value[0] == '\\' then 2 else 1;
      items, closed, cut, rest := UntilDoubleQuote(value[n..]);
      var more := if closed then ['\"'] + rest else if cut then "\\" else "";
      assert value == value[..n] + value[n..];
      assert value[..n] == InnerText([first]) by { assert InnerText([first][1..]) == ""; }
      assert ([first] + items)[1..] == items;
      InnerSplit([first] + items, more);
      items := [first] + items;
    }
  }

  lemma FirstDouble(value: string) returns (p: Option<Piece>, tail: Tail, rest: string)
    ensures p.Some? ==> ProperPiece(p.value) && ['\"'] + value == PieceText(p.value) + rest && |rest| < |value|
    ensures p.None? ==> ProperTail(tail) && ['\"'] + value == TailText(tail)
  {
    var items, closed, cut, left := UntilDoubleQuote(value);
    rest := left;
    p := if closed then Some(Double(items)) else None;
    tail := if cut then CutDouble(items) else OpenDouble(items);
    if closed {
      assert ['\"'] + (InnerText(items) + (['\"'] + rest)) == PieceText(Double(items)) + rest;
    } else {
      assert InnerText(items) + "" == InnerText(items);
    }
  }

  /** A piece before a command belongs to its first word, or is a word of its own. */
  function Prepended(p: Piece, c: Command): Command {
    if c.lead != "" || c.words == [] then c.(lead := "", words := [Word([p], c.lead)] + c.words)
    else c.(words := [c.words[0].(pieces := [p] + c.words[0].pieces)] + c.words[1..])
  }

  lemma PrependedIsProper(p: Piece, c: Command)
    requires Proper(c) && ProperPiece(p)
    ensures Proper(Prepended(p, c))
  {
    if c.lead == "" && c.words != [] {
      assert c.words[0] in c.words;
    }
  }

  lemma NewWordText(p: Piece, lead: string, words: seq<Word>)
    ensures WordsText([Word([p], lead)] + words) == PieceText(p) + (lead + WordsText(words))
  {
    assert ([Word([p], lead)] + words)[1..] == words;
    assert PiecesText([p]) == PieceText(p) by { assert PiecesText([p][1..]) == ""; }
  }

  lemma LongerWordText(p: Piece, words: seq<Word>)
    requires words != []
    ensures WordsText([words[0].(pieces := [p] + words[0].pieces)] + words[1..]) == PieceText(p) + WordsText(words)
  {
    var next := words[0].(pieces := [p] + words[0].pieces);
    assert ([p] + words[0].pieces)[1..] == words[0].pieces;
    assert ([next] + words[1..])[1..] == words[1..];
    Associate(PieceText(p), PiecesText(words[0].pieces), words[0].gap + WordsText(words[1..]));
  }

  lemma RegroupText(piece: string, lead: string, words: string, tail: string)
    ensures "" + ((piece + (lead + words)) + tail) == piece + (lead + (words + tail))
  {
    Associate(piece, lead + words, tail);
    Associate(lead, words, tail);
  }

  lemma PrependedText(p: Piece, c: Command)
    ensures CommandText(Prepended(p, c)) == PieceText(p) + CommandText(c)
  {
    if c.lead != "" || c.words == [] {
      NewWordText(p, c.lead, c.words);
      RegroupText(PieceText(p), c.lead, WordsText(c.words), TailText(c.tail));
    } else {
      LongerWordText(p, c.words);
      assert "" + WordsText(c.words) == WordsText(c.words);
      RegroupText(PieceText(p), "", WordsText(c.words), TailText(c.tail));
    }
  }

  /** Every text whatever is the text of one of these commands, so the reading above covers all inputs. */
  lemma {:induction false} EveryTextIsACommand(value: string) returns (c: Command)
    ensures Proper(c) && CommandText(c) == value
    decreases |value|
  {
    if value == "" {
      c := Command("", [], Complete);
    } else if Text.IsWhitespace(value[0]) {
      var rest := EveryTextIsACommand(value[1..]);
      c := rest.(lead := [value[0]] + rest.lead);
      Associate([value[0]], rest.lead, WordsText(rest.words) + TailText(rest.tail));
      assert value == [value[0]] + value[1..];
    } else {
      var p, tail, rest := FirstPiece(value);
      if p.None? {
        c := Command("", [], tail);
      } else {
        var following := EveryTextIsACommand(rest);
        c := Prepended(p.value, following);
        PrependedIsProper(p.value, following);
        PrependedText(p.value, following);
      }
    }
  }

  /** The command is written as these arguments and keeps every bound. */
  predicate Writes(c: Command, value: string, args: seq<string>) {
    && Proper(c) && c.tail == Complete && CommandText(c) == value && Meanings(c.words) == args
  }

  /** The tokenizer accepts exactly the visible commands within the bounds that end nothing open, with their meanings. */
  lemma AcceptedIff(value: string, args: seq<string>)
    ensures Tokens(value) == Some(args) <==>
      (&& Text.Utf8Length(value) <= 16384 && Text.NoControls(value) && Small(args)
       && exists c :: Writes(c, value, args))
  {
    if Tokens(value) == Some(args) {
      var c := EveryTextIsACommand(value);
      CommandIsRead(c);
      assert Writes(c, value, args);
    }
    if Text.Utf8Length(value) <= 16384 && Text.NoControls(value) && Small(args) && exists c :: Writes(c, value, args) {
      var c :| Writes(c, value, args);
      CommandIsRead(c);
    }
  }
}

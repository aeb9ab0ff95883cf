/**
 Splitting an editor command into its arguments (crates/idk/src/editor.rs:558-610), and the two quoters
 (crates/idk/src/discovery.rs:752-755, crates/idk/src/client.rs:483-492).
 */
module EditorArgv {
  import opened Faults
  import Text

  const MAX_COMMAND := 16 * 1024
  const MAX_ARGS := 64
  const MAX_ARG := 8192

  datatype Lexer = Lexer(args: seq<string>, current: string, active: bool, quote: Option<char>)

  datatype Stepped = Stepped(next: Lexer, consumed: nat)

  predicate InBounds(l: Lexer) {
    |l.args| <= MAX_ARGS && Text.Utf8Length(l.current) <= MAX_ARG
  }

  /** Characters that a backslash quotes between double quotes; before any other it stays. */
  predicate Escapable(c: char) {
    c == '$' || c == '`' || c == '\"' || c == '\\'
  }

  /** One turn of the loop; none when an escape is cut off. */
  function Step(l: Lexer, s: string): Option<Stepped>
    requires s != ""
  {
    var c := s[0];
    if l.quote.Some? && c == l.quote.value then Some(Stepped(l.(quote := None), 1))
    else if l.quote == Some('\'') then Some(Stepped(l.(current := l.current + [c]), 1))
    else if l.quote.Some? && c == '\\' then
      if |s| == 1 then None
      else Some(Stepped(l.(current := l.current + (if Escapable(s[1]) then [] else ['\\']) + [s[1]]), 2))
    else if l.quote.Some? then Some(Stepped(l.(current := l.current + [c]), 1))
    else if c == '\'' || c == '\"' then Some(Stepped(l.(quote := Some(c), active := true), 1))
    else if c == '\\' then
      if |s| == 1 then None else Some(Stepped(l.(current := l.current + [s[1]], active := true), 2))
    else if Text.IsWhitespace(c) then
      Some(Stepped(if l.active then l.(args := l.args + [l.current], current := "", active := false) else l, 1))
    else Some(Stepped(l.(current := l.current + [c], active := true), 1))
  }

  function Run(l: Lexer, s: string): Option<Lexer>
    decreases |s|
  {
    if s == "" then Some(l)
    else
      var step := Step(l, s);
      if step.None? || !InBounds(step.value.next) then None else Run(step.value.next, s[step.value.consumed..])
  }

  const START := Lexer([], "", false, None)

  function Finished(l: Lexer): Option<seq<string>> {
    if l.quote.Some? then None
    else
      var args := if l.active then l.args + [l.current] else l.args;
      if |args| > MAX_ARGS then None else Some(args)
  }

  function Tokens(value: string): Option<seq<string>> {
    if Text.Utf8Length(value) > MAX_COMMAND || !Text.NoControls(value) then None
    else
      var l := Run(START, value);
      if l.None? then None else Finished(l.value)
  }

  /** `parse_editor_argv`. */
  method ParseEditorArgv(value: string) returns (r: Option<seq<string>>)
    ensures r == Tokens(value)
  {
    if Text.Utf8Length(value) > MAX_COMMAND || !Text.NoControls(value) {
      return None;
    }
    var args: seq<string>, current: string, active, quote: Option<char> := [], "", false, None;
    var i := 0;
    assert value[0..] == value;
    while i < |value|
      invariant 0 <= i <= |value|
      invariant Run(Lexer(args, current, active, quote), value[i..]) == Run(START, value)
    {
      ghost var before := Lexer(args, current, active, quote);
      ghost var left := value[i..];
      assert left[0] == value[i] && (i + 1 < |value| ==> left[1] == value[i + 1]);
      assert left[1..] == value[i + 1..] && (i + 1 < |value| ==> left[2..] == value[i + 2..]);
      var c := value[i];
      i := i + 1;
      if quote.Some? && c == quote.value {
        quote := None;
      } else if quote == Some('\'') {
        current := current + [c];
      } else if quote.Some? && c == '\\' {
        if i == |value| {
          return None;
        }
        if !Escapable(value[i]) {
          current := current + ['\\'];
        }
        current := current + [value[i]];
        i := i + 1;
      } else if quote.Some? {
        current := current + [c];
      } else if c == '\'' || c == '\"' {
        quote, active := Some(c), true;
      } else if c == '\\' {
        if i == |value| {
          return None;
        }
        current, active := current + [value[i]], true;
        i := i + 1;
      } else if Text.IsWhitespace(c) {
        if active {
          args, current, active := args + [current], "", false;
        }
      } else {
        current, active := current + [c], true;
      }
      assert Step(before, left).Some? && Step(before, left).value.next == Lexer(args, current, active, quote);
      if |args| > MAX_ARGS || Text.Utf8Length(current) > MAX_ARG {
        return None;
      }
    }
    assert value[i..] == "";
    r := Finished(Lexer(args, current, active, quote));
  }

  // ---------------------------------------------------------------- the quoters

  datatype Quoter = QuoteArg | CommandWord

  /** How a quoter writes a single quote inside its single quotes. */
  function Apostrophe(q: Quoter): string {
    match q
    case QuoteArg => "'\\''"
    case CommandWord => "'\"'\"'"
  }

  function Written(q: Quoter, c: char): string {
    if c == '\'' then Apostrophe(q) else [c]
  }

  function Replaced(q: Quoter, value: string): string {
    if value == "" then "" else Written(q, value[0]) + Replaced(q, value[1..])
  }

  function Quoted(q: Quoter, value: string): string { "'" + Replaced(q, value) + "'" }

  /** Each argument quoted by either quoter, joined with spaces. */
  function Joined(words: seq<(Quoter, string)>): string {
    if words == [] then ""
    else if |words| == 1 then Quoted(words[0].0, words[0].1)
    else Quoted(words[0].0, words[0].1) + " " + Joined(words[1..])
  }

  function Arguments(words: seq<(Quoter, string)>): (args: seq<string>)
    ensures |args| == |words| && forall i :: 0 <= i < |args| ==> args[i] == words[i].1
  {
    seq(|words|, i requires 0 <= i < |words| => words[i].1)
  }

  // ---------------------------------------------------------------- the round trip

  lemma Once(l: Lexer, s: string, next: Lexer, consumed: nat)
    requires s != "" && Step(l, s) == Some(Stepped(next, consumed)) && InBounds(next)
    ensures Run(l, s) == Run(next, s[consumed..])
  {
  }

  /** The current argument never outgrows what it will become. */
  lemma Fits(current: string, more: string)
    requires Text.Utf8Length(current + more) <= MAX_ARG
    ensures Text.Utf8Length(current) <= MAX_ARG
    ensures more != "" ==> Text.Utf8Length(current + [more[0]]) <= MAX_ARG
  {
    Text.Utf8LengthConcat(current, more);
    if more != "" {
      assert more == [more[0]] + more[1..];
      Text.Utf8LengthConcat([more[0]], more[1..]);
      Text.Utf8LengthConcat(current, [more[0]]);
    }
  }

  lemma PlainCharacter(l: Lexer, c: char, rest: string)
    requires l.quote == Some('\'') && c != '\'' && InBounds(l.(current := l.current + [c]))
    ensures Run(l, [c] + rest) == Run(l.(current := l.current + [c]), rest)
  {
    assert ([c] + rest)[1..] == rest;
    Once(l, [c] + rest, l.(current := l.current + [c]), 1);
  }

  /** Inside single quotes: either way of writing one gives one, and the quotes are open again. */
  lemma QuotedApostrophe(q: Quoter, l: Lexer, rest: string)
    requires l.quote == Some('\'') && l.active && InBounds(l) && InBounds(l.(current := l.current + ['\'']))
    ensures Run(l, Apostrophe(q) + rest) == Run(l.(current := l.current + ['\'']), rest)
  {
    var with := l.(current := l.current + ['\'']);
    if q.QuoteArg? {
      assert "'\\''" + rest == ['\''] + (['\\', '\''] + (['\''] + rest));
      Closing(l, ['\\', '\''] + (['\''] + rest));
      assert (['\\', '\''] + (['\''] + rest))[2..] == ['\''] + rest;
      Once(l.(quote := None), ['\\', '\''] + (['\''] + rest), with.(quote := None), 2);
      Opening(with.(quote := None), '\'', rest);
    } else {
      assert "'\"'\"'" + rest == ['\''] + (['\"'] + (['\''] + (['\"'] + (['\''] + rest))));
      Closing(l, ['\"'] + (['\''] + (['\"'] + (['\''] + rest))));
      Opening(l.(quote := None), '\"', ['\''] + (['\"'] + (['\''] + rest)));
      assert (['\''] + (['\"'] + (['\''] + rest)))[1..] == ['\"'] + (['\''] + rest);
      Once(l.(quote := Some('\"')), ['\''] + (['\"'] + (['\''] + rest)), with.(quote := Some('\"')), 1);
      Closing(with.(quote := Some('\"')), ['\''] + rest);
      Opening(with.(quote := None), '\'', rest);
    }
  }

  lemma Closing(l: Lexer, rest: string)
    requires l.quote.Some? && InBounds(l)
    ensures Run(l, [l.quote.value] + rest) == Run(l.(quote := None), rest)
  {
    assert ([l.quote.value] + rest)[1..] == rest;
    Once(l, [l.quote.value] + rest, l.(quote := None), 1);
  }

  lemma Opening(l: Lexer, c: char, rest: string)
    requires l.quote.None? && (c == '\'' || c == '\"') && InBounds(l)
    ensures Run(l, [c] + rest) == Run(l.(quote := Some(c), active := true), rest)
  {
    assert ([c] + rest)[1..] == rest;
    Once(l, [c] + rest, l.(quote := Some(c), active := true), 1);
  }

  lemma CharacterIsRead(q: Quoter, l: Lexer, c: char, rest: string)
    requires l.quote == Some('\'') && l.active && InBounds(l) && InBounds(l.(current := l.current + [c]))
    ensures Run(l, Written(q, c) + rest) == Run(l.(current := l.current + [c]), rest)
  {
    if c == '\'' {
      QuotedApostrophe(q, l, rest);
    } else {
      PlainCharacter(l, c, rest);
    }
  }

  lemma Associate(a: string, b: string, c: string)
    ensures (a + b) + c == a + (b + c)
  {
  }

  lemma Regroup(q: Quoter, current: string, value: string, rest: string)
    requires value != ""
    ensures Replaced(q, value) + rest == Written(q, value[0]) + (Replaced(q, value[1..]) + rest)
    ensures current + value == current + [value[0]] + value[1..]
  {
    Associate(Written(q, value[0]), Replaced(q, value[1..]), rest);
    Associate(current, [value[0]], value[1..]);
    assert value == [value[0]] + value[1..];
  }

  /** Quoted text, after `before` of the argument: the text is added, and the quotes stay open. */
  lemma {:induction false} BetweenQuotes(q: Quoter, args: seq<string>, before: string, value: string, rest: string)
    requires |args| <= MAX_ARGS && Text.Utf8Length(before + value) <= MAX_ARG
    ensures Run(Lexer(args, before, true, Some('\'')), Replaced(q, value) + rest)
         == Run(Lexer(args, before + value, true, Some('\'')), rest)
    decreases |value|
  {
    if value == "" {
      assert Replaced(q, value) + rest == rest && before + value == before;
    } else {
      Fits(before, value);
      Regroup(q, before, value, rest);
      CharacterIsRead(q, Lexer(args, before, true, Some('\'')), value[0], Replaced(q, value[1..]) + rest);
      BetweenQuotes(q, args, before + [value[0]], value[1..], rest);
    }
  }

  /** A quoted word is read as its argument, empty or not. */
  lemma WordIsRead(q: Quoter, args: seq<string>, value: string, rest: string)
    requires |args| <= MAX_ARGS && Text.Utf8Length(value) <= MAX_ARG
    ensures Run(Lexer(args, "", false, None), Quoted(q, value) + rest) == Run(Lexer(args, value, true, None), rest)
  {
    var l := Lexer(args, "", false, None);
    var body := Replaced(q, value) + (['\''] + rest);
    assert Quoted(q, value) + rest == ['\''] + body;
    Opening(l, '\'', body);
    assert "" + value == value;
    BetweenQuotes(q, args, "", value, ['\''] + rest);
    Closing(Lexer(args, value, true, Some('\'')), rest);
  }

  lemma SpaceEndsWord(args: seq<string>, value: string, rest: string)
    requires |args| < MAX_ARGS
    ensures Run(Lexer(args, value, true, None), " " + rest) == Run(Lexer(args + [value], "", false, None), rest)
  {
    assert (" " + rest)[1..] == rest;
    Once(Lexer(args, value, true, None), " " + rest, Lexer(args + [value], "", false, None), 1);
  }

  predicate SmallArguments(words: seq<(Quoter, string)>) {
    forall i :: 0 <= i < |words| ==> Text.Utf8Length(words[i].1) <= MAX_ARG
  }

  lemma WordAndSpace(q: Quoter, args: seq<string>, value: string, rest: string)
    requires |args| < MAX_ARGS && Text.Utf8Length(value) <= MAX_ARG
    ensures Run(Lexer(args, "", false, None), Quoted(q, value) + " " + rest) == Run(Lexer(args + [value], "", false, None), rest)
  {
    assert Quoted(q, value) + " " + rest == Quoted(q, value) + (" " + rest);
    WordIsRead(q, args, value, " " + rest);
    SpaceEndsWord(args, value, rest);
  }

  lemma LastWord(q: Quoter, args: seq<string>, value: string)
    requires |args| < MAX_ARGS && Text.Utf8Length(value) <= MAX_ARG
    ensures Run(Lexer(args, "", false, None), Quoted(q, value)).Some?
    ensures Finished(Run(Lexer(args, "", false, None), Quoted(q, value)).value) == Some(args + [value])
  {
    WordIsRead(q, args, value, "");
    assert Quoted(q, value) + "" == Quoted(q, value);
  }

  lemma {:induction false} WordsAreRead(args: seq<string>, words: seq<(Quoter, string)>)
    requires words != [] && |args| + |words| <= MAX_ARGS && SmallArguments(words)
    ensures Run(Lexer(args, "", false, None), Joined(words)).Some?
    ensures Finished(Run(Lexer(args, "", false, None), Joined(words)).value) == Some(args + Arguments(words))
    decreases |words|
  {
    var q, value := words[0].0, words[0].1;
    if |words| == 1 {
      LastWord(q, args, value);
      assert Arguments(words) == [value];
    } else {
      WordAndSpace(q, args, value, Joined(words[1..]));
      WordsAreRead(args + [value], words[1..]);
      assert args + [value] + Arguments(words[1..]) == args + Arguments(words);
    }
  }

  /** Quoting adds no controls. */
  lemma {:induction false} ReplacedIsVisible(q: Quoter, value: string)
    requires Text.NoControls(value)
    ensures Text.NoControls(Replaced(q, value))
  {
    if value != "" {
      ReplacedIsVisible(q, value[1..]);
      assert Text.NoControls(Apostrophe(q));
      assert value[0] in value;
    }
  }

  lemma {:induction false} JoinedIsVisible(words: seq<(Quoter, string)>)
    requires forall i :: 0 <= i < |words| ==> Text.NoControls(words[i].1)
    ensures Text.NoControls(Joined(words))
  {
    if words != [] {
      ReplacedIsVisible(words[0].0, words[0].1);
      if |words| > 1 {
        JoinedIsVisible(words[1..]);
      }
    }
  }

  /**
   Tokenizing inverts quoting: any arguments within the bounds and without controls, each written by either
   quoter, empty ones and embedded quotes included, come back as they were.
   */
  lemma TokensInvertQuoting(words: seq<(Quoter, string)>)
    requires |words| <= MAX_ARGS && SmallArguments(words)
    requires forall i :: 0 <= i < |words| ==> Text.NoControls(words[i].1)
    requires Text.Utf8Length(Joined(words)) <= MAX_COMMAND
    ensures Tokens(Joined(words)) == Some(Arguments(words))
  {
    JoinedIsVisible(words);
    if words != [] {
      WordsAreRead([], words);
      assert [] + Arguments(words) == Arguments(words);
    }
  }

  predicate SmallAndVisible(args: seq<string>) {
    forall i :: 0 <= i < |args| ==> Text.NoControls(args[i]) && Text.Utf8Length(args[i]) <= MAX_ARG
  }

  predicate Clean(l: Lexer) {
    InBounds(l) && Text.NoControls(l.current) && SmallAndVisible(l.args)
  }

  lemma StepKeepsClean(l: Lexer, s: string)
    requires s != "" && Clean(l) && Text.NoControls(s)
    ensures Step(l, s).Some? && InBounds(Step(l, s).value.next) ==> Clean(Step(l, s).value.next)
  {
    assert s[0] in s && (|s| > 1 ==> s[1] in s);
  }

  lemma {:induction false} RunKeepsClean(l: Lexer, s: string)
    requires Text.NoControls(s) && Clean(l)
    ensures Run(l, s).Some? ==> Clean(Run(l, s).value)
    decreases |s|
  {
    if s != "" {
      var step := Step(l, s);
      StepKeepsClean(l, s);
      if step.Some? && InBounds(step.value.next) {
        RunKeepsClean(step.value.next, s[step.value.consumed..]);
      }
    }
  }

  /** Whatever the command, accepted arguments keep to the bounds, and none holds a control. */
  lemma AcceptedArgumentsAreBounded(value: string)
    ensures Tokens(value).Some? ==> |Tokens(value).value| <= MAX_ARGS && SmallAndVisible(Tokens(value).value)
  {
    if Text.NoControls(value) {
      RunKeepsClean(START, value);
    }
  }
}

/**
 `git status --porcelain=v2 -z`: the parser (crates/idk/src/git/parse.rs:13-99) against a printer of the format
 ("Porcelain Format Version 2" in git-status(1)). A byte is the character with its number.
 */
module GitStatus {
  import opened Faults
  import Decimal
  import Text

  type Bytes = string

  const NUL := '\0'

  datatype Change = Change(
    path: Bytes, original: Option<Bytes>, index: char, worktree: char, conflict: bool, untracked: bool, submodule: Option<string>)

  datatype Porcelain = Porcelain(entries: seq<Change>, upstream: Option<string>, ahead: Option<nat>, behind: Option<nat>)

  const EMPTY := Porcelain([], None, None, None)

  // ---------------------------------------------------------------- splitting

  function Split(s: Bytes, separator: char): (parts: seq<Bytes>)
    ensures |parts| >= 1
  {
    if s == "" then [""]
    else
      var rest := Split(s[1..], separator);
      if s[0] == separator then [""] + rest else [[s[0]] + rest[0]] + rest[1..]
  }

  /** The position of the first occurrence, or the length. */
  function Find(s: Bytes, separator: char): (n: nat)
    ensures n <= |s| && (n < |s| ==> s[n] == separator) && separator !in s[..n]
  {
    if s == "" || s[0] == separator then 0 else 1 + Find(s[1..], separator)
  }

  /** `splitn`: at most `count` parts, the last one unsplit. */
  function SplitN(count: nat, s: Bytes, separator: char): seq<Bytes>
    requires count >= 1
  {
    var n := Find(s, separator);
    if count == 1 || n == |s| then [s] else [s[..n]] + SplitN(count - 1, s[n + 1..], separator)
  }

  function WordEnd(s: string): (n: nat)
    ensures n <= |s|
    ensures s != "" && !Text.IsWhitespace(s[0]) ==> n > 0
  {
    if s == "" || Text.IsWhitespace(s[0]) then 0 else 1 + WordEnd(s[1..])
  }

  /** `split_whitespace`. */
  function Words(s: string): seq<string>
    decreases |s|
  {
    if s == "" then []
    else if Text.IsWhitespace(s[0]) then Words(s[1..])
    else [s[..WordEnd(s)]] + Words(s[WordEnd(s)..])
  }

  // ---------------------------------------------------------------- the parser

  predicate ValidPath(path: Bytes) {
    && path != "" && |path| <= 8192 && NUL !in path
    && path[0] != '/'
    && forall part :: part in Split(path, '/') ==> part != ".." && part != "." && part != ""
  }

  const WORD_LIMIT := 0x1_0000_0000_0000_0000

  /** An unsigned 64-bit number; a plus sign is allowed. */
  function ParseCount(text: string): Option<nat> {
    var digits := if text != "" && text[0] == '+' then text[1..] else text;
    if digits == "" || !Decimal.AllDigits(digits) || Decimal.Value(digits) >= WORD_LIMIT then None
    else Some(Decimal.Value(digits))
  }

  function Signed(words: seq<string>, i: nat, sign: char): Option<nat> {
    if i < |words| && words[i] != "" && words[i][0] == sign then ParseCount(words[i][1..]) else None
  }

  /** `text`: UTF-8 without NUL. */
  function TextOf(decode: Bytes -> Option<string>, bytes: Bytes): Option<string> {
    if decode(bytes).Some? && NUL !in decode(bytes).value then decode(bytes) else None
  }

  const UPSTREAM := "# branch.upstream "
  const AHEAD_BEHIND := "# branch.ab "

  function WithUpstream(decode: Bytes -> Option<string>, p: Porcelain, record: Bytes): Option<Porcelain> {
    if UPSTREAM <= record then
      var text := TextOf(decode, record[|UPSTREAM|..]);
      if text.None? then None else Some(p.(upstream := text))
    else Some(p)
  }

  function WithCounts(decode: Bytes -> Option<string>, p: Porcelain, record: Bytes): Option<Porcelain> {
    if AHEAD_BEHIND <= record then
      var text := TextOf(decode, record[|AHEAD_BEHIND|..]);
      if text.None? then None
      else
        var ahead, behind := Signed(Words(text.value), 0, '+'), Signed(Words(text.value), 1, '-');
        if ahead.None? || behind.None? then None else Some(p.(ahead := ahead, behind := behind))
    else Some(p)
  }

  function WithHeader(decode: Bytes -> Option<string>, p: Porcelain, record: Bytes): Option<Porcelain> {
    var q := WithUpstream(decode, p, record);
    if q.None? then None else WithCounts(decode, q.value, record)
  }

  predicate IsUnlisted(record: Bytes) { "? " <= record || "! " <= record }

  /** One trailing slash marks a directory and is not part of the name. */
  function WithUntracked(p: Porcelain, record: Bytes): Option<Porcelain>
    requires |record| >= 2
  {
    var marked := record[2..];
    var path := if marked != "" && marked[|marked| - 1] == '/' then marked[..|marked| - 1] else marked;
    if !ValidPath(path) then None
    else Some(p.(entries := p.entries + [Change(path, None, '?', '?', false, true, None)]))
  }

  function FieldCount(kind: char): nat {
    if kind == '1' then 9 else if kind == '2' then 10 else if kind == 'u' then 11 else 0
  }

  /** A changed entry; `original` is the next record for a rename. */
  function ChangeOf(decode: Bytes -> Option<string>, record: Bytes, original: Option<Bytes>): Option<Change>
    requires record != "" && FieldCount(record[0]) > 0
  {
    var count := FieldCount(record[0]);
    var parts := SplitN(count, record, ' ');
    if |parts| != count || |parts[1]| != 2 || |parts[2]| != 4 then None
    else if original.Some? && !ValidPath(original.value) then None
    else if !ValidPath(parts[count - 1]) then None
    else
      var submodule := TextOf(decode, parts[2]);
      if parts[2][0] == 'S' && submodule.None? then None
      else Some(Change(parts[count - 1], original, parts[1][0], parts[1][1], record[0] == 'u', false,
                       if parts[2][0] == 'S' then submodule else None))
  }

  function Parse(decode: Bytes -> Option<string>, records: seq<Bytes>, p: Porcelain): Option<Porcelain>
    decreases |records|
  {
    if records == [] then Some(p)
    else
      var record, rest := records[0], records[1..];
      if record == "" then Parse(decode, rest, p)
      else if record[0] == '#' then
        var q := WithHeader(decode, p, record);
        if q.None? then None else Parse(decode, rest, q.value)
      else if IsUnlisted(record) then
        var q := WithUntracked(p, record);
        if q.None? then None else Parse(decode, rest, q.value)
      else if FieldCount(record[0]) == 0 || (record[0] == '2' && rest == []) then None
      else
        var renamed := record[0] == '2';
        var change := ChangeOf(decode, record, if renamed then Some(rest[0]) else None);
        if change.None? then None
        else Parse(decode, if renamed then rest[1..] else rest, p.(entries := p.entries + [change.value]))
  }

  /** `status`. */
  function Status(decode: Bytes -> Option<string>, bytes: Bytes): Option<Porcelain> {
    if bytes != "" && bytes[|bytes| - 1] != NUL then None else Parse(decode, Split(bytes, NUL), EMPTY)
  }

  /** The loop of `status`. */
  method ParseStatus(decode: Bytes -> Option<string>, bytes: Bytes) returns (r: Option<Porcelain>)
    ensures r == Status(decode, bytes)
  {
    if bytes != "" && bytes[|bytes| - 1] != NUL {
      return None;
    }
    var records := Split(bytes, NUL);
    var p, i := EMPTY, 0;
    assert records[0..] == records;
    while i < |records|
      invariant 0 <= i <= |records|
      invariant Parse(decode, records[i..], p) == Status(decode, bytes)
    {
      var record := records[i];
      ghost var left := records[i..];
      assert left[0] == record && left[1..] == records[i + 1..];
      i := i + 1;
      if record == "" {
        continue;
      }
      if record[0] == '#' {
        var q := WithHeader(decode, p, record);
        if q.None? {
          return None;
        }
        p := q.value;
        continue;
      }
      if IsUnlisted(record) {
        var q := WithUntracked(p, record);
        if q.None? {
          return None;
        }
        p := q.value;
        continue;
      }
      if FieldCount(record[0]) == 0 {
        return None;
      }
      var original: Option<Bytes> := None;
      if record[0] == '2' {
        if i == |records| {
          return None;
        }
        assert left[1..][0] == records[i] && left[1..][1..] == records[i + 1..];
        original := Some(records[i]);
        i := i + 1;
      }
      var change := ChangeOf(decode, record, original);
      if change.None? {
        return None;
      }
      p := p.(entries := p.entries + [change.value]);
    }
    assert records[i..] == [];
    r := Some(p);
  }

  // ---------------------------------------------------------------- the format

  /** One line of output; `meta` are the modes and object names of an entry. */
  datatype Item =
    | Header(record: Bytes)
    | Upstream(name: Bytes)
    | AheadBehind(ahead: nat, behind: nat)
    | Unlisted(ignored: bool, path: Bytes, directory: bool)
    | Ordinary(xy: Bytes, sub: Bytes, meta: seq<Bytes>, path: Bytes)
    | Renamed(xy: Bytes, sub: Bytes, meta: seq<Bytes>, path: Bytes, original: Bytes)
    | Unmerged(xy: Bytes, sub: Bytes, meta: seq<Bytes>, path: Bytes)

  predicate Field(f: Bytes) { ' ' !in f && NUL !in f }

  predicate Fields(fs: seq<Bytes>) { forall i :: 0 <= i < |fs| ==> Field(fs[i]) }

  predicate Ascii(s: Bytes) { forall c :: c in s ==> '\0' < c < '\U{80}' }

  predicate Tracked(xy: Bytes, sub: Bytes, meta: seq<Bytes>, path: Bytes, count: nat) {
    |xy| == 2 && Field(xy) && |sub| == 4 && Field(sub) && Ascii(sub) && |meta| == count && Fields(meta) && ValidPath(path)
  }

  /** Paths are arbitrary but for `ValidPath`: spaces, line feeds and whole record prefixes may occur in them. */
  predicate WellFormed(decode: Bytes -> Option<string>, item: Item) {
    match item
    case Header(record) => record != "" && record[0] == '#' && NUL !in record && !(UPSTREAM <= record) && !(AHEAD_BEHIND <= record)
    case Upstream(name) => NUL !in name && TextOf(decode, name).Some?
    case AheadBehind(ahead, behind) => ahead < WORD_LIMIT && behind < WORD_LIMIT
    case Unlisted(_, path, _) => ValidPath(path)
    case Ordinary(xy, sub, meta, path) => Tracked(xy, sub, meta, path, 5)
    case Renamed(xy, sub, meta, path, original) => Tracked(xy, sub, meta, path, 6) && ValidPath(original)
    case Unmerged(xy, sub, meta, path) => Tracked(xy, sub, meta, path, 7)
  }

  function Spaced(fields: seq<Bytes>, path: Bytes): Bytes {
    if fields == [] then path else fields[0] + " " + Spaced(fields[1..], path)
  }

  /** The NUL-terminated records of an item: two for a rename. */
  function RecordsOf(item: Item): seq<Bytes> {
    match item
    case Header(record) => [record]
    case Upstream(name) => [UPSTREAM + name]
    case AheadBehind(ahead, behind) => [AHEAD_BEHIND + ("+" + Decimal.Print(ahead) + " " + "-" + Decimal.Print(behind))]
    case Unlisted(ignored, path, directory) => [(if ignored then "! " else "? ") + path + if directory then "/" else ""]
    case Ordinary(xy, sub, meta, path) => [Spaced(["1", xy, sub] + meta, path)]
    case Renamed(xy, sub, meta, path, original) => [Spaced(["2", xy, sub] + meta, path), original]
    case Unmerged(xy, sub, meta, path) => [Spaced(["u", xy, sub] + meta, path)]
  }

  function AllRecords(items: seq<Item>): seq<Bytes> {
    if items == [] then [] else RecordsOf(items[0]) + AllRecords(items[1..])
  }

  function Terminated(records: seq<Bytes>): Bytes {
    if records == [] then "" else records[0] + [NUL] + Terminated(records[1..])
  }

  function Print(items: seq<Item>): Bytes { Terminated(AllRecords(items)) }

  /** What an item means for the result. */
  function Meaning(decode: Bytes -> Option<string>, p: Porcelain, item: Item): Porcelain {
    match item
    case Header(_) => p
    case Upstream(name) => p.(upstream := TextOf(decode, name))
    case AheadBehind(ahead, behind) => p.(ahead := Some(ahead), behind := Some(behind))
    case Unlisted(_, path, _) => p.(entries := p.entries + [Change(path, None, '?', '?', false, true, None)])
    case Ordinary(xy, sub, _, path) => p.(entries := p.entries + [Entry(xy, sub, path, None, false)])
    case Renamed(xy, sub, _, path, original) => p.(entries := p.entries + [Entry(xy, sub, path, Some(original), false)])
    case Unmerged(xy, sub, _, path) => p.(entries := p.entries + [Entry(xy, sub, path, None, true)])
  }

  function Entry(xy: Bytes, sub: Bytes, path: Bytes, original: Option<Bytes>, conflict: bool): Change {
    Change(path, original, if xy != "" then xy[0] else ' ', if |xy| > 1 then xy[1] else ' ', conflict, false,
           if sub != "" && sub[0] == 'S' then Some(sub) else None)
  }

  function MeaningAll(decode: Bytes -> Option<string>, p: Porcelain, items: seq<Item>): Porcelain
    decreases |items|
  {
    if items == [] then p else MeaningAll(decode, Meaning(decode, p, items[0]), items[1..])
  }

  /** UTF-8 leaves ASCII as it is. */
  ghost predicate KeepsAscii(decode: Bytes -> Option<string>) {
    forall s: Bytes :: Ascii(s) ==> decode(s) == Some(s)
  }

  // ---------------------------------------------------------------- splitting inverts joining

  lemma {:induction false} SplitTerminated(record: Bytes, rest: Bytes, separator: char)
    requires separator !in record
    ensures Split(record + [separator] + rest, separator) == [record] + Split(rest, separator)
  {
    var s := record + [separator] + rest;
    if record == "" {
      assert s[1..] == rest;
    } else {
      assert s[0] == record[0] && s[1..] == record[1..] + [separator] + rest;
      SplitTerminated(record[1..], rest, separator);
      assert [record[0]] + record[1..] == record;
    }
  }

  lemma {:induction false} SplitPrinted(records: seq<Bytes>)
    requires forall i :: 0 <= i < |records| ==> NUL !in records[i]
    ensures Split(Terminated(records), NUL) == records + [""]
  {
    if records != [] {
      SplitTerminated(records[0], Terminated(records[1..]), NUL);
      SplitPrinted(records[1..]);
    }
  }

  lemma {:induction false} FindSpace(field: Bytes, rest: Bytes)
    requires ' ' !in field
    ensures Find(field + " " + rest, ' ') == |field|
  {
    if field != "" {
      assert (field + " " + rest)[1..] == field[1..] + " " + rest;
      FindSpace(field[1..], rest);
    }
  }

  lemma {:induction false} SplitSpaced(fields: seq<Bytes>, path: Bytes)
    requires Fields(fields)
    ensures SplitN(|fields| + 1, Spaced(fields, path), ' ') == fields + [path]
  {
    if fields != [] {
      var s := Spaced(fields, path);
      FindSpace(fields[0], Spaced(fields[1..], path));
      assert Field(fields[0]);
      assert s[..|fields[0]|] == fields[0] && s[|fields[0]| + 1..] == Spaced(fields[1..], path);
      SplitSpaced(fields[1..], path);
    }
  }

  lemma {:induction false} NoNul(fields: seq<Bytes>, path: Bytes)
    requires Fields(fields) && NUL !in path
    ensures NUL !in Spaced(fields, path)
  {
    if fields != [] {
      assert Field(fields[0]);
      NoNul(fields[1..], path);
    }
  }

  lemma {:induction false} LastIsEmpty(s: Bytes)
    requires s != "" && s[|s| - 1] == '/'
    ensures |Split(s, '/')| > 1 && Split(s, '/')[|Split(s, '/')| - 1] == ""
  {
    if |s| == 1 {
      assert s[1..] == "";
    } else {
      LastIsEmpty(s[1..]);
    }
  }

  lemma TrailingSlash(s: Bytes)
    ensures s != "" && s[|s| - 1] == '/' ==> "" in Split(s, '/')
  {
    if s != "" && s[|s| - 1] == '/' {
      LastIsEmpty(s);
      assert Split(s, '/')[|Split(s, '/')| - 1] in Split(s, '/');
    }
  }

  /** So a valid path never ends in the slash that marks a directory. */
  lemma ValidPathEnds(path: Bytes)
    requires ValidPath(path)
    ensures path[|path| - 1] != '/'
  {
    TrailingSlash(path);
  }

  // ---------------------------------------------------------------- each item

  lemma CountReturns(n: nat)
    requires n < WORD_LIMIT
    ensures ParseCount(Decimal.Print(n)) == Some(n)
  {
    Decimal.ValuePrint(n);
    var text := Decimal.Print(n);
    assert text[0] in text;
  }

  lemma {:induction false} WordRuns(word: string, rest: string)
    requires forall c :: c in word ==> !Text.IsWhitespace(c)
    requires rest == "" || Text.IsWhitespace(rest[0])
    ensures WordEnd(word + rest) == |word|
  {
    if word == "" {
      assert word + rest == rest;
    } else {
      assert (word + rest)[1..] == word[1..] + rest;
      WordRuns(word[1..], rest);
    }
  }

  lemma OneWord(word: string, rest: string)
    requires word != "" && forall c :: c in word ==> !Text.IsWhitespace(c)
    requires rest == "" || Text.IsWhitespace(rest[0])
    ensures Words(word + rest) == [word] + Words(rest)
  {
    WordRuns(word, rest);
    assert word[0] in word;
    assert (word + rest)[..|word|] == word && (word + rest)[|word|..] == rest;
  }

  lemma TwoWords(a: string, b: string)
    requires a != "" && b != "" && forall c :: c in a || c in b ==> !Text.IsWhitespace(c)
    ensures Words(a + " " + b) == [a, b]
  {
    assert a + " " + b == a + (" " + b);
    OneWord(a, " " + b);
    assert (" " + b)[1..] == b;
    OneWord(b, "");
    assert b + "" == b;
    assert Words("") == [];
  }

  lemma PrintedIsVisible(n: nat)
    ensures forall c :: c in Decimal.Print(n) ==> !Text.IsWhitespace(c) && '0' <= c <= '9'
  {
    assert forall c :: c in Decimal.DIGITS ==> !Text.IsWhitespace(c) && '0' <= c <= '9';
  }

  lemma CountsReturn(decode: Bytes -> Option<string>, p: Porcelain, ahead: nat, behind: nat)
    requires KeepsAscii(decode) && ahead < WORD_LIMIT && behind < WORD_LIMIT
    ensures var counts := "+" + Decimal.Print(ahead) + " " + "-" + Decimal.Print(behind);
      && NUL !in counts
      && WithCounts(decode, p, AHEAD_BEHIND + counts) == Some(p.(ahead := Some(ahead), behind := Some(behind)))
  {
    var counts := "+" + Decimal.Print(ahead) + " " + "-" + Decimal.Print(behind);
    CountsAreWords(ahead, behind);
    SignedCounts(ahead, behind);
    assert decode(counts) == Some(counts);
    assert (AHEAD_BEHIND + counts)[|AHEAD_BEHIND|..] == counts;
  }

  lemma CountsAreWords(ahead: nat, behind: nat)
    ensures var counts := "+" + Decimal.Print(ahead) + " " + "-" + Decimal.Print(behind);
      Ascii(counts) && Words(counts) == ["+" + Decimal.Print(ahead), "-" + Decimal.Print(behind)]
  {
    PrintedIsVisible(ahead);
    PrintedIsVisible(behind);
    SignedWords(Decimal.Print(ahead), Decimal.Print(behind));
  }

  lemma SignedWords(a: string, b: string)
    requires forall c :: c in a || c in b ==> '0' <= c <= '9'
    ensures var counts := "+" + a + " " + "-" + b; Ascii(counts) && Words(counts) == ["+" + a, "-" + b]
  {
    TwoWords("+" + a, "-" + b);
    assert ("+" + a) + " " + ("-" + b) == "+" + a + " " + "-" + b;
  }

  lemma SignedCounts(ahead: nat, behind: nat)
    requires ahead < WORD_LIMIT && behind < WORD_LIMIT
    ensures var words := ["+" + Decimal.Print(ahead), "-" + Decimal.Print(behind)];
      Signed(words, 0, '+') == Some(ahead) && Signed(words, 1, '-') == Some(behind)
  {
    CountReturns(ahead);
    CountReturns(behind);
    assert ("+" + Decimal.Print(ahead))[1..] == Decimal.Print(ahead);
    assert ("-" + Decimal.Print(behind))[1..] == Decimal.Print(behind);
  }

  lemma HeadersDiffer(a: Bytes, b: Bytes)
    ensures !(AHEAD_BEHIND <= UPSTREAM + a) && !(UPSTREAM <= AHEAD_BEHIND + b)
  {
    assert (UPSTREAM + a)[9] == 'u' && (AHEAD_BEHIND + b)[9] == 'a';
    assert AHEAD_BEHIND[9] == 'a' && UPSTREAM[9] == 'u';
  }

  lemma HeaderParsed(decode: Bytes -> Option<string>, p: Porcelain, item: Item)
    requires KeepsAscii(decode) && WellFormed(decode, item) && (item.Header? || item.Upstream? || item.AheadBehind?)
    ensures |RecordsOf(item)| == 1 && RecordsOf(item)[0] != "" && RecordsOf(item)[0][0] == '#' && NUL !in RecordsOf(item)[0]
    ensures WithHeader(decode, p, RecordsOf(item)[0]) == Some(Meaning(decode, p, item))
  {
    match item
    case Header(_) =>
    case Upstream(name) =>
      HeadersDiffer(name, name);
      assert (UPSTREAM + name)[|UPSTREAM|..] == name;
    case AheadBehind(ahead, behind) =>
      CountsReturn(decode, p, ahead, behind);
      HeadersDiffer("", "+" + Decimal.Print(ahead) + " " + "-" + Decimal.Print(behind));
  }

  lemma UnlistedParsed(p: Porcelain, ignored: bool, path: Bytes, directory: bool)
    requires ValidPath(path)
    ensures var record := (if ignored then "! " else "? ") + path + if directory then "/" else "";
      && IsUnlisted(record) && record[0] != '#' && NUL !in record
      && WithUntracked(p, record) == Some(p.(entries := p.entries + [Change(path, None, '?', '?', false, true, None)]))
  {
    var record := (if ignored then "! " else "? ") + path + if directory then "/" else "";
    ValidPathEnds(path);
    assert record[2..] == path + if directory then "/" else "";
    if directory {
      assert record[2..][..|record[2..]| - 1] == path;
    } else {
      assert record[2..] == path;
    }
  }

  lemma TrackedParsed(
      decode: Bytes -> Option<string>, kind: Bytes, xy: Bytes, sub: Bytes, meta: seq<Bytes>, path: Bytes, original: Option<Bytes>)
    requires KeepsAscii(decode)
    requires kind == "1" || kind == "2" || kind == "u"
    requires Tracked(xy, sub, meta, path, FieldCount(kind[0]) - 4)
    requires original.Some? ==> ValidPath(original.value)
    ensures var record := Spaced([kind, xy, sub] + meta, path);
      && record != "" && record[0] == kind[0] && NUL !in record && !IsUnlisted(record)
      && ChangeOf(decode, record, original) == Some(Entry(xy, sub, path, original, kind == "u"))
  {
    var fields := [kind, xy, sub] + meta;
    var record := Spaced(fields, path);
    assert Fields(fields);
    SplitSpaced(fields, path);
    NoNul(fields, path);
    assert record == kind + " " + Spaced(fields[1..], path);
    var parts := fields + [path];
    assert parts[1] == xy && parts[2] == sub && parts[|fields|] == path;
    assert decode(sub) == Some(sub);
    assert NUL !in sub;
  }

  /** Each item is read as what it means, and exactly its own records are consumed. */
  lemma ItemParsed(decode: Bytes -> Option<string>, p: Porcelain, item: Item, rest: seq<Bytes>)
    requires KeepsAscii(decode) && WellFormed(decode, item)
    ensures Parse(decode, RecordsOf(item) + rest, p) == Parse(decode, rest, Meaning(decode, p, item))
    ensures forall i :: 0 <= i < |RecordsOf(item)| ==> NUL !in RecordsOf(item)[i]
  {
    var records := RecordsOf(item) + rest;
    assert records[1..] == RecordsOf(item)[1..] + rest;
    match item
    case Unlisted(ignored, path, directory) =>
      UnlistedParsed(p, ignored, path, directory);
      assert records[1..] == rest;
    case Ordinary(xy, sub, meta, path) =>
      TrackedParsed(decode, "1", xy, sub, meta, path, None);
      assert records[1..] == rest;
    case Renamed(xy, sub, meta, path, original) =>
      TrackedParsed(decode, "2", xy, sub, meta, path, Some(original));
      assert records[1..][0] == original && records[1..][1..] == rest;
    case Unmerged(xy, sub, meta, path) =>
      TrackedParsed(decode, "u", xy, sub, meta, path, None);
      assert records[1..] == rest;
    case _ =>
      HeaderParsed(decode, p, item);
      assert records[1..] == rest;
  }

  // ---------------------------------------------------------------- the round trip

  lemma {:induction false} ItemsParsed(decode: Bytes -> Option<string>, p: Porcelain, items: seq<Item>, rest: seq<Bytes>)
    requires KeepsAscii(decode) && forall i :: 0 <= i < |items| ==> WellFormed(decode, items[i])
    ensures Parse(decode, AllRecords(items) + rest, p) == Parse(decode, rest, MeaningAll(decode, p, items))
    ensures forall i :: 0 <= i < |AllRecords(items)| ==> NUL !in AllRecords(items)[i]
    decreases |items|
  {
    if items == [] {
      assert AllRecords(items) + rest == rest;
    } else {
      var first, others := RecordsOf(items[0]), AllRecords(items[1..]);
      assert AllRecords(items) + rest == first + (others + rest);
      ItemParsed(decode, p, items[0], others + rest);
      assert forall i :: 0 <= i < |items[1..]| ==> items[1..][i] == items[i + 1];
      ItemsParsed(decode, Meaning(decode, p, items[0]), items[1..], rest);
    }
  }

  lemma {:induction false} TerminatedEnds(records: seq<Bytes>)
    ensures records != [] ==> Terminated(records) != "" && Terminated(records)[|Terminated(records)| - 1] == NUL
  {
    if records != [] {
      TerminatedEnds(records[1..]);
    }
  }

  /**
   Parsing inverts printing: whatever lies in the paths, and with any headers between them, the entries come back
   exactly and in order, the original path of a rename only as such, and the last branch headers count.
   */
  lemma StatusInvertsPrint(decode: Bytes -> Option<string>, items: seq<Item>)
    requires KeepsAscii(decode) && forall i :: 0 <= i < |items| ==> WellFormed(decode, items[i])
    ensures Status(decode, Print(items)) == Some(MeaningAll(decode, EMPTY, items))
  {
    var records := AllRecords(items);
    ItemsParsed(decode, EMPTY, items, [""]);
    SplitPrinted(records);
    TerminatedEnds(records);
    if records == [] {
      assert Print(items) == "";
    }
    var p := MeaningAll(decode, EMPTY, items);
    assert Parse(decode, [""], p) == Parse(decode, [""][1..], p) == Some(p);
  }

  function EntriesOf(decode: Bytes -> Option<string>, items: seq<Item>): seq<Change> {
    if items == [] then [] else Meaning(decode, EMPTY, items[0]).entries + EntriesOf(decode, items[1..])
  }

  /** The entries of the result are the entries printed, one for each, headers or not. */
  lemma {:induction false} EntriesInOrder(decode: Bytes -> Option<string>, p: Porcelain, items: seq<Item>)
    ensures MeaningAll(decode, p, items).entries == p.entries + EntriesOf(decode, items)
    decreases |items|
  {
    if items != [] {
      EntriesInOrder(decode, Meaning(decode, p, items[0]), items[1..]);
    }
  }
}

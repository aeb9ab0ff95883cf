/** Pages of structured findings, bounded by their serialized size (crates/idk/src/result_store.rs:379-422, 474-550). */
module FindingPages {
  import opened Faults
  import Decimal
  import Text

  const PAGE_ITEMS := 100
  const PAGE_BUDGET := 65536 - 4096
  const MAX_PATH := 4096

  /** A member of a JSON object: missing, a string, or something else. */
  datatype Field = Absent | Str(text: string) | Other

  /** A number that is not an unsigned 64-bit integer counts as missing. */
  type Word = n: nat | n < 0x1_0000_0000_0000_0000

  /** The members of a stored finding that are displayed. */
  datatype Stored = Stored(
    message: Field, severity: Field, ruleId: Field, code: Field, provider: Field,
    primaryPath: Field, evidencePath: Field,
    startLine: Option<Word>, startColumn: Option<Word>, endLine: Option<Word>, endColumn: Option<Word>,
    evidenceObject: Field, dataPointer: Field)

  datatype Location = Location(
    path: string, startLine: Option<Word>, startColumn: Option<Word>, endLine: Option<Word>, endColumn: Option<Word>)

  datatype Finding = Finding(
    sha: string, index: Word, severity: string, code: Option<string>, provider: Option<string>, message: string,
    location: Option<Location>, evidenceObject: Option<string>, dataPointer: Option<string>, truncated: bool)

  // ---------------------------------------------------------------- bounded display text

  function Shown(text: string): string {
    if text == "" then ""
    else (if Text.IsControl(text[0]) then [] else [text[0]]) + Shown(text[1..])
  }

  /** The closure `bounded`: no controls, and at most `limit` characters. */
  function Bounded(text: string, limit: nat): (r: string)
    ensures |r| <= limit
  {
    var shown := Shown(text);
    if |shown| <= limit then shown else shown[..limit]
  }

  function TextOf(field: Field): Option<string> {
    if field.Str? then Some(field.text) else None
  }

  function OrElse(a: Field, b: Field): Field { if a.Absent? then b else a }

  function BoundedOption(text: Option<string>, limit: nat): Option<string> {
    if text.Some? then Some(Bounded(text.value, limit)) else None
  }

  function PathOf(v: Stored): Option<string> { TextOf(OrElse(v.primaryPath, v.evidencePath)) }

  function LocationOf(v: Stored): Option<Location> {
    var path := PathOf(v);
    if path.Some? && path.value != "" && Text.Utf8Length(path.value) <= MAX_PATH && Text.NoControls(path.value) then
      Some(Location(path.value, v.startLine, v.startColumn, v.endLine, v.endColumn))
    else None
  }

  function Or(text: Option<string>, otherwise: string): string { if text.Some? then text.value else otherwise }

  /** Lengths in bytes, as the program compares them. */
  predicate Cut(text: string, limit: nat) { Text.Utf8Length(Bounded(text, limit)) != Text.Utf8Length(text) }

  predicate CutOption(text: Option<string>, limit: nat) { text.Some? && Cut(text.value, limit) }

  function Displayed(v: Stored, sha: string, index: Word): Finding {
    var message, severity := Or(TextOf(v.message), ""), Or(TextOf(v.severity), "unknown");
    var code, provider := TextOf(OrElse(v.ruleId, v.code)), TextOf(v.provider);
    var evidence, pointer := TextOf(v.evidenceObject), TextOf(v.dataPointer);
    Finding(sha, index, Bounded(severity, 64), BoundedOption(code, 256), BoundedOption(provider, 256), Bounded(message, 8192),
            LocationOf(v), BoundedOption(evidence, 512), BoundedOption(pointer, 1024),
            Cut(message, 8192) || Cut(severity, 64) || CutOption(code, 256) || CutOption(provider, 256)
            || CutOption(evidence, 512) || CutOption(pointer, 1024)
            || (PathOf(v).Some? && LocationOf(v).None?))
  }

  lemma {:induction false} Utf8Prefix(text: string, n: nat)
    requires n < |text|
    ensures Text.Utf8Length(text[..n]) < Text.Utf8Length(text)
  {
    assert text == text[..n] + text[n..];
    Text.Utf8LengthConcat(text[..n], text[n..]);
    assert text[n..] != "";
  }

  lemma {:induction false} ShownLength(text: string)
    ensures Text.Utf8Length(Shown(text)) <= Text.Utf8Length(text)
    ensures Text.Utf8Length(Shown(text)) == Text.Utf8Length(text) ==> Shown(text) == text
    ensures Text.NoControls(Shown(text))
  {
    if text != "" {
      var rest := Shown(text[1..]);
      ShownLength(text[1..]);
      assert text == [text[0]] + text[1..];
      Text.Utf8LengthConcat([text[0]], text[1..]);
      Text.Utf8LengthConcat([text[0]], rest);
      assert Text.Utf8Length([text[0]]) == Text.Utf8Length([text[0]][..0]) + Text.Utf8Size(text[0]);
      assert Shown(text) == if Text.IsControl(text[0]) then rest else [text[0]] + rest;
    }
  }

  /** Comparing byte lengths finds every change. */
  lemma CutIff(text: string, limit: nat)
    ensures Cut(text, limit) <==> Bounded(text, limit) != text
    ensures Text.NoControls(Bounded(text, limit))
  {
    ShownLength(text);
    if |Shown(text)| > limit {
      Utf8Prefix(Shown(text), limit);
    }
  }

  /** The flag is exact: it is clear just when every displayed text is the stored text. */
  lemma TruncatedIff(v: Stored, sha: string, index: Word)
    ensures var f := Displayed(v, sha, index);
      !f.truncated <==>
        && f.message == Or(TextOf(v.message), "") && f.severity == Or(TextOf(v.severity), "unknown")
        && f.code == TextOf(OrElse(v.ruleId, v.code)) && f.provider == TextOf(v.provider)
        && f.evidenceObject == TextOf(v.evidenceObject) && f.dataPointer == TextOf(v.dataPointer)
        && (if f.location.Some? then Some(f.location.value.path) else None) == PathOf(v)
  {
    forall text: string, limit: nat
      ensures Cut(text, limit) <==> Bounded(text, limit) != text
    {
      CutIff(text, limit);
    }
  }

  /** The stored text without its controls, or as much of it as the limit of characters lets in. */
  predicate Shows(shown: string, stored: string, limit: nat) {
    shown <= Shown(stored) && |shown| == if |Shown(stored)| <= limit then |Shown(stored)| else limit
  }

  lemma BoundedShows(text: string, limit: nat)
    ensures Shows(Bounded(text, limit), text, limit)
  {
  }

  /** A text that is stored under this name, or nothing. */
  predicate ShowsField(shown: Option<string>, stored: Field, limit: nat) {
    (shown.Some? <==> stored.Str?) && (shown.Some? ==> Shows(shown.value, stored.text, limit))
  }

  lemma FieldShows(stored: Field, limit: nat)
    ensures ShowsField(BoundedOption(TextOf(stored), limit), stored, limit)
  {
    if stored.Str? {
      BoundedShows(stored.text, limit);
    }
  }

  /** What is displayed of each stored text, under the limit of its kind. */
  lemma DisplayedTexts(v: Stored, sha: string, index: Word)
    ensures var f := Displayed(v, sha, index);
      && f.sha == sha && f.index == index
      && Shows(f.message, if v.message.Str? then v.message.text else "", 8192)
      && Shows(f.severity, if v.severity.Str? then v.severity.text else "unknown", 64)
      && ShowsField(f.code, if v.ruleId.Absent? then v.code else v.ruleId, 256)
      && ShowsField(f.provider, v.provider, 256)
      && ShowsField(f.evidenceObject, v.evidenceObject, 512)
      && ShowsField(f.dataPointer, v.dataPointer, 1024)
  {
    BoundedShows(if v.message.Str? then v.message.text else "", 8192);
    BoundedShows(if v.severity.Str? then v.severity.text else "unknown", 64);
    FieldShows(if v.ruleId.Absent? then v.code else v.ruleId, 256);
    FieldShows(v.provider, 256);
    FieldShows(v.evidenceObject, 512);
    FieldShows(v.dataPointer, 1024);
  }

  /** The path a finding names, wherever it is stored: the primary place first, then the evidence. */
  predicate NamesPath(v: Stored, path: string) {
    v.primaryPath == Str(path) || (v.primaryPath == Absent && v.evidencePath == Str(path))
  }

  /**
   A finding has a location exactly if it names a path that is not empty, of at most 4096 bytes and without controls;
   the path is that one, unaltered, and every number is the one stored under its own name.
   */
  lemma LocatedIff(v: Stored, sha: string, index: Word, path: string)
    ensures var at := Displayed(v, sha, index).location;
      && (at.Some? && at.value.path == path <==>
            NamesPath(v, path) && path != "" && Text.Utf8Length(path) <= 4096 && forall c :: c in path ==> !Text.IsControl(c))
      && (at.Some? ==>
            && at.value.startLine == v.startLine && at.value.startColumn == v.startColumn
            && at.value.endLine == v.endLine && at.value.endColumn == v.endColumn)
  {
    PlaceIsLocation(v, sha, index);
    NamedPath(v, path);
  }

  lemma PlaceIsLocation(v: Stored, sha: string, index: Word)
    ensures Displayed(v, sha, index).location == LocationOf(v)
  {
  }

  lemma NamedPath(v: Stored, path: string)
    ensures PathOf(v) == Some(path) <==> NamesPath(v, path)
  {
  }

  // ---------------------------------------------------------------- serialization

  const HEX := "0123456789abcdef"

  function Escaped(c: char): string {
    if c == '\"' then "\\\""
    else if c == '\\' then "\\\\"
    else if c == '\n' then "\\n"
    else if c == '\r' then "\\r"
    else if c == '\t' then "\\t"
    else if c == '\U{8}' then "\\b"
    else if c == '\U{C}' then "\\f"
    else if c < ' ' then "\\u00" + [HEX[c as nat / 16], HEX[c as nat % 16]]
    else [c]
  }

  function EscapedAll(text: string): string {
    if text == "" then "" else EscapedAll(text[..|text| - 1]) + Escaped(text[|text| - 1])
  }

  function JsonString(text: string): string { "\"" + EscapedAll(text) + "\"" }

  function JsonText(text: Option<string>): string { if text.Some? then JsonString(text.value) else "null" }

  function JsonNumber(n: Option<Word>): string { if n.Some? then Decimal.Print(n.value) else "null" }

  function Places(l: Location): string {
    ",\"start_line\":" + JsonNumber(l.startLine) + ",\"start_column\":" + JsonNumber(l.startColumn)
    + (",\"end_line\":" + JsonNumber(l.endLine) + ",\"end_column\":" + JsonNumber(l.endColumn))
  }

  function JsonLocation(l: Option<Location>): string {
    if l.None? then "null" else "{\"path\":" + JsonString(l.value.path) + Places(l.value) + "}"
  }

  function Head(f: Finding): string {
    "{\"body_sha256\":" + JsonString(f.sha) + ",\"index\":" + Decimal.Print(f.index)
  }

  function Kind(f: Finding): string {
    ",\"severity\":" + JsonString(f.severity) + ",\"code\":" + JsonText(f.code) + (",\"provider\":" + JsonText(f.provider))
  }

  function Body(f: Finding): string {
    ",\"message\":" + JsonString(f.message) + ",\"location\":" + JsonLocation(f.location)
  }

  function Evidence(f: Finding): string {
    ",\"evidence_object\":" + JsonText(f.evidenceObject) + ",\"data_pointer\":" + JsonText(f.dataPointer)
    + (",\"truncated\":" + if f.truncated then "true}" else "false}")
  }

  /** A finding as compact JSON, its members in declaration order. */
  function Json(f: Finding): string { Head(f) + Kind(f) + (Body(f) + Evidence(f)) }

  function JsonSize(f: Finding): nat { Text.Utf8Length(Json(f)) }

  // ---------------------------------------------------------------- the size bound

  lemma {:induction false} AtMostFour(text: string)
    ensures Text.Utf8Length(text) <= 4 * |text|
  {
    if text != "" {
      AtMostFour(text[..|text| - 1]);
    }
  }

  /** Escaping a character that is no control never takes more than four bytes, and at most doubles its bytes. */
  lemma EscapedSize(c: char)
    requires !Text.IsControl(c)
    ensures Text.Utf8Length(Escaped(c)) <= 4
    ensures Text.Utf8Length(Escaped(c)) <= 2 * Text.Utf8Size(c)
  {
    var e := Escaped(c);
    if c == '\"' || c == '\\' {
      assert e[..1] == [e[0]] && e[..1][..0] == "";
      assert Text.Utf8Length(e) == Text.Utf8Length(e[..1]) + 1;
      assert Text.Utf8Length(e[..1]) == Text.Utf8Length("") + 1;
    } else {
      assert Text.Utf8Length([c]) == Text.Utf8Length([c][..0]) + Text.Utf8Size(c);
    }
  }

  lemma {:induction false} EscapedAllSize(text: string)
    requires Text.NoControls(text)
    ensures Text.Utf8Length(EscapedAll(text)) <= 4 * |text|
    ensures Text.Utf8Length(EscapedAll(text)) <= 2 * Text.Utf8Length(text)
  {
    if text != "" {
      var n := |text| - 1;
      EscapedAllSize(text[..n]);
      EscapedSize(text[n]);
      Text.Utf8LengthConcat(EscapedAll(text[..n]), Escaped(text[n]));
    }
  }

  lemma JsonStringSize(text: string)
    requires Text.NoControls(text)
    ensures Text.Utf8Length(JsonString(text)) <= 8 + 4 * |text|
    ensures Text.Utf8Length(JsonString(text)) <= 8 + 2 * Text.Utf8Length(text)
  {
    EscapedAllSize(text);
    Text.Utf8LengthConcat("\"" + EscapedAll(text), "\"");
    Text.Utf8LengthConcat("\"", EscapedAll(text));
    AtMostFour("\"");
  }

  lemma {:induction false} PrintLength(n: nat, digits: nat, bound: nat)
    requires digits >= 1 && bound == Power(digits) && n < bound
    ensures |Decimal.Print(n)| <= digits
  {
    if n >= 10 {
      assert Power(digits) == 10 * Power(digits - 1);
      if digits > 1 {
        PrintLength(n / 10, digits - 1, Power(digits - 1));
      }
    }
  }

  function Power(digits: nat): nat { if digits == 0 then 1 else 10 * Power(digits - 1) }

  lemma WordIsShort(n: Word)
    ensures |Decimal.Print(n)| <= 20
  {
    assert Power(5) == 100000;
    assert Power(10) == 100000 * Power(5) by { assert Power(10) == 10 * Power(9) == 100 * Power(8) == 1000 * Power(7) == 10000 * Power(6); }
    assert Power(15) == 100000 * Power(10) by { assert Power(15) == 10 * Power(14) == 100 * Power(13) == 1000 * Power(12) == 10000 * Power(11); }
    assert Power(20) == 100000 * Power(15) by { assert Power(20) == 10 * Power(19) == 100 * Power(18) == 1000 * Power(17) == 10000 * Power(16); }
    PrintLength(n, 20, Power(20));
  }

  lemma JsonNumberSize(n: Option<Word>)
    ensures Text.Utf8Length(JsonNumber(n)) <= 80
  {
    AtMostFour(JsonNumber(n));
    if n.Some? {
      WordIsShort(n.value);
    }
  }

  lemma Two(a: string, b: string)
    ensures Text.Utf8Length(a + b) == Text.Utf8Length(a) + Text.Utf8Length(b)
  {
    Text.Utf8LengthConcat(a, b);
  }

  /** A key takes at most four bytes a character. */
  lemma Keyed(before: string, key: string, value: string)
    ensures Text.Utf8Length(before + key + value) <= Text.Utf8Length(before) + 4 * |key| + Text.Utf8Length(value)
  {
    Two(before + key, value);
    Two(before, key);
    AtMostFour(key);
  }

  lemma FirstKeyed(key: string, value: string)
    ensures Text.Utf8Length(key + value) <= 4 * |key| + Text.Utf8Length(value)
  {
    Two(key, value);
    AtMostFour(key);
  }

  lemma JsonTextSize(text: Option<string>, limit: nat)
    requires text.Some? ==> Text.NoControls(text.value) && |text.value| <= limit
    ensures Text.Utf8Length(JsonText(text)) <= 16 + 4 * limit
  {
    if text.Some? {
      JsonStringSize(text.value);
    } else {
      AtMostFour("null");
    }
  }

  lemma HeadSize(f: Finding)
    requires |f.sha| == 64 && Text.NoControls(f.sha)
    ensures Text.Utf8Length(Head(f)) <= 450
  {
    JsonStringSize(f.sha);
    WordIsShort(f.index);
    AtMostFour(Decimal.Print(f.index));
    FirstKeyed("{\"body_sha256\":", JsonString(f.sha));
    Keyed("{\"body_sha256\":" + JsonString(f.sha), ",\"index\":", Decimal.Print(f.index));
  }

  lemma KindSize(f: Finding)
    requires |f.severity| <= 64 && Text.NoControls(f.severity)
    requires f.code.Some? ==> Text.NoControls(f.code.value) && |f.code.value| <= 256
    requires f.provider.Some? ==> Text.NoControls(f.provider.value) && |f.provider.value| <= 256
    ensures Text.Utf8Length(Kind(f)) <= 2600
  {
    JsonStringSize(f.severity);
    JsonTextSize(f.code, 256);
    JsonTextSize(f.provider, 256);
    var start := ",\"severity\":" + JsonString(f.severity);
    FirstKeyed(",\"severity\":", JsonString(f.severity));
    Keyed(start, ",\"code\":", JsonText(f.code));
    FirstKeyed(",\"provider\":", JsonText(f.provider));
    Two(start + ",\"code\":" + JsonText(f.code), ",\"provider\":" + JsonText(f.provider));
  }

  lemma PlacesSize(l: Location)
    ensures Text.Utf8Length(Places(l)) <= 560
  {
    JsonNumberSize(l.startLine);
    JsonNumberSize(l.startColumn);
    JsonNumberSize(l.endLine);
    JsonNumberSize(l.endColumn);
    var start := ",\"start_line\":" + JsonNumber(l.startLine);
    var end := ",\"end_line\":" + JsonNumber(l.endLine);
    FirstKeyed(",\"start_line\":", JsonNumber(l.startLine));
    Keyed(start, ",\"start_column\":", JsonNumber(l.startColumn));
    FirstKeyed(",\"end_line\":", JsonNumber(l.endLine));
    Keyed(end, ",\"end_column\":", JsonNumber(l.endColumn));
    Two(start + ",\"start_column\":" + JsonNumber(l.startColumn), end + ",\"end_column\":" + JsonNumber(l.endColumn));
    assert Places(l) == start + ",\"start_column\":" + JsonNumber(l.startColumn) + (end + ",\"end_column\":" + JsonNumber(l.endColumn));
  }

  lemma LocationSize(l: Option<Location>)
    requires l.Some? ==> Text.NoControls(l.value.path) && Text.Utf8Length(l.value.path) <= MAX_PATH
    ensures Text.Utf8Length(JsonLocation(l)) <= 8900
  {
    if l.Some? {
      var path := JsonString(l.value.path);
      JsonStringSize(l.value.path);
      PlacesSize(l.value);
      FirstKeyed("{\"path\":", path);
      Two("{\"path\":" + path, Places(l.value));
      Two("{\"path\":" + path + Places(l.value), "}");
      AtMostFour("}");
    } else {
      AtMostFour("null");
    }
  }

  lemma BodySize(f: Finding)
    requires |f.message| <= 8192 && Text.NoControls(f.message)
    requires f.location.Some? ==> Text.NoControls(f.location.value.path) && Text.Utf8Length(f.location.value.path) <= MAX_PATH
    ensures Text.Utf8Length(Body(f)) <= 42000
  {
    JsonStringSize(f.message);
    LocationSize(f.location);
    FirstKeyed(",\"message\":", JsonString(f.message));
    Keyed(",\"message\":" + JsonString(f.message), ",\"location\":", JsonLocation(f.location));
  }

  lemma EvidenceSize(f: Finding)
    requires f.evidenceObject.Some? ==> Text.NoControls(f.evidenceObject.value) && |f.evidenceObject.value| <= 512
    requires f.dataPointer.Some? ==> Text.NoControls(f.dataPointer.value) && |f.dataPointer.value| <= 1024
    ensures Text.Utf8Length(Evidence(f)) <= 6500
  {
    JsonTextSize(f.evidenceObject, 512);
    JsonTextSize(f.dataPointer, 1024);
    var start := ",\"evidence_object\":" + JsonText(f.evidenceObject);
    var flag := if f.truncated then "true}" else "false}";
    FirstKeyed(",\"evidence_object\":", JsonText(f.evidenceObject));
    Keyed(start, ",\"data_pointer\":", JsonText(f.dataPointer));
    AtMostFour(flag);
    FirstKeyed(",\"truncated\":", flag);
    Two(start + ",\"data_pointer\":" + JsonText(f.dataPointer), ",\"truncated\":" + flag);
  }

  lemma BoundedText(text: string, limit: nat)
    ensures Text.NoControls(Bounded(text, limit)) && |Bounded(text, limit)| <= limit
  {
    CutIff(text, limit);
  }

  /** Whatever a producer stored, its displayed finding fits a page on its own, escaping and multi-byte text included. */
  lemma EveryFindingFits(v: Stored, sha: string, index: Word)
    requires |sha| == 64 && Text.NoControls(sha)
    ensures JsonSize(Displayed(v, sha, index)) <= 61_440
  {
    var f := Displayed(v, sha, index);
    forall text: string, limit: nat
      ensures Text.NoControls(Bounded(text, limit)) && |Bounded(text, limit)| <= limit
    {
      BoundedText(text, limit);
    }
    HeadSize(f);
    KindSize(f);
    BodySize(f);
    EvidenceSize(f);
    Two(Head(f), Kind(f));
    Two(Body(f), Evidence(f));
    Two(Head(f) + Kind(f), Body(f) + Evidence(f));
  }

  // ---------------------------------------------------------------- pages

  predicate Document(values: seq<Stored>, sha: string) {
    |values| < 0x1_0000_0000_0000_0000 && |sha| == 64 && Text.NoControls(sha)
  }

  function All(values: seq<Stored>, sha: string): seq<Finding>
    requires Document(values, sha)
  {
    seq(|values|, i requires 0 <= i < |values| => Displayed(values[i], sha, i))
  }

  function Charge<F>(items: seq<F>, size: F -> nat): nat {
    if items == [] then 0 else Charge(items[..|items| - 1], size) + size(items[|items| - 1])
  }

  /** A page that starts at `offset` and ends at `next`: as many items as the limit and the budget let in. */
  ghost predicate IsPage<F>(items: seq<F>, size: F -> nat, offset: nat, limit: nat, page: seq<F>, next: nat) {
    && offset <= next <= |items| && page == items[offset..next]
    && |page| <= limit && Charge(page, size) <= PAGE_BUDGET
    && (next < |items| && |page| < limit ==> Charge(page, size) + size(items[next]) > PAGE_BUDGET)
  }

  /** The loop of `findings`. */
  method FillPage<F>(items: seq<F>, size: F -> nat, offset: nat, limit: nat) returns (page: seq<F>, next: nat)
    requires offset <= |items|
    ensures IsPage(items, size, offset, limit, page, next)
  {
    page, next := [], offset;
    var charged := 0;
    while next < |items| && next < offset + limit
      invariant offset <= next <= |items| && next <= offset + limit
      invariant page == items[offset..next]
      invariant charged == Charge(page, size) <= PAGE_BUDGET
    {
      var item := items[next];
      if charged + size(item) > PAGE_BUDGET {
        break;
      }
      charged := charged + size(item);
      assert (page + [item])[..|page|] == page;
      page := page + [item];
      next := next + 1;
    }
  }

  /** `findings`, for a readable result: refused on a bad limit or offset. */
  method Page(values: seq<Stored>, sha: string, offset: nat, limit: nat) returns (ok: bool, page: seq<Finding>, next: nat, more: bool)
    requires Document(values, sha)
    ensures ok <==> 1 <= limit <= 100 && offset <= |values|
    ensures ok ==> IsPage(All(values, sha), JsonSize, offset, limit, page, next)
    ensures ok ==> (more <==> next < |values|)
  {
    page, next, more := [], offset, false;
    ok := 1 <= limit <= PAGE_ITEMS && offset <= |values|;
    if ok {
      page, next := FillPage(All(values, sha), JsonSize, offset, limit);
      more := next < |values|;
    }
  }

  /** Where every item fits a page on its own, every page makes progress. */
  lemma PagesAdvance<F>(items: seq<F>, size: F -> nat, offset: nat, limit: nat, page: seq<F>, next: nat)
    requires IsPage(items, size, offset, limit, page, next) && limit >= 1 && offset < |items|
    requires size(items[offset]) <= PAGE_BUDGET
    ensures next > offset
  {
    var none := items[offset..offset];
    assert none == [] && Charge(none, size) == 0;
  }

  /** A page of findings that starts before the end is never empty. */
  lemma FindingPagesAdvance(values: seq<Stored>, sha: string, offset: nat, limit: nat, page: seq<Finding>, next: nat)
    requires Document(values, sha) && offset < |values| && limit >= 1
    requires IsPage(All(values, sha), JsonSize, offset, limit, page, next)
    ensures next > offset
  {
    EveryFindingFits(values[offset], sha, offset);
    PagesAdvance(All(values, sha), JsonSize, offset, limit, page, next);
  }

  /** One step of a reader that starts before the end. */
  method ReadNext(values: seq<Stored>, sha: string, offset: nat, limit: nat, ghost all: seq<Finding>)
    returns (page: seq<Finding>, next: nat, more: bool)
    requires Document(values, sha) && all == All(values, sha)
    requires offset < |values| && 1 <= limit <= PAGE_ITEMS
    ensures offset < next <= |all| && page == all[offset..next] && (more <==> next < |all|)
  {
    var ok;
    ok, page, next, more := Page(values, sha, offset, limit);
    FindingPagesAdvance(values, sha, offset, limit, page, next);
  }

  lemma Extend<F>(all: seq<F>, a: nat, b: nat)
    requires a <= b <= |all|
    ensures all[..a] + all[a..b] == all[..b]
  {
  }

  /** Paging from the start, each page's limit chosen freely: every finding once, in order, and it ends. */
  method ReadAll(values: seq<Stored>, sha: string, limits: nat -> nat) returns (read: seq<Finding>, pages: nat)
    requires Document(values, sha) && forall i: nat :: 1 <= limits(i) <= PAGE_ITEMS
    ensures read == All(values, sha) && pages <= |values|
  {
    ghost var all := All(values, sha);
    read, pages := ReadFrom(values, sha, limits, all);
  }

  method ReadFrom(values: seq<Stored>, sha: string, limits: nat -> nat, ghost all: seq<Finding>) returns (read: seq<Finding>, pages: nat)
    requires Document(values, sha) && all == All(values, sha) && |all| == |values|
    requires forall i: nat :: 1 <= limits(i) <= PAGE_ITEMS
    ensures read == all && pages <= |all|
  {
    read, pages := [], 0;
    var offset := 0;
    var more := values != [];
    while more
      invariant pages <= offset <= |all|
      invariant read == all[..offset]
      invariant more <==> offset < |all|
      decreases |all| - offset
    {
      var page, next, rest := ReadNext(values, sha, offset, limits(pages), all);
      Extend(all, offset, next);
      read, offset, more, pages := read + page, next, rest, pages + 1;
    }
  }
}

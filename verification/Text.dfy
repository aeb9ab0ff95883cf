/** Characters and names, as the Unicode tables used by Rust's `char` class them. */
module Text {

  /** General category Cc. */
  predicate IsControl(c: char) {
    c <= '\U{1F}' || '\U{7F}' <= c <= '\U{9F}'
  }

  /** The White_Space property. */
  predicate IsWhitespace(c: char) {
    || '\t' <= c <= '\r' || c == ' ' || c == '\U{85}' || c == '\U{A0}' || c == '\U{1680}'
    || '\U{2000}' <= c <= '\U{200A}' || c == '\U{2028}' || c == '\U{2029}' || c == '\U{202F}'
    || c == '\U{205F}' || c == '\U{3000}'
  }

  predicate NoControls(text: string) {
    forall c :: c in text ==> !IsControl(c)
  }

  /** `valid_name` (crates/idk/src/model.rs:591-597). */
  predicate ValidName(name: string) {
    && (exists c :: c in name && !IsWhitespace(c))
    && |name| <= 100
    && NoControls(name)
  }

  /** How many bytes UTF-8 takes for a character. */
  function Utf8Size(c: char): (size: nat)
    ensures 1 <= size <= 4
  {
    if c < '\U{80}' then 1 else if c < '\U{800}' then 2 else if c < '\U{10000}' then 3 else 4
  }

  function Utf8Length(text: string): nat {
    if text == "" then 0 else Utf8Length(text[..|text| - 1]) + Utf8Size(text[|text| - 1])
  }

  lemma {:induction false} Utf8LengthConcat(a: string, b: string)
    ensures Utf8Length(a + b) == Utf8Length(a) + Utf8Length(b)
  {
    if b == "" {
      assert a + b == a;
    } else {
      assert (a + b)[..|a + b| - 1] == a + b[..|b| - 1];
      Utf8LengthConcat(a, b[..|b| - 1]);
    }
  }
}

/** The escape stripper (crates/idk/src/problems.rs:66-161) against the control functions of ECMA-48. */
module ControlStripper {
  import opened Faults

  type Byte = b: int | 0 <= b < 256

  const ESC: Byte := 0x1b
  const BEL: Byte := 7
  const LF: Byte := 10
  const CR: Byte := 13
  const TAB: Byte := 9
  const BACKSLASH: Byte := 0x5c

  datatype Escape = Plain | Start | Intermediate | Csi | Osc | OscTerminator | String | StringTerminator

  /** Bytes that pass through unchanged. */
  predicate Visible(b: Byte) {
    b == LF || b == TAB || 0x20 <= b <= 0x7e || b >= 0x80
  }

  predicate OpensString(b: Byte) {
    b == 0x50 || b == 0x58 || b == 0x5e || b == 0x5f
  }

  function NextState(state: Escape, b: Byte): Escape {
    match state
    case Plain => if b == ESC then Start else Plain
    case Start =>
      if b == 0x5b then Csi
      else if b == 0x5d then Osc
      else if OpensString(b) then String
      else if 0x20 <= b <= 0x2f then Intermediate
      else if b == ESC then Start
      else Plain
    case Intermediate => if 0x30 <= b <= 0x7e then Plain else Intermediate
    case Csi => if 0x40 <= b <= 0x7e then Plain else if b == ESC then Start else Csi
    case Osc => if b == BEL then Plain else if b == ESC then OscTerminator else Osc
    case OscTerminator => if b == BACKSLASH then Plain else if b == ESC then OscTerminator else Osc
    case String => if b == ESC then StringTerminator else String
    case StringTerminator => if b == BACKSLASH then Plain else if b == ESC then StringTerminator else String
  }

  function Output(state: Escape, b: Byte): seq<Byte> {
    if !state.Plain? then [] else if b == CR then [LF] else if Visible(b) then [b] else []
  }

  predicate Removes(state: Escape, b: Byte) {
    state.Plain? && b != CR && !Visible(b)
  }

  /** `Controls`. */
  class Controls {
    var state: Escape
    var removed: bool

    constructor ()
      ensures state == Plain && !removed
    {
      state := Plain;
      removed := false;
    }

    method Consume(b: Byte) returns (out: Option<Byte>)
      modifies this
      ensures state == NextState(old(state), b)
      ensures removed == (old(removed) || Removes(old(state), b))
      ensures out == if Output(old(state), b) == [] then None else Some(Output(old(state), b)[0])
    {
      out := None;
      match state {
        case Plain =>
          if b == ESC {
            state, removed := Start, true;
          } else if b == CR {
            out := Some(LF);
          } else if Visible(b) {
            out := Some(b);
          } else {
            removed := true;
          }
        case Start =>
          if b == 0x5b {
            state := Csi;
          } else if b == 0x5d {
            state := Osc;
          } else if OpensString(b) {
            state := String;
          } else if 0x20 <= b <= 0x2f {
            state := Intermediate;
          } else if b != ESC {
            state := Plain;
          }
        case Intermediate =>
          if 0x30 <= b <= 0x7e {
            state := Plain;
          }
        case Csi =>
          if 0x40 <= b <= 0x7e {
            state := Plain;
          } else if b == ESC {
            state := Start;
          }
        case Osc =>
          if b == BEL {
            state := Plain;
          } else if b == ESC {
            state := OscTerminator;
          }
        case OscTerminator =>
          if b == BACKSLASH {
            state := Plain;
          } else if b != ESC {
            state := Osc;
          }
        case String =>
          if b == ESC {
            state := StringTerminator;
          }
        case StringTerminator =>
          if b == BACKSLASH {
            state := Plain;
          } else if b != ESC {
            state := String;
          }
      }
    }
  }

  /** The loop of `display_text`. */
  method StripAll(bytes: seq<Byte>) returns (plain: seq<Byte>)
    ensures plain == Strip(bytes)
  {
    var controls := new Controls();
    plain := [];
    var i := 0;
    while i < |bytes|
      invariant 0 <= i <= |bytes|
      invariant plain + StripFrom(controls.state, bytes[i..]) == Strip(bytes)
    {
      ghost var before := controls.state;
      assert bytes[i..][0] == bytes[i] && bytes[i..][1..] == bytes[i + 1..];
      var out := controls.Consume(bytes[i]);
      assert StripFrom(before, bytes[i..]) == Output(before, bytes[i]) + StripFrom(controls.state, bytes[i + 1..]);
      if out.Some? {
        assert Output(before, bytes[i]) == [out.value];
        assert plain + ([out.value] + StripFrom(controls.state, bytes[i + 1..])) == (plain + [out.value]) + StripFrom(controls.state, bytes[i + 1..]);
        plain := plain + [out.value];
      }
      i := i + 1;
    }
    assert bytes[i..] == [];
  }

  function StateAfter(state: Escape, bytes: seq<Byte>): Escape
    decreases |bytes|
  {
    if bytes == [] then state else StateAfter(NextState(state, bytes[0]), bytes[1..])
  }

  function StripFrom(state: Escape, bytes: seq<Byte>): seq<Byte>
    decreases |bytes|
  {
    if bytes == [] then [] else Output(state, bytes[0]) + StripFrom(NextState(state, bytes[0]), bytes[1..])
  }

  predicate RemovesFrom(state: Escape, bytes: seq<Byte>)
    decreases |bytes|
  {
    bytes != [] && (Removes(state, bytes[0]) || RemovesFrom(NextState(state, bytes[0]), bytes[1..]))
  }

  function Strip(bytes: seq<Byte>): seq<Byte> { StripFrom(Plain, bytes) }

  lemma {:induction false} StripConcat(state: Escape, a: seq<Byte>, b: seq<Byte>)
    ensures StateAfter(state, a + b) == StateAfter(StateAfter(state, a), b)
    ensures StripFrom(state, a + b) == StripFrom(state, a) + StripFrom(StateAfter(state, a), b)
    decreases |a|
  {
    if a == [] {
      assert a + b == b;
    } else {
      assert (a + b)[0] == a[0] && (a + b)[1..] == a[1..] + b;
      StripConcat(NextState(state, a[0]), a[1..], b);
    }
  }

  // ---------------------------------------------------------------- the language of control functions

  datatype Terminator = Bell | ST

  /** Text interleaved with control functions. */
  datatype Item =
    | Text(byte: Byte)                                                            // a byte to keep, or a carriage return
    | Control(byte: Byte)                                                         // a C0 control, or DEL
    | ControlSequence(parameters: seq<Byte>, intermediates: seq<Byte>, final: Byte)
    | EscapeSequence(intermediates: seq<Byte>, final: Byte)
    | ControlString(opener: Byte, content: seq<Byte>)                             // DCS, SOS, PM, APC
    | OperatingSystemCommand(content: seq<Byte>, terminator: Terminator)

  predicate AllIn(bytes: seq<Byte>, low: int, high: int) {
    forall i :: 0 <= i < |bytes| ==> low <= bytes[i] <= high
  }

  /** No string terminator inside, and no ESC at the end that would make one. */
  predicate NoTerminator(content: seq<Byte>) {
    && (forall i :: 0 <= i < |content| - 1 && content[i] == ESC ==> content[i + 1] != BACKSLASH)
    && (content == [] || content[|content| - 1] != ESC)
  }

  predicate WellFormed(item: Item) {
    match item
    case Text(b) => b == CR || Visible(b)
    case Control(b) => b != ESC && b != CR && !Visible(b)
    case ControlSequence(p, i, f) => AllIn(p, 0x30, 0x3f) && AllIn(i, 0x20, 0x2f) && 0x40 <= f <= 0x7e
    case EscapeSequence(i, f) =>
      AllIn(i, 0x20, 0x2f) && 0x30 <= f <= 0x7e && (i == [] ==> f != 0x5b && f != 0x5d && !OpensString(f))
    case ControlString(opener, content) => OpensString(opener) && NoTerminator(content)
    case OperatingSystemCommand(content, _) => ESC !in content && BEL !in content
  }

  function Print(item: Item): seq<Byte> {
    match item
    case Text(b) => [b]
    case Control(b) => [b]
    case ControlSequence(p, i, f) => [ESC, 0x5b] + (p + i) + [f]
    case EscapeSequence(i, f) => [ESC] + i + [f]
    case ControlString(opener, content) => [ESC, opener] + content + [ESC, BACKSLASH]
    case OperatingSystemCommand(content, t) => [ESC, 0x5d] + content + if t.Bell? then [BEL] else [ESC, BACKSLASH]
  }

  function Kept(item: Item): seq<Byte> {
    if item.Text? then [if item.byte == CR then LF else item.byte] else []
  }

  function PrintAll(items: seq<Item>): seq<Byte> {
    if items == [] then [] else Print(items[0]) + PrintAll(items[1..])
  }

  function KeptAll(items: seq<Item>): seq<Byte> {
    if items == [] then [] else Kept(items[0]) + KeptAll(items[1..])
  }

  /** Outside plain text nothing is output until the state is plain again. */
  lemma {:induction false} Swallow(state: Escape, bytes: seq<Byte>)
    requires state.Csi? || state.Intermediate? || state.Osc?
    requires state.Csi? ==> AllIn(bytes, 0x20, 0x3f)
    requires state.Intermediate? ==> AllIn(bytes, 0x20, 0x2f)
    requires state.Osc? ==> ESC !in bytes && BEL !in bytes
    ensures StateAfter(state, bytes) == state && StripFrom(state, bytes) == []
    decreases |bytes|
  {
    if bytes != [] {
      assert bytes[0] in bytes;
      assert NextState(state, bytes[0]) == state;
      assert forall i :: 0 <= i < |bytes[1..]| ==> bytes[1..][i] == bytes[i + 1] && bytes[1..][i] in bytes;
      Swallow(state, bytes[1..]);
    }
  }

  lemma {:induction false} SwallowString(pending: bool, content: seq<Byte>)
    requires NoTerminator(content) && (pending ==> content != [] && content[0] != BACKSLASH)
    ensures var state := if pending then StringTerminator else String;
      StateAfter(state, content) == String && StripFrom(state, content) == []
    decreases |content|
  {
    var state := if pending then StringTerminator else String;
    if content != [] {
      var rest := content[1..];
      assert forall i :: 0 <= i < |rest| ==> rest[i] == content[i + 1];
      if content[0] == ESC {
        assert |content| > 1 && rest[0] != BACKSLASH;
      }
      SwallowString(content[0] == ESC, rest);
      assert NextState(state, content[0]) == if content[0] == ESC then StringTerminator else String;
    }
  }

  lemma Pair(state: Escape, a: Byte, b: Byte)
    ensures StateAfter(state, [a, b]) == NextState(NextState(state, a), b)
    ensures StripFrom(state, [a, b]) == Output(state, a) + Output(NextState(state, a), b)
  {
    Single(NextState(state, a), b);
    assert [a, b][0] == a && [a, b][1..] == [b];
  }

  lemma Single(state: Escape, a: Byte)
    ensures StateAfter(state, [a]) == NextState(state, a) && StripFrom(state, [a]) == Output(state, a)
  {
    assert [a][1..] == [];
  }

  /** An opening, a body and an end, stripped one after the other. */
  lemma ThreeParts(a: seq<Byte>, b: seq<Byte>, c: seq<Byte>, s1: Escape, s2: Escape)
    requires StateAfter(Plain, a) == s1 && StateAfter(s1, b) == s2
    requires StripFrom(Plain, a) == [] && StripFrom(s1, b) == [] && StripFrom(s2, c) == []
    ensures StateAfter(Plain, a + b + c) == StateAfter(s2, c) && Strip(a + b + c) == []
  {
    StripConcat(Plain, a + b, c);
    StripConcat(Plain, a, b);
  }

  lemma ItemStripped(item: Item)
    requires WellFormed(item)
    ensures StateAfter(Plain, Print(item)) == Plain && Strip(Print(item)) == Kept(item)
  {
    match item
    case Text(b) => Single(Plain, b);
    case Control(b) => Single(Plain, b);
    case ControlSequence(p, i, f) =>
      Pair(Plain, ESC, 0x5b);
      Swallow(Csi, p + i);
      Single(Csi, f);
      ThreeParts([ESC, 0x5b], p + i, [f], Csi, Csi);
    case EscapeSequence(i, f) =>
      Single(Plain, ESC);
      if i == [] {
        Single(Start, f);
        assert StateAfter(Start, []) == Start;
        ThreeParts([ESC], [], [f], Start, Start);
      } else {
        Single(Start, i[0]);
        assert NextState(Start, i[0]) == Intermediate;
        Swallow(Intermediate, i[1..]);
        assert i == [i[0]] + i[1..];
        StripConcat(Start, [i[0]], i[1..]);
        Single(Intermediate, f);
        ThreeParts([ESC], i, [f], Start, Intermediate);
      }
    case ControlString(opener, content) =>
      Pair(Plain, ESC, opener);
      SwallowString(false, content);
      Pair(String, ESC, BACKSLASH);
      ThreeParts([ESC, opener], content, [ESC, BACKSLASH], String, String);
    case OperatingSystemCommand(content, t) =>
      Pair(Plain, ESC, 0x5d);
      Swallow(Osc, content);
      Single(Osc, BEL);
      Pair(Osc, ESC, BACKSLASH);
      ThreeParts([ESC, 0x5d], content, if t.Bell? then [BEL] else [ESC, BACKSLASH], Osc, Osc);
  }

  /** From any text with well-formed control functions, exactly the text remains. */
  lemma {:induction false} StripInvertsPrint(items: seq<Item>)
    requires forall i :: 0 <= i < |items| ==> WellFormed(items[i])
    ensures StateAfter(Plain, PrintAll(items)) == Plain && Strip(PrintAll(items)) == KeptAll(items)
  {
    if items != [] {
      ItemStripped(items[0]);
      StripInvertsPrint(items[1..]);
      StripConcat(Plain, Print(items[0]), PrintAll(items[1..]));
    }
  }

  // ---------------------------------------------------------------- all inputs

  predicate AllVisible(bytes: seq<Byte>) {
    forall i :: 0 <= i < |bytes| ==> Visible(bytes[i])
  }

  lemma {:induction false} StrippedIsVisible(state: Escape, bytes: seq<Byte>)
    ensures AllVisible(StripFrom(state, bytes)) && |StripFrom(state, bytes)| <= |bytes|
    decreases |bytes|
  {
    if bytes != [] {
      StrippedIsVisible(NextState(state, bytes[0]), bytes[1..]);
    }
  }

  lemma {:induction false} VisibleStays(bytes: seq<Byte>)
    requires AllVisible(bytes)
    ensures Strip(bytes) == bytes
  {
    if bytes != [] {
      assert AllVisible(bytes[1..]);
      VisibleStays(bytes[1..]);
      assert bytes == [bytes[0]] + bytes[1..];
    }
  }

  /** Stripping stripped text changes nothing, whatever the text was. */
  lemma StripIsIdempotent(bytes: seq<Byte>)
    ensures Strip(Strip(bytes)) == Strip(bytes)
  {
    StrippedIsVisible(Plain, bytes);
    VisibleStays(Strip(bytes));
  }

  function LineFeeds(bytes: seq<Byte>): seq<Byte> {
    seq(|bytes|, i requires 0 <= i < |bytes| => if bytes[i] == CR then LF else bytes[i])
  }

  /** The removal flag is exact: unset, the output is the input with carriage returns as line feeds; set, bytes are gone. */
  lemma {:induction false} RemovedIffShorter(bytes: seq<Byte>)
    ensures RemovesFrom(Plain, bytes) <==> |Strip(bytes)| < |bytes|
    ensures !RemovesFrom(Plain, bytes) ==> Strip(bytes) == LineFeeds(bytes)
  {
    if bytes != [] {
      StrippedIsVisible(NextState(Plain, bytes[0]), bytes[1..]);
      if !Removes(Plain, bytes[0]) {
        RemovedIffShorter(bytes[1..]);
      }
    }
  }
}

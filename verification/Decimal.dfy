/** Decimal notation of natural numbers. */
module Decimal {

  const DIGITS := "0123456789"

  function Print(n: nat): (text: string)
    ensures text != [] && forall c :: c in text ==> c in DIGITS
  {
    if n < 10 then [DIGITS[n]] else Print(n / 10) + [DIGITS[n % 10]]
  }

  function DigitValue(c: char): nat
    requires c in DIGITS
  {
    c as nat - '0' as nat
  }

  predicate AllDigits(text: string) {
    forall c :: c in text ==> c in DIGITS
  }

  function Value(text: string): nat
    requires AllDigits(text)
  {
    if text == [] then 0 else 10 * Value(text[..|text| - 1]) + DigitValue(text[|text| - 1])
  }

  lemma DigitOf(d: nat)
    requires d < 10
    ensures DIGITS[d] in DIGITS && DigitValue(DIGITS[d]) == d
  {
  }

  lemma {:induction false} ValuePrint(n: nat)
    ensures Value(Print(n)) == n
  {
    var text := Print(n);
    DigitOf(n % 10);
    if n >= 10 {
      ValuePrint(n / 10);
      assert text[..|text| - 1] == Print(n / 10);
    } else {
      assert text[..|text| - 1] == "";
    }
  }

  lemma PrintInjective(m: nat, n: nat)
    requires Print(m) == Print(n)
    ensures m == n
  {
    ValuePrint(m);
    ValuePrint(n);
  }
}

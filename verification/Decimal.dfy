/** Numbers in decimal, as the programs print and read them. */
module Decimal {

  predicate IsDigit(c: char) {
    '0' <= c <= '9'
  }

  predicate AllDigits(text: string) {
    forall i | 0 <= i < |text| :: IsDigit(text[i])
  }

  function DigitOf(n: nat): (c: char)
    requires n < 10
    ensures IsDigit(c) && ValueOf(c) == n
  {
    '0' + n as char
  }

  function ValueOf(c: char): (n: nat)
    requires IsDigit(c)
    ensures n < 10
  {
    c as int - '0' as int
  }

  function Print(n: nat): (text: string)
    ensures text != "" && AllDigits(text)
    decreases n
  {
    if n < 10 then [DigitOf(n)] else Print(n / 10) + [DigitOf(n % 10)]
  }

  function Parse(text: string): nat
    requires AllDigits(text)
  {
    if text == "" then 0
    else 10 * Parse(text[..|text| - 1]) + ValueOf(text[|text| - 1])
  }

  lemma {:induction false} ParseInvertsPrint(n: nat)
    ensures Parse(Print(n)) == n
  {
    if 10 <= n {
      ParseInvertsPrint(n / 10);
      assert Print(n)[..|Print(n)| - 1] == Print(n / 10);
    } else {
      assert Print(n)[..0] == "";
    }
  }

  /** Nothing is printed before the first digit that counts. */
  lemma {:induction false} NoLeadingZeros(n: nat)
    ensures Print(n)[0] == '0' <==> n == 0
  {
    if 10 <= n {
      NoLeadingZeros(n / 10);
    }
  }

  lemma PrintIsInjective(m: nat, n: nat)
    requires Print(m) == Print(n)
    ensures m == n
  {
    ParseInvertsPrint(m);
    ParseInvertsPrint(n);
  }
}

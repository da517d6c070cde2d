/** Unsigned decimal numbers, written and read. */
module DecimalText {

  predicate IsDigit(c: char) { '0' <= c <= '9' }

  predicate AllDigits(s: string) {
    forall i :: 0 <= i < |s| ==> IsDigit(s[i])
  }

  function Digit(n: nat): char
    requires n < 10
  {
    ['0', '1', '2', '3', '4', '5', '6', '7', '8', '9'][n]
  }

  function Decimal(n: nat): (s: string)
    ensures s != "" && AllDigits(s)
  {
    if n < 10 then [Digit(n)] else Decimal(n / 10) + [Digit(n % 10)]
  }

  function Number(s: string): nat
    requires AllDigits(s)
  {
    if s == "" then 0 else Number(s[..|s| - 1]) * 10 + (s[|s| - 1] as int - '0' as int)
  }

  lemma DigitReads(n: nat)
    requires n < 10
    ensures IsDigit(Digit(n)) && Digit(n) as int - '0' as int == n
  {
  }

  lemma OneMoreDigit(s: string, n: nat)
    requires AllDigits(s) && n < 10
    ensures AllDigits(s + [Digit(n)]) && Number(s + [Digit(n)]) == Number(s) * 10 + n
  {
    hide Digit;
    DigitReads(n);
    assert (s + [Digit(n)])[..|s|] == s;
  }

  lemma {:induction false} NumberOfDecimal(n: nat)
    ensures Number(Decimal(n)) == n
  {
    hide Digit, Number, AllDigits;
    if n < 10 {
      NumberOfNothing();
      OneMoreDigit("", n);
      assert "" + [Digit(n)] == [Digit(n)];
    } else {
      NumberOfDecimal(n / 10);
      OneMoreDigit(Decimal(n / 10), n % 10);
    }
  }

  lemma NumberOfNothing()
    ensures AllDigits("") && Number("") == 0
  {
  }
}

/** String helpers shared by the routing and URL-generation models: decimal
    rendering of integers (Ruby's "#{n}") and Ruby's Kernel#Integer on the
    digit strings that a `\d+` capture can produce. */
module Text {
  import opened Wrappers

  predicate IsDigit(c: char) {
    '0' <= c <= '9'
  }

  predicate IsOctalDigit(c: char) {
    '0' <= c <= '7'
  }

  predicate AllDigits(s: string) {
    forall i :: 0 <= i < |s| ==> IsDigit(s[i])
  }

  function DigitChar(d: nat): (c: char)
    requires d < 10
    ensures IsDigit(c)
  {
    ['0', '1', '2', '3', '4', '5', '6', '7', '8', '9'][d]
  }

  function DigitValue(c: char): nat
    requires IsDigit(c)
  {
    (c as int - '0' as int) as nat
  }

  /** The value of a digit string read in base 10 (or in `base`). */
  function ValueIn(base: nat, s: string): nat
    requires AllDigits(s)
  {
    if s == [] then 0 else base * ValueIn(base, s[..|s| - 1]) + DigitValue(s[|s| - 1])
  }

  /** Decimal text of a natural number, without leading zeros. */
  function NatToString(n: nat): (s: string)
    ensures |s| > 0 && AllDigits(s)
    ensures n < 10 <==> |s| == 1
  {
    if n < 10 then [DigitChar(n)] else NatToString(n / 10) + [DigitChar(n % 10)]
  }

  /** Ruby's Integer#to_s, which string interpolation uses. */
  function IntToString(i: int): (s: string)
    ensures |s| > 0
    ensures i >= 0 ==> AllDigits(s)
    ensures i < 0 ==> s[0] == '-' && AllDigits(s[1..])
  {
    if i < 0 then "-" + NatToString(-i) else NatToString(i)
  }

  lemma {:induction false} DigitRoundTrip(d: nat)
    requires d < 10
    ensures DigitValue(DigitChar(d)) == d
  {
  }

  lemma {:induction false} NatToStringValue(n: nat)
    ensures ValueIn(10, NatToString(n)) == n
  {
    var s := NatToString(n);
    if n < 10 {
      DigitRoundTrip(n);
    } else {
      NatToStringValue(n / 10);
      DigitRoundTrip(n % 10);
      assert s[..|s| - 1] == NatToString(n / 10);
    }
  }

  /** The text of a positive number never starts with '0'. */
  lemma {:induction false} NatToStringLeadingDigit(n: nat)
    ensures NatToString(n)[0] == '0' <==> n == 0
  {
    if n >= 10 {
      NatToStringLeadingDigit(n / 10);
    }
  }

  /** Ruby's `Integer(s)` on a string of ASCII digits: a leading "0"
      followed by more digits selects base 8 (so "010" is 8 and "08"
      raises ArgumentError); otherwise the digits are read in base 10.
      Any other string raises here; the routing core only ever passes the
      text of a `\d+` capture. */
  function RubyInteger(s: string): (r: Result<int, string>)
    ensures r.Success? ==> r.value >= 0
    ensures r.Failure? <==>
              s == [] || !AllDigits(s) ||
              (|s| > 1 && s[0] == '0' && exists i :: 1 <= i < |s| && !IsOctalDigit(s[i]))
  {
    if s == [] || !AllDigits(s) then Failure(s)
    else if |s| > 1 && s[0] == '0' then
      if forall i :: 1 <= i < |s| ==> IsOctalDigit(s[i]) then Success(ValueIn(8, s[1..]))
      else Failure(s)
    else Success(ValueIn(10, s))
  }

  /** Integer(n.to_s) == n for every natural number. */
  lemma {:induction false} IntegerOfDecimalText(n: nat)
    ensures RubyInteger(NatToString(n)) == Success(n)
  {
    NatToStringValue(n);
    NatToStringLeadingDigit(n);
  }
}

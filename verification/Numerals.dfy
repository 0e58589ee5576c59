/** Decimal numerals, as strconv writes and reads them. */
module Numerals {
  import opened Domain

  const DIGITS := "0123456789"
  const INT_LIMIT := 0x8000_0000_0000_0000

  function Itoa(n: nat): (s: string)
    ensures s != ""
  {
    if n < 10 then [DIGITS[n]] else Itoa(n / 10) + [DIGITS[n % 10]]
  }

  predicate IsDigit(c: char) {
    '0' <= c <= '9'
  }

  function Value(s: string): int
    requires forall i :: 0 <= i < |s| ==> IsDigit(s[i])
  {
    if s == "" then 0 else 10 * Value(s[..|s| - 1]) + (s[|s| - 1] as int - '0' as int)
  }

  predicate IsSigned(s: string) {
    s != "" && (s[0] == '-' || s[0] == '+')
  }

  /** None is the error for text that is not a decimal integer or does not fit 64 bits. */
  function Atoi(s: string): Option<int> {
    var digits := if IsSigned(s) then s[1..] else s;
    if digits == "" || exists i :: 0 <= i < |digits| && !IsDigit(digits[i]) then None
    else
      var v := if s[0] == '-' then -Value(digits) else Value(digits);
      if -INT_LIMIT <= v < INT_LIMIT then Some(v) else None
  }

  lemma {:induction false} ValueOfItoa(n: nat)
    ensures forall i :: 0 <= i < |Itoa(n)| ==> IsDigit(Itoa(n)[i])
    ensures Value(Itoa(n)) == n
  {
    if n >= 10 {
      ValueOfItoa(n / 10);
      assert Itoa(n)[..|Itoa(n)| - 1] == Itoa(n / 10);
    } else {
      assert Itoa(n)[..0] == "";
    }
  }

  /** Reading back a written 64-bit number. */
  lemma AtoiOfItoa(n: nat)
    requires n < INT_LIMIT
    ensures Atoi(Itoa(n)) == Some(n)
  {
    ValueOfItoa(n);
    assert IsDigit(Itoa(n)[0]);
  }

  /** Reading back a number that does not fit. */
  lemma AtoiTooLarge(n: nat)
    requires n >= INT_LIMIT
    ensures Atoi(Itoa(n)) == None
  {
    ValueOfItoa(n);
    assert IsDigit(Itoa(n)[0]);
  }

  /** A written number is decimal: it ends in its last digit, after what is written for the others. */
  lemma ItoaIsDecimal(n: nat)
    ensures var s := Itoa(n);
            && s[|s| - 1] as int - '0' as int == n % 10
            && s[..|s| - 1] == if n >= 10 then Itoa(n / 10) else ""
  {
    if n >= 10 {
      assert Itoa(n)[..|Itoa(n)| - 1] == Itoa(n / 10);
    }
  }
}

/** Decimal text of unsigned numbers: Rust's `to_string` and `parse::<u64>`. */
module Decimal {
  import opened Wrappers

  const U64_MAX: nat := 0xFFFF_FFFF_FFFF_FFFF

  predicate IsDigit(c: char) {
    '0' <= c <= '9'
  }

  predicate AllDigits(s: string) {
    forall i :: 0 <= i < |s| ==> IsDigit(s[i])
  }

  function DigitValue(c: char): nat
    requires IsDigit(c)
  {
    c as int - '0' as int
  }

  function Print(n: nat): (s: string)
    ensures s != "" && AllDigits(s)
  {
    var last := ['0' + (n % 10) as char];
    if n < 10 then last else Print(n / 10) + last
  }

  function Value(s: string): nat
    requires AllDigits(s)
  {
    if s == "" then 0 else 10 * Value(s[..|s| - 1]) + DigitValue(s[|s| - 1])
  }

  /** A leading plus sign is allowed; anything but digits, or a value that does not fit in
      64 bits, is an error. */
  function ParseU64(s: string): Option<nat> {
    var digits := if s != "" && s[0] == '+' then s[1..] else s;
    if digits == "" || !AllDigits(digits) || Value(digits) > U64_MAX then None
    else Some(Value(digits))
  }

  lemma {:induction false} PrintValue(n: nat)
    ensures Value(Print(n)) == n
  {
    if n >= 10 {
      PrintValue(n / 10);
      assert Print(n)[..|Print(n)| - 1] == Print(n / 10);
    }
  }

  /** Parsing undoes printing, for every number of 64 bits and no other. */
  lemma PrintParse(n: nat)
    ensures ParseU64(Print(n)) == if n <= U64_MAX then Some(n) else None
  {
    PrintValue(n);
    assert IsDigit(Print(n)[0]);
  }

  /** A plus sign and leading zeros are allowed; nothing else than digits is. */
  lemma {:induction false} ParseAccepts(n: nat, s: string, i: nat)
    requires n <= U64_MAX
    ensures ParseU64("+" + Print(n)) == Some(n) && ParseU64("0" + Print(n)) == Some(n)
    ensures ParseU64("") == None && ParseU64("+") == None
    ensures i < |s| && !('0' <= s[i] <= '9') && !(i == 0 && s[0] == '+') ==> ParseU64(s) == None
  {
    PrintValue(n);
    assert ("+" + Print(n))[1..] == Print(n);
    ZeroInFront(Print(n));
    if i < |s| && i > 0 && s[0] == '+' {
      assert s[1..][i - 1] == s[i];
    }
  }

  lemma {:induction false} ZeroInFront(s: string)
    requires AllDigits(s)
    ensures AllDigits("0" + s) && Value("0" + s) == Value(s)
  {
    if s != "" {
      var n := |s| - 1;
      ZeroInFront(s[..n]);
      assert ("0" + s)[..n + 1] == "0" + s[..n];
    }
  }
}

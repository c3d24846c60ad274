/**
 * Decimal text for unsigned integers, as the launcher uses it: Rust's
 * `{}` formatting of a `u64`/`usize` and `str::parse::<usize>`.
 */
module Decimal {
  import opened Wrappers

  /** One more than the largest 64-bit `usize`. */
  const USIZE_LIMIT: nat := 0x1_0000_0000_0000_0000

  predicate IsDigits(s: string)
  {
    forall i :: 0 <= i < |s| ==> '0' <= s[i] <= '9'
  }

  function DigitChar(d: nat): char
    requires d < 10
  {
    (d + '0' as int) as char
  }

  function DigitValue(c: char): nat
    requires '0' <= c <= '9'
  {
    c as int - '0' as int
  }

  /** Rust's `{}` formatting of an unsigned integer: decimal digits, no sign, no leading zero. */
  function Format(n: nat): (s: string)
    ensures |s| >= 1 && IsDigits(s)
    ensures |s| > 1 ==> s[0] != '0'
    decreases n
  {
    if n < 10 then [DigitChar(n)] else Format(n / 10) + [DigitChar(n % 10)]
  }

  /** The number a string of decimal digits denotes. */
  function Value(s: string): nat
    requires IsDigits(s)
    decreases |s|
  {
    if s == [] then 0 else Value(s[..|s| - 1]) * 10 + DigitValue(s[|s| - 1])
  }

  /** `str::parse::<usize>`: an optional `+`, then at least one digit, denoting a value below 2^64. */
  function ParseUsize(s: string): Option<nat>
  {
    var digits := if |s| > 0 && s[0] == '+' then s[1..] else s;
    if digits == [] || !IsDigits(digits) || Value(digits) >= USIZE_LIMIT then None
    else Some(Value(digits))
  }

  lemma {:induction false} ValueOfFormat(n: nat)
    ensures Value(Format(n)) == n
    decreases n
  {
    if n >= 10 {
      var s := Format(n / 10);
      ValueOfFormat(n / 10);
      assert (s + [DigitChar(n % 10)])[..|s|] == s;
    }
  }

  /** Formatting an index and parsing it back, as a spawned process does with its id, gives the index. */
  lemma ParseOfFormat(n: nat)
    requires n < USIZE_LIMIT
    ensures ParseUsize(Format(n)) == Some(n)
  {
    ValueOfFormat(n);
  }

  lemma FormatInjective(m: nat, n: nat)
    requires Format(m) == Format(n)
    ensures m == n
  {
    ValueOfFormat(m);
    ValueOfFormat(n);
  }
}

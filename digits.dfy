/**
 * Decimal text of unsigned integers: `to_string` on `u32`/`usize` and
 * `str::parse::<u32>`, which accepts one optional leading `+`, then at least
 * one ASCII digit and nothing else, and refuses values of 2^32 and above.
 */
module Decimal {
  import opened Wrappers
  import opened Primitives

  predicate IsDigit(c: char) { '0' <= c <= '9' }

  predicate AllDigits(s: string) { forall i :: 0 <= i < |s| ==> IsDigit(s[i]) }

  function DigitChar(d: nat): (c: char)
    requires d < 10
    ensures IsDigit(c) && c as int - '0' as int == d
  {
    ('0' as int + d) as char
  }

  /** The decimal digits of `n`, most significant first, without leading zeros. */
  function NatToString(n: nat): (s: string)
    ensures |s| > 0 && AllDigits(s)
    ensures s[0] == '0' <==> n == 0
    decreases n
  {
    if n < 10 then [DigitChar(n)] else NatToString(n / 10) + [DigitChar(n % 10)]
  }

  /** The number a string of digits denotes. */
  function DigitsValue(s: string): nat
    requires AllDigits(s)
  {
    if |s| == 0 then 0 else DigitsValue(s[..|s| - 1]) * 10 + (s[|s| - 1] as int - '0' as int)
  }

  /** `s.parse::<u32>()`, with `None` for every `Err`. */
  function ParseU32(s: string): (r: Option<U32>)
    ensures r.Some? ==> |s| > 0
  {
    var digits := if |s| > 0 && s[0] == '+' then s[1..] else s;
    if |digits| == 0 || !AllDigits(digits) then None
    else if DigitsValue(digits) < U32_LIMIT then Some(DigitsValue(digits))
    else None
  }

  /** Reading back the digits of `n` gives `n`. */
  lemma {:induction false} DigitsOfNatToString(n: nat)
    ensures DigitsValue(NatToString(n)) == n
    decreases n
  {
    if n >= 10 {
      var front := NatToString(n / 10);
      var s := front + [DigitChar(n % 10)];
      assert s[..|s| - 1] == front;
      DigitsOfNatToString(n / 10);
    }
  }

  /** `n.to_string().parse::<u32>()` is `Ok(n)`, with or without a leading `+`. */
  lemma ParseU32RoundTrip(n: U32)
    ensures ParseU32(NatToString(n)) == Some(n)
    ensures ParseU32("+" + NatToString(n)) == Some(n)
  {
    DigitsOfNatToString(n);
    assert ("+" + NatToString(n))[1..] == NatToString(n);
  }

  /** Distinct numbers have distinct decimal strings. */
  lemma NatToStringInjective(m: nat, n: nat)
    requires NatToString(m) == NatToString(n)
    ensures m == n
  {
    DigitsOfNatToString(m);
    DigitsOfNatToString(n);
  }
}

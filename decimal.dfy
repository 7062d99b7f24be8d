/**
  Go's `strconv.Atoi` on a 64-bit platform: an optional `+` or `-`, then one
  or more decimal digits, and a value that fits in `int64`. Anything else is
  an error. The lottery uses it to turn a strategy's string key into an item id.
 */
module Decimal {
  import opened Wrappers

  const MinInt64: int := -0x8000_0000_0000_0000
  const MaxInt64: int := 0x7FFF_FFFF_FFFF_FFFF

  predicate IsDigit(c: char)
  {
    '0' <= c <= '9'
  }

  predicate AllDigits(s: string)
  {
    forall i | 0 <= i < |s| :: IsDigit(s[i])
  }

  function DigitValue(c: char): nat
    requires IsDigit(c)
  {
    (c as int) - ('0' as int)
  }

  /** The value of a run of decimal digits, most significant first. */
  function DigitsValue(s: string): nat
    requires AllDigits(s)
    decreases |s|
  {
    if s == [] then 0 else DigitsValue(s[..|s| - 1]) * 10 + DigitValue(s[|s| - 1])
  }

  /** `s` without its sign character, if it has one. */
  function Unsigned(s: string): string
  {
    if |s| > 0 && (s[0] == '+' || s[0] == '-') then s[1..] else s
  }

  /** The value a sign and a digit run spell, before any range check. */
  function SignedValue(s: string): int
    requires |Unsigned(s)| > 0 && AllDigits(Unsigned(s))
  {
    var magnitude: int := DigitsValue(Unsigned(s));
    if s[0] == '-' then -magnitude else magnitude
  }

  /** `strconv.Atoi(s)`: `Some(n)` when it succeeds, `None` for a syntax or range error. */
  function Atoi(s: string): (r: Option<int>)
    ensures r.Some? ==> MinInt64 <= r.value <= MaxInt64
    ensures r.Some? ==> |Unsigned(s)| > 0 && AllDigits(Unsigned(s))
    ensures r.Some? ==> (r.value < 0 ==> s[0] == '-')
    ensures r.Some? ==> r.value == SignedValue(s)
  {
    if |s| == 0 then None
    else
      var digits := Unsigned(s);
      if |digits| == 0 || !AllDigits(digits) then None
      else
        var magnitude: int := DigitsValue(digits);
        var v := if s[0] == '-' then -magnitude else magnitude;
        if MinInt64 <= v <= MaxInt64 then Some(v) else None
  }

  function DigitChar(d: nat): (c: char)
    requires d < 10
    ensures IsDigit(c) && DigitValue(c) == d
  {
    ('0' as int + d) as char
  }

  /** The shortest decimal spelling of `n`, as `strconv.Itoa` writes it. */
  function FormatNat(n: nat): (s: string)
    decreases n
  {
    if n < 10 then [DigitChar(n)] else FormatNat(n / 10) + [DigitChar(n % 10)]
  }

  function FormatInt(n: int): string
  {
    if n < 0 then "-" + FormatNat(-n) else FormatNat(n)
  }

  lemma {:induction false} FormatNatDigits(n: nat)
    ensures |FormatNat(n)| > 0 && AllDigits(FormatNat(n))
    ensures DigitsValue(FormatNat(n)) == n
    decreases n
  {
    var s := FormatNat(n);
    if n >= 10 {
      FormatNatDigits(n / 10);
      assert s[..|s| - 1] == FormatNat(n / 10);
    }
  }

  /** An item id written in decimal reads back as the same id. */
  lemma AtoiFormatInt(n: int)
    requires MinInt64 <= n <= MaxInt64
    ensures Atoi(FormatInt(n)) == Some(n)
  {
    var s := FormatInt(n);
    if n < 0 {
      FormatNatDigits(-n);
      assert Unsigned(s) == FormatNat(-n);
    } else {
      FormatNatDigits(n);
      assert Unsigned(s) == FormatNat(n);
    }
  }

  /** Every optional sign followed by a digit run whose value fits in `int64` is accepted. */
  lemma AtoiAccepts(s: string)
    requires |Unsigned(s)| > 0 && AllDigits(Unsigned(s))
    requires MinInt64 <= SignedValue(s) <= MaxInt64
    ensures Atoi(s) == Some(SignedValue(s))
  {
  }

  /** A signed digit run outside the `int64` range is refused. */
  lemma AtoiRejectsOutOfRange(s: string)
    requires |Unsigned(s)| > 0 && AllDigits(Unsigned(s))
    requires SignedValue(s) < MinInt64 || MaxInt64 < SignedValue(s)
    ensures Atoi(s) == None
  {
  }
}

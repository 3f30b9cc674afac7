/** Go's `strconv.Atoi` on a 64-bit platform, and `strconv.FormatInt` with
    base 10 as its inverse. Atoi accepts an optional `+` or `-` followed by one
    or more ASCII decimal digits whose value fits in a signed 64-bit integer;
    anything else (the empty string, a lone sign, spaces, underscores, a
    second sign, a colon) is a syntax or range error. */
module StrConv {
  import opened Wrappers

  const MIN_INT64: int := -0x8000_0000_0000_0000
  const MAX_INT64: int := 0x7fff_ffff_ffff_ffff

  predicate IsDigit(ch: char) {
    '0' <= ch <= '9'
  }

  predicate AllDigits(s: string) {
    forall i :: 0 <= i < |s| ==> IsDigit(s[i])
  }

  function DigitValue(ch: char): (d: nat)
    requires IsDigit(ch)
    ensures d < 10
  {
    ch as int - '0' as int
  }

  function DigitChar(d: nat): (ch: char)
    requires d < 10
    ensures IsDigit(ch) && DigitValue(ch) == d
  {
    ('0' as int + d) as char
  }

  /** The value of a string of decimal digits, most significant first. */
  function DigitsValue(s: string): nat
    requires AllDigits(s)
  {
    if s == [] then 0 else 10 * DigitsValue(s[..|s| - 1]) + DigitValue(s[|s| - 1])
  }

  /** Splits off one leading sign: whether it was `-`, and the rest. */
  function SplitSign(s: string): (r: (bool, string))
    ensures |r.1| <= |s| <= |r.1| + 1 && r.1 == s[|s| - |r.1|..]
  {
    if |s| > 0 && (s[0] == '+' || s[0] == '-') then (s[0] == '-', s[1..]) else (false, s)
  }

  /** `strconv.Atoi`: the integer `s` denotes, or None where Go returns an error. */
  function Atoi(s: string): (r: Option<int>)
    ensures r.Some? ==> MIN_INT64 <= r.value <= MAX_INT64
    ensures r.Some? ==> |s| > 0 && (IsDigit(s[0]) || s[0] == '+' || s[0] == '-')
  {
    var (negative, digits) := SplitSign(s);
    if digits == [] || !AllDigits(digits) then None
    else
      var magnitude: int := DigitsValue(digits);
      var n := if negative then -magnitude else magnitude;
      if MIN_INT64 <= n <= MAX_INT64 then Some(n) else None
  }

  /** The shortest decimal spelling of a natural number. */
  function NatDigits(n: nat): (s: string)
    ensures |s| > 0 && AllDigits(s)
    decreases n
  {
    if n < 10 then [DigitChar(n)] else NatDigits(n / 10) + [DigitChar(n % 10)]
  }

  /** `strconv.FormatInt(n, 10)`: a `-` for negative numbers, then the digits. */
  function FormatInt(n: int): (s: string)
    ensures |s| > 0
  {
    if n < 0 then "-" + NatDigits(-n) else NatDigits(n)
  }

  lemma {:induction false} DigitsValueOfNatDigits(n: nat)
    ensures DigitsValue(NatDigits(n)) == n
    decreases n
  {
    if n >= 10 {
      var front := NatDigits(n / 10);
      var s := front + [DigitChar(n % 10)];
      assert s[..|s| - 1] == front;
      DigitsValueOfNatDigits(n / 10);
    }
  }

  /** Atoi parses back every 64-bit integer that FormatInt prints. */
  lemma AtoiFormatInt(n: int)
    requires MIN_INT64 <= n <= MAX_INT64
    ensures Atoi(FormatInt(n)) == Some(n)
  {
    DigitsValueOfNatDigits(if n < 0 then -n else n);
    if n < 0 {
      assert FormatInt(n)[1..] == NatDigits(-n);
    }
  }

  /** Every character after the first of an accepted string is a digit. */
  lemma AtoiAcceptsOnlyDigitsAfterSign(s: string, i: nat)
    requires Atoi(s).Some? && 0 < i < |s|
    ensures IsDigit(s[i])
  {
    assert s[1..][i - 1] == s[i];
  }

  /** A colon anywhere in the input makes Atoi fail: it is neither a digit nor a sign. */
  lemma AtoiRejectsColon(s: string, i: nat)
    requires i < |s| && s[i] == ':'
    ensures Atoi(s) == None
  {
    if Atoi(s).Some? && i > 0 {
      AtoiAcceptsOnlyDigitsAfterSign(s, i);
    }
  }

  function Pow10(n: nat): (p: nat)
    ensures p >= 1
  {
    if n == 0 then 1 else 10 * Pow10(n - 1)
  }

  lemma {:induction false} DigitsValueBelowPow10(s: string)
    requires AllDigits(s)
    ensures DigitsValue(s) < Pow10(|s|)
  {
    if s != [] {
      DigitsValueBelowPow10(s[..|s| - 1]);
    }
  }

  lemma {:induction false} Pow10Monotone(m: nat, n: nat)
    requires m <= n
    ensures Pow10(m) <= Pow10(n)
    decreases n
  {
    if m < n {
      Pow10Monotone(m, n - 1);
    }
  }

  /** At most 18 digits always fit in 64 bits. */
  lemma ShortDigitsFitInt64(digits: string)
    requires |digits| <= 18 && AllDigits(digits)
    ensures DigitsValue(digits) < 1_000_000_000_000_000_000
  {
    DigitsValueBelowPow10(digits);
    Pow10Monotone(|digits|, 18);
    assert Pow10(6) == 1_000_000;
    assert Pow10(12) == 1_000_000_000_000;
  }

  /** An optional sign followed by one to 18 digits: Go's Atoi takes its
      overflow-free fast path for such strings. */
  predicate IsShortNumeral(s: string) {
    var digits := SplitSign(s).1;
    0 < |digits| <= 18 && AllDigits(digits)
  }

  /** Atoi accepts every short numeral; its first character is a sign or a digit. */
  lemma AtoiAcceptsShortNumerals(s: string)
    requires IsShortNumeral(s)
    ensures Atoi(s).Some?
    ensures s[0] == '+' || s[0] == '-' || IsDigit(s[0])
  {
    ShortDigitsFitInt64(SplitSign(s).1);
  }
}

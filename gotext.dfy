/** The pieces of Go's standard library that the editor's state machine leans
    on, written out: `strconv.Atoi` and `strconv.Itoa` on the platform's 64-bit
    `int`, and `strings.TrimSpace` with `unicode.IsSpace`. Strings are
    sequences of Unicode scalar values. */
module GoText {

  datatype Option<T> = None | Some(value: T)

  const MinInt: int := -0x8000_0000_0000_0000
  const MaxInt: int := 0x7FFF_FFFF_FFFF_FFFF

  /** Go's `int` on a 64-bit platform: every integer field of the
      configuration has this type. */
  type GoInt = x: int | MinInt <= x <= MaxInt

  predicate IsDigit(c: char) { '0' <= c <= '9' }

  predicate AllDigits(s: string) { forall i :: 0 <= i < |s| ==> IsDigit(s[i]) }

  function DigitChar(d: nat): (c: char)
    requires d < 10
    ensures IsDigit(c) && c as int - '0' as int == d
  {
    ('0' as int + d) as char
  }

  /** The value of a string of decimal digits, most significant digit first. */
  function DigitsValue(s: string): nat
    requires AllDigits(s)
  {
    if s == [] then 0 else 10 * DigitsValue(s[..|s| - 1]) + (s[|s| - 1] as int - '0' as int)
  }

  /** A decimal numeral: a digit, or a sign followed by at least one more
      character, and digits after the first character. */
  predicate IsNumeral(s: string)
  {
    |s| > 0 && (IsDigit(s[0]) || (|s| > 1 && (s[0] == '-' || s[0] == '+')))
    && forall i :: 1 <= i < |s| ==> IsDigit(s[i])
  }

  /** The integer a numeral denotes. */
  function NumeralValue(s: string): int
    requires IsNumeral(s)
  {
    if IsDigit(s[0]) then DigitsValue(s)
    else if s[0] == '-' then 0 - DigitsValue(s[1..])
    else DigitsValue(s[1..])
  }

  /** `strconv.Atoi`: an optional `+` or `-`, then one or more ASCII digits
      (leading zeros allowed, no spaces, no underscores), and a value that fits
      in 64 bits; anything else is an error, here `None`. */
  function Atoi(s: string): (r: Option<GoInt>)
    ensures r.Some? <==> IsNumeral(s) && MinInt <= NumeralValue(s) <= MaxInt
    ensures r.Some? ==> r.value == NumeralValue(s)
    ensures r.Some? ==> s != [] && (IsDigit(s[0]) || s[0] == '-' || s[0] == '+')
    ensures r.Some? ==> forall i :: 1 <= i < |s| ==> IsDigit(s[i])
    ensures r.Some? && s[0] == '-' ==> r.value <= 0
    ensures r.Some? && s[0] != '-' ==> r.value >= 0
  {
    var signed := |s| > 0 && (s[0] == '-' || s[0] == '+');
    var digits := if signed then s[1..] else s;
    if digits == [] || !AllDigits(digits) then None
    else
      var mag: int := DigitsValue(digits);
      var v := if |s| > 0 && s[0] == '-' then -mag else mag;
      if MinInt <= v <= MaxInt then Some(v) else None
  }

  /** The shortest decimal spelling of a natural number. */
  function NatDigits(n: nat): (s: string)
    ensures s != [] && AllDigits(s)
    ensures DigitsValue(s) == n
  {
    if n < 10 then [DigitChar(n)]
    else
      var prefix := NatDigits(n / 10);
      var s := prefix + [DigitChar(n % 10)];
      assert s[..|s| - 1] == prefix;
      s
  }

  /** `strconv.Itoa`: a minus sign for negative numbers, then the digits. */
  function Itoa(n: int): (s: string)
    ensures s != []
    ensures n < 0 <==> s[0] == '-'
  {
    if n < 0 then "-" + NatDigits(-n) else NatDigits(n)
  }

  /** Printing a Go integer and parsing it back gives the same integer. */
  lemma AtoiItoa(n: GoInt)
    ensures Atoi(Itoa(n)) == Some(n)
  {
    var s := Itoa(n);
    var m: int := n;
    if m < 0 {
      assert s[1..] == NatDigits(-m);
    } else {
      assert IsDigit(s[0]);
    }
  }

  function Pow10(k: nat): (p: nat)
    ensures p >= 1
  {
    if k == 0 then 1 else 10 * Pow10(k - 1)
  }

  lemma {:induction false} Pow10Monotone(i: nat, j: nat)
    requires i <= j
    ensures Pow10(i) <= Pow10(j)
  {
    if i < j {
      Pow10Monotone(i, j - 1);
    }
  }

  /** `k` digits spell a number below `10^k`. */
  lemma {:induction false} DigitsBelow(s: string)
    requires AllDigits(s)
    ensures DigitsValue(s) < Pow10(|s|)
  {
    if s != [] {
      DigitsBelow(s[..|s| - 1]);
    }
  }

  /** `k` digits with a leading digit other than zero spell a number of at
      least `10^(k-1)`. */
  lemma {:induction false} DigitsAbove(s: string)
    requires AllDigits(s) && s != [] && s[0] != '0'
    ensures Pow10(|s| - 1) <= DigitsValue(s)
  {
    if |s| > 1 {
      DigitsAbove(s[..|s| - 1]);
    }
  }

  /** A prefix of a digit string spells a number no larger than the whole. */
  lemma {:induction false} DigitsPrefixAtMost(s: string, k: nat)
    requires AllDigits(s) && k <= |s|
    ensures DigitsValue(s[..k]) <= DigitsValue(s)
  {
    if k < |s| {
      var t := s[..|s| - 1];
      assert t[..k] == s[..k];
      DigitsPrefixAtMost(t, k);
    } else {
      assert s[..k] == s;
    }
  }

  /** The shortest spelling has no leading zero. */
  lemma {:induction false} NatDigitsLeading(n: nat)
    ensures |NatDigits(n)| > 1 ==> NatDigits(n)[0] != '0'
  {
    if n >= 10 {
      NatDigitsLeading(n / 10);
      assert NatDigits(n)[0] == NatDigits(n / 10)[0];
    }
  }

  /** The first `k` digits of a longer spelling of `m` spell a number of
      exactly `k` places, so one below `m`. */
  lemma NatDigitsCut(m: nat, k: nat)
    requires 1 <= k < |NatDigits(m)|
    ensures AllDigits(NatDigits(m)[..k])
    ensures Pow10(k - 1) <= DigitsValue(NatDigits(m)[..k]) < Pow10(k) <= m
  {
    var d := NatDigits(m);
    var t := d[..k];
    NatDigitsLeading(m);
    DigitsAbove(d);
    assert t[0] == d[0];
    DigitsAbove(t);
    DigitsBelow(t);
    Pow10Monotone(k, |d| - 1);
  }

  /** Cutting a longer decimal spelling of a natural Go integer down to its
      first `k` characters leaves a number of exactly `k` places, so a
      smaller one. */
  lemma ItoaCutNonNegative(n: GoInt, k: nat)
    requires 1 <= k < |Itoa(n)| && n >= 0
    ensures Atoi(Itoa(n)[..k]).Some?
    ensures Pow10(k - 1) <= Atoi(Itoa(n)[..k]).value < Pow10(k) <= n
  {
    var m: nat := n;
    NatDigitsCut(m, k);
    DigitsPrefixAtMost(NatDigits(m), k);
    assert IsDigit(NatDigits(m)[..k][0]);
  }

  /** Cutting a longer decimal spelling of a negative Go integer down to its
      first `k` characters leaves a negative number with `k - 1` places, so
      a larger one. */
  lemma ItoaCutNegative(n: GoInt, k: nat)
    requires 2 <= k < |Itoa(n)| && n < 0
    ensures Atoi(Itoa(n)[..k]).Some?
    ensures n + Pow10(k - 1) <= 0 < Atoi(Itoa(n)[..k]).value + Pow10(k - 1)
    ensures Atoi(Itoa(n)[..k]).value < 0
  {
    var m: int := n;
    var d := NatDigits(-m);
    var u := d[..k - 1];
    var t := Itoa(n)[..k];
    assert t == "-" + u && t[1..] == u;
    NatDigitsCut(-m, k - 1);
    assert IsNumeral(t) && !IsDigit(t[0]);
    assert NumeralValue(t) == 0 - DigitsValue(u);
  }

  /** A Go integer prints in at most twenty characters: a sign and nineteen
      digits. */
  lemma ItoaLength(n: GoInt)
    ensures |Itoa(n)| <= 20
  {
    var k: int := n;
    var m: nat := if k < 0 then -k else k;
    var d := NatDigits(m);
    assert Pow10(10) == 10000000000;
    assert Pow10(19) == 10000000000000000000;
    if |d| > 19 {
      NatDigitsLeading(m);
      DigitsAbove(d);
      Pow10Monotone(19, |d| - 1);
    }
  }

  /** `unicode.IsSpace`: the ASCII white space characters, U+0085, U+00A0 and
      the other characters with the Unicode White_Space property. */
  predicate IsSpace(c: char)
  {
    c == ' ' || ('\t' <= c <= '\r') || c == '\U{0085}' || c == '\U{00A0}' || c == '\U{1680}'
    || ('\U{2000}' <= c <= '\U{200A}') || c == '\U{2028}' || c == '\U{2029}'
    || c == '\U{202F}' || c == '\U{205F}' || c == '\U{3000}'
  }

  function TrimLeft(s: string): (r: string)
    ensures |r| <= |s| && r == s[|s| - |r|..]
    ensures r != [] ==> !IsSpace(r[0])
    ensures forall i :: 0 <= i < |s| - |r| ==> IsSpace(s[i])
  {
    if s != [] && IsSpace(s[0]) then TrimLeft(s[1..]) else s
  }

  function TrimRight(s: string): (r: string)
    ensures |r| <= |s| && r == s[..|r|]
    ensures r != [] ==> !IsSpace(r[|r| - 1])
    ensures forall i :: |r| <= i < |s| ==> IsSpace(s[i])
  {
    if s != [] && IsSpace(s[|s| - 1]) then TrimRight(s[..|s| - 1]) else s
  }

  /** `strings.TrimSpace`: the longest infix of `s` that neither starts nor
      ends with white space. */
  function TrimSpace(s: string): (r: string)
    ensures r != [] ==> !IsSpace(r[0]) && !IsSpace(r[|r| - 1])
    ensures exists k :: CutFrom(r, s, k)
    ensures s == [] || (!IsSpace(s[0]) && !IsSpace(s[|s| - 1])) ==> r == s
  {
    var l := TrimLeft(s);
    var r := TrimRight(l);
    TrimmedAt(s, l, r);
    r
  }

  /** `r` is `s` with white space cut off: it occurs at index `k`, and
      everything before and after it is white space. */
  predicate CutFrom(r: string, s: string, k: int)
  {
    InfixAt(r, s, k) && (forall i :: 0 <= i < k ==> IsSpace(s[i]))
    && (forall i :: k + |r| <= i < |s| ==> IsSpace(s[i]))
  }

  /** Where the trimmed text sits in the original: after the leading white
      space, with only white space after it; and a text that neither starts
      nor ends with white space is its own trimmed text. */
  lemma TrimmedAt(s: string, l: string, r: string)
    requires l == TrimLeft(s) && r == TrimRight(l)
    ensures CutFrom(r, s, |s| - |l|)
    ensures r != [] ==> !IsSpace(r[0]) && !IsSpace(r[|r| - 1])
    ensures s == [] || (!IsSpace(s[0]) && !IsSpace(s[|s| - 1])) ==> r == s
  {
    InfixOfSlices(s, l, r);
    SpacesOfSuffix(s, l, |r|);
    if r != [] {
      assert r[0] == l[0];
    }
  }

  /** White space at the end of a suffix is white space at the end of the
      whole. */
  lemma SpacesOfSuffix(s: string, l: string, n: nat)
    requires |l| <= |s| && l == s[|s| - |l|..]
    requires forall i :: n <= i < |l| ==> IsSpace(l[i])
    ensures forall i :: |s| - |l| + n <= i < |s| ==> IsSpace(s[i])
  {
    var k := |s| - |l|;
    forall i | k + n <= i < |s|
      ensures IsSpace(s[i])
    {
      assert s[i] == l[i - k];
    }
  }

  /** A prefix of a suffix is an infix. */
  lemma InfixOfSlices(s: string, l: string, r: string)
    requires |l| <= |s| && l == s[|s| - |l|..] && |r| <= |l| && r == l[..|r|]
    ensures InfixAt(r, s, |s| - |l|)
  {
    assert s[|s| - |l|..][..|r|] == s[|s| - |l|..|s| - |l| + |r|];
  }

  /** `r` occurs in `s` starting at index `k`. */
  predicate InfixAt(r: string, s: string, k: int)
  {
    0 <= k <= |s| - |r| && r == s[k..k + |r|]
  }
}

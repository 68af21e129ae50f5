/**
 * The string machinery the script relies on: JavaScript's conversion of an
 * integer to its decimal text (what `'...' + n` does), the left padding that
 * the `pad` package performs at its one call site, suffix matching, and a
 * literal/field template used to state where each value lands in a
 * concatenated sentence.
 */
module Text {
  import opened Wrappers

  // ---------------------------------------------------------------------------
  // Decimal digits
  // ---------------------------------------------------------------------------

  predicate IsDigit(c: char) {
    '0' <= c <= '9'
  }

  predicate AllDigits(s: string) {
    forall i :: 0 <= i < |s| ==> IsDigit(s[i])
  }

  function DigitChar(d: nat): (c: char)
    requires d < 10
    ensures IsDigit(c)
  {
    ['0', '1', '2', '3', '4', '5', '6', '7', '8', '9'][d]
  }

  function DigitValue(c: char): (d: nat)
    requires IsDigit(c)
    ensures d < 10
  {
    (c as int - '0' as int) as nat
  }

  lemma DigitRoundTrip(d: nat)
    requires d < 10
    ensures DigitValue(DigitChar(d)) == d
  {
  }

  /** Decimal text of a natural number, most significant digit first and
      without leading zeros. */
  function NatToDecimal(n: nat): (s: string)
    ensures 1 <= |s|
    ensures AllDigits(s)
    ensures s[0] == '0' ==> n == 0
    ensures |s| > 1 ==> s[0] != '0'
    decreases n
  {
    if n < 10 then [DigitChar(n)] else NatToDecimal(n / 10) + [DigitChar(n % 10)]
  }

  /** The text JavaScript produces when an integer-valued number is joined to
      a string: an optional minus sign followed by the decimal digits. */
  function IntToDecimal(n: int): (s: string)
    ensures 1 <= |s|
    ensures n >= 0 ==> AllDigits(s)
    ensures n < 0 ==> s[0] == '-' && AllDigits(s[1..])
    ensures n < 0 ==> s[1..] == NatToDecimal(-n)
    ensures n >= 0 ==> s == NatToDecimal(n)
  {
    if n < 0 then "-" + NatToDecimal(-n) else NatToDecimal(n)
  }

  /** The number a string of digits denotes (leading zeros allowed). */
  function DecimalValue(s: string): nat
    requires AllDigits(s)
  {
    if s == [] then 0 else DecimalValue(s[..|s| - 1]) * 10 + DigitValue(s[|s| - 1])
  }

  function Pow10(k: nat): (p: nat)
    ensures p >= 1
  {
    if k == 0 then 1 else 10 * Pow10(k - 1)
  }

  /** Reading the decimal text back gives the number that was written. */
  lemma {:induction false} DecimalRoundTrip(n: nat)
    ensures DecimalValue(NatToDecimal(n)) == n
    decreases n
  {
    var s := NatToDecimal(n);
    if n >= 10 {
      DecimalRoundTrip(n / 10);
      assert s[..|s| - 1] == NatToDecimal(n / 10);
      DigitRoundTrip(n % 10);
    } else {
      DigitRoundTrip(n);
    }
  }

  /** A number below 10^k takes at most k digits. */
  lemma {:induction false} DecimalLength(n: nat, k: nat)
    requires 1 <= k
    requires n < Pow10(k)
    ensures |NatToDecimal(n)| <= k
    decreases n
  {
    if n >= 10 {
      assert k >= 2;
      assert n / 10 < Pow10(k - 1);
      DecimalLength(n / 10, k - 1);
    }
  }

  // ---------------------------------------------------------------------------
  // Padding
  // ---------------------------------------------------------------------------

  function Repeat(c: char, k: nat): (r: string)
    ensures |r| == k
    ensures forall i :: 0 <= i < k ==> r[i] == c
  {
    if k == 0 then [] else Repeat(c, k - 1) + [c]
  }

  /** Left padding of `text` with `c` up to `width` characters; text that is
      already at least `width` long is returned unchanged. */
  function LeftPad(width: int, text: string, c: char): (r: string)
    ensures |r| == if |text| >= width then |text| else width
    ensures r[|r| - |text|..] == text
    ensures forall i :: 0 <= i < |r| - |text| ==> r[i] == c
  {
    if |text| >= width then text else Repeat(c, width - |text|) + text
  }

  /** Leading zeros do not change the value of a digit string. */
  lemma {:induction false} LeadingZeros(k: nat, s: string)
    requires AllDigits(s)
    ensures AllDigits(Repeat('0', k) + s)
    ensures DecimalValue(Repeat('0', k) + s) == DecimalValue(s)
    decreases |s|
  {
    var z := Repeat('0', k);
    if s == [] {
      assert z + s == z;
      ZerosValue(k);
    } else {
      var init := s[..|s| - 1];
      LeadingZeros(k, init);
      assert (z + s)[..|z + s| - 1] == z + init;
    }
  }

  lemma {:induction false} ZerosValue(k: nat)
    ensures AllDigits(Repeat('0', k))
    ensures DecimalValue(Repeat('0', k)) == 0
    decreases k
  {
    if k > 0 {
      var z := Repeat('0', k);
      assert z[..k - 1] == Repeat('0', k - 1);
      ZerosValue(k - 1);
    }
  }

  // ---------------------------------------------------------------------------
  // Suffixes
  // ---------------------------------------------------------------------------

  /** `s` with `suffix` removed from its end, or None if `s` does not end with it. */
  function StripSuffix(s: string, suffix: string): (r: Option<string>)
    ensures r.Some? <==> (|suffix| <= |s| && s[|s| - |suffix|..] == suffix)
    ensures r.Some? ==> r.value + suffix == s
  {
    if |suffix| <= |s| && s[|s| - |suffix|..] == suffix then Some(s[..|s| - |suffix|]) else None
  }

  lemma StripAppended(a: string, b: string)
    ensures StripSuffix(a + b, b) == Some(a)
  {
  }

  // ---------------------------------------------------------------------------
  // Templates: literal text interleaved with fields
  // ---------------------------------------------------------------------------

  /** lits[0] + fields[0] + lits[1] + ... + fields[n-1] + lits[n], grouped to
      the left as JavaScript's `+` groups a chain of concatenations. */
  function Fill(lits: seq<string>, fields: seq<string>): string
    requires |lits| == |fields| + 1
  {
    FillUpTo(lits, fields, |fields|)
  }

  /** The template text up to and including lits[j]. */
  function FillUpTo(lits: seq<string>, fields: seq<string>, j: nat): string
    requires |lits| == |fields| + 1
    requires j <= |fields|
  {
    if j == 0 then lits[0] else FillUpTo(lits, fields, j - 1) + fields[j - 1] + lits[j]
  }

  /** Where field k starts in Fill(lits, fields). */
  function FieldOffset(lits: seq<string>, fields: seq<string>, k: nat): nat
    requires |lits| == |fields| + 1
    requires k < |fields|
  {
    |FillUpTo(lits, fields, k)|
  }

  /** The text up to lits[j] is a prefix of the text up to any later literal. */
  lemma {:induction false} FillPrefix(lits: seq<string>, fields: seq<string>, j: nat, n: nat)
    requires |lits| == |fields| + 1
    requires j <= n <= |fields|
    ensures FillUpTo(lits, fields, j) <= FillUpTo(lits, fields, n)
    decreases n - j
  {
    if j < n {
      FillPrefix(lits, fields, j, n - 1);
    }
  }

  /** Field k occurs, whole, at its offset: every field is embedded, in order. */
  lemma FillField(lits: seq<string>, fields: seq<string>, k: nat)
    requires |lits| == |fields| + 1
    requires k < |fields|
    ensures FieldOffset(lits, fields, k) + |fields[k]| <= |Fill(lits, fields)|
    ensures Fill(lits, fields)[FieldOffset(lits, fields, k)..FieldOffset(lits, fields, k) + |fields[k]|] == fields[k]
  {
    FillPrefix(lits, fields, k + 1, |fields|);
    var pre := FillUpTo(lits, fields, k);
    var next := FillUpTo(lits, fields, k + 1);
    assert next == pre + fields[k] + lits[k + 1];
    assert next[|pre|..|pre| + |fields[k]|] == fields[k];
  }

  /** The text starts with the first literal and ends with the last one. */
  lemma FillEnds(lits: seq<string>, fields: seq<string>)
    requires |lits| == |fields| + 1
    ensures lits[0] <= Fill(lits, fields)
    ensures |lits[|lits| - 1]| <= |Fill(lits, fields)|
    ensures Fill(lits, fields)[|Fill(lits, fields)| - |lits[|lits| - 1]|..] == lits[|lits| - 1]
  {
    FillPrefix(lits, fields, 0, |fields|);
  }
}

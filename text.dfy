/**
 * Character-level helpers shared by the core: ASCII case folding (used by the
 * OTP function allow-list, the function dispatcher and the template engine) and
 * the decimal text form of integers (`int.ToString()` and `int.TryParse`).
 */
module Text {
  import opened Wrappers

  // ---------------------------------------------------------------- case folding

  /** `char.ToLowerInvariant` restricted to ASCII. */
  function LowerChar(c: char): char {
    if 'A' <= c <= 'Z' then (c as int + 32) as char else c
  }

  /** `char.ToUpperInvariant` restricted to ASCII. */
  function UpperChar(c: char): char {
    if 'a' <= c <= 'z' then (c as int - 32) as char else c
  }

  /** `string.ToLowerInvariant()` (and `ToLower()` under an ASCII culture). */
  function ToLower(s: string): (r: string)
    ensures |r| == |s|
    ensures forall i :: 0 <= i < |s| ==> r[i] == LowerChar(s[i])
  {
    seq(|s|, i requires 0 <= i < |s| => LowerChar(s[i]))
  }

  /** Case-insensitive equality as the regex engine applies it: both sides lower-cased. */
  predicate EqualsIgnoreCase(a: string, b: string) {
    |a| == |b| && forall i :: 0 <= i < |a| ==> LowerChar(a[i]) == LowerChar(b[i])
  }

  /** `StringComparer.OrdinalIgnoreCase`: both sides upper-cased. */
  predicate EqualsOrdinalIgnoreCase(a: string, b: string) {
    |a| == |b| && forall i :: 0 <= i < |a| ==> UpperChar(a[i]) == UpperChar(b[i])
  }

  /** Upper-case folding and lower-case folding identify the same pairs of characters. */
  lemma CharFoldingsAgree(c: char, d: char)
    ensures UpperChar(c) == UpperChar(d) <==> LowerChar(c) == LowerChar(d)
  {
  }

  /**
   * An ordinal ignore-case comparison succeeds exactly when the lower-cased
   * strings are equal; this is what lets a set built with
   * `StringComparer.OrdinalIgnoreCase` agree with a `switch` on `ToLowerInvariant()`.
   */
  lemma OrdinalIgnoreCaseIsLowerEquality(a: string, b: string)
    ensures EqualsOrdinalIgnoreCase(a, b) <==> ToLower(a) == ToLower(b)
  {
    if |a| == |b| {
      forall i | 0 <= i < |a|
        ensures UpperChar(a[i]) == UpperChar(b[i]) <==> ToLower(a)[i] == ToLower(b)[i]
      {
        CharFoldingsAgree(a[i], b[i]);
      }
      if ToLower(a) != ToLower(b) {
        var k :| 0 <= k < |a| && ToLower(a)[k] != ToLower(b)[k];
        assert UpperChar(a[k]) != UpperChar(b[k]);
      }
    } else {
      assert |ToLower(a)| != |ToLower(b)|;
    }
  }

  // ---------------------------------------------------------------- decimal text

  predicate IsDigit(c: char) {
    '0' <= c <= '9'
  }

  predicate AllDigits(s: string) {
    forall i :: 0 <= i < |s| ==> IsDigit(s[i])
  }

  function DigitChar(d: int): (c: char)
    requires 0 <= d < 10
    ensures IsDigit(c)
  {
    ('0' as int + d) as char
  }

  function DigitValue(c: char): (d: int)
    requires IsDigit(c)
    ensures 0 <= d < 10
  {
    c as int - '0' as int
  }

  /** The value of a string of decimal digits, most significant first. */
  function DecimalValue(s: string): nat
    requires AllDigits(s)
  {
    if s == [] then 0 else DecimalValue(s[..|s| - 1]) * 10 + DigitValue(s[|s| - 1])
  }

  /** `n.ToString()` for a non-negative `int` under the invariant culture. */
  function DecimalString(n: nat): (s: string)
    ensures s != [] && AllDigits(s)
    decreases n
  {
    if n < 10 then [DigitChar(n)] else DecimalString(n / 10) + [DigitChar(n % 10)]
  }

  function Pow10(k: nat): (p: nat)
    ensures p >= 1
  {
    if k == 0 then 1 else 10 * Pow10(k - 1)
  }

  /** Reading back the decimal text of `n` gives `n`, and that text is all digits. */
  lemma {:induction false} DecimalRoundTrip(n: nat)
    ensures AllDigits(DecimalString(n))
    ensures DecimalValue(DecimalString(n)) == n
    decreases n
  {
    if n >= 10 {
      DecimalRoundTrip(n / 10);
      var s := DecimalString(n);
      assert s == DecimalString(n / 10) + [DigitChar(n % 10)];
      assert s[..|s| - 1] == DecimalString(n / 10);
    }
  }

  /** A number in [10^k, 10^(k+1)) is written with exactly k + 1 digits, the first of them not '0'. */
  lemma {:induction false} DecimalLength(n: nat, k: nat)
    requires Pow10(k) <= n < Pow10(k + 1)
    ensures |DecimalString(n)| == k + 1
    ensures DecimalString(n)[0] != '0'
    decreases k
  {
    if k > 0 {
      assert n >= 10;
      DecimalLength(n / 10, k - 1);
    }
  }

  // ---------------------------------------------------------------- int.TryParse

  /** White space accepted around a number by `NumberStyles.Integer` (U+0009..U+000D and U+0020). */
  predicate IsNumberWhite(c: char) {
    c == ' ' || '\t' <= c <= '\r'
  }

  function TrimStart(s: string): (r: string)
    ensures |r| <= |s|
  {
    if s != [] && IsNumberWhite(s[0]) then TrimStart(s[1..]) else s
  }

  function TrimEnd(s: string): (r: string)
    ensures |r| <= |s|
  {
    if s != [] && IsNumberWhite(s[|s| - 1]) then TrimEnd(s[..|s| - 1]) else s
  }

  const Int32Min: int := -0x8000_0000
  const Int32Max: int := 0x7FFF_FFFF

  /** Drops the run of U+0000 characters that the number parser accepts at the very end. */
  function TrimTrailingNuls(s: string): (r: string)
    ensures |r| <= |s|
  {
    if s != [] && s[|s| - 1] == '\0' then TrimTrailingNuls(s[..|s| - 1]) else s
  }

  /**
   * `int.TryParse(s, out v)`: optional surrounding white space, an optional
   * leading sign, at least one decimal digit, and a value that fits in 32 bits;
   * after the trailing white space the parser also accepts a run of U+0000.
   */
  function TryParseInt32(s: string): (r: Option<int>)
    ensures r.Some? ==> Int32Min <= r.value <= Int32Max
  {
    var t := TrimEnd(TrimTrailingNuls(TrimStart(s)));
    var negative := |t| > 0 && t[0] == '-';
    var digits := if |t| > 0 && (t[0] == '-' || t[0] == '+') then t[1..] else t;
    if digits == [] || !AllDigits(digits) then None
    else
      var magnitude: int := DecimalValue(digits);
      var v := if negative then 0 - magnitude else magnitude;
      if Int32Min <= v <= Int32Max then Some(v) else None
  }

  /** The decimal text of a number is not empty and starts and ends with a digit. */
  lemma DecimalStringEnds(n: nat)
    ensures DecimalString(n) != [] && AllDigits(DecimalString(n))
    ensures IsDigit(DecimalString(n)[0]) && IsDigit(DecimalString(n)[|DecimalString(n)| - 1])
  {
    DecimalRoundTrip(n);
    if n >= 10 {
      assert DecimalString(n) == DecimalString(n / 10) + [DigitChar(n % 10)];
    }
  }

  /** Parsing the decimal text of any non-negative 32-bit value gives that value back. */
  lemma ParsesDecimalString(n: nat)
    requires n <= Int32Max
    ensures TryParseInt32(DecimalString(n)) == Some(n)
  {
    var s := DecimalString(n);
    DecimalRoundTrip(n);
    DecimalStringEnds(n);
    assert TrimStart(s) == s;
    assert TrimTrailingNuls(s) == s;
    assert TrimEnd(s) == s;
  }

  /** Parsing `-` followed by the decimal text of k gives -k, down to `int.MinValue`. */
  lemma ParsesNegativeDecimalString(k: nat)
    requires 0 < k <= -Int32Min
    ensures TryParseInt32("-" + DecimalString(k)) == Some(-(k as int))
  {
    var s := "-" + DecimalString(k);
    DecimalRoundTrip(k);
    DecimalStringEnds(k);
    assert s[1..] == DecimalString(k);
    assert s[|s| - 1] == DecimalString(k)[|DecimalString(k)| - 1];
    assert TrimStart(s) == s;
    assert TrimTrailingNuls(s) == s;
    assert TrimEnd(s) == s;
  }

  /** A number followed by U+0000 characters parses as the number alone. */
  lemma ParsesWithTrailingNuls(n: nat, nuls: nat)
    requires n <= Int32Max
    ensures TryParseInt32(DecimalString(n) + seq(nuls, _ => '\0')) == Some(n)
  {
    var s := DecimalString(n);
    var z: string := seq(nuls, _ => '\0');
    DecimalStringEnds(n);
    assert TrimStart(s + z) == s + z;
    TrailingNulsDropped(s, nuls);
    ParsesDecimalString(n);
  }

  /** `TrimTrailingNuls` removes exactly the appended run of U+0000 from text that does not end in one. */
  lemma {:induction false} TrailingNulsDropped(s: string, nuls: nat)
    requires s != [] && s[|s| - 1] != '\0'
    ensures TrimTrailingNuls(s + seq(nuls, _ => '\0')) == s
    decreases nuls
  {
    var z: string := seq(nuls, _ => '\0');
    if nuls == 0 {
      assert s + z == s;
    } else {
      var z': string := seq(nuls - 1, _ => '\0');
      assert (s + z)[..|s + z| - 1] == s + z';
      TrailingNulsDropped(s, nuls - 1);
    }
  }
}

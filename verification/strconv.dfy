/**
 * strconv.ParseUint(s, 10, 32) with its error ignored, as the route reads
 * the `w` and `h` query parameters. The value is what ParseUint returns
 * alongside any error: 0 on a syntax error, the 32-bit maximum on overflow.
 */
module Strconv {
  import opened Strings

  const MaxUint32: nat := 4294967295

  /** The values of Go's uint64. */
  type Uint64 = n: nat | n < 0x1_0000_0000_0000_0000

  function Min(a: nat, b: nat): nat
  {
    if a <= b then a else b
  }

  /**
   * ParseUint's digit loop, from an accumulated value `n`: a character that is
   * not a decimal digit is a syntax error (0); a digit that takes the value
   * past the 32-bit maximum is a range error (the maximum), whatever follows.
   */
  function ScanDecimal(s: string, n: nat): (r: nat)
    requires n <= MaxUint32
    ensures r <= MaxUint32
    decreases |s|
  {
    if |s| == 0 then n
    else if !IsDigit(s[0]) then 0
    else
      var n1 := n * 10 + DigitValue(s[0]);
      if n1 > MaxUint32 then MaxUint32 else ScanDecimal(s[1..], n1)
  }

  /** strconv.ParseUint(s, 10, 32), value only; the empty string is a syntax error. */
  function ParseUint32(s: string): (r: nat)
    ensures r <= MaxUint32
    ensures s == "" ==> r == 0
  {
    if s == "" then 0 else ScanDecimal(s, 0)
  }

  // ---------------------------------------------------------------------------
  // What the scan computes
  // ---------------------------------------------------------------------------

  /** Appending digits never makes a numeral smaller. */
  lemma {:induction false} DecimalValueGrows(a: string, b: string)
    requires AllDigits(a) && AllDigits(b)
    ensures AllDigits(a + b) && DecimalValue(a) <= DecimalValue(a + b)
    decreases |b|
  {
    assert AllDigits(a + b) by {
      assert forall i :: 0 <= i < |a + b| ==> (a + b)[i] == (if i < |a| then a[i] else b[i - |a|]);
    }
    if |b| > 0 {
      var b' := b[..|b| - 1];
      DecimalValueGrows(a, b');
      var ab := a + b;
      assert ab[..|ab| - 1] == a + b';
      assert DecimalValue(ab) == DecimalValue(a + b') * 10 + DigitValue(ab[|ab| - 1]);
    } else {
      assert a + b == a;
    }
  }

  lemma AppendDigit(p: string, c: char)
    requires AllDigits(p) && IsDigit(c)
    ensures AllDigits(p + [c]) && DecimalValue(p + [c]) == DecimalValue(p) * 10 + DigitValue(c)
  {
    assert (p + [c])[..|p|] == p;
  }

  /**
   * Scanning an all-digit text after the digits `p` gives the value of the
   * whole numeral, saturated at the 32-bit maximum.
   */
  lemma {:induction false} ScanDigits(p: string, s: string)
    requires AllDigits(p) && AllDigits(s) && DecimalValue(p) <= MaxUint32
    ensures AllDigits(p + s) && ScanDecimal(s, DecimalValue(p)) == Min(DecimalValue(p + s), MaxUint32)
    decreases |s|
  {
    DecimalValueGrows(p, s);
    if |s| > 0 {
      AppendDigit(p, s[0]);
      var p' := p + [s[0]];
      assert p' + s[1..] == p + s;
      DecimalValueGrows(p', s[1..]);
      if DecimalValue(p') <= MaxUint32 {
        ScanDigits(p', s[1..]);
      }
    } else {
      assert p + s == p;
    }
  }

  /**
   * A non-digit at `k`, reached before the value overflows, makes the scan a
   * syntax error: 0, whatever digits came before.
   */
  lemma {:induction false} ScanSyntaxError(p: string, s: string, k: nat)
    requires AllDigits(p) && DecimalValue(p) <= MaxUint32
    requires k < |s| && !IsDigit(s[k]) && AllDigits(s[..k])
    requires AllDigits(p + s[..k]) && DecimalValue(p + s[..k]) <= MaxUint32
    ensures ScanDecimal(s, DecimalValue(p)) == 0
    decreases k
  {
    if k > 0 {
      AppendDigit(p, s[0]);
      var p' := p + [s[0]];
      assert p' + s[1..][..k - 1] == p + s[..k];
      assert s[1..][..k - 1] == s[..k][1..];
      DecimalValueGrows(p', s[1..][..k - 1]);
      ScanSyntaxError(p', s[1..], k - 1);
    }
  }

  /**
   * Digits that overflow the 32-bit maximum make the scan a range error: the
   * maximum, whatever follows, digits or not.
   */
  lemma {:induction false} ScanRangeError(p: string, s: string, k: nat)
    requires AllDigits(p) && DecimalValue(p) <= MaxUint32
    requires k <= |s| && AllDigits(s[..k])
    requires AllDigits(p + s[..k]) && DecimalValue(p + s[..k]) > MaxUint32
    ensures ScanDecimal(s, DecimalValue(p)) == MaxUint32
    decreases k
  {
    if k > 0 {
      assert s[..k][0] == s[0];
      AppendDigit(p, s[0]);
      var p' := p + [s[0]];
      assert ScanDecimal(s, DecimalValue(p)) == if DecimalValue(p') > MaxUint32 then MaxUint32 else ScanDecimal(s[1..], DecimalValue(p'));
      if DecimalValue(p') <= MaxUint32 {
        assert s[..k] == [s[0]] + s[1..][..k - 1];
        assert p' + s[1..][..k - 1] == p + s[..k];
        assert s[1..][..k - 1] == s[..k][1..];
        ScanRangeError(p', s[1..], k - 1);
      }
    } else {
      NothingTaken(p, s);
    }
  }

  lemma NothingTaken(p: string, s: string)
    ensures p + s[..0] == p
  {
  }

  /** A decimal numeral parses to its value, saturated at the 32-bit maximum. */
  lemma ParseUint32OfDigits(s: string)
    requires |s| > 0 && AllDigits(s)
    ensures ParseUint32(s) == Min(DecimalValue(s), MaxUint32)
  {
    ScanDigits("", s);
    assert "" + s == s;
  }

  /** A non-digit before any overflow gives 0: the text is not a plain decimal numeral. */
  lemma ParseUint32SyntaxError(s: string, k: nat)
    requires k < |s| && !IsDigit(s[k]) && AllDigits(s[..k]) && DecimalValue(s[..k]) <= MaxUint32
    ensures ParseUint32(s) == 0
  {
    assert "" + s[..k] == s[..k];
    ScanSyntaxError("", s, k);
  }

  /** Once the leading digits exceed 4294967295 the result is 4294967295, whatever follows. */
  lemma ParseUint32Saturates(s: string, k: nat)
    requires k <= |s| && AllDigits(s[..k]) && DecimalValue(s[..k]) > MaxUint32
    ensures ParseUint32(s) == MaxUint32
  {
    assert "" + s[..k] == s[..k];
    ScanRangeError("", s, k);
  }

  /** fmt's decimal rendering of a 32-bit value parses back to it. */
  lemma ParseUint32RoundTrip(n: nat)
    requires n <= MaxUint32
    ensures ParseUint32(NatToString(n)) == n
  {
    ParseUint32OfDigits(NatToString(n));
  }
}

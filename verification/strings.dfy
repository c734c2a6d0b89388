/**
 * The pieces of Go's `strings`, `strconv` and `fmt` packages that the
 * gateway's code relies on, on Dafny strings (sequences of Unicode scalar
 * values). Go strings are byte sequences; where bytes matter (`[]byte(s)`,
 * URL escaping) the UTF-8 encoding `Utf8` is used.
 */
module Strings {

  type byte = b: int | 0 <= b < 256

  /** Concatenation is associative; stated once so that proofs need not re-derive it element by element. */
  lemma AppendAssoc<T>(a: seq<T>, b: seq<T>, c: seq<T>)
    ensures a + (b + c) == (a + b) + c
  {
  }

  /** A non-empty sequence is its first element followed by the rest. */
  lemma HeadTail<T>(s: seq<T>)
    requires |s| > 0
    ensures s == [s[0]] + s[1..]
  {
  }

  /** The parts of `p + [x] + r` around the middle element. */
  lemma AroundMiddle<T>(p: seq<T>, x: T, r: seq<T>)
    ensures (p + [x] + r)[..|p|] == p && (p + [x] + r)[|p|] == x && (p + [x] + r)[|p| + 1..] == r
  {
  }

  /** Appending one element to a display of up to three. */
  lemma Snoc<T>(a: T, b: T, c: T, d: T)
    ensures [] + [a] == [a] && [a] + [b] == [a, b]
    ensures [a, b] + [c] == [a, b, c] && [a, b, c] + [d] == [a, b, c, d]
  {
  }

  /** A display with one more element in front. */
  lemma Cons<T>(a: T, b: T, c: T, d: T, e: T)
    ensures [a] + [b] == [a, b] && [a] + [b, c] == [a, b, c]
    ensures [a] + [b, c, d] == [a, b, c, d] && [a] + [b, c, d, e] == [a, b, c, d, e]
  {
  }

  /** Four singletons in a row are the display of their elements. */
  lemma AppendSingles<T>(a: T, b: T, c: T, d: T)
    ensures [a] + [b] + [c] + [d] == [a, b, c, d]
  {
  }

  /** Dropping a prefix of the first part of a concatenation. */
  lemma DropAppend<T>(a: seq<T>, b: seq<T>, n: nat)
    requires n <= |a|
    ensures (a + b)[n..] == a[n..] + b
  {
  }

  // ---------------------------------------------------------------------------
  // Decimal numerals
  // ---------------------------------------------------------------------------

  predicate IsDigit(c: char) {
    '0' <= c <= '9'
  }

  function DigitValue(c: char): nat
    requires IsDigit(c)
  {
    (c as int) - ('0' as int)
  }

  function DigitChar(d: nat): (c: char)
    requires d < 10
    ensures IsDigit(c) && DigitValue(c) == d
  {
    (('0' as int) + d) as char
  }

  predicate AllDigits(s: string) {
    forall i :: 0 <= i < |s| ==> IsDigit(s[i])
  }

  /** The value of a decimal numeral, most significant digit first. */
  function DecimalValue(s: string): nat
    requires AllDigits(s)
  {
    if |s| == 0 then 0 else DecimalValue(s[..|s| - 1]) * 10 + DigitValue(s[|s| - 1])
  }

  /** fmt's `%d` rendering of a non-negative integer: decimal, no leading zeros. */
  function NatToString(n: nat): (s: string)
    ensures |s| > 0 && AllDigits(s)
    ensures DecimalValue(s) == n
    ensures s[0] == '0' ==> s == "0"
  {
    if n < 10 then
      [DigitChar(n)]
    else
      var prefix := NatToString(n / 10);
      var s := prefix + [DigitChar(n % 10)];
      assert s[..|s| - 1] == prefix;
      s
  }

  function Pow10(k: nat): (p: nat)
    ensures p >= 1
  {
    if k == 0 then 1 else 10 * Pow10(k - 1)
  }

  /** Reading a numeral from its leading digit: the leading digit weighs 10^(|s|-1). */
  lemma {:induction false} DecimalValueFront(s: string)
    requires |s| > 0 && AllDigits(s)
    ensures DecimalValue(s) == DigitValue(s[0]) * Pow10(|s| - 1) + DecimalValue(s[1..])
    decreases |s|
  {
    if |s| == 1 {
      assert s[1..] == [];
      assert s[..0] == [];
    } else {
      var init, t := s[..|s| - 1], s[1..];
      assert init[0] == s[0];
      assert init[1..] == t[..|t| - 1] && t[|t| - 1] == s[|s| - 1];
      DecimalValueFront(init);
      assert DecimalValue(t) == DecimalValue(init[1..]) * 10 + DigitValue(s[|s| - 1]);
      assert Pow10(|s| - 1) == 10 * Pow10(|s| - 2);
      ShiftDigit(DigitValue(s[0]), Pow10(|s| - 2), DecimalValue(init[1..]), DigitValue(s[|s| - 1]));
    }
  }

  /** Appending a digit to a numeral with leading digit `d` shifts `d` up one place. */
  lemma ShiftDigit(d: int, p: int, m: int, l: int)
    ensures (d * p + m) * 10 + l == d * (10 * p) + (m * 10 + l)
  {
  }

  // ---------------------------------------------------------------------------
  // Counting, searching, splitting and joining on one separator character
  // ---------------------------------------------------------------------------

  /** Number of occurrences of `c` in `s` (strings.Count with a one-character needle). */
  function Count(s: string, c: char): nat
  {
    if |s| == 0 then 0 else (if s[0] == c then 1 else 0) + Count(s[1..], c)
  }

  lemma {:induction false} CountAppend(a: string, b: string, c: char)
    ensures Count(a + b, c) == Count(a, c) + Count(b, c)
    decreases |a|
  {
    if |a| == 0 {
      assert a + b == b;
    } else {
      assert (a + b)[1..] == a[1..] + b;
      CountAppend(a[1..], b, c);
    }
  }

  lemma {:induction false} CountZero(s: string, c: char)
    ensures Count(s, c) == 0 <==> c !in s
    decreases |s|
  {
    if |s| > 0 {
      CountZero(s[1..], c);
      assert c in s <==> s[0] == c || c in s[1..];
    }
  }

  /** Position of the first `c` in `s` (strings.IndexByte). */
  function IndexOf(s: string, c: char): (i: nat)
    requires c in s
    ensures i < |s| && s[i] == c && c !in s[..i]
  {
    if s[0] == c then 0 else 1 + IndexOf(s[1..], c)
  }

  /** The first occurrence is the only index with no earlier occurrence. */
  lemma IndexOfUnique(s: string, c: char, i: nat)
    requires i < |s| && s[i] == c && c !in s[..i]
    ensures IndexOf(s, c) == i
  {
    var j := IndexOf(s, c);
    assert forall k :: 0 <= k < i ==> s[..i][k] == s[k];
    assert forall k :: 0 <= k < j ==> s[..j][k] == s[k];
  }

  /** strings.Join with a one-character separator. */
  function Join(parts: seq<string>, sep: char): string
  {
    if |parts| == 0 then ""
    else if |parts| == 1 then parts[0]
    else parts[0] + [sep] + Join(parts[1..], sep)
  }

  /**
   * strings.Split with a one-character separator: the maximal runs between
   * separators, so there is always one more part than there are separators
   * (the empty string splits into one empty part).
   */
  function Split(s: string, sep: char): (parts: seq<string>)
    ensures |parts| == Count(s, sep) + 1
    ensures forall i :: 0 <= i < |parts| ==> sep !in parts[i]
    ensures Join(parts, sep) == s
    decreases |s|
  {
    if sep !in s then
      CountZero(s, sep);
      [s]
    else
      var i := IndexOf(s, sep);
      var rest := Split(s[i + 1..], sep);
      assert s == s[..i] + [sep] + s[i + 1..];
      CountAppend(s[..i] + [sep], s[i + 1..], sep);
      CountAppend(s[..i], [sep], sep);
      CountZero(s[..i], sep);
      assert ([s[..i]] + rest)[1..] == rest;
      [s[..i]] + rest
  }

  /** Splitting a join of separator-free parts gives the parts back. */
  lemma {:induction false} SplitJoin(parts: seq<string>, sep: char)
    requires |parts| > 0
    requires forall i :: 0 <= i < |parts| ==> sep !in parts[i]
    ensures Split(Join(parts, sep), sep) == parts
    decreases |parts|
  {
    var p := parts[0];
    if |parts| == 1 {
      SplitWithoutSeparator(p, sep);
    } else {
      var rest := Join(parts[1..], sep);
      var s := p + [sep] + rest;
      AroundMiddle(p, sep, rest);
      SplitAt(s, sep, |p|);
      SplitJoin(parts[1..], sep);
      HeadTail(parts);
    }
  }

  /** At the first separator, the split is the text before it, then the split of the rest. */
  lemma SplitAt(s: string, sep: char, i: nat)
    requires i < |s| && s[i] == sep && sep !in s[..i]
    ensures Split(s, sep) == [s[..i]] + Split(s[i + 1..], sep)
  {
    IndexOfUnique(s, sep, i);
  }

  /** A separator splits the text into the parts before it followed by the parts after it. */
  lemma SplitConcat(a: string, b: string, sep: char)
    ensures Split(a + [sep] + b, sep) == Split(a, sep) + Split(b, sep)
  {
    var x, y := Split(a, sep), Split(b, sep);
    JoinConcat(x, y, sep);
    SeparatorFreeConcat(x, y, sep);
    SplitJoin(x + y, sep);
  }

  lemma SeparatorFreeConcat(x: seq<string>, y: seq<string>, sep: char)
    requires forall i :: 0 <= i < |x| ==> sep !in x[i]
    requires forall i :: 0 <= i < |y| ==> sep !in y[i]
    ensures forall i :: 0 <= i < |x + y| ==> sep !in (x + y)[i]
  {
    forall i | 0 <= i < |x + y|
      ensures sep !in (x + y)[i]
    {
      if i < |x| {
        assert (x + y)[i] == x[i];
      } else {
        assert (x + y)[i] == y[i - |x|];
      }
    }
  }

  /** Text without the separator splits into itself alone. */
  lemma SplitWithoutSeparator(s: string, sep: char)
    requires sep !in s
    ensures Split(s, sep) == [s]
  {
    CountZero(s, sep);
    var parts := Split(s, sep);
    assert |parts| == 1 && Join(parts, sep) == parts[0];
  }

  /** With exactly one separator, at `i`, the split is the text before and the text after it. */
  lemma SplitAtOnlySeparator(s: string, sep: char, i: nat)
    requires i < |s| && s[i] == sep && Count(s, sep) == 1
    ensures Split(s, sep) == [s[..i], s[i + 1..]]
  {
    assert s == s[..i] + [sep] + s[i + 1..];
    CountAppend(s[..i] + [sep], s[i + 1..], sep);
    CountAppend(s[..i], [sep], sep);
    CountZero(s[..i], sep);
    CountZero(s[i + 1..], sep);
    SplitConcat(s[..i], s[i + 1..], sep);
  }

  /** The same for every position of the only separator. */
  lemma SplitAtEveryOnlySeparator(s: string, sep: char)
    requires Count(s, sep) == 1
    ensures forall i :: 0 <= i < |s| && s[i] == sep ==> Split(s, sep) == [s[..i], s[i + 1..]]
  {
    forall i | 0 <= i < |s| && s[i] == sep
      ensures Split(s, sep) == [s[..i], s[i + 1..]]
    {
      SplitAtOnlySeparator(s, sep, i);
    }
  }

  /** Joining two non-empty lists of parts puts one separator between them. */
  lemma {:induction false} JoinConcat(x: seq<string>, y: seq<string>, sep: char)
    requires |x| > 0 && |y| > 0
    ensures Join(x + y, sep) == Join(x, sep) + [sep] + Join(y, sep)
    decreases |x|
  {
    if |x| == 1 {
      assert (x + y)[1..] == y;
    } else {
      assert (x + y)[1..] == x[1..] + y;
      JoinConcat(x[1..], y, sep);
    }
  }

  /** Every character of every part appears in the joined text. */
  lemma {:induction false} JoinContains(parts: seq<string>, sep: char, i: nat, j: nat)
    requires i < |parts| && j < |parts[i]|
    ensures parts[i][j] in Join(parts, sep)
    decreases |parts|
  {
    if |parts| > 1 {
      var rest := Join(parts[1..], sep);
      assert Join(parts, sep) == parts[0] + [sep] + rest;
      if i == 0 {
        assert Join(parts, sep)[j] == parts[0][j];
      } else {
        JoinContains(parts[1..], sep, i - 1, j);
        var k :| 0 <= k < |rest| && rest[k] == parts[i][j];
        assert Join(parts, sep)[|parts[0]| + 1 + k] == rest[k];
      }
    }
  }

  // ---------------------------------------------------------------------------
  // Trimming and replacing
  // ---------------------------------------------------------------------------

  /**
   * strings.TrimLeft(s, cutset) for a one-character cutset: the suffix left
   * after dropping every leading `c`.
   */
  function TrimLeft(s: string, c: char): (r: string)
    ensures |r| <= |s| && r == s[|s| - |r|..]
    ensures forall i :: 0 <= i < |s| - |r| ==> s[i] == c
    ensures |r| > 0 ==> r[0] != c
    decreases |s|
  {
    if |s| > 0 && s[0] == c then TrimLeft(s[1..], c) else s
  }

  /** A text made only of `c` is trimmed to nothing. */
  lemma {:induction false} TrimLeftAll(s: string, c: char)
    requires forall i :: 0 <= i < |s| ==> s[i] == c
    ensures TrimLeft(s, c) == ""
    decreases |s|
  {
    if |s| > 0 {
      TrimLeftAll(s[1..], c);
    }
  }

  /** strings.Replace(s, from, to, -1) for one-character strings from and to. */
  function ReplaceAll(s: string, from: char, to: char): (r: string)
    ensures |r| == |s|
    ensures forall i :: 0 <= i < |s| ==> r[i] == (if s[i] == from then to else s[i])
    decreases |s|
  {
    if |s| == 0 then "" else [if s[0] == from then to else s[0]] + ReplaceAll(s[1..], from, to)
  }

  /** strings.ToLower restricted to ASCII letters. */
  function ToLowerAscii(s: string): (r: string)
    ensures |r| == |s|
    ensures forall i :: 0 <= i < |s| ==> r[i] == (if 'A' <= s[i] <= 'Z' then (s[i] as int + 32) as char else s[i])
    decreases |s|
  {
    if |s| == 0 then ""
    else [if 'A' <= s[0] <= 'Z' then (s[0] as int + 32) as char else s[0]] + ToLowerAscii(s[1..])
  }

  // ---------------------------------------------------------------------------
  // UTF-8: the bytes of `[]byte(s)`
  // ---------------------------------------------------------------------------

  predicate IsAscii(s: string) {
    forall i :: 0 <= i < |s| ==> s[i] as int < 0x80
  }

  /** The UTF-8 encoding of one scalar value. */
  function Utf8Char(c: char): (b: seq<byte>)
    ensures 1 <= |b| <= 4
    ensures c as int < 0x80 ==> b == [c as int]
    ensures c as int >= 0x80 ==> forall k :: 0 <= k < |b| ==> b[k] >= 0x80
  {
    var cp := c as int;
    if cp < 0x80 then [cp]
    else if cp < 0x800 then [0xC0 + cp / 64, 0x80 + cp % 64]
    else if cp < 0x10000 then [0xE0 + cp / 4096, 0x80 + (cp / 64) % 64, 0x80 + cp % 64]
    else [0xF0 + cp / 262144, 0x80 + (cp / 4096) % 64, 0x80 + (cp / 64) % 64, 0x80 + cp % 64]
  }

  /** The UTF-8 encoding of a string: Go's `[]byte(s)`. */
  function Utf8(s: string): (b: seq<byte>)
    ensures |b| >= |s|
    decreases |s|
  {
    if |s| == 0 then [] else Utf8Char(s[0]) + Utf8(s[1..])
  }

  /** Bytes that are the codes of ASCII text, one for one, are its encoding. */
  lemma AsciiEncoding(s: string, b: seq<byte>)
    requires |s| == |b| && forall i :: 0 <= i < |s| ==> s[i] as int < 0x80 && s[i] as int == b[i]
    ensures Utf8(s) == b
  {
    Utf8Ascii(s);
  }

  /** ASCII text encodes byte for byte: each character is its own code. */
  lemma {:induction false} Utf8Ascii(s: string)
    requires IsAscii(s)
    ensures |Utf8(s)| == |s| && forall i :: 0 <= i < |s| ==> Utf8(s)[i] == s[i] as int
    decreases |s|
  {
    if |s| > 0 {
      Utf8Ascii(s[1..]);
      assert Utf8Char(s[0]) == [s[0] as int];
      forall i | 1 <= i < |s| ensures Utf8(s)[i] == s[i] as int {
        assert s[1..][i - 1] == s[i];
      }
    }
  }
}

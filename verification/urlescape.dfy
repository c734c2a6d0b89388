/**
 * url.QueryEscape and url.QueryUnescape of Go's net/url, byte by byte over
 * the UTF-8 encoding of the text: letters, digits and `-_.~` are kept, a
 * space becomes `+`, every other byte becomes `%XX` with upper-case hex.
 */
module UrlEscape {
  import opened Strings
  import opened Wrappers

  const Percent: byte := 0x25
  const Plus: byte := 0x2B
  const Space: byte := 0x20
  const Slash: byte := 0x2F

  /** The bytes QueryEscape leaves alone. */
  predicate Unreserved(b: byte)
  {
    (0x41 <= b <= 0x5A) || (0x61 <= b <= 0x7A) || (0x30 <= b <= 0x39)
    || b == 0x2D || b == 0x5F || b == 0x2E || b == 0x7E
  }

  /** The upper-case hex digit of a value below 16. */
  function HexDigit(d: nat): (h: byte)
    requires d < 16
    ensures IsHex(h) && HexValue(h) == d
  {
    if d < 10 then 0x30 + d else 0x41 + (d - 10)
  }

  predicate IsHex(b: byte)
  {
    (0x30 <= b <= 0x39) || (0x41 <= b <= 0x46) || (0x61 <= b <= 0x66)
  }

  /** The value of a hex digit of either case. */
  function HexValue(b: byte): (v: nat)
    requires IsHex(b)
    ensures v < 16
  {
    if b <= 0x39 then b - 0x30 else if b <= 0x46 then b - 0x41 + 10 else b - 0x61 + 10
  }

  /** One byte, escaped for a query component. */
  function EscapeByte(b: byte): (e: seq<byte>)
    ensures 1 <= |e| <= 3
    ensures forall k :: 0 <= k < |e| ==> e[k] < 0x80 && e[k] != Slash
    ensures Unreserved(b) ==> e == [b]
    ensures b == Space ==> e == [Plus]
    ensures !Unreserved(b) && b != Space ==>
              (|e| == 3 && e[0] == Percent && IsHex(e[1]) && IsHex(e[2]) && HexValue(e[1]) * 16 + HexValue(e[2]) == b)
  {
    if Unreserved(b) then [b]
    else if b == Space then [Plus]
    else [Percent, HexDigit(b / 16), HexDigit(b % 16)]
  }

  /** Every byte escaped in turn. */
  function EscapeBytes(b: seq<byte>): (e: seq<byte>)
    ensures |e| >= |b|
    ensures forall k :: 0 <= k < |e| ==> e[k] < 0x80 && e[k] != Slash
    decreases |b|
  {
    if |b| == 0 then [] else EscapeByte(b[0]) + EscapeBytes(b[1..])
  }

  lemma {:induction false} EscapeBytesAppend(a: seq<byte>, b: seq<byte>)
    ensures EscapeBytes(a + b) == EscapeBytes(a) + EscapeBytes(b)
    decreases |a|
  {
    if |a| == 0 {
      assert a + b == b;
    } else {
      assert (a + b)[0] == a[0] && (a + b)[1..] == a[1..] + b;
      EscapeBytesAppend(a[1..], b);
    }
  }

  /** A sequence of ASCII bytes read as text. */
  function AsciiText(b: seq<byte>): (s: string)
    requires forall k :: 0 <= k < |b| ==> b[k] < 0x80
    ensures |s| == |b| && IsAscii(s)
    ensures forall k :: 0 <= k < |b| ==> s[k] as int == b[k]
  {
    seq(|b|, k requires 0 <= k < |b| => b[k] as char)
  }

  /** url.QueryEscape: the escaped UTF-8 bytes of the text, as ASCII text. */
  function QueryEscape(s: string): (r: string)
    ensures IsAscii(r) && '/' !in r
    ensures Utf8(r) == EscapeBytes(Utf8(s))
  {
    var e := EscapeBytes(Utf8(s));
    var r := AsciiText(e);
    Utf8Ascii(r);
    assert Utf8(r) == e;
    assert '/' !in r by {
      assert forall k :: 0 <= k < |r| ==> r[k] as int == e[k] && e[k] != Slash;
    }
    r
  }

  /**
   * The unescaping of a query component: `%` and two hex digits of either
   * case give that byte, `+` gives a space, other bytes stand for
   * themselves; a `%` without two hex digits after it is an error.
   */
  function Unescape(e: seq<byte>): Option<seq<byte>>
    decreases |e|
  {
    if |e| == 0 then Some([])
    else if e[0] == Percent then
      if |e| >= 3 && IsHex(e[1]) && IsHex(e[2]) then
        var rest :- Unescape(e[3..]);
        Some([HexValue(e[1]) * 16 + HexValue(e[2])] + rest)
      else None
    else if e[0] == Plus then
      var rest :- Unescape(e[1..]);
      Some([Space] + rest)
    else
      var rest :- Unescape(e[1..]);
      Some([e[0]] + rest)
  }

  /** url.QueryUnescape, on the UTF-8 bytes of the text. */
  function QueryUnescape(s: string): Option<seq<byte>>
  {
    Unescape(Utf8(s))
  }

  /** Unescaping undoes escaping, for every byte sequence. */
  lemma {:induction false} UnescapeEscapeBytes(b: seq<byte>)
    ensures Unescape(EscapeBytes(b)) == Some(b)
    decreases |b|
  {
    if |b| > 0 {
      UnescapeEscapeBytes(b[1..]);
      UnescapeFront(b[0], EscapeBytes(b[1..]), b[1..]);
      HeadTail(b);
    }
  }

  /** One escaped byte in front of text that unescapes to `r` unescapes to that byte, then `r`. */
  lemma UnescapeFront(x: byte, rest: seq<byte>, r: seq<byte>)
    requires Unescape(rest) == Some(r)
    ensures Unescape(EscapeByte(x) + rest) == Some([x] + r)
  {
    var e := EscapeByte(x);
    var all := e + rest;
    if Unreserved(x) {
      assert all[0] == x && all[1..] == rest;
    } else if x == Space {
      assert all[0] == Plus && all[1..] == rest;
    } else {
      assert all[0] == Percent && all[1] == e[1] && all[2] == e[2] && all[3..] == rest;
    }
  }

  /** QueryUnescape(QueryEscape(s)) is the UTF-8 encoding of s. */
  lemma QueryRoundTrip(s: string)
    ensures QueryUnescape(QueryEscape(s)) == Some(Utf8(s))
  {
    UnescapeEscapeBytes(Utf8(s));
  }

  predicate PlainText(s: string)
  {
    forall i :: 0 <= i < |s| ==> s[i] as int < 0x80 && (Unreserved(s[i] as int) || s[i] == ' ')
  }

  /** On plain text, escaping the UTF-8 bytes is encoding the text with spaces turned into `+`. */
  lemma {:induction false} EscapePlainBytes(s: string)
    requires PlainText(s)
    ensures EscapeBytes(Utf8(s)) == Utf8(ReplaceAll(s, ' ', '+'))
    decreases |s|
  {
    if |s| > 0 {
      EscapePlainBytes(s[1..]);
      EscapeBytesAppend([s[0] as int], Utf8(s[1..]));
      assert Utf8(s) == [s[0] as int] + Utf8(s[1..]);
      assert EscapeBytes([s[0] as int]) == EscapeByte(s[0] as int) by {
        assert [s[0] as int][1..] == [];
      }
      var c := if s[0] == ' ' then '+' else s[0];
      var t := ReplaceAll(s[1..], ' ', '+');
      assert ReplaceAll(s, ' ', '+') == [c] + t;
      assert ([c] + t)[1..] == t;
      assert Utf8([c] + t) == [c as int] + Utf8(t);
    }
  }

  /** A text of ASCII letters, digits, `-_.~` and spaces escapes to itself with each space turned into `+`. */
  lemma QueryEscapePlain(s: string)
    requires PlainText(s)
    ensures QueryEscape(s) == ReplaceAll(s, ' ', '+')
  {
    EscapePlainBytes(s);
    var r := ReplaceAll(s, ' ', '+');
    assert IsAscii(r);
    var q := QueryEscape(s);
    Utf8Ascii(q);
    Utf8Ascii(r);
    assert Utf8(q) == Utf8(r);
    assert |q| == |r| && forall k :: 0 <= k < |q| ==> q[k] as int == r[k] as int;
  }
}

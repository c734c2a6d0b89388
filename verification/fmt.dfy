/**
 * fmt.Sprintf with string arguments, for the formats the configuration
 * reader builds keypaths from: every `%` is followed by the verb `s` or by
 * `!`. The second kind only arises when Sprintf's own error markers such as
 * `%!s(MISSING)` are fed back in as a format.
 */
module Fmt {
  import opened Strings

  /** A format whose every `%` introduces the verb `s` or `!`, read as Sprintf reads it. */
  predicate KeypathFormat(f: string)
    decreases |f|
  {
    if |f| == 0 then true
    else if f[0] != '%' then KeypathFormat(f[1..])
    else |f| >= 2 && (f[1] == 's' || f[1] == '!') && KeypathFormat(f[2..])
  }

  /** Every `%` is followed by `!`: the shape of Sprintf's error markers. */
  predicate MarkersOnly(s: string)
    decreases |s|
  {
    if |s| == 0 then true
    else if s[0] != '%' then MarkersOnly(s[1..])
    else |s| >= 2 && s[1] == '!' && MarkersOnly(s[2..])
  }

  /** The text contains no `%` at all. */
  predicate NoVerbs(s: string)
  {
    '%' !in s
  }

  /** How many format characters the first piece of `f` takes: a verb takes two. */
  function Width(f: string): (w: nat)
    requires |f| > 0 && KeypathFormat(f)
    ensures 1 <= w <= |f| && KeypathFormat(f[w..])
  {
    if f[0] == '%' then 2 else 1
  }

  /** How many arguments the first piece of `f` takes: one for a verb, if any is left. */
  function Used(f: string, args: seq<string>): (u: nat)
    requires |f| > 0
    ensures u <= |args|
  {
    if f[0] == '%' && |args| > 0 then 1 else 0
  }

  /**
   * What Sprintf prints for the first piece of a non-empty format: a literal
   * character, or a verb applied to the next argument. `%s` prints its
   * argument, any other verb prints `%!c(string=arg)`, and a verb with no
   * argument left prints `%!c(MISSING)`.
   */
  function Piece(f: string, args: seq<string>): string
    requires |f| > 0 && KeypathFormat(f)
  {
    if f[0] != '%' then [f[0]]
    else if |args| == 0 then "%!" + [f[1]] + "(MISSING)"
    else if f[1] == 's' then args[0]
    else "%!" + [f[1]] + "(string=" + args[0] + ")"
  }

  /** The pieces of `f` printed in order. */
  function Printed(f: string, args: seq<string>): string
    requires KeypathFormat(f)
    decreases |f|
  {
    if |f| == 0 then "" else Piece(f, args) + Printed(f[Width(f)..], args[Used(f, args)..])
  }

  /** The arguments no verb of `f` consumed. */
  function Unused(f: string, args: seq<string>): seq<string>
    requires KeypathFormat(f)
    decreases |f|
  {
    if |f| == 0 then args else Unused(f[Width(f)..], args[Used(f, args)..])
  }

  /** The arguments no verb consumed, as `string=a, string=b`. */
  function ExtraList(args: seq<string>): string
    decreases |args|
  {
    if |args| == 0 then ""
    else if |args| == 1 then "string=" + args[0]
    else "string=" + args[0] + ", " + ExtraList(args[1..])
  }

  /** The marker for arguments no verb consumed. */
  function ExtraMarker(unused: seq<string>): string
  {
    "%!(EXTRA " + ExtraList(unused) + ")"
  }

  /** fmt.Sprintf: the printed pieces, then `%!(EXTRA ...)` for any unused arguments. */
  function Sprintf(f: string, args: seq<string>): string
    requires KeypathFormat(f)
  {
    var unused := Unused(f, args);
    if |unused| == 0 then Printed(f, args) else Printed(f, args) + ExtraMarker(unused)
  }

  // ---------------------------------------------------------------------------
  // Formats built from pieces
  // ---------------------------------------------------------------------------

  lemma {:induction false} NoVerbsIsPlain(s: string)
    requires NoVerbs(s)
    ensures KeypathFormat(s) && MarkersOnly(s)
    decreases |s|
  {
    if |s| > 0 {
      assert s[0] in s;
      assert NoVerbs(s[1..]) by {
        assert forall c :: c in s[1..] ==> c in s;
      }
      NoVerbsIsPlain(s[1..]);
    }
  }

  lemma {:induction false} MarkersAreKeypathFormat(s: string)
    requires MarkersOnly(s)
    ensures KeypathFormat(s)
    decreases |s|
  {
    if |s| > 0 {
      if s[0] != '%' {
        MarkersAreKeypathFormat(s[1..]);
      } else {
        MarkersAreKeypathFormat(s[2..]);
      }
    }
  }

  lemma {:induction false} MarkersConcat(a: string, b: string)
    requires MarkersOnly(a) && MarkersOnly(b)
    ensures MarkersOnly(a + b)
    decreases |a|
  {
    if |a| == 0 {
      assert a + b == b;
    } else if a[0] != '%' {
      assert (a + b)[0] == a[0] && (a + b)[1..] == a[1..] + b;
      MarkersConcat(a[1..], b);
    } else {
      assert (a + b)[0] == a[0] && (a + b)[1] == a[1] && (a + b)[2..] == a[2..] + b;
      MarkersConcat(a[2..], b);
    }
  }

  /** The first piece of `a + b` lies within `a`, and what follows it is a keypath format. */
  lemma {:induction false} KeypathConcatStep(a: string, b: string)
    requires |a| > 0 && KeypathFormat(a) && KeypathFormat(b)
    ensures KeypathFormat(a + b)
    ensures (a + b)[0] == a[0] && (a[0] == '%' ==> |a| >= 2 && (a + b)[1] == a[1])
    decreases |a|
  {
    if a[0] != '%' {
      assert (a + b)[1..] == a[1..] + b;
      if |a| > 1 {
        KeypathConcatStep(a[1..], b);
      } else {
        assert a[1..] + b == b;
      }
    } else {
      assert (a + b)[2..] == a[2..] + b;
      if |a| > 2 {
        KeypathConcatStep(a[2..], b);
      } else {
        assert a[2..] + b == b;
      }
    }
  }

  /** The first piece depends only on the first character, and on the second after a `%`. */
  lemma PieceOfHead(f: string, g: string, args: seq<string>)
    requires |f| > 0 && KeypathFormat(f) && |g| > 0 && KeypathFormat(g)
    requires f[0] == g[0] && (f[0] == '%' ==> f[1] == g[1])
    ensures Width(f) == Width(g) && Used(f, args) == Used(g, args) && Piece(f, args) == Piece(g, args)
  {
  }

  /** The first piece of `a + b` is the first piece of `a`. */
  lemma PieceConcat(a: string, b: string, args: seq<string>)
    requires |a| > 0 && KeypathFormat(a) && KeypathFormat(b)
    ensures KeypathFormat(a + b)
    ensures Width(a + b) == Width(a) && Used(a + b, args) == Used(a, args)
    ensures Piece(a + b, args) == Piece(a, args)
    ensures (a + b)[Width(a)..] == a[Width(a)..] + b
  {
    KeypathConcatStep(a, b);
    PieceOfHead(a + b, a, args);
    DropAppend(a, b, Width(a));
  }

  /** The arguments left after `a + b` are those `b` leaves of what `a` left. */
  lemma {:induction false} UnusedConcat(a: string, b: string, args: seq<string>)
    requires KeypathFormat(a) && KeypathFormat(b)
    ensures KeypathFormat(a + b)
    ensures Unused(a + b, args) == Unused(b, Unused(a, args))
    decreases |a|
  {
    if |a| == 0 {
      assert a + b == b;
    } else {
      PieceConcat(a, b, args);
      UnusedConcat(a[Width(a)..], b, args[Used(a, args)..]);
    }
  }

  /** A non-empty format prints its first piece, then the rest with the arguments left. */
  lemma PrintedFront(f: string, args: seq<string>)
    requires |f| > 0 && KeypathFormat(f)
    ensures Printed(f, args) == Piece(f, args) + Printed(f[Width(f)..], args[Used(f, args)..])
  {
  }

  /** What `a + b` prints is what `a` prints, then what `b` prints of the arguments `a` left. */
  lemma {:induction false} PrintedConcat(a: string, b: string, args: seq<string>)
    requires KeypathFormat(a) && KeypathFormat(b)
    ensures KeypathFormat(a + b)
    ensures Printed(a + b, args) == Printed(a, args) + Printed(b, Unused(a, args))
    decreases |a|
  {
    if |a| == 0 {
      assert a + b == b;
      assert "" + Printed(b, args) == Printed(b, args);
    } else {
      var w := Width(a);
      var more := args[Used(a, args)..];
      PieceConcat(a, b, args);
      PrintedFront(a + b, args);
      PrintedFront(a, args);
      PrintedConcat(a[w..], b, more);
      var p := Piece(a, args);
      AppendAssoc(p, Printed(a[w..], more), Printed(b, Unused(a[w..], more)));
    }
  }

  /** Text without verbs prints as itself and consumes no argument. */
  lemma {:induction false} ScanPlain(f: string, args: seq<string>)
    requires NoVerbs(f)
    ensures KeypathFormat(f) && Printed(f, args) == f && Unused(f, args) == args
    decreases |f|
  {
    NoVerbsIsPlain(f);
    if |f| > 0 {
      assert f[0] in f;
      assert NoVerbs(f[1..]) by {
        assert forall c :: c in f[1..] ==> c in f;
      }
      ScanPlain(f[1..], args);
      assert f == [f[0]] + f[1..];
    }
  }

  /** One `%s` with an argument prints the argument and uses it up. */
  lemma ScanVerb(x: string, more: seq<string>)
    ensures KeypathFormat("%s")
    ensures Printed("%s", [x] + more) == x && Unused("%s", [x] + more) == more
  {
    assert "%s"[2..] == "";
    assert ([x] + more)[1..] == more;
    assert x + "" == x;
  }

  /** One verb without an argument prints the missing-argument marker. */
  lemma ScanVerbMissing(verb: char)
    requires verb == 's' || verb == '!'
    ensures KeypathFormat("%" + [verb])
    ensures Printed("%" + [verb], []) == "%!" + [verb] + "(MISSING)" && Unused("%" + [verb], []) == []
  {
    var f := "%" + [verb];
    assert f[0] == '%' && f[1] == verb && f[2..] == "";
    assert "%!" + [verb] + "(MISSING)" + "" == "%!" + [verb] + "(MISSING)";
  }

  // ---------------------------------------------------------------------------
  // What Sprintf prints
  // ---------------------------------------------------------------------------

  /** A format without verbs prints as itself when no arguments are given. */
  lemma SprintfPlain(f: string)
    requires NoVerbs(f)
    ensures KeypathFormat(f) && Sprintf(f, []) == f
  {
    ScanPlain(f, []);
  }

  /** `a%sb` with one argument prints the argument between the two texts. */
  lemma SprintfOne(a: string, b: string, x: string)
    requires NoVerbs(a) && NoVerbs(b)
    ensures KeypathFormat(a + "%s" + b)
    ensures Printed(a + "%s" + b, [x]) == a + x + b && Unused(a + "%s" + b, [x]) == []
    ensures Sprintf(a + "%s" + b, [x]) == a + x + b
  {
    ScanPlain(a, [x]);
    ScanPlain(b, []);
    ScanVerb(x, []);
    assert [x] + [] == [x];
    PrintedConcat(a, "%s", [x]);
    UnusedConcat(a, "%s", [x]);
    PrintedConcat(a + "%s", b, [x]);
    UnusedConcat(a + "%s", b, [x]);
  }

  lemma Assoc(p: string, q: string, r: string)
    ensures p + q + r == p + (q + r)
  {
  }

  lemma Regroup(a: string, p: string, q: string, c: string)
    ensures a + (p + q) + c == a + (p + (q + c))
  {
  }

  lemma MissingSLiteral()
    ensures "%!" + ['s'] + "(MISSING)" == "%!s(MISSING)"
  {
  }

  /** `%s` with no argument left prints the missing-argument marker, then the plain text after it. */
  lemma VerbMissingThenPlain(c: string)
    requires NoVerbs(c)
    ensures KeypathFormat("%s" + c)
    ensures Printed("%s" + c, []) == "%!s(MISSING)" + c && Unused("%s" + c, []) == []
  {
    ScanPlain(c, []);
    var f := "%s" + c;
    assert f[0] == '%' && f[1] == 's' && f[2..] == c;
    MissingSLiteral();
    assert Piece(f, []) == "%!s(MISSING)";
  }

  /** `a%sb%sc` with two arguments prints them in order between the three texts. */
  lemma SprintfTwo(a: string, b: string, c: string, x: string, y: string)
    requires NoVerbs(a) && NoVerbs(b) && NoVerbs(c)
    ensures KeypathFormat(a + "%s" + b + "%s" + c)
    ensures Sprintf(a + "%s" + b + "%s" + c, [x, y]) == a + x + b + y + c
  {
    var one := a + "%s" + b;
    var two := "%s" + c;
    ScanPlain(a, [x, y]);
    ScanPlain(b, [y]);
    ScanPlain(c, []);
    ScanVerb(x, [y]);
    ScanVerb(y, []);
    assert [x] + [y] == [x, y] && [y] + [] == [y];
    PrintedConcat(a, "%s", [x, y]);
    UnusedConcat(a, "%s", [x, y]);
    PrintedConcat(a + "%s", b, [x, y]);
    UnusedConcat(a + "%s", b, [x, y]);
    PrintedConcat("%s", c, [y]);
    UnusedConcat("%s", c, [y]);
    PrintedConcat(one, two, [x, y]);
    UnusedConcat(one, two, [x, y]);
    Assoc(one, "%s", c);
    Assoc(a + x + b, y, c);
  }

  /**
   * `a%sb%sc` with one argument prints the argument for the first verb and
   * the missing-argument marker for the second.
   */
  lemma SprintfMissing(a: string, b: string, c: string, x: string)
    requires NoVerbs(a) && NoVerbs(b) && NoVerbs(c)
    ensures KeypathFormat(a + "%s" + b + "%s" + c)
    ensures Sprintf(a + "%s" + b + "%s" + c, [x]) == a + x + b + "%!s(MISSING)" + c
  {
    var one := a + "%s" + b;
    var two := "%s" + c;
    SprintfOne(a, b, x);
    VerbMissingThenPlain(c);
    PrintedConcat(one, two, [x]);
    UnusedConcat(one, two, [x]);
    Assoc(one, "%s", c);
    Assoc(a + x + b, "%!s(MISSING)", c);
  }

  /** `%!` with no argument prints the marker `%!!(MISSING)`, then the text after it. */
  lemma BangWithoutArgument(t: string)
    requires NoVerbs(t)
    ensures KeypathFormat("%!" + t)
    ensures Printed("%!" + t, []) == "%!!(MISSING)" + t && Unused("%!" + t, []) == []
  {
    ScanPlain(t, []);
    var f := "%!" + t;
    assert f[0] == '%' && f[1] == '!' && f[2..] == t;
    assert Piece(f, []) == "%!!(MISSING)";
  }

  lemma MarkerLiterals()
    ensures "%!s(MISSING)" == "%!" + "s(MISSING)"
    ensures "%!!(MISSING)s(MISSING)" == "%!!(MISSING)" + "s(MISSING)"
  {
  }

  /** Re-formatting a missing-argument marker with no arguments garbles it further. */
  lemma MissingMarkerReformatted(a: string, c: string)
    requires NoVerbs(a) && NoVerbs(c)
    ensures KeypathFormat(a + "%!s(MISSING)" + c)
    ensures Sprintf(a + "%!s(MISSING)" + c, []) == a + "%!!(MISSING)s(MISSING)" + c
  {
    var tail := "s(MISSING)" + c;
    assert NoVerbs(tail);
    ScanPlain(a, []);
    BangWithoutArgument(tail);
    var f := "%!" + tail;
    PrintedConcat(a, f, []);
    UnusedConcat(a, f, []);
    MarkerLiterals();
    Regroup(a, "%!", "s(MISSING)", c);
    Regroup(a, "%!!(MISSING)", "s(MISSING)", c);
  }

  // ---------------------------------------------------------------------------
  // Formats joined from parts
  // ---------------------------------------------------------------------------

  /** One part of a joined format: plain text, or one verb followed by plain text. */
  predicate SimplePart(p: string)
  {
    NoVerbs(p) || (|p| >= 2 && p[0] == '%' && (p[1] == 's' || p[1] == '!') && NoVerbs(p[2..]))
  }

  /** The arguments one part consumes. */
  function PartUses(p: string, args: seq<string>): (u: nat)
    ensures u <= |args|
  {
    if NoVerbs(p) || |args| == 0 then 0 else 1
  }

  /** What one part prints. */
  function FillPart(p: string, args: seq<string>): string
    requires SimplePart(p)
  {
    if NoVerbs(p) then p
    else
      assert KeypathFormat(p[..2]) by { assert p[..2][2..] == ""; }
      Piece(p[..2], args) + p[2..]
  }

  /** The parts with every verb filled in, in order. */
  function Fill(parts: seq<string>, args: seq<string>): (r: seq<string>)
    requires forall i :: 0 <= i < |parts| ==> SimplePart(parts[i])
    ensures |r| == |parts|
    decreases |parts|
  {
    if |parts| == 0 then []
    else [FillPart(parts[0], args)] + Fill(parts[1..], args[PartUses(parts[0], args)..])
  }

  /** The arguments the parts leave unconsumed. */
  function Left(parts: seq<string>, args: seq<string>): seq<string>
    decreases |parts|
  {
    if |parts| == 0 then args
    else Left(parts[1..], args[PartUses(parts[0], args)..])
  }

  lemma PrintedPart(p: string, args: seq<string>)
    requires SimplePart(p)
    ensures KeypathFormat(p)
    ensures Printed(p, args) == FillPart(p, args) && Unused(p, args) == args[PartUses(p, args)..]
  {
    if NoVerbs(p) {
      ScanPlain(p, args);
      assert args[0..] == args;
    } else {
      var t := p[2..];
      ScanPlain(t, args[PartUses(p, args)..]);
      assert p[0] == '%' && p[2..] == t;
      assert Piece(p, args) == Piece(p[..2], args);
    }
  }

  /** A plain part followed by the separator. */
  lemma PrintedSeparated(p: string, sep: char, args: seq<string>)
    requires SimplePart(p) && sep != '%'
    ensures KeypathFormat(p + [sep])
    ensures Printed(p + [sep], args) == FillPart(p, args) + [sep]
    ensures Unused(p + [sep], args) == args[PartUses(p, args)..]
  {
    PrintedPart(p, args);
    ScanPlain([sep], args[PartUses(p, args)..]);
    PrintedConcat(p, [sep], args);
    UnusedConcat(p, [sep], args);
  }

  /**
   * Sprintf's scan over parts joined with a separator other than `%`: each
   * part prints on its own, consuming its verb's argument if any is left.
   */
  lemma {:induction false} PrintedJoin(parts: seq<string>, sep: char, args: seq<string>)
    requires |parts| > 0 && sep != '%'
    requires forall i :: 0 <= i < |parts| ==> SimplePart(parts[i])
    ensures KeypathFormat(Join(parts, sep))
    ensures Printed(Join(parts, sep), args) == Join(Fill(parts, args), sep)
    ensures Unused(Join(parts, sep), args) == Left(parts, args)
    decreases |parts|
  {
    var more := args[PartUses(parts[0], args)..];
    if |parts| == 1 {
      PrintedPart(parts[0], args);
      assert Fill(parts, args) == [FillPart(parts[0], args)];
      assert Left(parts[1..], more) == more;
    } else {
      var head := parts[0] + [sep];
      var rest := Join(parts[1..], sep);
      PrintedSeparated(parts[0], sep, args);
      PrintedJoin(parts[1..], sep, more);
      PrintedConcat(head, rest, args);
      UnusedConcat(head, rest, args);
      var filled := Fill(parts[1..], more);
      assert Fill(parts, args) == [FillPart(parts[0], args)] + filled;
      assert ([FillPart(parts[0], args)] + filled)[1..] == filled;
      Assoc(FillPart(parts[0], args), [sep], Join(filled, sep));
    }
  }

  /** Sprintf of a joined format whose verbs use up every argument. */
  lemma SprintfJoin(parts: seq<string>, sep: char, args: seq<string>)
    requires |parts| > 0 && sep != '%'
    requires forall i :: 0 <= i < |parts| ==> SimplePart(parts[i])
    requires Left(parts, args) == []
    ensures KeypathFormat(Join(parts, sep))
    ensures Sprintf(Join(parts, sep), args) == Join(Fill(parts, args), sep)
  {
    PrintedJoin(parts, sep, args);
  }

  // ---------------------------------------------------------------------------
  // Reusing an output as a format
  // ---------------------------------------------------------------------------

  /** `%!` followed by text free of `%`: the shape of every marker Sprintf prints. */
  lemma MarkerPrefix(body: string)
    requires NoVerbs(body)
    ensures MarkersOnly("%!" + body)
  {
    NoVerbsIsPlain(body);
    var m := "%!" + body;
    assert m[0] == '%' && m[1] == '!' && m[2..] == body;
  }

  lemma MissingMarker(verb: char)
    requires verb != '%'
    ensures MarkersOnly("%!" + [verb] + "(MISSING)")
  {
    var tail := "(MISSING)";
    assert NoVerbs(tail);
    var body := [verb] + tail;
    assert body[0] == verb && body[1..] == tail;
    MarkerPrefix(body);
    AppendAssoc("%!", [verb], tail);
  }

  lemma BadVerbMarker(verb: char, arg: string)
    requires verb != '%' && NoVerbs(arg)
    ensures MarkersOnly("%!" + [verb] + "(string=" + arg + ")")
  {
    var body := [verb] + "(string=" + arg + ")";
    assert NoVerbs(body);
    MarkerPrefix(body);
    assert "%!" + [verb] + "(string=" + arg + ")" == "%!" + body;
  }

  /** Each piece printed with `%`-free arguments has only markers as `%`. */
  lemma PieceMarkersOnly(f: string, args: seq<string>)
    requires |f| > 0 && KeypathFormat(f)
    requires |args| > 0 ==> NoVerbs(args[0])
    ensures MarkersOnly(Piece(f, args))
  {
    if f[0] != '%' {
      NoVerbsIsPlain([f[0]]);
    } else if |args| == 0 {
      MissingMarker(f[1]);
    } else if f[1] == 's' {
      NoVerbsIsPlain(args[0]);
    } else {
      BadVerbMarker(f[1], args[0]);
    }
  }

  /**
   * Printing `%`-free arguments leaves only error markers as `%`, so the
   * output can itself be used as a keypath format.
   */
  lemma {:induction false} PrintedMarkersOnly(f: string, args: seq<string>)
    requires KeypathFormat(f)
    requires forall k :: 0 <= k < |args| ==> NoVerbs(args[k])
    ensures MarkersOnly(Printed(f, args))
    ensures forall k :: 0 <= k < |Unused(f, args)| ==> NoVerbs(Unused(f, args)[k])
    decreases |f|
  {
    if |f| > 0 {
      var more := args[Used(f, args)..];
      assert forall k :: 0 <= k < |more| ==> more[k] == args[k + Used(f, args)];
      PieceMarkersOnly(f, args);
      PrintedMarkersOnly(f[Width(f)..], more);
      MarkersConcat(Piece(f, args), Printed(f[Width(f)..], more));
    }
  }

  lemma {:induction false} ExtraListNoVerbs(args: seq<string>)
    requires forall k :: 0 <= k < |args| ==> NoVerbs(args[k])
    ensures NoVerbs(ExtraList(args))
    decreases |args|
  {
    if |args| > 1 {
      ExtraListNoVerbs(args[1..]);
    }
  }

  /** The `%!(EXTRA ...)` marker of `%`-free arguments is a marker only. */
  lemma ExtraMarkerOnly(unused: seq<string>)
    requires forall k :: 0 <= k < |unused| ==> NoVerbs(unused[k])
    ensures MarkersOnly(ExtraMarker(unused))
  {
    ExtraListNoVerbs(unused);
    var body := "(EXTRA " + ExtraList(unused) + ")";
    MarkerPrefix(body);
    assert ExtraMarker(unused) == "%!" + body;
  }

  /** Formatting with `%`-free arguments gives a keypath format again. */
  lemma SprintfKeepsKeypathFormat(f: string, args: seq<string>)
    requires KeypathFormat(f)
    requires forall k :: 0 <= k < |args| ==> NoVerbs(args[k])
    ensures KeypathFormat(Sprintf(f, args))
  {
    PrintedMarkersOnly(f, args);
    var unused := Unused(f, args);
    if |unused| > 0 {
      ExtraMarkerOnly(unused);
      MarkersConcat(Printed(f, args), ExtraMarker(unused));
    }
    MarkersAreKeypathFormat(Sprintf(f, args));
  }
}

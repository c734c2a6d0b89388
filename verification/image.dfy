/**
 * The image record of image.go: the destroyed-flag state machine of
 * `Image.Destroy`, the focal point parsed from a request parameter, and the
 * MIME type derived from an ImageMagick format name.
 */
module Image {
  import opened Strings
  import opened Wrappers

  // ---------------------------------------------------------------------------
  // Image.Destroy
  // ---------------------------------------------------------------------------

  /**
   * The part of an Image that Destroy touches: its `destroyed` flag and the
   * number of times the underlying wand has been destroyed so far.
   */
  datatype ImageHandle = ImageHandle(destroyed: bool, wandDestroys: nat)

  /** A freshly decoded image: not destroyed, its wand still alive. */
  const NewImage := ImageHandle(false, 0)

  /** The wand has been destroyed exactly when the flag says so, and at most once. */
  predicate Consistent(i: ImageHandle)
  {
    i.wandDestroys == if i.destroyed then 1 else 0
  }

  /** Image.Destroy: destroys the wand only if the image has not been destroyed yet. */
  function Destroy(i: ImageHandle): (r: ImageHandle)
    ensures r.destroyed
    ensures i.destroyed ==> r == i
    ensures Consistent(i) ==> Consistent(r)
  {
    if !i.destroyed then ImageHandle(true, i.wandDestroys + 1) else i
  }

  /** Destroying an already destroyed image changes nothing. */
  lemma DestroyIdempotent(i: ImageHandle)
    ensures Destroy(Destroy(i)) == Destroy(i)
  {
  }

  /** `n` successive calls of Destroy. */
  function DestroyTimes(i: ImageHandle, n: nat): ImageHandle
    decreases n
  {
    if n == 0 then i else DestroyTimes(Destroy(i), n - 1)
  }

  /**
   * Over any number of Destroy calls on a new image the wand is destroyed at
   * most once, and after at least one call the image is marked destroyed.
   */
  lemma {:induction false} DestroyAtMostOnce(n: nat)
    ensures DestroyTimes(NewImage, n).wandDestroys == if n == 0 then 0 else 1
    ensures DestroyTimes(NewImage, n).destroyed <==> n > 0
  {
    if n > 0 {
      DestroyedStaysPut(Destroy(NewImage), n - 1);
    }
  }

  lemma {:induction false} DestroyedStaysPut(i: ImageHandle, n: nat)
    requires i.destroyed
    ensures DestroyTimes(i, n) == i
    decreases n
  {
    if n > 0 {
      DestroyedStaysPut(Destroy(i), n - 1);
    }
  }

  // ---------------------------------------------------------------------------
  // Focalpoint
  // ---------------------------------------------------------------------------

  /** A float pair locating the subject of the image; (0.5, 0.5) is the middle. */
  datatype Focalpoint = Focalpoint(x: real, y: real)

  const CentreFocalpoint := Focalpoint(0.5, 0.5)

  /**
   * strconv.ParseFloat(s, 64) with its error ignored: the parsed value, or 0
   * when `parseFloat` reports a syntax error (None).
   */
  function ParsedOrZero(parseFloat: string -> Option<real>, s: string): real
  {
    parseFloat(s).GetOr(0.0)
  }

  /**
   * NewFocalpointFromString: split on ',' and, when there are exactly two
   * parts, parse each one; otherwise the centre.
   */
  function NewFocalpointFromString(s: string, parseFloat: string -> Option<real>): (fp: Focalpoint)
    ensures Count(s, ',') != 1 ==> fp == CentreFocalpoint
    ensures forall i :: 0 <= i < |s| && s[i] == ',' && Count(s, ',') == 1 ==>
              fp == Focalpoint(ParsedOrZero(parseFloat, s[..i]), ParsedOrZero(parseFloat, s[i + 1..]))
  {
    var pair := Split(s, ',');
    if |pair| != 2 then
      CentreFocalpoint
    else
      SplitAtEveryOnlySeparator(s, ',');
      Focalpoint(ParsedOrZero(parseFloat, pair[0]), ParsedOrZero(parseFloat, pair[1]))
  }

  /**
   * With exactly one comma, X is read from the text before it and Y from the
   * text after it, each independently of the other half.
   */
  lemma FocalpointHalves(a: string, b: string, parseFloat: string -> Option<real>)
    requires ',' !in a && ',' !in b
    ensures NewFocalpointFromString(a + "," + b, parseFloat)
              == Focalpoint(ParsedOrZero(parseFloat, a), ParsedOrZero(parseFloat, b))
  {
    var s := a + "," + b;
    CountZero(a, ',');
    CountZero(b, ',');
    CountAppend(a + ",", b, ',');
    CountAppend(a, ",", ',');
    assert s[|a|] == ',' && s[..|a|] == a;
    IndexOfUnique(s, ',', |a|);
    assert s[|a| + 1..] == b;
  }

  /** Without a comma the result is the centre. */
  lemma FocalpointDefaults(parseFloat: string -> Option<real>)
    ensures NewFocalpointFromString("", parseFloat) == CentreFocalpoint
    ensures NewFocalpointFromString("0.3", parseFloat) == CentreFocalpoint
  {
    assert Count("0.3", ',') == 0;
  }

  /** With two commas or more the result is the centre too. */
  lemma FocalpointThreeParts(parseFloat: string -> Option<real>)
    ensures NewFocalpointFromString("0.1,0.2,0.3", parseFloat) == CentreFocalpoint
  {
    var s := "0.1,0.2,0.3";
    CountAppend("0.1,", "0.2,0.3", ',');
    assert s == "0.1," + "0.2,0.3";
    assert Count("0.1,", ',') >= 1 && Count("0.2,0.3", ',') >= 1;
  }

  /**
   * A half that does not parse gives 0, not the centre's 0.5, and a parsed
   * coordinate is kept even outside [0, 1].
   */
  lemma FocalpointNotClamped()
    ensures NewFocalpointFromString("2,x", s => if s == "2" then Some(2.0) else None) == Focalpoint(2.0, 0.0)
  {
    FocalpointHalves("2", "x", s => if s == "2" then Some(2.0) else None);
  }

  // ---------------------------------------------------------------------------
  // MIME type
  // ---------------------------------------------------------------------------

  /** `image/` followed by the lower-cased ImageMagick format name. */
  function MimeTypeForFormat(format: string): (m: string)
    ensures |m| == 6 + |format| && m[..6] == "image/"
    ensures forall i :: 0 <= i < |format| ==> m[6 + i] == (if 'A' <= format[i] <= 'Z' then (format[i] as int + 32) as char else format[i])
  {
    "image/" + ToLowerAscii(format)
  }
}

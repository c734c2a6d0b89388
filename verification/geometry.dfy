/**
 * Image dimensions and the resize-dimension planner of the image processor
 * (`ImageDimensions` in image.go; `getScaledDimensions`,
 * `scaleToRequestedDimensions`, `clampDimensionsToMaxima` and the two
 * `getAspectScaled*` helpers in image_processor.go).
 *
 * Go computes aspect ratios as float64 quotients; here a ratio is the exact
 * pair of naturals it was divided from, compared by cross-multiplication, and
 * `floor(x / ratio + 0.5)` is computed with integer division.
 */
module Geometry {
  import opened Strings
  import opened Wrappers
  import opened Strconv

  /** ImageDimensions. The zero value (0, 0) means "unspecified". */
  datatype Dimensions = Dimensions(width: nat, height: nat)

  /**
   * The float64 quotient num / den, kept exactly. A zero denominator is
   * IEEE +Inf when num > 0 and NaN when num == 0.
   */
  datatype Ratio = Ratio(num: nat, den: nat)

  /** ImageDimensions.AspectRatio: Width / Height, +Inf for a zero height and NaN for 0x0. */
  function AspectRatio(d: Dimensions): (r: Ratio)
    ensures d.height > 0 ==> r.den > 0 && (r.num as real) / (r.den as real) == (d.width as real) / (d.height as real)
    ensures d.height == 0 ==> r.den == 0 && (r.num == 0 <==> d.width == 0)
  {
    Ratio(d.width, d.height)
  }

  /** The float64 comparison `a > b`. */
  predicate Greater(a: Ratio, b: Ratio)
  {
    a.num * b.den > b.num * a.den
  }

  /** For finite ratios, cross-multiplication decides the comparison of the quotients. */
  lemma GreaterIsQuotientOrder(a: Ratio, b: Ratio)
    requires a.den > 0 && b.den > 0
    ensures Greater(a, b) <==> (a.num as real) / (a.den as real) > (b.num as real) / (b.den as real)
  {
    var x := (a.num as real) / (a.den as real);
    var y := (b.num as real) / (b.den as real);
    assert x * (a.den as real) == a.num as real;
    assert y * (b.den as real) == b.num as real;
    var ad := a.den as real;
    var bd := b.den as real;
    assert (a.num * b.den) as real == x * ad * bd;
    assert (b.num * a.den) as real == y * ad * bd;
    assert ad * bd > 0.0;
    if x > y {
      assert x * (ad * bd) > y * (ad * bd);
    } else {
      assert x * (ad * bd) <= y * (ad * bd);
    }
  }

  /** The IEEE answers for the non-finite quotients: NaN compares false, +Inf exceeds every finite ratio. */
  lemma GreaterOnNonFinite(a: Ratio, b: Ratio)
    ensures a == Ratio(0, 0) ==> !Greater(a, b) && !Greater(b, a)
    ensures a.num > 0 && a.den == 0 && b.den > 0 ==> Greater(a, b) && !Greater(b, a)
    ensures a.den == 0 && b.den == 0 ==> !Greater(a, b)
  {
  }

  // ---------------------------------------------------------------------------
  // ImageDimensions.String
  // ---------------------------------------------------------------------------

  /** ImageDimensions.String: "<Width>x<Height>" in decimal. */
  function DimensionsString(d: Dimensions): string
  {
    NatToString(d.width) + "x" + NatToString(d.height)
  }

  /** Reads "<digits>x<digits>" back; the partner of DimensionsString. */
  function ParseDimensionsString(s: string): Option<Dimensions>
  {
    if 'x' !in s then None
    else
      var i := IndexOf(s, 'x');
      var w := s[..i];
      var h := s[i + 1..];
      if |w| > 0 && |h| > 0 && AllDigits(w) && AllDigits(h) then
        Some(Dimensions(DecimalValue(w), DecimalValue(h)))
      else None
  }

  /** The rendering is decimal and unambiguous: it parses back to the same dimensions. */
  lemma DimensionsStringRoundTrip(d: Dimensions)
    ensures ParseDimensionsString(DimensionsString(d)) == Some(d)
  {
    var w := NatToString(d.width);
    var h := NatToString(d.height);
    var s := DimensionsString(d);
    assert s[|w|] == 'x';
    assert s[..|w|] == w;
    assert 'x' !in w by {
      assert forall k :: 0 <= k < |w| ==> IsDigit(w[k]);
    }
    IndexOfUnique(s, 'x', |w|);
    assert s[|w| + 1..] == h;
  }

  // ---------------------------------------------------------------------------
  // Rounded derivation of one axis from a ratio
  // ---------------------------------------------------------------------------

  /** floor(p / q + 0.5) in integers. */
  lemma FloorHalfUp(p: nat, q: nat)
    requires q > 0
    ensures ((p as real) / (q as real) + 0.5).Floor == (2 * p + q) / (2 * q)
  {
    var qr := q as real;
    var x := (p as real) / qr;
    assert x * qr == p as real;
    var y := ((2 * p + q) as real) / (2.0 * qr);
    assert y * (2.0 * qr) == (2 * p + q) as real;
    assert (x + 0.5) * (2.0 * qr) == (2 * p + q) as real;
    CancelPositive(x + 0.5, y, 2.0 * qr);
    FloorOfQuotient(2 * p + q, 2 * q);
  }

  lemma TimesQuotient(a: nat, n: nat, d: nat)
    requires d > 0
    ensures (a as real) * ((n as real) / (d as real)) == ((a * n) as real) / (d as real)
  {
  }

  lemma CancelPositive(x: real, y: real, k: real)
    requires k > 0.0 && x * k == y * k
    ensures x == y
  {
  }

  lemma ScalePositive(x: real, y: real, k: real)
    requires k > 0.0 && x * k <= y * k
    ensures x <= y
  {
  }

  lemma ScalePositiveStrict(x: real, y: real, k: real)
    requires k > 0.0 && x * k < y * k
    ensures x < y
  {
  }

  /** The floor of an exact quotient is integer division. */
  lemma FloorOfQuotient(a: nat, b: nat)
    requires b > 0
    ensures ((a as real) / (b as real)).Floor == a / b
  {
    var n := a / b;
    var br := b as real;
    var x := (a as real) / br;
    assert x * br == a as real;
    assert n * b <= a < (n + 1) * b;
    assert (n as real) * br == (n * b) as real;
    assert ((n + 1) as real) * br == ((n + 1) * b) as real;
    ScalePositive(n as real, x, br);
    ScalePositiveStrict(x, (n + 1) as real, br);
  }

  /**
   * getAspectScaledHeight: floor(width / ratio + 0.5), i.e. the width divided
   * by the ratio rounded half up. Defined for every ratio that is not zero or
   * NaN; dividing by +Inf gives 0.
   */
  function ScaledHeight(ratio: Ratio, width: nat): (h: nat)
    requires ratio.num > 0
    ensures ratio.den == 0 ==> h == 0
    ensures ratio.den > 0 ==>
      h == (((width * ratio.den) as real) / (ratio.num as real) + 0.5).Floor
  {
    var p := width * ratio.den;
    FloorHalfUp(p, ratio.num);
    (2 * p + ratio.num) / (2 * ratio.num)
  }

  /** getAspectScaledWidth: floor(height * ratio + 0.5), for a finite ratio. */
  function ScaledWidth(ratio: Ratio, height: nat): (w: nat)
    requires ratio.den > 0
    ensures w == ((height as real) * ((ratio.num as real) / (ratio.den as real)) + 0.5).Floor
  {
    var p := height * ratio.num;
    FloorHalfUp(p, ratio.den);
    TimesQuotient(height, ratio.num, ratio.den);
    (2 * p + ratio.den) / (2 * ratio.den)
  }

  /** Rounding the scaled-down axis can never exceed the axis it was scaled from. */
  lemma ScaledWidthBelow(ratio: Ratio, height: nat, bound: nat)
    requires ratio.den > 0
    requires height * ratio.num <= bound * ratio.den
    ensures ScaledWidth(ratio, height) <= bound
  {
    var p := height * ratio.num;
    var b := 2 * ratio.den;
    assert ScaledWidth(ratio, height) == (2 * p + ratio.den) / b;
    assert 2 * p + ratio.den < b * (bound + 1) by {
      assert b * (bound + 1) == 2 * (bound * ratio.den) + b;
    }
    DivBelow(2 * p + ratio.den, b, bound + 1);
  }

  lemma ScaledHeightBelow(ratio: Ratio, width: nat, bound: nat)
    requires ratio.num > 0
    requires width * ratio.den <= bound * ratio.num
    ensures ScaledHeight(ratio, width) <= bound
  {
    var p := width * ratio.den;
    var b := 2 * ratio.num;
    assert ScaledHeight(ratio, width) == (2 * p + ratio.num) / b;
    assert 2 * p + ratio.num < b * (bound + 1) by {
      assert b * (bound + 1) == 2 * (bound * ratio.num) + b;
    }
    DivBelow(2 * p + ratio.num, b, bound + 1);
  }

  /** The non-finite float64 values a quotient of image dimensions can reach. */
  datatype NonFinite = PosInf | NaN

  /**
   * Go's conversion of a non-finite float64 to uint64. The language leaves
   * the result to the implementation, so the planner takes it as a parameter.
   */
  type NonFiniteCast = NonFinite -> Uint64

  /**
   * getAspectScaledHeight for every ratio. A zero ratio makes width / ratio
   * +Inf (NaN for a zero width), and a NaN ratio makes it NaN; those
   * conversions are the implementation's.
   */
  function AspectScaledHeight(ratio: Ratio, width: nat, cast: NonFiniteCast): (h: nat)
    ensures ratio.num > 0 && ratio.den > 0 ==>
      h == (((width * ratio.den) as real) / (ratio.num as real) + 0.5).Floor
    ensures ratio.num > 0 && ratio.den == 0 ==> h == 0
    ensures ratio.num == 0 && ratio.den > 0 && width > 0 ==> h == cast(PosInf)
    ensures ratio.num == 0 && (ratio.den == 0 || width == 0) ==> h == cast(NaN)
  {
    if ratio.num > 0 then ScaledHeight(ratio, width)
    else if ratio.den > 0 && width > 0 then cast(PosInf)
    else cast(NaN)
  }

  /**
   * getAspectScaledWidth for every ratio. An +Inf ratio makes height * ratio
   * +Inf (NaN for a zero height), and a NaN ratio makes it NaN.
   */
  function AspectScaledWidth(ratio: Ratio, height: nat, cast: NonFiniteCast): (w: nat)
    ensures ratio.den > 0 ==>
      w == ((height as real) * ((ratio.num as real) / (ratio.den as real)) + 0.5).Floor
    ensures ratio.den == 0 && ratio.num > 0 && height > 0 ==> w == cast(PosInf)
    ensures ratio.den == 0 && (ratio.num == 0 || height == 0) ==> w == cast(NaN)
  {
    if ratio.den > 0 then ScaledWidth(ratio, height)
    else if ratio.num > 0 && height > 0 then cast(PosInf)
    else cast(NaN)
  }

  lemma DivBelow(a: nat, b: nat, k: nat)
    requires b > 0 && a < b * k
    ensures a / b < k
  {
    var q := a / b;
    assert q * b <= a;
    assert q * b < k * b;
  }

  // ---------------------------------------------------------------------------
  // scaleToRequestedDimensions
  // ---------------------------------------------------------------------------

  /** Number of requested axes that are set; the recursion only ever unsets one. */
  function RequestedAxes(d: Dimensions): nat
  {
    (if d.width > 0 then 1 else 0) + (if d.height > 0 then 1 else 0)
  }

  /**
   * scaleToRequestedDimensions. With both axes requested and the aspect ratio
   * maintained, a request wider than the image is re-planned from its height
   * alone. The source's second test (line 184) repeats the first, so the
   * width-led re-plan it guards is never chosen and every other request is
   * returned as it is. Both re-plans are bound before the tests; the values
   * are pure, so this changes nothing but keeps the dead arm free of work.
   *
   * The current dimensions may be 0x0 (a blob that did not decode) or have
   * one zero axis: the comparison then follows the IEEE answers for NaN, +Inf
   * and 0, and only a single requested axis meets a non-finite quotient.
   */
  function ScaleToRequested(current: Dimensions, requested: Dimensions, maintainAspectRatio: bool, cast: NonFiniteCast): (r: Dimensions)
    ensures requested.width > 0 && requested.height > 0 && !maintainAspectRatio ==> r == requested
    ensures (requested.width > 0 && requested.height > 0 && maintainAspectRatio
             && Greater(AspectRatio(requested), AspectRatio(current))) ==>
              current.height > 0
              && r.height == requested.height
              && r.width == ScaledWidth(AspectRatio(current), requested.height)
              && r.width <= requested.width
    ensures (requested.width > 0 && requested.height > 0 && maintainAspectRatio
             && !Greater(AspectRatio(requested), AspectRatio(current))) ==> r == requested
    ensures requested.width > 0 && requested.height == 0 ==>
              r == Dimensions(requested.width, AspectScaledHeight(AspectRatio(current), requested.width, cast))
    ensures requested.width == 0 && requested.height > 0 ==>
              r == Dimensions(AspectScaledWidth(AspectRatio(current), requested.height, cast), requested.height)
    ensures requested.width == 0 && requested.height == 0 ==> r == current
    decreases RequestedAxes(requested)
  {
    var imageAspectRatio := AspectRatio(current);
    if requested.width > 0 && requested.height > 0 then
      var requestedAspectRatio := AspectRatio(requested);
      if !maintainAspectRatio then
        requested
      else
        var heightLed := ScaleToRequested(current, Dimensions(0, requested.height), maintainAspectRatio, cast);
        var widthLed := ScaleToRequested(current, Dimensions(requested.width, 0), maintainAspectRatio, cast);
        if Greater(requestedAspectRatio, imageAspectRatio) then
          GreaterThanFinite(requestedAspectRatio, imageAspectRatio);
          ScaledWidthBelow(imageAspectRatio, requested.height, requested.width);
          heightLed
        else if Greater(requestedAspectRatio, imageAspectRatio) then
          widthLed
        else
          requested
    else if requested.width > 0 then
      Dimensions(requested.width, AspectScaledHeight(imageAspectRatio, requested.width, cast))
    else if requested.height > 0 then
      Dimensions(AspectScaledWidth(imageAspectRatio, requested.height, cast), requested.height)
    else
      current
  }

  /** Nothing exceeds +Inf or NaN: a ratio that compares greater than another exceeds a finite one. */
  lemma GreaterThanFinite(a: Ratio, b: Ratio)
    requires Greater(a, b)
    ensures b.den > 0
  {
  }

  // ---------------------------------------------------------------------------
  // clampDimensionsToMaxima
  // ---------------------------------------------------------------------------

  /** The maximum image dimensions of a processor. A maximum of 0 leaves that axis unbounded. */
  predicate WidthOverMaximum(d: Dimensions, maxima: Dimensions)
  {
    maxima.width > 0 && d.width > maxima.width
  }

  predicate HeightOverMaximum(d: Dimensions, maxima: Dimensions)
  {
    maxima.height > 0 && d.height > maxima.height
  }

  predicate WithinMaxima(d: Dimensions, maxima: Dimensions)
  {
    !WidthOverMaximum(d, maxima) && !HeightOverMaximum(d, maxima)
  }

  /**
   * The width correction: width pinned to its maximum, height derived from
   * the ratio of the dimensions being clamped. The height can only shrink.
   */
  function CorrectWidth(d: Dimensions, maxima: Dimensions): (r: Dimensions)
    requires WidthOverMaximum(d, maxima)
    ensures r.width == maxima.width && r.height <= d.height
  {
    assert maxima.width * d.height <= d.width * d.height;
    ScaledHeightBelow(AspectRatio(d), maxima.width, d.height);
    Dimensions(maxima.width, ScaledHeight(AspectRatio(d), maxima.width))
  }

  /**
   * The height correction: height pinned to its maximum, width derived from
   * the ratio of the dimensions being clamped. The width can only shrink.
   */
  function CorrectHeight(d: Dimensions, maxima: Dimensions): (r: Dimensions)
    requires HeightOverMaximum(d, maxima)
    ensures r.height == maxima.height && r.width <= d.width
  {
    assert maxima.height * d.width <= d.height * d.width;
    ScaledWidthBelow(AspectRatio(d), maxima.height, d.width);
    Dimensions(ScaledWidth(AspectRatio(d), maxima.height), maxima.height)
  }

  /** Corrections still owed: a width correction may be followed by a height correction, never the reverse. */
  function Pending(d: Dimensions, maxima: Dimensions): nat
  {
    if WidthOverMaximum(d, maxima) then 2 else if HeightOverMaximum(d, maxima) then 1 else 0
  }

  /**
   * clampDimensionsToMaxima: correct the width first, then the height, by
   * recursion until both axes are within their maxima.
   */
  function ClampToMaxima(d: Dimensions, maxima: Dimensions): (r: Dimensions)
    ensures maxima.width > 0 ==> r.width <= maxima.width
    ensures maxima.height > 0 ==> r.height <= maxima.height
    ensures r.width <= d.width && r.height <= d.height
    ensures WithinMaxima(d, maxima) ==> r == d
    decreases Pending(d, maxima)
  {
    if WidthOverMaximum(d, maxima) then
      ClampToMaxima(CorrectWidth(d, maxima), maxima)
    else if HeightOverMaximum(d, maxima) then
      ClampToMaxima(CorrectHeight(d, maxima), maxima)
    else
      d
  }

  /**
   * The clamp recursion makes at most two corrections: a width correction
   * possibly followed by a height correction of its result, or a height
   * correction alone.
   */
  lemma ClampAtMostTwoCorrections(d: Dimensions, maxima: Dimensions)
    ensures ClampToMaxima(d, maxima) ==
      if WidthOverMaximum(d, maxima) then
        (if HeightOverMaximum(CorrectWidth(d, maxima), maxima) then CorrectHeight(CorrectWidth(d, maxima), maxima)
         else CorrectWidth(d, maxima))
      else if HeightOverMaximum(d, maxima) then CorrectHeight(d, maxima)
      else d
  {
    if WidthOverMaximum(d, maxima) {
      var d1 := CorrectWidth(d, maxima);
      if HeightOverMaximum(d1, maxima) {
        var d2 := CorrectHeight(d1, maxima);
        assert WithinMaxima(d2, maxima);
      }
    } else if HeightOverMaximum(d, maxima) {
      var d1 := CorrectHeight(d, maxima);
      assert WithinMaxima(d1, maxima);
    }
  }

  /** Clamping twice is clamping once. */
  lemma ClampIdempotent(d: Dimensions, maxima: Dimensions)
    ensures ClampToMaxima(ClampToMaxima(d, maxima), maxima) == ClampToMaxima(d, maxima)
  {
  }

  // ---------------------------------------------------------------------------
  // getScaledDimensions
  // ---------------------------------------------------------------------------

  /** The processor settings the planner reads. */
  datatype PlannerConfig = PlannerConfig(
    defaultImageWidth: nat,
    defaultImageHeight: nat,
    maintainAspectRatio: bool,
    maxImageWidth: nat,
    maxImageHeight: nat)
  {
    function Maxima(): Dimensions
    {
      Dimensions(maxImageWidth, maxImageHeight)
    }

    function Defaults(): Dimensions
    {
      Dimensions(defaultImageWidth, defaultImageHeight)
    }
  }

  /** A request with neither axis set is replaced by the configured default dimensions. */
  function RequestOrDefault(requested: Dimensions, c: PlannerConfig): Dimensions
  {
    if requested.width == 0 && requested.height == 0 then
      c.Defaults()
    else
      requested
  }

  /** getScaledDimensions: default substitution, scaling to the request, then clamping. */
  function ScaledDimensions(current: Dimensions, requested: Dimensions, c: PlannerConfig, cast: NonFiniteCast): (r: Dimensions)
    ensures c.maxImageWidth > 0 ==> r.width <= c.maxImageWidth
    ensures c.maxImageHeight > 0 ==> r.height <= c.maxImageHeight
    ensures (requested.width > 0 && requested.height > 0 && !c.maintainAspectRatio
             && WithinMaxima(requested, c.Maxima())) ==> r == requested
    ensures (requested == Dimensions(0, 0) && c.Defaults() == Dimensions(0, 0)
             && WithinMaxima(current, c.Maxima())) ==> r == current
  {
    var dimensions := ScaleToRequested(current, RequestOrDefault(requested, c), c.maintainAspectRatio, cast);
    ClampToMaxima(dimensions, c.Maxima())
  }

  /** The defaults are consulted only when neither axis is requested. */
  lemma DefaultsOnlyForEmptyRequest(current: Dimensions, requested: Dimensions, c: PlannerConfig, c': PlannerConfig, cast: NonFiniteCast)
    requires c'.maintainAspectRatio == c.maintainAspectRatio && c'.Maxima() == c.Maxima()
    ensures requested != Dimensions(0, 0) ==>
      ScaledDimensions(current, requested, c, cast) == ScaledDimensions(current, requested, c', cast)
    ensures requested == Dimensions(0, 0) ==>
      ScaledDimensions(current, requested, c, cast) == ScaledDimensions(current, c.Defaults(), c, cast)
  {
  }

  /**
   * The plan for a blob that did not decode, whose wand reports 0x0: a full
   * request within the maxima is kept whether or not the aspect ratio is
   * maintained (the NaN ratio compares false), an empty request with zero
   * defaults keeps 0x0, and a single requested axis derives the other from
   * the conversion of NaN before clamping.
   */
  lemma UndecodedPlan(requested: Dimensions, c: PlannerConfig, cast: NonFiniteCast)
    ensures requested.width > 0 && requested.height > 0 && WithinMaxima(requested, c.Maxima()) ==>
      ScaledDimensions(Dimensions(0, 0), requested, c, cast) == requested
    ensures requested == Dimensions(0, 0) && c.Defaults() == Dimensions(0, 0) ==>
      ScaledDimensions(Dimensions(0, 0), requested, c, cast) == Dimensions(0, 0)
    ensures requested.width > 0 && requested.height == 0 ==>
      ScaledDimensions(Dimensions(0, 0), requested, c, cast) == ClampToMaxima(Dimensions(requested.width, cast(NaN)), c.Maxima())
    ensures requested.width == 0 && requested.height > 0 ==>
      ScaledDimensions(Dimensions(0, 0), requested, c, cast) == ClampToMaxima(Dimensions(cast(NaN), requested.height), c.Maxima())
  {
    GreaterOnNonFinite(Ratio(0, 0), AspectRatio(requested));
  }

  /**
   * With the aspect ratio maintained, a 1000x500 image asked for 100x100
   * (narrower than the image) is planned at exactly 100x100, while a request
   * for 100x25 (wider) is re-planned from the height to 50x25.
   */
  lemma MaintainedRatioExamples(cast: NonFiniteCast)
    ensures ScaledDimensions(Dimensions(1000, 500), Dimensions(100, 100), PlannerConfig(0, 0, true, 0, 0), cast)
            == Dimensions(100, 100)
    ensures ScaledDimensions(Dimensions(1000, 500), Dimensions(100, 25), PlannerConfig(0, 0, true, 0, 0), cast)
            == Dimensions(50, 25)
  {
    assert !Greater(Ratio(100, 100), Ratio(1000, 500));
    assert Greater(Ratio(100, 25), Ratio(1000, 500));
    assert ScaledWidth(Ratio(1000, 500), 25) == (2 * 25 * 1000 + 500) / (2 * 500);
  }
}

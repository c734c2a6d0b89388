/**
 * Route of route.go: deciding whether a route handles a request path, and
 * reading the source and processor options from the path and the query.
 *
 * The compiled pattern is abstract: `findAll` is FindAllStringSubmatch(path, -1),
 * every match of the pattern as its list of submatches (index 0 is the whole
 * match). A request's query is abstract too: `formValue` is FormValue, which
 * gives "" for a missing parameter.
 */
module Route {
  import opened Strings
  import opened Wrappers
  import opened Geometry
  import opened Image
  import opened Strconv

  /** A route as far as request dispatch reads it. */
  datatype Route = Route(name: string, findAll: string -> seq<seq<string>>, imagePathIndex: nat)

  /** The parts of an incoming HTTP request the gateway reads. */
  datatype Request = Request(path: string, formValue: string -> string)

  /** ImageSourceOptions. */
  datatype SourceOptions = SourceOptions(path: string)

  /** ImageProcessorOptions as route.go fills it. */
  datatype ProcessorOptions = ProcessorOptions(
    dimensions: Dimensions,
    blurRadius: real,
    scaleMode: nat,
    focalpoint: Focalpoint)

  /** The library routines the option parser calls. */
  datatype Parsers = Parsers(parseFloat: string -> Option<real>, scaleModes: map<string, nat>)

  /** ShouldHandleRequest: the pattern matches somewhere in the URL path. */
  predicate ShouldHandleRequest(route: Route, r: Request)
  {
    |route.findAll(r.path)| > 0
  }

  /**
   * A route whose image-path index names a submatch of every match: the
   * configuration takes the index from the pattern's own group names.
   */
  ghost predicate ValidRoute(route: Route)
  {
    forall path :: |route.findAll(path)| > 0 ==> route.imagePathIndex < |route.findAll(path)[0]|
  }

  /** `ScaleModes[name]` with the comma-ok result ignored: the zero value 0 for an unknown name. */
  function ScaleModeNamed(scaleModes: map<string, nat>, name: string): (mode: nat)
    ensures name in scaleModes ==> mode == scaleModes[name]
    ensures name !in scaleModes ==> mode == 0
  {
    if name in scaleModes then scaleModes[name] else 0
  }

  /**
   * SourceAndProcessorOptionsForRequest: the image path is the configured
   * submatch of the first match; `w` and `h` are 32-bit decimal values, `blur`
   * a float, `scale_mode` a name, `focalpoint` an "X,Y" pair, every parse
   * error falling back to a zero value.
   */
  function SourceAndProcessorOptionsForRequest(route: Route, r: Request, parsers: Parsers): (opts: (SourceOptions, ProcessorOptions))
    requires ValidRoute(route) && ShouldHandleRequest(route, r)
    ensures opts.0.path == route.findAll(r.path)[0][route.imagePathIndex]
    ensures opts.1.dimensions == Dimensions(ParseUint32(r.formValue("w")), ParseUint32(r.formValue("h")))
    ensures opts.1.dimensions.width <= MaxUint32 && opts.1.dimensions.height <= MaxUint32
    ensures r.formValue("w") == "" ==> opts.1.dimensions.width == 0
    ensures r.formValue("h") == "" ==> opts.1.dimensions.height == 0
    ensures parsers.parseFloat(r.formValue("blur")).None? ==> opts.1.blurRadius == 0.0
    ensures parsers.parseFloat(r.formValue("blur")).Some? ==> opts.1.blurRadius == parsers.parseFloat(r.formValue("blur")).value
    ensures opts.1.scaleMode == ScaleModeNamed(parsers.scaleModes, r.formValue("scale_mode"))
    ensures r.formValue("scale_mode") !in parsers.scaleModes ==> opts.1.scaleMode == 0
    ensures opts.1.focalpoint == NewFocalpointFromString(r.formValue("focalpoint"), parsers.parseFloat)
    ensures r.formValue("focalpoint") == "" ==> opts.1.focalpoint == CentreFocalpoint
  {
    var matches := route.findAll(r.path)[0];
    var path := matches[route.imagePathIndex];
    var width := ParseUint32(r.formValue("w"));
    var height := ParseUint32(r.formValue("h"));
    var blurRadius := ParsedOrZero(parsers.parseFloat, r.formValue("blur"));
    var focalpoint := r.formValue("focalpoint");
    var scaleMode := ScaleModeNamed(parsers.scaleModes, r.formValue("scale_mode"));
    (SourceOptions(path),
     ProcessorOptions(Dimensions(width, height), blurRadius, scaleMode, NewFocalpointFromString(focalpoint, parsers.parseFloat)))
  }

  /** Decimal `w` and `h` parameters within 32 bits are read as they are written; larger ones saturate. */
  lemma QueryDimensions(route: Route, r: Request, parsers: Parsers)
    requires ValidRoute(route) && ShouldHandleRequest(route, r)
    requires |r.formValue("w")| > 0 && AllDigits(r.formValue("w"))
    requires |r.formValue("h")| > 0 && AllDigits(r.formValue("h"))
    ensures SourceAndProcessorOptionsForRequest(route, r, parsers).1.dimensions
            == Dimensions(Min(DecimalValue(r.formValue("w")), MaxUint32), Min(DecimalValue(r.formValue("h")), MaxUint32))
  {
    ParseUint32OfDigits(r.formValue("w"));
    ParseUint32OfDigits(r.formValue("h"));
  }

  /**
   * A `w` or `h` that does not start with a decimal digit, such as "-5",
   * "+5" or "abc", is a syntax error and reads as 0.
   */
  lemma NonDecimalDimensions(route: Route, r: Request, parsers: Parsers)
    requires ValidRoute(route) && ShouldHandleRequest(route, r)
    ensures |r.formValue("w")| > 0 && !IsDigit(r.formValue("w")[0]) ==>
              SourceAndProcessorOptionsForRequest(route, r, parsers).1.dimensions.width == 0
    ensures |r.formValue("h")| > 0 && !IsDigit(r.formValue("h")[0]) ==>
              SourceAndProcessorOptionsForRequest(route, r, parsers).1.dimensions.height == 0
  {
    var w := r.formValue("w");
    var h := r.formValue("h");
    if |w| > 0 && !IsDigit(w[0]) {
      assert AllDigits(w[..0]) && DecimalValue(w[..0]) == 0;
      ParseUint32SyntaxError(w, 0);
    }
    if |h| > 0 && !IsDigit(h[0]) {
      assert AllDigits(h[..0]) && DecimalValue(h[..0]) == 0;
      ParseUint32SyntaxError(h, 0);
    }
  }

  /** An "X,Y" `focalpoint` is read half by half. */
  lemma QueryFocalpoint(route: Route, r: Request, parsers: Parsers, x: string, y: string)
    requires ValidRoute(route) && ShouldHandleRequest(route, r)
    requires r.formValue("focalpoint") == x + "," + y && ',' !in x && ',' !in y
    ensures SourceAndProcessorOptionsForRequest(route, r, parsers).1.focalpoint
            == Focalpoint(ParsedOrZero(parsers.parseFloat, x), ParsedOrZero(parsers.parseFloat, y))
  {
    FocalpointHalves(x, y, parsers.parseFloat);
  }

  /**
   * A stand-in for the "basic" route of the repository's route test, given by
   * what its pattern yields on the one path the test requests: the whole
   * match and, at index 1, the image path after the `/basic` prefix. The test
   * configuration file itself is not part of this model.
   */
  function BasicRoute(): Route
  {
    Route("basic", path => if path == "/basic/image.jpg" then [["/basic/image.jpg", "/image.jpg"]] else [], 1)
  }

  /** `/basic/image.jpg?w=25&h=10` is handled by the basic route, with path `/image.jpg` and dimensions 25x10. */
  lemma BasicRouteExample(parsers: Parsers)
    ensures var r := Request("/basic/image.jpg", name => if name == "w" then "25" else if name == "h" then "10" else "");
            ShouldHandleRequest(BasicRoute(), r)
            && SourceAndProcessorOptionsForRequest(BasicRoute(), r, parsers).0 == SourceOptions("/image.jpg")
            && SourceAndProcessorOptionsForRequest(BasicRoute(), r, parsers).1.dimensions == Dimensions(25, 10)
  {
    var r := Request("/basic/image.jpg", name => if name == "w" then "25" else if name == "h" then "10" else "");
    assert r.formValue("w") == "25" && r.formValue("h") == "10";
    assert DecimalValue("25") == 25 by {
      assert "25"[..1] == "2";
    }
    assert DecimalValue("10") == 10 by {
      assert "10"[..1] == "1";
    }
    QueryDimensions(BasicRoute(), r, parsers);
  }
}

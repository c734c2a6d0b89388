/**
 * The request path of server.go: choosing a route for a request, classifying
 * the outcome (health check, no route, missing image, failed processing,
 * served image), and the status and byte accounting of
 * HalfshellResponseWriter.
 *
 * The underlying http.ResponseWriter is modelled as the headers set and the
 * bytes written; sources and processors are abstract functions of the route
 * they belong to, identified by its position in the server's route list.
 */
module Server {
  import opened Strings
  import opened Wrappers
  import opened Seqs
  import opened Route
  import Processor

  // ---------------------------------------------------------------------------
  // HalfshellResponseWriter
  // ---------------------------------------------------------------------------

  /**
   * A HalfshellResponseWriter: the recorded Status and Size, with the headers
   * and body that reached the wrapped writer.
   */
  datatype ResponseWriter = ResponseWriter(status: int, size: nat, headers: map<string, string>, body: seq<byte>)

  /** NewHalfshellResponseWriter: nothing recorded yet, Status 0. */
  const NewResponseWriter := ResponseWriter(0, 0, map[], [])

  const CacheControl := "no-transform,public,max-age=86400,s-maxage=2592000"

  const StatusOK := 200
  const StatusNotFound := 404

  /** WriteHeader: records the status and forwards it. */
  function WriteHeader(w: ResponseWriter, status: int): (r: ResponseWriter)
    ensures r.status == status
    ensures r.size == w.size && r.headers == w.headers && r.body == w.body
  {
    w.(status := status)
  }

  /** SetHeader: sets one header on the wrapped writer. */
  function SetHeader(w: ResponseWriter, name: string, value: string): (r: ResponseWriter)
    ensures name in r.headers && r.headers[name] == value
    ensures forall n :: n in w.headers && n != name ==> n in r.headers && r.headers[n] == w.headers[n]
    ensures forall n :: n in r.headers ==> n in w.headers || n == name
    ensures r.status == w.status && r.size == w.size && r.body == w.body
  {
    w.(headers := w.headers[name := value])
  }

  /** Write: forwards the bytes and adds their number to Size; Status is untouched. */
  function Write(w: ResponseWriter, data: seq<byte>): (r: ResponseWriter)
    ensures r.size == w.size + |data| && r.body == w.body + data
    ensures r.status == w.status && r.headers == w.headers
  {
    w.(size := w.size + |data|, body := w.body + data)
  }

  /** WriteError on the bytes of the message: a plain-text body with the given status. */
  function WriteErrorBody(w: ResponseWriter, body: seq<byte>, status: int): (r: ResponseWriter)
    ensures r.status == status
    ensures "Content-Type" in r.headers && r.headers["Content-Type"] == "text/plain; charset=utf-8"
    ensures r.body == w.body + body && r.size == w.size + |body|
  {
    var w1 := SetHeader(w, "Content-Type", "text/plain; charset=utf-8");
    var w2 := WriteHeader(w1, status);
    Write(w2, body)
  }

  /** WriteError: the message's UTF-8 bytes as a plain-text body with the given status. */
  function WriteError(w: ResponseWriter, message: string, status: int): (r: ResponseWriter)
    ensures r.status == status
    ensures "Content-Type" in r.headers && r.headers["Content-Type"] == "text/plain; charset=utf-8"
    ensures r.body == w.body + Utf8(message) && r.size == w.size + |Utf8(message)|
  {
    WriteErrorBody(w, Utf8(message), status)
  }

  /** WriteImage: the image's type and length, the fixed cache policy, status 200, then exactly the image's bytes. */
  function WriteImage(w: ResponseWriter, image: Processor.ImageBlob): (r: ResponseWriter)
    ensures r.status == StatusOK
    ensures "Content-Type" in r.headers && r.headers["Content-Type"] == image.mimeType
    ensures "Content-Length" in r.headers && ParseDecimal(r.headers["Content-Length"]) == Some(|image.bytes|)
    ensures "Cache-Control" in r.headers && r.headers["Cache-Control"] == CacheControl
    ensures r.body == w.body + image.bytes && r.size == w.size + |image.bytes|
  {
    var w1 := SetHeader(w, "Content-Type", image.mimeType);
    var w2 := SetHeader(w1, "Content-Length", NatToString(|image.bytes|));
    var w3 := SetHeader(w2, "Cache-Control", CacheControl);
    var w4 := WriteHeader(w3, StatusOK);
    Write(w4, image.bytes)
  }

  /** A decimal numeral's value: how a client reads Content-Length. */
  function ParseDecimal(s: string): Option<nat>
  {
    if |s| > 0 && AllDigits(s) then Some(DecimalValue(s)) else None
  }

  // ---------------------------------------------------------------------------
  // Accounting over any sequence of writer calls
  // ---------------------------------------------------------------------------

  datatype WriterCall = WriteHeaderCall(status: int) | SetHeaderCall(name: string, value: string) | WriteCall(data: seq<byte>)

  /** Perform the calls in order. */
  function Perform(w: ResponseWriter, calls: seq<WriterCall>): ResponseWriter
    decreases |calls|
  {
    if |calls| == 0 then w
    else
      var w1 := match calls[0]
        case WriteHeaderCall(status) => WriteHeader(w, status)
        case SetHeaderCall(name, value) => SetHeader(w, name, value)
        case WriteCall(data) => Write(w, data);
      Perform(w1, calls[1..])
  }

  /** Everything the calls write, in order. */
  function Written(calls: seq<WriterCall>): seq<byte>
    decreases |calls|
  {
    if |calls| == 0 then []
    else (if calls[0].WriteCall? then calls[0].data else []) + Written(calls[1..])
  }

  /** The argument of the last WriteHeader call, or `status` when there is none. */
  function LastStatus(calls: seq<WriterCall>, status: int): int
    decreases |calls|
  {
    if |calls| == 0 then status
    else LastStatus(calls[1..], if calls[0].WriteHeaderCall? then calls[0].status else status)
  }

  /**
   * Size is the total length of the data written, the body is that data in
   * order, and Status is the argument of the last WriteHeader.
   */
  lemma {:induction false} WriterAccounting(w: ResponseWriter, calls: seq<WriterCall>)
    ensures Perform(w, calls).size == w.size + |Written(calls)|
    ensures Perform(w, calls).body == w.body + Written(calls)
    ensures Perform(w, calls).status == LastStatus(calls, w.status)
    decreases |calls|
  {
    if |calls| > 0 {
      var w1 := match calls[0]
        case WriteHeaderCall(status) => WriteHeader(w, status)
        case SetHeaderCall(name, value) => SetHeader(w, name, value)
        case WriteCall(data) => Write(w, data);
      WriterAccounting(w1, calls[1..]);
      var d := if calls[0].WriteCall? then calls[0].data else [];
      assert w1.body == w.body + d;
      assert w.body + d + Written(calls[1..]) == w.body + (d + Written(calls[1..]));
    }
  }

  /** WriteImage is the call sequence the source makes. */
  lemma WriteImageCalls(w: ResponseWriter, image: Processor.ImageBlob)
    ensures WriteImage(w, image) == Perform(w, [
              SetHeaderCall("Content-Type", image.mimeType),
              SetHeaderCall("Content-Length", NatToString(|image.bytes|)),
              SetHeaderCall("Cache-Control", CacheControl),
              WriteHeaderCall(StatusOK),
              WriteCall(image.bytes)])
  {
    var calls := [
      SetHeaderCall("Content-Type", image.mimeType),
      SetHeaderCall("Content-Length", NatToString(|image.bytes|)),
      SetHeaderCall("Cache-Control", CacheControl),
      WriteHeaderCall(StatusOK),
      WriteCall(image.bytes)];
    var w1 := SetHeader(w, "Content-Type", image.mimeType);
    var w2 := SetHeader(w1, "Content-Length", NatToString(|image.bytes|));
    var w3 := SetHeader(w2, "Cache-Control", CacheControl);
    var w4 := WriteHeader(w3, StatusOK);
    assert Perform(w4, calls[4..]) == Write(w4, image.bytes) by {
      assert calls[4..][1..] == [];
    }
    assert calls[3..][1..] == calls[4..];
    assert calls[2..][1..] == calls[3..];
    assert calls[1..][1..] == calls[2..];
    assert Perform(w, calls) == Perform(w1, calls[1..]);
    assert Perform(w1, calls[1..]) == Perform(w2, calls[2..]);
    assert Perform(w2, calls[2..]) == Perform(w3, calls[3..]);
    assert Perform(w3, calls[3..]) == Perform(w4, calls[4..]);
  }

  // ---------------------------------------------------------------------------
  // Route selection
  // ---------------------------------------------------------------------------

  /** HalfshellRequest: the request, the chosen route (by position) and the options read for it. */
  datatype HalfshellRequest = HalfshellRequest(
    request: Request,
    route: Option<nat>,
    options: Option<(SourceOptions, ProcessorOptions)>)

  /** Whether a route handles the request, as a test on routes. */
  function Handles(r: Request): Route -> bool
  {
    route => ShouldHandleRequest(route, r)
  }

  /**
   * The request the server builds: the last route that handles the path,
   * and the options read for that route when there is one.
   */
  function Selected(routes: seq<Route>, r: Request, parsers: Parsers): (hr: HalfshellRequest)
    requires forall i :: 0 <= i < |routes| ==> ValidRoute(routes[i])
    ensures hr.request == r && (hr.options.Some? <==> hr.route.Some?)
  {
    var chosen := LastIndex(routes, Handles(r));
    if chosen.Some? then
      HalfshellRequest(r, chosen, Some(SourceAndProcessorOptionsForRequest(routes[chosen.value], r, parsers)))
    else
      HalfshellRequest(r, None, None)
  }

  /**
   * NewHalfshellRequest: every route is asked in order and each one that
   * matches replaces the previous choice, so the last matching route wins.
   * Options are read only when some route was chosen.
   */
  method NewHalfshellRequest(routes: seq<Route>, r: Request, parsers: Parsers) returns (hr: HalfshellRequest)
    requires forall i :: 0 <= i < |routes| ==> ValidRoute(routes[i])
    ensures hr.request == r
    ensures hr.route.Some? ==> hr.route.value < |routes| && ShouldHandleRequest(routes[hr.route.value], r)
    ensures hr.route.Some? ==> forall j :: hr.route.value < j < |routes| ==> !ShouldHandleRequest(routes[j], r)
    ensures hr.route.None? <==> forall j :: 0 <= j < |routes| ==> !ShouldHandleRequest(routes[j], r)
    ensures hr.options.Some? <==> hr.route.Some?
    ensures hr.route.Some? ==> hr.options == Some(SourceAndProcessorOptionsForRequest(routes[hr.route.value], r, parsers))
    ensures hr == Selected(routes, r, parsers)
  {
    var chosen := ScanLast(routes, Handles(r));
    if chosen.Some? {
      var i := chosen.value;
      hr := HalfshellRequest(r, chosen, Some(SourceAndProcessorOptionsForRequest(routes[i], r, parsers)));
    } else {
      hr := HalfshellRequest(r, None, None);
    }
  }

  // ---------------------------------------------------------------------------
  // ServeHTTP and ImageRequestHandler
  // ---------------------------------------------------------------------------

  /** The image source and processor of each route, by the route's position. */
  datatype Backends = Backends(
    getImage: (nat, SourceOptions) -> Option<Processor.ImageBlob>,
    processImage: (nat, Processor.ImageBlob, ProcessorOptions) -> Option<Processor.ImageBlob>)

  /** How a request was answered. */
  datatype Outcome = HealthCheck | NoRoute | ImageNotFound | ProcessingFailed | ImageServed

  predicate IsHealthCheck(path: string)
  {
    path == "/healthcheck" || path == "/health"
  }

  /** The texts of the error answers. */
  const NoRouteText := "No route available to handle request: "
  const NotFoundText := "Not Found"
  const InternalErrorText := "Internal Server Error"

  /** The bytes of the two fixed error answers. */
  const NotFoundBody: seq<byte> := [0x4E, 0x6F, 0x74, 0x20, 0x46, 0x6F, 0x75, 0x6E, 0x64]
  const InternalErrorBody: seq<byte> :=
    [0x49, 0x6E, 0x74, 0x65, 0x72, 0x6E, 0x61, 0x6C, 0x20, 0x53, 0x65, 0x72, 0x76, 0x65, 0x72, 0x20, 0x45, 0x72, 0x72, 0x6F, 0x72]

  /** The fixed bodies are the UTF-8 encodings of their texts. */
  lemma NotFoundBodyIsUtf8()
    ensures Utf8(NotFoundText) == NotFoundBody
  {
    var s := NotFoundText;
    forall i | 0 <= i < |s| ensures s[i] as int < 0x80 && s[i] as int == NotFoundBody[i] {
      // one index at a time, so that each character is read off the literal
      if i == 0 {} else if i == 1 {} else if i == 2 {} else if i == 3 {} else if i == 4 {} else
      if i == 5 {} else if i == 6 {} else if i == 7 {} else {}
    }
    AsciiEncoding(s, NotFoundBody);
  }

  lemma InternalErrorBodyIsUtf8()
    ensures Utf8(InternalErrorText) == InternalErrorBody
  {
    var s := InternalErrorText;
    forall i | 0 <= i < |s| ensures s[i] as int < 0x80 && s[i] as int == InternalErrorBody[i] {
      // one index at a time, so that each character is read off the literal
      if i == 0 {} else if i == 1 {} else if i == 2 {} else if i == 3 {} else if i == 4 {} else
      if i == 5 {} else if i == 6 {} else if i == 7 {} else if i == 8 {} else if i == 9 {} else
      if i == 10 {} else if i == 11 {} else if i == 12 {} else if i == 13 {} else if i == 14 {} else
      if i == 15 {} else if i == 16 {} else if i == 17 {} else if i == 18 {} else if i == 19 {} else {}
    }
    AsciiEncoding(s, InternalErrorBody);
  }

  /**
   * ImageRequestHandler: no route is a 404 naming the path; a missing image
   * is a 404 "Not Found" and the processor is not consulted; a failed
   * processing is also answered 404, with the body "Internal Server Error";
   * otherwise the processed image is written.
   */
  function ImageRequestHandler(w: ResponseWriter, hr: HalfshellRequest, backends: Backends): (res: (Outcome, ResponseWriter))
    requires hr.options.Some? <==> hr.route.Some?
    ensures hr.route.None? ==> res == (NoRoute, WriteError(w, NoRouteText + hr.request.path, StatusNotFound))
    ensures res.0 == ImageNotFound ==> res.1 == WriteErrorBody(w, NotFoundBody, StatusNotFound)
    ensures res.0 == ProcessingFailed ==> res.1 == WriteErrorBody(w, InternalErrorBody, StatusNotFound)
    ensures res.0 == ImageServed ==> res.1.status == StatusOK
    ensures res.0 != HealthCheck
  {
    if hr.route.None? then
      (NoRoute, WriteError(w, NoRouteText + hr.request.path, StatusNotFound))
    else
      var route := hr.route.value;
      var (sourceOptions, processorOptions) := hr.options.value;
      var image := backends.getImage(route, sourceOptions);
      if image.None? then
        (ImageNotFound, WriteErrorBody(w, NotFoundBody, StatusNotFound))
      else
        var processed := backends.processImage(route, image.value, processorOptions);
        if processed.None? then
          (ProcessingFailed, WriteErrorBody(w, InternalErrorBody, StatusNotFound))
        else
          (ImageServed, WriteImage(w, processed.value))
  }

  /**
   * ServeHTTP: the health-check paths are answered "OK" before any route is
   * considered, with no WriteHeader, so the recorded Status stays 0. Every
   * other request is ImageRequestHandler on a fresh writer and the request
   * built from the last matching route.
   */
  method ServeHTTP(routes: seq<Route>, r: Request, parsers: Parsers, backends: Backends) returns (outcome: Outcome, w: ResponseWriter)
    requires forall i :: 0 <= i < |routes| ==> ValidRoute(routes[i])
    ensures IsHealthCheck(r.path) <==> outcome == HealthCheck
    ensures outcome == HealthCheck ==> w == ResponseWriter(0, 2, map[], Utf8("OK"))
    ensures outcome == NoRoute <==> !IsHealthCheck(r.path) && forall j :: 0 <= j < |routes| ==> !ShouldHandleRequest(routes[j], r)
    ensures outcome == NoRoute ==> w.status == StatusNotFound && w.body == Utf8(NoRouteText + r.path)
    ensures outcome == ImageNotFound || outcome == ProcessingFailed ==> w.status == StatusNotFound
    ensures outcome == ImageServed ==> w.status == StatusOK
    ensures !IsHealthCheck(r.path) ==>
              (outcome, w) == ImageRequestHandler(NewResponseWriter, Selected(routes, r, parsers), backends)
  {
    var hw := NewResponseWriter;
    var hr := NewHalfshellRequest(routes, r, parsers);
    if IsHealthCheck(r.path) {
      outcome, w := HealthCheck, Write(hw, Utf8("OK"));
    } else {
      var res := ImageRequestHandler(hw, hr, backends);
      outcome, w := res.0, res.1;
    }
  }

  /** The outcome of a request whose route is `hr.route`: which backend answered decides it. */
  lemma OutcomeClassification(w: ResponseWriter, hr: HalfshellRequest, backends: Backends)
    requires hr.options.Some? && hr.route.Some?
    ensures var image := backends.getImage(hr.route.value, hr.options.value.0);
            var res := ImageRequestHandler(w, hr, backends);
            (res.0 == ImageNotFound <==> image.None?)
            && (res.0 == ProcessingFailed <==> image.Some? && backends.processImage(hr.route.value, image.value, hr.options.value.1).None?)
            && (res.0 == ImageServed ==> res.1 == WriteImage(w, backends.processImage(hr.route.value, image.value, hr.options.value.1).value))
  {
  }

  /** With no image from the source, the answer does not depend on the processor at all. */
  lemma ProcessorNotConsultedWithoutImage(w: ResponseWriter, hr: HalfshellRequest, backends: Backends, other: Backends)
    requires hr.options.Some? && hr.route.Some?
    requires backends.getImage == other.getImage
    requires backends.getImage(hr.route.value, hr.options.value.0).None?
    ensures ImageRequestHandler(w, hr, backends) == ImageRequestHandler(w, hr, other)
    ensures ImageRequestHandler(w, hr, backends).0 == ImageNotFound
  {
  }
}

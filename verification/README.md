# halfshell in Dafny

halfshell is an image gateway written in Go. An HTTP request names an image
and how it should look: its width and height, a blur, a grayscale switch and a
focal point. The gateway picks the route whose pattern matches the URL path
and fetches the image from that route's source: the file system, S3 or
another HTTP server. It plans the new dimensions, runs the resize, blur and
grayscale stages through ImageMagick, and writes the result with content and
cache headers. At start-up it reads a JSON configuration through dotted
keypaths such as `processors.%s.max_image_width`. A keypath retries once with
the entry `default` when the named entry has no value.

This project models that core as immutable datatypes and pure functions. It
proves the core's promises about them:

- **Geometry** is the resize planner:
  - requested dimensions, or the defaults when neither axis is set;
  - the missing axis derived from the aspect ratio, rounded half up;
  - the `maintain_aspect_ratio` re-plan;
  - the recursive clamp to the configured maxima.

  A float64 ratio is kept exactly as a pair of naturals. Cross-multiplication
  reproduces IEEE comparison, including +Inf and NaN. Line 184 of
  `image_processor.go` repeats the test of line 179, so its width-led re-plan
  can never run. The model reproduces that dead branch as written.
- **Processor** is `ProcessImage` over an abstract ImageMagick. The library is
  a parameter that decides which call fails, what an image decodes to and
  what blob it encodes to. The stages issue their calls in order. The first
  failure ends processing with no image. An image no stage modified passes
  through byte for byte.
- **Image** covers three things:
  - the `destroyed` flag of `Image.Destroy`;
  - `NewFocalpointFromString`;
  - the MIME type built from the wand's format.
- **Route** is option extraction from a matched request. It reads `w` and
  `h` (32-bit decimals that saturate), `blur`, `scale_mode` and `focalpoint`.
  **Strconv** is the `strconv.ParseUint(s, 10, 32)` it relies on.
- **Server** covers the response writer's status and size bookkeeping, route
  selection where the last matching route wins, and request handling with
  its outcomes:
  - the health check;
  - no route;
  - image not found;
  - processing failed, which is also answered with 404;
  - image served.
- **Sources** covers the following:
  - the source-type registry;
  - the file-system source's sanitised file name, joined with
    **FilePath** (`filepath.Clean`/`Join`);
  - the S3 and HTTP sources' per-segment escaping, with **UrlEscape**
    (`url.QueryEscape`) and its inverse.

  One result of the model: a request path of `/..` names the parent of the
  configured directory.
- **Keypath** is `valueForKeypath` and its typed wrappers. **Fmt** models
  `fmt.Sprintf` as far as keypath formats use it, including its
  `%!s(MISSING)` markers.
  - For a two-argument format such as
    `processors.%s.formats.%s.width`, the `default` retry gets one argument
    for two verbs.
  - Its second verb prints `%!s(MISSING)`, and the retry re-formats that as
    `%!!(MISSING)s(MISSING)`.
  - So a format's missing width is looked up under that garbled key, not
    under the same format of `processors.default`.
- **Config** is the `parse` of the whole document. It covers:
  - the server and statsd sections;
  - every source and processor;
  - the default scale mode and its override by `maintain_aspect_ratio`;
  - each route's `image_path` group and optional `cache_control`.

  A failed type assertion is a `Panic`. A message followed by `os.Exit(1)`
  is an `Exit(message)`.
- **Util** is `FirstString` and `FirstUInt`. **Seqs** is the loop without a
  `break` that keeps the last hit. **Strings** holds the string library
  routines the core calls.

`image_processor.go` reads `ProcessorConfig` fields that `config.go` does
not declare, so each function takes a record of exactly the fields it reads.

`ProcessImage` ignores the error of `ReadImageBlob`, so bytes that do not
decode are processed on a wand that reports 0x0. The planner is modelled
for every current size, including that one: NaN and +Inf ratios compare as
IEEE says, and where a single requested axis meets a non-finite quotient,
Go's implementation-defined `uint64` conversion of it is the parameter
`Geometry.NonFiniteCast`.

## Model

| member | source | states |
|---|---|---|
| Geometry.GreaterIsQuotientOrder | halfshell/image_processor.go:179 | for finite ratios, the modelled `>` agrees with the comparison of the real quotients |
| Geometry.GreaterOnNonFinite | halfshell/image.go:101-103 | a 0/0 ratio (NaN) compares false both ways; a positive width over a zero height (+Inf) exceeds every finite ratio |
| Geometry.DimensionsStringRoundTrip | halfshell/image.go:105-107 | the `<Width>x<Height>` decimal rendering parses back to the same dimensions |
| Geometry.FloorHalfUp | halfshell/image_processor.go:216-222 | floor(p/q + 0.5) equals the integer quotient (2p + q) div 2q |
| Geometry.AspectRatio | halfshell/image.go:101-103 | for a positive height the exact quotient width / height; a zero height is +Inf, or NaN when the width is zero too |
| Geometry.ScaledHeight | halfshell/image_processor.go:216-218 | for a ratio that is not zero or NaN, the height is floor(width / ratio + 0.5) over the reals; dividing by +Inf gives 0 |
| Geometry.ScaledWidth | halfshell/image_processor.go:220-222 | for a finite ratio, the width is floor(height * ratio + 0.5) over the reals |
| Geometry.AspectScaledHeight | halfshell/image_processor.go:216-218 | for every ratio: the rounded quotient when it is finite, 0 for an +Inf ratio, and the implementation's conversion of +Inf (zero ratio) or NaN (NaN ratio, or 0 / 0) |
| Geometry.AspectScaledWidth | halfshell/image_processor.go:220-222 | for every ratio: the rounded product when the ratio is finite, and the implementation's conversion of +Inf (+Inf ratio) or NaN (NaN ratio, or 0 * +Inf) |
| Geometry.ScaledWidthBelow | halfshell/image_processor.go:195-196 | when height*W <= bound*H, the rounded scaled width does not exceed the bound |
| Geometry.ScaledHeightBelow | halfshell/image_processor.go:191-192 | the rounded scaled height does not exceed a bound the exact quotient does not exceed |
| Geometry.ScaleToRequested | halfshell/image_processor.go:168-200 | for every current size, 0x0 included: both axes without aspect ratio give the request; a request wider than a finite image ratio gives the requested height and a derived width no larger than requested; otherwise (a NaN or +Inf ratio included) the request; one axis: the other derived, through the non-finite conversion where the quotient is not finite; none: the current dimensions |
| Geometry.CorrectWidth | halfshell/image_processor.go:203-205 | the width becomes the maximum and the height can only shrink |
| Geometry.CorrectHeight | halfshell/image_processor.go:208-210 | the height becomes the maximum and the width can only shrink |
| Geometry.ClampToMaxima | halfshell/image_processor.go:202-214 | the result respects every positive maximum, never grows an axis, and dimensions within the maxima are returned unchanged |
| Geometry.ClampAtMostTwoCorrections | halfshell/image_processor.go:203-211 | the recursion is at most a width correction and then a height correction of its result, each from the ratio of the dimensions being clamped |
| Geometry.ClampIdempotent | halfshell/image_processor.go:202-214 | clamping a clamped result changes nothing |
| Geometry.ScaledDimensions | halfshell/image_processor.go:158-166 | for every current size, the plan respects the maxima; a full request without aspect ratio within the maxima is kept; an empty request with zero defaults keeps the current dimensions |
| Geometry.UndecodedPlan | halfshell/image_processor.go:158-199 | for a 0x0 wand: a full request within the maxima is kept with or without the aspect ratio, an empty request with zero defaults keeps 0x0, and a single axis derives the other from the conversion of NaN, then clamps |
| Geometry.DefaultsOnlyForEmptyRequest | halfshell/image_processor.go:159-162 | the default dimensions influence the plan only when neither axis is requested, and then act as the request |
| Geometry.MaintainedRatioExamples | halfshell/image_processor.go:179-188 | a 1000x500 image asked for 100x100 keeps 100x100 (the dead branch); asked for 100x25 it is re-planned to 50x25 |
| Image.Destroy | halfshell/image.go:89-94 | afterwards the image is destroyed; a destroyed image is unchanged; the wand is destroyed exactly when the flag says so |
| Image.DestroyIdempotent | halfshell/image.go:89-94 | a second Destroy changes nothing |
| Image.DestroyAtMostOnce | halfshell/image.go:89-94 | over n calls on a new image the wand is destroyed once if n > 0 and never otherwise |
| Image.DestroyedStaysPut | halfshell/image.go:90-93 | any number of calls on a destroyed image leave it as it is |
| Image.NewFocalpointFromString | halfshell/image.go:123-132 | unless there is exactly one comma the result is (0.5, 0.5); with one, X and Y are parsed from either side, 0 on a parse error |
| Image.FocalpointHalves | halfshell/image.go:129-131 | X depends only on the text before the comma and Y only on the text after it |
| Image.FocalpointDefaults | halfshell/image.go:124-127 | an empty string and a string without a comma give the centre |
| Image.FocalpointThreeParts | halfshell/image.go:124-127 | two commas give the centre |
| Image.FocalpointNotClamped | halfshell/image.go:114-131 | "2,x" gives (2, 0): a failed half is 0, not 0.5, and 2 is not clamped to [0, 1] |
| Image.MimeTypeForFormat | halfshell/image.go:63-65 | `image/` followed by the format with each ASCII capital lowered |
| Processor.AllSucceedConcat | halfshell/image_processor.go:65-81 | a call sequence succeeds exactly when its first part does and then its second |
| Processor.Run | halfshell/image_processor.go:102-131 | the calls made are a prefix of the plan, all of it exactly when every call succeeds, ending at the failing call otherwise |
| Processor.ScaleWand | halfshell/image_processor.go:94-135 | for every decoded size, 0x0 included: no call and no modification when the planned dimensions are the current ones; otherwise the resize sequence, modified even on failure; JPEG settings only for JPEG |
| Processor.BlurWand | halfshell/image_processor.go:137-146 | modified exactly when a radius is requested, then one blur of width*radius*percentage; no call otherwise |
| Processor.GrayscaleWand | halfshell/image_processor.go:148-156 | modified exactly when enabled and asked for, by default or by the request; one colourspace call, failing as the library says |
| Processor.ProcessImage | halfshell/image_processor.go:59-92 | for any bytes, decodable or not: no image only after a failing call; an image only when every call succeeded, with the original bytes when there were no calls and the MIME type of the decoded format |
| Processor.RunFront | halfshell/image_processor.go:102-131 | running a plan is running its first call and, if that succeeded, the rest |
| Processor.RunConcat | halfshell/image_processor.go:65-81 | running two plans in turn is running their concatenation |
| Processor.ProcessImageFollowsPlan | halfshell/image_processor.go:59-92 | the calls made are the planned calls up to the first failure, and there is no image exactly when some call failed |
| Processor.PlanFromStages | halfshell/image_processor.go:65-81 | a scale plan followed by at most one blur and one grayscale call follows the whole plan |
| Processor.ScaleWandRuns | halfshell/image_processor.go:94-135 | scaleWand runs nothing when the dimensions stay, and the resize sequence otherwise |
| Processor.ProcessImageByStages | halfshell/image_processor.go:64-81 | ProcessImage is its three stages in order, the blur reading the width after scaling |
| Processor.SingleCallRun | halfshell/image_processor.go:137-156 | running zero or one call |
| Processor.StagesFollowPlan | halfshell/image_processor.go:65-81 | three stages that each run their part after the previous ones follow the concatenated plan |
| Processor.ScaleFailureStopsProcessing | halfshell/image_processor.go:65-69 | a failing scale gives no image and no blur or grayscale call |
| Processor.UnmodifiedPassesThrough | halfshell/image_processor.go:83-84 | an image that needs no change comes back byte for byte with no wand call |
| Processor.UndecodableEmptyRequest | halfshell/image_processor.go:64-89 | bytes that do not decode, with an empty request, zero defaults and no blur or grayscale, come back unchanged with no wand call and the MIME type of the format the wand reports |
| Processor.ProcessedSucceeds | halfshell/image_processor.go:65-81 | stages that each succeed in turn succeed together |
| Route.ScaleModeNamed | halfshell/route.go:74-75 | a known name gives its mode; an unknown name gives 0, not a default |
| Route.SourceAndProcessorOptionsForRequest | halfshell/route.go:63-83 | the path is the image-path submatch of the first match; w and h are `ParseUint32` of their parameters, so within 32 bits and 0 when absent; blur is the parse or 0; the scale mode is the table's entry for the name, 0 when unknown; the focal point is `NewFocalpointFromString` of the parameter, the centre when absent |
| Route.QueryDimensions | halfshell/route.go:69-70 | decimal w and h are read as their values, saturated at 4294967295 |
| Route.NonDecimalDimensions | halfshell/route.go:69-70 | a w or h that does not start with a digit ("-5", "+5", "abc") reads as 0 |
| Route.QueryFocalpoint | halfshell/route.go:72-81 | an "X,Y" focal point is each half parsed on its own, 0 where a half does not parse |
| Route.BasicRouteExample | halfshell/route_test.go:16-34 | `/basic/image.jpg?w=25&h=10` is handled, with path `/image.jpg` and dimensions 25x10 |
| Strconv.ScanDecimal | halfshell/route.go:69-70 | the scan never exceeds the 32-bit maximum |
| Strconv.ParseUint32 | halfshell/route.go:69-70 | the value fits in 32 bits and the empty string gives 0 |
| Strconv.ScanDigits | halfshell/route.go:69-70 | scanning digits gives the numeral's value, saturated at the 32-bit maximum |
| Strconv.ScanSyntaxError | halfshell/route.go:69-70 | a non-digit reached before an overflow gives 0 |
| Strconv.ScanRangeError | halfshell/route.go:69-70 | digits past the 32-bit maximum give the maximum, whatever follows |
| Strconv.ParseUint32OfDigits | halfshell/route.go:69-70 | a decimal numeral parses to min(value, 4294967295) |
| Strconv.ParseUint32SyntaxError | halfshell/route.go:69-70 | text with a non-digit before any overflow parses to 0 |
| Strconv.ParseUint32Saturates | halfshell/route.go:69-70 | once the leading digits exceed 4294967295 the result is 4294967295 |
| Strconv.ParseUint32RoundTrip | halfshell/route.go:69-70 | the decimal rendering of a 32-bit value parses back to it |
| Server.WriteHeader | halfshell/server.go:142-145 | records the status; size, headers and body unchanged |
| Server.SetHeader | halfshell/server.go:148-150 | the header takes the value, every other header is kept, and nothing else changes |
| Server.Write | halfshell/server.go:153-156 | the size grows by the data's length and the data is appended; the status is untouched |
| Server.WriteErrorBody | halfshell/server.go:159-163 | plain-text content type, the given status, the body appended and counted |
| Server.WriteError | halfshell/server.go:159-163 | the message's UTF-8 bytes as a plain-text body with the given status |
| Server.WriteImage | halfshell/server.go:166-172 | status 200, the image's type, a Content-Length that reads back as the byte count, the cache policy, and exactly the image's bytes |
| Server.WriterAccounting | halfshell/server.go:142-156 | over any call sequence the size is the total length written, the body is the data in order, and the status is that of the last WriteHeader |
| Server.WriteImageCalls | halfshell/server.go:166-172 | WriteImage is the source's sequence of three SetHeader calls, one WriteHeader and one Write |
| Server.NewHalfshellRequest | halfshell/server.go:112-126 | the chosen route is the last matching one, none exactly when no route matches, and options are read exactly when a route was chosen; the loop's result is the declarative `Selected` built on `LastIndex` |
| Server.Selected | halfshell/server.go:112-126 | the request is kept and options are present exactly when a route is chosen |
| Server.NotFoundBodyIsUtf8 | halfshell/server.go:77 | the "Not Found" body is the text's UTF-8 encoding |
| Server.InternalErrorBodyIsUtf8 | halfshell/server.go:85 | the "Internal Server Error" body is the text's UTF-8 encoding |
| Server.ImageRequestHandler | halfshell/server.go:61-92 | no route: 404 naming the path; no image: 404 "Not Found"; failed processing: 404 "Internal Server Error"; a served image: 200 |
| Server.ServeHTTP | halfshell/server.go:49-59 | the health-check paths answer "OK" with status 0 even when a route matches; every other request is answered exactly as ImageRequestHandler answers the `Selected` request on a fresh writer, so a missing image is 404 "Not Found" without the processor and a failed processing is "Internal Server Error"; no route gives 404; a served image gives 200 |
| Server.OutcomeClassification | halfshell/server.go:75-91 | the outcome is decided by whether the source found the image and whether the processor returned one |
| Server.ProcessorNotConsultedWithoutImage | halfshell/server.go:75-79 | without an image the answer is "Not Found" and the same for any processor |
| Seqs.LastIndex | halfshell/server.go:114-118 | the index of the last element satisfying the test, none exactly when no element does |
| Seqs.ScanLast | halfshell/server.go:114-118 | the forward scan without a break ends at the last hit |
| Util.FirstString | halfshell/util/strings.go:3-10 | the first non-empty argument, "" exactly when every argument is empty or there are none |
| Util.FirstUInt | halfshell/util/strings.go:12-19 | the first positive argument, 0 exactly when every argument is 0 or there are none |
| Sources.Construct | halfshell/source.go:53 | the source built keeps the configuration it was given |
| Sources.RegisterSource | halfshell/source.go:43-45 | the type maps to the factory afterwards, and every other type keeps its entry or its absence |
| Sources.ReregisterOverwrites | halfshell/source.go:44 | a second registration of a type replaces the first |
| Sources.RegisterDistinctCommute | halfshell/source.go:44 | registrations of distinct types can be made in either order |
| Sources.NewImageSourceWithConfig | halfshell/source.go:47-54 | a registered type builds with its factory; an unregistered one exits with "Unknown image source type" |
| Sources.RegisteredSourceConstructs | halfshell/source.go:43-54 | a type just registered builds with that factory |
| Sources.DefaultRegistryTypes | halfshell/source_filesystem.go:91-93 | after the init functions, filesystem, s3 and http build their sources and every other type is fatal |
| Sources.SanitizedName | halfshell/source_filesystem.go:88 | every leading `/` is removed and each other `/` becomes `_`, one for one, so no `/` is left |
| Sources.SanitizedNameIdempotent | halfshell/source_filesystem.go:88 | sanitising twice is sanitising once |
| Sources.SanitizedNameOfSlashes | halfshell/source_filesystem.go:88 | an empty or all-slash path gives the empty name |
| Sources.SanitizedDotDot | halfshell/source_filesystem.go:88 | `/..` sanitises to `..` |
| Sources.FileNameForRequest | halfshell/source_filesystem.go:85-89 | the file name is absolute exactly when the configured directory is: no request path makes it rooted |
| Sources.FileNameInsideDirectory | halfshell/source_filesystem.go:85-89 | a name other than empty, `.` and `..` lands directly inside the cleaned directory |
| Sources.FileNameOfBarePath | halfshell/source_filesystem.go:85-89 | an empty or all-slash path names the directory itself |
| Sources.FileNameEscapesDirectory | halfshell/source_filesystem.go:85-89 | served from `/a/b`, the path `/..` names `/a` |
| Sources.EscapeEach | halfshell/source_s3.go:82-85 | one query-escaped part per part, in order |
| Sources.EscapeSegments | halfshell/source_s3.go:81-90 | the result's `/`-segments are the input's segments, each escaped |
| Sources.EscapeSegmentsRoundTrip | halfshell/source_s3.go:81-90 | one segment per `/` plus one, and unescaping each gives back the original segment's bytes |
| Sources.EscapeSegmentsKeepsEmpty | halfshell/source_s3.go:81-85 | empty segments stay empty |
| Sources.EscapeSegmentsPlain | halfshell/source_s3.go:83 | a path of letters, digits, `-_.~` and `/` is unchanged |
| Sources.ImageUrlForRequest | halfshell/source_s3.go:80-94 | scheme http, host `<bucket>.s3.amazonaws.com`, and the path escaped segment by segment |
| Sources.EscapeSegmentsConcat | halfshell/source_http.go:69-77 | escaping distributes over a `/` |
| Sources.GetHttpRequest | halfshell/source_http.go:68-86 | scheme http, the configured host, and the opaque part that escapes directory ++ path segment by segment |
| Sources.HttpDirectoryEscapedLikePath | halfshell/source_http.go:69-75 | for a path starting with `/`, the directory's segments are escaped exactly as the path's |
| Sources.HttpPathIsRawConcatenation | halfshell/source_http.go:69 | no separator is inserted: directory `images` and path `a.jpg` give `imagesa.jpg` |
| FilePath.Clean | halfshell/source_filesystem.go:88 | the cleaned path is never empty and is rooted exactly when the input is |
| FilePath.Join2 | halfshell/source_filesystem.go:88 | empty exactly when both elements are, and the cleaned name when only the directory is empty |
| FilePath.JoinPlainName | halfshell/source_filesystem.go:88 | a plain name joined to a directory follows the cleaned directory after one `/` |
| FilePath.JoinEmptyName | halfshell/source_filesystem.go:88 | joining an empty name is cleaning the directory |
| FilePath.JoinDotDotClimbs | halfshell/source_filesystem.go:88 | `..` joined to `/a/b` gives `/a` |
| UrlEscape.EscapeByte | halfshell/source_s3.go:83 | an unreserved byte is kept, a space becomes `+`, any other byte becomes `%` and two hex digits of its value |
| UrlEscape.EscapeBytes | halfshell/source_s3.go:83 | the escaping is ASCII, free of `/`, and no shorter than the input |
| UrlEscape.EscapeBytesAppend | halfshell/source_s3.go:83 | escaping distributes over concatenation |
| UrlEscape.QueryEscape | halfshell/source_s3.go:83 | the result is ASCII without `/`, and its bytes are the escaping of the input's UTF-8 bytes |
| UrlEscape.UnescapeEscapeBytes | halfshell/source_s3.go:83 | unescaping an escaping gives back the bytes |
| UrlEscape.QueryRoundTrip | halfshell/source_s3.go:83 | unescaping QueryEscape(s) gives the UTF-8 bytes of s |
| UrlEscape.EscapePlainBytes | halfshell/source_s3.go:83 | text of unreserved characters and spaces escapes to itself with spaces made `+` |
| UrlEscape.QueryEscapePlain | halfshell/source_s3.go:83 | QueryEscape leaves unreserved characters alone and turns spaces into `+` |
| Strings.Split | halfshell/config.go:274 | one part more than there are separators, none containing it, and they join back to the input |
| Strings.SplitJoin | halfshell/config.go:274 | separator-free parts joined and split again are the parts |
| Strings.TrimLeft | halfshell/source_filesystem.go:88 | the longest suffix that does not start with the trimmed character |
| Strings.ReplaceAll | halfshell/source_filesystem.go:88 | each occurrence of the character replaced, one for one |
| Strings.ToLowerAscii | halfshell/image_processor.go:89 | each ASCII capital lowered, every other character kept |
| Strings.NatToString | halfshell/image.go:106 | a decimal numeral without leading zeros whose value is the number |
| Strings.Utf8Char | halfshell/server.go:162 | one to four bytes per character: an ASCII character is its own code, any other character only bytes of 0x80 and above |
| Strings.Utf8Ascii | halfshell/server.go:162 | ASCII text encodes byte for byte, each character as its code |
| Fmt.SprintfPlain | halfshell/config.go:273 | a format without verbs prints as itself |
| Fmt.SprintfOne | halfshell/config.go:273 | `a%sb` with one argument prints the argument between the texts |
| Fmt.SprintfTwo | halfshell/config.go:273 | `a%sb%sc` with two arguments prints them in order |
| Fmt.SprintfMissing | halfshell/config.go:281 | `a%sb%sc` with one argument prints `%!s(MISSING)` for the second verb |
| Fmt.MissingMarkerReformatted | halfshell/config.go:281 | formatting `%!s(MISSING)` again without arguments gives `%!!(MISSING)s(MISSING)` |
| Fmt.PrintedConcat | halfshell/config.go:273 | a concatenated format prints its first part, then its second with the arguments left |
| Fmt.PrintedJoin | halfshell/config.go:273 | a format of parts joined by a non-`%` separator prints each part with its own argument |
| Fmt.SprintfJoin | halfshell/config.go:273 | with every argument used, Sprintf of joined parts is the joined filled parts |
| Fmt.MissingMarker | halfshell/config.go:281 | the missing-argument marker has only `%!` markers |
| Fmt.BadVerbMarker | halfshell/config.go:273 | the bad-verb marker has only `%!` markers |
| Fmt.PrintedMarkersOnly | halfshell/config.go:281 | printing `%`-free arguments leaves only `%!` markers |
| Fmt.SprintfKeepsKeypathFormat | halfshell/config.go:281 | a keypath formatted with `%`-free arguments can be formatted again, as the retry does |
| Fmt.MarkersAreKeypathFormat | halfshell/config.go:281 | text whose only `%` are markers is a keypath format |
| Keypath.Field | halfshell/config.go:279 | a missing key reads as nil, a present one as its value |
| Keypath.Descend | halfshell/config.go:275-278 | following no component gives the document; any failure is a panic |
| Keypath.DescendConcat | halfshell/config.go:276-278 | descending a path in two parts is descending each part in turn |
| Keypath.DescendOne | halfshell/config.go:277 | one step succeeds exactly into an object |
| Keypath.Lookup | halfshell/config.go:273-279 | failures are panics, and a dot-free keypath reads one top-level field |
| Keypath.At | halfshell/config.go:275-279 | the leaf read succeeds exactly when the descent does |
| Keypath.Components | halfshell/config.go:274 | dot-free parts are their own components |
| Keypath.SplitOfJoin | halfshell/config.go:274 | splitting a joined keypath gives the components of its parts |
| Keypath.LookupOfParts | halfshell/config.go:273-279 | a keypath built from parts and a dot-free key reads that key along the parts' components |
| Keypath.ComponentsOfEntry | halfshell/config.go:274 | a name with dots after a section splits into several components |
| Keypath.ZeroValue | halfshell/config.go:287-297 | 0.0, "" or false for the kind asked for |
| Keypath.Resolve | halfshell/config.go:284-300 | scalars come back as they are, nil as the zero value, and arrays or objects panic |
| Keypath.ValueForKeypath | halfshell/config.go:272-301 | a success is a scalar, and every failure is a panic |
| Keypath.DefaultFormat | halfshell/config.go:281 | the fallback format is itself a keypath format |
| Keypath.AtMostOneRetry | halfshell/config.go:280-282 | one lookup and at most one more, of the fallback formatted with no arguments, so the recursion depth is at most one |
| Keypath.PresentLeafReturned | halfshell/config.go:284-286 | a string, bool or number at the keypath is returned as it is |
| Keypath.MissingLeafWithoutArguments | halfshell/config.go:287-297 | nil and no arguments give the zero value of the kind |
| Keypath.IntermediateMissingPanics | halfshell/config.go:276-278 | a missing or non-object intermediate component panics with no retry |
| Keypath.CompositeLeafPanics | halfshell/config.go:298-299 | an array or object at the keypath panics |
| Keypath.WithDefault | halfshell/config.go:280-286 | the first value unless it is nil, then the resolved second |
| Keypath.SectionFormat | halfshell/config.go:180-182 | `section.field` is a keypath format of two components |
| Keypath.SectionKeypath | halfshell/config.go:180-182 | it formats to itself |
| Keypath.SectionLookup | halfshell/config.go:178-184 | it reads one field of one top-level object, with no fallback |
| Keypath.EntryFormat | halfshell/config.go:216-221 | `section.%s.field` is a keypath format |
| Keypath.EntryKeypaths | halfshell/config.go:272-282 | it formats to `section.<name>.field`, with the fallback `section.default.field` |
| Keypath.EntryLookup | halfshell/config.go:213-223 | the named entry's field, else the same field of `default` |
| Keypath.SubEntryFormat | halfshell/config.go:242-244 | `section.%s.sub.%s.field` is a keypath format |
| Keypath.MarkerPart | halfshell/config.go:281 | the marker formatted again is the garbled name |
| Keypath.SubEntryFirstKeypath | halfshell/config.go:242-244 | with two arguments it formats to the five components |
| Keypath.SubEntryDefault | halfshell/config.go:281 | the fallback format has `%!s(MISSING)` in place of the inner entry |
| Keypath.SubEntryRetryKeypath | halfshell/config.go:281 | the retry reads under `%!!(MISSING)s(MISSING)` |
| Keypath.SubEntryLookup | halfshell/config.go:242-244 | a nested entry's field falls back to the garbled key of `default`, not to the same nested entry |
| Keypath.StringForKeypath | halfshell/config.go:303-305 | a string value, or a panic |
| Keypath.FloatForKeypath | halfshell/config.go:307-309 | a number value, or a panic |
| Keypath.BoolForKeypath | halfshell/config.go:315-317 | a bool value, or a panic |
| Keypath.Uint64OfFloat | halfshell/config.go:311-313 | truncation toward zero in range; out of range as the implementation decides |
| Keypath.Uint64OfWhole | halfshell/config.go:312 | a whole number in range converts to itself |
| Keypath.UintForKeypath | halfshell/config.go:311-313 | the number value converted to uint64, or a panic |
| Keypath.AsString | halfshell/config.go:303-305 | the assertion succeeds exactly on a string |
| Keypath.AsFloat | halfshell/config.go:307-309 | the assertion succeeds exactly on a number |
| Keypath.AsBool | halfshell/config.go:315-317 | the assertion succeeds exactly on a bool |
| Keypath.AsUint | halfshell/config.go:311-313 | a number converted to uint64 |
| Config.Collect | halfshell/config.go:132-138 | every key parsed, or a panic exactly when some key's parse panics, whatever the order |
| Config.CollectAll | halfshell/config.go:132-138 | a complete panic-free set of parses is what the loop collects |
| Config.ReadSectionUint | halfshell/config.go:180 | `section.field` read as uint64 with no fallback |
| Config.ReadEntryString | halfshell/config.go:216-221 | `section.<name>.field` read as a string with the default fallback |
| Config.ReadEntryUint | halfshell/config.go:252-255 | `section.<name>.field` read as uint64 with the default fallback |
| Config.ReadEntryFloat | halfshell/config.go:257 | `section.<name>.field` read as a number with the default fallback |
| Config.ReadEntryBool | halfshell/config.go:258-262 | `section.<name>.field` read as a bool with the default fallback |
| Config.ReadSubEntryUint | halfshell/config.go:242-243 | the nested entry's field read as uint64 |
| Config.ReadSubEntryFloat | halfshell/config.go:244 | the nested entry's field read as a number |
| Config.NumberOrZero | halfshell/config.go:307-309 | a number or nil is read, nil as 0; anything else panics |
| Config.SectionNumber | halfshell/config.go:180-182 | a top-level object's field read as uint64 needs the object, and a number or nil in the field |
| Config.ParseServerConfig | halfshell/config.go:178-184 | the three server settings, each a number converted to uint64 or 0 when absent |
| Config.StatsdSection | halfshell/config.go:187 | the statsd object, or an empty map when it is missing or not an object |
| Config.ParseStatterConfig | halfshell/config.go:186-211 | the host or "0", the port or 8125, and enabled true when absent, its value when a bool, false otherwise |
| Config.StatterDefaults | halfshell/config.go:189-204 | without a statsd object the settings are "0", 8125 and enabled |
| Config.StatterEnabledNotBool | halfshell/config.go:199-201 | an `enabled` that is present but not a bool disables statsd |
| Config.SourceSettings | halfshell/config.go:213-223 | the source succeeds exactly when all six settings read as strings, and keeps its name and the read type |
| Config.ParseSourceConfig | halfshell/config.go:213-223 | the reads in source order give those settings |
| Config.DescendTwo | halfshell/config.go:276-278 | two steps into nested objects |
| Config.SourceFieldResolution | halfshell/config.go:216-221 | the source's own string, else that of `sources.default`, else ""; a panic for a non-string or a non-object default |
| Config.DottedSourceName | halfshell/config.go:274 | a source named `s3.eu` is looked up along `s3` then `eu` |
| Config.ResolvedScaleMode | halfshell/config.go:226-230 | the named mode, ScaleFill when unknown or 0, ScaleAspectFit whenever `maintain_aspect_ratio` is set |
| Config.FormatSettings | halfshell/config.go:241-246 | a format succeeds exactly when width, height and blur read as numbers |
| Config.ParseFormat | halfshell/config.go:241-246 | the three reads give those settings |
| Config.MissingFormatWidthPanics | halfshell/config.go:242 | a format without a width panics when `processors.default.formats` has no object under the garbled key |
| Config.FormatsSettings | halfshell/config.go:237-248 | no `formats` gives none; a non-object panics; otherwise every format |
| Config.ParseFormats | halfshell/config.go:237-248 | the loop over the formats gives those settings |
| Config.MaxDimensions | halfshell/config.go:232-235 | the maximum width and height, each read with the fallback |
| Config.ReadMaxDimensions | halfshell/config.go:232-235 | the two reads give those dimensions |
| Config.OutputSettings | halfshell/config.go:252-255 | compression quality and default height and width, each read with the fallback |
| Config.ReadOutputSettings | halfshell/config.go:252-255 | the three reads give those settings |
| Config.SwitchSettings | halfshell/config.go:257-262 | the blur limit, auto-orientation and the deprecated aspect-ratio flag |
| Config.ReadSwitchSettings | halfshell/config.go:257-262 | the three reads give those settings |
| Config.ProcessorSettings | halfshell/config.go:225-270 | every failure of a processor is a panic |
| Config.ProcessorParts | halfshell/config.go:225-270 | a processor is its name, resolved scale mode, maxima, formats, outputs and switches, and panics when any of them does |
| Config.ParseProcessorConfig | halfshell/config.go:225-270 | the reads in source order give that processor |
| Config.UnknownScaleModeIsFill | halfshell/config.go:226-230 | an unknown mode name gives ScaleFill unless the deprecated flag gives ScaleAspectFit |
| Config.StringAt | halfshell/config.go:161-164 | the assertion succeeds exactly on a present string |
| Config.ParseRoute | halfshell/config.go:142-172 | a non-object panics; a bad pattern or no `image_path` group exits; the index is the last `image_path` group; name, processor, source and cache_control (or "") are copied; a route parses exactly when its data is an object, the pattern compiles, some group is `image_path`, `processor`, `source` and `name` are strings and a present `cache_control` is a string; otherwise, past the two exits, it panics |
| Config.SingleImagePathGroup | halfshell/config.go:150-154 | with one `image_path` group its index is the image-path index |
| Config.ParseRoutes | halfshell/config.go:141-173 | the routes in order, or the first failure |
| Config.ParseSources | halfshell/config.go:132-134 | the loop over the sources gives every source or a panic |
| Config.ParseProcessors | halfshell/config.go:136-138 | the loop over the processors gives every processor or a panic |
| Config.ConfigurationOf | halfshell/config.go:123-176 | a configuration results exactly when the server section, the three sections as objects, every source, every processor and the routes in iteration order parse; it then holds the server and statsd settings, one route per key, and the routes as parsed against the parsed sources and processors; an exit is the route parse's exit |
| Config.ConfigurationRoutes | halfshell/config.go:141-173 | route by route, the i-th configured route is the parse of the i-th key with that key as its pattern; an exit is the failure of some route |
| Config.Parse | halfshell/config.go:123-176 | parse, section by section, gives that configuration |

## Left out

- ImageMagick itself is not part of this model: decoding, resizing, stripping, interlacing, compression, blurring, the colour-space change and blob encoding. `Processor.Magick` is a parameter that says which call fails after which history, what an image decodes to, and what bytes a sequence of calls encodes to.
- Floating point: ratios are exact naturals, and the blur radius is a product of reals. The rounding of float64 division and multiplication is not modelled.
- `strconv.ParseFloat` is an abstract `string -> Option<real>`. `None` is a syntax error, for which Go returns 0 alongside the error. Go's ±Inf for an out-of-range literal and the NaN and ±Inf that "NaN" and "Inf" denote are not reals, so the parameter cannot return them.
- Route.SourceAndProcessorOptionsForRequest: a `blur` of ±Inf or NaN (from "1e999", "Inf" or "NaN") is not modelled, because the blur radius is a real.
- Image.NewFocalpointFromString: a coordinate of ±Inf or NaN (from "1e999,0", "Inf,0" or "NaN,0") is not modelled, because a coordinate is a real.
- Strings.ToLowerAscii: lowers ASCII capitals only, where `strings.ToLower` also lowers other scripts' capitals such as 'É'. ImageMagick format names are ASCII.
- Processor.ProcessImage: the JPEG test of scaleWand and the MIME type read the format the wand reports after decoding, where Go calls `GetImageFormat` again after the resize and after every stage. The blur radius reads the planned width, where Go calls `GetImageWidth` after scaling. Both assume, as ImageMagick does, that these calls keep the format and that a successful resize sets exactly the target width.
- Processor.ScaleWand: `uint(...)` casts of the planned dimensions are not modelled; naturals are unbounded.
- Keypath.Uint64OfFloat: the result of an out-of-range `uint64(float64)` conversion is a parameter, because Go leaves it to the implementation.
- Go strings that are not valid UTF-8 cannot be represented: a string is a sequence of characters.
- `url.URL.String` and `RequestURI` serialisation and S3 request signing are left out. The sources' results are the URL fields they set.
- The `GetImage` bodies of all three sources and the file-system source's directory creation are I/O.
- logger.go, `LogRequest`, `http.Server` set-up and statter.go's statsd emission are I/O.
- The goroutine that registers request statistics (server.go:68-70) is concurrency; it does not change the answer.
- Opening and JSON-decoding the configuration file is not modelled; the parser takes the decoded document. `os.Exit` after a message is the value `Exit(message)`.
- The regular-expression engine is abstract: `compile` gives a pattern's group names or an error, and `findAll` gives the submatches of a path. `ShouldHandleRequest` is a match test over `findAll`, so it has no contract of its own.
- The `ScaleModes` table and the scale-mode constants are parameters (`Parsers.scaleModes`, `Config.Externals`). The code never defines them.
- Fmt.Sprintf: covers only formats whose every `%` is followed by `s` or `!`, the shape keypath formats and their markers have, with the `%!s(MISSING)`, bad-verb and `%!(EXTRA ...)` markers. Other verbs, `%%`, flags and widths are not modelled.
- HTTP header-name canonicalisation is not modelled; headers are a map from the names as written.
- Go's map iteration order is arbitrary. The routes are parsed in a `routeOrder` that enumerates the keys. Sources, processors and formats can only stop with a panic, so their order does not matter.
- Geometry.AspectScaledHeight: Go's `uint64` conversion of +Inf or NaN is implementation-defined, so it is the parameter `NonFiniteCast`. A finite rounded quotient of 2^64 or more, whose conversion is equally implementation-defined, is kept exact.
- Geometry.AspectScaledWidth: the same conversions as AspectScaledHeight: +Inf and NaN through `NonFiniteCast`, a finite product of 2^64 or more kept exact.
- The route test's "complex" case expects dimensions from the path (route_test.go:51-69), which route.go does not do.

/**
 * ProcessImage of image_processor.go: the scale, blur and grayscale stages
 * run against an ImageMagick wand, the abort on the first failing wand call,
 * and the choice between the original bytes and a re-encoded blob.
 *
 * The wand itself is abstract. A `Magick` value says what decoding a blob
 * yields, which wand calls fail (given the calls already made), and what
 * blob the wand encodes after a sequence of calls.
 */
module Processor {
  import opened Strings
  import opened Wrappers
  import opened Geometry
  import opened Image

  /** The wand operations ProcessImage issues, with the arguments that vary. */
  datatype WandCall =
    | ResizeImage(dimensions: Dimensions)
    | SetImageInterpolateMethod
    | StripImage
    | SetImageInterlaceScheme
    | SetImageCompression
    | SetImageCompressionQuality(quality: nat)
    | GaussianBlurImage(radius: real)
    | TransformImageColorspaceGray

  /** What the processor reads back from a freshly decoded wand. */
  datatype Decoded = Decoded(dimensions: Dimensions, format: string)

  /** The abstract ImageMagick library. */
  datatype Magick = Magick(
    decode: seq<byte> -> Decoded,
    fails: (seq<WandCall>, WandCall) -> bool,
    encode: (seq<byte>, seq<WandCall>) -> seq<byte>)

  /** ProcessorConfig, as far as ProcessImage reads it. */
  datatype ProcessorConfig = ProcessorConfig(
    planner: PlannerConfig,
    imageCompressionQuality: nat,
    maxBlurRadiusPercentage: real,
    grayscaleDisabled: bool,
    grayscaleByDefault: bool)

  /** ImageProcessorOptions, as far as ProcessImage reads it. */
  datatype ProcessorOptions = ProcessorOptions(dimensions: Dimensions, blurRadius: real, grayScale: bool)

  /** The processed image: its bytes and MIME type. */
  datatype ImageBlob = ImageBlob(bytes: seq<byte>, mimeType: string)

  // ---------------------------------------------------------------------------
  // Running wand calls until one fails
  // ---------------------------------------------------------------------------

  /** The calls made by a stage, whether the last of them failed, and whether the stage reports a modification. */
  datatype Stage = Stage(calls: seq<WandCall>, failed: bool, modified: bool)

  /** Every call of `steps` succeeds when issued after `history` and the steps before it. */
  predicate AllSucceed(m: Magick, history: seq<WandCall>, steps: seq<WandCall>)
    decreases |steps|
  {
    |steps| == 0 || (!m.fails(history, steps[0]) && AllSucceed(m, history + [steps[0]], steps[1..]))
  }

  /** Calls succeed in sequence: a concatenation succeeds exactly when both halves do, in turn. */
  lemma {:induction false} AllSucceedConcat(m: Magick, history: seq<WandCall>, a: seq<WandCall>, b: seq<WandCall>)
    ensures AllSucceed(m, history, a + b) <==> AllSucceed(m, history, a) && AllSucceed(m, history + a, b)
    decreases |a|
  {
    if |a| == 0 {
      assert a + b == b && history + a == history;
    } else {
      assert (a + b)[0] == a[0] && (a + b)[1..] == a[1..] + b;
      assert history + [a[0]] + a[1..] == history + a;
      AllSucceedConcat(m, history + [a[0]], a[1..], b);
    }
  }

  /**
   * Issue `steps` in order after `history`, stopping at the first call that
   * fails: the calls made, and whether one failed. The calls made are a
   * prefix of `steps`; every call but a failing last one succeeded.
   */
  function Run(m: Magick, history: seq<WandCall>, steps: seq<WandCall>): (r: (seq<WandCall>, bool))
    ensures |r.0| <= |steps| && r.0 == steps[..|r.0|]
    ensures !r.1 <==> AllSucceed(m, history, steps)
    ensures !r.1 ==> r.0 == steps
    ensures r.1 ==> |r.0| > 0
                    && AllSucceed(m, history, r.0[..|r.0| - 1])
                    && m.fails(history + r.0[..|r.0| - 1], r.0[|r.0| - 1])
    decreases |steps|
  {
    if |steps| == 0 then
      ([], false)
    else if m.fails(history, steps[0]) then
      assert [steps[0]][..0] == [] && history + [] == history;
      ([steps[0]], true)
    else
      var rest := Run(m, history + [steps[0]], steps[1..]);
      var calls := [steps[0]] + rest.0;
      assert steps[..|calls|] == [steps[0]] + steps[1..][..|rest.0|];
      if rest.1 then
        var k := |rest.0| - 1;
        assert calls[..|calls| - 1] == [steps[0]] + rest.0[..k];
        assert calls[..|calls| - 1][1..] == rest.0[..k];
        assert history + calls[..|calls| - 1] == (history + [steps[0]]) + rest.0[..k];
        (calls, rest.1)
      else
        (calls, rest.1)
  }

  // ---------------------------------------------------------------------------
  // The three stages
  // ---------------------------------------------------------------------------

  /** The calls scaleWand makes once it has decided to resize to `target`. */
  function ScaleSteps(target: Dimensions, format: string, quality: nat): seq<WandCall>
  {
    [ResizeImage(target), SetImageInterpolateMethod, StripImage]
      + (if format == "JPEG" then [SetImageInterlaceScheme, SetImageCompression, SetImageCompressionQuality(quality)] else [])
  }

  /**
   * scaleWand: plan the dimensions; when they equal the current ones nothing
   * is called and nothing is modified, otherwise resize and re-encode
   * settings, reporting a modification even when a call fails.
   */
  function ScaleWand(m: Magick, wand: Decoded, request: ProcessorOptions, config: ProcessorConfig, cast: NonFiniteCast): (s: Stage)
    ensures var target := ScaledDimensions(wand.dimensions, request.dimensions, config.planner, cast);
            (target == wand.dimensions <==> !s.modified)
            && (!s.modified ==> s.calls == [] && !s.failed)
            && (s.modified ==> |s.calls| > 0 && s.calls[0] == ResizeImage(target))
    ensures s.failed ==> m.fails(s.calls[..|s.calls| - 1], s.calls[|s.calls| - 1])
    ensures (exists i :: 0 <= i < |s.calls| && s.calls[i].SetImageCompressionQuality?) ==> wand.format == "JPEG"
  {
    var current := wand.dimensions;
    var target := ScaledDimensions(current, request.dimensions, config.planner, cast);
    if target == current then
      Stage([], false, false)
    else
      var steps := ScaleSteps(target, wand.format, config.imageCompressionQuality);
      var run := Run(m, [], steps);
      assert [] + run.0[..|run.0| - 1] == run.0[..|run.0| - 1];
      Stage(run.0, run.1, true)
  }

  /** The blur radius: image width times the requested radius times the configured percentage. */
  function BlurRadius(width: nat, request: ProcessorOptions, config: ProcessorConfig): real
  {
    (width as real) * request.blurRadius * config.maxBlurRadiusPercentage
  }

  /** blurWand: one Gaussian blur when a radius is requested; modified even when the blur fails. */
  function BlurWand(m: Magick, history: seq<WandCall>, width: nat, request: ProcessorOptions, config: ProcessorConfig): (s: Stage)
    ensures s.modified <==> request.blurRadius != 0.0
    ensures s.modified ==> s.calls == [GaussianBlurImage(BlurRadius(width, request, config))]
                           && (s.failed <==> m.fails(history, s.calls[0]))
    ensures !s.modified ==> s.calls == [] && !s.failed
  {
    if request.blurRadius != 0.0 then
      var call := GaussianBlurImage(BlurRadius(width, request, config));
      Stage([call], m.fails(history, call), true)
    else
      Stage([], false, false)
  }

  /** Whether grayscaleWand converts the image. */
  predicate GrayscaleRequested(request: ProcessorOptions, config: ProcessorConfig)
  {
    !config.grayscaleDisabled && (config.grayscaleByDefault || request.grayScale)
  }

  /** grayscaleWand: one colourspace transform when enabled and asked for, by default or by the request. */
  function GrayscaleWand(m: Magick, history: seq<WandCall>, request: ProcessorOptions, config: ProcessorConfig): (s: Stage)
    ensures s.modified <==> GrayscaleRequested(request, config)
    ensures config.grayscaleDisabled ==> s == Stage([], false, false)
    ensures s.modified ==> s.calls == [TransformImageColorspaceGray] && (s.failed <==> m.fails(history, s.calls[0]))
    ensures !s.modified ==> s.calls == [] && !s.failed
  {
    if GrayscaleRequested(request, config) then
      Stage([TransformImageColorspaceGray], m.fails(history, TransformImageColorspaceGray), true)
    else
      Stage([], false, false)
  }

  // ---------------------------------------------------------------------------
  // ProcessImage
  // ---------------------------------------------------------------------------

  /** The outcome of ProcessImage: the processed image (None for Go's nil) and every wand call made. */
  datatype Processed = Processed(result: Option<ImageBlob>, calls: seq<WandCall>)

  /**
   * ProcessImage: decode, then scale, blur and grayscale in that order. The
   * first stage that fails ends processing with no image. When no stage
   * modified the image its original bytes are passed through; otherwise the
   * wand's blob is taken. The blur reads the width after scaling.
   *
   * A read error is ignored, so a blob that does not decode is processed
   * like any other, on whatever dimensions and format the library then
   * reports; `cast` is Go's conversion of a non-finite planned axis.
   */
  function ProcessImage(m: Magick, bytes: seq<byte>, request: ProcessorOptions, config: ProcessorConfig, cast: NonFiniteCast): (p: Processed)
    ensures p.result.None? ==> |p.calls| > 0 && m.fails(p.calls[..|p.calls| - 1], p.calls[|p.calls| - 1])
    ensures p.result.Some? ==> AllSucceed(m, [], p.calls)
    ensures p.result.Some? ==> p.result.value.mimeType == MimeTypeForFormat(m.decode(bytes).format)
    ensures p.result.Some? ==> p.result.value.bytes == if p.calls == [] then bytes else m.encode(bytes, p.calls)
  {
    var wand := m.decode(bytes);
    var scale := ScaleWand(m, wand, request, config, cast);
    if scale.failed then
      Processed(None, scale.calls)
    else
      var width := if scale.modified then ScaledDimensions(wand.dimensions, request.dimensions, config.planner, cast).width else wand.dimensions.width;
      var blur := BlurWand(m, scale.calls, width, request, config);
      if blur.failed then
        Processed(None, scale.calls + blur.calls)
      else
        var gray := GrayscaleWand(m, scale.calls + blur.calls, request, config);
        var calls := scale.calls + blur.calls + gray.calls;
        if gray.failed then
          Processed(None, calls)
        else
          var blob := if !scale.modified && !blur.modified && !gray.modified then bytes else m.encode(bytes, calls);
          ProcessedSucceeds(m, scale.calls, blur.calls, gray.calls);
          Processed(Some(ImageBlob(blob, MimeTypeForFormat(wand.format))), calls)
  }

  /**
   * The calls ProcessImage plans for a decoded image, ignoring failures: the
   * resize sequence unless the planned dimensions are the current ones, then
   * the blur at the planned width, then the grayscale conversion.
   */
  function PlannedCalls(wand: Decoded, request: ProcessorOptions, config: ProcessorConfig, cast: NonFiniteCast): seq<WandCall>
  {
    var target := ScaledDimensions(wand.dimensions, request.dimensions, config.planner, cast);
    (if target == wand.dimensions then [] else ScaleSteps(target, wand.format, config.imageCompressionQuality))
      + (if request.blurRadius != 0.0 then [GaussianBlurImage(BlurRadius(target.width, request, config))] else [])
      + (if GrayscaleRequested(request, config) then [TransformImageColorspaceGray] else [])
  }

  /** Running a non-empty plan: the first call, then the rest if it succeeded. */
  lemma RunFront(m: Magick, history: seq<WandCall>, steps: seq<WandCall>)
    requires |steps| > 0
    ensures var rest := Run(m, history + [steps[0]], steps[1..]);
            Run(m, history, steps) == if m.fails(history, steps[0]) then ([steps[0]], true) else ([steps[0]] + rest.0, rest.1)
  {
  }

  /** Running a concatenation runs the first part and, if nothing failed, the second after it. */
  lemma {:induction false} RunConcat(m: Magick, history: seq<WandCall>, a: seq<WandCall>, b: seq<WandCall>)
    ensures Run(m, history, a + b)
            == if Run(m, history, a).1 then Run(m, history, a)
               else (a + Run(m, history + a, b).0, Run(m, history + a, b).1)
    decreases |a|
  {
    if |a| == 0 {
      assert a + b == b && history + a == history;
      assert a + Run(m, history, b).0 == Run(m, history, b).0;
    } else {
      var s0 := a[0];
      assert (a + b)[0] == s0;
      DropAppend(a, b, 1);
      RunFront(m, history, a + b);
      RunFront(m, history, a);
      if !m.fails(history, s0) {
        AppendAssoc(history, [s0], a[1..]);
        assert [s0] + a[1..] == a;
        RunConcat(m, history + [s0], a[1..], b);
        AppendAssoc([s0], a[1..], Run(m, history + a, b).0);
      }
    }
  }

  /**
   * ProcessImage issues exactly its plan, stopping at the first failing call,
   * and returns no image exactly when some call failed: a failing stage is
   * the last one to run.
   */
  lemma ProcessImageFollowsPlan(m: Magick, bytes: seq<byte>, request: ProcessorOptions, config: ProcessorConfig, cast: NonFiniteCast)
    ensures var run := Run(m, [], PlannedCalls(m.decode(bytes), request, config, cast));
            ProcessImage(m, bytes, request, config, cast).calls == run.0
            && (ProcessImage(m, bytes, request, config, cast).result.None? <==> run.1)
  {
    var wand := m.decode(bytes);
    var target := ScaledDimensions(wand.dimensions, request.dimensions, config.planner, cast);
    var a := if target == wand.dimensions then [] else ScaleSteps(target, wand.format, config.imageCompressionQuality);
    var b := if request.blurRadius != 0.0 then [GaussianBlurImage(BlurRadius(target.width, request, config))] else [];
    var c := if GrayscaleRequested(request, config) then [TransformImageColorspaceGray] else [];
    var scale := ScaleWand(m, wand, request, config, cast);
    var blur := BlurWand(m, scale.calls, target.width, request, config);
    var gray := GrayscaleWand(m, scale.calls + blur.calls, request, config);
    ProcessImageByStages(m, bytes, request, config, cast);
    ScaleWandRuns(m, wand, request, config, cast);
    var planned := PlannedCalls(wand, request, config, cast);
    assert planned == a + b + c;
    PlanFromStages(m, a, b, c, scale, blur, gray, ProcessImage(m, bytes, request, config, cast));
  }

  /** Stages that run the scale plan, then at most one blur call and one grayscale call, follow the whole plan. */
  lemma PlanFromStages(m: Magick, a: seq<WandCall>, b: seq<WandCall>, c: seq<WandCall>,
                       scale: Stage, blur: Stage, gray: Stage, p: Processed)
    requires scale.calls == Run(m, [], a).0 && scale.failed == Run(m, [], a).1
    requires blur.calls == b && |b| <= 1 && (blur.failed <==> |b| == 1 && m.fails(scale.calls, b[0]))
    requires gray.calls == c && |c| <= 1 && (gray.failed <==> |c| == 1 && m.fails(scale.calls + blur.calls, c[0]))
    requires p.calls == (if scale.failed then scale.calls
                         else if blur.failed then scale.calls + blur.calls
                         else scale.calls + blur.calls + gray.calls)
    requires p.result.None? <==> scale.failed || blur.failed || gray.failed
    ensures p.calls == Run(m, [], a + b + c).0 && (p.result.None? <==> Run(m, [], a + b + c).1)
  {
    if !scale.failed {
      assert scale.calls == a;
      SingleCallRun(m, a, b);
      if !blur.failed {
        SingleCallRun(m, a + b, c);
      }
    }
    StagesFollowPlan(m, a, b, c, scale, blur, gray);
  }

  /** scaleWand runs its plan: nothing when the dimensions stay, the resize sequence otherwise. */
  lemma ScaleWandRuns(m: Magick, wand: Decoded, request: ProcessorOptions, config: ProcessorConfig, cast: NonFiniteCast)
    ensures var target := ScaledDimensions(wand.dimensions, request.dimensions, config.planner, cast);
            var a := if target == wand.dimensions then [] else ScaleSteps(target, wand.format, config.imageCompressionQuality);
            var scale := ScaleWand(m, wand, request, config, cast);
            scale.calls == Run(m, [], a).0 && scale.failed == Run(m, [], a).1
  {
  }

  /** ProcessImage as its three stages, the blur at the planned width. */
  lemma ProcessImageByStages(m: Magick, bytes: seq<byte>, request: ProcessorOptions, config: ProcessorConfig, cast: NonFiniteCast)
    ensures var wand := m.decode(bytes);
            var target := ScaledDimensions(wand.dimensions, request.dimensions, config.planner, cast);
            var scale := ScaleWand(m, wand, request, config, cast);
            var blur := BlurWand(m, scale.calls, target.width, request, config);
            var gray := GrayscaleWand(m, scale.calls + blur.calls, request, config);
            var p := ProcessImage(m, bytes, request, config, cast);
            p.calls == (if scale.failed then scale.calls
                        else if blur.failed then scale.calls + blur.calls
                        else scale.calls + blur.calls + gray.calls)
            && (p.result.None? <==> scale.failed || blur.failed || gray.failed)
  {
  }

  /** Running zero or one call. */
  lemma SingleCallRun(m: Magick, history: seq<WandCall>, steps: seq<WandCall>)
    requires |steps| <= 1
    ensures Run(m, history, steps) == if |steps| == 0 then ([], false) else (steps, m.fails(history, steps[0]))
  {
    if |steps| == 1 {
      assert steps[1..] == [];
      assert [steps[0]] == steps;
    }
  }

  /** Three stages run one after another follow their concatenated plan. */
  lemma StagesFollowPlan(m: Magick, a: seq<WandCall>, b: seq<WandCall>, c: seq<WandCall>, scale: Stage, blur: Stage, gray: Stage)
    requires scale.calls == Run(m, [], a).0 && scale.failed == Run(m, [], a).1
    requires !scale.failed ==> blur.calls == Run(m, a, b).0 && blur.failed == Run(m, a, b).1
    requires !scale.failed && !blur.failed ==> gray.calls == Run(m, a + b, c).0 && gray.failed == Run(m, a + b, c).1
    ensures var run := Run(m, [], a + b + c);
            run.0 == (if scale.failed then scale.calls
                      else if blur.failed then scale.calls + blur.calls
                      else scale.calls + blur.calls + gray.calls)
            && (run.1 <==> scale.failed || blur.failed || gray.failed)
  {
    RunConcat(m, [], a + b, c);
    RunConcat(m, [], a, b);
    assert [] + a == a && [] + (a + b) == a + b;
  }

  /** When scaling fails, neither the blur nor the grayscale conversion is attempted. */
  lemma ScaleFailureStopsProcessing(m: Magick, bytes: seq<byte>, request: ProcessorOptions, config: ProcessorConfig, cast: NonFiniteCast)
    requires ScaleWand(m, m.decode(bytes), request, config, cast).failed
    ensures ProcessImage(m, bytes, request, config, cast).result.None?
    ensures forall i :: 0 <= i < |ProcessImage(m, bytes, request, config, cast).calls| ==>
              var call := ProcessImage(m, bytes, request, config, cast).calls[i];
              !call.GaussianBlurImage? && !call.TransformImageColorspaceGray?
  {
    var wand := m.decode(bytes);
    var scale := ScaleWand(m, wand, request, config, cast);
    var target := ScaledDimensions(wand.dimensions, request.dimensions, config.planner, cast);
    var steps := ScaleSteps(target, wand.format, config.imageCompressionQuality);
    assert ProcessImage(m, bytes, request, config, cast) == Processed(None, scale.calls);
    var calls := Run(m, [], steps).0;
    assert scale.calls == calls && calls == steps[..|calls|];
    forall i | 0 <= i < |calls|
      ensures !calls[i].GaussianBlurImage? && !calls[i].TransformImageColorspaceGray?
    {
      assert calls[i] == steps[i];
    }
  }

  /** An image that needs no change is passed through byte for byte with no wand call. */
  lemma UnmodifiedPassesThrough(m: Magick, bytes: seq<byte>, request: ProcessorOptions, config: ProcessorConfig, cast: NonFiniteCast)
    requires ScaledDimensions(m.decode(bytes).dimensions, request.dimensions, config.planner, cast) == m.decode(bytes).dimensions
    requires request.blurRadius == 0.0 && !GrayscaleRequested(request, config)
    ensures ProcessImage(m, bytes, request, config, cast)
            == Processed(Some(ImageBlob(bytes, MimeTypeForFormat(m.decode(bytes).format))), [])
  {
  }

  /**
   * Bytes that do not decode (a wand reporting 0x0), asked for nothing, with
   * zero default dimensions and no blur or grayscale: no call is made and
   * the bytes come back unchanged, typed by whatever format the wand reports.
   */
  lemma UndecodableEmptyRequest(m: Magick, bytes: seq<byte>, request: ProcessorOptions, config: ProcessorConfig, cast: NonFiniteCast)
    requires m.decode(bytes).dimensions == Dimensions(0, 0)
    requires request.dimensions == Dimensions(0, 0) && config.planner.Defaults() == Dimensions(0, 0)
    requires request.blurRadius == 0.0 && !GrayscaleRequested(request, config)
    ensures ProcessImage(m, bytes, request, config, cast)
            == Processed(Some(ImageBlob(bytes, MimeTypeForFormat(m.decode(bytes).format))), [])
  {
    UndecodedPlan(request.dimensions, config.planner, cast);
  }

  lemma ProcessedSucceeds(m: Magick, a: seq<WandCall>, b: seq<WandCall>, c: seq<WandCall>)
    requires AllSucceed(m, [], a)
    requires |b| <= 1 && (|b| == 1 ==> !m.fails(a, b[0]))
    requires |c| <= 1 && (|c| == 1 ==> !m.fails(a + b, c[0]))
    ensures AllSucceed(m, [], a + b + c)
  {
    assert [] + a == a && a + b == [] + (a + b);
    if |b| == 1 {
      assert b[1..] == [];
    }
    if |c| == 1 {
      assert c[1..] == [];
    }
    assert AllSucceed(m, a, b) && AllSucceed(m, a + b, c);
    AllSucceedConcat(m, [], a, b);
    AllSucceedConcat(m, [], a + b, c);
  }
}

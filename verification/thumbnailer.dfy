/** `Thumbnail` of thumbnailer.go: extract a rectangle from the uploaded
    image, measure it, fit it into the 400x300 canvas, render it as a
    foreground, then render the same extracted region again as a blurred,
    cropped 400x300 background with the foreground laid over it as a
    watermark.

    The image engine (bimg over libvips) is not modelled: it is a parameter
    `Engine` whose three operations may answer with a buffer or fail. So that
    the contracts can speak about the calls made, `Thumbnail` returns the
    calls it made together with its result.
 */
module Thumbnailer {
  import opened Wrappers
  import opened Truncation
  import opened Geometry

  /** An encoded image; its contents are opaque to the pipeline. */
  type Buffer = seq<bv8>

  /** The text of an error returned by the engine. */
  type EngineError = string

  /** The crop window read from the request; no field is validated here. */
  datatype ExtractRect = ExtractRect(top: int, left: int, width: int, height: int)

  /** `bimg.Gravity`. `Centre` is its first constant and so its zero value:
      an options literal that does not mention gravity asks for `Centre`. */
  datatype Gravity = Centre | North | East | South | West | Smart

  /** `bimg.WatermarkImage`: an image laid over the result at an offset. */
  datatype WatermarkImage = WatermarkImage(left: int, top: int, buf: Buffer)

  /** The fields of `bimg.Options` that the pipeline sets. A field left out
      of a Go struct literal holds its zero value: 0, 0.0, false, `Centre`,
      and `None` for the watermark. */
  datatype Options = Options(
    width: int,
    height: int,
    gravity: Gravity,
    blurSigma: real,
    crop: bool,
    quality: int,
    enlarge: bool,
    watermark: Option<WatermarkImage>)

  const BlurSigma: real := 15.0
  const Quality: int := 95

  /** The image engine: crop a rectangle out of an encoded image, report an
      image's size, and render an image with options. */
  datatype Engine = Engine(
    extract: (Buffer, ExtractRect) -> Result<Buffer, EngineError>,
    size: Buffer -> Result<Dimensions, EngineError>,
    process: (Buffer, Options) -> Result<Buffer, EngineError>)

  /** One request to the engine. */
  datatype Call =
    | ExtractCall(image: Buffer, rect: ExtractRect)
    | SizeCall(src: Buffer)
    | ProcessCall(src: Buffer, options: Options)

  /** What the engine answers on success: an image or a size. */
  datatype Reply = Image(buf: Buffer) | Measured(dims: Dimensions)

  /** The stage a failure happened in; each wraps the engine's error with
      its own context. */
  datatype Stage = ExtractBase | SizeForeground | CreateWatermark | CreateFinal

  datatype ThumbnailError = ThumbnailError(stage: Stage, cause: EngineError)

  /** The calls made, in order, and the outcome: the final image or an error. */
  datatype Run = Run(calls: seq<Call>, result: Result<Buffer, ThumbnailError>)

  /** The engine's answer to a call. Sizes are answered by `Measured` and
      every other call by `Image`. */
  function Answer(e: Engine, c: Call): (a: Result<Reply, EngineError>)
    ensures a.Success? && c.SizeCall? ==> a.value.Measured?
    ensures a.Success? && !c.SizeCall? ==> a.value.Image?
  {
    match c
    case ExtractCall(image, rect) =>
      (match e.extract(image, rect)
       case Success(b) => Success(Image(b))
       case Failure(err) => Failure(err))
    case SizeCall(src) =>
      (match e.size(src)
       case Success(d) => Success(Measured(d))
       case Failure(err) => Failure(err))
    case ProcessCall(src, options) =>
      (match e.process(src, options)
       case Success(b) => Success(Image(b))
       case Failure(err) => Failure(err))
  }

  /** The stage the call at position `i` of a run belongs to. */
  function StageAt(i: nat): Stage
    requires i < 4
  {
    [ExtractBase, SizeForeground, CreateWatermark, CreateFinal][i]
  }

  /** The context each stage of thumbnailer.go puts before the engine's
      error. */
  function Context(s: Stage): string {
    match s
    case ExtractBase => "extract baseImg"
    case SizeForeground => "get size of foreground"
    case CreateWatermark => "create watermark"
    case CreateFinal => "create final image"
  }

  /** The text `fmt.Errorf` gives the wrapped error: the stage's context,
      a colon, then the engine's error. */
  function Message(err: ThumbnailError): (m: string)
    ensures |m| == |Context(err.stage)| + 2 + |err.cause|
    ensures m[..|Context(err.stage)|] == Context(err.stage)
    ensures m[|Context(err.stage)|..|Context(err.stage)| + 2] == ": "
    ensures m[|m| - |err.cause|..] == err.cause
  {
    Context(err.stage) + ": " + err.cause
  }

  /** The message names the stage: the same engine error reported by two
      different stages gives two different texts. */
  lemma {:induction false} MessageStageDistinct(s1: Stage, s2: Stage, cause: EngineError)
    requires s1 != s2
    ensures Message(ThumbnailError(s1, cause)) != Message(ThumbnailError(s2, cause))
  {
    var m1 := Message(ThumbnailError(s1, cause));
    var m2 := Message(ThumbnailError(s2, cause));
    // The contexts differ in their first character, except "create
    // watermark" and "create final image", which differ in their eighth.
    var k := if (s1.CreateWatermark? && s2.CreateFinal?) || (s1.CreateFinal? && s2.CreateWatermark?) then 7 else 0;
    assert m1[k] == Context(s1)[k];
    assert m2[k] == Context(s2)[k];
    assert Context(s1)[k] != Context(s2)[k];
  }

  /** Options of the foreground render: the fitted size converted to int,
      enlargement allowed, nothing else set. */
  function ForegroundOptions(l: Layout): Options {
    Options(Trunc(l.width), Trunc(l.height), Centre, 0.0, false, 0, true, None)
  }

  /** Options of the final render: fill the canvas by a centred crop, blur,
      encode at quality 95, and lay the foreground over it at the fitted
      offset converted to int. */
  function CompositeOptions(l: Layout, foreground: Buffer): Options {
    Options(CanvasWidth, CanvasHeight, Centre, BlurSigma, true, Quality, true,
            Some(WatermarkImage(Trunc(l.left), Trunc(l.top), foreground)))
  }

  function Thumbnail(e: Engine, image: Buffer, rect: ExtractRect): (r: Run)
    // the first call extracts the requested rectangle from the upload
    ensures 1 <= |r.calls| <= 4
    ensures r.calls[0] == ExtractCall(image, rect)
    // a call is made only after every earlier call succeeded
    ensures forall i :: 0 <= i < |r.calls| - 1 ==> Answer(e, r.calls[i]).Success?
    // every later call works on the extracted region
    ensures forall i :: 1 <= i < |r.calls| ==>
      !r.calls[i].ExtractCall? && r.calls[i].src == Answer(e, r.calls[0]).value.buf
    // then the size is asked for, then the foreground and the final image are rendered
    ensures 2 <= |r.calls| ==> r.calls[1].SizeCall?
    ensures 3 <= |r.calls| ==>
      var l := Fit(Answer(e, r.calls[1]).value.dims);
      r.calls[2] == ProcessCall(r.calls[2].src,
        Options(Trunc(l.width), Trunc(l.height), Centre, 0.0, false, 0, true, None))
    ensures 4 == |r.calls| ==>
      var l := Fit(Answer(e, r.calls[1]).value.dims);
      var foreground := Answer(e, r.calls[2]).value.buf;
      r.calls[3] == ProcessCall(r.calls[3].src,
        Options(400, 300, Centre, 15.0, true, 95, true,
                Some(WatermarkImage(Trunc(l.left), Trunc(l.top), foreground))))
    // the run stops at the first failing call and reports it with its stage
    ensures r.result.Failure? <==> Answer(e, r.calls[|r.calls| - 1]).Failure?
    ensures r.result.Failure? ==>
      r.result.error == ThumbnailError(StageAt(|r.calls| - 1), Answer(e, r.calls[|r.calls| - 1]).error)
    // on success the result is exactly the final render
    ensures r.result.Success? ==>
      |r.calls| == 4 && r.result.value == Answer(e, r.calls[3]).value.buf
  {
    var c0 := ExtractCall(image, rect);
    match e.extract(image, rect)
    case Failure(err) => Run([c0], Failure(ThumbnailError(ExtractBase, err)))
    case Success(base) =>
      var c1 := SizeCall(base);
      match e.size(base)
      case Failure(err) => Run([c0, c1], Failure(ThumbnailError(SizeForeground, err)))
      case Success(dims) =>
        var l := Fit(dims);
        var c2 := ProcessCall(base, ForegroundOptions(l));
        match e.process(base, ForegroundOptions(l))
        case Failure(err) => Run([c0, c1, c2], Failure(ThumbnailError(CreateWatermark, err)))
        case Success(wm) =>
          var c3 := ProcessCall(base, CompositeOptions(l, wm));
          match e.process(base, CompositeOptions(l, wm))
          case Failure(err) => Run([c0, c1, c2, c3], Failure(ThumbnailError(CreateFinal, err)))
          case Success(final) => Run([c0, c1, c2, c3], Success(final))
  }

  /** The engine accepts every call the pipeline makes. */
  predicate EngineAccepts(e: Engine, image: Buffer, rect: ExtractRect) {
    && e.extract(image, rect).Success?
    && var base := e.extract(image, rect).value;
    && e.size(base).Success?
    && var l := Fit(e.size(base).value);
    && e.process(base, ForegroundOptions(l)).Success?
    && e.process(base, CompositeOptions(l, e.process(base, ForegroundOptions(l)).value)).Success?
  }

  /** `Thumbnail` yields an image exactly when no engine call fails, and a
      failed run yields no image. */
  lemma ThumbnailSucceedsIff(e: Engine, image: Buffer, rect: ExtractRect)
    ensures Thumbnail(e, image, rect).result.Success? <==> EngineAccepts(e, image, rect)
  {
  }

  /** A rejected rectangle or undecodable upload stops the run at the first
      call, with the engine's error wrapped as an extraction failure. */
  lemma ExtractFailureStops(e: Engine, image: Buffer, rect: ExtractRect)
    requires e.extract(image, rect).Failure?
    ensures Thumbnail(e, image, rect) ==
      Run([ExtractCall(image, rect)], Failure(ThumbnailError(ExtractBase, e.extract(image, rect).error)))
  {
  }

  /** The run records every call it depends on: an engine that answers the
      recorded calls the same way yields the same run. */
  lemma {:induction false} ThumbnailDependsOnlyOnCalls(e: Engine, e': Engine, image: Buffer, rect: ExtractRect)
    requires forall c :: c in Thumbnail(e, image, rect).calls ==> Answer(e', c) == Answer(e, c)
    ensures Thumbnail(e', image, rect) == Thumbnail(e, image, rect)
  {
  }

  /** An 800x600 region fills the canvas exactly: the foreground is
      rendered at 400x300 and laid over the background at (0, 0). */
  lemma Scenario800x600(e: Engine, image: Buffer, rect: ExtractRect)
    requires e.extract(image, rect).Success?
    requires e.size(e.extract(image, rect).value) == Success(Dimensions(800, 600))
    requires e.process(e.extract(image, rect).value, ForegroundOptions(Fit(Dimensions(800, 600)))).Success?
    ensures var r := Thumbnail(e, image, rect);
      && |r.calls| == 4
      && r.calls[2].options.width == 400 && r.calls[2].options.height == 300
      && r.calls[3].options.watermark == Some(WatermarkImage(0, 0, Answer(e, r.calls[2]).value.buf))
  {
  }
}

# Thumbnailer geometry and pipeline

A Dafny model of `Thumbnail` in `thumbnailer.go` of gvimp. It takes an uploaded image and a crop
rectangle and returns a 400×300 thumbnail. It crops the region and measures it. It then renders the
region aspect-preserved as a foreground that fills the canvas along one axis. Last, it renders the same
region again as a blurred, centre-cropped 400×300 background with the foreground laid over it as a
watermark at the centring offset.

The model has four modules:

- `Wrappers` (`wrappers.dfy`): `Option` and `Result`, standing in for Go's `(value, error)` returns.
- `Truncation` (`truncation.dfy`): Go's `int(float64)` conversion, which truncates toward zero, over `real`.
- `Geometry` (`geometry.dfy`): the fit. It uses exact real arithmetic on the measured size of the region.
  Its contract says that the layout keeps the aspect ratio, fills the selected axis and is centred.
  `FitDetermined` shows that those three properties fix the layout uniquely.
- `Thumbnailer` (`thumbnailer.go`'s `Thumbnail`, in `thumbnailer.dfy`): the staged pipeline.
  - The image engine is a parameter `Engine` with three operations (extract, size, process).
  - `Thumbnail` returns the calls it made along with its result. Its contract can therefore state the
    call order, the options passed to each call, the short-circuit on the first failing call, and that
    the watermark offset is the truncated fitted offset.

The fit has a defect. The pipeline keeps the fit as written, and `Geometry.FitLetterbox` is the
corrected fit (see "## Findings"). The branch test is
`width > height`, not a comparison against 4:3. So a landscape region narrower than 4:3 is scaled to
the full 400 width. Its height then exceeds 300 and its top offset is negative, between -50 and 0, so the
foreground overflows the canvas above and below. `Geometry.FitLandscapeOverflow` and
`Geometry.FitInsideCanvasIff` state this. `Geometry.FitOverflowExample` gives a 7×6 region whose top
offset of about -21.43 reaches the engine as -21.

Two concrete regions show what thumbnailer.go computes:

- A 100×100 region is not landscape, so it gives a 300×300 foreground at left 50 and top 0 (`Geometry.FitSquare`).
- A 300×800 region gives a width of 112.5 and a left offset of 143.75, which reach the engine as 112 and 143
  (`Geometry.FitPortraitExample`).

## Model

| member | source | states |
|---|---|---|
| `Truncation.Trunc` | thumbnailer.go:42-43 | `int(x)` lies between `x` and zero and is less than one away from `x` |
| `Truncation.TruncUnique` | thumbnailer.go:42-43 | no other integer meets `Trunc`'s bounds, so the contract defines the conversion |
| `Truncation.TruncNegate` | thumbnailer.go:61-62 | truncation is symmetric about zero: `int(-x) == -int(x)` |
| `Truncation.TruncNegativeRoundsUp` | thumbnailer.go:61-62 | a negative non-integral offset is rounded up to one above its floor |
| `Truncation.TruncOfInt` | thumbnailer.go:42-43 | an integral value is passed through unchanged |
| `Truncation.TruncDiv` | thumbnailer.go:42-43 | the integer reference for `int()` of an exact quotient: the quotient rounded toward zero, for negative dividends too (`TruncOfQuotient` proves the two equal) |
| `Truncation.TruncOfQuotient` | thumbnailer.go:42-43 | `int(a/b)` of an exact quotient equals the truncating integer quotient of `a` and `b` |
| `Geometry.Fit` | thumbnailer.go:26-39 | the layout keeps the region's aspect ratio, spans the full canvas width (landscape) or height (otherwise), is centred on both axes, and has positive size |
| `Geometry.FitDetermined` | thumbnailer.go:31-39 | a layout has those three properties if and only if it is the one `Fit` computes |
| `Geometry.FitLandscape` | thumbnailer.go:31-34 | if width > height: width 400, left 0, height `h*400/w` below 400, top `(300 - height)/2` |
| `Geometry.FitPortrait` | thumbnailer.go:35-38 | if height >= width: height 300, top 0, width `w*300/h` at most 300, left `(400 - width)/2`, from 50 up to but not including 200 |
| `Geometry.FitSquare` | thumbnailer.go:31-38 | a square takes the second branch: 300×300 at left 50, top 0 |
| `Geometry.FitLandscapeTopIff` | thumbnailer.go:31-34 | for a landscape region, top >= 0 if and only if `4*h <= 3*w` |
| `Geometry.FitLandscapeOverflow` | thumbnailer.go:31-34 | a landscape region narrower than 4:3 is scaled taller than 300, with a top between -50 and 0, and overflows the canvas |
| `Geometry.FitInsideCanvasIff` | thumbnailer.go:31-38 | the foreground lies inside the canvas if and only if the region is not a landscape narrower than 4:3 |
| `Geometry.FitOverflowExample` | thumbnailer.go:31-34 | a 7×6 region overflows; its top of -150/7 is converted to -21, not -22 |
| `Geometry.FitPortraitExample` | thumbnailer.go:35-38 | a 300×800 region is 112.5 wide at left 143.75, converted to 112 and 143 |
| `Geometry.TruncatedAspect` | thumbnailer.go:31-43 | in exact arithmetic, the integer render size keeps the aspect ratio: the cross products differ by less than the longer side of the region |
| `Geometry.RenderedFit` | thumbnailer.go:31-62 | in exact arithmetic, the four integers handed to the engine equal the fit computed in integers with truncating division: a landscape region gets height `400*h/w` and top `(300*w - 400*h)/(2*w)`; otherwise width `300*w/h` and left `(400*h - 300*w)/(2*h)` |
| `Geometry.RenderedLandscape` | thumbnailer.go:31-34 | the landscape case of `RenderedFit` |
| `Geometry.LandscapeHeight` | thumbnailer.go:32 | a landscape region is rendered `400*h/w` high, truncated |
| `Geometry.LandscapeTop` | thumbnailer.go:34 | a landscape region's top is `(300*w - 400*h)/(2*w)`, truncated toward zero even when negative |
| `Geometry.RenderedPortrait` | thumbnailer.go:35-38 | the other case of `RenderedFit` |
| `Geometry.PortraitWidth` | thumbnailer.go:36 | a region at least as high as wide is rendered `300*w/h` wide, truncated |
| `Geometry.PortraitLeft` | thumbnailer.go:38 | its left offset is `(400*h - 300*w)/(2*h)`, truncated |
| `Geometry.ScaledTrunc` | thumbnailer.go:32-43 | `int(n * (k/m))`, the scaled side as thumbnailer.go writes it, equals the truncating integer quotient of `k*n` by `m` |
| `Geometry.MarginTrunc` | thumbnailer.go:34-62 | `int((c - n*(k/m))/2)`, the centring margin as thumbnailer.go writes it, equals the truncating integer quotient of `c*m - k*n` by `2*m` |
| `Geometry.RenderedOffset` | thumbnailer.go:31-62 | in exact arithmetic, the watermark is at left 0 with a top from -49 to 149 for a landscape region, or at top 0 with a left from 50 to 199 otherwise |
| `Geometry.FitLetterbox` | thumbnailer.go:31-39 | the corrected fit: it keeps the aspect ratio, is centred, spans the full width or the full height, and always lies inside the 400×300 canvas |
| `Geometry.FitLetterboxAgrees` | thumbnailer.go:31-39 | the corrected fit equals the as-written fit exactly when the as-written fit stays inside the canvas |
| `Geometry.TruncatedCentred` | thumbnailer.go:31-62 | after conversion to int, the margins plus the size add up to 398-400 horizontally and 298-301 vertically |
| `Thumbnailer.Message` | thumbnailer.go:14-68 | a stage error's text is the stage's context (`extract baseImg`, `get size of foreground`, `create watermark`, `create final image`), then `: `, then the engine's error text |
| `Thumbnailer.MessageStageDistinct` | thumbnailer.go:14-68 | the same engine error reported by two different stages gives two different texts, so the text names the stage |
| `Thumbnailer.Thumbnail` | thumbnailer.go:13-71 | calls are made in the order extract, size, foreground render, final render; later calls use the extracted region; the options passed are the fixed ones of thumbnailer.go (the final render: 400×300, centre gravity, crop, blur sigma 15, quality 95, enlarge); the watermark is the foreground at the truncated fitted offset; the run stops at the first failing call and reports its stage and error; on success the result is the final render |
| `Thumbnailer.ThumbnailSucceedsIff` | thumbnailer.go:13-71 | a thumbnail is produced if and only if the engine accepts all four calls |
| `Thumbnailer.ExtractFailureStops` | thumbnailer.go:14-17 | a failed extraction makes no further call and returns the wrapped extraction error |
| `Thumbnailer.ThumbnailDependsOnlyOnCalls` | thumbnailer.go:13-71 | an engine that answers the recorded calls the same way yields the same run, so the recorded calls are all the pipeline depends on |
| `Thumbnailer.Scenario800x600` | thumbnailer.go:26-65 | an 800×600 region gives a 400×300 foreground watermarked at (0, 0) |

## Left out

- main.go is not part of this model. It holds HTTP routing, multipart parsing, `strconv.Atoi` of the
  rectangle fields, static file serving, and writing, serving once and deleting the result file. All of it
  is I/O.
- The bimg/libvips engine (decoding, cropping, sizing, resizing, blurring, compositing, encoding) is a
  parameter. Pixels and codecs are not modelled, and neither is whether the engine accepts a zero or
  negative render size.
- float64 rounding is not modelled: the fit is computed in exact reals. In float64 a scaled side or a
  margin can land just below an integer and truncate one lower than the exact value. For example, at
  194×97, `int(height)` is 199 where the exact value is 200. At 73×73, `73*(300/73)` is slightly above 300,
  so `int(left)` is 49 where the exact value is 50.
- `Geometry.RenderedFit`, `Geometry.RenderedOffset` and `Geometry.TruncatedAspect` hold for the exact fit
  only. The Go program can differ from them by one in a truncated value, as in the examples above.
- Degenerate sizes are excluded by the type `Geometry.Pixels`, which requires every side to be above zero;
  thumbnailer.go makes no check. A region with both sides zero takes the second branch and computes
  `0 * (300/0)`, which is NaN, and converting NaN to int is implementation-defined. A region with one zero
  side gives a finite layout: 400×0 at top 150 when only the height is zero, or 0×300 at left 200 when
  only the width is zero. The model does not cover those cases either.
- Go's integer width is not modelled. Every value passed to `int(...)` lies between -50 and 400, far
  inside the int range.
- bimg's `Gravity` is modelled by name only. `GravityCentre` is its zero value, so the foreground call, which
  sets no gravity, is modelled as asking for `Centre`, as the final call does explicitly.
- `ExtractRect` fields are not validated, as in thumbnailer.go. Rejecting a bad rectangle is left to the
  engine's `extract`.
- Determinism of the fit needs no lemma: `Geometry.Fit` is a function, so equal inputs give equal layouts.

## Findings

| source | as written | input that shows it | evidently intended | confidence | as-written member | corrected member |
|---|---|---|---|---|---|---|
| thumbnailer.go:31 | the branch test is `width > height`, so any landscape region is scaled to the full 400 width | a 7×6 region: height 2400/7 ≈ 342.9, top -150/7 ≈ -21.4, so the foreground overflows the 300-high canvas | compare against the canvas's 4:3 (`3*width > 4*height`), so the foreground always fits inside the canvas | not executed; proved in the exact-real model | `Geometry.FitOverflowExample` | `Geometry.FitLetterbox` |

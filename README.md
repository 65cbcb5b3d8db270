# gif-creator: frame sequencing, edge centroid and image fading

gif-creator produces the frames of an animated GIF in two Go programs.

- `mandelbrot` renders a zoom into the Mandelbrot set. `main` runs two loops over frame numbers. The first loop zooms in: it divides the escape radius and lowers the iteration budget `maxIteration` before each frame. The second loop zooms back out.
  - Each frame goes through `createOne`. It raises `colorStep` to at least the budget and builds a colour ramp from a named palette with `interpolateColors`. It renders only when the ramp is non-empty.
  - `render` starts one goroutine per row, and the rows run concurrently. A column whose smoothed iteration value passes the ramp guard gets a colour from `linearInterpolation` of two adjacent ramp colours. The row records its "edge" columns: those whose colour differs from the previous painted colour. It also computes the integer means of the edge columns and of the row index. The means of all rows give the pixel centroid `middX, middY`, which re-centres `xpos`/`ypos` when it lies strictly inside the image.
- `fader` blends a list of images into one another. A counter rises by `opacity_step_procent` per frame. `counter / 100` picks the pair of adjacent images and `counter % 100` the opacity of the second one.

The Dafny model covers the integer and control logic of both programs.

- `colour.dfy` (module `Colour`): `uint32ToRgba` and `linearInterpolation` on 32-bit words. Wrap-around is written out as `% 2^32`.
- `sums.dfy` (module `Sums`): `sum`, Go's truncating integer division, and the facts about integer means that the centroid needs.
- `rows.dfy` (module `Rows`): one row of `render` on a two-dimensional pixel array, the row loop, and the centroid reduction. The model paints the rows one after another, top to bottom.
- `palettes.dfy` (module `Palettes`): the loops of `interpolateColors`, over a palette table given as a parameter.
- `mandelbrot.dfy` (module `Mandelbrot`): the package-level state of the program as a class `Animation`. Its methods are `main`'s two loops, `createOne` and `render`. The floating-point collaborators (the escape iteration, the plane mapping, the sample positions, `cosineInterpolation`) are parameters bundled in `Env`. The few float comparisons and divisions the model keeps are computed on exact reals; "## Left out" lists them.
- `fader.dfy` (module `Fader`): `create_sequence`. Each `create_image` call is recorded as a `Blend` value.

A Go panic is a result, not a precondition: `render` dividing by zero, and `create_sequence` indexing past the end of its images. The class keeps three ghost logs, one entry per `createOne` call:
- `inputs`: the view, colour step and size the call rendered from;
- `outcomes`: what became of the call: no image, panic, or encoded image;
- `centres`: the centre `(xpos, ypos)` the call left.

The predicate `Animation.Faithful` states that every logged outcome and centre is the one its input determines (`FrameOutcome`, `CentreAfter`). Every method that draws keeps it.

The predicate `Mandelbrot.Chained` states how the calls of a run follow one another. Take a run of calls logged from entry `base` on, starting from a centre and colour step `start`. It has one new `inputs` and `centres` entry per call. Each input renders its call's frame and budget, with the colour step raised to that budget. The first call renders from `start`'s centre. Every later call renders from the centre the previous call left. `HandedOn` is what the run hands on: the last centre and colour step. `Mandelbrot.ChainedCalls` spells this out entry by entry.

Two behaviours of the code are worth stating plainly:

- A row without edge columns divides by zero at `mandelbrot.go:220`. The model reports a panic.
- With `numOfFades = N`, `main` calls `createOne` for frames `1 .. N` and then `N+2 .. 2N`: `2N - 1` calls when `N ≥ 1`, and none when `N = 0`. Frame `N+1` is never drawn. `Mandelbrot.ScheduleShape` states this. A frame is written only when its call encodes an image; `Mandelbrot.ImageFramesIff` states which frames are written.

## Model

| member | source | states |
|---|---|---|
| Colour.ToRgba | code/go/mandelbrot/mandelbrot.go:294-300 | the result is opaque, and its red, green and blue are bytes 3, 2 and 1 of the word: the word is exactly those bytes above its own low byte |
| Colour.UnpackPacked | code/go/mandelbrot/mandelbrot.go:294-300 | unpacking a word built from bytes r, g, b and any low byte gives back (r, g, b, 0xff) |
| Colour.LowByteIgnored | code/go/mandelbrot/mandelbrot.go:294-300 | two words unpack to the same colour if and only if they agree above the low byte |
| Colour.LinearInterpolation | code/go/mandelbrot/mandelbrot.go:263-265 | with uint32 wrap-around throughout, mu = 0 gives c1 and mu = 1 gives c2 |
| Sums.Sum | code/go/mandelbrot/mandelbrot.go:250-256 | the loop's result is the sum of the sequence |
| Sums.SumBounds | code/go/mandelbrot/mandelbrot.go:250-256 | values in [0, w) sum to between 0 and (w - 1) times the length |
| Sums.MeanBounds | code/go/mandelbrot/mandelbrot.go:220 | the integer mean of a non-empty sequence of values in [0, w) lies in [0, w) |
| Sums.ConstantMean | code/go/mandelbrot/mandelbrot.go:221 | the integer mean of n > 0 copies of a value, negative ones included, is that value |
| Sums.MeanIndex | code/go/mandelbrot/mandelbrot.go:227 | the integer mean of the row indices 0 .. h - 1 is (h - 1) / 2 |
| Rows.ShadeOf | code/go/mandelbrot/mandelbrot.go:205-208 | a column is painted if and only if its ramp index leaves room for the next colour; a ramp of fewer than two colours paints nothing; a weight of 0 or 1 paints exactly the ramp colour at the index or at the index + 1 |
| Rows.EdgesAscending | code/go/mandelbrot/mandelbrot.go:198-213 | the recorded edge columns are strictly increasing and lie in [0, width) |
| Rows.EdgeIff | code/go/mandelbrot/mandelbrot.go:205-214 | a column is recorded if and only if it passes the guard and its colour differs from the previous painted colour |
| Rows.ColumnUpdatesPrevious | code/go/mandelbrot/mandelbrot.go:205-214 | a painted column sets previousColor to its colour, and a skipped one leaves it as it was |
| Rows.SkippedColumn | code/go/mandelbrot/mandelbrot.go:205-218 | a column the guard rejects records no edge and leaves previousColor unchanged |
| Rows.FirstColumn | code/go/mandelbrot/mandelbrot.go:197-214 | column 0 is an edge if and only if it passes the guard and its colour is not 0 |
| Rows.ScanRow | code/go/mandelbrot/mandelbrot.go:195-219 | xs are the edge columns of the row and every ys entry is iy; each pixel of row iy is the column's colour when the guard passes and the earlier pixel otherwise; every other row is unchanged |
| Rows.RenderRow | code/go/mandelbrot/mandelbrot.go:193-222 | the row's means exist exactly when it has an edge; then they are the integer means of xs and ys, xMean lies in [0, width) and yMean is the row index iy; the pixel guarantees are those of the scan |
| Rows.PaintRows | code/go/mandelbrot/mandelbrot.go:191-225 | the row loop succeeds exactly when every row has an edge; xMiddle and yMiddle are then the rows' means in row order, and every pixel is its shade over the fresh image |
| Rows.Reduce | code/go/mandelbrot/mandelbrot.go:226-227 | middX and middY are the integer means of the row means, and the reduction fails exactly when the centroid divides by zero |
| Rows.CentroidBounds | code/go/mandelbrot/mandelbrot.go:220-227 | whatever the image, a centroid has middX in [0, width) and middY equal to (height - 1) / 2 |
| Palettes.AutoStep | code/go/mandelbrot/mandelbrot.go:129-131 | the position given to an unspecified stop lies in [0, 1] |
| Palettes.AppendStops | code/go/mandelbrot/mandelbrot.go:128-143 | the stop loop appends every stop's position and packed colour, in order |
| Palettes.BracketSearch | code/go/mandelbrot/mandelbrot.go:148-157 | for one sample position, the loop appends the interpolation for every adjacent stop pair that brackets it, in stop order |
| Palettes.SampleRamp | code/go/mandelbrot/mandelbrot.go:145-159 | the sample loop appends the bracket results of every sample position, in order |
| Palettes.AppendUnpacked | code/go/mandelbrot/mandelbrot.go:161-168 | the unpacking loop appends every interpolated word as an opaque colour, in order |
| Palettes.InterpolateColors | code/go/mandelbrot/mandelbrot.go:116-174 | the returned colours are the ramp defined by the palette-table fold |
| Palettes.NoMatchResolvesEmpty | code/go/mandelbrot/mandelbrot.go:123-127 | palettes whose keyword differs from the name accumulate nothing |
| Palettes.NoMatchEmptyRamp | code/go/mandelbrot/mandelbrot.go:116-174 | an unknown palette name yields an empty ramp |
| Palettes.ResolveOpaque | code/go/mandelbrot/mandelbrot.go:161-168 | every colour accumulated over any prefix of the table has alpha 0xff |
| Palettes.RampOpaque | code/go/mandelbrot/mandelbrot.go:161-168 | every colour of the ramp has alpha 0xff |
| Palettes.ResolveAfterSole | code/go/mandelbrot/mandelbrot.go:123-126 | palettes after the only matching one leave the accumulated lists unchanged |
| Palettes.SoleMatchRamp | code/go/mandelbrot/mandelbrot.go:116-174 | when exactly one palette carries the name, the ramp is that palette's ramp wherever it sits in the table |
| Palettes.VisitAgain | code/go/mandelbrot/mandelbrot.go:146-168 | a second palette with the same name adds no samples, because the step list no longer matches its size, but it repeats the unpacking of the samples already taken |
| Palettes.RepeatedKeywordRamp | code/go/mandelbrot/mandelbrot.go:116-174 | two non-empty palettes under one name give the first palette's ramp twice |
| Mandelbrot.FirstPassAt | code/go/mandelbrot/mandelbrot.go:69-81 | the k-th call of the first loop draws frame k + 1 with the budget lowered k + 1 times by iterFactor |
| Mandelbrot.SecondPassAt | code/go/mandelbrot/mandelbrot.go:83-98 | the k-th call of the second loop draws frame n + 2 + k with the budget raised k + 1 times by iterFactor |
| Mandelbrot.ScheduleShape | code/go/mandelbrot/mandelbrot.go:68-98 | main makes 2n - 1 calls (none when n = 0), for frames 1 .. n and then n + 2 .. 2n in strictly increasing order; frame n + 1 is never drawn |
| Mandelbrot.CrashPrefix | code/go/mandelbrot/mandelbrot.go:68-98 | the calls made before a panic in either loop are a prefix of the full schedule |
| Mandelbrot.CentreRow | code/go/mandelbrot/mandelbrot.go:226-235 | whatever the image, an encoded frame moves ypos to the plane position of the middle row (height - 1) / 2 when the image is at least three rows high and keeps it otherwise; a frame that is not encoded keeps xpos and ypos |
| Mandelbrot.ImageFramesIff | code/go/mandelbrot/mandelbrot.go:108-110 | a frame number is written if and only if some createOne call for that frame encoded its image |
| Mandelbrot.ImageFramesAppend | code/go/mandelbrot/mandelbrot.go:68-98 | the frames written by two runs of calls in a row are those of the first run followed by those of the second |
| Mandelbrot.EncodedAscending | code/go/mandelbrot/mandelbrot.go:69-98 | the frames written by a run of consecutive frame numbers ascend strictly and stay inside the run |
| Mandelbrot.FirstPassEncoded | code/go/mandelbrot/mandelbrot.go:69-81 | the first loop writes frame k + 1 exactly when its k-th call encoded its image |
| Mandelbrot.SecondPassEncoded | code/go/mandelbrot/mandelbrot.go:83-98 | the second loop writes frame n + 2 + k exactly when its k-th call encoded its image |
| Mandelbrot.BudgetRestored | code/go/mandelbrot/mandelbrot.go:69-98 | lowering the budget n times and raising it n - 1 times leaves it one iterFactor below its start, and unchanged when n = 0 |
| Mandelbrot.LogsAppend | code/go/mandelbrot/mandelbrot.go:101-114 | logging one more createOne call whose outcome and centre are those its input determines keeps the logs faithful |
| Mandelbrot.LatestCall | code/go/mandelbrot/mandelbrot.go:101-114 | in faithful logs the latest call's outcome and centre are the ones its input determines |
| Mandelbrot.ChainStep | code/go/mandelbrot/mandelbrot.go:75-80 | logging one more call, rendered from what a chained run hands on, makes the run one call longer, and the run then hands on that call's centre and colour step |
| Mandelbrot.ChainJoin | code/go/mandelbrot/mandelbrot.go:68-98 | a run of calls, followed by a second run that starts from what the first hands on, is one run of the joined calls, as long as the first run's log entries are kept; the joined run hands on what the second hands on |
| Mandelbrot.ChainedCalls | code/go/mandelbrot/mandelbrot.go:75-114 | a chained run adds exactly one `inputs` and `centres` entry per call; each input has its call's frame, budget and the image size; the first renders from the starting centre and the colour step raised to its budget; every later one renders from the previous call's centre and the previous colour step raised to its budget; the run hands on the last centre and colour step |
| Mandelbrot.MainAfter | code/go/mandelbrot/mandelbrot.go:68-98 | the first-pass calls followed by the second-pass calls, the second loop running only when the first made all its calls, are a prefix of the schedule (all of it when both loops finish), one call per outcome; the frames the two loops write are exactly those of the calls that encoded, in call order, and they ascend and never include frame n + 1 |
| Mandelbrot.Animation.constructor | code/go/mandelbrot/mandelbrot.go:18-31 | the state starts with the given flag values, no frame drawn and nothing written |
| Mandelbrot.Animation.Render | code/go/mandelbrot/mandelbrot.go:176-243 | on a fresh width x height image: when the centroid exists, every pixel is its shade over transparent, xpos and ypos move to the centroid exactly when it is strictly inside the image, and the frame is written; a division by zero moves nothing and writes nothing |
| Mandelbrot.Animation.CreateOne | code/go/mandelbrot/mandelbrot.go:101-114 | colorStep becomes max(colorStep, maxIteration), so it is never lowered; the call is recorded; ok is false exactly when the frame's outcome is a panic; the frame is written exactly when the outcome is an encoded image; xpos and ypos become the re-centred position of the frame |
| Mandelbrot.Animation.DrawFrame | code/go/mandelbrot/mandelbrot.go:75-80 | one loop turn sets the budget and frame number and raises colorStep to at least the budget; it logs the view it rendered from (the old centre, that frame and that budget), its outcome and the centre it left, and the logs stay faithful, so the outcome and the new centre are exactly createOne's; ok is false exactly when the outcome is a panic; it writes that frame exactly when the outcome is an encoded image |
| Mandelbrot.Animation.NextFrame | code/go/mandelbrot/mandelbrot.go:75-80 | one loop turn as the next call of a run: the run's calls, outcomes and written frames each grow by that call, the logs stay faithful, and the chain of calls the logs hold grows by that call, rendered from the centre the previous call left |
| Mandelbrot.Animation.ZoomIn | code/go/mandelbrot/mandelbrot.go:68-81 | the first loop makes the first-pass calls in order, lowering maxIteration by iterFactor before each; the logs stay faithful; ok is true exactly when none of its calls panicked, and a stop before numOfFades calls ends on a panicking call and no call before it panicked (`PanicOnlyLast`); the frames written are exactly those of its calls that encoded, ascending within 1 .. numOfFades; its calls are chained from the centre and colour step on entry, so each adds one `inputs` and `centres` entry with its frame and budget, the first renders from the old `(xpos, ypos)`, each later one from the previous call's centre, and `(xpos, ypos)` ends as the last call's centre |
| Mandelbrot.Animation.ZoomOut | code/go/mandelbrot/mandelbrot.go:83-98 | the second loop makes the second-pass calls, raising maxIteration by iterFactor each time; the logs stay faithful; ok is true exactly when none of its calls panicked, and an early stop ends on a panicking call and no call before it panicked; the frames written are exactly those of its calls that encoded, ascending from numOfFades + 2; the earlier entries of `inputs` and `centres` are kept; its calls are chained from the centre and colour step on entry, so each adds one `inputs` and `centres` entry with its frame and budget, the first renders from the old `(xpos, ypos)`, each later one from the previous call's centre, and `(xpos, ypos)` ends as the last call's centre |
| Mandelbrot.Animation.Zoom | code/go/mandelbrot/mandelbrot.go:68-98 | the two loops of main, with the logs faithful throughout; the ghost results `calls` and `outs` are what `frames` and `outcomes` gain; completed is true exactly when no call panicked, and otherwise the last call panicked and no call before it did, so the run stops at the first panic; a completed run makes exactly the scheduled calls and changes maxIteration by -iterFactor in total (nothing when numOfFades = 0); any run makes a prefix of the schedule, and the frames written are exactly those of the calls that encoded, strictly increasing and never frame numOfFades + 1; all its calls are one chain from the centre and colour step on entry: one new `inputs` entry per new `frames` entry with that frame and budget, the first rendered from the old `(xpos, ypos)`, each later one from the previous new centre, and `(xpos, ypos)` ends as the last new centre |
| Mandelbrot.Animation.Run | code/go/mandelbrot/mandelbrot.go:62-99 | width and height scale by the smoothness, and then everything Zoom states holds of the whole run, the chain of calls included, on the scaled image size |
| Fader.PairInRange | code/go/fader/fader.go:43-54 | a counter below (len - 1) * 100 names a pair of images that both exist |
| Fader.BlendAt | code/go/fader/fader.go:43-48 | frame k + 1 is numbered k + 1 and has an opacity below 100 |
| Fader.FramesToDrawBracket | code/go/fader/fader.go:41-55 | the ceiling count F satisfies (F - 1) * step < (len - 1) * 100 <= F * step |
| Fader.DrawnIff | code/go/fader/fader.go:41-55 | frame k + 1 is drawn if and only if k * step < (len - 1) * 100 |
| Fader.CreateSequence | code/go/fader/fader.go:34-58 | with fewer than two images the first turn panics before any call; otherwise the loop makes exactly ceil((len - 1) * 100 / step) calls, and the k-th uses images[k*step/100] and the next image, opacity k*step % 100 and frame number k + 1 |
| Fader.FirstBlend | code/go/fader/fader.go:39-48 | the first frame blends images 0 and 1 at opacity 0 and is numbered 1 |
| Fader.OpacityRises | code/go/fader/fader.go:43-51 | within one image pair the opacity rises by exactly the step from frame to frame |
| Fader.PairAdvances | code/go/fader/fader.go:43-51 | with a step of at most 100 the pair index never decreases and never skips a pair |
| Fader.EveryPairBlended | code/go/fader/fader.go:41-55 | with a step of at most 100 every adjacent pair of images is blended in some drawn frame |
| Fader.AnnouncedFallsShort | code/go/fader/fader.go:37-55 | the printed total equals the number of frames drawn when the step divides (len - 1) * 100, and is one less otherwise |
| Fader.DefaultImagesAnnounced | code/go/fader/fader.go:15-37 | for the three default images at step 3, 67 frames are drawn and 66 are announced |

## Left out

- Floating-point numerics. These are opaque parameters in `Mandelbrot.Env`: the escape iteration `mandelIteration`, the log smoothing and the pixel-to-plane mapping, the float-to-int and float-to-uint32 conversions in front of the ramp guard, `cosineInterpolation`, the plane bounds, `convertToRelative`, and the accumulated sample positions `i += factor` of `interpolateColors`. The sample loop `for i := 0.0; i <= 1; i += factor` (`mandelbrot.go:147`) never ends when `colorStep < 0`, and never ends when `factor` is below half an ulp of `i`, i.e. when `colorStep` is about `2^54` or more. The model's sample positions `Env.samples` are a finite sequence, so it assumes that the loop ends.
- The escape radius is divided or multiplied by `radiusStep` once per frame. The model does not compute it: it is a function of the frame number, folded into `View.frame` for the opaque bounds and cells.
- Exact reals where Go uses float64. The bracket test `i >= steps[j] && i < steps[j+1]` and the weight `(i-min)/(max-min)` of `interpolateColors` (`mandelbrot.go:149,154`) are computed on exact reals, as is `colorStep < float64(maxIteration)` in `createOne` (`mandelbrot.go:103`). Rounding can change a float64 bracket test at a stop boundary; the model does not capture that.
- Rows.Cell: the ramp index is a `nat`. When `norm` is 0 the iteration is -Inf, and Go's `int(+Inf)` is platform-dependent. On amd64 it is negative, passes the guard at `mandelbrot.go:205` and makes the read at line 206 panic. The model does not capture that panic.
- Palettes.AutoStep: computes the two-decimal truncation of an automatic stop position exactly, on rationals. Go computes `(index + 1) / count * 100` in float64 first, which can round below an exact integer and so truncate 0.01 lower.
- Concurrency. `render` starts one goroutine per row and appends to `xMiddle`/`yMiddle` without synchronisation. The model runs the rows in row order, so it has neither that data race nor any other order of the means.
- `rgbaToUint` and the packing inside `interpolateColors`. They depend on `color.RGBA.RGBA()` of the Go library; the model takes the packing as the parameter `pack`.
- The palette table of `github.com/esimov/gobrot/palette`. It is not part of this model and is passed in as a sequence of palettes.
- I/O and plumbing: flag parsing in `init`, folder creation in `initialise`, `os.Create` and `png.Encode` (a written frame is recorded by its number), `time.Sleep`, `fmt.Printf`, and the `%04d` file-name formatting beyond the frame number.
- `create_image` of the fader: decoding the two images, the opacity mask and the drawing and encoding are left out. Each call is recorded as a `Blend`.
- Go's 64-bit `int` overflow. All `int` arithmetic is unbounded; the counters and sums stay far below 2^63 for any image the programs can hold. `uint32` arithmetic is modelled with explicit wrap-around.
- Animation.ZoomIn, Animation.Zoom, Animation.Run: they state that the earlier entries of `outcomes`, `frames` and `written` are kept. They state every new entry of the ghost logs `inputs` and `centres` through `Chained`, but not that the earlier entries of these two logs are kept; only `Animation.ZoomOut` states that, because `Zoom` needs it to join the two loops' chains. The extra sequence reasoning makes these proofs too expensive for the solver.
- A panic ends the Go program. In the model a panic ends the run with a false result, and `PanicOnlyLast` states that no earlier call of the run panicked; what the operating system does afterwards is not modelled.
- Animation.ZoomIn, Animation.ZoomOut, Animation.Zoom, Animation.Run: the methods may change `outputFrame`, the frame number in the output file name, but their contracts do not state its final value, which is the frame of the last call made. `DrawFrame` and `NextFrame` do state it for each call. Carrying it through the two loops made these proofs too expensive for the solver.

## Findings

| source | as written | input that shows it | evidently intended | confidence | as-written member | corrected member |
|---|---|---|---|---|---|---|
| code/go/fader/fader.go:37 | the total printed as "out of N" is `(len - 1) * 100 / opacity_step_procent`, the floor of the quotient | the default images `1.png, 2.png, 1.png` at step 3: 67 frames are drawn but the progress line says "out of 66" | the total is the number of frames the loop draws, the ceiling of the quotient | not executed | Fader.AnnouncedFallsShort | Fader.FramesToDraw |

# QR scanner core, modelled in Dafny

This project models the sequential logic of an Android QR-code / barcode
scanner plugin built around the ZXing engine, and proves properties of it.
The parts modelled are:

- **Region of interest** (`AreaRect`, `area_rect_analyzer.dfy`). A camera
  frame is cropped in one of three ways before it reaches the decoder:
  - the whole frame, when the full-area flag is set;
  - an explicit rectangle, used as given;
  - otherwise a centred square whose side is `(int)(min(W, H) * ratio)`,
    shifted by the configured offsets.

  Java's truncating `/` and `(int)` casts are modelled explicitly
  (`Common.TruncDiv`, `Common.TruncReal`).
- **Static-image decode chain** (`CodeReader`, `code_reader.dfy`). The
  identity, inverted and (when supported) rotated luminance sources are
  tried in order. Each is tried with the hybrid binarizer and then the
  global-histogram binarizer, and the chain stops at the first result.
  Every exception is swallowed, and the reader is reset exactly once. The
  reader is a class with a ghost log of its calls. The chain is proved
  against a reference schedule of the six possible attempts. The
  `compressBitmap` sample size is a pure function with its bounds proved.
- **Scan session** (`CameraScan`, `default_camera_scan.dfy`). The
  `Scanner` class holds the session's fields and covers:
  - the per-frame gate;
  - the single-assignment result gate and its intercept-and-reopen path;
  - the rate-limited auto-zoom, which fires when the code spans less than
    a quarter of the shorter screen side, at most once per 100 ms;
  - tap-to-focus recognition;
  - the flashlight button's reaction to light events.

  Beep, zoom-in, callback, finish and focus requests go to a ghost event
  log. Each method is proved against a pure step function, and the
  session-level properties are lemmas over those functions.
- **Light-sensor throttle** (`LightSensor`, `light_manager.dfy`). A
  `LightManager` class accepts at most one reading per 200 ms. Each
  accepted reading is reported raw and then classified as dark (at or
  below the dark threshold, which takes precedence) or bright (100 lux or
  more). The verdict carries the dark threshold, not the reading. Both
  threshold setters overwrite the dark threshold; the model keeps that as
  written.
- **Code rasterisation** (`CodeCreator`, `code_creator.dfy`):
  - the nested loops that paint a bit matrix into a row-major ARGB
    buffer, an in-place array method proved against `Rendered`;
  - the null and size guards of the logo and text decorations;
  - the defaults that the `createQRCode` / `createBarCode` overloads pass
    down their delegation chains.

The ZXing engine and writers, Android's bitmap decoding, the clock, touch
events, the torch state, the consumer callback's verdict and canvas
failures are parameters (oracles). Lux values, the logo ratio and touch
coordinates are reals.

## Model

| member | source | states |
|---|---|---|
| Common.TruncDivVersusEuclidean | android/src/main/java/com/vincent/qr_scanner/decoder/AreaRectAnalyzer.java:57-58 | Java's `/` agrees with floor division on a non-negative dividend and is one more on a negative dividend that is not a multiple |
| Common.TruncReal | android/src/main/java/com/vincent/qr_scanner/decoder/AreaRectAnalyzer.java:56 | the `(int)` cast truncates toward zero: the result is within one of the value, on the zero side |
| AreaRect.NewAnalyzer | android/src/main/java/com/vincent/qr_scanner/decoder/AreaRectAnalyzer.java:19-38 | a present config is copied field by field; a null config gives the default hints, multi-decode on, the default ratio and zero offsets |
| AreaRect.AnalyzeArea | android/src/main/java/com/vincent/qr_scanner/decoder/AreaRectAnalyzer.java:42-62 | the three regions: whole frame when full-area is set; the explicit rectangle verbatim (no clamping); otherwise the size x size square at `(W-size)/2 + h`, `(H-size)/2 + v` with truncating division |
| AreaRect.Analyze | android/src/main/java/com/vincent/qr_scanner/decoder/AreaRectAnalyzer.java:42-62 | there is no error or null path of its own: in each of the three cases the frame is handed to the region decoder with that case's region, and its answer is returned |
| AreaRect.FullAreaIgnoresRectRatioAndOffsets | android/src/main/java/com/vincent/qr_scanner/decoder/AreaRectAnalyzer.java:43-47 | with the full-area flag the region is (0, 0, W, H) whatever the rectangle, ratio and offsets |
| AreaRect.NullConfigUsesDefaultSquare | android/src/main/java/com/vincent/qr_scanner/decoder/AreaRectAnalyzer.java:22-24 | with a null config the centred square is always used, with the default ratio and no offsets |
| AreaRect.WorkedExample | android/src/main/java/com/vincent/qr_scanner/decoder/AreaRectAnalyzer.java:56-60 | a 1000x2000 frame at ratio 0.5 with no offsets gives the 500x500 square at (250, 750) |
| AreaRect.OversizeRatioTruncates | android/src/main/java/com/vincent/qr_scanner/decoder/AreaRectAnalyzer.java:56-58 | a ratio above 1 gives a negative margin, and truncation centres it at -2 where floor division would give -3 |
| AreaRect.SideWithinShorterSide | android/src/main/java/com/vincent/qr_scanner/decoder/AreaRectAnalyzer.java:56 | a ratio in [0, 1] gives a square side between 0 and the shorter frame side |
| AreaRect.SquareInsideFrame | android/src/main/java/com/vincent/qr_scanner/decoder/AreaRectAnalyzer.java:56-59 | with zero offsets and 0 <= ratio <= 1 the square lies inside the frame |
| AreaRect.CentredMargins | android/src/main/java/com/vincent/qr_scanner/decoder/AreaRectAnalyzer.java:57-58 | centring leaves margins that differ by at most one pixel, the extra one on the far side |
| AreaRect.SquareIsCentred | android/src/main/java/com/vincent/qr_scanner/decoder/AreaRectAnalyzer.java:56-60 | the computed square is centred in both directions to within one pixel |
| CodeReader.Reader.constructor | android/src/main/java/com/vincent/qr_scanner/decoder/CodeReader.java:116 | a fresh reader holds no hints and has made no calls |
| CodeReader.Reader.SetHints | android/src/main/java/com/vincent/qr_scanner/decoder/CodeReader.java:118 | the reader holds the hints; the call is logged |
| CodeReader.Reader.DecodeWithState | android/src/main/java/com/vincent/qr_scanner/decoder/CodeReader.java:174 | the engine's outcome for this attempt under the held hints; the attempt is logged |
| CodeReader.Reader.Reset | android/src/main/java/com/vincent/qr_scanner/decoder/CodeReader.java:131 | the reset is logged |
| CodeReader.DecodeInternal | android/src/main/java/com/vincent/qr_scanner/decoder/CodeReader.java:169-186 | hybrid first, global histogram only after a hybrid miss or exception; an exception of the second attempt gives null; the attempts made are logged in order |
| CodeReader.DecodeSources | android/src/main/java/com/vincent/qr_scanner/decoder/CodeReader.java:117-129 | the try block: the result and the logged attempts are those of the reference chain, including when a source construction throws |
| CodeReader.ParseCodeResult | android/src/main/java/com/vincent/qr_scanner/decoder/CodeReader.java:114-135 | the result is the chain's; the reader's calls are set-hints, the chain's attempts, one reset |
| CodeReader.ParseCodeResultFromFile | android/src/main/java/com/vincent/qr_scanner/decoder/CodeReader.java:146-167 | the same for the sampled file bitmap, including a null bitmap |
| CodeReader.InSampleSize | android/src/main/java/com/vincent/qr_scanner/decoder/CodeReader.java:198-212 | the sample size is at least 1; it is 1 when both sides fit; with positive bounds it is the larger of the truncated side/bound quotients of the oversize sides |
| CodeReader.CompressBitmap | android/src/main/java/com/vincent/qr_scanner/decoder/CodeReader.java:193-216 | after the bounds pass the file is decoded once, at sample size 1 when both sides fit and otherwise at the larger truncated quotient; a null decode is returned as is |
| CodeReader.ParseCodeResultWithHints | android/src/main/java/com/vincent/qr_scanner/decoder/CodeReader.java:91-93 | the file chain with the default 480x640 bounds |
| CodeReader.ParseCodeWithHints | android/src/main/java/com/vincent/qr_scanner/decoder/CodeReader.java:77-83 | the result's text, or null when there is no result |
| CodeReader.ParseCode | android/src/main/java/com/vincent/qr_scanner/decoder/CodeReader.java:67-69 | the text with all-format hints and default bounds |
| CodeReader.ParseQRCodeResultSized | android/src/main/java/com/vincent/qr_scanner/decoder/CodeReader.java:58-60 | the file chain with QR-code hints and the given bounds |
| CodeReader.ParseQRCodeResult | android/src/main/java/com/vincent/qr_scanner/decoder/CodeReader.java:47-49 | the same with the default bounds |
| CodeReader.ParseQRCode | android/src/main/java/com/vincent/qr_scanner/decoder/CodeReader.java:34-40 | the QR result's text, or null |
| CodeReader.ParseCodeFromBitmap | android/src/main/java/com/vincent/qr_scanner/decoder/CodeReader.java:100-106 | the text of the in-memory chain with all-format hints, or null |
| CodeReader.SweepFollowsPlan | android/src/main/java/com/vincent/qr_scanner/decoder/CodeReader.java:119-126 | the attempts are a prefix of the plan; all but the last missed; a result exists iff the last hit and is its result unchanged; with no construction fault a miss runs the whole plan |
| CodeReader.ChainFollowsPlan | android/src/main/java/com/vincent/qr_scanner/decoder/CodeReader.java:152-158 | the same for the whole chain, with the plan identity, inverted and, only when rotation is supported, rotated, each hybrid then histogram |
| CodeReader.AttemptBounds | android/src/main/java/com/vincent/qr_scanner/decoder/CodeReader.java:156-158 | at most six attempts, and a rotated attempt only when rotation is supported |
| CodeReader.HybridBeforeGlobalHistogram | android/src/main/java/com/vincent/qr_scanner/decoder/CodeReader.java:172-181 | every histogram attempt directly follows a missed hybrid attempt on the same source |
| CodeReader.IdentityHitShortCircuits | android/src/main/java/com/vincent/qr_scanner/decoder/CodeReader.java:120-123 | when the identity source decodes, the other sources are never tried |
| CodeReader.FaultsAreMisses | android/src/main/java/com/vincent/qr_scanner/decoder/CodeReader.java:182-184 | an engine that throws where another reports not-found gives the same chain: exceptions never propagate |
| CodeReader.ResetExactlyOnce | android/src/main/java/com/vincent/qr_scanner/decoder/CodeReader.java:130-132 | in the reader's log the hints come first and the reset exactly once, last |
| CodeReader.SampledSidesWithinTwiceRequest | android/src/main/java/com/vincent/qr_scanner/decoder/CodeReader.java:201-212 | after sampling each side is less than twice its bound |
| CodeReader.SampleSizeFitsOneSide | android/src/main/java/com/vincent/qr_scanner/decoder/CodeReader.java:201-212 | a size above 1 still leaves one side at least `size` times its bound |
| CameraScan.FinderSpan | android/src/main/java/com/vincent/qr_scanner/camera/DefaultCameraScan.java:273-279 | the span is the distance of the first two points, or the largest of the three pairwise distances when there are three or more |
| CameraScan.HeldOrDisabledIgnoresResult | android/src/main/java/com/vincent/qr_scanner/camera/DefaultCameraScan.java:262-264 | a held result or disabled analysis makes a result a no-op |
| CameraScan.OpenGateHandlesResult | android/src/main/java/com/vincent/qr_scanner/camera/DefaultCameraScan.java:265-312 | through an open gate the events are, in order, one beep, the zoom-in, the callback and the finish; one beep first; one zoom-in iff QR, auto-zoom on, strictly past the 100 ms cooldown, two or more points and span*4 < min(screen sides), and then the timestamp is now; the callback exactly once either way; finish unless intercepted; an intercept reopens the gate |
| CameraScan.AutoZoomRateLimited | android/src/main/java/com/vincent/qr_scanner/camera/DefaultCameraScan.java:270-292 | two results at most 100 ms apart cause at most one zoom-in |
| CameraScan.GateSingleAssignment | android/src/main/java/com/vincent/qr_scanner/camera/DefaultCameraScan.java:300-305 | after a non-intercepted result every later result is ignored; after an intercept the next one is handled |
| CameraScan.MovesDecideClickFlag | android/src/main/java/com/vincent/qr_scanner/camera/DefaultCameraScan.java:179-181 | moves only rewrite the click flag, and the last move decides it against the down point |
| CameraScan.TapGesture | android/src/main/java/com/vincent/qr_scanner/camera/DefaultCameraScan.java:170-189 | down, moves, up requests focus once, at the up point, iff the last move stayed within 20 px and the up came within 150 ms of the down |
| CameraScan.MultiPointerIgnored | android/src/main/java/com/vincent/qr_scanner/camera/DefaultCameraScan.java:171 | multi-pointer events change nothing and request nothing |
| CameraScan.FlashlightReaction | android/src/main/java/com/vincent/qr_scanner/camera/DefaultCameraScan.java:154-167 | darkness shows a hidden button, selected as the torch is; brightness hides and deselects a visible button unless the torch is on; no button, no change |
| CameraScan.TorchOnKeepsButtonVisible | android/src/main/java/com/vincent/qr_scanner/camera/DefaultCameraScan.java:161-164 | while the torch is on a visible button stays visible through any events |
| CameraScan.DarkReadingShowsButton | android/src/main/java/com/vincent/qr_scanner/camera/DefaultCameraScan.java:154-160 | an accepted dark reading makes a bound button visible |
| CameraScan.Scanner.constructor | android/src/main/java/com/vincent/qr_scanner/camera/DefaultCameraScan.java:132-168 | analysis on, no result held, timestamps 0, no button; the light manager created, registered when a sensor exists and listened to |
| CameraScan.Scanner.StartCamera | android/src/main/java/com/vincent/qr_scanner/camera/DefaultCameraScan.java:201-208 | a default analyzer is installed when none is set |
| CameraScan.Scanner.AnalyzeFrame | android/src/main/java/com/vincent/qr_scanner/camera/DefaultCameraScan.java:236-244 | the analyzer runs iff analysis is on, no result is held and an analyzer is set; only a non-null result is posted |
| CameraScan.Scanner.ScanResultCallback | android/src/main/java/com/vincent/qr_scanner/camera/DefaultCameraScan.java:300-313 | an intercepting callback reopens the gate; otherwise the callback (if set) and then the finish (if there is an activity) |
| CameraScan.Scanner.HandleAutoZoom | android/src/main/java/com/vincent/qr_scanner/camera/DefaultCameraScan.java:289-298 | zooms iff distance*4 < min(screen sides), then stamps the time, logs the zoom and delivers; otherwise nothing changes |
| CameraScan.Scanner.HandleAnalyzeResult | android/src/main/java/com/vincent/qr_scanner/camera/DefaultCameraScan.java:261-287 | the new gate fields and logged events are those of the step function whose properties the lemmas above prove |
| CameraScan.Scanner.SetAnalyzeImage | android/src/main/java/com/vincent/qr_scanner/camera/DefaultCameraScan.java:328-331 | sets the analysis flag and nothing else |
| CameraScan.Scanner.SetAnalyzer | android/src/main/java/com/vincent/qr_scanner/camera/DefaultCameraScan.java:339-342 | sets (or clears) the analyzer and nothing else |
| CameraScan.Scanner.SetOnScanResultCallback | android/src/main/java/com/vincent/qr_scanner/camera/DefaultCameraScan.java:449-452 | sets (or clears) the callback and nothing else |
| CameraScan.Scanner.Release | android/src/main/java/com/vincent/qr_scanner/camera/DefaultCameraScan.java:461-472 | analysis off, button dropped, light sensor unregistered |
| CameraScan.Scanner.BindFlashlightView | android/src/main/java/com/vincent/qr_scanner/camera/DefaultCameraScan.java:475-481 | binds the button and enables the light sensor iff a button is bound |
| CameraScan.Scanner.SetDarkLightLux | android/src/main/java/com/vincent/qr_scanner/camera/DefaultCameraScan.java:483-488 | the light manager's dark threshold becomes the value |
| CameraScan.Scanner.SetBrightLightLux | android/src/main/java/com/vincent/qr_scanner/camera/DefaultCameraScan.java:490-495 | the light manager's dark threshold becomes the value, as the manager's setter does |
| CameraScan.Scanner.OnLightReading | android/src/main/java/com/vincent/qr_scanner/camera/DefaultCameraScan.java:154-167 | the light manager steps on the reading and the button reacts to each event it emits |
| CameraScan.Scanner.HandlePreviewViewClickTap | android/src/main/java/com/vincent/qr_scanner/camera/DefaultCameraScan.java:170-189 | the tap fields and the focus request are those of the tap step function |
| LightSensor.Classify | android/src/main/java/com/vincent/qr_scanner/utils/LightManager.java:66-70 | dark iff lux <= dark threshold; bright iff above it and >= 100; no verdict strictly in between; dark wins |
| LightSensor.DisabledIsInert | android/src/main/java/com/vincent/qr_scanner/utils/LightManager.java:55 | a disabled sensor changes nothing and emits nothing |
| LightSensor.TooSoonIsDropped | android/src/main/java/com/vincent/qr_scanner/utils/LightManager.java:56-59 | a reading less than 200 ms after the last is dropped and the timestamp kept |
| LightSensor.AcceptedMovesTimestamp | android/src/main/java/com/vincent/qr_scanner/utils/LightManager.java:60-62 | an accepted reading moves the timestamp even without a listener, and then nothing is emitted |
| LightSensor.AcceptedEvents | android/src/main/java/com/vincent/qr_scanner/utils/LightManager.java:62-70 | the raw lux first, then at most one verdict, whose second argument is the dark threshold, not the reading |
| LightSensor.FeedSpacing | android/src/main/java/com/vincent/qr_scanner/utils/LightManager.java:56-60 | over any stream of readings the accepted ones are at least 200 ms apart |
| LightSensor.BrightSetterMovesDarkThreshold | android/src/main/java/com/vincent/qr_scanner/utils/LightManager.java:87-89 | after the bright setter the dark test uses the new value and the bright test still uses 100 |
| LightSensor.LightManager.constructor | android/src/main/java/com/vincent/qr_scanner/utils/LightManager.java:34-38 | enabled, dark threshold 45, timestamp 0, no listener, not registered |
| LightSensor.LightManager.Register | android/src/main/java/com/vincent/qr_scanner/utils/LightManager.java:40-44 | registers only when a light sensor exists |
| LightSensor.LightManager.Unregister | android/src/main/java/com/vincent/qr_scanner/utils/LightManager.java:46-50 | unregisters only when a light sensor exists |
| LightSensor.LightManager.OnSensorChanged | android/src/main/java/com/vincent/qr_scanner/utils/LightManager.java:54-73 | the new state and emitted events are those of the throttle step function |
| LightSensor.LightManager.SetDarkLightLux | android/src/main/java/com/vincent/qr_scanner/utils/LightManager.java:79-81 | overwrites the dark threshold only |
| LightSensor.LightManager.SetBrightLightLux | android/src/main/java/com/vincent/qr_scanner/utils/LightManager.java:87-89 | also overwrites the dark threshold only |
| LightSensor.LightManager.SetLightSensorEnabled | android/src/main/java/com/vincent/qr_scanner/utils/LightManager.java:104-106 | sets the enabled flag only |
| LightSensor.LightManager.SetOnLightSensorEventListener | android/src/main/java/com/vincent/qr_scanner/utils/LightManager.java:112-114 | sets (or clears) the listener only |
| CodeCreator.RowMajor | android/src/main/java/com/vincent/qr_scanner/encoder/CodeCreator.java:145-148 | index y*w+x is in the buffer and maps back to (x, y) |
| CodeCreator.RenderedAt | android/src/main/java/com/vincent/qr_scanner/encoder/CodeCreator.java:145-151 | the pixel at (x, y) is the code colour if the module is set, white otherwise |
| CodeCreator.RenderedRoundTrip | android/src/main/java/com/vincent/qr_scanner/encoder/CodeCreator.java:145-151 | with a code colour other than white, reading a pixel back gives its module |
| CodeCreator.RenderedTwoTone | android/src/main/java/com/vincent/qr_scanner/encoder/CodeCreator.java:341-346 | every pixel is the code colour or white |
| CodeCreator.FillPixels | android/src/main/java/com/vincent/qr_scanner/encoder/CodeCreator.java:142-153 | a width*height buffer holding exactly the row-major rendering of the matrix (the barcode loop at lines 337-346 is the same loop) |
| CodeCreator.AddLogo | android/src/main/java/com/vincent/qr_scanner/encoder/CodeCreator.java:178-217 | null src or a zero src side gives null; null or zero-sized logo gives src; otherwise null iff the canvas fails, else src's size with the logo centred and scaled so its width is `ratio` of src's width |
| CodeCreator.AddCode | android/src/main/java/com/vincent/qr_scanner/encoder/CodeCreator.java:369-403 | null src gives null; null or empty text gives src; a non-positive side gives null; otherwise null iff the canvas fails, else src's width and height + textSize + 2*offset, the text centred at (width/2, height + textSize/2 + offset) |
| CodeCreator.TextBaselineInStrip | android/src/main/java/com/vincent/qr_scanner/encoder/CodeCreator.java:351-352 | with offset textSize/2 the strip adds textSize + 2*(textSize/2) rows and the baseline lies inside it |
| CodeCreator.CreateQRCode | android/src/main/java/com/vincent/qr_scanner/encoder/CodeCreator.java:137-169 | the result is the heightPix-square rendering of the writer's matrix, with the logo added when given, or null on a writer failure |
| CodeCreator.QrWithoutLogo | android/src/main/java/com/vincent/qr_scanner/encoder/CodeCreator.java:141-163 | without a logo the QR bitmap is heightPix x heightPix and each pixel tells its module |
| CodeCreator.QrWithLogo | android/src/main/java/com/vincent/qr_scanner/encoder/CodeCreator.java:159-161 | for a positive size, a logo is drawn over the raster at `ratio` of its width; null iff the canvas fails |
| CodeCreator.QrWriterFailure | android/src/main/java/com/vincent/qr_scanner/encoder/CodeCreator.java:164-168 | a WriterException gives null |
| CodeCreator.CreateBarCode | android/src/main/java/com/vincent/qr_scanner/encoder/CodeCreator.java:326-359 | null for empty content or a writer failure; otherwise the rendering at the matrix's own size, with the text strip when asked |
| CodeCreator.EmptyBarContent | android/src/main/java/com/vincent/qr_scanner/encoder/CodeCreator.java:327-329 | null or empty content gives null whatever the writer does |
| CodeCreator.BarWithText | android/src/main/java/com/vincent/qr_scanner/encoder/CodeCreator.java:335-353 | with text shown: the bars unchanged on top, the content in the code colour, height grown by textSize + 2*(textSize/2) |
| CodeCreator.ResolveQr | android/src/main/java/com/vincent/qr_scanner/encoder/CodeCreator.java:37-125 | every QR overload reaches the general one with no logo, ratio 0.2, the UTF-8 / H / margin 1 hints and black unless given |
| CodeCreator.ResolveBar | android/src/main/java/com/vincent/qr_scanner/encoder/CodeCreator.java:226-312 | every barcode overload reaches the general one with CODE_128, null hints, no text, text size 40 and black unless given |
| CodeCreator.CreateQRCodeWith | android/src/main/java/com/vincent/qr_scanner/encoder/CodeCreator.java:37-125 | any QR overload produces the general result on its resolved arguments |
| CodeCreator.CreateBarCodeWith | android/src/main/java/com/vincent/qr_scanner/encoder/CodeCreator.java:226-312 | any barcode overload produces the general result on its resolved arguments |

## Left out

- Floating point: frame ratios, lux values, touch coordinates and the logo scale factor are reals. Float rounding and NaN are not modelled.
- Common.TruncReal: the `(int)` cast's saturation at the int range is not modelled.
- AreaRect.AnalyzeArea: the centring sums `(width - size)/2 + offset` are unbounded here. 32-bit overflow of those sums, for huge offsets, is not modelled.
- CameraScan.Scanner.AnalyzeFrame: closing the image proxy, which the source does on every path, is not modelled.
- CameraScan.Scanner.OnLightReading: requires the light manager to be registered, because Android delivers readings only to a registered listener.
- CameraScan.Scanner.HandleAnalyzeResult: reads the clock once per call. The source reads it twice, once for the cooldown check and once for the stored zoom time, so the stored time may be slightly later.
- CameraScan.Scanner.HandleAnalyzeResult: `distance * 4` and the distance cast are unbounded here. The distance oracle returns the already-truncated point distance. 32-bit overflow is not modelled.
- CameraScan.Scanner.HandlePreviewViewClickTap: logs a focus request even when no camera is bound. The source then skips the metering call. The touch distance is compared squared, standing in for the float `MathUtils.distance`.
- CameraScan.Scanner.StartCamera: camera-provider binding, the preview and analysis use cases, `stopCamera`, zoom arithmetic, torch control and the scale gesture are not modelled. Zoom-in is a logged event and the torch state is a parameter.
- The LiveData `postValue` handoff is not modelled. A posted result reaches the session by calling `HandleAnalyzeResult`, with the consumer callback's verdict as a parameter.
- Concurrency (`volatile` fields, `synchronized`, the analysis executor, backpressure) is not modelled. Calls are sequential.
- The auto-zoom switch is fixed when the session is built. Its setter lives in the CameraScan base class, which is not part of this model.
- BeepManager is not part of this model. The beep is a logged event, and `setPlayBeep`/`close` are not modelled.
- CodeReader: the ZXing reader, binarizers and luminance-source transforms are an engine oracle. A source construction that throws is a set of failing transforms.
- CodeReader.CompressBitmap: Android's file decoding is an oracle given the computed sample size. BitmapFactory's rounding of that size to a power of two is not modelled.
- CodeReader.InSampleSize: the float quotient is exact here. Float rounding of sides above 2^24 is not modelled.
- CodeCreator: the QR and multi-format writers are an oracle returning null for a WriterException. Unchecked exceptions from the writers or `Bitmap.createBitmap` propagate in the source and are not modelled; these arise for empty QR content and for zero or negative sizes.
- CodeCreator.QrWithLogo: stated for positive sizes only. At size 0, `Bitmap.createBitmap` throws before the logo is considered.
- CodeCreator.CreateQRCode: `heightPix` is a natural number, so the negative-size exception path is not modelled. `width * height` overflow is not modelled either.
- CodeCreator.AddLogo, CodeCreator.AddCode: canvas drawing is a description of what is drawn, not pixels. A canvas failure is a parameter.
- DecodeConfig, DecodeFormatManager, ImageAnalyzer, MultiFormatAnalyzer, CameraScan, CameraConfig, BeepManager, MathUtils, CaptureActivity and QrScannerPlugin are not part of this model. Their constants and getters are parameters: default ratio, default hints, hint sets, the region decoder and point distances.

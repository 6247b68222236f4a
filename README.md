# jfxtools core, modelled in Dafny

This project models the core of *jfxtools*, a set of JavaFX helper libraries. It covers three
parts.

- **Native rendering canvas.** A JavaFX node (`NativeRenderingCanvas`) shows frames that a C
  renderer draws into a shared, double-buffered pixel buffer. Resizing, dragging and scrolling
  derive a new renderer viewport from the current one. `renderAction` reallocates the native
  buffer when the size changed, moves the view and renders into the next frame slot.
  `renderUpdate` rebinds the image to a new buffer and shows the rendered slot. In
  asynchronous mode a coalescing rendering service sits in between. The C side keeps its
  state in globals and frees a retired buffer one reallocation late.
- **AWT image bridge.** `AWTImage` wraps an AWT raster in a JavaFX pixel buffer. An update
  runs a callback, and the rectangle the callback returns becomes the region to refresh.
- **JAR processors.** These are command-line tools over the `jar` tool.
  - `ModuleChecker` compares the services a JAR declares in its module descriptor with
    those in `META-INF/services/` and reports each JAR as modular or non-modular.
  - `FXMLChecker` collects the classes imported by the FXML files in JARs.
  - `NativeArtifactChecker` lists native libraries inside JARs.
  - `JARProcessorRunner` selects a processor and drives its
    `initialize`/`start`/`process`/`finish` lifecycle.

Files and modules:

| file | module | models |
|---|---|---|
| wrappers.dfy | Wrappers | `Option` and `Result` |
| strings.dfy | JavaStrings | `String.trim`, `Scanner` tokens, `String.lines`, `replace`, `replaceFirst`, `replaceAll("\\.", "/")` |
| viewport.dfy | Viewports | the canvas viewport value (`withDeltaLocation`, `withSizeIncrement`) |
| native_renderer.dfy | NativeRendering | the C renderer as a class over a `bv32` array |
| rendering_canvas.dfy | RenderingCanvas | the canvas and its rendering service |
| awt_image.dfy | AwtImages | `AWTImage` |
| jar_environment.dfy | JarEnvironment | the `jar` tool, JAR archives on disk, `AbstractJARProcessor.jarFile` |
| module_checker.dfy | ModuleChecking | `ModuleChecker` |
| fxml_checker.dfy | FxmlChecking | `FXMLChecker` |
| native_artifact_checker.dfy | NativeArtifactChecking | `NativeArtifactChecker` |
| jar_processor_runner.dfy | JarProcessorRunning | `JARProcessorRunner` |

Classes whose fields the source updates in place are Dafny classes with the same fields:
`NativeRenderer`, `RenderingService`, `NativeRenderingCanvas`, `AWTImage`, `CheckResult`,
`ModuleChecker`, `FxmlChecker`, `NativeArtifactChecker` and `Runner`. Each method is specified
against a pure function, and the properties are proved about that function.

- The processors' per-line loops are folds: `ProvidesFold`, `ServicesFold`, `FxmlFold` and
  `ArtifactFold`.
- A whole `ModuleChecker.check` is the function `CheckSpec`.
- The rendering service's state transitions are `Requested`, `TaskStarted` and
  `HandledSuccess`.

The outside world is passed in as parameters:

- The `jar` tool is a `JarTool`, which maps a file path to exit status and output.
- The file system is a `Disk`: which paths are readable, and for each JAR whether it opens,
  its entries and whether its manifest names an automatic module.
- Printed output is returned as values: `Report`s, sets of lines, the sequence of printed
  artifact lines, and the counter.
- `System.exit` is the `Exited(message)` outcome.
- The renderer and the image keep ghost traces of the calls they receive. Contracts use these
  traces to say which native calls were made.

## Model

| member | source | states |
|---|---|---|
| NativeRendering.CellIndex | jfxtools-canvas/src/main/c/de_mpmediasoft_jfxtools_canvas_NativeRenderer.c:54-57 | the cell `fbo_fill` writes for (x, y) lies inside the current slot's `view_width * view_height` cells |
| NativeRendering.NextIndexInRange | jfxtools-canvas/src/main/c/de_mpmediasoft_jfxtools_canvas_NativeRenderer.c:119-120 | advancing the slot index wraps around: the next index is `(index + 1) % buffers` and stays in range |
| NativeRendering.SlotsSize | jfxtools-canvas/src/main/c/de_mpmediasoft_jfxtools_canvas_NativeRenderer.c:97-99 | every slot, starting at its index times the view size, lies inside the buffer, and the last slot ends exactly at the buffer's end |
| NativeRendering.RowInSlot | jfxtools-canvas/src/main/c/de_mpmediasoft_jfxtools_canvas_NativeRenderer.c:53-57 | a row of the view lies within the view's cells, so row writes never leave the slot |
| NativeRendering.CellBeforeRow | jfxtools-canvas/src/main/c/de_mpmediasoft_jfxtools_canvas_NativeRenderer.c:52-57 | cells of earlier rows come before row y, so painting row y leaves the painted rows intact |
| NativeRendering.CellAfterRow | jfxtools-canvas/src/main/c/de_mpmediasoft_jfxtools_canvas_NativeRenderer.c:52-57 | cells of later rows come after row y, so painting row y leaves the rows below untouched |
| NativeRendering.OtherRowsKept | jfxtools-canvas/src/main/c/de_mpmediasoft_jfxtools_canvas_NativeRenderer.c:52-57 | changing only row y of a slot leaves every cell of the slot's other rows as it was |
| NativeRendering.NativeRenderer.constructor | jfxtools-canvas/src/main/c/de_mpmediasoft_jfxtools_canvas_NativeRenderer.c:20-32 | the globals start at zero with no buffer, nothing freed and no call made |
| NativeRendering.NativeRenderer.CreateCanvas | jfxtools-canvas/src/main/c/de_mpmediasoft_jfxtools_canvas_NativeRenderer.c:84-110 | refused arguments (not 1 or 2 buffers, or not `INT_ARGB_PRE`) return null and change nothing; accepted ones reset the view, return a fresh buffer of `buffers` slots and free only the buffer retired one call earlier |
| NativeRendering.NativeRenderer.Reset | jfxtools-canvas/src/main/c/de_mpmediasoft_jfxtools_canvas_NativeRenderer.c:89-106 | the new globals: origin 0, the given size, slot 0, sizes in ints and bytes, the old buffer kept as backup, the previous backup freed |
| NativeRendering.NativeRenderer.Reallocate | jfxtools-canvas/src/main/c/de_mpmediasoft_jfxtools_canvas_NativeRenderer.c:101-105 | the previous backup is freed, the current buffer becomes the backup and a fresh buffer of the given size the current one; neither is freed |
| NativeRendering.NativeRenderer.MoveTo | jfxtools-canvas/src/main/c/de_mpmediasoft_jfxtools_canvas_NativeRenderer.c:112-115 | only the view origin changes |
| NativeRendering.NativeRenderer.FboClear | jfxtools-canvas/src/main/c/de_mpmediasoft_jfxtools_canvas_NativeRenderer.c:43-48 | every cell of the current slot becomes the opaque background colour, and cells of other slots keep their value |
| NativeRendering.NativeRenderer.FboFill | jfxtools-canvas/src/main/c/de_mpmediasoft_jfxtools_canvas_NativeRenderer.c:50-62 | every cell of the rectangle clipped to the view gets the opaque colour; the other cells of the view and all cells outside the current slot keep their values |
| NativeRendering.NativeRenderer.FboFillRow | jfxtools-canvas/src/main/c/de_mpmediasoft_jfxtools_canvas_NativeRenderer.c:55-59 | one row: the columns in range and inside the view get the colour; the row's other cells and all other rows keep their values |
| NativeRendering.NativeRenderer.Fill | jfxtools-canvas/src/main/c/de_mpmediasoft_jfxtools_canvas_NativeRenderer.c:64-73 | the rectangle is shifted into view coordinates; it is painted only when the clipping test holds, otherwise the buffer is unchanged; cells outside it never change |
| NativeRendering.NativeRenderer.Render | jfxtools-canvas/src/main/c/de_mpmediasoft_jfxtools_canvas_NativeRenderer.c:117-152 | without a buffer it returns 0 and changes nothing; otherwise it moves to the next slot, returns its index, fills that slot with frame colours only and leaves the other slot alone |
| NativeRendering.FirstFramesScenario | jfxtools-canvas/src/main/c/de_mpmediasoft_jfxtools_canvas_NativeRenderer.c:95-122 | after a two-buffer `createCanvas` the first frame goes to slot 1 and the second to slot 0 |
| Viewports.Viewport.WithDeltaLocation | jfxtools-canvas/src/main/java/de/mpmediasoft/jfxtools/canvas/NativeRenderingCanvas.java:132 | a moved viewport keeps its size and emptiness and is offset by exactly the delta |
| Viewports.Viewport.WithSizeIncrement | jfxtools-canvas/src/main/java/de/mpmediasoft/jfxtools/canvas/NativeRenderingCanvas.java:70-72 | keeps the origin; width and height are the smallest multiples of the increment that cover the pane |
| Viewports.RoundUpBounds | jfxtools-canvas/src/main/java/de/mpmediasoft/jfxtools/canvas/NativeRenderingCanvas.java:70-71 | rounding up gives a multiple of the increment, at least the pane size and less than one increment above it |
| Viewports.SizeIncrementExamples | jfxtools-canvas/src/main/java/de/mpmediasoft/jfxtools/canvas/NativeRenderingCanvas.java:101-103 | a 70x70 pane gets a 128x128 viewport, and a 64x1 pane gets 64x64 |
| RenderingCanvas.TruncToInt | jfxtools-canvas/src/main/java/de/mpmediasoft/jfxtools/canvas/NativeRenderingCanvas.java:132 | Java's `(int)` cast truncates toward zero: the result is within one of the argument, on the zero side |
| RenderingCanvas.TruncNegate | jfxtools-canvas/src/main/java/de/mpmediasoft/jfxtools/canvas/NativeRenderingCanvas.java:179 | `(int)-d == -(int)d`, so a pan by `(int)-delta` is the exact opposite of `(int)delta` |
| RenderingCanvas.ClassifyScroll | jfxtools-canvas/src/main/java/de/mpmediasoft/jfxtools/canvas/NativeRenderingCanvas.java:162-172 | a scroll is a zoom if and only if it is outside scroll brackets, not inertial, purely vertical, a single step and larger than one pixel |
| RenderingCanvas.ScrollTarget | jfxtools-canvas/src/main/java/de/mpmediasoft/jfxtools/canvas/NativeRenderingCanvas.java:174-180 | a zoom keeps the viewport; a pan keeps the size and moves the origin against the truncated deltas |
| RenderingCanvas.ScrollInBracketsPans | jfxtools-canvas/src/main/java/de/mpmediasoft/jfxtools/canvas/NativeRenderingCanvas.java:163 | any scroll inside scroll brackets pans |
| RenderingCanvas.ActionCalls | jfxtools-canvas/src/main/java/de/mpmediasoft/jfxtools/canvas/NativeRenderingCanvas.java:247-255 | `renderAction` calls `createCanvas` with the new size, two buffers and `INT_ARGB_PRE` when the size changed, then `moveTo` to the new origin, then `render` |
| RenderingCanvas.ReallocatesIffResized | jfxtools-canvas/src/main/java/de/mpmediasoft/jfxtools/canvas/NativeRenderingCanvas.java:248-251 | a `createCanvas` call is made if and only if width or height changed, so a pure move never reallocates |
| RenderingCanvas.LeavingEmptyResizes | jfxtools-canvas/src/main/java/de/mpmediasoft/jfxtools/canvas/NativeRenderingCanvas.java:73-74 | the first non-empty viewport after the empty one always allocates a buffer |
| RenderingCanvas.FrameOf | jfxtools-canvas/src/main/java/de/mpmediasoft/jfxtools/canvas/NativeRenderingCanvas.java:266-273 | the shown frame starts at the slot's first row and is `min(pane, viewport)` in each dimension: it fits in the slot and the pane, covers the whole pane when the viewport is at least as large, and the whole viewport when the pane is at least as large |
| RenderingCanvas.Requested | jfxtools-canvas/src/main/java/de/mpmediasoft/jfxtools/canvas/NativeRenderingCanvas.java:294-304 | an empty viewport changes nothing; otherwise it overwrites the dirty slot, a busy service stays busy and an idle one is scheduled; the mailbox invariant is kept |
| RenderingCanvas.TaskStarted | jfxtools-canvas/src/main/java/de/mpmediasoft/jfxtools/canvas/NativeRenderingCanvas.java:310-315 | the rendering task shifts new to old, takes the dirty viewport as new and empties the dirty slot |
| RenderingCanvas.HandledSuccess | jfxtools-canvas/src/main/java/de/mpmediasoft/jfxtools/canvas/NativeRenderingCanvas.java:285-291 | after success the service is rescheduled exactly when something arrived while rendering |
| RenderingCanvas.RequestAll | jfxtools-canvas/src/main/java/de/mpmediasoft/jfxtools/canvas/NativeRenderingCanvas.java:294-304 | repeated requests never take a busy service out of its state and keep the mailbox invariant |
| RenderingCanvas.LastNonEmptyCons | jfxtools-canvas/src/main/java/de/mpmediasoft/jfxtools/canvas/NativeRenderingCanvas.java:297-298 | the latest non-empty viewport of a sequence, computed from the front |
| RenderingCanvas.RequestsCoalesce | jfxtools-canvas/src/main/java/de/mpmediasoft/jfxtools/canvas/NativeRenderingCanvas.java:294-304 | while a task is scheduled or running, any requests leave only the latest non-empty viewport in the dirty slot |
| RenderingCanvas.NoRequestLost | jfxtools-canvas/src/main/java/de/mpmediasoft/jfxtools/canvas/NativeRenderingCanvas.java:285-315 | requests made during rendering reschedule the service on success, and the next rendering task renders the latest of them |
| RenderingCanvas.LastNonEmptyFound | jfxtools-canvas/src/main/java/de/mpmediasoft/jfxtools/canvas/NativeRenderingCanvas.java:297-298 | if any request was non-empty, the latest non-empty one exists |
| RenderingCanvas.IdleAfterSuccess | jfxtools-canvas/src/main/java/de/mpmediasoft/jfxtools/canvas/NativeRenderingCanvas.java:285-291 | with nothing new requested, success leaves the service idle |
| RenderingCanvas.RenderingService.constructor | jfxtools-canvas/src/main/java/de/mpmediasoft/jfxtools/canvas/NativeRenderingCanvas.java:278-283 | the service starts ready with all three viewports empty |
| RenderingCanvas.RenderingService.RenderIfIdle | jfxtools-canvas/src/main/java/de/mpmediasoft/jfxtools/canvas/NativeRenderingCanvas.java:294-304 | the new state is `Requested` of the old one |
| RenderingCanvas.RenderingService.TakeDirty | jfxtools-canvas/src/main/java/de/mpmediasoft/jfxtools/canvas/NativeRenderingCanvas.java:310-313 | the new state is `TaskStarted` of the old one |
| RenderingCanvas.NativeRenderingCanvas.ShownBufferLive | jfxtools-canvas/src/main/c/de_mpmediasoft_jfxtools_canvas_NativeRenderer.c:101-103 | the image is never bound to a buffer the renderer has freed: the delayed free keeps the shown buffer alive |
| RenderingCanvas.NativeRenderingCanvas.constructor | jfxtools-canvas/src/main/java/de/mpmediasoft/jfxtools/canvas/NativeRenderingCanvas.java:73-79 | a fresh renderer and service, the empty viewport, no pointer position, no image, no call made |
| RenderingCanvas.NativeRenderingCanvas.Render | jfxtools-canvas/src/main/java/de/mpmediasoft/jfxtools/canvas/NativeRenderingCanvas.java:235-244 | an empty viewport changes nothing: the canvas, the renderer (its state and its buffer's pixels) and the service are unchanged; otherwise it becomes current and is either rendered and shown at once (synchronous) or handed to the service (asynchronous) |
| RenderingCanvas.NativeRenderingCanvas.RenderAction | jfxtools-canvas/src/main/java/de/mpmediasoft/jfxtools/canvas/NativeRenderingCanvas.java:247-255 | the renderer receives exactly `ActionCalls`; a resize returns slot 1 and a fresh buffer, with the old one kept as backup; otherwise the buffer is unchanged |
| RenderingCanvas.NativeRenderingCanvas.RenderUpdate | jfxtools-canvas/src/main/java/de/mpmediasoft/jfxtools/canvas/NativeRenderingCanvas.java:258-275 | a changed buffer is rebound as a `width` x `numBuffers * height` image; the shown frame is `FrameOf` the slot |
| RenderingCanvas.NativeRenderingCanvas.OnTaskRun | jfxtools-canvas/src/main/java/de/mpmediasoft/jfxtools/canvas/NativeRenderingCanvas.java:310-315 | the service takes the dirty viewport and the renderer receives `ActionCalls` for it |
| RenderingCanvas.NativeRenderingCanvas.OnTaskSucceeded | jfxtools-canvas/src/main/java/de/mpmediasoft/jfxtools/canvas/NativeRenderingCanvas.java:285-291 | the rendering task's slot is shown for its viewport and the service moves to `HandledSuccess` |
| RenderingCanvas.NativeRenderingCanvas.OnResize | jfxtools-canvas/src/main/java/de/mpmediasoft/jfxtools/canvas/NativeRenderingCanvas.java:101-103 | renders the current origin with the pane size rounded up to the increment |
| RenderingCanvas.NativeRenderingCanvas.OnMousePressed | jfxtools-canvas/src/main/java/de/mpmediasoft/jfxtools/canvas/NativeRenderingCanvas.java:114-120 | a real press records the pointer; a synthesized one changes nothing; only the pointer fields may ever change |
| RenderingCanvas.NativeRenderingCanvas.OnMouseReleased | jfxtools-canvas/src/main/java/de/mpmediasoft/jfxtools/canvas/NativeRenderingCanvas.java:122-128 | a real release resets the pointer to (0, 0); a synthesized one changes nothing; only the pointer fields may ever change |
| RenderingCanvas.NativeRenderingCanvas.OnMouseDragged | jfxtools-canvas/src/main/java/de/mpmediasoft/jfxtools/canvas/NativeRenderingCanvas.java:130-139 | a real drag renders the viewport moved by the truncated pointer movement and records the new pointer; a synthesized drag changes nothing: no field of the canvas, renderer or service and no pixel |
| RenderingCanvas.NativeRenderingCanvas.OnScrollStarted | jfxtools-canvas/src/main/java/de/mpmediasoft/jfxtools/canvas/NativeRenderingCanvas.java:141-143 | enters scroll brackets; only the bracket flag may change |
| RenderingCanvas.NativeRenderingCanvas.OnScrollFinished | jfxtools-canvas/src/main/java/de/mpmediasoft/jfxtools/canvas/NativeRenderingCanvas.java:145-147 | leaves scroll brackets; only the bracket flag may change |
| RenderingCanvas.NativeRenderingCanvas.OnScroll | jfxtools-canvas/src/main/java/de/mpmediasoft/jfxtools/canvas/NativeRenderingCanvas.java:149-184 | renders `ScrollTarget` of the event's classification |
| RenderingCanvas.NativeRenderingCanvas.OnZoomOrRotate | jfxtools-canvas/src/main/java/de/mpmediasoft/jfxtools/canvas/NativeRenderingCanvas.java:186-200 | re-renders the current viewport |
| RenderingCanvas.NativeRenderingCanvas.Dispose | jfxtools-canvas/src/main/java/de/mpmediasoft/jfxtools/canvas/NativeRenderingCanvas.java:207-223 | the viewport becomes empty, scroll brackets are left and the image is dropped |
| RenderingCanvas.FirstResizeSize | jfxtools-canvas/src/main/java/de/mpmediasoft/jfxtools/canvas/NativeRenderingCanvas.java:101-103 | a 70 x 70 pane asks for a 128 x 128 viewport at the origin |
| RenderingCanvas.FirstResizeScenario | jfxtools-canvas/src/main/java/de/mpmediasoft/jfxtools/canvas/NativeRenderingCanvas.java:235-275 | the first resize of a synchronous canvas calls createCanvas(128, 128, 2, 0), moveTo(0, 0) and render, which returns 1; it shows the 70 x 70 corner of slot 1 |
| AwtImages.HintOf | jfxtools-awtimage/src/main/java/de/mpmediasoft/jfxtools/awtimage/AWTImage.java:100-101 | null stays null (whole image); an empty rectangle becomes `Rectangle2D.EMPTY`; any other rectangle is copied |
| AwtImages.NothingChangedIffEmpty | jfxtools-awtimage/src/main/java/de/mpmediasoft/jfxtools/awtimage/AWTImage.java:101 | the hint is `EMPTY` if and only if the callback returned an empty rectangle |
| AwtImages.RegionHintPositive | jfxtools-awtimage/src/main/java/de/mpmediasoft/jfxtools/awtimage/AWTImage.java:101 | a region hint always has positive width and height |
| AwtImages.AWTImage.Wrap | jfxtools-awtimage/src/main/java/de/mpmediasoft/jfxtools/awtimage/AWTImage.java:48-62 | wraps a raster of exactly width * height pixels and refreshes the whole image once |
| AwtImages.AWTImage.constructor | jfxtools-awtimage/src/main/java/de/mpmediasoft/jfxtools/awtimage/AWTImage.java:39-41 | a fresh raster of the given size, refreshed once |
| AwtImages.AWTImage.GetWidth | jfxtools-awtimage/src/main/java/de/mpmediasoft/jfxtools/awtimage/AWTImage.java:83 | positive, and it times the height is the raster length |
| AwtImages.AWTImage.GetHeight | jfxtools-awtimage/src/main/java/de/mpmediasoft/jfxtools/awtimage/AWTImage.java:90 | positive, and the width times it is the raster length |
| AwtImages.AWTImage.Update | jfxtools-awtimage/src/main/java/de/mpmediasoft/jfxtools/awtimage/AWTImage.java:97-104 | a null callback does nothing; otherwise the callback runs once and its `HintOf` is the next refresh |
| AwtImages.AWTImage.SetOnUpdate | jfxtools-awtimage/src/main/java/de/mpmediasoft/jfxtools/awtimage/AWTImage.java:111-113 | registers the callback and draws nothing |
| AwtImages.AWTImage.UpdateRegistered | jfxtools-awtimage/src/main/java/de/mpmediasoft/jfxtools/awtimage/AWTImage.java:118-120 | behaves as `Update` with the registered callback |
| AwtImages.LastRegistrationWins | jfxtools-awtimage/src/main/java/de/mpmediasoft/jfxtools/awtimage/AWTImage.java:111-120 | after two registrations only the second callback runs, and its empty rectangle becomes `EMPTY` |
| JarEnvironment.FileName | jfxtools-jarprocessor/src/main/java/de/mpmediasoft/jfxtools/jarprocessor/AbstractJARProcessor.java:11 | the name is the slash-free suffix of the path after its last '/' |
| JarEnvironment.CollapseSlashes | jfxtools-jarprocessor/src/main/java/de/mpmediasoft/jfxtools/jarprocessor/AbstractJARProcessor.java:8 | keeps the first and last character, never grows, and leaves no "//" |
| JarEnvironment.CollapseFixed | jfxtools-jarprocessor/src/main/java/de/mpmediasoft/jfxtools/jarprocessor/AbstractJARProcessor.java:8 | a path without "//" is left as it is |
| JarEnvironment.Normalize | jfxtools-jarprocessor/src/main/java/de/mpmediasoft/jfxtools/jarprocessor/AbstractJARProcessor.java:8 | the normal form has no "//", keeps the first character and, unless it is "/", has no trailing '/' |
| JarEnvironment.NormalizeFixed | jfxtools-jarprocessor/src/main/java/de/mpmediasoft/jfxtools/jarprocessor/AbstractJARProcessor.java:8 | a path already in normal form is its own normal form |
| JarEnvironment.NormalizeIdempotent | jfxtools-jarprocessor/src/main/java/de/mpmediasoft/jfxtools/jarprocessor/AbstractJARProcessor.java:8 | normalising twice is normalising once |
| JarEnvironment.NormalPath | jfxtools-jarprocessor/src/main/java/de/mpmediasoft/jfxtools/jarprocessor/AbstractJARProcessor.java:8 | "dir/name" is already normal |
| JarEnvironment.TrailingSlashDropped | jfxtools-jarprocessor/src/main/java/de/mpmediasoft/jfxtools/jarprocessor/AbstractJARProcessor.java:8 | a trailing '/' is dropped |
| JarEnvironment.DoubleSlashCollapsed | jfxtools-jarprocessor/src/main/java/de/mpmediasoft/jfxtools/jarprocessor/AbstractJARProcessor.java:8 | "a//b" collapses like "a/b" |
| JarEnvironment.DoubleAndTrailingSlash | jfxtools-jarprocessor/src/main/java/de/mpmediasoft/jfxtools/jarprocessor/AbstractJARProcessor.java:8 | "dir//name/" normalises to "dir/name" |
| JarEnvironment.JarFile | jfxtools-jarprocessor/src/main/java/de/mpmediasoft/jfxtools/jarprocessor/AbstractJARProcessor.java:7-16 | the normalised path is accepted if and only if it is readable with a name ending in ".jar" in any case, and is returned; otherwise the matching error message naming the normalised path |
| JarEnvironment.JarFileStable | jfxtools-jarprocessor/src/main/java/de/mpmediasoft/jfxtools/jarprocessor/AbstractJARProcessor.java:7-16 | validating an accepted path again accepts the same path |
| JarEnvironment.FileNameOfPath | jfxtools-jarprocessor/src/main/java/de/mpmediasoft/jfxtools/jarprocessor/AbstractJARProcessor.java:11 | the name of "dir/name" is "name" |
| JarEnvironment.OnlyNameIsChecked | jfxtools-jarprocessor/src/main/java/de/mpmediasoft/jfxtools/jarprocessor/AbstractJARProcessor.java:11-12 | a ".jar" directory does not make a file inside it a JAR |
| JarEnvironment.SlashesNormalized | jfxtools-jarprocessor/src/main/java/de/mpmediasoft/jfxtools/jarprocessor/AbstractJARProcessor.java:7-16 | "dir//App.jar/" is accepted as "dir/App.jar" |
| JarEnvironment.UpperCaseSuffixAccepted | jfxtools-jarprocessor/src/main/java/de/mpmediasoft/jfxtools/jarprocessor/AbstractJARProcessor.java:11-14 | "dir/App.JAR" is accepted as it is |
| JavaStrings.Trim | jfxtools-jarprocessor/src/main/java/de/mpmediasoft/jfxtools/jarprocessor/processors/ModuleChecker.java:144 | the result is a slice of the input with no leading or trailing character at most U+0020 |
| JavaStrings.TrimExact | jfxtools-jarprocessor/src/main/java/de/mpmediasoft/jfxtools/jarprocessor/processors/ModuleChecker.java:144 | the result is the slice `s[lo..hi]` of the input, and every character before `lo` and from `hi` on is at most U+0020 |
| JavaStrings.TrimIdempotent | jfxtools-jarprocessor/src/main/java/de/mpmediasoft/jfxtools/jarprocessor/processors/FXMLChecker.java:125-127 | trimming twice is trimming once |
| JavaStrings.Tokens | jfxtools-jarprocessor/src/main/java/de/mpmediasoft/jfxtools/jarprocessor/processors/ModuleChecker.java:144-145 | the scanner's tokens are non-empty and contain no whitespace |
| JavaStrings.TokensSplit | jfxtools-jarprocessor/src/main/java/de/mpmediasoft/jfxtools/jarprocessor/processors/ModuleChecker.java:144-145 | whitespace separates tokens: the tokens of `a c b` are those of a followed by those of b |
| JavaStrings.Lines | jfxtools-jarprocessor/src/main/java/de/mpmediasoft/jfxtools/jarprocessor/processors/ModuleChecker.java:128 | `String.lines()` yields lines without line breaks |
| JavaStrings.LinesRoundTrip | jfxtools-jarprocessor/src/main/java/de/mpmediasoft/jfxtools/jarprocessor/processors/ModuleChecker.java:172 | splitting joined lines gives back the lines |
| JavaStrings.RemoveAll | jfxtools-jarprocessor/src/main/java/de/mpmediasoft/jfxtools/jarprocessor/processors/FXMLChecker.java:127 | `replace(pat, "")` never lengthens the string and keeps a first character that does not start the pattern |
| JavaStrings.RemoveAllAbsent | jfxtools-jarprocessor/src/main/java/de/mpmediasoft/jfxtools/jarprocessor/processors/FXMLChecker.java:127 | with no occurrence of the pattern the string is unchanged |
| JavaStrings.RemoveAllPrefix | jfxtools-jarprocessor/src/main/java/de/mpmediasoft/jfxtools/jarprocessor/processors/FXMLChecker.java:127 | a leading occurrence is removed |
| JavaStrings.ReplaceFirst | jfxtools-jarprocessor/src/main/java/de/mpmediasoft/jfxtools/jarprocessor/processors/ModuleChecker.java:189 | at most one occurrence is removed |
| JavaStrings.ReplaceFirstOfPrefix | jfxtools-jarprocessor/src/main/java/de/mpmediasoft/jfxtools/jarprocessor/processors/ModuleChecker.java:189 | a leading "META-INF/services/" is stripped |
| JavaStrings.DotsToSlashes | jfxtools-jarprocessor/src/main/java/de/mpmediasoft/jfxtools/jarprocessor/processors/FXMLChecker.java:114 | every '.' becomes '/' and nothing else changes; no '.' is left, and a string without '.' is kept, so replacing twice is replacing once |
| JavaStrings.DotsToSlashesSame | jfxtools-jarprocessor/src/main/java/de/mpmediasoft/jfxtools/jarprocessor/processors/FXMLChecker.java:114 | two names map to the same text if and only if they differ only by '.' versus '/' at some positions |
| ModuleChecking.AddProvider | jfxtools-jarprocessor/src/main/java/de/mpmediasoft/jfxtools/jarprocessor/processors/ModuleChecker.java:151-155 | the implementation is added to the SPI's set, created empty if missing; other SPIs are untouched |
| ModuleChecking.ExtendsTransitive | jfxtools-jarprocessor/src/main/java/de/mpmediasoft/jfxtools/jarprocessor/processors/ModuleChecker.java:151-155 | map growth composes |
| ModuleChecking.DropKeywords | jfxtools-jarprocessor/src/main/java/de/mpmediasoft/jfxtools/jarprocessor/processors/ModuleChecker.java:145-147 | keeps exactly the tokens that are not "provides" or "with", in any case |
| ModuleChecking.DropKeywordsAppend | jfxtools-jarprocessor/src/main/java/de/mpmediasoft/jfxtools/jarprocessor/processors/ModuleChecker.java:145-147 | the filter distributes over concatenation, so it keeps the order and multiplicity of the kept tokens |
| ModuleChecking.DropKeywordsSingle | jfxtools-jarprocessor/src/main/java/de/mpmediasoft/jfxtools/jarprocessor/processors/ModuleChecker.java:145-147 | a single token is kept exactly when it is not a keyword |
| ModuleChecking.ScanProvides | jfxtools-jarprocessor/src/main/java/de/mpmediasoft/jfxtools/jarprocessor/processors/ModuleChecker.java:143-160 | fails, with "Unexpected provides statement: " and the line, if and only if the line has neither 0 nor 2 non-keyword tokens; with 0 the map is unchanged, with 2 it is exactly `AddProvider` of the pair; it only ever grows the map |
| ModuleChecking.ProvidesLineParsed | jfxtools-jarprocessor/src/main/java/de/mpmediasoft/jfxtools/jarprocessor/processors/ModuleChecker.java:143-155 | "provides S with I" is parsed to the tokens [S, I] and adds I to S |
| ModuleChecking.ProvidesFoldExtends | jfxtools-jarprocessor/src/main/java/de/mpmediasoft/jfxtools/jarprocessor/processors/ModuleChecker.java:128-135 | scanning the descriptor only adds providers |
| ModuleChecking.ProvidesFoldIgnoresOthers | jfxtools-jarprocessor/src/main/java/de/mpmediasoft/jfxtools/jarprocessor/processors/ModuleChecker.java:128 | lines not starting with "provides" change nothing and cause no error |
| ModuleChecking.ImplementationsOf | jfxtools-jarprocessor/src/main/java/de/mpmediasoft/jfxtools/jarprocessor/processors/ModuleChecker.java:199-203 | a services file provides exactly its lines that are not comments |
| ModuleChecking.ImplementationsOfSnoc | jfxtools-jarprocessor/src/main/java/de/mpmediasoft/jfxtools/jarprocessor/processors/ModuleChecker.java:200-203 | one more line of a services file adds itself unless it is a "#" comment |
| ModuleChecking.ServicesStep | jfxtools-jarprocessor/src/main/java/de/mpmediasoft/jfxtools/jarprocessor/processors/ModuleChecker.java:188-213 | an empty SPI name fails without change; otherwise the SPI is registered even when reading fails (with its old set, or an empty one if it was new), every other key keeps its set, and it succeeds if and only if the entry is a readable regular file, whose implementations are added |
| ModuleChecking.Registered | jfxtools-jarprocessor/src/main/java/de/mpmediasoft/jfxtools/jarprocessor/processors/ModuleChecker.java:191-193 | the SPI becomes a key, with an empty set only if it was new; every other key keeps its set |
| ModuleChecking.ServicesRead | jfxtools-jarprocessor/src/main/java/de/mpmediasoft/jfxtools/jarprocessor/processors/ModuleChecker.java:195-209 | the keys are unchanged and only the SPI's set can change; it succeeds if and only if the archive opens and the entry is a regular file, and then exactly the implementations are added; on failure the map is unchanged |
| ModuleChecking.ServicesFoldExtends | jfxtools-jarprocessor/src/main/java/de/mpmediasoft/jfxtools/jarprocessor/processors/ModuleChecker.java:172-181 | processing the services entries only adds providers |
| ModuleChecking.ManifestResult | jfxtools-jarprocessor/src/main/java/de/mpmediasoft/jfxtools/jarprocessor/processors/ModuleChecker.java:215-234 | succeeds if and only if the JAR opens and the manifest is a regular file; the value is whether it names an automatic module |
| ModuleChecking.IdenticalIsConsistent | jfxtools-jarprocessor/src/main/java/de/mpmediasoft/jfxtools/jarprocessor/processors/ModuleChecker.java:260-279 | identical declarations are consistent |
| ModuleChecking.KeyCountMismatchIsInconsistent | jfxtools-jarprocessor/src/main/java/de/mpmediasoft/jfxtools/jarprocessor/processors/ModuleChecker.java:262-277 | a modular JAR with a different number of SPIs on the two paths is inconsistent |
| ModuleChecking.DifferentImplementationIsInconsistent | jfxtools-jarprocessor/src/main/java/de/mpmediasoft/jfxtools/jarprocessor/processors/ModuleChecker.java:267-271 | the same SPI with a different implementation of the same count is inconsistent |
| ModuleChecking.UncheckedDifferences | jfxtools-jarprocessor/src/main/java/de/mpmediasoft/jfxtools/jarprocessor/processors/ModuleChecker.java:266-267 | as written, an SPI missing from the class path, or a different number of implementations, is not reported |
| ModuleChecking.PrintResult | jfxtools-jarprocessor/src/main/java/de/mpmediasoft/jfxtools/jarprocessor/processors/ModuleChecker.java:236-258 | the header is `<jar> : modular` or `<jar> : non-modular hasDefinedAutomaticModuleName = <flag>`; a consistent JAR gets one untitled section of its class-path providers; an inconsistent one is flagged and gets the module-path providers under "Services provided on module-path:" and then the class-path providers under "Services provided on class-path:" |
| ModuleChecking.ReportsOfSnoc | jfxtools-jarprocessor/src/main/java/de/mpmediasoft/jfxtools/jarprocessor/processors/ModuleChecker.java:107 | the reports of one more result extend the reports so far |
| ModuleChecking.NonModularReportsConsistent | jfxtools-jarprocessor/src/main/java/de/mpmediasoft/jfxtools/jarprocessor/processors/ModuleChecker.java:260-262 | no non-modular JAR is ever reported inconsistent |
| ModuleChecking.ReportsPartition | jfxtools-jarprocessor/src/main/java/de/mpmediasoft/jfxtools/jarprocessor/processors/ModuleChecker.java:301-311 | every kept result is reported exactly once, in the modular or in the non-modular list |
| ModuleChecking.CheckSpec | jfxtools-jarprocessor/src/main/java/de/mpmediasoft/jfxtools/jarprocessor/processors/ModuleChecker.java:110-114 | the error count never decreases, and a check succeeds only with no error counted |
| ModuleChecking.DescriptorScan | jfxtools-jarprocessor/src/main/java/de/mpmediasoft/jfxtools/jarprocessor/processors/ModuleChecker.java:116-141 | when the `jar` tool fails, the error is reported and the state and count are unchanged; otherwise the JAR is modular if and only if the output does not start with "No module descriptor found", a non-modular JAR keeps the map and the count, and it fails if and only if it is modular with a positive count |
| ModuleChecking.DescriptorScanProviders | jfxtools-jarprocessor/src/main/java/de/mpmediasoft/jfxtools/jarprocessor/processors/ModuleChecker.java:116-141 | for a modular JAR, the module-path map and the error count are exactly those of `ProvidesFold` over every line of the `jar --describe-module` output |
| ModuleChecking.DescriptorStage | jfxtools-jarprocessor/src/main/java/de/mpmediasoft/jfxtools/jarprocessor/processors/ModuleChecker.java:112-113 | the error count never decreases, and the rest of a check succeeds only with no error counted |
| ModuleChecking.ServicesStage | jfxtools-jarprocessor/src/main/java/de/mpmediasoft/jfxtools/jarprocessor/processors/ModuleChecker.java:113 | only the class-path map changes; the error count never decreases, and the stage succeeds only with no error counted |
| ModuleChecking.CheckResult.constructor | jfxtools-jarprocessor/src/main/java/de/mpmediasoft/jfxtools/jarprocessor/processors/ModuleChecker.java:56-62 | a new result has empty maps and all flags false |
| ModuleChecking.Snapshots | jfxtools-jarprocessor/src/main/java/de/mpmediasoft/jfxtools/jarprocessor/processors/ModuleChecker.java:48 | the values of the result list, element by element |
| ModuleChecking.ModuleChecker.constructor | jfxtools-jarprocessor/src/main/java/de/mpmediasoft/jfxtools/jarprocessor/processors/ModuleChecker.java:48-54 | no results, no errors, not verbose, no jar tool |
| ModuleChecking.ModuleChecker.Initialize | jfxtools-jarprocessor/src/main/java/de/mpmediasoft/jfxtools/jarprocessor/processors/ModuleChecker.java:282-285 | stores the jar tool and the verbose flag |
| ModuleChecking.ModuleChecker.Start | jfxtools-jarprocessor/src/main/java/de/mpmediasoft/jfxtools/jarprocessor/processors/ModuleChecker.java:288-291 | clears the results and the error count |
| ModuleChecking.ModuleChecker.ScanProvidesLine | jfxtools-jarprocessor/src/main/java/de/mpmediasoft/jfxtools/jarprocessor/processors/ModuleChecker.java:143-160 | the module-path map becomes `ScanProvides` of the old one; on error it is unchanged and the error is returned |
| ModuleChecking.ModuleChecker.FindModularServiceProviders | jfxtools-jarprocessor/src/main/java/de/mpmediasoft/jfxtools/jarprocessor/processors/ModuleChecker.java:116-141 | the result state, error count and error are those of `DescriptorScan` |
| ModuleChecking.ModuleChecker.ScanDescriptor | jfxtools-jarprocessor/src/main/java/de/mpmediasoft/jfxtools/jarprocessor/processors/ModuleChecker.java:128-135 | the module-path map and the error count become those of the provides fold |
| ModuleChecking.ModuleChecker.ProcessMetaInfServices | jfxtools-jarprocessor/src/main/java/de/mpmediasoft/jfxtools/jarprocessor/processors/ModuleChecker.java:188-213 | the class-path map and the result are those of `ServicesStep` |
| ModuleChecking.ModuleChecker.AddImplementations | jfxtools-jarprocessor/src/main/java/de/mpmediasoft/jfxtools/jarprocessor/processors/ModuleChecker.java:199-203 | the implementations of the interface gain exactly the non-comment lines; nothing else changes |
| ModuleChecking.ModuleChecker.FindNonModularServiceProviders | jfxtools-jarprocessor/src/main/java/de/mpmediasoft/jfxtools/jarprocessor/processors/ModuleChecker.java:162-186 | a tool failure changes nothing; otherwise map and error count are the services fold, and it fails exactly when errors are positive |
| ModuleChecking.ModuleChecker.ScanListing | jfxtools-jarprocessor/src/main/java/de/mpmediasoft/jfxtools/jarprocessor/processors/ModuleChecker.java:172-181 | the class-path map and the error count become those of the services fold |
| ModuleChecking.ModuleChecker.ProcessMetaInfManifest | jfxtools-jarprocessor/src/main/java/de/mpmediasoft/jfxtools/jarprocessor/processors/ModuleChecker.java:215-234 | records `ManifestResult` or returns its error |
| ModuleChecking.ModuleChecker.Check | jfxtools-jarprocessor/src/main/java/de/mpmediasoft/jfxtools/jarprocessor/processors/ModuleChecker.java:110-114 | the result state, error count and error are those of `CheckSpec` |
| ModuleChecking.ModuleChecker.Process | jfxtools-jarprocessor/src/main/java/de/mpmediasoft/jfxtools/jarprocessor/processors/ModuleChecker.java:294-298 | a refused file changes nothing; otherwise the JAR is checked, and only a clean check appends a fresh result with the `CheckSpec` state |
| ModuleChecking.ModuleChecker.Compare | jfxtools-jarprocessor/src/main/java/de/mpmediasoft/jfxtools/jarprocessor/processors/ModuleChecker.java:260-279 | the consistent flag becomes `ConsistentAsWritten` of the result |
| ModuleChecking.ModuleChecker.ShowResult | jfxtools-jarprocessor/src/main/java/de/mpmediasoft/jfxtools/jarprocessor/processors/ModuleChecker.java:106-108 | reports, in list order, exactly the results of the given modularity; the results' data is unchanged |
| ModuleChecking.ModuleChecker.ShowOne | jfxtools-jarprocessor/src/main/java/de/mpmediasoft/jfxtools/jarprocessor/processors/ModuleChecker.java:107 | a result of the other modularity is skipped; one of this modularity is compared and reported |
| ModuleChecking.ModuleChecker.Finish | jfxtools-jarprocessor/src/main/java/de/mpmediasoft/jfxtools/jarprocessor/processors/ModuleChecker.java:301-311 | the modular reports and then the non-modular reports of all kept results |
| FxmlChecking.OptionFormat | jfxtools-jarprocessor/src/main/java/de/mpmediasoft/jfxtools/jarprocessor/processors/FXMLChecker.java:73-76 | "-p" selects plain, "-s" Maven Shade and "-n" GluonHQ native; any other option keeps the format |
| FxmlChecking.FormatInjective | jfxtools-jarprocessor/src/main/java/de/mpmediasoft/jfxtools/jarprocessor/processors/FXMLChecker.java:113-114 | in plain and Gluon native format, distinct classes print distinct lines |
| FxmlChecking.ShadeMergesDotsAndSlashes | jfxtools-jarprocessor/src/main/java/de/mpmediasoft/jfxtools/jarprocessor/processors/FXMLChecker.java:114 | in Maven Shade format, "a.B" and "a/B" print the same line |
| FxmlChecking.RemoveAllWithoutFirstChar | jfxtools-jarprocessor/src/main/java/de/mpmediasoft/jfxtools/jarprocessor/processors/FXMLChecker.java:127 | removing a pattern whose first character does not occur changes nothing |
| FxmlChecking.RemoveAllTrailing | jfxtools-jarprocessor/src/main/java/de/mpmediasoft/jfxtools/jarprocessor/processors/FXMLChecker.java:127 | a trailing "?>" is removed |
| FxmlChecking.TrimLeadingSpace | jfxtools-jarprocessor/src/main/java/de/mpmediasoft/jfxtools/jarprocessor/processors/FXMLChecker.java:127 | the blank after "<?import" is trimmed away |
| FxmlChecking.ImportOfDeclaration | jfxtools-jarprocessor/src/main/java/de/mpmediasoft/jfxtools/jarprocessor/processors/FXMLChecker.java:125-128 | `<?import C?>` imports exactly C |
| FxmlChecking.NonImportIgnored | jfxtools-jarprocessor/src/main/java/de/mpmediasoft/jfxtools/jarprocessor/processors/FXMLChecker.java:126 | lines that are not import instructions import nothing |
| FxmlChecking.CollectedExactly | jfxtools-jarprocessor/src/main/java/de/mpmediasoft/jfxtools/jarprocessor/processors/FXMLChecker.java:124-130 | a class is collected if and only if some line yields it |
| FxmlChecking.ImportsOfExactly | jfxtools-jarprocessor/src/main/java/de/mpmediasoft/jfxtools/jarprocessor/processors/FXMLChecker.java:124-130 | the classes of a file are exactly the imports of its lines, in both directions |
| FxmlChecking.ImportsOfSnoc | jfxtools-jarprocessor/src/main/java/de/mpmediasoft/jfxtools/jarprocessor/processors/FXMLChecker.java:124-130 | one more line adds its import, if any |
| FxmlChecking.FxmlStep | jfxtools-jarprocessor/src/main/java/de/mpmediasoft/jfxtools/jarprocessor/processors/FXMLChecker.java:117-138 | succeeds if and only if the JAR opens and the entry is a regular file, then adds its imports; a failure adds nothing |
| FxmlChecking.FxmlFoldGrows | jfxtools-jarprocessor/src/main/java/de/mpmediasoft/jfxtools/jarprocessor/processors/FXMLChecker.java:90-99 | classes are only added, and failures are at most one per line |
| FxmlChecking.FxmlFoldCollects | jfxtools-jarprocessor/src/main/java/de/mpmediasoft/jfxtools/jarprocessor/processors/FXMLChecker.java:90-99 | when every FXML entry reads cleanly, nothing fails and every import of every entry is collected |
| FxmlChecking.FxmlChecker.constructor | jfxtools-jarprocessor/src/main/java/de/mpmediasoft/jfxtools/jarprocessor/processors/FXMLChecker.java:49-57 | no classes, plain format, no errors |
| FxmlChecking.FxmlChecker.Initialize | jfxtools-jarprocessor/src/main/java/de/mpmediasoft/jfxtools/jarprocessor/processors/FXMLChecker.java:60-63 | stores the jar tool and the verbose flag |
| FxmlChecking.FxmlChecker.Start | jfxtools-jarprocessor/src/main/java/de/mpmediasoft/jfxtools/jarprocessor/processors/FXMLChecker.java:66-69 | clears classes and errors and keeps the format |
| FxmlChecking.FxmlChecker.ProcessFxml | jfxtools-jarprocessor/src/main/java/de/mpmediasoft/jfxtools/jarprocessor/processors/FXMLChecker.java:117-138 | the classes and result are those of `FxmlStep` |
| FxmlChecking.FxmlChecker.ReadFxmlEntries | jfxtools-jarprocessor/src/main/java/de/mpmediasoft/jfxtools/jarprocessor/processors/FXMLChecker.java:90-99 | the classes and the error count afterwards are those of the FXML fold over the listing |
| FxmlChecking.FxmlChecker.Process | jfxtools-jarprocessor/src/main/java/de/mpmediasoft/jfxtools/jarprocessor/processors/FXMLChecker.java:72-105 | an option only changes the format; a JAR is refused (with the normalised path in the message), or fails on a tool error, or gathers the FXML fold and fails exactly when errors are positive |
| FxmlChecking.FxmlChecker.Finish | jfxtools-jarprocessor/src/main/java/de/mpmediasoft/jfxtools/jarprocessor/processors/FXMLChecker.java:108-115 | prints each class in the chosen format; except for Maven Shade, as many lines as classes. The output is a set, so two classes that format to the same line give one line, where Java prints both |
| FxmlChecking.ImageSize | jfxtools-jarprocessor/src/main/java/de/mpmediasoft/jfxtools/jarprocessor/processors/FXMLChecker.java:113-114 | formatting an injective format keeps the number of distinct lines |
| NativeArtifactChecking.ArtifactStep | jfxtools-jarprocessor/src/main/java/de/mpmediasoft/jfxtools/jarprocessor/processors/NativeArtifactChecker.java:100-113 | succeeds, printing the indented entry, if and only if the JAR opens and the entry is a regular file |
| NativeArtifactChecking.Artifacts | jfxtools-jarprocessor/src/main/java/de/mpmediasoft/jfxtools/jarprocessor/processors/NativeArtifactChecker.java:73-80 | keeps only native libraries and object files |
| NativeArtifactChecking.ArtifactFoldAccounts | jfxtools-jarprocessor/src/main/java/de/mpmediasoft/jfxtools/jarprocessor/processors/NativeArtifactChecker.java:73-101 | every artifact is counted and either printed or failed; the printed lines are the regular-file artifacts, in order |
| NativeArtifactChecking.IndentedAppend | jfxtools-jarprocessor/src/main/java/de/mpmediasoft/jfxtools/jarprocessor/processors/NativeArtifactChecker.java:106 | indenting a concatenation indents each part, in order |
| NativeArtifactChecking.IndentedInjective | jfxtools-jarprocessor/src/main/java/de/mpmediasoft/jfxtools/jarprocessor/processors/NativeArtifactChecker.java:106 | the indent can be stripped again: distinct path lists print distinct lines |
| NativeArtifactChecking.RegularOnesSnoc | jfxtools-jarprocessor/src/main/java/de/mpmediasoft/jfxtools/jarprocessor/processors/NativeArtifactChecker.java:105-109 | filtering regular files distributes over appending one entry |
| NativeArtifactChecking.UnopenableArchiveFailsAll | jfxtools-jarprocessor/src/main/java/de/mpmediasoft/jfxtools/jarprocessor/processors/NativeArtifactChecker.java:110-112 | a JAR that cannot be opened prints nothing and fails every artifact |
| NativeArtifactChecking.NativeArtifactChecker.constructor | jfxtools-jarprocessor/src/main/java/de/mpmediasoft/jfxtools/jarprocessor/processors/NativeArtifactChecker.java:37-45 | nothing found, no errors, counter 0 |
| NativeArtifactChecking.NativeArtifactChecker.Initialize | jfxtools-jarprocessor/src/main/java/de/mpmediasoft/jfxtools/jarprocessor/processors/NativeArtifactChecker.java:48-51 | stores the jar tool and the verbose flag |
| NativeArtifactChecking.NativeArtifactChecker.Start | jfxtools-jarprocessor/src/main/java/de/mpmediasoft/jfxtools/jarprocessor/processors/NativeArtifactChecker.java:54-57 | clears the errors but not the counter |
| NativeArtifactChecking.NativeArtifactChecker.ProcessArtifact | jfxtools-jarprocessor/src/main/java/de/mpmediasoft/jfxtools/jarprocessor/processors/NativeArtifactChecker.java:100-113 | counts the entry first, then prints it or fails as `ArtifactStep` says |
| NativeArtifactChecking.NativeArtifactChecker.ReadArtifacts | jfxtools-jarprocessor/src/main/java/de/mpmediasoft/jfxtools/jarprocessor/processors/NativeArtifactChecker.java:73-88 | the printed lines, the counter and the error count afterwards are those of the artifact fold over the listing |
| NativeArtifactChecking.NativeArtifactChecker.Process | jfxtools-jarprocessor/src/main/java/de/mpmediasoft/jfxtools/jarprocessor/processors/NativeArtifactChecker.java:60-93 | a refused file or tool error changes nothing; otherwise output, counter and errors grow by the artifact fold, and it fails exactly when errors are positive |
| NativeArtifactChecking.NativeArtifactChecker.Finish | jfxtools-jarprocessor/src/main/java/de/mpmediasoft/jfxtools/jarprocessor/processors/NativeArtifactChecker.java:96-98 | the count is reported if and only if verbose |
| JarProcessorRunning.ProcessorNamed | jfxtools-jarprocessor/src/main/java/de/mpmediasoft/jfxtools/jarprocessor/main/JARProcessorRunner.java:21-24 | exactly "ModuleChecker" and "FXMLChecker" name a processor, each its own |
| JarProcessorRunning.SuccessesAppend | jfxtools-jarprocessor/src/main/java/de/mpmediasoft/jfxtools/jarprocessor/main/JARProcessorRunner.java:44-51 | the successful calls for a concatenation of arguments are those of each part, in order |
| JarProcessorRunning.StepsAfterSuccesses | jfxtools-jarprocessor/src/main/java/de/mpmediasoft/jfxtools/jarprocessor/main/JARProcessorRunner.java:44-51 | after i successes, the rest of the run is a run over the remaining arguments |
| JarProcessorRunning.StepsProperties | jfxtools-jarprocessor/src/main/java/de/mpmediasoft/jfxtools/jarprocessor/main/JARProcessorRunner.java:44-52 | `finish` is called if and only if the run completes; a failing run processed every earlier argument successfully and names the failing one |
| JarProcessorRunning.StripVerbose | jfxtools-jarprocessor/src/main/java/de/mpmediasoft/jfxtools/jarprocessor/main/JARProcessorRunner.java:37-40 | a leading "-v" is removed and nothing else; without one the arguments are kept as they are |
| JarProcessorRunning.InitializeProcessor | jfxtools-jarprocessor/src/main/java/de/mpmediasoft/jfxtools/jarprocessor/main/JARProcessorRunner.java:42 | the selected processor holds the jar tool |
| JarProcessorRunning.StartProcessor | jfxtools-jarprocessor/src/main/java/de/mpmediasoft/jfxtools/jarprocessor/main/JARProcessorRunner.java:43 | the selected processor keeps its tool and holds no results |
| JarProcessorRunning.ProcessWith | jfxtools-jarprocessor/src/main/java/de/mpmediasoft/jfxtools/jarprocessor/main/JARProcessorRunner.java:46 | processing keeps the tool and only adds fresh results |
| JarProcessorRunning.FinishProcessor | jfxtools-jarprocessor/src/main/java/de/mpmediasoft/jfxtools/jarprocessor/main/JARProcessorRunner.java:52 | the output is the selected processor's own `finish` output: the module checker's modular and non-modular reports of its kept results, or the FXML checker's class lines in its chosen format |
| JarProcessorRunning.Runner.constructor | jfxtools-jarprocessor/src/main/java/de/mpmediasoft/jfxtools/jarprocessor/main/JARProcessorRunner.java:26-32 | not verbose, no calls made |
| JarProcessorRunning.Runner.Process | jfxtools-jarprocessor/src/main/java/de/mpmediasoft/jfxtools/jarprocessor/main/JARProcessorRunner.java:34-60 | no tool or no arguments exits with its message; "-v" alone does nothing; otherwise `initialize`, `start`, then a lifecycle run over the files |
| JarProcessorRunning.Runner.Lifecycle | jfxtools-jarprocessor/src/main/java/de/mpmediasoft/jfxtools/jarprocessor/main/JARProcessorRunner.java:42-52 | the calls are `initialize`, `start` and a `Steps` run |
| JarProcessorRunning.RunMain | jfxtools-jarprocessor/src/main/java/de/mpmediasoft/jfxtools/jarprocessor/main/JARProcessorRunner.java:80-103 | too few arguments, an unknown processor and a missing tool each exit with their message and no call; otherwise the lifecycle runs; "No JAR file specified." is unreachable |

## Left out

- JarProcessorRunning.Runner.Lifecycle: records `finish` as a call and does not return the
  output. `FinishProcessor` states that output; in Java the processor prints it itself, and the
  runner never sees it.
- AwtImages.AWTImage.constructor: requires a positive width and height. For a size of zero or
  less, Java's `BufferedImage` throws `IllegalArgumentException`; that exception is not modelled.
- The Java `Viewport` class is not part of this model. It is modelled from its uses in the
  canvas: a value with an origin, a non-negative size and emptiness meaning zero width or
  height. `withSizeIncrement` is modelled as rounding the pane size up to a multiple of the
  increment, as the comment on the increment field describes.
- The C `dispose` entry point is not modelled, and neither is the call to it from the canvas's
  `dispose`. It frees both buffers without clearing the globals.
- `RenderingCanvas.NativeRenderingCanvas.Dispose`: models resetting the viewport, leaving
  scroll brackets and dropping the image. Removing the event handlers is left out.
- `init`, the event handler registration and the resize listener are not modelled. Each
  handler is a method, and calling it stands for the event.
- In asynchronous mode the service's task and success handler are two atomic steps, with a
  precondition on the service state. Threads, executors and interleavings within a step are
  not modelled. `Cancelled` and `Failed` are never entered.
- `RenderingCanvas.TruncToInt`: models truncation toward zero only. The cast's clamping to
  the `int` range and NaN handling are left out. Java `int` overflow in viewport and buffer
  arithmetic is not modelled (integers are unbounded).
- The C renderer's `USE_FBO_CLEAR` is the constant `TRUE`, so only that branch of `render` is
  modelled. The tile loop is summarised as "the slot holds only frame colours". The stdout
  warning for one buffer is left out.
- `malloc` failure and `NewDirectByteBuffer` are not modelled. The direct buffer is the array
  itself.
- AWT drawing is reduced to the rectangle a callback returns. The pixels drawn and the
  `Graphics2D` are not modelled.
- Standard output is modelled only as the values the printing members return (`PrintResult`,
  `ShowResult` and the three `Finish` methods). The verbose messages, section banners such as
  "Modular results:" and stack traces are not modelled. Output that Java prints in
  `HashMap`/`HashSet` order is modelled as sets.
- `ModuleChecking.ManifestResult`: manifest parsing is reduced to whether the main attributes
  contain `Automatic-Module-Name`. A malformed manifest is modelled as a read error.
- The `assert` that an implementation contains no ',' is not modelled, because Java
  assertions are off by default.
- Absolute paths and `toURI` are not modelled. The tool and the archive are looked up by the
  normalised relative path instead of the absolute one. Normalisation follows Unix paths
  only: `\` separators and Windows prefixes are not modelled.
- Java strings are modelled ASCII-only: case folding and whitespace follow the ASCII ranges.
- `NativeArtifactChecker` is not in the runner's processor map, so the runner cannot reach
  it. It is modelled on its own. Its `fxmlClasses` set is cleared but never used.
- `printUsage`, `Locale.setDefault` and `System.exit` are not modelled; an exit is the
  `Exited` outcome, which carries the message. `ToolProvider.findFirst` is the optional tool
  parameter.

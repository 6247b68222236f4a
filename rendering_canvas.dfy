/**
 * The Java side of the native rendering canvas: the current renderer viewport, the
 * input handlers that derive new viewports from it, the synchronous render path
 * (`renderAction` followed by `renderUpdate`) and the coalescing rendering service
 * used in asynchronous mode. The native renderer it drives is the `NativeRenderer`
 * class of module NativeRendering; JavaFX nodes are reduced to the state they expose:
 * whether an image is bound, the pixel buffer it wraps and the frame shown.
 */
module RenderingCanvas {
  import opened Wrappers
  import opened Viewports
  import opened NativeRendering

  /** Number of stacked frame slots the canvas asks the renderer for (double buffering). */
  const NumBuffers := 2
  /** The renderer viewport's size grows and shrinks in steps of this many pixels. */
  const ViewIncrement := 64

  // ---------------------------------------------------------------- Java's (int) cast

  /** Java's `(int)` cast of a double: truncation toward zero (the range clamp is not modelled). */
  function TruncToInt(r: real): (t: int)
    ensures r >= 0.0 ==> 0 <= t && t as real <= r < t as real + 1.0
    ensures r < 0.0 ==> t <= 0 && t as real - 1.0 < r <= t as real
  {
    if r >= 0.0 then r.Floor else -((-r).Floor)
  }

  /** Truncation toward zero is symmetric: `(int)-r == -(int)r`. */
  lemma TruncNegate(r: real)
    ensures TruncToInt(-r) == -TruncToInt(r)
  {
    if r > 0.0 {
      assert -r < 0.0;
    }
  }

  function Abs(r: real): real {
    if r < 0.0 then -r else r
  }

  // ---------------------------------------------------------------- scroll classification

  datatype ScrollAction = Zoom | Pan

  /**
   * An event is taken for a mouse wheel, and thus for a zoom, when it is outside scroll
   * brackets, not inertial, purely vertical, a single step, and larger than one pixel.
   */
  predicate IsWheelLike(inScrollBrackets: bool, inertia: bool, deltaX: real, deltaY: real, totalDeltaY: real) {
    && !inScrollBrackets
    && !inertia
    && Abs(deltaX) == 0.0
    && deltaY == totalDeltaY
    && Abs(deltaY) > 1.0000001
  }

  function ClassifyScroll(inScrollBrackets: bool, inertia: bool, deltaX: real, deltaY: real, totalDeltaY: real): (a: ScrollAction)
    ensures a == Zoom <==> IsWheelLike(inScrollBrackets, inertia, deltaX, deltaY, totalDeltaY)
  {
    if IsWheelLike(inScrollBrackets, inertia, deltaX, deltaY, totalDeltaY) then Zoom else Pan
  }

  /** The viewport a scroll asks for: a zoom keeps the viewport, a pan moves it against the deltas. */
  function ScrollTarget(current: Viewport, action: ScrollAction, deltaX: real, deltaY: real): (v: Viewport)
    ensures action == Zoom ==> v == current
    ensures action == Pan ==> v.width == current.width && v.height == current.height
    ensures action == Pan ==> v.minX == current.minX - TruncToInt(deltaX) && v.minY == current.minY - TruncToInt(deltaY)
  {
    TruncNegate(deltaX);
    TruncNegate(deltaY);
    if action == Zoom then current else current.WithDeltaLocation(TruncToInt(-deltaX), TruncToInt(-deltaY))
  }

  /** Scrolling inside scroll brackets (a touch gesture) always pans. */
  lemma ScrollInBracketsPans(inertia: bool, deltaX: real, deltaY: real, totalDeltaY: real)
    ensures ClassifyScroll(true, inertia, deltaX, deltaY, totalDeltaY) == Pan
  {
  }

  // ---------------------------------------------------------------- renderAction calls

  /** The new viewport needs a new native buffer. */
  predicate SizeChanged(newViewport: Viewport, oldViewport: Viewport) {
    newViewport.width != oldViewport.width || newViewport.height != oldViewport.height
  }

  /** The renderer calls `renderAction(newViewport, oldViewport)` makes when `render` returns `index`. */
  function ActionCalls(newViewport: Viewport, oldViewport: Viewport, index: int): (cs: seq<RendererCall>)
    ensures |cs| == (if SizeChanged(newViewport, oldViewport) then 3 else 2)
    ensures cs[|cs| - 2] == MoveToCall(newViewport.minX, newViewport.minY) && cs[|cs| - 1] == RenderCall(index)
    ensures SizeChanged(newViewport, oldViewport) ==>
              cs[0] == CreateCanvasCall(newViewport.width, newViewport.height, NumBuffers, IntArgbPre)
  {
    (if SizeChanged(newViewport, oldViewport)
     then [CreateCanvasCall(newViewport.width, newViewport.height, NumBuffers, IntArgbPre)]
     else [])
    + [MoveToCall(newViewport.minX, newViewport.minY), RenderCall(index)]
  }

  predicate IsCreateCanvas(c: RendererCall) {
    c.CreateCanvasCall?
  }

  /** A new buffer is requested exactly when the size changed: pure moves never reallocate. */
  lemma ReallocatesIffResized(newViewport: Viewport, oldViewport: Viewport, index: int)
    ensures (exists k :: 0 <= k < |ActionCalls(newViewport, oldViewport, index)|
                         && IsCreateCanvas(ActionCalls(newViewport, oldViewport, index)[k]))
            <==> SizeChanged(newViewport, oldViewport)
  {
    var cs := ActionCalls(newViewport, oldViewport, index);
    if SizeChanged(newViewport, oldViewport) {
      assert IsCreateCanvas(cs[0]);
    } else {
      assert cs == [MoveToCall(newViewport.minX, newViewport.minY), RenderCall(index)];
    }
  }

  /** Leaving the empty viewport always allocates the first buffer. */
  lemma LeavingEmptyResizes(newViewport: Viewport, oldViewport: Viewport)
    requires oldViewport.IsEmpty() && !newViewport.IsEmpty()
    ensures SizeChanged(newViewport, oldViewport)
  {
  }

  // ---------------------------------------------------------------- frames

  /** A rectangle of the stacked pixel buffer, in pixels. */
  datatype Rect = Rect(x: real, y: real, width: real, height: real)

  function Min(a: real, b: real): real {
    if a <= b then a else b
  }

  /**
   * The part of the stacked buffer the image view shows after rendering slot `index` of a
   * `viewport`-sized frame into a pane of `paneWidth` x `paneHeight`: slot `index`, clipped
   * to the pane.
   */
  function FrameOf(index: int, viewport: Viewport, paneWidth: real, paneHeight: real): (r: Rect)
    requires 0 <= index < NumBuffers && paneWidth >= 0.0 && paneHeight >= 0.0
    ensures r.x == 0.0 && r.y == (index * viewport.height) as real
    ensures 0.0 <= r.width <= viewport.width as real && r.width <= paneWidth
    ensures 0.0 <= r.height <= viewport.height as real && r.height <= paneHeight
    ensures r.y + r.height <= ((index + 1) * viewport.height) as real
    ensures r.y + r.height <= (NumBuffers * viewport.height) as real
    ensures paneWidth <= viewport.width as real ==> r.width == paneWidth
    ensures paneHeight <= viewport.height as real ==> r.height == paneHeight
    ensures viewport.width as real <= paneWidth ==> r.width == viewport.width as real
    ensures viewport.height as real <= paneHeight ==> r.height == viewport.height as real
  {
    Rect(0.0, (index * viewport.height) as real,
         Min(paneWidth, viewport.width as real), Min(paneHeight, viewport.height as real))
  }

  // ---------------------------------------------------------------- the rendering service

  /** The states of a JavaFX `Service`. */
  datatype ServiceState = Ready | Scheduled | Running | Succeeded | Cancelled | Failed {
    predicate IsBusy() {
      this == Scheduled || this == Running
    }
  }

  /** The rendering service's state and its three viewports: the mailbox of the asynchronous mode. */
  datatype Mailbox = Mailbox(state: ServiceState, oldViewport: Viewport, newViewport: Viewport, dirtyViewport: Viewport)

  /** A scheduled task always has something to render, and a running one is rendering a non-empty viewport. */
  predicate MailboxValid(m: Mailbox) {
    && (m.state == Scheduled ==> !m.dirtyViewport.IsEmpty())
    && (m.state == Running ==> !m.newViewport.IsEmpty())
  }

  /** `renderIfIdle(v)`: a non-empty `v` overwrites the dirty slot; an idle service is restarted. */
  function Requested(m: Mailbox, v: Viewport): (r: Mailbox)
    ensures v.IsEmpty() ==> r == m
    ensures !v.IsEmpty() ==> r.dirtyViewport == v && r.oldViewport == m.oldViewport && r.newViewport == m.newViewport
    ensures !v.IsEmpty() ==> r.state == (if m.state.IsBusy() then m.state else Scheduled)
    ensures MailboxValid(m) ==> MailboxValid(r)
  {
    if v.IsEmpty() then m
    else m.(dirtyViewport := v, state := if m.state.IsBusy() then m.state else Scheduled)
  }

  /** The rendering task's `call`: the service takes the dirty viewport and empties the slot. */
  function TaskStarted(m: Mailbox): (r: Mailbox)
    requires m.state == Scheduled
    ensures r.state == Running
    ensures r.oldViewport == m.newViewport && r.newViewport == m.dirtyViewport && r.dirtyViewport == EmptyViewport
    ensures MailboxValid(m) ==> MailboxValid(r)
  {
    Mailbox(Running, m.newViewport, m.dirtyViewport, EmptyViewport)
  }

  /** The success handler: after the frame is shown, whatever arrived in the meantime is requested. */
  function HandledSuccess(m: Mailbox): (r: Mailbox)
    requires m.state == Running
    ensures r.oldViewport == m.oldViewport && r.newViewport == m.newViewport && r.dirtyViewport == m.dirtyViewport
    ensures r.state == (if m.dirtyViewport.IsEmpty() then Succeeded else Scheduled)
    ensures MailboxValid(r)
  {
    Requested(m.(state := Succeeded), m.dirtyViewport)
  }

  /** `renderIfIdle` applied to each viewport of `vs` in turn. */
  function RequestAll(m: Mailbox, vs: seq<Viewport>): (r: Mailbox)
    ensures m.state.IsBusy() ==> r.state == m.state
    ensures MailboxValid(m) ==> MailboxValid(r)
    decreases |vs|
  {
    if vs == [] then m else RequestAll(Requested(m, vs[0]), vs[1..])
  }

  /** The last non-empty viewport of `vs`, or `dflt` when there is none. */
  function LastNonEmpty(vs: seq<Viewport>, dflt: Viewport): Viewport
    decreases |vs|
  {
    if vs == [] then dflt
    else if !vs[|vs| - 1].IsEmpty() then vs[|vs| - 1]
    else LastNonEmpty(vs[..|vs| - 1], dflt)
  }

  lemma {:induction false} LastNonEmptyCons(v: Viewport, vs: seq<Viewport>, dflt: Viewport)
    ensures LastNonEmpty([v] + vs, dflt) == LastNonEmpty(vs, if v.IsEmpty() then dflt else v)
    decreases |vs|
  {
    if vs != [] {
      var s := [v] + vs;
      assert s[..|s| - 1] == [v] + vs[..|vs| - 1];
      assert s[|s| - 1] == vs[|vs| - 1];
      LastNonEmptyCons(v, vs[..|vs| - 1], dflt);
    } else {
      assert ([v] + vs)[..0] == [];
    }
  }

  /**
   * Coalescing: while a task is scheduled or running, any number of requests leave the state
   * as it is and the dirty slot holds only the latest non-empty viewport requested.
   */
  lemma {:induction false} RequestsCoalesce(m: Mailbox, vs: seq<Viewport>)
    requires m.state.IsBusy()
    ensures RequestAll(m, vs) == m.(dirtyViewport := LastNonEmpty(vs, m.dirtyViewport))
    decreases |vs|
  {
    if vs != [] {
      var m' := Requested(m, vs[0]);
      RequestsCoalesce(m', vs[1..]);
      LastNonEmptyCons(vs[0], vs[1..], m.dirtyViewport);
      assert vs == [vs[0]] + vs[1..];
    } else {
      assert m.(dirtyViewport := m.dirtyViewport) == m;
    }
  }

  /**
   * No request is lost: when requests arrive while a frame is being rendered, the success handler
   * reschedules the rendering task, and the next rendering task renders the latest of them.
   */
  lemma NoRequestLost(m: Mailbox, vs: seq<Viewport>)
    requires m.state == Running && m.dirtyViewport.IsEmpty()
    requires exists k :: 0 <= k < |vs| && !vs[k].IsEmpty()
    ensures HandledSuccess(RequestAll(m, vs)).state == Scheduled
    ensures TaskStarted(HandledSuccess(RequestAll(m, vs))).newViewport == LastNonEmpty(vs, m.dirtyViewport)
    ensures !LastNonEmpty(vs, m.dirtyViewport).IsEmpty()
  {
    RequestsCoalesce(m, vs);
    var k :| 0 <= k < |vs| && !vs[k].IsEmpty();
    LastNonEmptyFound(vs, k, m.dirtyViewport);
  }

  lemma {:induction false} LastNonEmptyFound(vs: seq<Viewport>, k: int, dflt: Viewport)
    requires 0 <= k < |vs| && !vs[k].IsEmpty()
    ensures !LastNonEmpty(vs, dflt).IsEmpty()
    decreases |vs|
  {
    if vs[|vs| - 1].IsEmpty() {
      assert k < |vs| - 1;
      assert vs[..|vs| - 1][k] == vs[k];
      LastNonEmptyFound(vs[..|vs| - 1], k, dflt);
    }
  }

  /** When nothing arrived while rendering, the success handler does not restart the service. */
  lemma IdleAfterSuccess(m: Mailbox)
    requires m.state == Running && m.dirtyViewport.IsEmpty()
    ensures HandledSuccess(m) == m.(state := Succeeded)
  {
  }

  class RenderingService {
    var state: ServiceState
    var oldViewport: Viewport
    var newViewport: Viewport
    var dirtyViewport: Viewport
    /** The slot index the last task returned, its `getValue()`. */
    var value: int

    function Snapshot(): Mailbox
      reads this
    {
      Mailbox(state, oldViewport, newViewport, dirtyViewport)
    }

    ghost predicate Valid()
      reads this
    {
      MailboxValid(Snapshot())
    }

    constructor ()
      ensures Valid()
      ensures Snapshot() == Mailbox(Ready, EmptyViewport, EmptyViewport, EmptyViewport) && value == 0
    {
      state := Ready;
      oldViewport, newViewport, dirtyViewport := EmptyViewport, EmptyViewport, EmptyViewport;
      value := 0;
    }

    /** Overwrites the dirty slot with a non-empty viewport and restarts the service unless it is busy. */
    method RenderIfIdle(viewport: Viewport)
      requires Valid()
      modifies this
      ensures Valid()
      ensures Snapshot() == Requested(old(Snapshot()), viewport) && value == old(value)
    {
      if !viewport.IsEmpty() {
        dirtyViewport := viewport;
        if state != Scheduled && state != Running {
          state := Scheduled;
        }
      }
    }

    /** The rendering task starts running and takes the dirty viewport. */
    method TakeDirty()
      requires Valid() && state == Scheduled
      modifies this
      ensures Valid()
      ensures Snapshot() == TaskStarted(old(Snapshot())) && value == old(value)
    {
      state := Running;
      oldViewport := newViewport;
      newViewport := dirtyViewport;
      dirtyViewport := EmptyViewport;
    }
  }

  // ---------------------------------------------------------------- the canvas

  /** The pixel buffer wrapped by the displayed image. */
  datatype PixelBinding = Unbound | Bound(raw: array<bv32>, width: int, height: int)

  class NativeRenderingCanvas {
    /** Renders through the service instead of on the calling thread (a constant `false` in the source). */
    const asynchronous: bool
    const renderer: NativeRenderer
    const service: RenderingService

    var nrViewport: Viewport
    var mx: real
    var my: real
    var inScrollBrackets: bool
    var oldRaw: array?<bv32>
    var newRaw: array?<bv32>
    var pixelBuffer: PixelBinding
    /** An image is set on the image view. */
    var imageSet: bool
    /** The image view's viewport: the frame of the stacked buffer on screen. */
    var shownFrame: Option<Rect>
    var paneWidth: real
    var paneHeight: real

    ghost predicate Valid()
      reads this, renderer, service
    {
      && renderer.Valid() && service.Valid() && 0 <= service.value < NumBuffers
      && paneWidth >= 0.0 && paneHeight >= 0.0
      && (renderer.buf != null ==> renderer.buffers == NumBuffers)
      && newRaw == renderer.buf
      // the image wraps the buffer it was last bound to, and that buffer has not been freed
      && (pixelBuffer.Bound? <==> oldRaw != null)
      && (pixelBuffer.Bound? ==> pixelBuffer.raw == oldRaw)
      && (oldRaw != null ==> oldRaw == renderer.buf || oldRaw == renderer.bakBuf)
      && (service.state != Running ==> oldRaw == newRaw)
      // once a non-empty viewport has been rendered there is a buffer
      && (!asynchronous ==> service.Snapshot() == Mailbox(Ready, EmptyViewport, EmptyViewport, EmptyViewport))
      && (!asynchronous && !nrViewport.IsEmpty() ==> newRaw != null)
      && (asynchronous && !service.newViewport.IsEmpty() ==> newRaw != null)
    }

    /** The image is never backed by a buffer the renderer has freed. */
    lemma ShownBufferLive()
      requires Valid()
      ensures pixelBuffer.Bound? ==> pixelBuffer.raw !in renderer.freed
    {
    }

    constructor (asynchronous: bool)
      ensures Valid()
      ensures this.asynchronous == asynchronous && fresh(renderer) && fresh(service)
      ensures nrViewport == EmptyViewport && mx == 0.0 && my == 0.0 && !inScrollBrackets
      ensures pixelBuffer == Unbound && !imageSet && shownFrame == None && renderer.trace == []
    {
      this.asynchronous := asynchronous;
      renderer := new NativeRenderer();
      service := new RenderingService();
      nrViewport := EmptyViewport;
      mx, my := 0.0, 0.0;
      inScrollBrackets := false;
      oldRaw, newRaw := null, null;
      pixelBuffer := Unbound;
      imageSet := false;
      shownFrame := None;
      paneWidth, paneHeight := 0.0, 0.0;
    }

    /**
     * The effect of `render(target)`: an empty target changes nothing; otherwise the target
     * becomes the current viewport and is either rendered and shown at once or handed to the
     * service.
     */
    twostate predicate Rendered(target: Viewport)
      reads this, renderer, service
    {
      && inScrollBrackets == old(inScrollBrackets)
      && nrViewport == (if target.IsEmpty() then old(nrViewport) else target)
      && (target.IsEmpty() ==>
            && renderer.trace == old(renderer.trace) && service.Snapshot() == old(service.Snapshot())
            && shownFrame == old(shownFrame) && pixelBuffer == old(pixelBuffer))
      && (!asynchronous && !target.IsEmpty() && paneWidth >= 0.0 && paneHeight >= 0.0 ==>
            exists index :: 0 <= index < NumBuffers
                            && (SizeChanged(target, old(nrViewport)) ==> index == 1)
                            && renderer.trace == old(renderer.trace) + ActionCalls(target, old(nrViewport), index)
                            && shownFrame == Some(FrameOf(index, target, paneWidth, paneHeight)))
      && (asynchronous ==>
            && renderer.trace == old(renderer.trace)
            && service.Snapshot() == Requested(old(service.Snapshot()), target)
            && shownFrame == old(shownFrame) && pixelBuffer == old(pixelBuffer))
    }

    /** Renders a non-empty viewport and makes it the current one; an empty viewport is ignored. */
    method Render(viewport: Viewport)
      requires Valid()
      modifies this, renderer, renderer.buf, service
      ensures Valid()
      ensures paneWidth == old(paneWidth) && paneHeight == old(paneHeight)
      ensures Rendered(viewport)
      ensures mx == old(mx) && my == old(my)
      ensures viewport.IsEmpty() ==> unchanged(this) && unchanged(renderer) && unchanged(service)
      ensures viewport.IsEmpty() && renderer.buf != null ==> renderer.buf[..] == old(renderer.buf[..])
    {
      if !viewport.IsEmpty() {
        if asynchronous {
          service.RenderIfIdle(viewport);
        } else {
          var index := RenderAction(viewport, nrViewport);
          RenderUpdate(index, viewport);
          assert renderer.trace == old(renderer.trace) + ActionCalls(viewport, old(nrViewport), index);
        }
        nrViewport := viewport;
      }
    }

    /**
     * Reallocates the native buffer when the size changed, moves the renderer's view to the new
     * origin and renders; returns the slot rendered into.
     */
    method RenderAction(newViewport: Viewport, oldViewport: Viewport) returns (index: int)
      requires renderer.Valid() && (renderer.buf != null ==> renderer.buffers == NumBuffers)
      requires newRaw == renderer.buf
      modifies this, renderer, renderer.buf
      ensures renderer.Valid() && (renderer.buf != null ==> renderer.buffers == NumBuffers)
      ensures newRaw == renderer.buf
      ensures 0 <= index < NumBuffers
      ensures SizeChanged(newViewport, oldViewport) ==> index == 1
      ensures renderer.trace == old(renderer.trace) + ActionCalls(newViewport, oldViewport, index)
      ensures SizeChanged(newViewport, oldViewport) ==>
                newRaw != null && fresh(newRaw) && renderer.bakBuf == old(newRaw)
                && renderer.viewWidth == newViewport.width && renderer.viewHeight == newViewport.height
      ensures !SizeChanged(newViewport, oldViewport) ==> newRaw == old(newRaw) && renderer.bakBuf == old(renderer.bakBuf)
      ensures renderer.viewX == newViewport.minX && renderer.viewY == newViewport.minY
      ensures renderer.freed == old(renderer.freed) + (if SizeChanged(newViewport, oldViewport) && old(renderer.bakBuf) != null
                                                       then {old(renderer.bakBuf)} else {})
      ensures nrViewport == old(nrViewport) && mx == old(mx) && my == old(my) && inScrollBrackets == old(inScrollBrackets)
      ensures oldRaw == old(oldRaw) && pixelBuffer == old(pixelBuffer) && imageSet == old(imageSet)
      ensures shownFrame == old(shownFrame) && paneWidth == old(paneWidth) && paneHeight == old(paneHeight)
    {
      if SizeChanged(newViewport, oldViewport) {
        newRaw := renderer.CreateCanvas(newViewport.width, newViewport.height, NumBuffers, IntArgbPre);
      }
      renderer.MoveTo(newViewport.minX, newViewport.minY);
      index := renderer.Render();
    }

    /**
     * Shows slot `index`: rebinds the image to the raw buffer when it changed, then sets the
     * frame of the stacked buffer the image view displays.
     */
    method RenderUpdate(index: int, viewport: Viewport)
      requires 0 <= index < NumBuffers && paneWidth >= 0.0 && paneHeight >= 0.0
      requires newRaw != oldRaw || pixelBuffer.Bound?
      requires newRaw != oldRaw ==> newRaw != null
      modifies this
      ensures newRaw == old(newRaw) && paneWidth == old(paneWidth) && paneHeight == old(paneHeight)
      ensures newRaw != old(oldRaw) ==>
                newRaw != null && oldRaw == newRaw && imageSet
                && pixelBuffer == Bound(newRaw, viewport.width, NumBuffers * viewport.height)
      ensures newRaw == old(oldRaw) ==> oldRaw == old(oldRaw) && pixelBuffer == old(pixelBuffer) && imageSet == old(imageSet)
      ensures shownFrame == Some(FrameOf(index, viewport, paneWidth, paneHeight))
      ensures nrViewport == old(nrViewport) && mx == old(mx) && my == old(my) && inScrollBrackets == old(inScrollBrackets)
    {
      if newRaw != oldRaw {
        oldRaw := newRaw;
        pixelBuffer := Bound(newRaw, viewport.width, NumBuffers * viewport.height);
        imageSet := true;
      }
      shownFrame := Some(FrameOf(index, viewport, paneWidth, paneHeight));
    }

    /** The service's task runs: it takes the dirty viewport and renders it; its value is the slot. */
    method OnTaskRun()
      requires Valid() && asynchronous && service.state == Scheduled
      modifies this, renderer, renderer.buf, service
      ensures Valid()
      ensures service.Snapshot() == TaskStarted(old(service.Snapshot()))
      ensures 0 <= service.value < NumBuffers
      ensures renderer.trace == old(renderer.trace)
                                + ActionCalls(service.newViewport, service.oldViewport, service.value)
      ensures nrViewport == old(nrViewport) && pixelBuffer == old(pixelBuffer) && shownFrame == old(shownFrame)
    {
      service.TakeDirty();
      var index := RenderAction(service.newViewport, service.oldViewport);
      service.value := index;
    }

    /** The rendering task succeeded: its frame is shown, then whatever was requested meanwhile is rendered. */
    method OnTaskSucceeded()
      requires Valid() && asynchronous && service.state == Running
      modifies this, service
      ensures Valid()
      ensures service.Snapshot() == HandledSuccess(old(service.Snapshot()))
      ensures shownFrame == Some(FrameOf(old(service.value), service.newViewport, paneWidth, paneHeight))
      ensures oldRaw == newRaw
      ensures newRaw != old(oldRaw) ==>
                pixelBuffer == Bound(newRaw, service.newViewport.width, NumBuffers * service.newViewport.height)
      ensures renderer.trace == old(renderer.trace) && nrViewport == old(nrViewport)
    {
      service.state := Succeeded;
      RenderUpdate(service.value, service.newViewport);
      service.RenderIfIdle(service.dirtyViewport);
    }

    // ------------------------------------------------------------ input handlers

    /** The pane was resized: render the current origin with a size covering the new pane. */
    method OnResize(width: real, height: real)
      requires Valid() && width >= 0.0 && height >= 0.0
      modifies this, renderer, renderer.buf, service
      ensures Valid()
      ensures paneWidth == width && paneHeight == height && mx == old(mx) && my == old(my)
      ensures Rendered(old(nrViewport).WithSizeIncrement(TruncToInt(width), TruncToInt(height), ViewIncrement))
    {
      paneWidth, paneHeight := width, height;
      Render(nrViewport.WithSizeIncrement(TruncToInt(width), TruncToInt(height), ViewIncrement));
    }

    /** A real (not synthesized) press remembers the pointer position. */
    method OnMousePressed(x: real, y: real, synthesized: bool)
      modifies this`mx, this`my
      ensures !synthesized ==> mx == x && my == y
      ensures synthesized ==> mx == old(mx) && my == old(my)
      ensures nrViewport == old(nrViewport) && inScrollBrackets == old(inScrollBrackets)
      ensures oldRaw == old(oldRaw) && newRaw == old(newRaw) && pixelBuffer == old(pixelBuffer)
      ensures shownFrame == old(shownFrame) && paneWidth == old(paneWidth) && paneHeight == old(paneHeight)
    {
      if !synthesized {
        mx := x;
        my := y;
      }
    }

    /** A real release forgets the pointer position. */
    method OnMouseReleased(synthesized: bool)
      modifies this`mx, this`my
      ensures !synthesized ==> mx == 0.0 && my == 0.0
      ensures synthesized ==> mx == old(mx) && my == old(my)
      ensures nrViewport == old(nrViewport) && inScrollBrackets == old(inScrollBrackets)
      ensures oldRaw == old(oldRaw) && newRaw == old(newRaw) && pixelBuffer == old(pixelBuffer)
      ensures shownFrame == old(shownFrame) && paneWidth == old(paneWidth) && paneHeight == old(paneHeight)
    {
      if !synthesized {
        mx := 0.0;
        my := 0.0;
      }
    }

    /** A real drag moves the viewport against the pointer movement, truncated to whole pixels. */
    method OnMouseDragged(x: real, y: real, synthesized: bool)
      requires Valid()
      modifies this, renderer, renderer.buf, service
      ensures Valid()
      ensures paneWidth == old(paneWidth) && paneHeight == old(paneHeight)
      ensures synthesized ==> unchanged(this) && unchanged(renderer) && unchanged(service)
      ensures synthesized && renderer.buf != null ==> renderer.buf[..] == old(renderer.buf[..])
      ensures !synthesized ==> mx == x && my == y
      ensures !synthesized ==>
                Rendered(old(nrViewport).WithDeltaLocation(TruncToInt(old(mx) - x), TruncToInt(old(my) - y)))
    {
      if !synthesized {
        var newViewport := nrViewport.WithDeltaLocation(TruncToInt(mx - x), TruncToInt(my - y));
        mx := x;
        my := y;
        Render(newViewport);
      }
    }

    /** Opens a scroll gesture; only the bracket flag changes. */
    method OnScrollStarted()
      modifies this`inScrollBrackets
      ensures inScrollBrackets
      ensures nrViewport == old(nrViewport) && mx == old(mx) && my == old(my)
    {
      inScrollBrackets := true;
    }

    /** Closes a scroll gesture; only the bracket flag changes. */
    method OnScrollFinished()
      modifies this`inScrollBrackets
      ensures !inScrollBrackets
      ensures nrViewport == old(nrViewport) && mx == old(mx) && my == old(my)
    {
      inScrollBrackets := false;
    }

    /** A scroll zooms (keeps the viewport, not implemented yet) or pans by the negated deltas. */
    method OnScroll(deltaX: real, deltaY: real, totalDeltaY: real, inertia: bool)
      requires Valid()
      modifies this, renderer, renderer.buf, service
      ensures Valid()
      ensures mx == old(mx) && my == old(my) && paneWidth == old(paneWidth) && paneHeight == old(paneHeight)
      ensures Rendered(ScrollTarget(old(nrViewport),
                                    ClassifyScroll(old(inScrollBrackets), inertia, deltaX, deltaY, totalDeltaY),
                                    deltaX, deltaY))
    {
      var action: ScrollAction;
      if !inScrollBrackets && !inertia && Abs(deltaX) == 0.0 && deltaY == totalDeltaY && Abs(deltaY) > 1.0000001 {
        action := Zoom;
      } else {
        action := Pan;
      }
      var newViewport;
      if action == Zoom {
        newViewport := nrViewport;
      } else {
        newViewport := nrViewport.WithDeltaLocation(TruncToInt(-deltaX), TruncToInt(-deltaY));
      }
      Render(newViewport);
    }

    /** Zoom and rotate gestures are not implemented yet: they re-render the current viewport. */
    method OnZoomOrRotate()
      requires Valid()
      modifies this, renderer, renderer.buf, service
      ensures Valid()
      ensures mx == old(mx) && my == old(my) && paneWidth == old(paneWidth) && paneHeight == old(paneHeight)
      ensures Rendered(old(nrViewport))
    {
      Render(nrViewport);
    }

    /** Forgets the viewport and the scroll brackets and drops the image. */
    method Dispose()
      requires Valid()
      modifies this
      ensures Valid()
      ensures nrViewport == EmptyViewport && !inScrollBrackets && !imageSet
      ensures mx == old(mx) && my == old(my) && shownFrame == old(shownFrame)
      ensures oldRaw == old(oldRaw) && newRaw == old(newRaw) && pixelBuffer == old(pixelBuffer)
    {
      nrViewport := EmptyViewport;
      inScrollBrackets := false;
      imageSet := false;
    }
  }

  /** A 70 x 70 pane gets a 128 x 128 renderer viewport. */
  lemma FirstResizeSize()
    ensures EmptyViewport.WithSizeIncrement(TruncToInt(70.0), TruncToInt(70.0), ViewIncrement) == Viewport(0, 0, 128, 128)
  {
    assert TruncToInt(70.0) == 70;
    SizeIncrementExamples();
  }

  /**
   * A synchronous canvas shown in a 70 x 70 pane: the renderer gets a 128 x 128 buffer, the
   * first frame goes to slot 1 and the view shows the 70 x 70 top-left part of that slot.
   */
  method FirstResizeScenario() returns (frame: Option<Rect>, ghost calls: seq<RendererCall>)
    ensures calls == [CreateCanvasCall(128, 128, 2, IntArgbPre), MoveToCall(0, 0), RenderCall(1)]
    ensures frame == Some(Rect(0.0, 128.0, 70.0, 70.0))
  {
    var v := Viewport(0, 0, 128, 128);
    FirstResizeSize();
    var canvas := new NativeRenderingCanvas(false);
    canvas.OnResize(70.0, 70.0);
    ghost var index :| 0 <= index < NumBuffers && (SizeChanged(v, EmptyViewport) ==> index == 1)
                       && canvas.renderer.trace == [] + ActionCalls(v, EmptyViewport, index)
                       && canvas.shownFrame == Some(FrameOf(index, v, 70.0, 70.0));
    frame := canvas.shownFrame;
    calls := canvas.renderer.trace;
  }
}

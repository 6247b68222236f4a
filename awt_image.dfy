/**
 * An AWT image whose pixel array is shared with a JavaFX image. Drawing happens in
 * update callbacks; what the model keeps of a callback is the dirty rectangle it
 * returns, and of the JavaFX pixel buffer the sequence of refresh hints it received.
 */
module AwtImages {
  import opened Wrappers

  /** A `java.awt.geom.Rectangle2D` returned by a callback. */
  datatype AwtRect = AwtRect(x: real, y: real, width: real, height: real) {
    /** AWT calls a rectangle empty when it has no positive width or no positive height. */
    predicate IsEmpty() {
      width <= 0.0 || height <= 0.0
    }
  }

  /** A `javafx.geometry.Rectangle2D` handed back to the pixel buffer as the dirty region. */
  datatype FxRect = FxRect(minX: real, minY: real, width: real, height: real)

  /** `Rectangle2D.EMPTY`: nothing needs repainting. */
  const EmptyFxRect := FxRect(0.0, 0.0, 0.0, 0.0)

  /**
   * A refresh hint: `None` is the null region (the whole image changed), `Some(r)` the region
   * `r`, where `EmptyFxRect` means nothing changed.
   */
  type RefreshHint = Option<FxRect>

  /** An update callback, reduced to the dirty rectangle it returns after drawing (null is `None`). */
  datatype UpdateCallback = UpdateCallback(name: string, dirty: Option<AwtRect>)

  /** The region the pixel buffer is told to refresh for what a callback returned. */
  function HintOf(dirty: Option<AwtRect>): (h: RefreshHint)
    ensures dirty.None? <==> h.None?
    ensures dirty.Some? && dirty.value.IsEmpty() ==> h == Some(EmptyFxRect)
    ensures dirty.Some? && !dirty.value.IsEmpty() ==>
              h == Some(FxRect(dirty.value.x, dirty.value.y, dirty.value.width, dirty.value.height))
  {
    match dirty
    case None => None
    case Some(r) =>
      if r.IsEmpty() then Some(EmptyFxRect) else Some(FxRect(r.x, r.y, r.width, r.height))
  }

  /** A hint says "nothing changed" exactly when the callback returned an empty rectangle. */
  lemma NothingChangedIffEmpty(dirty: Option<AwtRect>)
    ensures HintOf(dirty) == Some(EmptyFxRect) <==> (dirty.Some? && dirty.value.IsEmpty())
  {
  }

  /** A region hint always has positive width and height. */
  lemma RegionHintPositive(dirty: Option<AwtRect>)
    requires HintOf(dirty).Some? && HintOf(dirty) != Some(EmptyFxRect)
    ensures HintOf(dirty).value.width > 0.0 && HintOf(dirty).value.height > 0.0
  {
  }

  class AWTImage {
    const width: int
    const height: int
    /** The image's `int[]` raster, shared with the JavaFX pixel buffer. */
    const raw: array<bv32>
    var registered: Option<UpdateCallback>
    /** Every refresh hint handed to the pixel buffer, oldest first. */
    ghost var refreshes: seq<RefreshHint>
    /** Every callback that was run to draw, oldest first. */
    ghost var drawn: seq<UpdateCallback>

    ghost predicate Valid() {
      width > 0 && height > 0 && raw.Length == width * height
    }

    /** Wraps an image of `width` x `height` pixels and shows all of it once. */
    constructor Wrap(raw: array<bv32>, width: int, height: int)
      requires width > 0 && height > 0 && raw.Length == width * height
      ensures Valid()
      ensures this.raw == raw && this.width == width && this.height == height
      ensures registered == None && refreshes == [None] && drawn == []
    {
      this.raw := raw;
      this.width := width;
      this.height := height;
      registered := None;
      refreshes := [None];
      drawn := [];
    }

    /** Creates a fresh `width` x `height` image and shows all of it once. */
    constructor (width: int, height: int)
      requires width > 0 && height > 0
      ensures Valid() && fresh(raw)
      ensures this.width == width && this.height == height
      ensures registered == None && refreshes == [None] && drawn == []
    {
      this.raw := new bv32[width * height];
      this.width := width;
      this.height := height;
      registered := None;
      refreshes := [None];
      drawn := [];
    }

    /** The width reported is that of the wrapped image: its rows of `width` pixels fill the raster. */
    function GetWidth(): (w: int)
      requires Valid()
      ensures w > 0 && w * height == raw.Length
    {
      width
    }

    function GetHeight(): (h: int)
      requires Valid()
      ensures h > 0 && width * h == raw.Length
    {
      height
    }

    /** Runs a one-time callback and refreshes the region it reports; a missing callback does nothing. */
    method Update(callback: Option<UpdateCallback>)
      modifies this
      ensures registered == old(registered)
      ensures callback.None? ==> refreshes == old(refreshes) && drawn == old(drawn)
      ensures callback.Some? ==>
                && drawn == old(drawn) + [callback.value]
                && refreshes == old(refreshes) + [HintOf(callback.value.dirty)]
    {
      if callback.Some? {
        drawn := drawn + [callback.value];
        refreshes := refreshes + [HintOf(callback.value.dirty)];
      }
    }

    method SetOnUpdate(callback: Option<UpdateCallback>)
      modifies this
      ensures registered == callback
      ensures refreshes == old(refreshes) && drawn == old(drawn)
    {
      registered := callback;
    }

    /** Runs the callback registered last, if any. */
    method UpdateRegistered()
      modifies this
      ensures registered == old(registered)
      ensures registered.None? ==> refreshes == old(refreshes) && drawn == old(drawn)
      ensures registered.Some? ==>
                && drawn == old(drawn) + [registered.value]
                && refreshes == old(refreshes) + [HintOf(registered.value.dirty)]
    {
      Update(registered);
    }
  }

  /**
   * Registering two callbacks and updating runs only the second; its empty rectangle becomes
   * the "nothing changed" hint after the constructor's full refresh.
   */
  method LastRegistrationWins() returns (ghost hints: seq<RefreshHint>, ghost ran: seq<UpdateCallback>)
    ensures ran == [UpdateCallback("second", Some(AwtRect(5.0, 5.0, 0.0, 3.0)))]
    ensures hints == [None, Some(EmptyFxRect)]
  {
    var image := new AWTImage(4, 3);
    image.SetOnUpdate(Some(UpdateCallback("first", None)));
    image.SetOnUpdate(Some(UpdateCallback("second", Some(AwtRect(5.0, 5.0, 0.0, 3.0)))));
    image.UpdateRegistered();
    hints := image.refreshes;
    ran := image.drawn;
  }
}

/**
 * The C side of the native renderer: process-wide buffer and view state, a buffer of
 * `buffers` stacked frame slots, round-robin slot selection, and clipped filling of a
 * slot. The C globals become the fields of one `NativeRenderer` object; `malloc`/`free`
 * become array allocation plus a ghost set of freed buffers; each entry point appends
 * to a ghost trace so that callers can state which renderer calls they made.
 */
module NativeRendering {
  import Viewports

  const AlphaMask: bv32 := 0xFF00_0000
  const EvenColor: bv32 := 0xFFFF_0000
  const OddColor: bv32 := 0xFF00_FF00
  const BgColor: bv32 := 0xFF00_00FF

  const NumTilesX := 11
  const NumTilesY := 11
  const TileSize := 256

  /** `NativeColorModel.INT_ARGB_PRE.ordinal()`, the only colour model the renderer accepts. */
  const IntArgbPre := 0

  /** A call into the renderer, as recorded in its trace. */
  datatype RendererCall =
    | CreateCanvasCall(width: int, height: int, numBuffers: int, nativeColorModel: int)
    | MoveToCall(x: int, y: int)
    | RenderCall(index: int)

  /** The renderer's global variables at one moment. */
  datatype RendererState = RendererState(
    buf: array?<bv32>, bakBuf: array?<bv32>,
    singleSize: int, totalSizeBytes: int,
    buffers: int, index: int, offset: int,
    viewX: int, viewY: int, viewWidth: int, viewHeight: int)

  /** The arguments `createCanvas` accepts. */
  predicate Accepts(numBuffers: int, nativeColorModel: int) {
    1 <= numBuffers <= 2 && nativeColorModel == IntArgbPre
  }

  /** The slot `render` moves to: the next one, wrapping to 0 after the last. */
  function NextIndex(index: int, buffers: int): int {
    if index + 1 >= buffers then 0 else index + 1
  }

  /** Cell (x, y) of the `width` x `height` slot starting at `offset`, stored row by row. */
  function CellIndex(offset: int, width: int, height: int, x: int, y: int): (i: int)
    requires 0 <= x < width && 0 <= y < height
    ensures offset <= i < offset + width * height
  {
    Viewports.MulMono(y + 1, height, width);
    assert width * y + width == (y + 1) * width;
    offset + width * y + x
  }

  /** The colours a rendered frame consists of. */
  predicate IsFrameColor(v: bv32) {
    v == BgColor | AlphaMask || v == EvenColor | AlphaMask || v == OddColor | AlphaMask
  }

  /** The clipping test of `fill`: some x end and some y end of the shifted rectangle lie in the view. */
  predicate FillGuard(fboMinX: int, fboMinY: int, fboMaxX: int, fboMaxY: int, viewWidth: int, viewHeight: int) {
    ((0 <= fboMinX < viewWidth) || (0 <= fboMaxX < viewWidth))
    && ((0 <= fboMinY < viewHeight) || (0 <= fboMaxY < viewHeight))
  }

  lemma {:induction false} NextIndexInRange(index: int, buffers: int)
    requires 0 <= index < buffers
    ensures 0 <= NextIndex(index, buffers) < buffers
    ensures NextIndex(index, buffers) == (index + 1) % buffers
  {
    if index + 1 < buffers {
      assert (index + 1) % buffers == index + 1;
    } else {
      assert index + 1 == buffers;
    }
  }

  /** Where slot `index` starts, for slots of `single` cells. */
  function SlotOffset(index: int, single: int): int {
    index * single
  }

  /**
   * Cells of `buffers` slots of `single` cells each: every slot lies within the buffer and
   * the last slot ends exactly at its end.
   */
  function SlotsSize(single: int, buffers: int): (n: nat)
    requires single >= 0 && 1 <= buffers <= 2
    ensures n == single * buffers
    ensures forall k :: 0 <= k < buffers ==> 0 <= SlotOffset(k, single) && SlotOffset(k, single) + single <= n
    ensures SlotOffset(buffers - 1, single) + single == n
  {
    assert SlotOffset(0, single) == 0;
    assert buffers == 2 ==> SlotOffset(1, single) == single;
    single * buffers
  }

  /** Row `y` of a `width` x `height` view lies within the view's cells. */
  lemma RowInSlot(width: int, height: int, y: int)
    requires 0 <= y < height && width >= 0
    ensures 0 <= width * y && width * y + width <= width * height
  {
    Viewports.MulMono(0, y, width);
    Viewports.MulMono(y + 1, height, width);
    assert width * y + width == (y + 1) * width;
  }

  /** A cell of an earlier row comes before row `y`. */
  lemma CellBeforeRow(offset: int, width: int, height: int, x: int, yy: int, y: int)
    requires 0 <= x < width && 0 <= yy < y < height
    ensures CellIndex(offset, width, height, x, yy) < offset + width * y
  {
    Viewports.MulMono(yy + 1, y, width);
    assert width * yy + width == (yy + 1) * width;
  }

  /** A cell of a later row comes after row `y`. */
  lemma CellAfterRow(offset: int, width: int, height: int, x: int, yy: int, y: int)
    requires 0 <= x < width && 0 <= y < yy < height
    ensures offset + width * y + width <= CellIndex(offset, width, height, x, yy)
  {
    Viewports.MulMono(y + 1, yy, width);
    assert width * y + width == (y + 1) * width;
  }

  /** Changing only row `y` of a slot leaves every cell of its other rows as it was. */
  lemma OtherRowsKept(before: seq<bv32>, after: seq<bv32>, offset: int, width: int, height: int, y: int)
    requires 0 <= y < height && 0 <= width && 0 <= offset
    requires |before| == |after| && offset + width * height <= |before|
    requires forall i :: 0 <= i < |before| && !(offset + width * y <= i < offset + width * y + width) ==>
               after[i] == before[i]
    ensures forall x, yy :: 0 <= x < width && 0 <= yy < height && yy != y ==>
              after[CellIndex(offset, width, height, x, yy)] == before[CellIndex(offset, width, height, x, yy)]
  {
    forall x, yy | 0 <= x < width && 0 <= yy < height && yy != y
      ensures after[CellIndex(offset, width, height, x, yy)] == before[CellIndex(offset, width, height, x, yy)]
    {
      if yy < y {
        CellBeforeRow(offset, width, height, x, yy, y);
      } else {
        CellAfterRow(offset, width, height, x, yy, y);
      }
    }
  }

  class NativeRenderer {
    var buf: array?<bv32>
    var bakBuf: array?<bv32>
    var bufSingleSizeInt: int
    var bufTotalSizeByte: int
    var buffers: int
    var currentBufferIndex: int
    var currentBufferOffsetInt: int
    var viewX: int
    var viewY: int
    var viewWidth: int
    var viewHeight: int

    /** Buffers handed back to `free`. */
    ghost var freed: set<array<bv32>>
    /** Every call made to the renderer, oldest first. */
    ghost var trace: seq<RendererCall>

    ghost predicate Valid()
      reads this
    {
      && (buf != null ==>
            && 1 <= buffers <= 2
            && 0 <= currentBufferIndex < buffers
            && 0 <= viewWidth && 0 <= viewHeight
            && bufSingleSizeInt == viewWidth * viewHeight && bufSingleSizeInt >= 0
            // with at most two slots, the products of the C code are sums
            && buf.Length == (if buffers == 1 then bufSingleSizeInt else bufSingleSizeInt + bufSingleSizeInt)
            && bufTotalSizeByte == buf.Length * 4
            && currentBufferOffsetInt == (if currentBufferIndex == 0 then 0 else bufSingleSizeInt)
            && buf !in freed)
      && (bakBuf != null ==> bakBuf != buf && bakBuf !in freed)
    }

    function State(): RendererState
      reads this
    {
      RendererState(buf, bakBuf, bufSingleSizeInt, bufTotalSizeByte, buffers,
                    currentBufferIndex, currentBufferOffsetInt, viewX, viewY, viewWidth, viewHeight)
    }

    /** Cell `i` of the buffer belongs to the current slot. */
    ghost predicate InSlot(i: int)
      reads this
    {
      currentBufferOffsetInt <= i < currentBufferOffsetInt + bufSingleSizeInt
    }

    /** The globals as the C program starts: everything zero, no buffer. */
    constructor ()
      ensures Valid()
      ensures State() == RendererState(null, null, 0, 0, 0, 0, 0, 0, 0, 0, 0)
      ensures freed == {} && trace == []
    {
      buf, bakBuf := null, null;
      bufSingleSizeInt, bufTotalSizeByte := 0, 0;
      buffers, currentBufferIndex, currentBufferOffsetInt := 0, 0, 0;
      viewX, viewY, viewWidth, viewHeight := 0, 0, 0, 0;
      freed, trace := {}, [];
    }

    /**
     * Allocates `numBuffers` stacked slots of `width` x `height` cells and resets the view and
     * slot state. The buffer replaced here is kept as `bakBuf` for one more generation, since a
     * rendering thread may still read it; the one kept before is freed.
     */
    method CreateCanvas(width: int, height: int, numBuffers: int, nativeColorModel: int) returns (raw: array?<bv32>)
      requires Valid()
      requires width >= 0 && height >= 0
      modifies this
      ensures Valid()
      ensures trace == old(trace) + [CreateCanvasCall(width, height, numBuffers, nativeColorModel)]
      ensures !Accepts(numBuffers, nativeColorModel) ==>
                raw == null && State() == old(State()) && freed == old(freed)
      ensures Accepts(numBuffers, nativeColorModel) ==>
                && raw != null && fresh(raw) && raw == buf
                && raw.Length == width * height * numBuffers
                && State() == RendererState(raw, old(buf), width * height, raw.Length * 4,
                                            numBuffers, 0, 0, 0, 0, width, height)
                && freed == old(freed) + (if old(bakBuf) == null then {} else {old(bakBuf)})
    {
      trace := trace + [CreateCanvasCall(width, height, numBuffers, nativeColorModel)];
      if 1 <= numBuffers && numBuffers <= 2 && nativeColorModel == IntArgbPre {
        raw := Reset(width, height, numBuffers);
      } else {
        raw := null;
      }
    }

    /** The accepted branch of `createCanvas`: new view, new slots, one buffer generation retired. */
    method Reset(width: int, height: int, numBuffers: int) returns (raw: array<bv32>)
      requires Valid()
      requires width >= 0 && height >= 0 && 1 <= numBuffers <= 2
      modifies this
      ensures Valid() && trace == old(trace)
      ensures fresh(raw) && raw == buf && raw.Length == width * height * numBuffers
      ensures State() == RendererState(raw, old(buf), width * height, raw.Length * 4,
                                       numBuffers, 0, 0, 0, 0, width, height)
      ensures freed == old(freed) + (if old(bakBuf) == null then {} else {old(bakBuf)})
    {
      var single := width * height;
      Viewports.MulMono(0, width, height);
      var total := SlotsSize(single, numBuffers);
      raw := Reallocate(total);

      viewX, viewY, viewWidth, viewHeight := 0, 0, width, height;
      buffers, currentBufferIndex := numBuffers, 0;
      bufSingleSizeInt, currentBufferOffsetInt, bufTotalSizeByte := single, 0, total * 4;
    }

    /** Frees the buffer kept back, keeps the current one back and allocates `total` fresh cells. */
    method Reallocate(total: nat) returns (raw: array<bv32>)
      requires bakBuf != null ==> bakBuf != buf && bakBuf !in freed
      requires buf != null ==> buf !in freed
      modifies this`buf, this`bakBuf, this`freed
      ensures fresh(raw) && raw.Length == total && buf == raw && bakBuf == old(buf)
      ensures freed == old(freed) + (if old(bakBuf) == null then {} else {old(bakBuf)})
      ensures buf !in freed && (bakBuf != null ==> bakBuf != buf && bakBuf !in freed)
    {
      raw := new bv32[total];
      if bakBuf != null {
        freed := freed + {bakBuf};
      }
      bakBuf, buf := buf, raw;
    }

    /** Sets the origin of the view; nothing else changes. */
    method MoveTo(x: int, y: int)
      modifies this
      ensures State() == old(State()).(viewX := x, viewY := y)
      ensures freed == old(freed)
      ensures trace == old(trace) + [MoveToCall(x, y)]
      ensures Valid() == old(Valid())
    {
      trace := trace + [MoveToCall(x, y)];
      viewX := x;
      viewY := y;
    }

    /** Paints every cell of the current slot in the background colour. */
    method FboClear()
      requires Valid() && buf != null
      modifies buf
      ensures forall i :: 0 <= i < buf.Length && !InSlot(i) ==> buf[i] == old(buf[i])
      ensures forall i :: 0 <= i < buf.Length && InSlot(i) ==> buf[i] == BgColor | AlphaMask
    {
      var c := BgColor | AlphaMask;
      var i := 0;
      while i < bufSingleSizeInt
        invariant 0 <= i <= bufSingleSizeInt
        invariant forall j :: 0 <= j < buf.Length && !InSlot(j) ==> buf[j] == old(buf[j])
        invariant forall j :: currentBufferOffsetInt <= j < currentBufferOffsetInt + i ==> buf[j] == c
      {
        buf[currentBufferOffsetInt + i] := c;
        i := i + 1;
      }
    }

    /**
     * Paints the cells (x, y) of the rectangle [minx, maxx] x [miny, maxy] that lie in the view,
     * in the current slot; no other cell changes.
     */
    method FboFill(minx: int, miny: int, maxx: int, maxy: int, color: bv32)
      requires Valid() && buf != null
      modifies buf
      ensures forall i :: 0 <= i < buf.Length && !InSlot(i) ==> buf[i] == old(buf[i])
      ensures forall i :: 0 <= i < buf.Length && buf[i] != old(buf[i]) ==> buf[i] == color | AlphaMask
      ensures forall x, y :: minx <= x <= maxx && miny <= y <= maxy && 0 <= x < viewWidth && 0 <= y < viewHeight ==>
                buf[CellIndex(currentBufferOffsetInt, viewWidth, viewHeight, x, y)] == color | AlphaMask
      ensures forall x, y :: 0 <= x < viewWidth && 0 <= y < viewHeight && !(minx <= x <= maxx && miny <= y <= maxy) ==>
                buf[CellIndex(currentBufferOffsetInt, viewWidth, viewHeight, x, y)]
                == old(buf[CellIndex(currentBufferOffsetInt, viewWidth, viewHeight, x, y)])
    {
      var c := color | AlphaMask;
      var y := miny;
      while y <= maxy
        invariant miny <= y && (y <= maxy + 1 || y == miny)
        invariant forall i :: 0 <= i < buf.Length && !InSlot(i) ==> buf[i] == old(buf[i])
        invariant forall i :: 0 <= i < buf.Length && buf[i] != old(buf[i]) ==> buf[i] == c
        invariant forall x, yy :: minx <= x <= maxx && miny <= yy < y && 0 <= x < viewWidth && 0 <= yy < viewHeight ==>
                    buf[CellIndex(currentBufferOffsetInt, viewWidth, viewHeight, x, yy)] == c
        invariant forall x, yy :: 0 <= x < viewWidth && 0 <= yy < viewHeight && !(minx <= x <= maxx && miny <= yy < y) ==>
                    buf[CellIndex(currentBufferOffsetInt, viewWidth, viewHeight, x, yy)]
                    == old(buf[CellIndex(currentBufferOffsetInt, viewWidth, viewHeight, x, yy)])
      {
        if 0 <= y && y < viewHeight {
          RowInSlot(viewWidth, viewHeight, y);
          ghost var before := buf[..];
          FboFillRow(y, minx, maxx, c);
          OtherRowsKept(before, buf[..], currentBufferOffsetInt, viewWidth, viewHeight, y);
        }
        y := y + 1;
      }
    }

    /** Cell `i` of the buffer lies in row `y` of the current slot. */
    ghost predicate InRow(y: int, i: int)
      reads this
    {
      currentBufferOffsetInt + viewWidth * y <= i < currentBufferOffsetInt + viewWidth * y + viewWidth
    }

    /** The inner loop of `fbo_fill`: paints the cells of row `y` from `minx` to `maxx` that lie in the view. */
    method FboFillRow(y: int, minx: int, maxx: int, c: bv32)
      requires Valid() && buf != null && 0 <= y < viewHeight
      modifies buf
      ensures forall i :: 0 <= i < buf.Length && !InRow(y, i) ==> buf[i] == old(buf[i])
      ensures forall i :: 0 <= i < buf.Length && buf[i] != old(buf[i]) ==> buf[i] == c
      ensures forall x :: minx <= x <= maxx && 0 <= x < viewWidth ==>
                buf[CellIndex(currentBufferOffsetInt, viewWidth, viewHeight, x, y)] == c
      ensures forall x :: 0 <= x < viewWidth && !(minx <= x <= maxx) ==>
                buf[CellIndex(currentBufferOffsetInt, viewWidth, viewHeight, x, y)]
                == old(buf[CellIndex(currentBufferOffsetInt, viewWidth, viewHeight, x, y)])
    {
      var rowOffsetInt := viewWidth * y;
      ghost var row := currentBufferOffsetInt + rowOffsetInt;
      RowInSlot(viewWidth, viewHeight, y);
      assert row + viewWidth <= buf.Length;
      var x := minx;
      while x <= maxx
        invariant minx <= x && (x <= maxx + 1 || x == minx)
        invariant forall i :: 0 <= i < buf.Length && !(row <= i < row + viewWidth && row + minx <= i < row + x) ==>
                    buf[i] == old(buf[i])
        invariant forall i :: row <= i < row + viewWidth && row + minx <= i < row + x ==> buf[i] == c
      {
        if 0 <= x && x < viewWidth {
          buf[currentBufferOffsetInt + rowOffsetInt + x] := c;
        }
        x := x + 1;
      }
      forall xx | 0 <= xx < viewWidth
        ensures CellIndex(currentBufferOffsetInt, viewWidth, viewHeight, xx, y) == row + xx
      {
      }
    }

    /**
     * Fills the rectangle given in renderer coordinates, shifted into the view, but only when
     * one of its x ends and one of its y ends lie in the view.
     */
    method Fill(minx: int, miny: int, maxx: int, maxy: int, color: bv32)
      requires Valid() && buf != null
      modifies buf
      ensures forall i :: 0 <= i < buf.Length && !InSlot(i) ==> buf[i] == old(buf[i])
      ensures forall i :: 0 <= i < buf.Length && buf[i] != old(buf[i]) ==> buf[i] == color | AlphaMask
      ensures !FillGuard(minx - viewX, miny - viewY, maxx - viewX, maxy - viewY, viewWidth, viewHeight) ==>
                buf[..] == old(buf[..])
      ensures FillGuard(minx - viewX, miny - viewY, maxx - viewX, maxy - viewY, viewWidth, viewHeight) ==>
                forall fx, fy :: minx - viewX <= fx <= maxx - viewX && miny - viewY <= fy <= maxy - viewY
                                 && 0 <= fx < viewWidth && 0 <= fy < viewHeight ==>
                  buf[CellIndex(currentBufferOffsetInt, viewWidth, viewHeight, fx, fy)] == color | AlphaMask
      ensures forall fx, fy :: 0 <= fx < viewWidth && 0 <= fy < viewHeight
                               && !(minx - viewX <= fx <= maxx - viewX && miny - viewY <= fy <= maxy - viewY) ==>
                buf[CellIndex(currentBufferOffsetInt, viewWidth, viewHeight, fx, fy)]
                == old(buf[CellIndex(currentBufferOffsetInt, viewWidth, viewHeight, fx, fy)])
    {
      var fboMinX := minx - viewX;
      var fboMinY := miny - viewY;
      var fboMaxX := maxx - viewX;
      var fboMaxY := maxy - viewY;
      if ((0 <= fboMinX && fboMinX < viewWidth) || (0 <= fboMaxX && fboMaxX < viewWidth))
         && ((0 <= fboMinY && fboMinY < viewHeight) || (0 <= fboMaxY && fboMaxY < viewHeight))
      {
        FboFill(fboMinX, fboMinY, fboMaxX, fboMaxY, color);
      }
    }

    /**
     * Renders one frame: advances to the next slot, clears it and fills the tiles that meet
     * the view into it. Returns the slot written, or 0 without doing anything when no
     * buffer has been created yet.
     */
    method Render() returns (index: int)
      requires Valid()
      modifies this, buf
      ensures Valid()
      ensures trace == old(trace) + [RenderCall(index)]
      ensures freed == old(freed)
      ensures old(buf) == null ==> index == 0 && State() == old(State())
      ensures old(buf) != null ==>
                && 0 <= index < buffers
                && index == (old(currentBufferIndex) + 1) % buffers
                && State() == old(State()).(index := index, offset := index * bufSingleSizeInt)
      ensures buf != null ==> forall i :: 0 <= i < buf.Length && !InSlot(i) ==> buf[i] == old(buf[i])
      ensures buf != null ==> forall i :: 0 <= i < buf.Length && InSlot(i) ==> IsFrameColor(buf[i])
    {
      if buf != null {
        NextIndexInRange(currentBufferIndex, buffers);
        currentBufferIndex := currentBufferIndex + 1;
        if currentBufferIndex >= buffers {
          currentBufferIndex := 0;
        }
        currentBufferOffsetInt := currentBufferIndex * bufSingleSizeInt;
        assert currentBufferOffsetInt == if currentBufferIndex == 0 then 0 else bufSingleSizeInt;

        FboClear();

        var b := buf;
        ghost var cleared := buf[..];
        var k := 0;
        var i := 0;
        while i < NumTilesY
          modifies b
          invariant 0 <= i <= NumTilesY && k == i * NumTilesX
          invariant forall j :: 0 <= j < b.Length && !InSlot(j) ==> b[j] == old(b[j])
          invariant forall j :: 0 <= j < b.Length && InSlot(j) ==> IsFrameColor(b[j])
        {
          var jx := 0;
          while jx < NumTilesX
            modifies b
            invariant 0 <= jx <= NumTilesX && k == i * NumTilesX + jx
            invariant forall j :: 0 <= j < b.Length && !InSlot(j) ==> b[j] == old(b[j])
            invariant forall j :: 0 <= j < b.Length && InSlot(j) ==> IsFrameColor(b[j])
          {
            var minx := jx * TileSize;
            var miny := i * TileSize;
            var maxx := minx + TileSize - 1;
            var maxy := miny + TileSize - 1;
            Fill(minx, miny, maxx, maxy, if k % 2 == 0 then EvenColor else OddColor);
            k := k + 1;
            jx := jx + 1;
          }
          i := i + 1;
        }
        index := currentBufferIndex;
      } else {
        index := 0;
      }
      trace := trace + [RenderCall(index)];
    }
  }

  /** Right after `createCanvas` with two buffers, the first frame goes to slot 1 and the next to slot 0. */
  method FirstFramesScenario() returns (first: int, second: int)
    ensures first == 1 && second == 0
  {
    var r := new NativeRenderer();
    var raw := r.CreateCanvas(128, 64, 2, IntArgbPre);
    first := r.Render();
    second := r.Render();
  }
}

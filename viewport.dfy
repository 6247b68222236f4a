/**
 * The native renderer viewport: the rectangle of renderer space that is currently
 * materialized into the pixel buffer. The class itself is not part of this model; it is
 * represented by an immutable value with the operations the canvas uses.
 */
module Viewports {

  datatype Viewport = Viewport(minX: int, minY: int, width: nat, height: nat) {

    /** A viewport without area is never rendered. */
    predicate IsEmpty() {
      width == 0 || height == 0
    }

    /** The same rectangle moved by (dx, dy). */
    function WithDeltaLocation(dx: int, dy: int): (r: Viewport)
      ensures r.width == width && r.height == height
      ensures r.minX - minX == dx && r.minY - minY == dy
      ensures r.IsEmpty() == IsEmpty()
    {
      Viewport(minX + dx, minY + dy, width, height)
    }

    /**
     * The same origin with a size that covers a pane of `paneWidth` x `paneHeight`, rounded up
     * to multiples of `increment`, so that small pane resizes do not change the buffer size.
     */
    function WithSizeIncrement(paneWidth: nat, paneHeight: nat, increment: nat): (r: Viewport)
      requires increment >= 1
      ensures r.minX == minX && r.minY == minY
      ensures r.width % increment == 0 && r.height % increment == 0
      ensures paneWidth <= r.width < paneWidth + increment
      ensures paneHeight <= r.height < paneHeight + increment
    {
      RoundUpBounds(paneWidth, increment);
      RoundUpBounds(paneHeight, increment);
      Viewport(minX, minY, RoundUp(paneWidth, increment), RoundUp(paneHeight, increment))
    }
  }

  /** The canonical empty viewport the canvas starts from and returns to on dispose. */
  const EmptyViewport := Viewport(0, 0, 0, 0)

  /** Smallest multiple of `k` that is at least `n`. */
  function RoundUp(n: nat, k: nat): nat
    requires k >= 1
  {
    ((n + k - 1) / k) * k
  }

  lemma RoundUpBounds(n: nat, k: nat)
    requires k >= 1
    ensures RoundUp(n, k) % k == 0
    ensures n <= RoundUp(n, k) < n + k
  {
    var q := (n + k - 1) / k;
    var m := (n + k - 1) % k;
    assert n + k - 1 == q * k + m;
    DivModUnique(q * k, k, q, 0);
  }

  lemma MulMono(a: nat, b: nat, k: nat)
    requires a <= b
    ensures a * k <= b * k
  {
  }

  /** Euclidean division has one quotient and one remainder. */
  lemma DivModUnique(a: nat, k: nat, q: nat, r: nat)
    requires k >= 1 && 0 <= r < k && a == q * k + r
    ensures a / k == q && a % k == r
  {
    var q' := a / k;
    if q' > q {
      MulMono(q + 1, q', k);
      assert false;
    } else if q' < q {
      MulMono(q' + 1, q, k);
      assert false;
    }
  }

  /** The sizes the canvas derives for a 70x70 and a 64x1 pane with increment 64. */
  lemma SizeIncrementExamples()
    ensures EmptyViewport.WithSizeIncrement(70, 70, 64) == Viewport(0, 0, 128, 128)
    ensures EmptyViewport.WithSizeIncrement(64, 1, 64) == Viewport(0, 0, 64, 64)
  {
  }
}

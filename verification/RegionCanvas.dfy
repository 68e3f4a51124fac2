/** Normalized shapes and page pixels: half-up rounding, its inverse, and the area test between them. */
module RegionCanvas {
  import opened RegionModel

  datatype CanvasError = PageSizeUnavailable | TooFewPoints | Degenerate
  datatype Converted = Page(geometry: Geometry) | Rejected(error: CanvasError)

  type Ring = seq<(int, int)>

  // ------------------------------------------------------- one axis

  function Clamp(n: int, size: int): int {
    var low := if n > 0 then n else 0;
    if low < size then low else size
  }

  function ToPixels(axis: real, size: int): int { Clamp((axis * size as real + 0.5).Floor, size) }

  lemma PixelsInRange(axis: real, size: int)
    requires size >= 0
    ensures 0 <= ToPixels(axis, size) <= size
  {
  }

  lemma ScaledInOrder(a: real, b: real, k: real)
    requires a <= b && k >= 0.0
    ensures a * k <= b * k
  {
  }

  lemma PixelsMonotone(a: real, b: real, size: int)
    requires a <= b && size >= 0
    ensures ToPixels(a, size) <= ToPixels(b, size)
  {
    ScaledInOrder(a, b, size as real);
  }

  /** The pixel is at most half a pixel from the exact place, and a tie went up. */
  predicate Nearest(pixel: int, axis: real, size: int) { -0.5 < pixel as real - axis * size as real <= 0.5 }

  lemma PixelsWithinHalf(axis: real, size: int)
    requires 0.0 <= axis <= 1.0 && size >= 0
    ensures Nearest(ToPixels(axis, size), axis, size)
  {
    ScaledInOrder(0.0, axis, size as real);
    ScaledInOrder(axis, 1.0, size as real);
  }

  /** Every pixel of the page comes back from its normalized place. */
  lemma PixelsInverse(pixel: int, size: int)
    requires 0 <= pixel <= size && size > 0
    ensures ToPixels(pixel as real / size as real, size) == pixel
    ensures 0.0 <= pixel as real / size as real <= 1.0
  {
    var p, s := pixel as real, size as real;
    assert p / s * s == p;
    assert p / s >= 0.0;
    assert p / s <= 1.0;
    assert (p + 0.5).Floor == pixel;
  }

  // ------------------------------------------------------- the doubled area

  function Cross(a: (int, int), b: (int, int)): int { a.0 * b.1 - b.0 * a.1 }

  /** The cross products along an open chain of points. */
  function Chain(ring: Ring): int {
    if |ring| < 2 then 0 else Cross(ring[0], ring[1]) + Chain(ring[1..])
  }

  /** The signed doubled area: the chain, closed. */
  function Shoelace(ring: Ring): int {
    if |ring| == 0 then 0 else Chain(ring) + Cross(ring[|ring| - 1], ring[0])
  }

  function Abs(n: int): nat { if n < 0 then -n else n }

  function TwiceAreaOf(ring: Ring): nat { Abs(Shoelace(ring)) }

  lemma {:induction false} ChainGrows(ring: Ring, p: (int, int))
    requires |ring| > 0
    ensures Chain(ring + [p]) == Chain(ring) + Cross(ring[|ring| - 1], p)
  {
    if |ring| > 1 {
      assert (ring + [p])[1..] == ring[1..] + [p];
      ChainGrows(ring[1..], p);
    }
  }

  lemma NextIndex(index: nat, n: nat)
    requires index < n
    ensures (index + 1) % n == if index + 1 == n then 0 else index + 1
  {
  }

  method TwiceArea(ring: Ring) returns (area: int)
    ensures area == TwiceAreaOf(ring)
  {
    var total := 0;
    var index := 0;
    while index < |ring|
      invariant 0 <= index <= |ring|
      invariant total == if index < |ring| then Chain(ring[..index + 1]) else Shoelace(ring)
    {
      NextIndex(index, |ring|);
      var a, b := ring[index], ring[(index + 1) % |ring|];
      if index + 1 < |ring| {
        assert ring[..index + 2] == ring[..index + 1] + [b];
        ChainGrows(ring[..index + 1], b);
      } else {
        assert ring[..index + 1] == ring;
      }
      total := total + Cross(a, b);
      index := index + 1;
    }
    return if total < 0 then -total else total;
  }

  // ------------------------------------------------------- what the area does not depend on

  lemma RotationKeepsArea(ring: Ring)
    requires |ring| > 0
    ensures TwiceAreaOf(ring[1..] + [ring[0]]) == TwiceAreaOf(ring)
  {
    if |ring| > 1 {
      ChainGrows(ring[1..], ring[0]);
    } else {
      assert ring[1..] + [ring[0]] == ring;
    }
  }

  lemma {:induction false} AnyRotationKeepsArea(ring: Ring, k: nat)
    requires k <= |ring|
    ensures TwiceAreaOf(ring[k..] + ring[..k]) == TwiceAreaOf(ring)
    decreases k
  {
    if k == 0 {
      assert ring[0..] + ring[..0] == ring;
    } else {
      var before := ring[k - 1..] + ring[..k - 1];
      AnyRotationKeepsArea(ring, k - 1);
      RotationKeepsArea(before);
      assert before[1..] + [before[0]] == ring[k..] + ring[..k];
    }
  }

  function Reversed(ring: Ring): (r: Ring)
    ensures |r| == |ring|
  {
    if |ring| == 0 then [] else Reversed(ring[1..]) + [ring[0]]
  }

  lemma {:induction false} ReversedEnds(ring: Ring)
    requires |ring| > 0
    ensures Reversed(ring)[0] == ring[|ring| - 1] && Reversed(ring)[|ring| - 1] == ring[0]
  {
    if |ring| > 1 {
      ReversedEnds(ring[1..]);
    }
  }

  lemma {:induction false} ReversedChain(ring: Ring)
    ensures Chain(Reversed(ring)) == -Chain(ring)
  {
    if |ring| > 1 {
      ReversedChain(ring[1..]);
      ReversedEnds(ring[1..]);
      ChainGrows(Reversed(ring[1..]), ring[0]);
    }
  }

  lemma ReversalKeepsArea(ring: Ring)
    ensures TwiceAreaOf(Reversed(ring)) == TwiceAreaOf(ring)
  {
    if |ring| > 0 {
      ReversedChain(ring);
      ReversedEnds(ring);
    }
  }

  function Moved(ring: Ring, dx: int, dy: int): Ring {
    seq(|ring|, i requires 0 <= i < |ring| => (ring[i].0 + dx, ring[i].1 + dy))
  }

  lemma CrossMoves(a: (int, int), b: (int, int), dx: int, dy: int)
    ensures Cross((a.0 + dx, a.1 + dy), (b.0 + dx, b.1 + dy)) == Cross(a, b) + dx * (b.1 - a.1) - dy * (b.0 - a.0)
  {
  }

  /** Moving adds to an open chain what only its two ends decide. */
  lemma {:induction false} ChainMoves(ring: Ring, dx: int, dy: int)
    requires |ring| > 0
    ensures var last := ring[|ring| - 1];
            Chain(Moved(ring, dx, dy)) == Chain(ring) + dx * (last.1 - ring[0].1) - dy * (last.0 - ring[0].0)
  {
    if |ring| > 1 {
      assert Moved(ring, dx, dy)[1..] == Moved(ring[1..], dx, dy);
      ChainMoves(ring[1..], dx, dy);
      CrossMoves(ring[0], ring[1], dx, dy);
      var last := ring[|ring| - 1];
      Telescopes(dx, ring[0].1, ring[1].1, last.1);
      Telescopes(dy, ring[0].0, ring[1].0, last.0);
    }
  }

  lemma Telescopes(d: int, a: int, b: int, c: int)
    ensures d * (b - a) + d * (c - b) == d * (c - a)
  {
  }

  lemma Opposite(d: int, a: int, b: int)
    ensures d * (a - b) == -(d * (b - a))
  {
  }

  lemma TranslationKeepsArea(ring: Ring, dx: int, dy: int)
    ensures TwiceAreaOf(Moved(ring, dx, dy)) == TwiceAreaOf(ring)
  {
    if |ring| > 0 {
      var last, first := ring[|ring| - 1], ring[0];
      ChainMoves(ring, dx, dy);
      CrossMoves(last, first, dx, dy);
      Opposite(dx, first.1, last.1);
      Opposite(dy, first.0, last.0);
    }
  }

  // ------------------------------------------------------- what the area tells

  predicate OnPage(p: (int, int), w: int, h: int) { 0 <= p.0 <= w && 0 <= p.1 <= h }

  lemma CrossBound(a: (int, int), b: (int, int), w: int, h: int)
    requires OnPage(a, w, h) && OnPage(b, w, h)
    ensures -(w * h) <= Cross(a, b) <= w * h
  {
    ProductBound(a.0, b.1, w, h);
    ProductBound(b.0, a.1, w, h);
  }

  lemma ProductBound(a: int, b: int, w: int, h: int)
    requires 0 <= a <= w && 0 <= b <= h
    ensures 0 <= a * b <= w * h
  {
    assert a * b <= a * h;
    assert a * h <= w * h;
  }

  lemma {:induction false} ChainBound(ring: Ring, w: int, h: int)
    requires |ring| > 0 && forall p :: p in ring ==> OnPage(p, w, h)
    ensures Abs(Chain(ring)) <= (|ring| - 1) * (w * h)
  {
    if |ring| > 1 {
      assert ring[0] in ring && ring[1] in ring;
      ChainBound(ring[1..], w, h);
      CrossBound(ring[0], ring[1], w, h);
      OneMore(|ring| - 1, w * h);
    }
  }

  lemma OneMore(n: int, k: int)
    ensures n * k == (n - 1) * k + k
  {
  }

  lemma AreaBound(ring: Ring, w: int, h: int)
    requires forall p :: p in ring ==> OnPage(p, w, h)
    ensures TwiceAreaOf(ring) <= |ring| * (w * h)
  {
    if |ring| > 0 {
      var first, last := ring[0], ring[|ring| - 1];
      assert first in ring && last in ring;
      ChainBound(ring, w, h);
      CrossBound(last, first, w, h);
      OneMore(|ring|, w * h);
      AddBounds(Chain(ring), Cross(last, first), (|ring| - 1) * (w * h), w * h);
    }
  }

  lemma AddBounds(a: int, b: int, m: int, n: int)
    requires Abs(a) <= m && -n <= b <= n
    ensures Abs(a + b) <= m + n
  {
  }

  /** On a vertical line the chain telescopes. */
  lemma {:induction false} VerticalChain(ring: Ring, x: int)
    requires |ring| > 0 && forall p :: p in ring ==> p.0 == x
    ensures Chain(ring) == x * (ring[|ring| - 1].1 - ring[0].1)
  {
    assert ring[0] in ring;
    if |ring| > 1 {
      assert ring[1] in ring;
      VerticalChain(ring[1..], x);
    }
  }

  lemma {:induction false} HorizontalChain(ring: Ring, y: int)
    requires |ring| > 0 && forall p :: p in ring ==> p.1 == y
    ensures Chain(ring) == y * (ring[0].0 - ring[|ring| - 1].0)
  {
    assert ring[0] in ring;
    if |ring| > 1 {
      assert ring[1] in ring;
      HorizontalChain(ring[1..], y);
    }
  }

  lemma FlatHasNoArea(ring: Ring, c: int)
    requires (forall p :: p in ring ==> p.0 == c) || (forall p :: p in ring ==> p.1 == c)
    ensures TwiceAreaOf(ring) == 0
  {
    if |ring| > 0 {
      var first, last := ring[0], ring[|ring| - 1];
      assert first in ring && last in ring;
      if forall p :: p in ring ==> p.0 == c {
        VerticalChain(ring, c);
        assert c * (last.1 - first.1) + (c * first.1 - c * last.1) == 0;
      } else {
        HorizontalChain(ring, c);
        assert c * (first.0 - last.0) + (last.0 * c - first.0 * c) == 0;
      }
    }
  }

  // ------------------------------------------------------- extents

  function MinOf(ns: seq<int>): (m: int)
    requires |ns| > 0
    ensures m in ns && forall n :: n in ns ==> m <= n
  {
    assert ns == [ns[0]] + ns[1..];
    if |ns| == 1 then ns[0]
    else
      var rest := MinOf(ns[1..]);
      if ns[0] < rest then ns[0] else rest
  }

  function MaxOf(ns: seq<int>): (m: int)
    requires |ns| > 0
    ensures m in ns && forall n :: n in ns ==> n <= m
  {
    assert ns == [ns[0]] + ns[1..];
    if |ns| == 1 then ns[0]
    else
      var rest := MaxOf(ns[1..]);
      if ns[0] > rest then ns[0] else rest
  }

  function Xs(ring: Ring): seq<int> { seq(|ring|, i requires 0 <= i < |ring| => ring[i].0) }
  function Ys(ring: Ring): seq<int> { seq(|ring|, i requires 0 <= i < |ring| => ring[i].1) }

  function Extent(ring: Ring): Box
    requires |ring| > 0
  {
    var left, top := MinOf(Xs(ring)), MinOf(Ys(ring));
    Box(left, top, MaxOf(Xs(ring)) - left, MaxOf(Ys(ring)) - top)
  }

  lemma AreaMeansExtent(ring: Ring)
    requires |ring| > 0 && TwiceAreaOf(ring) != 0
    ensures Extent(ring).width > 0 && Extent(ring).height > 0
  {
    var xs, ys := Xs(ring), Ys(ring);
    if MinOf(xs) == MaxOf(xs) {
      forall p | p in ring ensures p.0 == MinOf(xs) {
        var i :| 0 <= i < |ring| && ring[i] == p;
        assert xs[i] in xs;
      }
      FlatHasNoArea(ring, MinOf(xs));
    }
    if MinOf(ys) == MaxOf(ys) {
      forall p | p in ring ensures p.1 == MinOf(ys) {
        var i :| 0 <= i < |ring| && ring[i] == p;
        assert ys[i] in ys;
      }
      FlatHasNoArea(ring, MinOf(ys));
    }
  }

  // ------------------------------------------------------- the conversions

  function PixelPoint(p: (real, real), w: int, h: int): (int, int) { (ToPixels(p.0, w), ToPixels(p.1, h)) }

  function PixelPoints(points: seq<(real, real)>, w: int, h: int): Ring {
    seq(|points|, i requires 0 <= i < |points| => PixelPoint(points[i], w, h))
  }

  function RectangleRing(a: (int, int), b: (int, int)): Ring {
    var left, right := if a.0 < b.0 then a.0 else b.0, if a.0 < b.0 then b.0 else a.0;
    var top, bottom := if a.1 < b.1 then a.1 else b.1, if a.1 < b.1 then b.1 else a.1;
    [(left, top), (right, top), (right, bottom), (left, bottom)]
  }

  function RingOf(points: seq<(real, real)>, w: int, h: int): Ring {
    var pixels := PixelPoints(points, w, h);
    if |pixels| == 2 then RectangleRing(pixels[0], pixels[1]) else pixels
  }

  function NormalizedToPage(points: seq<(real, real)>, w: int, h: int): Converted {
    if w <= 0 || h <= 0 then Rejected(PageSizeUnavailable)
    else if |points| < 2 then Rejected(TooFewPoints)
    else
      var ring := RingOf(points, w, h);
      if TwiceAreaOf(ring) == 0 then Rejected(Degenerate) else Page(Geometry(Extent(ring), ring))
  }

  /** The polygon of a stored shape, back in normalized places. */
  function PageToNormalized(g: Geometry, w: int, h: int): seq<(real, real)>
    requires w > 0 && h > 0
  {
    seq(|g.polygon|, i requires 0 <= i < |g.polygon| =>
      (g.polygon[i].0 as real / w as real, g.polygon[i].1 as real / h as real))
  }

  datatype Shape = Shape(box: (real, real, real, real), polygon: seq<(real, real)>) | Unreadable(error: CanvasError)

  /** A stored shape as the reader sees it, or nothing on a page without extent. */
  function PageGeometryToNormalized(g: Geometry, w: int, h: int): Shape {
    if w <= 0 || h <= 0 then Unreadable(PageSizeUnavailable)
    else
      var (x, y) := (g.box.x as real / w as real, g.box.y as real / h as real);
      Shape((x, y, g.box.width as real / w as real, g.box.height as real / h as real), PageToNormalized(g, w, h))
  }

  lemma Scales(n: int, size: int)
    requires size > 0
    ensures n as real / size as real * size as real == n as real
  {
  }

  /** Scaled up again, box and corners are the stored pixels exactly. */
  lemma NormalizedIsExact(g: Geometry, w: int, h: int, i: nat)
    ensures var shape := PageGeometryToNormalized(g, w, h);
            && (shape == Unreadable(PageSizeUnavailable) <==> w <= 0 || h <= 0)
            && (shape.Shape? ==>
                  && shape.box.0 * w as real == g.box.x as real && shape.box.1 * h as real == g.box.y as real
                  && shape.box.2 * w as real == g.box.width as real && shape.box.3 * h as real == g.box.height as real
                  && |shape.polygon| == |g.polygon|
                  && (i < |g.polygon| ==>
                        shape.polygon[i].0 * w as real == g.polygon[i].0 as real
                        && shape.polygon[i].1 * h as real == g.polygon[i].1 as real))
  {
    if w > 0 && h > 0 {
      Scales(g.box.x, w);
      Scales(g.box.y, h);
      Scales(g.box.width, w);
      Scales(g.box.height, h);
      if i < |g.polygon| {
        Scales(g.polygon[i].0, w);
        Scales(g.polygon[i].1, h);
      }
    }
  }

  lemma RectangleExtent(r: Ring, x0: int, x1: int, y0: int, y1: int)
    requires r == [(x0, y0), (x1, y0), (x1, y1), (x0, y1)] && x0 <= x1 && y0 <= y1
    ensures Extent(r) == Box(x0, y0, x1 - x0, y1 - y0)
  {
    assert Xs(r) == [x0, x1, x1, x0] && Ys(r) == [y0, y0, y1, y1];
    assert x0 in Xs(r) && x1 in Xs(r) && y0 in Ys(r) && y1 in Ys(r);
  }

  lemma RectangleShoelace(r: Ring, x0: int, x1: int, y0: int, y1: int)
    requires r == [(x0, y0), (x1, y0), (x1, y1), (x0, y1)]
    ensures Shoelace(r) == 2 * ((x1 - x0) * (y1 - y0))
  {
    ChainGrows([(x0, y0)], (x1, y0));
    ChainGrows([(x0, y0), (x1, y0)], (x1, y1));
    ChainGrows([(x0, y0), (x1, y0), (x1, y1)], (x0, y1));
    assert [(x0, y0), (x1, y0), (x1, y1)] + [(x0, y1)] == r;
    assert [(x0, y0), (x1, y0)] + [(x1, y1)] == [(x0, y0), (x1, y0), (x1, y1)];
    assert [(x0, y0)] + [(x1, y0)] == [(x0, y0), (x1, y0)];
    RectangleTerms(x0, x1, y0, y1);
  }

  lemma RectangleTerms(x0: int, x1: int, y0: int, y1: int)
    ensures (x0 * y0 - x1 * y0) + ((x1 * y1 - x1 * y0) + (x1 * y1 - x0 * y1)) + (x0 * y0 - x0 * y1)
            == 2 * ((x1 - x0) * (y1 - y0))
  {
  }

  lemma RectangleArea(a: (int, int), b: (int, int))
    ensures var r := RectangleRing(a, b); var box := Extent(r);
            TwiceAreaOf(r) == 2 * (box.width * box.height)
            && box == Box(r[0].0, r[0].1, r[2].0 - r[0].0, r[2].1 - r[0].1)
  {
    var r := RectangleRing(a, b);
    var x0, x1, y0, y1 := r[0].0, r[2].0, r[0].1, r[2].1;
    RectangleExtent(r, x0, x1, y0, y1);
    RectangleShoelace(r, x0, x1, y0, y1);
    ProductBound(x1 - x0, y1 - y0, x1 - x0, y1 - y0);
  }

  /** What a conversion accepts lies on the page, with a box that is its exact extent and is never empty. */
  ghost predicate GoodShape(g: Geometry, w: int, h: int) {
    |g.polygon| >= 3 && g.box == Extent(g.polygon) && g.box.width > 0 && g.box.height > 0
    && forall p :: p in g.polygon ==> OnPage(p, w, h)
  }

  lemma RingOnPage(points: seq<(real, real)>, w: int, h: int)
    requires w > 0 && h > 0 && |points| >= 2
    ensures forall p :: p in RingOf(points, w, h) ==> OnPage(p, w, h)
  {
    forall i | 0 <= i < |points| ensures OnPage(PixelPoint(points[i], w, h), w, h) {
      PixelsInRange(points[i].0, w);
      PixelsInRange(points[i].1, h);
    }
  }

  lemma AcceptedShapes(points: seq<(real, real)>, w: int, h: int)
    ensures var c := NormalizedToPage(points, w, h); c.Page? ==> GoodShape(c.geometry, w, h)
  {
    if NormalizedToPage(points, w, h).Page? {
      AreaMeansExtent(RingOf(points, w, h));
      RingOnPage(points, w, h);
    }
  }

  /** Reading an accepted shape back and converting its polygon again gives the same box and polygon. */
  lemma RoundTrip(points: seq<(real, real)>, w: int, h: int)
    ensures var c := NormalizedToPage(points, w, h);
            c.Page? ==>
              var shape := PageGeometryToNormalized(c.geometry, w, h);
              shape.Shape? && NormalizedToPage(shape.polygon, w, h) == c
  {
    if NormalizedToPage(points, w, h).Page? {
      AcceptedShapes(points, w, h);
      var g := NormalizedToPage(points, w, h).geometry;
      var back := PixelPoints(PageToNormalized(g, w, h), w, h);
      forall i | 0 <= i < |g.polygon| ensures back[i] == g.polygon[i] {
        assert OnPage(g.polygon[i], w, h);
        PixelsInverse(g.polygon[i].0, w);
        PixelsInverse(g.polygon[i].1, h);
      }
      assert back == g.polygon;
    }
  }

  lemma RingOfTwo(a: (real, real), b: (real, real), w: int, h: int)
    ensures RingOf([a, b], w, h) == RectangleRing(PixelPoint(a, w, h), PixelPoint(b, w, h))
  {
  }

  /** Two points mean the same rectangle whichever of its diagonals they are. */
  lemma AnyDiagonal(a: (real, real), b: (real, real), w: int, h: int)
    ensures RingOf([b, a], w, h) == RingOf([a, b], w, h)
    ensures RingOf([(a.0, b.1), (b.0, a.1)], w, h) == RingOf([a, b], w, h)
  {
    RingOfTwo(a, b, w, h);
    RingOfTwo(b, a, w, h);
    RingOfTwo((a.0, b.1), (b.0, a.1), w, h);
  }

  /** Two points are refused exactly when they fall on one pixel column or row. */
  lemma TwoPointsRefusedExactlyWhen(a: (real, real), b: (real, real), w: int, h: int)
    requires w > 0 && h > 0
    ensures NormalizedToPage([a, b], w, h) == Rejected(Degenerate) <==>
            ToPixels(a.0, w) == ToPixels(b.0, w) || ToPixels(a.1, h) == ToPixels(b.1, h)
  {
    var p, q := PixelPoint(a, w, h), PixelPoint(b, w, h);
    var r := RectangleRing(p, q);
    RingOfTwo(a, b, w, h);
    RectangleArea(p, q);
    ZeroProduct(r[2].0 - r[0].0, r[2].1 - r[0].1);
  }

  lemma ZeroProduct(m: int, n: int)
    ensures m * n == 0 <==> m == 0 || n == 0
  {
  }

  /**
   A page without extent is refused first, then fewer than two points; of three or more points the shape is accepted
   exactly when its pixels enclose an area, and then it is these pixels in their order.
   */
  lemma RefusedExactlyWhen(points: seq<(real, real)>, w: int, h: int)
    ensures var c := NormalizedToPage(points, w, h);
            && (c == Rejected(PageSizeUnavailable) <==> w <= 0 || h <= 0)
            && (c == Rejected(TooFewPoints) <==> w > 0 && h > 0 && |points| < 2)
            && (w > 0 && h > 0 && |points| >= 3 ==>
                  var ring := seq(|points|, i requires 0 <= i < |points| =>
                                    (ToPixels(points[i].0, w), ToPixels(points[i].1, h)));
                  && (c == Rejected(Degenerate) <==> TwiceAreaOf(ring) == 0)
                  && (c.Page? <==> TwiceAreaOf(ring) > 0)
                  && (c.Page? ==> c.geometry.polygon == ring))
  {
    if |points| >= 3 {
      var ring := seq(|points|, i requires 0 <= i < |points| => (ToPixels(points[i].0, w), ToPixels(points[i].1, h)));
      assert RingOf(points, w, h) == ring;
    }
  }

  /** Two points on different pixel columns and rows are the corners of the rectangle, clockwise from the top left. */
  lemma TwoPointsMakeRectangle(a: (real, real), b: (real, real), w: int, h: int)
    requires ToPixels(a.0, w) < ToPixels(b.0, w) && ToPixels(a.1, h) < ToPixels(b.1, h) && w > 0 && h > 0
    ensures var left, top, right, bottom := ToPixels(a.0, w), ToPixels(a.1, h), ToPixels(b.0, w), ToPixels(b.1, h);
            NormalizedToPage([a, b], w, h) ==
            Page(Geometry(Box(left, top, right - left, bottom - top),
                          [(left, top), (right, top), (right, bottom), (left, bottom)]))
  {
    var p, q := PixelPoint(a, w, h), PixelPoint(b, w, h);
    RingOfTwo(a, b, w, h);
    RectangleArea(p, q);
    TwoPointsRefusedExactlyWhen(a, b, w, h);
  }

  /** A polygon on the page is kept corner by corner, each within half a pixel of its place. */
  lemma PolygonKeptAsGiven(points: seq<(real, real)>, w: int, h: int, i: nat)
    requires |points| >= 3 && i < |points| && 0.0 <= points[i].0 <= 1.0 && 0.0 <= points[i].1 <= 1.0
    ensures var c := NormalizedToPage(points, w, h);
            c.Page? ==>
              |c.geometry.polygon| == |points|
              && Nearest(c.geometry.polygon[i].0, points[i].0, w) && Nearest(c.geometry.polygon[i].1, points[i].1, h)
  {
    if w > 0 && h > 0 {
      assert PixelPoints(points, w, h)[i] == PixelPoint(points[i], w, h);
      PixelsWithinHalf(points[i].0, w);
      PixelsWithinHalf(points[i].1, h);
    }
  }
}

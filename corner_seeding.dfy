/** Flat-corner seeding: the axis-aligned rectangle, sized to an image's aspect
    ratio and centred on the map, that a new overlay starts from.

    Container pixels grow to the right (east) and DOWN (south), as in Leaflet.
    Pixel coordinates are exact reals; the projection between LatLng and
    container pixels belongs to the map library and is carried by a Viewport
    as two uninterpreted functions. */
module CornerSeeding {

  datatype LatLng = LatLng(lat: real, lng: real)

  datatype Point = Point(x: real, y: real)

  /** The map as the seeder sees it: its centre and the two projections. */
  datatype Viewport = Viewport(center: LatLng, toPoint: LatLng -> Point, toLatLng: Point -> LatLng)

  /** Default of the `pixelHalfWidth` parameter. */
  const DefaultPixelHalfWidth: int := 180

  /** The half-height never drops below this many pixels. */
  const MinHalfHeight: int := 80

  function Max(a: int, b: int): (m: int)
    ensures m >= a && m >= b && (m == a || m == b)
  {
    if a >= b then a else b
  }

  /** `Math.round(n / d)` on the exact quotient: the nearest integer, halves
      rounded up (towards +infinity, as JavaScript does for both signs). */
  function RoundRatio(n: int, d: int): (r: int)
    requires d > 0
    ensures 2 * d * r - d <= 2 * n < 2 * d * r + d
  {
    (2 * n + d) / (2 * d)
  }

  /** The rounding is the nearest integer to n / d, read over the reals. */
  lemma RoundRatioIsNearest(n: int, d: int)
    requires d > 0
    ensures (RoundRatio(n, d) as real) - 0.5 <= (n as real) / (d as real) < (RoundRatio(n, d) as real) + 0.5
  {
    var r := RoundRatio(n, d);
    var dr, rr, nr := d as real, r as real, n as real;
    var p := d * r;
    assert 2 * p - d <= 2 * n < 2 * p + d;
    assert p as real == dr * rr;
    assert (nr / dr) * dr == nr;
    WithinHalf(nr / dr, rr, dr, nr);
  }

  /** Scaling by dr > 0: q lies within one half of r when q * dr lies
      within dr / 2 of r * dr. */
  lemma WithinHalf(q: real, r: real, dr: real, nr: real)
    requires dr > 0.0 && q * dr == nr
    requires 2.0 * (dr * r) - dr <= 2.0 * nr < 2.0 * (dr * r) + dr
    ensures r - 0.5 <= q < r + 0.5
  {
    var e := q - r;
    assert nr - dr * r == e * dr;
  }

  /** Only one integer satisfies the rounding bounds, so they define the rounding. */
  lemma RoundRatioUnique(n: int, d: int, k: int)
    requires d > 0
    requires 2 * d * k - d <= 2 * n < 2 * d * k + d
    ensures k == RoundRatio(n, d)
  {
    var r := RoundRatio(n, d);
    if k < r {
      MulMonotone(2 * d, k + 1, r);
      assert false;
    } else if k > r {
      MulMonotone(2 * d, r + 1, k);
      assert false;
    }
  }

  /** round(n / d) reaches m exactly when 2n >= (2m - 1) d. */
  lemma RoundThreshold(n: int, d: int, m: int)
    requires d > 0
    ensures RoundRatio(n, d) >= m <==> 2 * n >= (2 * m - 1) * d
  {
    var r := RoundRatio(n, d);
    if r >= m {
      MulMonotone(2 * d, m, r);
    } else {
      MulMonotone(2 * d, r + 1, m);
    }
  }

  lemma MulMonotone(a: int, b: int, c: int)
    requires a > 0 && b <= c
    ensures a * b <= a * c
  {
  }

  /** `halfH = max(80, round(halfW * h / w))` for an image of w x h pixels. */
  function HalfHeight(imgWidth: int, imgHeight: int, halfW: int): (halfH: int)
    requires imgWidth > 0 && imgHeight > 0
    ensures halfH >= MinHalfHeight
    // a short image is stretched to the minimum height
    ensures 2 * halfW * imgHeight < (2 * MinHalfHeight - 1) * imgWidth ==> halfH == MinHalfHeight
    // otherwise the rectangle keeps the image's aspect ratio up to rounding
    ensures 2 * halfW * imgHeight >= (2 * MinHalfHeight - 1) * imgWidth ==>
              -imgWidth < 2 * halfH * imgWidth - 2 * halfW * imgHeight <= imgWidth
  {
    RoundThreshold(halfW * imgHeight, imgWidth, MinHalfHeight);
    Max(MinHalfHeight, RoundRatio(halfW * imgHeight, imgWidth))
  }

  /** Consecutive corners (including the last and the first) share a coordinate,
      the mean of the corners is c, and the extent is 2*halfW by 2*halfH. */
  ghost predicate FlatRect(q: seq<Point>, c: Point, halfW: real, halfH: real)
  {
    && |q| == 4
    && q[0].y == q[1].y && q[1].x == q[2].x && q[2].y == q[3].y && q[3].x == q[0].x
    && q[0].x + q[1].x + q[2].x + q[3].x == 4.0 * c.x
    && q[0].y + q[1].y + q[2].y + q[3].y == 4.0 * c.y
    && q[1].x - q[0].x == 2.0 * halfW
    && q[3].y - q[0].y == 2.0 * halfH
  }

  /** The first corner is the north-west one: no corner lies west or north of it. */
  ghost predicate StartsNorthWest(q: seq<Point>)
    requires |q| == 4
  {
    forall i :: 0 <= i < 4 ==> q[0].x <= q[i].x && q[0].y <= q[i].y
  }

  /** Twice the signed area (shoelace formula). With y growing downwards, a
      positive value means the corners run clockwise on screen. */
  function Shoelace(q: seq<Point>): real
    requires |q| == 4
  {
    (q[0].x * q[1].y - q[1].x * q[0].y) + (q[1].x * q[2].y - q[2].x * q[1].y)
    + (q[2].x * q[3].y - q[3].x * q[2].y) + (q[3].x * q[0].y - q[0].x * q[3].y)
  }

  /** The rectangle in container pixels, in the order NW, NE, SE, SW. */
  function PixelRect(c: Point, halfW: real, halfH: real): (q: seq<Point>)
    ensures FlatRect(q, c, halfW, halfH)
    ensures halfW >= 0.0 && halfH >= 0.0 ==> StartsNorthWest(q)
  {
    [ Point(c.x - halfW, c.y - halfH),   // NW
      Point(c.x + halfW, c.y - halfH),   // NE
      Point(c.x + halfW, c.y + halfH),   // SE
      Point(c.x - halfW, c.y + halfH) ]  // SW
  }

  /** Centre, alignment and extent pin the rectangle down: PixelRect is the
      only sequence of corners with those properties. */
  lemma FlatRectIsPixelRect(q: seq<Point>, c: Point, halfW: real, halfH: real)
    requires FlatRect(q, c, halfW, halfH)
    ensures q == PixelRect(c, halfW, halfH)
  {
  }

  /** The seeded rectangle runs clockwise on screen, enclosing 2*halfW by 2*halfH. */
  lemma PixelRectClockwise(c: Point, halfW: real, halfH: real)
    ensures Shoelace(PixelRect(c, halfW, halfH)) == 8.0 * halfW * halfH
  {
  }

  /** The container-pixel rectangle `seedCornersForImageDims` builds. */
  function PixelCorners(view: Viewport, imgWidth: int, imgHeight: int, pixelHalfWidth: int := DefaultPixelHalfWidth): (q: seq<Point>)
    requires imgWidth > 0 && imgHeight > 0
    ensures FlatRect(q, view.toPoint(view.center), pixelHalfWidth as real,
                     HalfHeight(imgWidth, imgHeight, pixelHalfWidth) as real)
    ensures pixelHalfWidth >= 0 ==> StartsNorthWest(q)
  {
    PixelRect(view.toPoint(view.center), pixelHalfWidth as real,
              HalfHeight(imgWidth, imgHeight, pixelHalfWidth) as real)
  }

  /** `seedCornersForImageDims`: the four corners converted back to LatLng,
      each one by the map's own conversion, in the order NW, NE, SE, SW. */
  function SeedCorners(view: Viewport, imgWidth: int, imgHeight: int, pixelHalfWidth: int := DefaultPixelHalfWidth): (corners: seq<LatLng>)
    requires imgWidth > 0 && imgHeight > 0
    ensures |corners| == 4
    ensures forall i :: 0 <= i < 4 ==>
              corners[i] == view.toLatLng(PixelCorners(view, imgWidth, imgHeight, pixelHalfWidth)[i])
  {
    var q := PixelCorners(view, imgWidth, imgHeight, pixelHalfWidth);
    [view.toLatLng(q[0]), view.toLatLng(q[1]), view.toLatLng(q[2]), view.toLatLng(q[3])]
  }

  /** Everything the seeder promises about the rectangle behind the corners:
      it is flat, centred on the map centre, starts north-west, runs clockwise,
      is at least 2*80 pixels tall and, once taller than the minimum, keeps the
      image's aspect ratio up to rounding. */
  lemma SeededRectangle(view: Viewport, imgWidth: int, imgHeight: int, pixelHalfWidth: int)
    requires imgWidth > 0 && imgHeight > 0 && pixelHalfWidth > 0
    ensures var q := PixelCorners(view, imgWidth, imgHeight, pixelHalfWidth);
            var halfH := HalfHeight(imgWidth, imgHeight, pixelHalfWidth);
            && FlatRect(q, view.toPoint(view.center), pixelHalfWidth as real, halfH as real)
            && StartsNorthWest(q)
            && Shoelace(q) > 0.0
            && q[3].y - q[0].y >= 2.0 * (MinHalfHeight as real)
            && (RoundRatio(pixelHalfWidth * imgHeight, imgWidth) >= MinHalfHeight ==>
                  -imgWidth < 2 * halfH * imgWidth - 2 * pixelHalfWidth * imgHeight <= imgWidth)
  {
  }

  /** The two worked examples: a wide image is stretched to the minimum, a
      tall one keeps its ratio. */
  lemma HalfHeightExamples()
    ensures HalfHeight(400, 100, DefaultPixelHalfWidth) == 80
    ensures HalfHeight(100, 400, DefaultPixelHalfWidth) == 720
  {
  }
}

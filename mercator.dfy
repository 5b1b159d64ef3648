/**
  Spherical-Mercator tile grid: meters, pixels and tile indices at a zoom
  level, over the reals (float64 rounding is not modelled).
*/
module Mercator {
  import opened Base

  /** The float64 value of `math.Pi`, as a decimal. */
  const Pi: real := 3.141592653589793

  /** The WGS84 equatorial radius used by the source, in meters. */
  const EarthRadius: real := 6378137.0

  const DefaultTileSize: int := 256

  datatype Mercator = Mercator(tileSize: int, originShift: real, initialResolution: real)

  datatype Point = Point(x: real, y: real)

  datatype TileXY = TileXY(x: int, y: int)

  /** Bounds in meters, in the order the source returns them. */
  datatype Bounds = Bounds(minx: real, miny: real, maxx: real, maxy: real)

  /** Construction options: each overrides one field. */
  datatype MercatorOption =
    | WithTileSize(tileSize: int)
    | WithOriginShift(originShift: real)
    | WithInitialResolution(initialResolution: real)

  /** A grid in which every conversion is defined and oriented. */
  predicate Valid(m: Mercator)
  {
    m.tileSize > 0 && m.initialResolution > 0.0
  }

  function DefaultMercator(): (m: Mercator)
    ensures Valid(m)
    ensures m.tileSize == DefaultTileSize
    ensures m.initialResolution * m.tileSize as real == 2.0 * m.originShift
  {
    Mercator(256, 2.0 * Pi * EarthRadius / 2.0, 2.0 * Pi * EarthRadius / 256.0)
  }

  function ApplyOption(m: Mercator, opt: MercatorOption): Mercator
  {
    match opt
    case WithTileSize(t) => m.(tileSize := t)
    case WithOriginShift(o) => m.(originShift := o)
    case WithInitialResolution(r) => m.(initialResolution := r)
  }

  function ApplyOptions(m: Mercator, opts: seq<MercatorOption>): Mercator
    decreases |opts|
  {
    if |opts| == 0 then m else ApplyOptions(ApplyOption(m, opts[0]), opts[1..])
  }

  /** The defaults, overridden by the options in order. */
  function NewMercator(opts: seq<MercatorOption>): Mercator
  {
    ApplyOptions(DefaultMercator(), opts)
  }

  /** A field keeps its default unless some option sets it, and then the
      last such option wins. */
  lemma {:induction false} ApplyOptionsTileSize(m: Mercator, opts: seq<MercatorOption>)
    ensures (forall i :: 0 <= i < |opts| ==> !opts[i].WithTileSize?) ==>
              ApplyOptions(m, opts).tileSize == m.tileSize
    ensures |opts| > 0 && opts[|opts| - 1].WithTileSize? ==>
              ApplyOptions(m, opts).tileSize == opts[|opts| - 1].tileSize
    decreases |opts|
  {
    if |opts| > 0 {
      ApplyOptionsTileSize(ApplyOption(m, opts[0]), opts[1..]);
    }
  }

  lemma {:induction false} ApplyOptionsOriginShift(m: Mercator, opts: seq<MercatorOption>)
    ensures (forall i :: 0 <= i < |opts| ==> !opts[i].WithOriginShift?) ==>
              ApplyOptions(m, opts).originShift == m.originShift
    ensures |opts| > 0 && opts[|opts| - 1].WithOriginShift? ==>
              ApplyOptions(m, opts).originShift == opts[|opts| - 1].originShift
    decreases |opts|
  {
    if |opts| > 0 {
      ApplyOptionsOriginShift(ApplyOption(m, opts[0]), opts[1..]);
    }
  }

  lemma {:induction false} ApplyOptionsInitialResolution(m: Mercator, opts: seq<MercatorOption>)
    ensures (forall i :: 0 <= i < |opts| ==> !opts[i].WithInitialResolution?) ==>
              ApplyOptions(m, opts).initialResolution == m.initialResolution
    ensures |opts| > 0 && opts[|opts| - 1].WithInitialResolution? ==>
              ApplyOptions(m, opts).initialResolution == opts[|opts| - 1].initialResolution
    decreases |opts|
  {
    if |opts| > 0 {
      ApplyOptionsInitialResolution(ApplyOption(m, opts[0]), opts[1..]);
    }
  }

  /** `math.Pow(2, float64(z))` for any integer zoom. */
  function RealPow2(z: int): (p: real)
    ensures p > 0.0
  {
    if z >= 0 then Pow2(z) as real else 1.0 / Pow2(-z) as real
  }

  lemma RealPow2Step(z: int)
    ensures RealPow2(z + 1) == 2.0 * RealPow2(z)
  {
    if z < -1 {
      var q := Pow2(-z - 1) as real;
      assert Pow2(-z) as real == 2.0 * q;
      assert q > 0.0;
      assert RealPow2(z) * 2.0 * q == 1.0;
    }
  }

  /** Meters per pixel at zoom `z`. */
  function Resolution(m: Mercator, z: int): (r: real)
    ensures r * RealPow2(z) == m.initialResolution
    ensures m.initialResolution > 0.0 ==> r > 0.0
  {
    m.initialResolution / RealPow2(z)
  }

  lemma DivByDouble(a: real, p: real)
    requires p > 0.0
    ensures a / (2.0 * p) == (a / p) / 2.0
  {
    var r := a / p;
    assert r * p == a;
    assert (r / 2.0) * (2.0 * p) == a;
  }

  /** Each zoom level halves the ground size of a pixel. */
  lemma ResolutionHalves(m: Mercator, z: int)
    ensures Resolution(m, z + 1) == Resolution(m, z) / 2.0
  {
    RealPow2Step(z);
    DivByDouble(m.initialResolution, RealPow2(z));
  }

  function MetersToPixels(m: Mercator, z: int, mx: real, my: real): (p: Point)
    requires m.initialResolution != 0.0
    ensures p.x * Resolution(m, z) == mx + m.originShift
    ensures p.y * Resolution(m, z) == my + m.originShift
  {
    var res := Resolution(m, z);
    Point((mx + m.originShift) / res, (my + m.originShift) / res)
  }

  function PixelsToMeters(m: Mercator, px: real, py: real, z: int): (p: Point)
  {
    var res := Resolution(m, z);
    Point(px * res - m.originShift, py * res - m.originShift)
  }

  /** Over the reals, the two pixel/meter conversions undo each other. */
  lemma MetersPixelsRoundTrip(m: Mercator, z: int, mx: real, my: real)
    requires m.initialResolution != 0.0
    ensures var p := MetersToPixels(m, z, mx, my);
            PixelsToMeters(m, p.x, p.y, z) == Point(mx, my)
  {
  }

  lemma PixelsMetersRoundTrip(m: Mercator, z: int, px: real, py: real)
    requires m.initialResolution != 0.0
    ensures var p := PixelsToMeters(m, px, py, z);
            MetersToPixels(m, z, p.x, p.y) == Point(px, py)
  {
  }

  /** The tile whose pixel span `(k*T, (k+1)*T]` holds the coordinate. */
  function PixelToTileIndex(tileSize: int, p: real): (k: int)
    requires tileSize != 0
    ensures k as real < p / tileSize as real <= k as real + 1.0
  {
    Ceil(p / tileSize as real) - 1
  }

  function PixelsToTile(m: Mercator, px: real, py: real): (t: TileXY)
    requires m.tileSize != 0
    ensures t.x as real < px / m.tileSize as real <= t.x as real + 1.0
    ensures t.y as real < py / m.tileSize as real <= t.y as real + 1.0
  {
    TileXY(PixelToTileIndex(m.tileSize, px), PixelToTileIndex(m.tileSize, py))
  }

  /** `PixelToTileIndex` returns exactly the `k` with `p/T` in `(k, k+1]`. */
  lemma PixelToTileIndexIff(tileSize: int, p: real, k: int)
    requires tileSize != 0
    ensures PixelToTileIndex(tileSize, p) == k <==>
              k as real < p / tileSize as real <= k as real + 1.0
  {
  }

  /** A pixel on a tile edge belongs to the lower tile; pixel 0 lies in tile -1. */
  lemma PixelOnEdge(tileSize: int, k: int)
    requires tileSize > 0
    ensures PixelToTileIndex(tileSize, (k * tileSize) as real) == k - 1
  {
    var t := tileSize as real;
    assert (k * tileSize) as real == k as real * t;
    assert (k * tileSize) as real / t == k as real;
    PixelToTileIndexIff(tileSize, (k * tileSize) as real, k - 1);
  }

  lemma PixelZeroIsTileMinusOne(tileSize: int)
    requires tileSize > 0
    ensures PixelToTileIndex(tileSize, 0.0) == -1
  {
    PixelOnEdge(tileSize, 0);
  }

  function MeterToTile(m: Mercator, z: int, mx: real, my: real): (t: TileXY)
    requires Valid(m)
  {
    var p := MetersToPixels(m, z, mx, my);
    PixelsToTile(m, p.x, p.y)
  }

  lemma PixelToTileIndexMonotone(tileSize: int, p: real, q: real)
    requires tileSize > 0
    requires p <= q
    ensures PixelToTileIndex(tileSize, p) <= PixelToTileIndex(tileSize, q)
  {
    var t := tileSize as real;
    assert p / t <= q / t;
  }

  lemma MeterToPixelMonotone(m: Mercator, z: int, a: real, b: real)
    requires Valid(m)
    requires a <= b
    ensures (a + m.originShift) / Resolution(m, z) <= (b + m.originShift) / Resolution(m, z)
  {
  }

  /** A point further east (north) never falls in a tile further west (south). */
  lemma MeterToTileMonotone(m: Mercator, z: int, mx1: real, my1: real, mx2: real, my2: real)
    requires Valid(m)
    requires mx1 <= mx2 && my1 <= my2
    ensures MeterToTile(m, z, mx1, my1).x <= MeterToTile(m, z, mx2, my2).x
    ensures MeterToTile(m, z, mx1, my1).y <= MeterToTile(m, z, mx2, my2).y
  {
    var p1, p2 := MetersToPixels(m, z, mx1, my1), MetersToPixels(m, z, mx2, my2);
    MeterToPixelMonotone(m, z, mx1, mx2);
    MeterToPixelMonotone(m, z, my1, my2);
    PixelToTileIndexMonotone(m.tileSize, p1.x, p2.x);
    PixelToTileIndexMonotone(m.tileSize, p1.y, p2.y);
  }

  function TileBounds(m: Mercator, z: int, tx: int, ty: int): Bounds
  {
    var lo := PixelsToMeters(m, (tx * m.tileSize) as real, (ty * m.tileSize) as real, z);
    var hi := PixelsToMeters(m, ((tx + 1) * m.tileSize) as real, ((ty + 1) * m.tileSize) as real, z);
    Bounds(lo.x, lo.y, hi.x, hi.y)
  }

  /** The edges of a tile, as a function of its index along one axis. */
  lemma TileEdges(m: Mercator, z: int, tx: int, ty: int)
    ensures TileBounds(m, z, tx, ty).minx == (tx * m.tileSize) as real * Resolution(m, z) - m.originShift
    ensures TileBounds(m, z, tx, ty).maxx == (tx * m.tileSize) as real * Resolution(m, z) - m.originShift
                                             + m.tileSize as real * Resolution(m, z)
    ensures TileBounds(m, z, tx, ty).miny == (ty * m.tileSize) as real * Resolution(m, z) - m.originShift
    ensures TileBounds(m, z, tx, ty).maxy == (ty * m.tileSize) as real * Resolution(m, z) - m.originShift
                                             + m.tileSize as real * Resolution(m, z)
  {
    var res := Resolution(m, z);
    assert ((tx + 1) * m.tileSize) as real == (tx * m.tileSize) as real + m.tileSize as real;
    assert ((ty + 1) * m.tileSize) as real == (ty * m.tileSize) as real + m.tileSize as real;
    assert ((tx * m.tileSize) as real + m.tileSize as real) * res
        == (tx * m.tileSize) as real * res + m.tileSize as real * res;
    assert ((ty * m.tileSize) as real + m.tileSize as real) * res
        == (ty * m.tileSize) as real * res + m.tileSize as real * res;
  }

  /** Every tile of a level spans exactly `TileSize * Resolution(z)` meters
      on each axis, and is non-degenerate on a valid grid. */
  lemma TileBoundsSize(m: Mercator, z: int, tx: int, ty: int)
    ensures var b := TileBounds(m, z, tx, ty);
            b.maxx - b.minx == m.tileSize as real * Resolution(m, z) &&
            b.maxy - b.miny == m.tileSize as real * Resolution(m, z)
    ensures Valid(m) ==> TileBounds(m, z, tx, ty).minx < TileBounds(m, z, tx, ty).maxx
    ensures Valid(m) ==> TileBounds(m, z, tx, ty).miny < TileBounds(m, z, tx, ty).maxy
  {
    TileEdges(m, z, tx, ty);
  }

  /** Neighbouring tiles share their common edge exactly. */
  lemma TileBoundsAdjacent(m: Mercator, z: int, tx: int, ty: int)
    ensures TileBounds(m, z, tx, ty).maxx == TileBounds(m, z, tx + 1, ty).minx
    ensures TileBounds(m, z, tx, ty).maxy == TileBounds(m, z, tx, ty + 1).miny
  {
  }

  lemma PixelInTile(m: Mercator, z: int, k: int, mv: real)
    requires Valid(m)
    requires (k * m.tileSize) as real * Resolution(m, z) - m.originShift < mv
    requires mv <= ((k + 1) * m.tileSize) as real * Resolution(m, z) - m.originShift
    ensures PixelToTileIndex(m.tileSize, (mv + m.originShift) / Resolution(m, z)) == k
  {
    var res, t := Resolution(m, z), m.tileSize as real;
    var p := (mv + m.originShift) / res;
    assert p * res == mv + m.originShift;
    assert (k * m.tileSize) as real == k as real * t;
    assert ((k + 1) * m.tileSize) as real == (k as real + 1.0) * t;
    assert k as real * t * res < p * res;
    assert p * res <= (k as real + 1.0) * t * res;
    assert k as real * t < p;
    assert p <= (k as real + 1.0) * t;
    ScaleBetween(k as real, p, t);
    PixelToTileIndexIff(m.tileSize, p, k);
  }

  /** Dividing by a positive tile size keeps a value between two multiples. */
  lemma ScaleBetween(k: real, p: real, t: real)
    requires t > 0.0
    requires k * t < p <= (k + 1.0) * t
    ensures k < p / t <= k + 1.0
  {
    var q := p / t;
    assert q * t == p;
    if k + 1.0 < q {
      MulStrict(k + 1.0, q, t);
    }
    if q < k {
      MulStrict(q, k, t);
    }
  }

  /** A point inside a tile (its west and south edges excluded, which belong
      to the neighbours) is mapped back to that tile. */
  lemma MeterToTileInverse(m: Mercator, z: int, tx: int, ty: int, mx: real, my: real)
    requires Valid(m)
    requires TileBounds(m, z, tx, ty).minx < mx <= TileBounds(m, z, tx, ty).maxx
    requires TileBounds(m, z, tx, ty).miny < my <= TileBounds(m, z, tx, ty).maxy
    ensures MeterToTile(m, z, mx, my) == TileXY(tx, ty)
  {
    PixelInTile(m, z, tx, mx);
    PixelInTile(m, z, ty, my);
  }

  /** With the default constants the single tile of level 0 covers the
      whole square world `[-OriginShift, OriginShift]^2`. */
  lemma DefaultWorldTile()
    ensures var m := DefaultMercator();
            TileBounds(m, 0, 0, 0) == Bounds(-m.originShift, -m.originShift, m.originShift, m.originShift)
  {
    var m := DefaultMercator();
    assert Resolution(m, 0) == m.initialResolution;
  }
}

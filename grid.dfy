/**
  Row-major enumeration of an inclusive tile range, in the order of the
  nested loops `for x := x0; x <= x1; x++ { for y := y0; y <= y1; y++ }`
  that the planners and the overview builder all use: x outer, y inner.
*/
module Grid {
  import opened Base
  import opened Mercator

  /** Number of integers in `[lo, hi]`. */
  function Count(lo: int, hi: int): (n: nat)
    ensures lo <= hi ==> n == hi - lo + 1
    ensures hi < lo ==> n == 0
  {
    if hi < lo then 0 else hi - lo + 1
  }

  /** `(x, y0), (x, y0+1), ..., (x, y1)`. */
  function Column(x: int, y0: int, y1: int): seq<TileXY>
    decreases y1 - y0
  {
    if y1 < y0 then [] else Column(x, y0, y1 - 1) + [TileXY(x, y1)]
  }

  /** All of `[x0, x1] x [y0, y1]`, x outer and y inner. */
  function Grid(x0: int, x1: int, y0: int, y1: int): seq<TileXY>
    decreases x1 - x0
  {
    if x1 < x0 then [] else Grid(x0, x1 - 1, y0, y1) + Column(x1, y0, y1)
  }

  /** Strict row-major order: by x, then by y. */
  predicate Before(a: TileXY, b: TileXY)
  {
    a.x < b.x || (a.x == b.x && a.y < b.y)
  }

  predicate StrictlyOrdered(s: seq<TileXY>)
  {
    forall i, j :: 0 <= i < j < |s| ==> Before(s[i], s[j])
  }

  lemma {:induction false} ColumnShape(x: int, y0: int, y1: int)
    ensures |Column(x, y0, y1)| == Count(y0, y1)
    ensures forall i :: 0 <= i < |Column(x, y0, y1)| ==> Column(x, y0, y1)[i] == TileXY(x, y0 + i)
    decreases y1 - y0
  {
    if y0 <= y1 {
      ColumnShape(x, y0, y1 - 1);
    }
  }

  /** The grid has one entry per pair, and entry `i` is the pair the nested
      loops visit on their `i`-th iteration. */
  lemma {:induction false} GridShape(x0: int, x1: int, y0: int, y1: int)
    ensures |Grid(x0, x1, y0, y1)| == Count(x0, x1) * Count(y0, y1)
    ensures forall i :: 0 <= i < |Grid(x0, x1, y0, y1)| ==>
              Grid(x0, x1, y0, y1)[i] == TileXY(x0 + i / Count(y0, y1), y0 + i % Count(y0, y1))
    decreases x1 - x0
  {
    if x0 <= x1 {
      var n := Count(y0, y1);
      GridShape(x0, x1 - 1, y0, y1);
      ColumnShape(x1, y0, y1);
      var g := Grid(x0, x1, y0, y1);
      var p := Grid(x0, x1 - 1, y0, y1);
      assert |p| == (x1 - x0) * n;
      forall i | 0 <= i < |g|
        ensures g[i] == TileXY(x0 + i / n, y0 + i % n)
      {
        if i < |p| {
          assert g[i] == p[i];
        } else {
          var k := i - |p|;
          assert g[i] == Column(x1, y0, y1)[k];
          assert i == (x1 - x0) * n + k && 0 <= k < n;
          DivModSplit(x1 - x0, n, k);
        }
      }
    }
  }

  /** A pair is in the grid exactly when it lies in the range. */
  lemma GridMembership(x0: int, x1: int, y0: int, y1: int, p: TileXY)
    ensures p in Grid(x0, x1, y0, y1) <==> x0 <= p.x <= x1 && y0 <= p.y <= y1
  {
    if x0 <= p.x <= x1 && y0 <= p.y <= y1 {
      GridHasRange(x0, x1, y0, y1, p);
    }
    if p in Grid(x0, x1, y0, y1) {
      GridWithinRange(x0, x1, y0, y1, p);
    }
  }

  lemma GridHasRange(x0: int, x1: int, y0: int, y1: int, p: TileXY)
    requires x0 <= p.x <= x1 && y0 <= p.y <= y1
    ensures p in Grid(x0, x1, y0, y1)
  {
    GridShape(x0, x1, y0, y1);
    var g, n := Grid(x0, x1, y0, y1), Count(y0, y1);
    var i := (p.x - x0) * n + (p.y - y0);
    PairIndex(p.x - x0, p.y - y0, n, Count(x0, x1));
    assert g[i] == p;
  }

  lemma GridWithinRange(x0: int, x1: int, y0: int, y1: int, p: TileXY)
    requires p in Grid(x0, x1, y0, y1)
    ensures x0 <= p.x <= x1 && y0 <= p.y <= y1
  {
    GridShape(x0, x1, y0, y1);
    var g, n := Grid(x0, x1, y0, y1), Count(y0, y1);
    var i :| 0 <= i < |g| && g[i] == p;
    assert n > 0;
    DivBelow(i, n, Count(x0, x1));
  }

  /** Position `a * n + b` of a grid with `m` columns of `n` rows is column
      `a`, row `b`. */
  lemma PairIndex(a: int, b: int, n: int, m: int)
    requires 0 <= a < m && 0 <= b < n
    ensures 0 <= a * n + b < m * n
    ensures (a * n + b) / n == a && (a * n + b) % n == b
  {
    DivModSplit(a, n, b);
    MulMono(a + 1, m, n);
  }

  lemma DivBelow(i: int, n: int, m: int)
    requires 0 <= i < m * n && n > 0
    ensures 0 <= i / n < m
  {
  }

  /** The loops visit pairs in strictly increasing row-major order, so no
      pair is visited twice. */
  lemma GridOrdered(x0: int, x1: int, y0: int, y1: int)
    ensures StrictlyOrdered(Grid(x0, x1, y0, y1))
    ensures forall i, j :: 0 <= i < j < |Grid(x0, x1, y0, y1)| ==>
              Grid(x0, x1, y0, y1)[i] != Grid(x0, x1, y0, y1)[j]
  {
    GridShape(x0, x1, y0, y1);
    var g, n := Grid(x0, x1, y0, y1), Count(y0, y1);
    forall i, j | 0 <= i < j < |g|
      ensures Before(g[i], g[j])
    {
      DivMonotone(i, j, n);
    }
  }

  lemma DivMonotone(i: int, j: int, n: int)
    requires 0 <= i < j && n > 0
    ensures i / n < j / n || (i / n == j / n && i % n < j % n)
  {
    var qi, ri, qj, rj := i / n, i % n, j / n, j % n;
    assert i == qi * n + ri && j == qj * n + rj;
    assert 0 <= ri < n && 0 <= rj < n;
    assert (qj - qi) * n == (j - i) + (ri - rj);
    if qj - qi <= -1 {
      MulMono(qj - qi, -1, n);
    }
  }

  /** `int((1 + |tmaxx - tminx|) * (1 + |tmaxy - tminy|))`: the tile count
      the planners record for a level. */
  function TileCount(tminx: int, tminy: int, tmaxx: int, tmaxy: int): int
  {
    (1 + AbsInt(tmaxx - tminx)) * (1 + AbsInt(tmaxy - tminy))
  }

  /** When the range is non-empty on both axes, the recorded count is the
      number of pairs the loops visit. */
  lemma TileCountMatchesGrid(tminx: int, tminy: int, tmaxx: int, tmaxy: int)
    requires tminx <= tmaxx && tminy <= tmaxy
    ensures TileCount(tminx, tminy, tmaxx, tmaxy) == |Grid(tminx, tmaxx, tminy, tmaxy)|
  {
    GridShape(tminx, tmaxx, tminy, tmaxy);
  }

  /** When a range is inverted on some axis the loops visit nothing, yet
      the recorded count is still positive. */
  lemma TileCountOfEmptyRange(tminx: int, tminy: int, tmaxx: int, tmaxy: int)
    requires tmaxx < tminx || tmaxy < tminy
    ensures |Grid(tminx, tmaxx, tminy, tmaxy)| == 0
    ensures TileCount(tminx, tminy, tmaxx, tmaxy) >= 1
  {
    GridShape(tminx, tmaxx, tminy, tmaxy);
  }

  /** A level's range `[tminx, tmaxx] x [tminy, tmaxy]`, as the planners
      store it (`[]int{tminx, tminy, tmaxx, tmaxy}`). */
  datatype TileRange = TileRange(tminx: int, tminy: int, tmaxx: int, tmaxy: int)

  predicate InRange(r: TileRange, t: TileXY)
  {
    r.tminx <= t.x <= r.tmaxx && r.tminy <= t.y <= r.tmaxy
  }

  /** The pairs of a range in the order the planners' loops visit them. */
  function RangeCells(r: TileRange): seq<TileXY>
  {
    Grid(r.tminx, r.tmaxx, r.tminy, r.tmaxy)
  }

  /** `int(math.Min(math.Pow(2, z) - 1, float64(t)))`: the upper clamp. */
  function ClampHigh(z: int, t: int): int
  {
    var top := RealPow2(z) - 1.0;
    Trunc(if top < t as real then top else t as real)
  }

  /** For a non-negative level the upper clamp is `min(2^z - 1, t)`. */
  lemma ClampHighAt(z: nat, t: int)
    ensures ClampHigh(z, t) == Min(Pow2(z) - 1, t)
  {
    TruncOfInteger(Pow2(z) - 1);
    TruncOfInteger(t);
  }

  /** The tile range of level `z` for bounds `b` (`tiles.go` and `TileRange`
      in the job planner): the tiles of the south-west and north-east
      corners, clamped below at 0 and above at `2^z - 1`. */
  function LevelRange(m: Mercator, b: Bounds, z: int): TileRange
    requires Valid(m)
  {
    var lo := MeterToTile(m, z, b.minx, b.miny);
    var hi := MeterToTile(m, z, b.maxx, b.maxy);
    TileRange(Max(0, lo.x), Max(0, lo.y), ClampHigh(z, hi.x), ClampHigh(z, hi.y))
  }

  /** Every stored range lies within the level's grid `[0, 2^z - 1]`
      (the source does not force `tmin <= tmax`). */
  lemma LevelRangeClamped(m: Mercator, b: Bounds, z: nat)
    requires Valid(m)
    ensures var r := LevelRange(m, b, z);
            0 <= r.tminx && 0 <= r.tminy && r.tmaxx <= Pow2(z) - 1 && r.tmaxy <= Pow2(z) - 1
  {
    var hi := MeterToTile(m, z, b.maxx, b.maxy);
    ClampHighAt(z, hi.x);
    ClampHighAt(z, hi.y);
  }

  /** The tile index along one axis of a coordinate `v` in meters. */
  function AxisTile(m: Mercator, z: int, v: real): int
    requires Valid(m)
  {
    PixelToTileIndex(m.tileSize, (v + m.originShift) / Resolution(m, z))
  }

  /** On a grid whose tiles cover the world extent `[-originShift,
      originShift]`, a coordinate east of the west edge has a tile index of
      at least 0, and one not east of the east edge an index of at most
      `2^z - 1`. */
  lemma AxisTileInWorld(m: Mercator, z: nat, v: real)
    requires Valid(m)
    requires m.initialResolution * m.tileSize as real == 2.0 * m.originShift
    ensures -m.originShift < v ==> 0 <= AxisTile(m, z, v)
    ensures v <= m.originShift ==> AxisTile(m, z, v) <= Pow2(z) - 1
  {
    var res, t := Resolution(m, z), m.tileSize as real;
    var p := (v + m.originShift) / res;
    var k := AxisTile(m, z, v);
    assert k as real < p / t <= k as real + 1.0;
    assert p * res == v + m.originShift;
    if -m.originShift < v {
      PositiveQuotient(p, res, t);
    }
    if v <= m.originShift {
      assert res * RealPow2(z) == m.initialResolution;
      BelowGridEdge(p, res, t, Pow2(z) as real, m.originShift);
    }
  }

  lemma PositiveQuotient(p: real, res: real, t: real)
    requires res > 0.0 && t > 0.0 && p * res > 0.0
    ensures p / t > 0.0
  {
    assert p > 0.0;
  }

  /** `p * res <= 2 * os == res * n * t` puts `p / t` at most `n`. */
  lemma BelowGridEdge(p: real, res: real, t: real, n: real, os: real)
    requires res > 0.0 && t > 0.0
    requires res * n * t == 2.0 * os
    requires p * res <= 2.0 * os
    ensures p / t <= n
  {
    assert p * res <= (n * t) * res;
    MulLeCancel(p, n * t, res);
    assert p <= n * t;
  }

  lemma MulLeCancel(a: real, b: real, c: real)
    requires c > 0.0 && a * c <= b * c
    ensures a <= b
  {
  }

  /** When the raster's bounds are a proper box within the world extent,
      every level's range is non-empty on both axes, so the planners'
      loops visit at least one tile. */
  lemma LevelRangeNonEmpty(m: Mercator, b: Bounds, z: nat)
    requires Valid(m)
    requires m.initialResolution * m.tileSize as real == 2.0 * m.originShift
    requires b.minx <= b.maxx && b.miny <= b.maxy
    requires -m.originShift < b.maxx && b.minx <= m.originShift
    requires -m.originShift < b.maxy && b.miny <= m.originShift
    ensures var r := LevelRange(m, b, z);
            r.tminx <= r.tmaxx && r.tminy <= r.tmaxy
  {
    var lo := MeterToTile(m, z, b.minx, b.miny);
    var hi := MeterToTile(m, z, b.maxx, b.maxy);
    MeterToTileMonotone(m, z, b.minx, b.miny, b.maxx, b.maxy);
    assert lo.x == AxisTile(m, z, b.minx) && lo.y == AxisTile(m, z, b.miny);
    assert hi.x == AxisTile(m, z, b.maxx) && hi.y == AxisTile(m, z, b.maxy);
    AxisTileInWorld(m, z, b.minx);
    AxisTileInWorld(m, z, b.miny);
    AxisTileInWorld(m, z, b.maxx);
    AxisTileInWorld(m, z, b.maxy);
    ClampHighAt(z, hi.x);
    ClampHighAt(z, hi.y);
  }
}

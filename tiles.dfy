/**
  The tile-pyramid planner (`pkg/tile/tiles.go`): a `Tile` opens the input,
  warps it to Web Mercator, caches the warped raster's size and transform,
  and then plans every level from `ZoomMin` to `ZoomMax`: the clamped tile
  range of the level, the number of tiles in it, and one `Id` per tile
  holding its read/write window and output file name.

  The goroutine that builds each `Id` is modelled as a sequential loop body;
  the order in which the source appends them is then the loops' order.
*/
module Tiles {
  import opened Base
  import opened Mercator
  import opened GdalRaster
  import opened Windows
  import opened Paths
  import opened Grid
  import opened TileIds
  import opened RasterBackend

  datatype TileOption =
    | SetTileSize(tileSize: int)
    | SetConcurrency(concurrency: int)
    | SetTileStyle(style: string)
    | SetOutFolder(outFolder: string)
    | SetInputFilename(inputFilename: string)
    | SetZoomMaxMin(zoomMax: int, zoomMin: int)

  /** The fields the options set. */
  datatype Settings = Settings(tileSize: int, concurrency: int, style: string, outFolder: string,
                               inputFilename: string, zoomMax: int, zoomMin: int)

  /** `DefaultTile`: 256-pixel tiles, no output folder, everything else zero. */
  function DefaultTile(): Settings
  {
    Settings(256, 0, "", "", "", 0, 0)
  }

  function ApplyTileOption(s: Settings, o: TileOption): Settings
  {
    match o
    case SetTileSize(t) => s.(tileSize := t)
    case SetConcurrency(c) => s.(concurrency := c)
    case SetTileStyle(st) => s.(style := st)
    case SetOutFolder(f) => s.(outFolder := f)
    case SetInputFilename(n) => s.(inputFilename := n)
    case SetZoomMaxMin(zMax, zMin) => s.(zoomMax := zMax, zoomMin := zMin)
  }

  /** The options applied in order to the defaults. */
  function ApplyTileOptions(s: Settings, opts: seq<TileOption>): Settings
    decreases |opts|
  {
    if |opts| == 0 then s else ApplyTileOptions(ApplyTileOption(s, opts[0]), opts[1..])
  }

  /** The errors `NewTile` records: none when the input opens, warps and
      the warped file reopens; otherwise the first failure. */
  function NewTileErrors(input: string, be: Backend): (errs: seq<Error>)
    ensures |errs| <= 1
    ensures input == "" ==> errs == [ErrInputFilename]
    ensures errs == [] <==> input != "" && be.open(input).Success?
                            && be.warp(be.open(input).value).Success?
                            && be.open(be.warp(be.open(input).value).value.filename).Success?
  {
    if input == "" then [ErrInputFilename]
    else
      match be.open(input)
      case Failure(e) => [e]
      case Success(ds) =>
        match be.warp(ds)
        case Failure(e) => [e]
        case Success(w) =>
          match be.open(w.filename)
          case Failure(e) => [e]
          case Success(_) => []
  }

  /** What `windows` reads from the tile: the grid, the raster's bounds,
      the output naming and the cached raster description. */
  datatype Planner = Planner(merc: Mercator, bounds: Bounds, outFolder: string, style: string,
                             tileSize: int, height: int, width: int, gt: GeoTransform)

  /** The `Id` the planner creates for tile `c` of level `tz`: its window is
      `ReadBox` of the tile's bounds and its file name holds the stored
      row. */
  function MakeId(p: Planner, tz: nat, c: TileXY): Id
  {
    var tb := TileBounds(p.merc, tz, c.x, c.y);
    var box := WindowsReadBox(tb.minx, tb.maxy, tb.maxx, tb.miny, p.tileSize, p.height, p.width, p.gt);
    NewId(tz, c.x, c.y, ReadBoxSpec(box), TilePath(p.outFolder, tz, c.x, TmsRow(p.style, tz, c.y)))
  }

  /** The `Id`s of the tiles `cells` of level `tz`, in order. */
  function LevelIds(p: Planner, tz: nat, cells: seq<TileXY>): (ids: seq<Id>)
    ensures |ids| == |cells|
    ensures forall i :: 0 <= i < |cells| ==> ids[i] == MakeId(p, tz, cells[i])
  {
    seq(|cells|, i requires 0 <= i < |cells| => MakeId(p, tz, cells[i]))
  }

  lemma LevelIdsAppend(p: Planner, tz: nat, cells: seq<TileXY>, c: TileXY)
    ensures LevelIds(p, tz, cells + [c]) == LevelIds(p, tz, cells) + [MakeId(p, tz, c)]
  {
    assert forall i :: 0 <= i < |cells| ==> (cells + [c])[i] == cells[i];
  }

  lemma LevelIdsConcat(p: Planner, tz: nat, a: seq<TileXY>, b: seq<TileXY>)
    ensures LevelIds(p, tz, a + b) == LevelIds(p, tz, a) + LevelIds(p, tz, b)
  {
    assert forall i :: 0 <= i < |a| ==> (a + b)[i] == a[i];
    assert forall i :: 0 <= i < |b| ==> (a + b)[|a| + i] == b[i];
  }

  /** The loops of `windows`: the `Id`s of the range, x outer and y
      inner. */
  method RangeIds(p: Planner, tz: nat, r: TileRange) returns (ids: seq<Id>)
    ensures ids == LevelIds(p, tz, RangeCells(r))
  {
    ids := [];
    var x := r.tminx;
    while x <= r.tmaxx
      invariant r.tminx <= x <= Max(r.tminx, r.tmaxx + 1)
      invariant ids == LevelIds(p, tz, Grid.Grid(r.tminx, x - 1, r.tminy, r.tmaxy))
    {
      var column := ColumnIds(p, tz, x, r.tminy, r.tmaxy);
      LevelIdsConcat(p, tz, Grid.Grid(r.tminx, x - 1, r.tminy, r.tmaxy), Column(x, r.tminy, r.tmaxy));
      ids := ids + column;
      x := x + 1;
    }
    assert Grid.Grid(r.tminx, x - 1, r.tminy, r.tmaxy) == RangeCells(r);
  }

  /** The inner loop of `windows`: the `Id`s of column `x`, y ascending. */
  method ColumnIds(p: Planner, tz: nat, x: int, y0: int, y1: int) returns (ids: seq<Id>)
    ensures ids == LevelIds(p, tz, Column(x, y0, y1))
  {
    ids := [];
    var y := y0;
    while y <= y1
      invariant y0 <= y <= Max(y0, y1 + 1)
      invariant ids == LevelIds(p, tz, Column(x, y0, y - 1))
    {
      var id := PlanTile(p, tz, x, y);
      LevelIdsAppend(p, tz, Column(x, y0, y - 1), TileXY(x, y));
      ids := ids + [id];
      y := y + 1;
    }
  }

  /** `[]int{tminx, tminy, tmaxx, tmaxy}`. */
  function RangeList(r: TileRange): seq<int>
  {
    [r.tminx, r.tminy, r.tmaxx, r.tmaxy]
  }

  /** The `Id` of one tile, computed as the loop body does. */
  method PlanTile(p: Planner, tz: nat, x: int, y: int) returns (id: Id)
    ensures id == MakeId(p, tz, TileXY(x, y))
  {
    var tmsY := y;
    if p.style == "tms" {
      tmsY := Pow2(tz) - y - 1;
    }
    var filename := p.outFolder + "/" + RelativeTilePath(tz, x, tmsY);
    if p.outFolder == "" {
      filename := RelativeTilePath(tz, x, tmsY);
    }
    var tb := TileBounds(p.merc, tz, x, y);
    var win := ReadBox(WindowsReadBox(tb.minx, tb.maxy, tb.maxx, tb.miny, p.tileSize, p.height, p.width, p.gt));
    id := NewId(tz, x, y, win, filename);
  }

  /** Every tile of the range gets exactly one `Id`, tagged with the level,
      and the `Id`s come in strictly increasing row-major order. */
  lemma LevelIdsExactlyOnce(p: Planner, tz: nat, r: TileRange, t: TileXY)
    ensures var ids := LevelIds(p, tz, RangeCells(r));
            (forall i :: 0 <= i < |ids| ==> ids[i].z == tz && InRange(r, TileXY(ids[i].x, ids[i].y)))
            && (forall i, j :: 0 <= i < j < |ids| ==> Before(TileXY(ids[i].x, ids[i].y), TileXY(ids[j].x, ids[j].y)))
            && (InRange(r, t) <==> exists i :: 0 <= i < |ids| && ids[i].x == t.x && ids[i].y == t.y)
  {
    var cells := RangeCells(r);
    var ids := LevelIds(p, tz, cells);
    GridOrdered(r.tminx, r.tmaxx, r.tminy, r.tmaxy);
    forall i | 0 <= i < |ids|
      ensures ids[i].z == tz && InRange(r, TileXY(ids[i].x, ids[i].y))
    {
      assert TileXY(ids[i].x, ids[i].y) == cells[i];
      GridMembership(r.tminx, r.tmaxx, r.tminy, r.tmaxy, cells[i]);
    }
    forall i, j | 0 <= i < j < |ids|
      ensures Before(TileXY(ids[i].x, ids[i].y), TileXY(ids[j].x, ids[j].y))
    {
      assert TileXY(ids[i].x, ids[i].y) == cells[i] && TileXY(ids[j].x, ids[j].y) == cells[j];
    }
    GridMembership(r.tminx, r.tmaxx, r.tminy, r.tmaxy, t);
    if InRange(r, t) {
      var i :| 0 <= i < |cells| && cells[i] == t;
      assert ids[i].x == t.x && ids[i].y == t.y;
    }
  }

  /** Two different tiles of a level never share a file name, whatever the
      style. */
  lemma LevelFilenamesDistinct(p: Planner, tz: nat, r: TileRange)
    ensures var ids := LevelIds(p, tz, RangeCells(r));
            forall i, j :: 0 <= i < j < |ids| ==> ids[i].filename != ids[j].filename
  {
    var cells := RangeCells(r);
    var ids := LevelIds(p, tz, cells);
    GridOrdered(r.tminx, r.tmaxx, r.tminy, r.tmaxy);
    forall i, j | 0 <= i < j < |ids|
      ensures ids[i].filename != ids[j].filename
    {
      var a, b := cells[i], cells[j];
      assert a != b;
      TilePathInjective(p.outFolder, tz, a.x, TmsRow(p.style, tz, a.y), tz, b.x, TmsRow(p.style, tz, b.y));
      TmsRowInvolution(p.style, tz, a.y);
      TmsRowInvolution(p.style, tz, b.y);
    }
  }

  class Tile {
    var outFolder: string
    var tempFileVrt: string
    var vrt: Option<Dataset>
    var err: seq<Error>
    var tileSize: int
    var inputFilename: string
    var style: string
    var bandCount: nat
    var querySize: int
    var ZoomTileIds: seq<seq<Id>>
    var ZoomMax: int
    var ZoomMin: int
    var Mercator: Option<Mercator>
    var Gdal: Gdal?
    var Concurrency: int
    var TZMinMax: seq<seq<int>>
    var TzCount: map<int, int>

    /** A tile without a raster wrapper has recorded an error, and one with
        a wrapper has the default grid. */
    predicate Consistent()
      reads this
    {
      (Gdal == null ==> |err| > 0) && (Gdal != null ==> Mercator == Some(DefaultMercator()))
    }

    /** Everything but the plan and the error list is as before. */
    twostate predicate SettingsKept()
      reads this
    {
      outFolder == old(outFolder) && tempFileVrt == old(tempFileVrt) && vrt == old(vrt)
      && tileSize == old(tileSize) && inputFilename == old(inputFilename) && style == old(style)
      && bandCount == old(bandCount) && querySize == old(querySize) && ZoomMax == old(ZoomMax)
      && ZoomMin == old(ZoomMin) && Mercator == old(Mercator) && Gdal == old(Gdal)
      && Concurrency == old(Concurrency)
    }

    /** `NewTile`: the options over the defaults, then open, warp and
        reopen the input, stopping at the first failure with the error
        recorded. */
    constructor NewTile(options: seq<TileOption>, be: Backend)
      ensures var s := ApplyTileOptions(DefaultTile(), options);
              tileSize == s.tileSize && Concurrency == s.concurrency && style == s.style
              && outFolder == s.outFolder && inputFilename == s.inputFilename
              && ZoomMax == s.zoomMax && ZoomMin == s.zoomMin
      ensures querySize == QuerySize
      ensures err == NewTileErrors(inputFilename, be)
      ensures Consistent() && (err != [] ==> Gdal == null)
      ensures ZoomTileIds == [] && TZMinMax == [] && TzCount == map[]
      ensures err == [] ==>
                var ds := be.open(inputFilename).value;
                var w := be.warp(ds).value;
                var vds := be.open(w.filename).value;
                Gdal != null && fresh(Gdal) && !Gdal.closed && Gdal.dataset == vds
                && vrt == Some(w.ds) && tempFileVrt == w.filename && bandCount == ds.rasterCount
                && Gdal.Width == vds.rasterXSize && Gdal.Height == vds.rasterYSize
                && Gdal.GeoTransform == vds.geoTransform && Gdal.BandCount == vds.rasterCount
    {
      var s := ApplyTileOptions(DefaultTile(), options);
      var errs: seq<Error> := [];
      var g: Gdal? := null;
      var merc: Option<Mercator> := None;
      var v: Option<Dataset> := None;
      var tmp := "";
      var bands := 0;
      if s.inputFilename == "" {
        errs := [ErrInputFilename];
      } else {
        var input := be.open(s.inputFilename);
        if input.Failure? {
          errs := [input.error];
        } else {
          var warped := be.warp(input.value);
          if warped.Failure? {
            errs := [warped.error];
          } else {
            v, tmp := Some(warped.value.ds), warped.value.filename;
            merc := Some(DefaultMercator());
            var e;
            g, e := NewGdal(be.open(tmp));
            if e.Some? {
              errs := [e.value];
            } else {
              g.AdvanceCalculate();
              bands := input.value.rasterCount;
            }
          }
        }
      }
      tileSize, Concurrency, style, outFolder := s.tileSize, s.concurrency, s.style, s.outFolder;
      inputFilename, ZoomMax, ZoomMin := s.inputFilename, s.zoomMax, s.zoomMin;
      querySize := QuerySize;
      err, Gdal, Mercator, vrt, tempFileVrt, bandCount := errs, g, merc, v, tmp, bands;
      ZoomTileIds, TZMinMax, TzCount := [], [], map[];
    }

    /** The values `windows` reads. */
    function Planning(): Planner
      reads this, Gdal
      requires Gdal != null && Mercator.Some?
    {
      Planner(Mercator.value, Gdal.GetBoundsByTransform(), outFolder, style, tileSize,
              Gdal.GetHeight(), Gdal.GetWidth(), Gdal.GetGeoTransform())
    }

    /** `windows(tz, ...)`: records the level's tile count and replaces the
        level's `Id`s by one per tile of the range, x outer and y inner. */
    method PlanLevel(tz: int, r: TileRange) returns (crash: Option<Error>)
      requires Gdal != null && Mercator.Some?
      modifies this
      ensures SettingsKept() && err == old(err) && TZMinMax == old(TZMinMax)
      ensures TzCount == old(TzCount)[tz := TileCount(r.tminx, r.tminy, r.tmaxx, r.tmaxy)]
      ensures !(0 <= tz < |old(ZoomTileIds)|) ==> crash == Some(Panic("index out of range"))
      ensures 0 <= tz < |old(ZoomTileIds)| ==>
                crash.None? && ZoomTileIds == old(ZoomTileIds)[tz := LevelIds(Planning(), tz, RangeCells(r))]
    {
      TzCount := TzCount[tz := TileCount(r.tminx, r.tminy, r.tmaxx, r.tmaxy)];
      if tz < 0 || tz >= |ZoomTileIds| {
        return Some(Panic("index out of range"));
      }
      var p := Planning();
      ZoomTileIds := ZoomTileIds[tz := []];
      var ids := RangeIds(p, tz, r);
      assert ZoomTileIds[tz] + ids == ids;
      ZoomTileIds := ZoomTileIds[tz := ZoomTileIds[tz] + ids];
      crash := None;
    }

    /** The plan after levels `ZoomMin` .. `upTo - 1` have been planned on
        top of the count table `tz0`. */
    ghost predicate PlannedUpTo(upTo: int, tz0: map<int, int>)
      reads this, Gdal
      requires Gdal != null && Mercator == Some(DefaultMercator())
    {
      Planned(Planning(), ZoomMin, ZoomMax, ZoomTileIds, TZMinMax, TzCount, upTo, tz0)
    }

    /** Whether planning runs to the end: the level tables can be made and
        every planned level is a valid index. */
    predicate PlanFits()
      reads this
    {
      ZoomMax + 1 >= 0 && (ZoomMax < ZoomMin || 0 <= ZoomMin)
    }

    /** The body of `GenerateGdalReadWindows`: fresh level tables, then
        each level from `ZoomMin` to `ZoomMax` planned in turn. */
    method Plan() returns (crash: Option<Error>)
      requires Gdal != null && Mercator == Some(DefaultMercator())
      modifies this
      ensures SettingsKept() && err == old(err)
      ensures crash.None? <==> PlanFits()
      ensures crash.None? ==> PlannedUpTo(ZoomMax + 1, old(TzCount))
    {
      var b := Gdal.GetBoundsByTransform();
      if ZoomMax + 1 < 0 {
        return Some(Panic("makeslice: len out of range"));
      }
      ZoomTileIds := seq(ZoomMax + 1, _ => []);
      TZMinMax := seq(ZoomMax + 1, _ => []);
      var z := ZoomMin;
      while z <= ZoomMax
        invariant ZoomMin <= z <= Max(ZoomMin, ZoomMax + 1)
        invariant z > ZoomMin ==> ZoomMin >= 0
        invariant SettingsKept() && err == old(err) && b == Planning().bounds
        invariant PlannedUpTo(z, old(TzCount))
      {
        var m := Mercator.value;
        var lo := MeterToTile(m, z, b.minx, b.miny);
        var hi := MeterToTile(m, z, b.maxx, b.maxy);
        var r := TileRange(Max(0, lo.x), Max(0, lo.y), ClampHigh(z, hi.x), ClampHigh(z, hi.y));
        assert r == LevelRange(m, b, z);
        ghost var p, ids0, ranges0, counts0 := Planning(), ZoomTileIds, TZMinMax, TzCount;
        crash := PlanLevel(z, r);
        if crash.Some? {
          return;
        }
        TZMinMax := TZMinMax[z := RangeList(r)];
        assert p == Planning();
        PlannedStep(p, ZoomMin, ZoomMax, ids0, ranges0, counts0, z, old(TzCount));
        z := z + 1;
      }
      crash := None;
    }

    /** `GenerateGdalReadWindows`, skipping the planning once an error is
        recorded, so that the error reaches `Close`. */
    method GenerateGdalReadWindows() returns (crash: Option<Error>)
      requires Consistent()
      modifies this
      ensures Consistent() && SettingsKept() && err == old(err)
      ensures |err| > 0 ==> crash.None? && ZoomTileIds == old(ZoomTileIds) && TZMinMax == old(TZMinMax)
                            && TzCount == old(TzCount)
      ensures |err| == 0 ==> (crash.None? <==> PlanFits())
      ensures |err| == 0 && crash.None? ==> PlannedUpTo(ZoomMax + 1, old(TzCount))
    {
      if |err| > 0 {
        return None;
      }
      crash := Plan();
    }

    /** `GenerateGdalReadWindows` as written: it reads the raster wrapper
        without looking at the recorded errors. */
    method GenerateGdalReadWindowsAsWritten() returns (crash: Option<Error>)
      requires Consistent()
      modifies this
      ensures Consistent() && SettingsKept() && err == old(err)
      ensures Gdal == null ==> crash == Some(Panic("nil pointer dereference"))
      ensures Gdal != null ==> (crash.None? <==> PlanFits())
    {
      if Gdal == null {
        return Some(Panic("nil pointer dereference"));
      }
      crash := Plan();
    }

    /** `Close`: the first recorded error, if any; otherwise the raster
        wrapper is released. */
    method Close() returns (e: Option<Error>)
      requires Consistent()
      modifies Gdal
      ensures |err| > 0 ==> e == Some(err[0]) && (Gdal != null ==> Gdal.closed == old(Gdal.closed))
      ensures |err| == 0 ==> e.None? && Gdal.closed
    {
      if |err| > 0 {
        return Some(err[0]);
      }
      Gdal.Close();
      e := None;
    }
  }

  /** The level tables after levels `zMin` .. `upTo - 1` have been planned
      on top of the count table `tz0`: each such level holds its clamped
      range, its `Id`s and its tile count; every other level is empty and
      keeps its earlier count. */
  ghost predicate Planned(p: Planner, zMin: int, zMax: int, ids: seq<seq<Id>>, ranges: seq<seq<int>>,
                          counts: map<int, int>, upTo: int, tz0: map<int, int>)
    requires Valid(p.merc)
  {
    |ids| == zMax + 1 && |ranges| == zMax + 1
    && (forall z :: 0 <= z <= zMax && zMin <= z < upTo ==>
          ranges[z] == RangeList(LevelRange(p.merc, p.bounds, z))
          && ids[z] == LevelIds(p, z, RangeCells(LevelRange(p.merc, p.bounds, z))))
    && (forall z :: 0 <= z <= zMax && !(zMin <= z < upTo) ==> ranges[z] == [] && ids[z] == [])
    && (forall z :: z in counts <==> z in tz0 || zMin <= z < upTo)
    && (forall z :: zMin <= z < upTo ==>
          var r := LevelRange(p.merc, p.bounds, z);
          counts[z] == TileCount(r.tminx, r.tminy, r.tmaxx, r.tmaxy))
    && (forall z :: z in tz0 && !(zMin <= z < upTo) ==> counts[z] == tz0[z])
  }

  /** Planning level `z` extends the plan by one level. */
  lemma PlannedStep(p: Planner, zMin: int, zMax: int, ids: seq<seq<Id>>, ranges: seq<seq<int>>,
                    counts: map<int, int>, z: nat, tz0: map<int, int>)
    requires Valid(p.merc) && zMin <= z <= zMax
    requires Planned(p, zMin, zMax, ids, ranges, counts, z, tz0)
    ensures var r := LevelRange(p.merc, p.bounds, z);
            Planned(p, zMin, zMax, ids[z := LevelIds(p, z, RangeCells(r))], ranges[z := RangeList(r)],
                    counts[z := TileCount(r.tminx, r.tminy, r.tmaxx, r.tmaxy)], z + 1, tz0)
  {
  }

  /** After planning, the level table of every planned level is its
      clamped range, each tile of the range appears exactly once with its
      own file name, and the recorded count is the number of tiles whenever
      the range is non-empty. */
  lemma PlannedLevel(p: Planner, z: nat, ids: seq<Id>, count: int, t: TileXY)
    requires Valid(p.merc)
    requires ids == LevelIds(p, z, RangeCells(LevelRange(p.merc, p.bounds, z)))
    requires var r := LevelRange(p.merc, p.bounds, z); count == TileCount(r.tminx, r.tminy, r.tmaxx, r.tmaxy)
    ensures var r := LevelRange(p.merc, p.bounds, z);
            0 <= r.tminx && 0 <= r.tminy && r.tmaxx < Pow2(z) && r.tmaxy < Pow2(z)
            && (InRange(r, t) <==> exists i :: 0 <= i < |ids| && ids[i].x == t.x && ids[i].y == t.y)
            && (forall i, j :: 0 <= i < j < |ids| ==> ids[i].filename != ids[j].filename)
            && (r.tminx <= r.tmaxx && r.tminy <= r.tmaxy ==> count == |ids|)
  {
    var r := LevelRange(p.merc, p.bounds, z);
    LevelRangeClamped(p.merc, p.bounds, z);
    LevelIdsExactlyOnce(p, z, r, t);
    LevelFilenamesDistinct(p, z, r);
    if r.tminx <= r.tmaxx && r.tminy <= r.tmaxy {
      TileCountMatchesGrid(r.tminx, r.tminy, r.tmaxx, r.tmaxy);
    }
  }
}

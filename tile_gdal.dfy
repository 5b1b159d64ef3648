/**
  The second tile builder, `pkg/tile_gdal/tile.go`: `OpenTile` validates
  the options and opens the reprojected input; `TileRange` stores the
  clamped tile range of every level; `MakeTileJobInfo` enumerates the base
  level's tiles into jobs, each with its read window (`GeoQuery`) and file
  name; `GenerateBaseTile` runs the job chain on every job whose window is
  not degenerate.  The job queue is a channel in the source; here it is
  the sequence of jobs in the order they are sent.
*/
module TileGdal {
  import opened Base
  import opened Chain
  import opened Mercator
  import opened GdalRaster
  import opened Windows
  import opened Paths
  import opened Grid
  import opened RasterBackend
  import opened Job

  /** What the builder uses of its opened reader: the reprojected dataset,
      the tile size, the name of the temporary VRT file and the query
      size. */
  datatype Reader = Reader(vrt: Dataset, tileSize: int, tempFileVrt: string, querySize: int)

  datatype OpenTileOption =
    | SetTileRead(r: Reader)
    | SetTileInputFilename(inputFilename: string)
    | SetTileOutFolder(outFolder: string)
    | SetTileZoomMax(zoomMax: int)
    | SetTileZoomMin(zoomMin: int)

  /** The option-settable fields of the builder. */
  datatype OpenSettings = OpenSettings(read: Option<Reader>, inputFilename: string, outFolder: string,
                                       zoomMax: int, zoomMin: int)

  /** `DefaultOpenTile`: no reader, no names, base and top level 16. */
  function DefaultOpenTile(): OpenSettings
  {
    OpenSettings(None, "", "", 16, 16)
  }

  function ApplyOpenOption(s: OpenSettings, o: OpenTileOption): OpenSettings
  {
    match o
    case SetTileRead(r) => s.(read := Some(r))
    case SetTileInputFilename(n) => s.(inputFilename := n)
    case SetTileOutFolder(f) => s.(outFolder := f)
    case SetTileZoomMax(z) => s.(zoomMax := z)
    case SetTileZoomMin(z) => s.(zoomMin := z)
  }

  function ApplyOpenOptions(s: OpenSettings, opts: seq<OpenTileOption>): OpenSettings
    decreases |opts|
  {
    if |opts| == 0 then s else ApplyOpenOptions(ApplyOpenOption(s, opts[0]), opts[1..])
  }

  /** Without a zoom option both zoom levels keep their default of 16. */
  lemma {:induction false} ZoomDefaults(opts: seq<OpenTileOption>, s: OpenSettings)
    requires forall i :: 0 <= i < |opts| ==> !opts[i].SetTileZoomMax? && !opts[i].SetTileZoomMin?
    ensures ApplyOpenOptions(s, opts).zoomMax == s.zoomMax && ApplyOpenOptions(s, opts).zoomMin == s.zoomMin
    decreases |opts|
  {
    if |opts| > 0 {
      ZoomDefaults(opts[1..], ApplyOpenOption(s, opts[0]));
    }
  }

  /** Options that set no zoom level leave both at 16. */
  lemma DefaultZoomLevels(opts: seq<OpenTileOption>)
    requires forall i :: 0 <= i < |opts| ==> !opts[i].SetTileZoomMax? && !opts[i].SetTileZoomMin?
    ensures ApplyOpenOptions(DefaultOpenTile(), opts).zoomMax == 16
    ensures ApplyOpenOptions(DefaultOpenTile(), opts).zoomMin == 16
  {
    ZoomDefaults(opts, DefaultOpenTile());
  }

  /** The box `GeoQuery` hands to the window calculator. */
  function QueryBox(r: Reader, minx: real, maxy: real, maxx: real, miny: real): WindowsReadBox
  {
    WindowsReadBox(minx, maxy, maxx, miny, r.tileSize, r.vrt.rasterYSize, r.vrt.rasterXSize, r.vrt.geoTransform)
  }

  /** The job for tile `c` of level `z`: its window, its file (no row
      flip, relative when the output folder is empty), the VRT it reads
      and the query size; no band data and no band count yet. */
  function JobFor(r: Reader, m: Mercator, outFolder: string, z: int, c: TileXY): JobInfo
  {
    var b := TileBounds(m, z, c.x, c.y);
    JobInfo(ReadBoxSpec(QueryBox(r, b.minx, b.maxy, b.maxx, b.miny)), TilePath(outFolder, z, c.x, c.y),
            r.tempFileVrt, [], 0, r.querySize)
  }

  /** `f` applied to every tile of `cells`, in their order. */
  function MapCells<T>(f: TileXY -> T, cells: seq<TileXY>): (s: seq<T>)
    ensures |s| == |cells|
  {
    if |cells| == 0 then [] else [f(cells[0])] + MapCells(f, cells[1..])
  }

  lemma {:induction false} MapCellsAt<T>(f: TileXY -> T, cells: seq<TileXY>, i: nat)
    requires i < |cells|
    ensures MapCells(f, cells)[i] == f(cells[i])
  {
    if i > 0 {
      MapCellsAt(f, cells[1..], i - 1);
    }
  }

  lemma {:induction false} MapCellsConcat<T>(f: TileXY -> T, a: seq<TileXY>, b: seq<TileXY>)
    ensures MapCells(f, a + b) == MapCells(f, a) + MapCells(f, b)
    decreases |a|
  {
    if |a| == 0 {
      assert a + b == b;
    } else {
      assert (a + b)[1..] == a[1..] + b;
      MapCellsConcat(f, a[1..], b);
    }
  }

  function JobOf(r: Reader, m: Mercator, outFolder: string, z: int): TileXY -> JobInfo
  {
    (c: TileXY) => JobFor(r, m, outFolder, z, c)
  }

  /** The jobs of the tiles `cells`, in their order. */
  function JobsFor(r: Reader, m: Mercator, outFolder: string, z: int, cells: seq<TileXY>): seq<JobInfo>
  {
    MapCells(JobOf(r, m, outFolder, z), cells)
  }

  /** A job with a zero read or write size is skipped. */
  predicate Degenerate(w: Window)
  {
    w.rxSize == 0 || w.rySize == 0 || w.wxSize == 0 || w.wySize == 0
  }

  /** The steps of every job: `TileRead`, then `TileToPNG`. */
  function JobSteps(be: Backend, toPng: Handler<JobInfo>): seq<Handler<JobInfo>>
  {
    [TileReadStep(be), toPng]
  }

  /** The error one job returns: none when skipped, otherwise that of its
      steps run in order before a final function that returns without
      error. */
  function JobError(be: Backend, toPng: Handler<JobInfo>, j: JobInfo): Option<Error>
  {
    if j.window.Some? && Degenerate(j.window.value) then None else Run(JobSteps(be, toPng), Done(), j).err
  }

  /** `EG.Wait` over the jobs from `i` on: the first error returned, unless
      a job crashes, which ends everything. */
  function BaseTileResult(be: Backend, toPng: Handler<JobInfo>, jobs: seq<JobInfo>, i: nat, first: Option<Error>)
    : Option<Error>
    decreases |jobs| - i
  {
    if i >= |jobs| then first
    else
      var e := JobError(be, toPng, jobs[i]);
      if e.Some? && e.value.Panic? then e
      else BaseTileResult(be, toPng, jobs, i + 1, if first.None? then e else first)
  }

  /** Two steps before the final function that returns without error
      fail exactly when the first fails or the second fails on what the
      first left. */
  lemma TwoStepsError<S>(a: Handler<S>, b: Handler<S>, s: S)
    ensures Run([a, b], Done(), s).err == (var r := a(s); if r.err.Some? then r.err else b(r.state).err)
  {
    assert [a, b][1..] == [b] && [b][1..] == [];
    var o := a(s);
    if o.err.None? {
      var o2 := b(o.state);
      assert Run([b], Done(), o.state) == if o2.err.Some? then o2 else Done()(o2.state);
    }
  }

  /** A degenerate job does no work whatever the back end does; every
      other job, negative sizes included, fails exactly when `TileRead`
      fails or `TileToPNG` fails on what it read. */
  lemma JobSkipsDegenerate(be: Backend, toPng: Handler<JobInfo>, j: JobInfo)
    ensures j.window.Some? && Degenerate(j.window.value) ==> JobError(be, toPng, j).None?
    ensures !(j.window.Some? && Degenerate(j.window.value)) ==>
              JobError(be, toPng, j) ==
                (var r := TileReadStep(be)(j); if r.err.Some? then r.err else toPng(r.state).err)
  {
    TwoStepsError(TileReadStep(be), toPng, j);
  }

  /** The result is the first error in job order, and it is `None` only
      when no job returned one. */
  lemma {:induction false} BaseTileFirstError(be: Backend, toPng: Handler<JobInfo>, jobs: seq<JobInfo>, i: nat)
    ensures BaseTileResult(be, toPng, jobs, i, None).None? <==>
              forall k :: i <= k < |jobs| ==> JobError(be, toPng, jobs[k]).None?
    decreases |jobs| - i
  {
    if i < |jobs| {
      var e := JobError(be, toPng, jobs[i]);
      if e.None? {
        BaseTileFirstError(be, toPng, jobs, i + 1);
      } else if !e.value.Panic? {
        FirstStays(be, toPng, jobs, i + 1, e);
      }
    }
  }

  /** Once an error is recorded, the result is an error. */
  lemma {:induction false} FirstStays(be: Backend, toPng: Handler<JobInfo>, jobs: seq<JobInfo>, i: nat, first: Option<Error>)
    ensures first.Some? ==> BaseTileResult(be, toPng, jobs, i, first).Some?
    decreases |jobs| - i
  {
    if i < |jobs| && first.Some? {
      FirstStays(be, toPng, jobs, i + 1, first);
    }
  }

  /** The builder's fields that only `OpenTile` sets. */
  datatype Config = Config(read: Reader, inputFilename: string, outFolder: string, mercator: Mercator,
                           zoomMax: int, zoomMin: int, hasQueue: bool)

  /** The `tile_gdal` builder. */
  class Tile {
    var read: Reader
    var inputFilename: string
    var outFolder: string
    var Mercator: Mercator
    var TMinMax: map<int, TileRange>
    var ZoomMax: int
    var ZoomMin: int
    /** The jobs sent on `TileJobInfo`, in order. */
    var TileJobInfo: seq<JobInfo>
    /** Whether the `TileJobInfo` channel was made: only when the builder
        opened its own reader. */
    var hasQueue: bool

    function Settings(): Config
      reads this
    {
      Config(read, inputFilename, outFolder, Mercator, ZoomMax, ZoomMin, hasQueue)
    }

    constructor (s: OpenSettings, r: Reader, queue: bool)
      ensures read == r && inputFilename == s.inputFilename && outFolder == s.outFolder
      ensures ZoomMax == s.zoomMax && ZoomMin == s.zoomMin && hasQueue == queue
      ensures Mercator == DefaultMercator() && TMinMax == map[] && TileJobInfo == []
    {
      read, inputFilename, outFolder, hasQueue := r, s.inputFilename, s.outFolder, queue;
      ZoomMax, ZoomMin := s.zoomMax, s.zoomMin;
      Mercator := DefaultMercator();
      TMinMax, TileJobInfo := map[], [];
    }

    /** `GeoQuery`: the window calculator over the reader's dataset; the
        read rectangle of a computed window lies inside that dataset. */
    method GeoQuery(minx: real, maxy: real, maxx: real, miny: real) returns (w: Option<Window>)
      ensures w == ReadBoxSpec(QueryBox(read, minx, maxy, maxx, miny))
      ensures w.Some? ==> ReadInside(w.value, read.vrt.rasterXSize, read.vrt.rasterYSize)
    {
      w := ReadBox(QueryBox(read, minx, maxy, maxx, miny));
      ReadBoxInsideRaster(QueryBox(read, minx, maxy, maxx, miny));
    }

    /** `TileRange`: a fresh table holding, for every level from
        `ZoomMin` to `ZoomMax` and no other, the level's clamped range. */
    method TileRange()
      requires Valid(Mercator)
      modifies this
      ensures Settings() == old(Settings()) && TileJobInfo == old(TileJobInfo)
      ensures forall z :: z in TMinMax <==> ZoomMin <= z <= ZoomMax
      ensures forall z :: z in TMinMax ==> TMinMax[z] == LevelRange(Mercator, TileBoundsByTransform(read.vrt), z)
      ensures forall z: nat :: z in TMinMax ==>
                0 <= TMinMax[z].tminx && 0 <= TMinMax[z].tminy
                && TMinMax[z].tmaxx <= Pow2(z) - 1 && TMinMax[z].tmaxy <= Pow2(z) - 1
    {
      var b := TileBoundsByTransform(read.vrt);
      TMinMax := map[];
      var z := ZoomMin;
      while z <= ZoomMax
        invariant ZoomMin <= z <= ZoomMax + 1 || (z == ZoomMin && ZoomMax < ZoomMin)
        invariant Settings() == old(Settings()) && TileJobInfo == old(TileJobInfo)
        invariant forall z' :: z' in TMinMax <==> ZoomMin <= z' < z
        invariant forall z' :: z' in TMinMax ==> TMinMax[z'] == LevelRange(Mercator, b, z')
      {
        TMinMax := TMinMax[z := LevelRange(Mercator, b, z)];
        z := z + 1;
      }
      forall z: nat | z in TMinMax
        ensures 0 <= TMinMax[z].tminx && 0 <= TMinMax[z].tminy
                && TMinMax[z].tmaxx <= Pow2(z) - 1 && TMinMax[z].tmaxy <= Pow2(z) - 1
      {
        LevelRangeClamped(Mercator, b, z);
      }
    }

    /** The range `MakeTileJobInfo` enumerates: the base level's, or the
        zero range (the single tile 0, 0) when none is stored. */
    function BaseRange(): Grid.TileRange
      reads this
    {
      if ZoomMax in TMinMax then TMinMax[ZoomMax] else Grid.TileRange(0, 0, 0, 0)
    }

    /** `MakeTileJobInfo`: one job per tile of the base level's range, x
        outer and y inner, sent in that order. */
    method MakeTileJobInfo()
      modifies this
      ensures Settings() == old(Settings()) && TMinMax == old(TMinMax)
      ensures TileJobInfo == old(TileJobInfo) + JobsFor(read, Mercator, outFolder, ZoomMax, RangeCells(BaseRange()))
    {
      var jobs := RangeJobs(BaseRange());
      TileJobInfo := TileJobInfo + jobs;
    }

    /** The loops of `MakeTileJobInfo`: the jobs of range `r`, column by
        column. */
    method RangeJobs(r: Grid.TileRange) returns (jobs: seq<JobInfo>)
      ensures jobs == JobsFor(read, Mercator, outFolder, ZoomMax, RangeCells(r))
    {
      jobs := [];
      var x := r.tminx;
      while x <= r.tmaxx
        invariant r.tminx <= x <= r.tmaxx + 1 || (x == r.tminx && r.tmaxx < r.tminx)
        invariant jobs == JobsFor(read, Mercator, outFolder, ZoomMax, Grid.Grid(r.tminx, x - 1, r.tminy, r.tmaxy))
      {
        var column := ColumnJobs(x, r.tminy, r.tmaxy);
        JobsForNextColumn(read, Mercator, outFolder, ZoomMax, r.tminx, x, r.tminy, r.tmaxy);
        jobs := jobs + column;
        x := x + 1;
      }
      assert Grid.Grid(r.tminx, x - 1, r.tminy, r.tmaxy) == RangeCells(r);
    }

    /** The inner loop of `MakeTileJobInfo`: the jobs of column `x`, y
        ascending, each with the window `GeoQuery` computes for its tile. */
    method ColumnJobs(x: int, y0: int, y1: int) returns (jobs: seq<JobInfo>)
      ensures jobs == JobsFor(read, Mercator, outFolder, ZoomMax, Column(x, y0, y1))
    {
      jobs := [];
      var y := y0;
      while y <= y1
        invariant y0 <= y <= y1 + 1 || (y == y0 && y1 < y0)
        invariant jobs == JobsFor(read, Mercator, outFolder, ZoomMax, Column(x, y0, y - 1))
      {
        var tileFilename := TilePath(outFolder, ZoomMax, x, y);
        var b := TileBounds(Mercator, ZoomMax, x, y);
        var w := GeoQuery(b.minx, b.maxy, b.maxx, b.miny);
        var job := JobInfo(w, tileFilename, read.tempFileVrt, [], 0, read.querySize);
        JobsForConcat(read, Mercator, outFolder, ZoomMax, Column(x, y0, y - 1), [TileXY(x, y)]);
        assert JobsFor(read, Mercator, outFolder, ZoomMax, [TileXY(x, y)]) == [job];
        jobs := jobs + [job];
        y := y + 1;
      }
    }

    /** `GenerateBaseTile`: every job sent is run, and the first error
        returned is the result. */
    method GenerateBaseTile(be: Backend, toPng: Handler<JobInfo>) returns (err: Option<Error>)
      ensures err == BaseTileResult(be, toPng, TileJobInfo, 0, None)
    {
      var jobs := TileJobInfo;
      err := None;
      var i := 0;
      while i < |jobs|
        invariant 0 <= i <= |jobs|
        invariant BaseTileResult(be, toPng, jobs, 0, None) == BaseTileResult(be, toPng, jobs, i, err)
      {
        var e := RunJob(be, toPng, jobs[i]);
        if e.Some? && e.value.Panic? {
          return e;
        }
        if err.None? {
          err := e;
        }
        i := i + 1;
      }
    }
  }

  /** One job of `GenerateBaseTile`: skipped when degenerate, otherwise
      its middlewares run through `Execution`. */
  method RunJob(be: Backend, toPng: Handler<JobInfo>, jobInfo: JobInfo) returns (e: Option<Error>)
    ensures e == JobError(be, toPng, jobInfo)
  {
    if jobInfo.window.Some? && Degenerate(jobInfo.window.value) {
      return None;
    }
    var o := Execution(jobInfo, Done(), Stages(JobSteps(be, toPng)));
    ComposeRunsInOrder(JobSteps(be, toPng), Done(), jobInfo);
    e := o.err;
  }

  /** The jobs of a grid one column wider are the jobs so far followed by
      those of the new column. */
  lemma JobsForNextColumn(r: Reader, m: Mercator, outFolder: string, z: int, x0: int, x: int, y0: int, y1: int)
    requires x0 <= x
    ensures JobsFor(r, m, outFolder, z, Grid.Grid(x0, x, y0, y1))
            == JobsFor(r, m, outFolder, z, Grid.Grid(x0, x - 1, y0, y1)) + JobsFor(r, m, outFolder, z, Column(x, y0, y1))
  {
    JobsForConcat(r, m, outFolder, z, Grid.Grid(x0, x - 1, y0, y1), Column(x, y0, y1));
  }

  lemma JobsForConcat(r: Reader, m: Mercator, outFolder: string, z: int, a: seq<TileXY>, b: seq<TileXY>)
    ensures JobsFor(r, m, outFolder, z, a + b) == JobsFor(r, m, outFolder, z, a) + JobsFor(r, m, outFolder, z, b)
  {
    MapCellsConcat(JobOf(r, m, outFolder, z), a, b);
  }

  /** `OpenTile`: the options over the defaults; a missing input name is
      an error; without a given reader the input is opened and wrapped
      (`open`), and its failure is passed on. */
  method OpenTile(options: seq<OpenTileOption>, open: (string, string) -> Result<Reader>)
    returns (t: Tile?, err: Option<Error>)
    ensures var s := ApplyOpenOptions(DefaultOpenTile(), options);
            if s.inputFilename == "" then t == null && err == Some(ErrInputFilename)
            else if s.read.None? && open(s.inputFilename, s.outFolder).Failure? then
              t == null && err == Some(open(s.inputFilename, s.outFolder).error)
            else
              err.None? && t != null && fresh(t)
              && t.read == (if s.read.Some? then s.read.value else open(s.inputFilename, s.outFolder).value)
              && t.ZoomMax == s.zoomMax && t.ZoomMin == s.zoomMin && t.outFolder == s.outFolder
              && t.Mercator == DefaultMercator() && t.TMinMax == map[] && t.TileJobInfo == []
              && t.hasQueue == s.read.None?
  {
    var s := DefaultOpenTile();
    var i := 0;
    while i < |options|
      invariant 0 <= i <= |options|
      invariant ApplyOpenOptions(s, options[i..]) == ApplyOpenOptions(DefaultOpenTile(), options)
    {
      assert options[i..][1..] == options[i + 1..];
      s := ApplyOpenOption(s, options[i]);
      i := i + 1;
    }
    if s.inputFilename == "" {
      return null, Some(ErrInputFilename);
    }
    var r: Reader;
    if s.read.None? {
      var result := open(s.inputFilename, s.outFolder);
      if result.Failure? {
        return null, Some(result.error);
      }
      r := result.value;
    } else {
      r := s.read.value;
    }
    t := new Tile(s, r, s.read.None?);
    err := None;
  }

  /** The jobs of a level are one per tile of its range, in row-major
      order, each tile's exactly once, each with its own file. */
  lemma JobsExactlyOnce(r: Reader, m: Mercator, outFolder: string, z: int, range: Grid.TileRange, t: TileXY)
    ensures var jobs := JobsFor(r, m, outFolder, z, RangeCells(range));
            (forall i :: 0 <= i < |jobs| ==>
               InRange(range, RangeCells(range)[i]) && jobs[i] == JobFor(r, m, outFolder, z, RangeCells(range)[i]))
            && (forall i, j :: 0 <= i < j < |jobs| ==> Before(RangeCells(range)[i], RangeCells(range)[j]))
            && (InRange(range, t) <==> exists i :: 0 <= i < |jobs| && jobs[i] == JobFor(r, m, outFolder, z, t))
            && (forall i, j :: 0 <= i < j < |jobs| ==> jobs[i].tileFilename != jobs[j].tileFilename)
  {
    var cells := RangeCells(range);
    var jobs := JobsFor(r, m, outFolder, z, cells);
    GridOrdered(range.tminx, range.tmaxx, range.tminy, range.tmaxy);
    GridMembership(range.tminx, range.tmaxx, range.tminy, range.tmaxy, t);
    forall i | 0 <= i < |jobs|
      ensures InRange(range, cells[i]) && jobs[i] == JobFor(r, m, outFolder, z, cells[i])
    {
      GridMembership(range.tminx, range.tmaxx, range.tminy, range.tmaxy, cells[i]);
      MapCellsAt(JobOf(r, m, outFolder, z), cells, i);
    }
    if exists i :: 0 <= i < |jobs| && jobs[i] == JobFor(r, m, outFolder, z, t) {
      var i :| 0 <= i < |jobs| && jobs[i] == JobFor(r, m, outFolder, z, t);
      TilePathInjective(outFolder, z, cells[i].x, cells[i].y, z, t.x, t.y);
      assert cells[i] == t;
    }
    if InRange(range, t) {
      var i :| 0 <= i < |cells| && cells[i] == t;
      assert jobs[i] == JobFor(r, m, outFolder, z, t);
    }
    forall i, j | 0 <= i < j < |jobs|
      ensures jobs[i].tileFilename != jobs[j].tileFilename
    {
      assert Before(cells[i], cells[j]);
      TilePathInjective(outFolder, z, cells[i].x, cells[i].y, z, cells[j].x, cells[j].y);
    }
  }
}

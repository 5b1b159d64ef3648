/**
  The pyramid builder of `pkg/tile/tiles_overview.go`: `Interceptor`
  chains middlewares over the tile; `BaseTile` renders the base level and
  gates on the recorded errors; `OverviewTile` builds each level below
  `ZoomMax` from the level above it, pasting the (up to) four children of
  every parent into the quadrants of a 512 x 512 composite, which is then
  downsampled and encoded.  `CuttingToImg` (`pkg/tile/tiles.go`) runs the
  chain unless an error is already recorded.

  The middlewares are specified over a `View`, the value of the tile
  fields they read and the error list they append to, together with the
  composites handed to the encoder (the PNG files themselves are not
  modelled).  The methods that change a `Tile` in place are proved to
  leave it as the specification says.
*/
module Overview {
  import opened Base
  import opened Chain
  import opened Mercator
  import opened Pixels
  import opened GdalRaster
  import opened Windows
  import opened Paths
  import opened Grid
  import opened TileIds
  import opened RasterBackend
  import opened Tiles

  /** Side of a child tile and of the composite. */
  const ChildSize: int := 256
  const CompositeSize: int := 2 * 256

  /** A composite handed to the encoder, with the file it is written to. */
  datatype Encoded = Encoded(filename: string, bands: seq<Band>)

  /** What the middlewares read and change of a tile. */
  datatype View = View(zoomMax: int, zoomMin: int, zoomTileIds: seq<seq<Id>>, tzMinMax: seq<seq<int>>,
                       outFolder: string, style: string, bandCount: nat, tempFileVrt: string,
                       err: seq<Error>, encoded: seq<Encoded>)

  function ViewOf(t: Tile): View
    reads t
  {
    View(t.ZoomMax, t.ZoomMin, t.ZoomTileIds, t.TZMinMax, t.outFolder, t.style, t.bandCount,
         t.tempFileVrt, t.err, [])
  }

  // ---------------------------------------------------------------- quadrants

  /** Horizontal offset of child column `tx` of parent column `x`. */
  function OffsetX(x: int, tx: int): int
  {
    if x != 0 then GoRem(tx, 2 * x) * 256
    else if tx == 1 then 256
    else 0
  }

  /** Vertical offset of child row `ty` of parent row `y`. */
  function OffsetY(y: int, ty: int): int
  {
    if (y == 0 && ty == 1) || (y != 0 && GoRem(ty, 2 * y) != 0) then 0 else 256
  }

  /** The case splits reduce to closed forms: the left column at 0 and the
      right at 256, the upper (northern) row at 0 and the lower at 256. */
  lemma QuadrantClosedForm(x: int, y: int, tx: int, ty: int)
    requires 0 <= x && 0 <= y
    requires 2 * x <= tx <= 2 * x + 1 && 2 * y <= ty <= 2 * y + 1
    ensures OffsetX(x, tx) == (tx - 2 * x) * 256
    ensures OffsetY(y, ty) == (2 * y + 1 - ty) * 256
  {
    if x != 0 {
      DivModSplit(1, 2 * x, tx - 2 * x);
    }
    if y != 0 {
      DivModSplit(1, 2 * y, ty - 2 * y);
    }
  }

  /** The four children of a parent, in the loops' order. */
  function Children(x: int, y: int): seq<TileXY>
  {
    [TileXY(2 * x, 2 * y), TileXY(2 * x, 2 * y + 1), TileXY(2 * x + 1, 2 * y), TileXY(2 * x + 1, 2 * y + 1)]
  }

  /** Distinct children of a parent land in distinct, non-overlapping
      256 x 256 quadrants inside the composite. */
  lemma QuadrantsDisjoint(x: int, y: int, a: TileXY, b: TileXY, i: int, j: int)
    requires 0 <= x && 0 <= y
    requires a in Children(x, y) && b in Children(x, y) && a != b
    ensures 0 <= OffsetX(x, a.x) && OffsetX(x, a.x) + ChildSize <= CompositeSize
    ensures 0 <= OffsetY(y, a.y) && OffsetY(y, a.y) + ChildSize <= CompositeSize
    ensures !(InBlock(i, j, OffsetX(x, a.x), OffsetY(y, a.y), 256, 256)
              && InBlock(i, j, OffsetX(x, b.x), OffsetY(y, b.y), 256, 256))
  {
    QuadrantClosedForm(x, y, a.x, a.y);
    QuadrantClosedForm(x, y, b.x, b.y);
  }

  // ------------------------------------------------------------ child files

  /** `filepath.Join(outFolder, "<z>/<tx>/<row>.png")` for child level `cz`. */
  function ChildPath(outFolder: string, style: string, cz: nat, c: TileXY): string
  {
    Join(outFolder, RelativeTilePath(cz, c.x, TmsRow(style, cz, c.y)))
  }

  /** The directory of that file, which the builder checks first. */
  function ChildDir(outFolder: string, cz: int, tx: int): string
  {
    Join(outFolder, IntToString(cz) + "/" + IntToString(tx))
  }

  /** The file a child is read from is the file the planner named for that
      tile: the child level's `Id` with the same column and row. */
  lemma ChildPathIsPlannedFile(p: Planner, cz: nat, r: TileRange, c: TileXY)
    requires InRange(r, c)
    ensures var ids := LevelIds(p, cz, RangeCells(r));
            exists i :: 0 <= i < |ids| && ids[i].x == c.x && ids[i].y == c.y
                        && ids[i].filename == ChildPath(p.outFolder, p.style, cz, c)
  {
    var ids := LevelIds(p, cz, RangeCells(r));
    LevelIdsExactlyOnce(p, cz, r, c);
    var i :| 0 <= i < |ids| && ids[i].x == c.x && ids[i].y == c.y;
    assert ids[i] == MakeId(p, cz, RangeCells(r)[i]);
  }

  /** The range stored for the child level, or `None` where reading it
      indexes out of range. */
  function ChildRange(tzm: seq<seq<int>>, z: int): (r: Option<TileRange>)
    ensures r.Some? <==> 0 <= z + 1 < |tzm| && |tzm[z + 1]| >= 4
    ensures r.Some? ==> r.value == TileRange(tzm[z + 1][0], tzm[z + 1][1], tzm[z + 1][2], tzm[z + 1][3])
  {
    if 0 <= z + 1 < |tzm| && |tzm[z + 1]| >= 4 then
      Some(TileRange(tzm[z + 1][0], tzm[z + 1][1], tzm[z + 1][2], tzm[z + 1][3]))
    else None
  }

  /** After planning, the child range the overview reads for level `z` is
      the Mercator range planned for `z + 1`; a level below `ZoomMin` has
      none. */
  lemma ChildRangeOfPlan(p: Planner, zMin: int, zMax: int, ids: seq<seq<Id>>, ranges: seq<seq<int>>,
                         counts: map<int, int>, upTo: int, tz0: map<int, int>, z: int)
    requires Valid(p.merc) && Planned(p, zMin, zMax, ids, ranges, counts, upTo, tz0)
    requires 0 <= z + 1 <= zMax
    ensures zMin <= z + 1 < upTo ==> ChildRange(ranges, z) == Some(LevelRange(p.merc, p.bounds, z + 1))
    ensures !(zMin <= z + 1 < upTo) ==> ChildRange(ranges, z).None?
  {
  }

  /** A child tile is read whole, at its own resolution. */
  function ChildWindow(): Window
  {
    Window(0, 0, 256, 256, 0, 0, 256, 256)
  }

  // -------------------------------------------------------- one parent tile

  /** Bands `i` .. of child dataset `ds`, each read into a zeroed 256 x 256
      slice and written into the same band of the composite at the child's
      quadrant; stops at the first error, keeping what was written. */
  function PasteChild(be: Backend, ds: Dataset, offX: int, offY: int, comp: seq<Band>, i: nat)
    : Outcome<seq<Band>>
    decreases ds.rasterCount - i
  {
    if i >= ds.rasterCount then Outcome(comp, None)
    else
      match ReadBlock(ds.rasterXSize, ds.rasterYSize, 0, 0, 256, 256, 256, 256,
                      Filled(256 * 256, 0), be.pixels(ds, i + 1, ChildWindow()))
      case Failure(e) => Outcome(comp, Some(e))
      case Success(data) =>
        match WriteBandBlock(comp, CompositeSize, CompositeSize, i, offX, offY, 256, 256, data)
        case Failure(e) => Outcome(comp, Some(e))
        case Success(c) => PasteChild(be, ds, offX, offY, c, i + 1)
  }

  /** The candidates `k` .. of parent `(x, y)`: those inside the child
      level's range `r` are checked, opened and pasted in turn; the first
      failure ends the parent's children (`break SUB`). */
  function ComposeChildren(be: Backend, outFolder: string, style: string, cz: nat, x: int, y: int,
                           r: TileRange, cands: seq<TileXY>, k: nat, comp: seq<Band>): Outcome<seq<Band>>
    decreases |cands| - k
  {
    if k >= |cands| then Outcome(comp, None)
    else
      var c := cands[k];
      if !InRange(r, c) then ComposeChildren(be, outFolder, style, cz, x, y, r, cands, k + 1, comp)
      else if be.stat(ChildDir(outFolder, cz, c.x)).Some? then Outcome(comp, be.stat(ChildDir(outFolder, cz, c.x)))
      else
        match be.open(ChildPath(outFolder, style, cz, c))
        case Failure(e) => Outcome(comp, Some(e))
        case Success(ds) =>
          var o := PasteChild(be, ds, OffsetX(x, c.x), OffsetY(y, c.y), comp, 0);
          if o.err.Some? then o
          else ComposeChildren(be, outFolder, style, cz, x, y, r, cands, k + 1, o.state)
  }

  /** `RegenerateOverviews`: the in-memory driver, each band's
      downsampling, then the PNG driver; the first failure is the result. */
  function EncodeError(be: Backend, bands: seq<Band>): Option<Error>
  {
    if be.memDriver.Some? then be.memDriver
    else if FirstRegenerateError(be, bands, 0).Some? then FirstRegenerateError(be, bands, 0)
    else be.pngDriver
  }

  /** Errors recorded and composites encoded. */
  datatype Log = Log(errs: seq<Error>, encoded: seq<Encoded>)

  function ErrorList(e: Option<Error>): seq<Error>
  {
    if e.Some? then [e.value] else []
  }

  /** One parent of the overview loop: its composite starts as a blank
      dataset of `bandCount` bands, the children are pasted into it, and it
      is encoded even when a child failed.  A child error and an encoding
      error are both recorded; only an encoded composite is logged.  A
      child range that cannot be read is a crash. */
  function ParentLog(be: Backend, v: View, id: Id): Result<Log>
  {
    match ChildRange(v.tzMinMax, id.z)
    case None => Failure(Panic("index out of range"))
    case Some(r) =>
      var o := ComposeChildren(be, v.outFolder, v.style, id.z + 1, id.x, id.y, r, Children(id.x, id.y), 0,
                               BlankBands(v.bandCount, CompositeSize, CompositeSize));
      var e := EncodeError(be, o.state);
      Success(Log(ErrorList(o.err) + ErrorList(e), if e.None? then [Encoded(id.filename, o.state)] else []))
  }

  /** `RegenerateOverviews` over an in-memory composite. */
  method RegenerateOverviews(be: Backend, dst: array3<byte>) returns (e: Option<Error>)
    ensures e == EncodeError(be, Bands(dst))
  {
    if be.memDriver.Some? {
      return be.memDriver;
    }
    var bands := Bands(dst);
    var i := 0;
    while i < dst.Length0
      invariant 0 <= i <= dst.Length0
      invariant FirstRegenerateError(be, bands, 0) == FirstRegenerateError(be, bands, i)
    {
      var r := be.regenerate(bands[i]);
      if r.Some? {
        return r;
      }
      i := i + 1;
    }
    e := be.pngDriver;
  }

  /** The band loop for one opened child: read each band whole, then
      write it into the same band of the composite at `(offX, offY)`. */
  method PasteChildBands(be: Backend, ds: Dataset, dsQuery: array3<byte>, offX: int, offY: int)
    returns (err: Option<Error>)
    requires dsQuery.Length1 == CompositeSize && dsQuery.Length2 == CompositeSize
    modifies dsQuery
    ensures var o := PasteChild(be, ds, offX, offY, old(Bands(dsQuery)), 0);
            Bands(dsQuery) == o.state && err == o.err
  {
    var i := 0;
    while i < ds.rasterCount
      invariant 0 <= i <= ds.rasterCount
      invariant PasteChild(be, ds, offX, offY, old(Bands(dsQuery)), 0)
                == PasteChild(be, ds, offX, offY, Bands(dsQuery), i)
    {
      var readTmp := FillBuffer(256 * 256, 0);
      var read := ReadBlock(ds.rasterXSize, ds.rasterYSize, 0, 0, 256, 256, 256, 256,
                            readTmp[..], be.pixels(ds, i + 1, ChildWindow()));
      if read.Failure? {
        return Some(read.error);
      }
      err := WriteBandRegion(dsQuery, i, offX, offY, 256, 256, read.value);
      if err.Some? {
        return;
      }
      i := i + 1;
    }
    err := None;
  }

  /** One candidate `(tx, ty)` of parent `(x, y)`: skipped when outside the
      child level's range, otherwise its directory is checked, its file
      opened and its bands pasted at the quadrant the offsets select.
      `stop` reports the error that ends the parent's children. */
  method ComposeCandidate(be: Backend, v: View, cz: nat, x: int, y: int, r: TileRange, tx: int, ty: int,
                          ghost k: nat, dsQuery: array3<byte>) returns (stop: Option<Error>)
    requires dsQuery.Length1 == CompositeSize && dsQuery.Length2 == CompositeSize
    requires 0 <= cz < |v.tzMinMax| && |v.tzMinMax[cz]| >= 4
    requires r == TileRange(v.tzMinMax[cz][0], v.tzMinMax[cz][1], v.tzMinMax[cz][2], v.tzMinMax[cz][3])
    requires k < 4 && Children(x, y)[k] == TileXY(tx, ty)
    modifies dsQuery
    ensures var spec := ComposeChildren(be, v.outFolder, v.style, cz, x, y, r, Children(x, y), k, old(Bands(dsQuery)));
            if stop.Some? then spec == Outcome(Bands(dsQuery), stop)
            else spec == ComposeChildren(be, v.outFolder, v.style, cz, x, y, r, Children(x, y), k + 1, Bands(dsQuery))
  {
    var tMinMax := v.tzMinMax[cz];
    if !(tMinMax[0] <= tx && tx <= tMinMax[2] && tMinMax[1] <= ty && ty <= tMinMax[3]) {
      return None;
    }
    var tyCopy := ty;
    if v.style == "tms" {
      tyCopy := Pow2(cz) - ty - 1;
    }
    var baseTile := Join(v.outFolder, RelativeTilePath(cz, tx, tyCopy));
    stop := be.stat(ChildDir(v.outFolder, cz, tx));
    if stop.Some? {
      return;
    }
    var openTile := be.open(baseTile);
    if openTile.Failure? {
      return Some(openTile.error);
    }
    var tilePoxY := 256;
    if (y == 0 && ty == 1) || (y != 0 && GoRem(ty, 2 * y) != 0) {
      tilePoxY := 0;
    }
    var tilePoxX := 0;
    if x != 0 {
      tilePoxX := GoRem(tx, 2 * x) * 256;
    } else if x == 0 && tx == 1 {
      tilePoxX := 256;
    }
    stop := PasteChildBands(be, openTile.value, dsQuery, tilePoxX, tilePoxY);
  }

  /** The body of the overview loop for one parent: the labelled loops over
      the four candidates into a blank composite, then its encoding. */
  method ComposeParent(be: Backend, v: View, id: Id) returns (crash: Option<Error>, log: Log)
    ensures match ParentLog(be, v, id)
            case Failure(e) => crash == Some(e)
            case Success(l) => crash.None? && log == l
  {
    var x, y, z := id.x, id.y, id.z;
    var dsQuery := new byte[v.bandCount, CompositeSize, CompositeSize]((b, i, j) => 0);
    BandsOfBlank(dsQuery);
    ghost var cands := Children(x, y);
    var childErr: Option<Error> := None;
    if ChildRange(v.tzMinMax, z).None? {
      // the first candidate reads the child level's range
      return Some(Panic("index out of range")), Log([], []);
    }
    var r := ChildRange(v.tzMinMax, z).value;
    var cz: nat := z + 1;
    ghost var spec := ComposeChildren(be, v.outFolder, v.style, cz, x, y, r, cands, 0, Bands(dsQuery));
    var tx := 2 * x;
    label SUB: while tx < 2 * x + 2
      invariant 2 * x <= tx <= 2 * x + 2
      invariant childErr.None?
      invariant spec == ComposeChildren(be, v.outFolder, v.style, cz, x, y, r, cands, 2 * (tx - 2 * x), Bands(dsQuery))
    {
      var ty := 2 * y;
      while ty < 2 * y + 2
        invariant 2 * y <= ty <= 2 * y + 2
        invariant childErr.None?
        invariant spec == ComposeChildren(be, v.outFolder, v.style, cz, x, y, r, cands,
                                          2 * (tx - 2 * x) + (ty - 2 * y), Bands(dsQuery))
      {
        childErr := ComposeCandidate(be, v, cz, x, y, r, tx, ty, 2 * (tx - 2 * x) + (ty - 2 * y), dsQuery);
        if childErr.Some? {
          break SUB;
        }
        ty := ty + 1;
      }
      tx := tx + 1;
    }
    assert spec == Outcome(Bands(dsQuery), childErr);
    var encodeErr := RegenerateOverviews(be, dsQuery);
    var encoded: seq<Encoded> := [];
    if encodeErr.None? {
      encoded := [Encoded(id.filename, Bands(dsQuery))];
    }
    crash := None;
    log := Log(ErrorList(childErr) + ErrorList(encodeErr), encoded);
  }

  /** Every band of `s` is a composite-sized raster. */
  predicate CompositeBands(s: seq<Band>)
  {
    forall m :: 0 <= m < |s| ==> IsBand(s[m], CompositeSize, CompositeSize)
  }

  /** `a` and `b` agree, band by band, outside the 256 x 256 block at
      `(offX, offY)`. */
  predicate SameOutside(a: seq<Band>, b: seq<Band>, offX: int, offY: int)
    requires |a| == |b| && CompositeBands(a) && CompositeBands(b)
  {
    forall m, r, c :: 0 <= m < |a| && 0 <= r < CompositeSize && 0 <= c < CompositeSize ==>
      (InBlock(r, c, offX, offY, 256, 256) || a[m][r][c] == b[m][r][c])
  }

  /** Pasting one child changes only its quadrant: the composite keeps its
      shape, bands already pasted stay as they are, and every pixel outside
      the 256 x 256 block at `(offX, offY)` keeps its value in every band. */
  lemma {:induction false} PasteChildFrame(be: Backend, ds: Dataset, offX: int, offY: int, comp: seq<Band>, i: nat)
    requires CompositeBands(comp)
    ensures var o := PasteChild(be, ds, offX, offY, comp, i);
            |o.state| == |comp| && CompositeBands(o.state)
            && (forall m :: 0 <= m < |comp| && m < i ==> o.state[m] == comp[m])
            && SameOutside(o.state, comp, offX, offY)
    decreases ds.rasterCount - i
  {
    if i < ds.rasterCount {
      var read := ReadBlock(ds.rasterXSize, ds.rasterYSize, 0, 0, 256, 256, 256, 256,
                            Filled(256 * 256, 0), be.pixels(ds, i + 1, ChildWindow()));
      if read.Success? {
        var w := WriteBandBlock(comp, CompositeSize, CompositeSize, i, offX, offY, 256, 256, read.value);
        if w.Success? {
          WriteBlockFrame(comp[i], CompositeSize, CompositeSize, offX, offY, 256, 256, read.value);
          PasteChildFrame(be, ds, offX, offY, w.value, i + 1);
        }
      }
    }
  }

  /** The pixels a band read delivers for band `b` (0-based) of a child. */
  function ChildBand(be: Backend, ds: Dataset, b: nat): Result<seq<byte>>
  {
    ReadBlock(ds.rasterXSize, ds.rasterYSize, 0, 0, 256, 256, 256, 256,
              Filled(256 * 256, 0), be.pixels(ds, b + 1, ChildWindow()))
  }

  /** When every band of a child is pasted without error, each band of the
      composite holds, inside the child's quadrant, the pixels read from the
      same band of the child, row by row. */
  lemma {:induction false} PasteChildCopies(be: Backend, ds: Dataset, offX: int, offY: int, comp: seq<Band>,
                                            i: nat, b: nat)
    requires CompositeBands(comp)
    requires PasteChild(be, ds, offX, offY, comp, i).err.None?
    requires i <= b < ds.rasterCount
    ensures b < |comp| && ChildBand(be, ds, b).Success? && |ChildBand(be, ds, b).value| == 256 * 256
    ensures var o := PasteChild(be, ds, offX, offY, comp, i);
            |o.state| == |comp| && IsBand(o.state[b], CompositeSize, CompositeSize)
            && forall r, c :: 0 <= r < CompositeSize && 0 <= c < CompositeSize && InBlock(r, c, offX, offY, 256, 256) ==>
              o.state[b][r][c] == ChildBand(be, ds, b).value[BlockIndex(r - offY, c - offX, 256, 256)]
    decreases ds.rasterCount - i
  {
    var read := ChildBand(be, ds, i);
    var w := WriteBandBlock(comp, CompositeSize, CompositeSize, i, offX, offY, 256, 256, read.value);
    WriteBlockFrame(comp[i], CompositeSize, CompositeSize, offX, offY, 256, 256, read.value);
    PasteChildFrame(be, ds, offX, offY, w.value, i + 1);
    if b == i {
      PasteChildFrame(be, ds, offX, offY, w.value, i + 1);
    } else {
      PasteChildCopies(be, ds, offX, offY, w.value, i + 1, b);
    }
  }

  /** Only the children inside the child level's range are pasted: a
      pixel outside the quadrants of those children keeps its value in
      every band of the composite, whatever the files hold. */
  lemma {:induction false} ComposeOnlyInRange(be: Backend, outFolder: string, style: string, cz: nat, x: int, y: int,
                                              r: TileRange, k: nat, comp: seq<Band>, m: int, row: int, col: int)
    requires CompositeBands(comp) && 0 <= m < |comp|
    requires 0 <= row < CompositeSize && 0 <= col < CompositeSize
    requires forall j :: k <= j < 4 && InRange(r, Children(x, y)[j]) ==>
               !InBlock(row, col, OffsetX(x, Children(x, y)[j].x), OffsetY(y, Children(x, y)[j].y), 256, 256)
    ensures var o := ComposeChildren(be, outFolder, style, cz, x, y, r, Children(x, y), k, comp);
            |o.state| == |comp| && CompositeBands(o.state) && o.state[m][row][col] == comp[m][row][col]
    decreases 4 - k
  {
    var cands := Children(x, y);
    if k < 4 {
      var c := cands[k];
      if !InRange(r, c) {
        ComposeOnlyInRange(be, outFolder, style, cz, x, y, r, k + 1, comp, m, row, col);
      } else if be.stat(ChildDir(outFolder, cz, c.x)).None? && be.open(ChildPath(outFolder, style, cz, c)).Success? {
        var ds := be.open(ChildPath(outFolder, style, cz, c)).value;
        var o := PasteChild(be, ds, OffsetX(x, c.x), OffsetY(y, c.y), comp, 0);
        PasteChildFrame(be, ds, OffsetX(x, c.x), OffsetY(y, c.y), comp, 0);
        assert o.state[m][row][col] == comp[m][row][col];
        if o.err.None? {
          ComposeOnlyInRange(be, outFolder, style, cz, x, y, r, k + 1, o.state, m, row, col);
        }
      }
    }
  }

  // ------------------------------------------------------- the level loop

  function Append(a: Log, b: Log): Log
  {
    Log(a.errs + b.errs, a.encoded + b.encoded)
  }

  /** The parents `ids[j..]` of one level in order, a crash ending the run. */
  function ParentsSpec(be: Backend, v: View, ids: seq<Id>, j: nat, log: Log): Result<Log>
    decreases |ids| - j
  {
    if j >= |ids| then Success(log)
    else
      match ParentLog(be, v, ids[j])
      case Failure(e) => Failure(e)
      case Success(l) => ParentsSpec(be, v, ids, j + 1, Append(log, l))
  }

  /** Levels `z`, `z - 1`, ..., `zoomMin`, each from the one above it. */
  function LevelsSpec(be: Backend, v: View, z: int, log: Log): Result<Log>
    decreases z - v.zoomMin + 1
  {
    if z < v.zoomMin then Success(log)
    else if z < 0 || z >= |v.zoomTileIds| then Failure(Panic("index out of range"))
    else
      match ParentsSpec(be, v, v.zoomTileIds[z], 0, log)
      case Failure(e) => Failure(e)
      case Success(l) => LevelsSpec(be, v, z - 1, l)
  }

  /** A level run fails only by crashing: every other error is recorded
      and the run goes on. */
  lemma {:induction false} ParentsFailOnlyByPanic(be: Backend, v: View, ids: seq<Id>, j: nat, log: Log)
    ensures ParentsSpec(be, v, ids, j, log).Failure? ==> ParentsSpec(be, v, ids, j, log).error.Panic?
    decreases |ids| - j
  {
    if j < |ids| && ParentLog(be, v, ids[j]).Success? {
      ParentsFailOnlyByPanic(be, v, ids, j + 1, Append(log, ParentLog(be, v, ids[j]).value));
    }
  }

  lemma {:induction false} LevelsFailOnlyByPanic(be: Backend, v: View, z: int, log: Log)
    ensures LevelsSpec(be, v, z, log).Failure? ==> LevelsSpec(be, v, z, log).error.Panic?
    decreases z - v.zoomMin + 1
  {
    if v.zoomMin <= z && 0 <= z < |v.zoomTileIds| {
      ParentsFailOnlyByPanic(be, v, v.zoomTileIds[z], 0, log);
      if ParentsSpec(be, v, v.zoomTileIds[z], 0, log).Success? {
        LevelsFailOnlyByPanic(be, v, z - 1, ParentsSpec(be, v, v.zoomTileIds[z], 0, log).value);
      }
    }
  }

  /** The work of `OverviewTile` before it calls `next`: without the
      in-memory driver nothing is done; otherwise every level below
      `zoomMax` is built and its errors recorded, and `next` follows
      whatever those errors were.  A crash is reported as its panic. */
  function Overviews(be: Backend, v: View): Outcome<View>
  {
    if be.memDriver.Some? then Outcome(v, be.memDriver)
    else
      match LevelsSpec(be, v, v.zoomMax - 1, Log([], []))
      case Failure(e) => Outcome(v, Some(e))
      case Success(l) => Outcome(v.(err := v.err + l.errs, encoded := v.encoded + l.encoded), None)
  }

  function OverviewStep(be: Backend): Handler<View>
  {
    (v: View) => Overviews(be, v)
  }

  /** `BuildMapTiles`: the overview middleware in front of a final handler
      that returns without error. */
  function BuildMapTilesSpec(be: Backend): Handler<View>
  {
    Compose([Stage(OverviewStep(be))], Done())
  }

  /** The composed middleware runs the overview and then the final
      handler. */
  lemma BuildMapTilesRunsOverview(be: Backend, v: View)
    ensures BuildMapTilesSpec(be)(v) == (var o := Overviews(be, v); if o.err.Some? then o else Outcome(o.state, None))
  {
    var fns := [Stage(OverviewStep(be))];
    assert fns[1..] == [];
    assert Compose(fns[1..], Done()) == Done();
    assert BuildMapTilesSpec(be) == Stage(OverviewStep(be))(Done());
    var o := OverviewStep(be)(v);
    assert o == Overviews(be, v);
    assert Stage(OverviewStep(be))(Done())(v) == if o.err.Some? then o else Done()(o.state);
  }

  /** The overview reports an error only when the in-memory driver is
      missing or a level crashes, and it keeps the errors recorded before
      it. */
  lemma OverviewsKeepErrors(be: Backend, v: View)
    ensures Overviews(be, v).err.Some? <==> be.memDriver.Some? || LevelsSpec(be, v, v.zoomMax - 1, Log([], [])).Failure?
    ensures |Overviews(be, v).state.err| >= |v.err| && Overviews(be, v).state.err[..|v.err|] == v.err
  {
    if be.memDriver.None? {
      match LevelsSpec(be, v, v.zoomMax - 1, Log([], []))
      case Failure(e) =>
      case Success(l) =>
        assert (v.err + l.errs)[..|v.err|] == v.err;
    }
  }

  /** The errors recorded by the overview never stop it: unless the
      in-memory driver is missing or the run crashes, `BuildMapTiles`
      returns without error and keeps the errors recorded before it. */
  lemma OverviewNeverFails(be: Backend, v: View)
    ensures var o := BuildMapTilesSpec(be)(v);
            o.err.Some? <==> be.memDriver.Some? || LevelsSpec(be, v, v.zoomMax - 1, Log([], [])).Failure?
    ensures var o := BuildMapTilesSpec(be)(v);
            |o.state.err| >= |v.err| && o.state.err[..|v.err|] == v.err
  {
    BuildMapTilesRunsOverview(be, v);
    OverviewsKeepErrors(be, v);
  }

  /** The parents of one level in order, each composed and encoded; a
      crash ends the level. */
  method BuildLevel(be: Backend, v: View, ids: seq<Id>, log0: Log) returns (crash: Option<Error>, log: Log)
    ensures match ParentsSpec(be, v, ids, 0, log0)
            case Failure(e) => crash == Some(e)
            case Success(l) => crash.None? && log == l
  {
    log := log0;
    var j := 0;
    while j < |ids|
      invariant 0 <= j <= |ids|
      invariant ParentsSpec(be, v, ids, 0, log0) == ParentsSpec(be, v, ids, j, log)
    {
      var parentLog;
      crash, parentLog := ComposeParent(be, v, ids[j]);
      if crash.Some? {
        return;
      }
      log := Append(log, parentLog);
      j := j + 1;
    }
    crash := None;
  }

  /** The levels from `zoomMax - 1` down to `zoomMin`; a crash ends the
      run. */
  method BuildLevels(be: Backend, v: View) returns (crash: Option<Error>, log: Log)
    ensures match LevelsSpec(be, v, v.zoomMax - 1, Log([], []))
            case Failure(e) => crash == Some(e)
            case Success(l) => crash.None? && log == l
  {
    ghost var spec := LevelsSpec(be, v, v.zoomMax - 1, Log([], []));
    log := Log([], []);
    var overview := v.zoomMax - 1;
    while overview >= v.zoomMin
      invariant spec == LevelsSpec(be, v, overview, log)
      decreases overview - v.zoomMin
    {
      if overview < 0 || overview >= |v.zoomTileIds| {
        return Some(Panic("index out of range")), log;
      }
      crash, log := BuildLevel(be, v, v.zoomTileIds[overview], log);
      if crash.Some? {
        return;
      }
      overview := overview - 1;
    }
    crash := None;
  }

  /** `OverviewTile` before `next`, over the tile's own fields: the errors
      of every parent are appended to the tile's error list. */
  method OverviewTile(t: Tile, be: Backend) returns (err: Option<Error>, encoded: seq<Encoded>)
    modifies t
    ensures t.SettingsKept() && t.ZoomTileIds == old(t.ZoomTileIds)
    ensures t.TZMinMax == old(t.TZMinMax) && t.TzCount == old(t.TzCount)
    ensures var o := Overviews(be, old(ViewOf(t)));
            err == o.err && (err.None? ==> t.err == o.state.err && encoded == o.state.encoded)
    ensures be.memDriver.Some? ==> t.err == old(t.err)
  {
    if be.memDriver.Some? {
      return be.memDriver, [];
    }
    var log;
    err, log := BuildLevels(be, ViewOf(t));
    t.err := t.err + log.errs;
    encoded := log.encoded;
  }

  /** `BuildMapTiles` over the tile: the overview middleware, then the
      final handler, which returns without error; `BuildMapTilesRunsOverview`
      shows that the composed chain computes the same. */
  method BuildMapTiles(t: Tile, be: Backend) returns (err: Option<Error>, encoded: seq<Encoded>)
    modifies t
    ensures t.SettingsKept() && t.ZoomTileIds == old(t.ZoomTileIds)
    ensures t.TZMinMax == old(t.TZMinMax) && t.TzCount == old(t.TzCount)
    ensures var o := Overviews(be, old(ViewOf(t)));
            err == o.err && (err.None? ==> t.err == o.state.err && encoded == o.state.encoded)
    ensures be.memDriver.Some? ==> t.err == old(t.err)
  {
    err, encoded := OverviewTile(t, be);
  }

  /** `CuttingToImg`: nothing happens once an error is recorded; otherwise
      the pyramid is built and the error it returns is recorded, except a
      crash, which unwinds. */
  method CuttingToImg(t: Tile, be: Backend) returns (crash: Option<Error>, encoded: seq<Encoded>)
    modifies t
    ensures t.SettingsKept() && t.ZoomTileIds == old(t.ZoomTileIds)
    ensures t.TZMinMax == old(t.TZMinMax) && t.TzCount == old(t.TzCount)
    ensures |old(t.err)| > 0 ==> crash.None? && t.err == old(t.err) && encoded == []
    ensures |old(t.err)| == 0 ==>
              var o := Overviews(be, old(ViewOf(t)));
              match o.err
              case None => crash.None? && t.err == o.state.err && encoded == o.state.encoded
              case Some(e) => if e.Panic? then crash == o.err else crash.None? && t.err == [e]
  {
    if |t.err| > 0 {
      return None, [];
    }
    LevelsFailOnlyByPanic(be, ViewOf(t), t.ZoomMax - 1, Log([], []));
    var err;
    err, encoded := BuildMapTiles(t, be);
    crash := None;
    if err.Some? {
      if err.value.Panic? {
        return err, encoded;
      }
      t.err := t.err + [err.value];
    }
  }

  // ------------------------------------------------------- the base level

  /** A failed open leaves the zero dataset value, which reports no size,
      no transform and no band. */
  function NullDataset(): Dataset
  {
    Dataset(0, 0, [0.0, 0.0, 0.0, 0.0, 0.0, 0.0], 0)
  }

  /** The dataset each base tile is rendered from. */
  function OpenOrNull(be: Backend, vrt: string): Dataset
  {
    if be.open(vrt).Success? then be.open(vrt).value else NullDataset()
  }

  /** The base tiles `ids[j..]` in order: open the reprojected input,
      record a failure to open it, render the tile through the read chain
      and record its error; the rendered tile replaces the planned one. */
  function BaseTiles(be: Backend, vrt: string, ids: seq<Id>, j: nat, errs: seq<Error>): (r: (seq<Id>, seq<Error>))
    ensures |r.0| == |ids|
    ensures |r.1| >= |errs| && r.1[..|errs|] == errs
    decreases |ids| - j
  {
    if j >= |ids| then (ids, errs)
    else
      var openVrt := be.open(vrt);
      var errs1 := if openVrt.Failure? then errs + [openVrt.error] else errs;
      var o := Run(ReadTileSteps(OpenOrNull(be, vrt), be), Finish(be), ids[j]);
      BaseTiles(be, vrt, ids[j := o.state], j + 1, if o.err.Some? then errs1 + [o.err.value] else errs1)
  }

  /** Every base tile from `j` on is replaced by the tile the read chain
      renders from it, and the earlier ones are left alone. */
  lemma {:induction false} BaseTilesRenderEach(be: Backend, vrt: string, ids: seq<Id>, j: nat, errs: seq<Error>)
    ensures var r := BaseTiles(be, vrt, ids, j, errs);
            (forall m :: 0 <= m < |ids| && m < j ==> r.0[m] == ids[m])
            && forall m :: j <= m < |ids| ==>
                 r.0[m] == Run(ReadTileSteps(OpenOrNull(be, vrt), be), Finish(be), ids[m]).state
    decreases |ids| - j
  {
    if j < |ids| {
      var openVrt := be.open(vrt);
      var errs1 := if openVrt.Failure? then errs + [openVrt.error] else errs;
      var o := Run(ReadTileSteps(OpenOrNull(be, vrt), be), Finish(be), ids[j]);
      BaseTilesRenderEach(be, vrt, ids[j := o.state], j + 1, if o.err.Some? then errs1 + [o.err.value] else errs1);
    }
  }

  /** `BaseTile` before `next`: render the base level, then report the
      first recorded error, if any. */
  function BaseLevel(be: Backend, v: View): Outcome<View>
  {
    if !(0 <= v.zoomMax < |v.zoomTileIds|) then Outcome(v, Some(Panic("index out of range")))
    else
      var r := BaseTiles(be, v.tempFileVrt, v.zoomTileIds[v.zoomMax], 0, v.err);
      Outcome(v.(zoomTileIds := v.zoomTileIds[v.zoomMax := r.0], err := r.1),
              if |r.1| > 0 then Some(r.1[0]) else None)
  }

  function BaseTileStep(be: Backend): Handler<View>
  {
    (v: View) => BaseLevel(be, v)
  }

  /** `BaseTile` before `next`: the base level is rendered, then the error
      list, which starts with the errors recorded before it, is checked; its
      first entry is returned and `next` runs exactly when it is empty.  An
      index past `ZoomTileIds` panics before anything is rendered. */
  lemma BaseTileGates(be: Backend, next: Handler<View>, v: View)
    ensures !(0 <= v.zoomMax < |v.zoomTileIds|) ==>
              Stage(BaseTileStep(be))(next)(v) == Outcome(v, Some(Panic("index out of range")))
    ensures 0 <= v.zoomMax < |v.zoomTileIds| ==>
              var b := BaseLevel(be, v);
              Stage(BaseTileStep(be))(next)(v)
              == if |b.state.err| > 0 then Outcome(b.state, Some(b.state.err[0])) else next(b.state)
    ensures 0 <= v.zoomMax < |v.zoomTileIds| && |v.err| > 0 ==> Stage(BaseTileStep(be))(next)(v).err == Some(v.err[0])
  {
    assert BaseTileStep(be)(v) == BaseLevel(be, v);
    if 0 <= v.zoomMax < |v.zoomTileIds| && |v.err| > 0 {
      var r := BaseTiles(be, v.tempFileVrt, v.zoomTileIds[v.zoomMax], 0, v.err);
      assert r.1[..|v.err|][0] == v.err[0];
    }
  }

  /** The base tiles of one level rendered in order, with the errors
      recorded after `errs0`. */
  method RenderBaseTiles(be: Backend, vrt: string, ids0: seq<Id>, errs0: seq<Error>)
    returns (ids: seq<Id>, errs: seq<Error>)
    ensures (ids, errs) == BaseTiles(be, vrt, ids0, 0, errs0)
  {
    ids, errs := ids0, errs0;
    var j := 0;
    while j < |ids|
      invariant 0 <= j <= |ids| == |ids0|
      invariant BaseTiles(be, vrt, ids0, 0, errs0) == BaseTiles(be, vrt, ids, j, errs)
    {
      var dataset := NullDataset();
      var openVrt := be.open(vrt);
      if openVrt.Failure? {
        errs := errs + [openVrt.error];
      } else {
        dataset := openVrt.value;
      }
      var o := ReadTile(ids[j], dataset, be);
      ids := ids[j := o.state];
      if o.err.Some? {
        errs := errs + [o.err.value];
      }
      j := j + 1;
    }
  }

  /** `BaseTile` before `next`, over the tile's own fields. */
  method BaseTile(t: Tile, be: Backend) returns (err: Option<Error>)
    modifies t
    ensures t.SettingsKept() && t.TZMinMax == old(t.TZMinMax) && t.TzCount == old(t.TzCount)
    ensures var o := BaseLevel(be, old(ViewOf(t)));
            err == o.err && t.err == o.state.err && t.ZoomTileIds == o.state.zoomTileIds
  {
    var baseZoom := t.ZoomMax;
    if !(0 <= baseZoom < |t.ZoomTileIds|) {
      return Some(Panic("index out of range"));
    }
    var ids, errs := RenderBaseTiles(be, t.tempFileVrt, t.ZoomTileIds[baseZoom], t.err);
    t.ZoomTileIds := t.ZoomTileIds[baseZoom := ids];
    t.err := errs;
    err := if |t.err| > 0 then Some(t.err[0]) else None;
  }
}

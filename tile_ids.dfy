/**
  One tile of the base level and the read chain that renders it
  (`pkg/tile/tile_ids.go`): `initTileRead` attaches the dataset and sizes
  the band table, `Read` reads each band's window into a byte slice,
  `TileToPNG` writes those slices into a `QuerySize` x `QuerySize`
  in-memory dataset at the window's write position, and the final handler
  downsamples that dataset band by band into the 256 x 256 tile.

  The raster back end is a `Backend` value: whether the in-memory driver is
  available, the pixels a band read delivers, and the outcome of the
  downsampling call.  The query dataset is a three-dimensional array of
  bands x rows x columns.  The PNG encoding of the finished tile is not part of
  this model; the source ignores its outcome.
*/
module TileIds {
  import opened Base
  import opened Chain
  import opened Pixels
  import opened GdalRaster
  import opened Windows
  import opened RasterBackend

  /** `256 * 4`: the side of the query dataset. */
  const QuerySize: int := 256 * 4

  datatype Id = Id(z: int, x: int, y: int, windows: Option<Window>, filename: string,
                   querySize: int, dataset: Option<Dataset>, imgBuf: seq<seq<byte>>,
                   dsQuery: seq<Band>)

  /** A tile as the planner creates it; the read chain fills in the rest. */
  function NewId(z: int, x: int, y: int, windows: Option<Window>, filename: string): Id
  {
    Id(z, x, y, windows, filename, 0, None, [], [])
  }

  /** `initTileRead`: query size, dataset, one empty slot per band. */
  function InitStep(ds: Dataset): Handler<Id>
  {
    (info: Id) =>
      Outcome(info.(querySize := QuerySize, dataset := Some(ds), imgBuf := seq(ds.rasterCount, _ => [])), None)
  }

  /** Length of the slice `Read` allocates for a band. */
  function BandBufferLen(w: Window): int
  {
    w.wxSize * w.wySize
  }

  /** The bands `i` .. `rasterCount - 1` of `ds` read into `bufs`, each into a
      fresh slice of `len` bytes set to 255; stops at the first error and
      keeps the slots filled before it. */
  function ReadBands(pixels: (Dataset, int, Window) -> Result<seq<byte>>, ds: Dataset, w: Window, len: int, i: nat, bufs: seq<seq<byte>>)
    : Outcome<seq<seq<byte>>>
    decreases ds.rasterCount - i
  {
    if i >= ds.rasterCount then Outcome(bufs, None)
    else if len < 0 then Outcome(bufs, Some(Panic("makeslice: len out of range")))
    else
      match ReadBlock(ds.rasterXSize, ds.rasterYSize, w.rx, w.ry, w.rxSize, w.rySize,
                      w.wxSize, w.wySize, Filled(len, 255), pixels(ds, i + 1, w))
      case Failure(e) => Outcome(bufs, Some(e))
      case Success(data) =>
        if i < |bufs| then ReadBands(pixels, ds, w, len, i + 1, bufs[i := data])
        else Outcome(bufs, Some(Panic("index out of range")))
  }

  /** The `Read` stage with slices of `len(window)` bytes per band; the
      window is only looked at inside the band loop, so a dataset without
      bands passes without one. */
  function ReadStepWith(be: Backend, len: Window -> int): Handler<Id>
  {
    (info: Id) =>
      if info.dataset.None? then Outcome(info, Some(Undefined("no dataset")))
      else if info.dataset.value.rasterCount == 0 then Outcome(info, None)
      else if info.windows.None? then Outcome(info, Some(Undefined("no window")))
      else
        var o := ReadBands(be.pixels, info.dataset.value, info.windows.value, len(info.windows.value), 0, info.imgBuf);
        Outcome(info.(imgBuf := o.state), o.err)
  }

  /** `Read`, with each band slice as large as the write buffer the read
      is resampled to. */
  function ReadStep(be: Backend): Handler<Id>
  {
    ReadStepWith(be, BandBufferLen)
  }

  /** `Read` as the source sizes its slices: read width times read height. */
  function ReadStepAsWritten(be: Backend): Handler<Id>
  {
    ReadStepWith(be, (w: Window) => w.rxSize * w.rySize)
  }

  /** The query dataset after bands `i` .. of `bands` have had the slice
      `imgData[i]` written at the window's write position, stopping at the
      first error. */
  function WriteBands(bands: seq<Band>, qs: int, w: Window, imgData: seq<seq<byte>>, i: nat): Result<seq<Band>>
    decreases |bands| - i
  {
    if i >= |bands| then Success(bands)
    else if i >= |imgData| then Failure(Panic("index out of range"))
    else
      match WriteBandBlock(bands, qs, qs, i, w.wx, w.wy, w.wxSize, w.wySize, imgData[i])
      case Failure(e) => Failure(e)
      case Success(b) => WriteBands(b, qs, w, imgData, i + 1)
  }

  /** `TileToPNG`: the query dataset built from the band slices; as in
      `Read`, a dataset without bands never looks at the window. */
  function ToPngStep(be: Backend): Handler<Id>
  {
    (info: Id) =>
      if be.memDriver.Some? then Outcome(info, be.memDriver)
      else if info.dataset.None? then Outcome(info, Some(Undefined("no dataset")))
      else if info.querySize < 1 then Outcome(info, Some(Undefined("query dataset not created")))
      else if info.dataset.value.rasterCount == 0 then Outcome(info.(dsQuery := []), None)
      else if info.windows.None? then Outcome(info, Some(Undefined("no window")))
      else
        var blank := BlankBands(info.dataset.value.rasterCount, info.querySize, info.querySize);
        match WriteBands(blank, info.querySize, info.windows.value, info.imgBuf, 0)
        case Failure(e) => Outcome(info, Some(e))
        case Success(bands) => Outcome(info.(dsQuery := bands), None)
  }

  /** The first band, from `i` on, whose downsampling fails. */
  function FirstRegenerateError(be: Backend, bands: seq<Band>, i: nat): Option<Error>
    decreases |bands| - i
  {
    if i >= |bands| then None
    else if be.regenerate(bands[i]).Some? then be.regenerate(bands[i])
    else FirstRegenerateError(be, bands, i + 1)
  }

  /** The final handler of `ReadTile`: downsample every query band into
      the tile; the PNG encoding's outcome is ignored, as in the source. */
  function Finish(be: Backend): Handler<Id>
  {
    (info: Id) =>
      if be.memDriver.Some? then Outcome(info, be.memDriver)
      else Outcome(info, FirstRegenerateError(be, info.dsQuery, 0))
  }

  function ReadTileSteps(ds: Dataset, be: Backend): seq<Handler<Id>>
  {
    [InitStep(ds), ReadStep(be), ToPngStep(be)]
  }

  /** `Read`: the band loop, allocating and filling each slice in place. */
  method Read(info: Id, be: Backend) returns (o: Outcome<Id>)
    ensures o == ReadStep(be)(info)
  {
    if info.dataset.None? {
      return Outcome(info, Some(Undefined("no dataset")));
    }
    var ds := info.dataset.value;
    var bandCount := ds.rasterCount;
    if bandCount == 0 {
      return Outcome(info, None);
    }
    if info.windows.None? {
      return Outcome(info, Some(Undefined("no window")));
    }
    var w := info.windows.value;
    var imgBuf := info.imgBuf;
    var i := 0;
    while i < bandCount
      invariant 0 <= i <= bandCount
      invariant ReadBands(be.pixels, ds, w, BandBufferLen(w), 0, info.imgBuf)
                == ReadBands(be.pixels, ds, w, BandBufferLen(w), i, imgBuf)
    {
      var n := w.wxSize * w.wySize;
      if n < 0 {
        return Outcome(info.(imgBuf := imgBuf), Some(Panic("makeslice: len out of range")));
      }
      var data := FillBuffer(n, 255);
      var r := ReadBlock(ds.rasterXSize, ds.rasterYSize, w.rx, w.ry, w.rxSize, w.rySize,
                         w.wxSize, w.wySize, data[..], be.pixels(ds, i + 1, w));
      if r.Failure? {
        return Outcome(info.(imgBuf := imgBuf), Some(r.error));
      }
      if i >= |imgBuf| {
        return Outcome(info.(imgBuf := imgBuf), Some(Panic("index out of range")));
      }
      imgBuf := imgBuf[i := r.value];
      i := i + 1;
    }
    o := Outcome(info.(imgBuf := imgBuf), None);
  }

  /** `TileToPNG`: creates the query dataset and writes each band's slice
      into it. */
  method TileToPng(info: Id, be: Backend) returns (o: Outcome<Id>)
    ensures o == ToPngStep(be)(info)
  {
    if be.memDriver.Some? {
      return Outcome(info, be.memDriver);
    }
    if info.dataset.None? {
      return Outcome(info, Some(Undefined("no dataset")));
    }
    if info.querySize < 1 {
      return Outcome(info, Some(Undefined("query dataset not created")));
    }
    var bandCount, qs := info.dataset.value.rasterCount, info.querySize;
    if bandCount == 0 {
      return Outcome(info.(dsQuery := []), None);
    }
    if info.windows.None? {
      return Outcome(info, Some(Undefined("no window")));
    }
    var w := info.windows.value;
    ghost var blank := BlankBands(bandCount, qs, qs);
    var dsQuery := new byte[bandCount, qs, qs]((b, r, c) => 0);
    BandsOfBlank(dsQuery);
    var i := 0;
    while i < bandCount
      invariant 0 <= i <= bandCount
      invariant WriteBands(blank, qs, w, info.imgBuf, 0) == WriteBands(Bands(dsQuery), qs, w, info.imgBuf, i)
    {
      if i >= |info.imgBuf| {
        return Outcome(info, Some(Panic("index out of range")));
      }
      var err := WriteBandRegion(dsQuery, i, w.wx, w.wy, w.wxSize, w.wySize, info.imgBuf[i]);
      if err.Some? {
        return Outcome(info, err);
      }
      i := i + 1;
    }
    o := Outcome(info.(dsQuery := Bands(dsQuery)), None);
  }

  /** `ReadTile`: `ReadExec` over the three stages and the final handler. */
  method ReadTile(info: Id, ds: Dataset, be: Backend) returns (o: Outcome<Id>)
    ensures o == Run(ReadTileSteps(ds, be), Finish(be), info)
  {
    var steps := ReadTileSteps(ds, be);
    o := Exec(info, Finish(be), Stages(steps));
    ComposeRunsInOrder(steps, Finish(be), info);
  }

  /** The slice `Read` leaves for band `k` (0-based): the pixels the back
      end delivered, over a buffer of 255s (the buffer as allocated if the
      read fails). */
  function BandSlice(be: Backend, ds: Dataset, w: Window, k: nat): (s: seq<byte>)
    requires BandBufferLen(w) >= 0
    ensures |s| == BandBufferLen(w)
  {
    var buf := Filled(BandBufferLen(w), 255);
    match ReadBlock(ds.rasterXSize, ds.rasterYSize, w.rx, w.ry, w.rxSize, w.rySize,
                    w.wxSize, w.wySize, buf, be.pixels(ds, k + 1, w))
    case Success(d) => d
    case Failure(_) => buf
  }

  /** With the read window inside the raster and every band read
      succeeding, `Read` fills every slot, each with a slice of exactly
      the write buffer's size. */
  lemma {:induction false} ReadBandsSucceed(be: Backend, ds: Dataset, w: Window, i: nat, bufs: seq<seq<byte>>)
    requires BandBufferLen(w) >= 0
    requires i <= ds.rasterCount == |bufs|
    requires ReadInside(w, ds.rasterXSize, ds.rasterYSize)
    requires forall k :: i < k <= ds.rasterCount ==> be.pixels(ds, k, w).Success?
    ensures ReadBands(be.pixels, ds, w, BandBufferLen(w), i, bufs).err.None?
    ensures var s := ReadBands(be.pixels, ds, w, BandBufferLen(w), i, bufs).state;
            |s| == |bufs|
            && (forall k :: 0 <= k < i ==> s[k] == bufs[k])
            && (forall k :: i <= k < |bufs| ==> s[k] == BandSlice(be, ds, w, k))
    decreases ds.rasterCount - i
  {
    if i < ds.rasterCount {
      var data := BandSlice(be, ds, w, i);
      assert be.pixels(ds, i + 1, w).Success?;
      ReadBandsSucceed(be, ds, w, i + 1, bufs[i := data]);
    }
  }

  /** With the write window inside the query dataset and every slice of
      the write buffer's size, every band from `i` on is written, and
      nothing before it changes. */
  lemma {:induction false} WriteBandsSucceed(bands: seq<Band>, qs: nat, w: Window, imgData: seq<seq<byte>>, i: nat)
    requires 0 <= w.wx && 0 <= w.wy && w.wx + w.wxSize <= qs && w.wy + w.wySize <= qs
    requires i <= |bands| <= |imgData|
    requires forall k :: i <= k < |bands| ==> IsBand(bands[k], qs, qs) && |imgData[k]| == BandBufferLen(w)
    ensures WriteBands(bands, qs, w, imgData, i).Success?
    ensures var r := WriteBands(bands, qs, w, imgData, i).value;
            |r| == |bands|
            && (forall k :: 0 <= k < i ==> r[k] == bands[k])
            && forall k :: i <= k < |bands| ==>
                 WriteBlock(bands[k], qs, qs, w.wx, w.wy, w.wxSize, w.wySize, imgData[k]).Success?
                 && r[k] == WriteBlock(bands[k], qs, qs, w.wx, w.wy, w.wxSize, w.wySize, imgData[k]).value
    decreases |bands| - i
  {
    if i < |bands| {
      var b := WriteBlock(bands[i], qs, qs, w.wx, w.wy, w.wxSize, w.wySize, imgData[i]);
      assert b.Success?;
      WriteBlockFrame(bands[i], qs, qs, w.wx, w.wy, w.wxSize, w.wySize, imgData[i]);
      WriteBandsSucceed(bands[i := b.value], qs, w, imgData, i + 1);
    }
  }

  /** A tile whose read window lies inside the raster and whose write
      window lies inside the query dataset renders without error when the
      back end's reads succeed: the query dataset has one
      `QuerySize` x `QuerySize` band per raster band, holding that band's
      pixels at the write window and 0 everywhere else. */
  lemma ReadTileRenders(ds: Dataset, be: Backend, info: Id, w: Window)
    requires info.windows == Some(w) && be.memDriver.None?
    requires ReadInside(w, ds.rasterXSize, ds.rasterYSize)
    requires 0 <= w.wx && 0 <= w.wy && w.wx + w.wxSize <= QuerySize && w.wy + w.wySize <= QuerySize
    requires 0 <= w.wxSize && 0 <= w.wySize
    requires forall k :: 0 < k <= ds.rasterCount ==> be.pixels(ds, k, w).Success?
    ensures var o := RunSteps(ReadTileSteps(ds, be), info);
            o.err.None?
            && |o.state.dsQuery| == ds.rasterCount
            && (forall k :: 0 <= k < ds.rasterCount ==> IsBand(o.state.dsQuery[k], QuerySize, QuerySize))
            && (forall k, i, j :: 0 <= k < ds.rasterCount && 0 <= i < QuerySize && 0 <= j < QuerySize ==>
                  o.state.dsQuery[k][i][j]
                  == if InBlock(i, j, w.wx, w.wy, w.wxSize, w.wySize)
                     then BandSlice(be, ds, w, k)[BlockIndex(i - w.wy, j - w.wx, w.wxSize, w.wySize)]
                     else 0)
  {
    var info1 := InitStep(ds)(info).state;
    assert BandBufferLen(w) >= 0;
    ReadBandsSucceed(be, ds, w, 0, info1.imgBuf);
    var info2 := ReadStep(be)(info1).state;
    assert ReadStep(be)(info1).err.None?;
    var n := ds.rasterCount;
    var blank := BlankBands(n, QuerySize, QuerySize);
    WriteBandsSucceed(blank, QuerySize, w, info2.imgBuf, 0);
    var bands := WriteBands(blank, QuerySize, w, info2.imgBuf, 0).value;
    assert ToPngStep(be)(info2) == Outcome(info2.(dsQuery := bands), None);
    ThreeStepsRun(InitStep(ds), ReadStep(be), ToPngStep(be), info, info1, info2, info2.(dsQuery := bands));
    forall k | 0 <= k < n
      ensures IsBand(bands[k], QuerySize, QuerySize)
      ensures forall i, j :: 0 <= i < QuerySize && 0 <= j < QuerySize ==>
                bands[k][i][j] == if InBlock(i, j, w.wx, w.wy, w.wxSize, w.wySize)
                                  then BandSlice(be, ds, w, k)[BlockIndex(i - w.wy, j - w.wx, w.wxSize, w.wySize)]
                                  else 0
    {
      assert info2.imgBuf[k] == BandSlice(be, ds, w, k);
      WriteBlockFrame(Blank(QuerySize, QuerySize), QuerySize, QuerySize, w.wx, w.wy, w.wxSize, w.wySize, info2.imgBuf[k]);
    }
  }

  /** A dataset without bands renders an empty tile without error,
      whatever the tile's window: the band loops never look at it. */
  lemma ZeroBandsNeedNoWindow(ds: Dataset, be: Backend, info: Id)
    requires ds.rasterCount == 0 && be.memDriver.None?
    ensures Run(ReadTileSteps(ds, be), Finish(be), info).err.None?
    ensures Run(ReadTileSteps(ds, be), Finish(be), info).state.dsQuery == []
  {
    var info1 := InitStep(ds)(info).state;
    var info2 := info1.(dsQuery := []);
    assert ReadStep(be)(info1) == Outcome(info1, None);
    assert ToPngStep(be)(info1) == Outcome(info2, None);
    ThreeStepsRun(InitStep(ds), ReadStep(be), ToPngStep(be), info, info1, info1, info2);
    RunReachesFinal(ReadTileSteps(ds, be), Finish(be), info);
  }

  /** The window of a tile read at the raster's own resolution: 256 x 256
      source pixels resampled into the full 1024 x 1024 write buffer. */
  function NativeWindow(): Window
  {
    Window(0, 0, 256, 256, 0, 0, 1024, 1024)
  }

  /** `ReadBox` computes exactly that window for the top-left tile of a
      1000 x 1000 raster of 1 m pixels whose corner is the tile's corner. */
  lemma NativeWindowFromReadBox()
    ensures ReadBoxSpec(WindowsReadBox(0.0, 1000.0, 256.0, 744.0, 256, 1000, 1000,
                                       [0.0, 1.0, 0.0, 1000.0, 0.0, -1.0]))
            == Some(NativeWindow())
  {
    TruncOfInteger(256);
    assert Trunc(0.001) == 0;
    assert Trunc(256.5) == 256;
  }

  /** As the source sizes its band slices (read width times read height),
      the first band read of that window has the back end store
      1024 * 1024 pixels into a slice of 256 * 256 bytes. */
  lemma ReadOverrunsAsWritten(ds: Dataset, be: Backend, info: Id)
    requires info.windows == Some(NativeWindow())
    requires ds.rasterXSize >= 256 && ds.rasterYSize >= 256 && ds.rasterCount >= 1
    requires be.pixels(ds, 1, NativeWindow()).Success?
    ensures Run([InitStep(ds), ReadStepAsWritten(be), ToPngStep(be)], Finish(be), info).err
            == Some(Undefined("native write past the end of a Go slice"))
  {
    var steps := [InitStep(ds), ReadStepAsWritten(be), ToPngStep(be)];
    var info1 := InitStep(ds)(info).state;
    var w := NativeWindow();
    assert 256 * 256 < 1024 * 1024;
    assert ReadBlock(ds.rasterXSize, ds.rasterYSize, w.rx, w.ry, w.rxSize, w.rySize, w.wxSize, w.wySize,
                     Filled(256 * 256, 255), be.pixels(ds, 1, w))
           == Failure(Undefined("native write past the end of a Go slice"));
    assert ReadBands(be.pixels, ds, w, 256 * 256, 0, info1.imgBuf).err == Some(Undefined("native write past the end of a Go slice"));
    assert ReadStepAsWritten(be)(info1).err == Some(Undefined("native write past the end of a Go slice"));
    assert steps[1..][0] == ReadStepAsWritten(be);
  }
}

/**
  The per-tile job chain of `pkg/tile_gdal/job.go`: `Execution` composes
  the job stages over a `GeoQueryGdalJobInfo`, and `TileRead` opens the
  reprojected input, records its band count and reads every band through
  the job's window into a table of four band slots.
*/
module Job {
  import opened Base
  import opened Chain
  import opened Pixels
  import opened GdalRaster
  import opened Windows
  import opened RasterBackend
  import opened TileIds

  /** `GeoQueryGdalJobInfo`: the window of one base tile (absent where the
      window calculator divides by a zero pixel size), the file it is
      written to, the reprojected input it is read from, the band slices
      read so far, the band count and the query size. */
  datatype JobInfo = JobInfo(window: Option<Window>, tileFilename: string, vrtFilename: string,
                             imgData: seq<seq<byte>>, bandCount: int, querySize: int)

  /** The size of `TileRead`'s band table. */
  const BandSlots: nat := 4

  /** The band table as `make([][]byte, 4)` creates it. */
  function EmptySlots(): (s: seq<seq<byte>>)
    ensures |s| == BandSlots && forall k :: 0 <= k < BandSlots ==> s[k] == []
  {
    seq(BandSlots, _ => [])
  }

  /** `Execution`: the jobs wrapped around the final function, the first
      job outermost, then called on the job info. */
  method Execution(info: JobInfo, jobFunc: Handler<JobInfo>, jobs: seq<Middleware<JobInfo>>)
    returns (o: Outcome<JobInfo>)
    ensures o == Compose(jobs, jobFunc)(info)
  {
    o := Exec(info, jobFunc, jobs);
  }

  /** Composed stages run in list order, and the final function runs only
      when every stage succeeded. */
  lemma ExecutionRunsInOrder(steps: seq<Handler<JobInfo>>, jobFunc: Handler<JobInfo>, info: JobInfo)
    ensures Compose(Stages(steps), jobFunc)(info) == Run(steps, jobFunc, info)
    ensures RunSteps(steps, info).err.None? ==>
              Compose(Stages(steps), jobFunc)(info) == jobFunc(RunSteps(steps, info).state)
  {
    ComposeRunsInOrder(steps, jobFunc, info);
    if RunSteps(steps, info).err.None? {
      RunReachesFinal(steps, jobFunc, info);
    }
  }

  /** `TileRead` with band slices of `len(window)` bytes: open the input,
      record its band count, then read the bands into the four slots; the
      table is stored only when every band was read. */
  function TileReadWith(be: Backend, len: Window -> int, info: JobInfo): Outcome<JobInfo>
  {
    match be.open(info.vrtFilename)
    case Failure(e) => Outcome(info, Some(e))
    case Success(ds) =>
      var counted := info.(bandCount := ds.rasterCount);
      if ds.rasterCount == 0 then Outcome(counted.(imgData := EmptySlots()), None)
      else if info.window.None? then Outcome(counted, Some(Undefined("window from a zero pixel size")))
      else
        var o := ReadBands(be.pixels, ds, info.window.value, len(info.window.value), 0, EmptySlots());
        if o.err.Some? then Outcome(counted, o.err) else Outcome(counted.(imgData := o.state), None)
  }

  /** `TileRead` with each band slice as large as the buffer the read is
      resampled to. */
  function TileReadStep(be: Backend): Handler<JobInfo>
  {
    (info: JobInfo) => TileReadWith(be, BandBufferLen, info)
  }

  /** `TileRead` as the source sizes its slices: read width times read
      height. */
  function TileReadStepAsWritten(be: Backend): Handler<JobInfo>
  {
    (info: JobInfo) => TileReadWith(be, (w: Window) => w.rxSize * w.rySize, info)
  }

  /** `TileRead`, filling a fixed table of four slots band by band. */
  method TileRead(info: JobInfo, be: Backend) returns (o: Outcome<JobInfo>)
    ensures o == TileReadStep(be)(info)
  {
    var vrtDs := be.open(info.vrtFilename);
    if vrtDs.Failure? {
      return Outcome(info, Some(vrtDs.error));
    }
    var ds := vrtDs.value;
    var bandCount := ds.rasterCount;
    var counted := info.(bandCount := bandCount);
    var tmp := new seq<byte>[BandSlots]((_) => []);
    assert tmp[..] == EmptySlots();
    if bandCount == 0 {
      return Outcome(counted.(imgData := tmp[..]), None);
    }
    if info.window.None? {
      return Outcome(counted, Some(Undefined("window from a zero pixel size")));
    }
    var w := info.window.value;
    var len := BandBufferLen(w);
    ghost var spec := ReadBands(be.pixels, ds, w, len, 0, tmp[..]);
    var i := 0;
    while i < bandCount
      invariant 0 <= i <= bandCount
      invariant spec == ReadBands(be.pixels, ds, w, len, i, tmp[..])
    {
      if len < 0 {
        return Outcome(counted, Some(Panic("makeslice: len out of range")));
      }
      var data := FillBuffer(len, 255);
      var read := ReadBlock(ds.rasterXSize, ds.rasterYSize, w.rx, w.ry, w.rxSize, w.rySize,
                            w.wxSize, w.wySize, data[..], be.pixels(ds, i + 1, w));
      if read.Failure? {
        return Outcome(counted, Some(read.error));
      }
      if i >= tmp.Length {
        return Outcome(counted, Some(Panic("index out of range")));
      }
      tmp[i] := read.value;
      i := i + 1;
    }
    o := Outcome(counted.(imgData := tmp[..]), None);
  }

  /** The band count is recorded as soon as the input opens, whatever the
      reads then do. */
  lemma TileReadRecordsBandCount(be: Backend, info: JobInfo)
    ensures be.open(info.vrtFilename).Success? ==>
              TileReadStep(be)(info).state.bandCount == be.open(info.vrtFilename).value.rasterCount
    ensures be.open(info.vrtFilename).Failure? ==>
              TileReadStep(be)(info) == Outcome(info, Some(be.open(info.vrtFilename).error))
  {
  }

  /** With up to four bands, all read successfully, each band's slice
      lands in its own slot and the slots after the last band stay empty. */
  lemma {:induction false} SlotsHoldBands(be: Backend, ds: Dataset, w: Window, i: nat, bufs: seq<seq<byte>>)
    requires BandBufferLen(w) >= 0
    requires i <= ds.rasterCount <= |bufs|
    requires ReadInside(w, ds.rasterXSize, ds.rasterYSize)
    requires forall k :: i < k <= ds.rasterCount ==> be.pixels(ds, k, w).Success?
    ensures ReadBands(be.pixels, ds, w, BandBufferLen(w), i, bufs).err.None?
    ensures var s := ReadBands(be.pixels, ds, w, BandBufferLen(w), i, bufs).state;
            |s| == |bufs|
            && (forall k :: 0 <= k < |bufs| && (k < i || k >= ds.rasterCount) ==> s[k] == bufs[k])
            && (forall k :: i <= k < ds.rasterCount ==> s[k] == BandSlice(be, ds, w, k))
    decreases ds.rasterCount - i
  {
    if i < ds.rasterCount {
      var data := BandSlice(be, ds, w, i);
      assert be.pixels(ds, i + 1, w).Success?;
      SlotsHoldBands(be, ds, w, i + 1, bufs[i := data]);
    }
  }

  /** With more than four bands, all read successfully, storing the fifth
      indexes past the table. */
  lemma {:induction false} TooManyBandsPanics(be: Backend, ds: Dataset, w: Window, i: nat, bufs: seq<seq<byte>>)
    requires BandBufferLen(w) >= 0
    requires i <= |bufs| < ds.rasterCount
    requires ReadInside(w, ds.rasterXSize, ds.rasterYSize)
    requires forall k :: i < k <= ds.rasterCount ==> be.pixels(ds, k, w).Success?
    ensures ReadBands(be.pixels, ds, w, BandBufferLen(w), i, bufs).err == Some(Panic("index out of range"))
    decreases |bufs| - i
  {
    assert be.pixels(ds, i + 1, w).Success?;
    if i < |bufs| {
      TooManyBandsPanics(be, ds, w, i + 1, bufs[i := BandSlice(be, ds, w, i)]);
    }
  }

  /** `TileRead` over a window inside the raster whose band reads all
      succeed: up to four bands fill the table in order; a fifth crashes. */
  lemma TileReadTable(be: Backend, info: JobInfo, ds: Dataset, w: Window)
    requires be.open(info.vrtFilename) == Success(ds) && info.window == Some(w)
    requires BandBufferLen(w) >= 0 && ReadInside(w, ds.rasterXSize, ds.rasterYSize)
    requires forall k :: 0 < k <= ds.rasterCount ==> be.pixels(ds, k, w).Success?
    ensures var o := TileReadStep(be)(info);
            (ds.rasterCount <= BandSlots ==>
               o.err.None? && |o.state.imgData| == BandSlots
               && (forall k :: 0 <= k < ds.rasterCount ==> o.state.imgData[k] == BandSlice(be, ds, w, k))
               && (forall k :: ds.rasterCount <= k < BandSlots ==> o.state.imgData[k] == []))
            && (ds.rasterCount > BandSlots ==> o.err == Some(Panic("index out of range")))
  {
    var empty: seq<seq<byte>> := EmptySlots();
    if ds.rasterCount <= BandSlots {
      if ds.rasterCount > 0 {
        SlotsHoldBands(be, ds, w, 0, empty);
      }
    } else {
      TooManyBandsPanics(be, ds, w, 0, empty);
    }
  }

  /** As the source sizes the slices, a read whose write buffer is larger
      than its read rectangle overruns the slice: a 256 x 256 read
      resampled to 1024 x 1024. */
  lemma TileReadOverrunsAsWritten(be: Backend, info: JobInfo, ds: Dataset)
    requires be.open(info.vrtFilename) == Success(ds) && info.window == Some(NativeWindow())
    requires ds.rasterXSize >= 256 && ds.rasterYSize >= 256 && ds.rasterCount >= 1
    requires be.pixels(ds, 1, NativeWindow()).Success?
    ensures TileReadStepAsWritten(be)(info).err == Some(Undefined("native write past the end of a Go slice"))
  {
    var w := NativeWindow();
    assert 256 * 256 < 1024 * 1024;
    assert ReadBlock(ds.rasterXSize, ds.rasterYSize, w.rx, w.ry, w.rxSize, w.rySize, w.wxSize, w.wySize,
                     Filled(256 * 256, 255), be.pixels(ds, 1, w))
           == Failure(Undefined("native write past the end of a Go slice"));
  }
}

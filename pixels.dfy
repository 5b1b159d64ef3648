/**
  Pixel buffers as the read and compose stages handle them: flat Go byte
  slices, and bands of an in-memory dataset addressed by row and column.
  A block transfer follows the raster back end's RasterIO contract: a
  window or buffer with a side below 1 is skipped, a window that leaves the
  band is refused with an illegal-argument error, and otherwise
  `bufX * bufY` pixels move between the band and the flat buffer, row by
  row.
*/
module Pixels {
  import opened Base

  type byte = b: int | 0 <= b < 256

  /** A band held in memory, as a sequence of rows. */
  type Band = seq<seq<byte>>

  /** The back end's error number for "access window out of range". */
  const IllegalArg: int := 5

  /** The back end's error number for a call on a band that does not
      exist. */
  const ObjectNull: int := 10

  predicate IsBand(b: Band, rows: int, cols: int)
  {
    |b| == rows && forall i :: 0 <= i < |b| ==> |b[i]| == cols
  }

  function Filled(n: nat, v: byte): (s: seq<byte>)
    ensures |s| == n
    ensures forall i :: 0 <= i < n ==> s[i] == v
  {
    seq(n, _ => v)
  }

  /** A freshly created band: every pixel 0. */
  function Blank(rows: nat, cols: nat): (b: Band)
    ensures IsBand(b, rows, cols)
    ensures forall i, j :: 0 <= i < rows && 0 <= j < cols ==> b[i][j] == 0
  {
    seq(rows, _ => Filled(cols, 0))
  }

  /** `data := make([]byte, n)` and the loop setting every byte to `v`. */
  method FillBuffer(n: nat, v: byte) returns (data: array<byte>)
    ensures fresh(data)
    ensures data[..] == Filled(n, v)
  {
    data := new byte[n];
    var d := 0;
    while d < n
      invariant 0 <= d <= n
      invariant forall k :: 0 <= k < d ==> data[k] == v
    {
      data[d] := v;
      d := d + 1;
    }
  }

  /** The slice `buf` after the back end has stored the pixels `d` in it
      from its start: a Go slice keeps its length. */
  function Overlay(buf: seq<byte>, d: seq<byte>): (s: seq<byte>)
    ensures |s| == |buf|
    ensures forall i :: 0 <= i < |buf| ==> s[i] == if i < |d| then d[i] else buf[i]
  {
    seq(|buf|, i requires 0 <= i < |buf| => if i < |d| then d[i] else buf[i])
  }

  /** Position of row `r`, column `c` of a `w` x `h` block in its flat
      buffer. */
  function BlockIndex(r: int, c: int, w: int, h: int): (k: nat)
    requires 0 <= r < h && 0 <= c < w
    ensures k < w * h
  {
    MulMono(r, h - 1, w);
    r * w + c
  }

  predicate InBlock(i: int, j: int, wx: int, wy: int, wxs: int, wys: int)
  {
    wy <= i < wy + wys && wx <= j < wx + wxs
  }

  /** Band `b` with the `wxs` x `wys` block at column `wx`, row `wy`
      replaced by the flat buffer `src`. */
  function Paste(b: Band, wx: int, wy: int, wxs: int, wys: int, src: seq<byte>): (p: Band)
    requires |src| >= wxs * wys
  {
    seq(|b|, i requires 0 <= i < |b| =>
      seq(|b[i]|, j requires 0 <= j < |b[i]| =>
        if InBlock(i, j, wx, wy, wxs, wys) then src[BlockIndex(i - wy, j - wx, wxs, wys)] else b[i][j]))
  }

  /** RasterIO write of the flat buffer `src` (`wxs` x `wys`) into band `b`
      of a `rows` x `cols` dataset at column `wx`, row `wy`. */
  function WriteBlock(b: Band, rows: int, cols: int, wx: int, wy: int, wxs: int, wys: int,
                      src: seq<byte>): Result<Band>
  {
    if wxs < 1 || wys < 1 then Success(b)
    else if wx < 0 || wy < 0 || wx + wxs > cols || wy + wys > rows then Failure(GdalError(IllegalArg))
    else if |src| < wxs * wys then Failure(Undefined("native read past the end of a Go slice"))
    else Success(Paste(b, wx, wy, wxs, wys, src))
  }

  /** RasterIO read of the window (`rx`, `ry`, `rxs` x `rys`) of a
      `width` x `height` band into the slice `buf`, resampled to
      `wxs` x `wys`; `pixels` is what the back end delivers for it. */
  function ReadBlock(width: int, height: int, rx: int, ry: int, rxs: int, rys: int,
                     wxs: int, wys: int, buf: seq<byte>, pixels: Result<seq<byte>>): Result<seq<byte>>
  {
    if rxs < 1 || rys < 1 || wxs < 1 || wys < 1 then Success(buf)
    else if rx < 0 || ry < 0 || rx + rxs > width || ry + rys > height then Failure(GdalError(IllegalArg))
    else match pixels
      case Failure(e) => Failure(e)
      case Success(d) =>
        if |buf| < wxs * wys then Failure(Undefined("native write past the end of a Go slice"))
        else Success(Overlay(buf, d))
  }

  /** The flat `w` x `h` block at column `x`, row `y` of a band, read back
      row by row. */
  function Crop(b: Band, rows: int, cols: int, x: int, y: int, w: int, h: int): (s: seq<byte>)
    requires IsBand(b, rows, cols)
    requires 0 <= x && 0 <= y && 0 < w && 0 <= h && x + w <= cols && y + h <= rows
    ensures |s| == w * h
  {
    seq(w * h, k requires 0 <= k < w * h => (DivBelow(k, w, h); b[y + k / w][x + k % w]))
  }

  lemma DivBelow(k: int, w: int, h: int)
    requires 0 <= k < w * h && 0 < w
    ensures 0 <= k / w < h
  {
  }

  /** A successful block write changes the block and nothing else: inside
      it the band holds the buffer's pixels in row order, outside it the
      old pixels, and the band keeps its shape. */
  lemma WriteBlockFrame(b: Band, rows: int, cols: int, wx: int, wy: int, wxs: int, wys: int, src: seq<byte>)
    requires IsBand(b, rows, cols)
    requires WriteBlock(b, rows, cols, wx, wy, wxs, wys, src).Success?
    ensures var p := WriteBlock(b, rows, cols, wx, wy, wxs, wys, src).value;
            IsBand(p, rows, cols)
            && (forall i, j :: 0 <= i < rows && 0 <= j < cols && !InBlock(i, j, wx, wy, wxs, wys) ==> p[i][j] == b[i][j])
            && (forall i, j :: 0 <= i < rows && 0 <= j < cols && InBlock(i, j, wx, wy, wxs, wys) ==>
                  p[i][j] == src[BlockIndex(i - wy, j - wx, wxs, wys)])
  {
    if 1 <= wxs && 1 <= wys {
      var p := Paste(b, wx, wy, wxs, wys, src);
      assert IsBand(p, rows, cols);
      forall i, j | 0 <= i < rows && 0 <= j < cols
        ensures p[i][j] == if InBlock(i, j, wx, wy, wxs, wys) then src[BlockIndex(i - wy, j - wx, wxs, wys)] else b[i][j]
      {
      }
    }
  }

  /** Reading back the block just written gives the buffer that was
      written. */
  lemma {:induction false} WriteThenCrop(b: Band, rows: int, cols: int, wx: int, wy: int, wxs: int, wys: int, src: seq<byte>)
    requires IsBand(b, rows, cols)
    requires 1 <= wxs && 1 <= wys && |src| == wxs * wys
    requires 0 <= wx && 0 <= wy && wx + wxs <= cols && wy + wys <= rows
    ensures WriteBlock(b, rows, cols, wx, wy, wxs, wys, src).Success?
    ensures Crop(WriteBlock(b, rows, cols, wx, wy, wxs, wys, src).value, rows, cols, wx, wy, wxs, wys) == src
  {
    WriteBlockFrame(b, rows, cols, wx, wy, wxs, wys, src);
    var p := WriteBlock(b, rows, cols, wx, wy, wxs, wys, src).value;
    var s := Crop(p, rows, cols, wx, wy, wxs, wys);
    forall k | 0 <= k < |s|
      ensures s[k] == src[k]
    {
      var r, c := k / wxs, k % wxs;
      DivBelow(k, wxs, wys);
      assert k == r * wxs + c;
      assert s[k] == p[wy + r][wx + c];
      assert InBlock(wy + r, wx + c, wx, wy, wxs, wys);
    }
  }

  /** The bands of an in-memory dataset held as a `bands` x `rows` x `cols`
      array. */
  function Bands(a: array3<byte>): (s: seq<Band>)
    reads a
    ensures |s| == a.Length0
    ensures forall k :: 0 <= k < a.Length0 ==> IsBand(s[k], a.Length1, a.Length2)
    ensures forall k :: 0 <= k < a.Length0 ==>
              |s[k]| == a.Length1 && forall i :: 0 <= i < a.Length1 ==> |s[k][i]| == a.Length2
    ensures forall k, i, j :: 0 <= k < a.Length0 && 0 <= i < a.Length1 && 0 <= j < a.Length2 ==>
              s[k][i][j] == a[k, i, j]
  {
    seq(a.Length0, k requires 0 <= k < a.Length0 reads a =>
      seq(a.Length1, i requires 0 <= i < a.Length1 reads a =>
        seq(a.Length2, j requires 0 <= j < a.Length2 reads a => a[k, i, j])))
  }

  /** The bands of a freshly created `n`-band dataset. */
  function BlankBands(n: nat, rows: nat, cols: nat): (s: seq<Band>)
    ensures |s| == n
    ensures forall k :: 0 <= k < n ==> s[k] == Blank(rows, cols)
  {
    seq(n, _ => Blank(rows, cols))
  }

  /** RasterIO block write into band `k` (0-based) of a dataset whose
      bands are `bands`: a band number outside the dataset names no band,
      and the back end refuses the call on it. */
  function WriteBandBlock(bands: seq<Band>, rows: int, cols: int, k: int, wx: int, wy: int,
                          wxs: int, wys: int, src: seq<byte>): (r: Result<seq<Band>>)
    ensures r.Success? <==> 0 <= k < |bands| && WriteBlock(bands[k], rows, cols, wx, wy, wxs, wys, src).Success?
    ensures r.Success? ==> |r.value| == |bands|
                           && r.value[k] == WriteBlock(bands[k], rows, cols, wx, wy, wxs, wys, src).value
                           && forall m :: 0 <= m < |bands| && m != k ==> r.value[m] == bands[m]
  {
    if k < 0 || k >= |bands| then Failure(GdalError(ObjectNull))
    else
      match WriteBlock(bands[k], rows, cols, wx, wy, wxs, wys, src)
      case Failure(e) => Failure(e)
      case Success(b) => Success(bands[k := b])
  }

  /** A dataset created in memory is all zeros. */
  lemma BandsOfBlank(a: array3<byte>)
    requires forall k, i, j :: 0 <= k < a.Length0 && 0 <= i < a.Length1 && 0 <= j < a.Length2 ==> a[k, i, j] == 0
    ensures Bands(a) == BlankBands(a.Length0, a.Length1, a.Length2)
  {
    var s, b := Bands(a), BlankBands(a.Length0, a.Length1, a.Length2);
    forall k | 0 <= k < a.Length0
      ensures s[k] == b[k]
    {
      forall i | 0 <= i < a.Length1
        ensures s[k][i] == b[k][i]
      {
        assert forall j :: 0 <= j < a.Length2 ==> s[k][i][j] == b[k][i][j];
      }
    }
  }

  /** A RasterIO block write into band `k` of an in-memory dataset,
      copying the buffer row by row. */
  method WriteBandRegion(a: array3<byte>, k: int, wx: int, wy: int, wxs: int, wys: int, src: seq<byte>)
    returns (err: Option<Error>)
    modifies a
    ensures match WriteBandBlock(old(Bands(a)), a.Length1, a.Length2, k, wx, wy, wxs, wys, src)
            case Success(s) => err.None? && Bands(a) == s
            case Failure(e) => err == Some(e) && Bands(a) == old(Bands(a))
  {
    if k < 0 || k >= a.Length0 {
      return Some(GdalError(ObjectNull));
    }
    if wxs < 1 || wys < 1 {
      return None;
    }
    if wx < 0 || wy < 0 || wx + wxs > a.Length2 || wy + wys > a.Length1 {
      return Some(GdalError(IllegalArg));
    }
    if |src| < wxs * wys {
      return Some(Undefined("native read past the end of a Go slice"));
    }
    ghost var before := Bands(a);
    var r := 0;
    while r < wys
      invariant 0 <= r <= wys
      invariant forall b, i, j :: 0 <= b < a.Length0 && 0 <= i < a.Length1 && 0 <= j < a.Length2 ==>
                  a[b, i, j] == if b == k && InBlock(i, j, wx, wy, wxs, r)
                                then src[BlockIndex(i - wy, j - wx, wxs, wys)]
                                else before[b][i][j]
    {
      var c := 0;
      while c < wxs
        invariant 0 <= c <= wxs
        invariant forall b, i, j :: 0 <= b < a.Length0 && 0 <= i < a.Length1 && 0 <= j < a.Length2 ==>
                    a[b, i, j] == if b == k && (InBlock(i, j, wx, wy, wxs, r) || (i == wy + r && wx <= j < wx + c))
                                  then src[BlockIndex(i - wy, j - wx, wxs, wys)]
                                  else before[b][i][j]
      {
        a[k, wy + r, wx + c] := src[BlockIndex(r, c, wxs, wys)];
        c := c + 1;
      }
      r := r + 1;
    }
    var p := before[k := Paste(before[k], wx, wy, wxs, wys, src)];
    forall b | 0 <= b < a.Length0
      ensures Bands(a)[b] == p[b]
    {
      forall i | 0 <= i < a.Length1
        ensures Bands(a)[b][i] == p[b][i]
      {
        assert forall j :: 0 <= j < a.Length2 ==> Bands(a)[b][i][j] == p[b][i][j];
      }
    }
    err := None;
  }
}

/**
  The read/write window of one tile (`pkg/tile/windows.go`): which pixel
  rectangle of the source raster to read, and where in the oversampled
  `4 * TileSize` square buffer the pixels read land.  Each axis is computed
  and clipped on its own; a tile hanging over the near (west/north) or far
  (east/south) raster edge has its read rectangle cut back to the raster
  and its write rectangle shrunk by the same ratio.

  Go converts a float to `int` by truncation toward zero (`Trunc`).  A
  division by zero in the source (a zero pixel size in the transform, or a
  clip against a read size of 0) yields an infinite or NaN float whose
  conversion to `int` has no defined value; the model returns `None` for
  the whole window exactly then.
*/
module Windows {
  import opened Base
  import opened GdalRaster

  /** The write buffer is this many tiles wide and high. */
  const Oversample: int := 4

  datatype Window = Window(rx: int, ry: int, rxSize: int, rySize: int,
                           wx: int, wy: int, wxSize: int, wySize: int)

  datatype WindowsReadBox = WindowsReadBox(minx: real, maxy: real, maxx: real, miny: real,
                                           tileSize: int, height: int, width: int,
                                           geoTransform: GeoTransform)

  /** One axis of a window: read origin and size in source pixels, write
      origin and size in buffer pixels. */
  datatype Span = Span(r: int, rSize: int, w: int, wSize: int)

  /** The unclipped span of the tile edge `lo..hi` (meters) along an axis
      whose transform origin is `origin` and pixel size `pixel`. */
  function StartSpan(lo: real, hi: real, origin: real, pixel: real, tileSize: int): (s: Option<Span>)
    ensures s.Some? <==> pixel != 0.0
    ensures s.Some? ==> s.value.w == 0 && s.value.wSize == Oversample * tileSize
  {
    if pixel == 0.0 then None
    else Some(Span(Trunc((lo - origin) / pixel + 0.001), Trunc((hi - lo) / pixel + 0.5),
                   0, Oversample * tileSize))
  }

  /** The read origin is the tile edge's pixel offset, nudged by 0.001 and
      truncated; the read size is the edge length in pixels rounded half
      up (truncated toward zero when it is negative). */
  lemma StartSpanRounding(lo: real, hi: real, origin: real, pixel: real, tileSize: int)
    requires pixel != 0.0
    ensures var s := StartSpan(lo, hi, origin, pixel, tileSize).value;
            var q := (lo - origin) / pixel;
            (q >= -0.001 ==> s.r as real - 0.001 <= q < s.r as real + 0.999)
            && (q < -0.001 ==> s.r as real - 1.001 < q <= s.r as real - 0.001)
    ensures var s := StartSpan(lo, hi, origin, pixel, tileSize).value;
            var n := (hi - lo) / pixel;
            (n >= -0.5 ==> s.rSize as real - 0.5 <= n < s.rSize as real + 0.5)
            && (n < -0.5 ==> s.rSize as real - 1.5 < n <= s.rSize as real - 0.5)
  {
  }

  /** A tile edge that sits `k` whole pixels past the origin and spans `n`
      whole pixels reads from pixel `k` for exactly `n` pixels. */
  lemma StartSpanOnPixelGrid(lo: real, hi: real, origin: real, pixel: real, tileSize: int, k: nat, n: nat)
    requires pixel != 0.0
    requires lo - origin == k as real * pixel && hi - lo == n as real * pixel
    ensures StartSpan(lo, hi, origin, pixel, tileSize) == Some(Span(k, n, 0, Oversample * tileSize))
  {
    assert (lo - origin) / pixel == k as real;
    assert (hi - lo) / pixel == n as real;
  }

  /** `int(float64(size) * (num / float64(den)))`: a size scaled by a ratio
      and truncated toward zero. */
  function ScaleBy(size: int, num: real, den: int): int
    requires den != 0
  {
    Trunc(size as real * (num / den as real))
  }

  /** Clip at the near edge: a negative read origin is moved to 0, the read
      size loses the pixels cut off and the write rectangle starts the same
      fraction of the way in. */
  function ClipNear(s: Span): Option<Span>
  {
    if s.r >= 0 then Some(s)
    else if s.rSize == 0 then None
    else
      var shift := AbsReal(s.r as real);
      var w := ScaleBy(s.wSize, shift, s.rSize);
      Some(Span(0, s.rSize - ScaleBy(s.rSize, shift, s.rSize), w, s.wSize - w))
  }

  /** Clip at the far edge: the read size is cut to the raster's extent and
      the write size scaled by the fraction kept. */
  function ClipFar(s: Span, extent: int): Option<Span>
  {
    if s.r + s.rSize <= extent then Some(s)
    else if s.rSize == 0 then None
    else
      Some(Span(s.r, extent - s.r, s.w, ScaleBy(s.wSize, (extent - s.r) as real, s.rSize)))
  }

  function ClipAxis(s: Span, extent: int): Option<Span>
  {
    match ClipNear(s)
    case None => None
    case Some(n) => ClipFar(n, extent)
  }

  function AxisSpan(lo: real, hi: real, origin: real, pixel: real, tileSize: int, extent: int): Option<Span>
  {
    match StartSpan(lo, hi, origin, pixel, tileSize)
    case None => None
    case Some(s) => ClipAxis(s, extent)
  }

  function XStart(box: WindowsReadBox): Option<Span>
  {
    StartSpan(box.minx, box.maxx, box.geoTransform[0], box.geoTransform[1], box.tileSize)
  }

  function YStart(box: WindowsReadBox): Option<Span>
  {
    StartSpan(box.maxy, box.miny, box.geoTransform[3], box.geoTransform[5], box.tileSize)
  }

  function XSpan(box: WindowsReadBox): Option<Span>
  {
    AxisSpan(box.minx, box.maxx, box.geoTransform[0], box.geoTransform[1], box.tileSize, box.width)
  }

  function YSpan(box: WindowsReadBox): Option<Span>
  {
    AxisSpan(box.maxy, box.miny, box.geoTransform[3], box.geoTransform[5], box.tileSize, box.height)
  }

  /** The window of `ReadBox`, assembled from the two independent axes. */
  function ReadBoxSpec(box: WindowsReadBox): Option<Window>
  {
    match (XSpan(box), YSpan(box))
    case (Some(x), Some(y)) => Some(Window(x.r, y.r, x.rSize, y.rSize, x.w, y.w, x.wSize, y.wSize))
    case _ => None
  }

  /** The read rectangle of a computed window lies inside the raster. */
  predicate ReadInside(w: Window, width: int, height: int)
  {
    0 <= w.rx && w.rx + w.rxSize <= width && 0 <= w.ry && w.ry + w.rySize <= height
  }

  /** The window calculator, updating its locals step by step as the source
      does; the x and y axes go through the same clipping steps. */
  method ReadBox(box: WindowsReadBox) returns (win: Option<Window>)
    ensures win == ReadBoxSpec(box)
    ensures win.Some? ==> ReadInside(win.value, box.width, box.height)
  {
    var geoTransform := box.geoTransform;
    if geoTransform[1] == 0.0 || geoTransform[5] == 0.0 {
      return None;
    }
    var rasterXSize := box.width;
    var rasterYSize := box.height;
    var rx := Trunc((box.minx - geoTransform[0]) / geoTransform[1] + 0.001);
    var ry := Trunc((box.maxy - geoTransform[3]) / geoTransform[5] + 0.001);
    var rxSize := Trunc((box.maxx - box.minx) / geoTransform[1] + 0.5);
    var rySize := Trunc((box.miny - box.maxy) / geoTransform[5] + 0.5);

    var wxSize, wySize := Oversample * box.tileSize, Oversample * box.tileSize;
    assert Span(rx, rxSize, 0, wxSize) == XStart(box).value;
    assert Span(ry, rySize, 0, wySize) == YStart(box).value;

    var x := ClipSteps(rx, rxSize, 0, wxSize, rasterXSize);
    if x.None? {
      return None;
    }
    var y := ClipSteps(ry, rySize, 0, wySize, rasterYSize);
    if y.None? {
      return None;
    }
    var xs, ys := x.value, y.value;
    win := Some(Window(xs.r, ys.r, xs.rSize, ys.rSize, xs.w, ys.w, xs.wSize, ys.wSize));
    ReadBoxInsideRaster(box);
  }

  /** The clipping steps of one axis: the near edge, then the far edge.
      `None` where the source divides by a zero read size. */
  method ClipSteps(r0: int, rSize0: int, w0: int, wSize0: int, extent: int) returns (c: Option<Span>)
    ensures c == ClipAxis(Span(r0, rSize0, w0, wSize0), extent)
  {
    var r, rSize, w, wSize := r0, rSize0, w0, wSize0;
    ghost var s := Span(r, rSize, w, wSize);
    if r < 0 {
      if rSize == 0 {
        return None;
      }
      var shift := AbsReal(r as real);
      w := ScaleBy(wSize, shift, rSize);
      wSize := wSize - w;
      rSize := rSize - ScaleBy(rSize, shift, rSize);
      r := 0;
    }
    assert ClipNear(s) == Some(Span(r, rSize, w, wSize));
    if r + rSize > extent {
      if rSize == 0 {
        return None;
      }
      wSize := ScaleBy(wSize, (extent - r) as real, rSize);
      rSize := extent - r;
    }
    c := Some(Span(r, rSize, w, wSize));
  }

  /** After clipping, the read span of an axis starts inside the raster and
      ends at or before its far edge. */
  lemma ClipAxisInside(s: Span, extent: int)
    requires ClipAxis(s, extent).Some?
    ensures 0 <= ClipAxis(s, extent).value.r
    ensures ClipAxis(s, extent).value.r + ClipAxis(s, extent).value.rSize <= extent
  {
  }

  /** The read rectangle never starts before the raster's origin and never
      passes its far edges. */
  lemma ReadBoxInsideRaster(box: WindowsReadBox)
    ensures ReadBoxSpec(box).Some? ==> ReadInside(ReadBoxSpec(box).value, box.width, box.height)
  {
    if ReadBoxSpec(box).Some? {
      ClipAxisInside(StartSpan(box.minx, box.maxx, box.geoTransform[0], box.geoTransform[1], box.tileSize).value, box.width);
      ClipAxisInside(StartSpan(box.maxy, box.miny, box.geoTransform[3], box.geoTransform[5], box.tileSize).value, box.height);
    }
  }

  /** A span already inside the raster is left alone: the whole buffer is
      written, from its start. */
  lemma InteriorUnclipped(s: Span, extent: int)
    requires 0 <= s.r && s.r + s.rSize <= extent
    ensures ClipAxis(s, extent) == Some(s)
  {
  }

  /** An interior tile (on the x axis) reads its unclipped x span and fills
      the buffer's full width. */
  lemma InteriorTileX(box: WindowsReadBox)
    requires XStart(box).Some?
    requires 0 <= XStart(box).value.r && XStart(box).value.r + XStart(box).value.rSize <= box.width
    ensures XSpan(box).Some?
    ensures XSpan(box).value == XStart(box).value
    ensures XSpan(box).value.w == 0 && XSpan(box).value.wSize == Oversample * box.tileSize
  {
    InteriorUnclipped(XStart(box).value, box.width);
  }

  lemma InteriorTileY(box: WindowsReadBox)
    requires YStart(box).Some?
    requires 0 <= YStart(box).value.r && YStart(box).value.r + YStart(box).value.rSize <= box.height
    ensures YSpan(box).Some?
    ensures YSpan(box).value == YStart(box).value
    ensures YSpan(box).value.w == 0 && YSpan(box).value.wSize == Oversample * box.tileSize
  {
    InteriorUnclipped(YStart(box).value, box.height);
  }

  /** Near-edge clip: the write origin is the cut-off fraction of the write
      size, write origin plus write size is still the full size, and the
      read span loses exactly the `|r|` pixels before the raster. */
  lemma NearClip(s: Span)
    requires s.r < 0 && s.rSize > 0 && s.w == 0
    ensures ClipNear(s).Some?
    ensures ClipNear(s).value.r == 0
    ensures ClipNear(s).value.rSize == s.rSize - AbsInt(s.r)
    ensures ClipNear(s).value.w == Trunc(s.wSize as real * (AbsInt(s.r) as real / s.rSize as real))
    ensures ClipNear(s).value.w + ClipNear(s).value.wSize == s.wSize
  {
    var shift, n := AbsReal(s.r as real), s.rSize as real;
    assert shift == AbsInt(s.r) as real;
    assert n * (shift / n) == shift;
    TruncOfInteger(AbsInt(s.r));
  }

  /** Far-edge clip: the read size becomes what is left of the raster, the
      write size is scaled by the fraction kept, the write origin stays. */
  lemma FarClip(s: Span, extent: int)
    requires s.r + s.rSize > extent && s.rSize != 0
    ensures ClipFar(s, extent).Some?
    ensures ClipFar(s, extent).value.r == s.r
    ensures ClipFar(s, extent).value.rSize == extent - s.r
    ensures ClipFar(s, extent).value.w == s.w
    ensures ClipFar(s, extent).value.wSize
            == Trunc(s.wSize as real * ((extent - s.r) as real / s.rSize as real))
  {
  }

  /** The near clip of a span that reaches into the raster keeps the write
      span inside the buffer and leaves a non-empty read span. */
  lemma NearClipBounds(s: Span)
    requires s.w == 0 && s.wSize >= 0 && s.rSize > 0 && s.r + s.rSize > 0
    ensures ClipNear(s).Some?
    ensures var n := ClipNear(s).value;
            0 <= n.w && 0 <= n.wSize && n.w + n.wSize == s.wSize && n.rSize > 0
            && (n.r == 0 || n.r == s.r) && 0 <= n.r
  {
    if s.r < 0 {
      NearClip(s);
      var k := AbsInt(s.r);
      ScaleDown(s.wSize, k, s.rSize);
      var n := ClipNear(s).value;
      assert n.w == Trunc(s.wSize as real * (k as real / s.rSize as real));
      assert 0 <= n.w <= s.wSize;
      assert n.rSize == s.rSize - k && k == -s.r;
    }
  }

  /** The far clip of a span starting inside the raster only shrinks the
      write size, and leaves a read size that is not negative. */
  lemma FarClipBounds(n: Span, extent: int)
    requires 0 <= n.r <= extent && n.rSize > 0 && n.wSize >= 0
    ensures ClipFar(n, extent).Some?
    ensures var c := ClipFar(n, extent).value;
            c.w == n.w && 0 <= c.wSize <= n.wSize && 0 <= c.rSize
  {
    if n.r + n.rSize > extent {
      FarClip(n, extent);
      ScaleDown(n.wSize, extent - n.r, n.rSize);
    }
  }

  /** For a tile that overlaps the raster along an axis, the clipped write
      span stays inside the buffer and neither size is negative. */
  lemma OverlapStaysInBuffer(s: Span, extent: int, tileSize: int)
    requires tileSize >= 0 && extent >= 0
    requires s.w == 0 && s.wSize == Oversample * tileSize
    requires s.rSize > 0 && s.r < extent && s.r + s.rSize > 0
    ensures ClipAxis(s, extent).Some?
    ensures var c := ClipAxis(s, extent).value;
            0 <= c.w && 0 <= c.wSize && c.w + c.wSize <= Oversample * tileSize && 0 <= c.rSize
  {
    NearClipBounds(s);
    FarClipBounds(ClipNear(s).value, extent);
  }

  /** The x half of the window depends only on the x inputs (and the tile
      size), the y half only on the y inputs. */
  lemma AxesIndependent(b1: WindowsReadBox, b2: WindowsReadBox)
    requires ReadBoxSpec(b1).Some? && ReadBoxSpec(b2).Some?
    requires b1.tileSize == b2.tileSize
    ensures b1.minx == b2.minx && b1.maxx == b2.maxx && b1.width == b2.width
            && b1.geoTransform[0] == b2.geoTransform[0] && b1.geoTransform[1] == b2.geoTransform[1]
            ==> var w1, w2 := ReadBoxSpec(b1).value, ReadBoxSpec(b2).value;
                w1.rx == w2.rx && w1.rxSize == w2.rxSize && w1.wx == w2.wx && w1.wxSize == w2.wxSize
    ensures b1.maxy == b2.maxy && b1.miny == b2.miny && b1.height == b2.height
            && b1.geoTransform[3] == b2.geoTransform[3] && b1.geoTransform[5] == b2.geoTransform[5]
            ==> var w1, w2 := ReadBoxSpec(b1).value, ReadBoxSpec(b2).value;
                w1.ry == w2.ry && w1.rySize == w2.rySize && w1.wy == w2.wy && w1.wySize == w2.wySize
  {
  }
}

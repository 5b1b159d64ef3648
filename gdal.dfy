/**
  The raster description the engine works from: the six-coefficient affine
  geotransform, the pixel size and band count of a (reprojected) dataset,
  and the `Gdal` wrapper that caches them.  The dataset itself is held by
  the raster back end; here it is the record of the values the back end
  reports for it.
*/
module GdalRaster {
  import opened Base
  import opened Mercator

  /** `[originX, pixelWidth, rowRotation, originY, columnRotation, pixelHeight]`. */
  type GeoTransform = gt: seq<real> | |gt| == 6 witness [0.0, 1.0, 0.0, 0.0, 0.0, -1.0]

  /** What the raster back end reports about an opened dataset. */
  datatype Dataset = Dataset(rasterXSize: int, rasterYSize: int, geoTransform: GeoTransform, rasterCount: nat)

  /** The affine map from pixel/line space to georeferenced space. */
  function PixelToGeo(gt: GeoTransform, col: real, row: real): Point
  {
    Point(gt[0] + gt[1] * col + gt[2] * row, gt[3] + gt[4] * col + gt[5] * row)
  }

  /** A north-up transform: no rotation terms. */
  predicate NorthUp(gt: GeoTransform)
  {
    gt[2] == 0.0 && gt[4] == 0.0
  }

  /** The bounds of a raster of `width` x `height` pixels under `gt`,
      as `(minx, miny, maxx, maxy)`. */
  function BoundsOf(gt: GeoTransform, width: int, height: int): (b: Bounds)
    ensures NorthUp(gt) ==> Point(b.minx, b.maxy) == PixelToGeo(gt, 0.0, 0.0)
    ensures NorthUp(gt) ==> Point(b.maxx, b.miny) == PixelToGeo(gt, width as real, height as real)
  {
    var minx := gt[0];
    var maxy := gt[3];
    assert NorthUp(gt) ==> gt[2] * height as real == 0.0 && gt[4] * width as real == 0.0;
    Bounds(minx, maxy + gt[5] * height as real, minx + gt[1] * width as real, maxy)
  }

  /** The bounds computed straight from a dataset's transform and size. */
  function TileBoundsByTransform(ds: Dataset): Bounds
  {
    BoundsOf(ds.geoTransform, ds.rasterXSize, ds.rasterYSize)
  }

  /** For a north-up raster with positive pixel width, negative pixel height
      and positive size, the bounds are a proper box. */
  lemma BoundsOrdered(gt: GeoTransform, width: int, height: int)
    requires gt[1] > 0.0 && gt[5] < 0.0
    requires width > 0 && height > 0
    ensures BoundsOf(gt, width, height).minx < BoundsOf(gt, width, height).maxx
    ensures BoundsOf(gt, width, height).miny < BoundsOf(gt, width, height).maxy
  {
    assert gt[1] * width as real > 0.0;
    assert gt[5] * height as real < 0.0;
  }

  /** Every pixel corner of a north-up raster oriented as above lies inside
      its bounds. */
  lemma PixelInsideBounds(gt: GeoTransform, width: int, height: int, col: real, row: real)
    requires NorthUp(gt) && gt[1] > 0.0 && gt[5] < 0.0
    requires 0.0 <= col <= width as real && 0.0 <= row <= height as real
    ensures var b, p := BoundsOf(gt, width, height), PixelToGeo(gt, col, row);
            b.minx <= p.x <= b.maxx && b.miny <= p.y <= b.maxy
  {
    assert col * gt[1] <= width as real * gt[1] by {
      assert (width as real - col) * gt[1] >= 0.0;
    }
    assert row * gt[5] >= height as real * gt[5] by {
      assert (height as real - row) * gt[5] <= 0.0;
    }
    assert col * gt[1] >= 0.0;
    assert row * gt[5] <= 0.0;
  }

  /** The cached view of a dataset (`pkg/gdal/gdal.go`): the fields are
      zero until `AdvanceCalculate` copies the dataset's values into them. */
  class Gdal {
    var Height: int
    var Width: int
    var GeoTransform: GeoTransform
    var BandCount: int
    const dataset: Dataset
    /** Whether the dataset handle has been released. */
    var closed: bool

    constructor (ds: Dataset)
      ensures dataset == ds && !closed
      ensures Height == 0 && Width == 0 && BandCount == 0
      ensures GeoTransform == [0.0, 0.0, 0.0, 0.0, 0.0, 0.0]
    {
      dataset := ds;
      Height, Width, BandCount := 0, 0, 0;
      GeoTransform := [0.0, 0.0, 0.0, 0.0, 0.0, 0.0];
      closed := false;
    }

    /** Releases the dataset; the cached values stay. */
    method Close()
      modifies this
      ensures closed
      ensures Height == old(Height) && Width == old(Width)
      ensures GeoTransform == old(GeoTransform) && BandCount == old(BandCount)
    {
      closed := true;
    }

    function GetHeight(): int
      reads this
    {
      Height
    }

    function GetWidth(): int
      reads this
    {
      Width
    }

    function GetGeoTransform(): GeoTransform
      reads this
    {
      GeoTransform
    }

    function RasterCount(): int
      reads this
    {
      BandCount
    }

    /** The bounds from the cached transform and size. */
    function GetBoundsByTransform(): (b: Bounds)
      reads this
      ensures b.minx == GeoTransform[0] && b.maxy == GeoTransform[3]
      ensures b.maxx - b.minx == GeoTransform[1] * Width as real
      ensures b.miny - b.maxy == GeoTransform[5] * Height as real
    {
      BoundsOf(GetGeoTransform(), GetWidth(), GetHeight())
    }

    /** Copies size, transform and band count from the dataset; afterwards
        every getter reports the dataset's own value and the cached bounds
        agree with the bounds computed from the dataset. */
    method AdvanceCalculate()
      modifies this
      ensures GetHeight() == dataset.rasterYSize
      ensures GetWidth() == dataset.rasterXSize
      ensures GetGeoTransform() == dataset.geoTransform
      ensures RasterCount() == dataset.rasterCount
      ensures GetBoundsByTransform() == TileBoundsByTransform(dataset)
      ensures closed == old(closed)
    {
      Height := dataset.rasterYSize;
      Width := dataset.rasterXSize;
      GeoTransform := dataset.geoTransform;
      BandCount := dataset.rasterCount;
    }
  }

  /** `NewGdal`: opening the file either fails, and the error is passed on,
      or yields a wrapper around the opened dataset. */
  method NewGdal(openResult: Result<Dataset>) returns (g: Gdal?, err: Option<Error>)
    ensures openResult.Failure? ==> g == null && err == Some(openResult.error)
    ensures openResult.Success? ==> g != null && fresh(g) && err.None? && g.dataset == openResult.value
    ensures openResult.Success? ==> g.GetWidth() == 0 && g.GetHeight() == 0 && g.RasterCount() == 0 && !g.closed
  {
    if openResult.Failure? {
      return null, Some(openResult.error);
    }
    g := new Gdal(openResult.value);
    err := None;
  }
}

/**
  The raster library and the file system as the engine sees them: every
  call is an opaque operation that may fail, given here as the answer it
  gives.  Nothing about their internals is modelled; a `Backend` value
  fixes one set of answers for a whole run.
*/
module RasterBackend {
  import opened Base
  import opened Pixels
  import opened GdalRaster
  import opened Windows

  /** A warped virtual dataset and the temporary file it was saved to. */
  datatype Warped = Warped(ds: Dataset, filename: string)

  datatype Backend = Backend(
    /** Opening a raster file read-only. */
    open: string -> Result<Dataset>,
    /** Warping a dataset to Web Mercator into a temporary VRT file. */
    warp: Dataset -> Result<Warped>,
    /** Whether a path exists. */
    stat: string -> Option<Error>,
    /** Looking up the in-memory driver and the PNG driver. */
    memDriver: Option<Error>,
    pngDriver: Option<Error>,
    /** The pixels a read of band `k` (1-based) of a dataset over a
        window delivers, resampled to the window's write size. */
    pixels: (Dataset, int, Window) -> Result<seq<byte>>,
    /** Average-downsampling one band into a 256 x 256 band. */
    regenerate: Band -> Option<Error>)
}

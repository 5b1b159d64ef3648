# tile_server tile pyramid engine — a Dafny model

tile_server cuts one large georeferenced raster into a Web-Mercator tile
pyramid. The pyramid is a tree of 256 x 256 PNG tiles named
`<outFolder>/<z>/<x>/<row>.png`. Row is the tile-grid `y` in XYZ style, or
`2^z - y - 1` in TMS style.

This project models the engine's core and proves properties about it:

- the spherical-Mercator arithmetic: metres, pixels and tiles, resolution per
  zoom, and tile bounds;
- the affine-transform bounds of the reprojected raster and the `Gdal` cache
  that holds them;
- the per-tile read window:
  - where to read in the source raster;
  - where the read lands in the 1024 x 1024 query buffer;
  - how both are clipped at the raster edges;
- the planning pass (`GenerateGdalReadWindows`), which computes the tile range
  of every zoom level and one tile id per tile, each with its file name and
  window;
- the middleware chains (`Interceptor`, `ReadExec`, `Execution`), which
  compose the per-tile steps;
- the base-tile read (`Read`, `TileToPNG`);
- the overview pass, which builds every parent tile from its four children;
- the second engine in `pkg/tile_gdal`:
  - `OpenTile`, `GeoQuery` and `TileRange`;
  - `MakeTileJobInfo`, which produces the job list;
  - `GenerateBaseTile`, which runs it;
  - the `TileRead` job;
- the command's chain `NewTile(...).GenerateGdalReadWindows().CuttingToImg().Close()`.

The model treats the raster library as a value, the `Backend` (backend.dfy).
The backend is a set of functions:

- opening a file;
- the warp to EPSG:3857;
- the per-band block read;
- the overview downsampling;
- the in-memory and PNG driver lookups;
- the existence test on a directory.

Each of these functions returns either a result or an error. Pixel buffers are
sequences of bytes, and a band is a row-major grid of bytes.

The model follows two rules for Go's runtime:

- A Go panic, such as an index out of range, a nil dereference or a bad slice
  length, becomes the error `Panic(reason)`.
- Behaviour that Go leaves to native code, such as a float-to-int conversion
  of infinity or a native write past the end of a slice, becomes
  `Undefined(reason)`.

Go's `float64` is modelled as `real`, and the `int(...)` conversion as
truncation toward zero (`Base.Trunc`). The `%` on ints takes the sign of the
dividend (`Base.GoRem`).

Modules:

- base.dfy: shared types and integer helpers.
- mercator.dfy: `pkg/gdal/mercator.go`.
- gdal.dfy: `pkg/gdal/gdal.go`.
- backend.dfy: the raster library as a value.
- pixels.dfy: bands and block writes.
- grid.dfy: tile ranges and their row-major enumeration.
- paths.dfy: tile file names.
- windows.dfy: `pkg/tile/windows.go`.
- chain.dfy: the middleware composition.
- tile_ids.dfy: `pkg/tile/tile_ids.go`.
- tiles.dfy: `pkg/tile/tiles.go` and `tiles_types.go`.
- overview.dfy: `pkg/tile/tiles_overview.go`.
- job.dfy: `pkg/tile_gdal/job.go`.
- tile_gdal.dfy: `pkg/tile_gdal/tile.go`.
- cmd.dfy: the command chain of `cmd/tile.go`.

## Model

| member | source | states |
|---|---|---|
| Base.GoRem | pkg/tile/tiles_overview.go:109-118 | Go's remainder: takes the sign of the dividend, is smaller than the divisor in magnitude, and agrees with the mathematical remainder for non-negative operands |
| Base.Trunc | pkg/tile/windows.go:35-39 | `int(f)` truncates toward zero: for f >= 0 the result is the floor, for f < 0 it is the ceiling |
| Base.Ceil | pkg/gdal/mercator.go:75-76 | `math.Ceil`: the least integer not below r |
| Mercator.DefaultMercator | pkg/gdal/mercator.go:31-37 | tile size 256, positive initial resolution, and initial resolution times tile size equal to the world width `2 * originShift` |
| Mercator.ApplyOptionsTileSize | pkg/gdal/mercator.go:13-17 | after `NewMercator(opts...)` the tile size is the last `WithTileSize` given, or the default when none is given |
| Mercator.ApplyOptionsOriginShift | pkg/gdal/mercator.go:19-23 | the same for `WithOriginShift` |
| Mercator.ApplyOptionsInitialResolution | pkg/gdal/mercator.go:25-29 | the same for `WithInitialResolution` |
| Mercator.Resolution | pkg/gdal/mercator.go:47-49 | the resolution times `2^zoom` is the initial resolution, and it is positive when the initial resolution is |
| Mercator.ResolutionHalves | pkg/gdal/mercator.go:47-49 | each zoom level halves the resolution |
| Mercator.MetersToPixels | pkg/gdal/mercator.go:64-69 | the pixel coordinate times the resolution is the metre coordinate plus the origin shift |
| Mercator.MetersPixelsRoundTrip | pkg/gdal/mercator.go:106-111 | `PixelsToMeters(MetersToPixels(m))` is m |
| Mercator.PixelsMetersRoundTrip | pkg/gdal/mercator.go:64-69 | `MetersToPixels(PixelsToMeters(p))` is p |
| Mercator.PixelToTileIndex | pkg/gdal/mercator.go:75-76 | `ceil(p / tileSize) - 1` is the k with k < p/tileSize <= k+1 |
| Mercator.PixelsToTile | pkg/gdal/mercator.go:74-78 | both coordinates of the tile satisfy that bracket |
| Mercator.PixelToTileIndexIff | pkg/gdal/mercator.go:75-76 | the tile index is k exactly when k < p/tileSize <= k+1, in both directions |
| Mercator.PixelOnEdge | pkg/gdal/mercator.go:75-76 | a pixel on the edge `k * tileSize` belongs to tile k-1, not k |
| Mercator.PixelZeroIsTileMinusOne | pkg/gdal/mercator.go:75-76 | pixel 0 maps to tile -1, which the planning clamp later lifts to 0 |
| Mercator.PixelToTileIndexMonotone | pkg/gdal/mercator.go:75-76 | the tile index does not decrease as the pixel grows |
| Mercator.MeterToPixelMonotone | pkg/gdal/mercator.go:64-69 | with positive resolution, metres-to-pixels keeps order |
| Mercator.MeterToTileMonotone | pkg/gdal/mercator.go:55-59 | `MeterToTile` keeps order on each axis, so the tile of the bounds' minimum corner is never beyond that of the maximum corner |
| Mercator.TileEdges | pkg/gdal/mercator.go:100-104 | the edges of tile (tx, ty) are its pixel edges scaled by the resolution less the origin shift |
| Mercator.TileBoundsSize | pkg/gdal/mercator.go:100-104 | each tile spans `tileSize * resolution` metres on both axes, and has positive extent |
| Mercator.TileBoundsAdjacent | pkg/gdal/mercator.go:100-104 | neighbouring tiles share their common edge |
| Mercator.PixelInTile | pkg/gdal/mercator.go:55-59 | a metre value strictly inside tile k's span, or on its far edge, maps to tile k |
| Mercator.MeterToTileInverse | pkg/gdal/mercator.go:55-59 | `MeterToTile` inverts `TileBounds`: every point of a tile's half-open bounds maps back to that tile |
| Mercator.DefaultWorldTile | pkg/gdal/mercator.go:31-37 | with the defaults, tile (0, 0) at zoom 0 covers the whole square world `[-originShift, originShift]^2` |
| GdalRaster.BoundsOf | pkg/gdal/gdal.go:90-97 | for a north-up transform, the corners of the bounds are the images of pixel (0, 0) and pixel (width, height) |
| GdalRaster.BoundsOrdered | pkg/gdal/gdal.go:90-97 | positive pixel width, negative pixel height and a positive size give a proper box |
| GdalRaster.PixelInsideBounds | pkg/gdal/gdal.go:90-97 | every pixel position of a north-up raster lies inside its bounds |
| GdalRaster.NewGdal | pkg/gdal/gdal.go:107-116 | a failed open passes its error on with no wrapper; otherwise a fresh wrapper around the dataset, whose cached values are still zero |
| GdalRaster.Gdal.constructor | pkg/gdal/gdal.go:99-105 | a fresh wrapper holds its dataset with all cached values zero |
| GdalRaster.Gdal.AdvanceCalculate | pkg/gdal/gdal.go:146-152 | afterwards every getter reports the dataset's own height, width, transform and band count, and the cached bounds equal the bounds computed from the dataset |
| GdalRaster.Gdal.GetBoundsByTransform | pkg/gdal/gdal.go:130-140 | minx and maxy are the transform's origin; the width and height are pixel size times raster size |
| GdalRaster.Gdal.Close | pkg/gdal/gdal.go:154-156 | the dataset is released, and the cached values stay |
| Grid.GridShape | pkg/tile/tiles.go:105-106 | the nested x/y loops visit `Count(x) * Count(y)` cells; cell i is `(x0 + i / ny, y0 + i % ny)`, so x is the outer loop |
| Grid.GridMembership | pkg/tile/tiles.go:105-106 | a cell is visited exactly when it lies in the range, in both directions |
| Grid.GridOrdered | pkg/tile/tiles.go:105-106 | the cells are visited in strictly increasing (x, y) order, so no cell is visited twice |
| Grid.TileCountMatchesGrid | pkg/tile/tiles.go:98-100 | for a non-empty range, `tcount` equals the number of cells the loops visit |
| Grid.TileCountOfEmptyRange | pkg/tile/tiles.go:98-100 | for an inverted range `tcount` is still at least 1 while no cell is visited, because the formula uses absolute differences |
| Grid.ClampHighAt | pkg/tile/tiles.go:88 | the upper clamp is `min(2^z - 1, t)` |
| Grid.LevelRangeClamped | pkg/tile/tiles.go:84-92 | each level's range lies within `0..2^z-1` on both axes |
| Grid.AxisTileInWorld | pkg/tile/tiles.go:85-86 | with the default Mercator, a coordinate above the world's minimum maps to a tile >= 0, and one not above its maximum to a tile <= 2^z - 1 |
| Grid.LevelRangeNonEmpty | pkg/tile/tiles.go:84-92 | bounds that overlap the world give a non-empty tile range at every zoom |
| Paths.IntToStringRoundTrip | pkg/tile/tiles.go:117 | the `%d` rendering of an int parses back to it |
| Paths.IntToStringInjective | pkg/tile/tiles.go:117 | distinct ints render to distinct strings |
| Paths.TmsRowInRange | pkg/tile/tiles.go:112-115 | the stored row of an in-range tile stays within `0..2^z-1` in both styles |
| Paths.TmsRowInvolution | pkg/tile/tiles.go:112-115 | applying the TMS flip twice gives back the row |
| Paths.RelativeTilePathInjective | pkg/tile/tiles.go:119 | `z/x/row.png` determines z, x and row |
| Paths.TilePathInjective | pkg/tile/tiles.go:117-120 | under one output folder, with or without one, distinct (z, x, row) give distinct file names |
| Windows.StartSpanRounding | pkg/tile/windows.go:35-39 | the unclipped read origin is the edge's pixel offset to within the 0.001 nudge, truncated; the read size is the edge length in pixels rounded half up for non-negative lengths (truncated toward zero below -0.5) |
| Windows.StartSpanOnPixelGrid | pkg/tile/windows.go:35-44 | a tile edge `k` whole pixels past the origin and `n` whole pixels long reads from pixel k for n pixels, and writes at 0 with width `4 * tileSize` |
| Windows.ReadBox | pkg/tile/windows.go:30-84 | computes the specified window; any window it returns reads inside the raster |
| Windows.ClipSteps | pkg/tile/windows.go:46-57 | the two clipping steps of one axis, near edge then far edge, compute the axis clip |
| Windows.ClipAxisInside | pkg/tile/windows.go:46-57 | a clipped read starts at or after 0 and ends at or before the raster edge |
| Windows.ReadBoxInsideRaster | pkg/tile/windows.go:30-84 | every window reads inside the raster on both axes |
| Windows.InteriorUnclipped | pkg/tile/windows.go:46-57 | a read already inside the raster is left unchanged |
| Windows.InteriorTileX | pkg/tile/windows.go:35-57 | a tile inside the raster on x keeps its start span: writes at 0 with width `4 * tileSize` |
| Windows.InteriorTileY | pkg/tile/windows.go:36-72 | the same on y |
| Windows.NearClip | pkg/tile/windows.go:46-52 | a read starting before the raster is moved to 0, and shortened by the overhang; the write start moves proportionally, and the write start plus the write size stays the original write size |
| Windows.FarClip | pkg/tile/windows.go:54-57 | a read running past the raster edge is cut at the edge; the write size shrinks in proportion and the write start stays |
| Windows.NearClipBounds | pkg/tile/windows.go:46-52 | after the near clip the write offsets are non-negative, and together they fill the original write width |
| Windows.FarClipBounds | pkg/tile/windows.go:54-57 | the far clip only shrinks the write size and keeps it non-negative |
| Windows.OverlapStaysInBuffer | pkg/tile/windows.go:42-57 | for a tile that overlaps the raster, the clipped write stays inside the 1024-wide query buffer |
| Windows.AxesIndependent | pkg/tile/windows.go:30-84 | the x part of the window depends only on x inputs and the y part only on y inputs |
| Pixels.FillBuffer | pkg/tile/tile_ids.go:75-78 | a fresh byte slice of the given length, every byte set to the fill value |
| Pixels.WriteBlockFrame | pkg/tile/tiles_overview.go:128 | a block write changes exactly the pixels of the block; each receives its source byte in row-major order |
| Pixels.WriteThenCrop | pkg/tile/tile_ids.go:106-107 | writing a block inside the band and reading the same block back gives the written bytes |
| Pixels.BandsOfBlank | pkg/tile/tiles_overview.go:85 | an all-zero dataset buffer is the sequence of blank bands |
| Pixels.WriteBandRegion | pkg/tile/tiles_overview.go:128 | the in-place write on the dataset's pixel array does what `WriteBandBlock` specifies, and leaves the array unchanged on failure |
| Chain.Stages | pkg/tile/tile_ids.go:58-67 | one middleware per step, in order |
| Chain.Exec | pkg/tile/tiles_overview.go:17-22 | `Interceptor`: applies the composition of the middlewares to the data, the first one outermost |
| Chain.ComposeRunsInOrder | pkg/tile/tile_ids.go:51-56 | composing the steps as middlewares is the same as running them in list order, stopping at the first error, and then the final function |
| Chain.RunReachesFinal | pkg/tile/tile_ids.go:51-56 | when every step succeeds, the chain's result is the final function on the last step's state |
| Chain.FailureStopsChain | pkg/tile/tile_ids.go:51-56 | the first failing step's outcome is the chain's outcome; later steps and the final function do not run |
| Chain.ThreeStepsRun | pkg/tile/tile_ids.go:44 | three steps that each succeed run through to the last one's state |
| TileIds.Read | pkg/tile/tile_ids.go:69-92 | corrected (Finding 1): the band loop with fresh 255-filled slices of `WxSize * WySize` bytes computes the `Read` step: one slice per band, the first failing read ends the step, and a dataset without bands never looks at the window |
| TileIds.TileToPng | pkg/tile/tile_ids.go:94-118 | the band loop writing each slice into the query dataset computes the `TileToPNG` step |
| TileIds.ReadTile | pkg/tile/tile_ids.go:23-45 | corrected (Finding 1): `ReadTile` runs `initTileRead`, `Read`, `TileToPNG` and the final downsampling in order |
| TileIds.BandSlice | pkg/tile/tile_ids.go:75-86 | corrected (Finding 1): a band slice has the write-buffer length `WxSize * WySize`, where line 75 allocates `RxSize * RySize` |
| TileIds.ReadBandsSucceed | pkg/tile/tile_ids.go:74-87 | corrected (Finding 1): when all band reads succeed, band k's slot holds band k's slice and earlier slots stay |
| TileIds.WriteBandsSucceed | pkg/tile/tile_ids.go:105-111 | when every slice fits the write block, every band write succeeds and band k receives slice k |
| TileIds.ReadTileRenders | pkg/tile/tile_ids.go:23-118 | for a window inside the raster and inside the query buffer: one 1024 x 1024 band per source band; inside the write block each pixel is the read's byte at its row-major index; outside it each pixel is 0 |
| TileIds.ZeroBandsNeedNoWindow | pkg/tile/tile_ids.go:69-118 | a dataset without bands renders an empty query dataset without error, whatever the window, since the band loops never run |
| TileIds.NativeWindowFromReadBox | pkg/tile/windows.go:30-84 | a real tile box over a 1000 x 1000 raster yields a 256 x 256 read resampled to 1024 x 1024 |
| TileIds.ReadOverrunsAsWritten | pkg/tile/tile_ids.go:75 | with slices sized read-width times read-height, that window makes the native read write past the slice |
| Tiles.NewTileErrors | pkg/tile/tiles.go:37-77 | at most one error; an empty input name gives exactly `ErrInputFilename`; no error exactly when the open, the warp and the reopen of the VRT all succeed |
| Tiles.Tile.NewTile | pkg/tile/tiles.go:37-77 | the options are applied over the defaults. On success, `Gdal` wraps the reopened VRT with its values cached, and the band count is the input's. On failure the error is recorded and `Gdal` is nil |
| Tiles.LevelIdsConcat | pkg/tile/tiles.go:105-106 | the ids of consecutive cell runs concatenate |
| Tiles.RangeIds | pkg/tile/tiles.go:105-147 | the x/y loops produce the ids of the range's cells in row-major order |
| Tiles.ColumnIds | pkg/tile/tiles.go:106-146 | the inner y loop produces one column's ids |
| Tiles.PlanTile | pkg/tile/tiles.go:112-142 | one tile's id: the TMS row, the file name and the window of its Mercator bounds |
| Tiles.LevelIdsExactlyOnce | pkg/tile/tiles.go:96-151 | every id of a level lies in the range at that zoom; ids are in strictly increasing (x, y) order; a tile has an id exactly when it lies in the range |
| Tiles.LevelFilenamesDistinct | pkg/tile/tiles.go:117-120 | no two tiles of a level share a file name, in either style |
| Tiles.Tile.PlanLevel | pkg/tile/tiles.go:96-151 | records `tcount` for the level, and stores the level's ids or panics on an index outside `ZoomTileIds`; nothing else changes |
| Tiles.Tile.Plan | pkg/tile/tiles.go:81-92 | the level loop finishes exactly when every level index fits the allocated tables, and then every level from `ZoomMin` to `ZoomMax` is planned |
| Tiles.PlannedLevel | pkg/tile/tiles.go:84-151 | a planned level's range lies within `0..2^z-1`; a tile has an id exactly when it lies in the range; file names are distinct; for a non-empty range `tcount` equals the number of ids |
| Tiles.Tile.GenerateGdalReadWindows | pkg/tile/tiles.go:79-94 | corrected (Finding 3), adding a gate the cited lines lack: with no recorded error: planning succeeds exactly when the zoom tables fit, and plans every level. With a recorded error, nothing is planned and the error is kept |
| Tiles.Tile.GenerateGdalReadWindowsAsWritten | pkg/tile/tiles.go:79-80 | as written, a tile whose `Gdal` is nil panics on the first line |
| Tiles.Tile.Close | pkg/tile/tiles.go:153-159 | returns the first recorded error and leaves `Gdal` open; otherwise closes `Gdal` and returns nil |
| Overview.QuadrantClosedForm | pkg/tile/tiles_overview.go:108-118 | the quadrant offsets: `(tx - 2x) * 256` across, and `(2y + 1 - ty) * 256` down, since the TMS-numbered upper child goes on top |
| Overview.QuadrantsDisjoint | pkg/tile/tiles_overview.go:86-118 | each child's 256-pixel block lies inside the 512 x 512 composite, and distinct children's blocks do not overlap |
| Overview.ChildPathIsPlannedFile | pkg/tile/tiles_overview.go:89-97 | each child in range that the overview opens is a tile file planned at zoom z+1 |
| Overview.ChildRangeOfPlan | pkg/tile/tiles_overview.go:89-90 | after planning, the range the overview reads for the children of level z is the Mercator range planned for z+1; for a level outside `ZoomMin..ZoomMax` there is none |
| Overview.RegenerateOverviews | pkg/tile/tiles_overview.go:149-170 | downsamples every band of the composite; the first failing band, or a missing in-memory or PNG driver, is the error |
| Overview.PasteChildBands | pkg/tile/tiles_overview.go:120-133 | the band loop reads each child band and writes it at the child's offset, stopping at the first error |
| Overview.PasteChildFrame | pkg/tile/tiles_overview.go:120-133 | pasting a child changes only pixels inside its block, and only bands from the current one on |
| Overview.PasteChildCopies | pkg/tile/tiles_overview.go:120-133 | after a successful paste, each pixel of the child's block in band b is the child's byte at its row-major index |
| Overview.ComposeOnlyInRange | pkg/tile/tiles_overview.go:86-136 | a composite pixel that no in-range child covers keeps the value it had before the quadrant loop |
| Overview.ComposeCandidate | pkg/tile/tiles_overview.go:89-134 | one child: a stat, open or band failure stops the quadrant loop; otherwise the loop continues with the child pasted |
| Overview.ComposeParent | pkg/tile/tiles_overview.go:78-140 | one parent: composes the in-range children, then downsamples and writes; appends any error; panics as the code would |
| Overview.ParentsFailOnlyByPanic | pkg/tile/tiles_overview.go:78-141 | a level's parent loop fails only by a Go panic; every I/O error is recorded and the loop goes on |
| Overview.LevelsFailOnlyByPanic | pkg/tile/tiles_overview.go:75-142 | the same for the whole level loop |
| Overview.BuildLevel | pkg/tile/tiles_overview.go:78-141 | the parent loop over one level computes its specification |
| Overview.BuildLevels | pkg/tile/tiles_overview.go:75-142 | the level loop from `ZoomMax - 1` down to `ZoomMin` computes its specification |
| Overview.OverviewsKeepErrors | pkg/tile/tiles_overview.go:66-147 | the overview step fails exactly when the in-memory driver is missing or a panic happens; the errors recorded before it are kept as a prefix |
| Overview.BuildMapTilesRunsOverview | pkg/tile/tiles_overview.go:24-29 | `BuildMapTiles` is the overview step followed by the final no-op |
| Overview.OverviewNeverFails | pkg/tile/tiles_overview.go:24-29 | `BuildMapTiles` fails exactly when the driver is missing or a panic happens, and keeps the earlier errors |
| Overview.OverviewTile | pkg/tile/tiles_overview.go:66-147 | updates the tile's error list as the overview specification says; the plan is unchanged |
| Overview.BuildMapTiles | pkg/tile/tiles_overview.go:24-29 | the same as the overview step |
| Overview.CuttingToImg | pkg/tile/tiles.go:162-173 | with a recorded error, does nothing. Otherwise an I/O error from `BuildMapTiles` is appended; a panic propagates; success keeps the overview's error list |
| Overview.BaseTiles | pkg/tile/tiles_overview.go:39-53 | one result per base tile id, and the earlier errors kept as a prefix |
| Overview.BaseTilesRenderEach | pkg/tile/tiles_overview.go:39-53 | every base tile id, from the current one on, is replaced by the outcome of its `ReadTile` chain on the opened VRT |
| Overview.RenderBaseTiles | pkg/tile/tiles_overview.go:39-53 | the loop over the base zoom's ids computes `BaseTiles` |
| Overview.BaseTileGates | pkg/tile/tiles_overview.go:32-63 | after rendering the base level, the step returns the first entry of the error list (errors recorded before the pass come first) and calls `next` exactly when the list is empty; an index past `ZoomTileIds` panics |
| Overview.BaseTile | pkg/tile/tiles_overview.go:32-63 | renders every base tile and records the errors, as the base-level specification says |
| Job.Execution | pkg/tile_gdal/job.go:13-18 | applies the composed jobs to the job info |
| Job.ExecutionRunsInOrder | pkg/tile_gdal/job.go:13-18 | the composed jobs run in list order, and the final function runs only when all succeed |
| Job.TileRead | pkg/tile_gdal/job.go:20-53 | corrected (Finding 2): the band loop filling the four-slot table computes the `TileRead` step |
| Job.TileReadRecordsBandCount | pkg/tile_gdal/job.go:23-28 | a failed open returns its error with the info unchanged; a successful open records the band count whatever follows |
| Job.SlotsHoldBands | pkg/tile_gdal/job.go:33-46 | corrected (Finding 2): with at most four bands, all read, each slot holds its band's slice and the others are untouched |
| Job.TooManyBandsPanics | pkg/tile_gdal/job.go:45 | a fifth band indexes past the table and panics |
| Job.TileReadTable | pkg/tile_gdal/job.go:20-53 | with up to four bands, slots 0..n-1 hold the bands in order and the rest stay empty; more bands panic |
| Job.TileReadOverrunsAsWritten | pkg/tile_gdal/job.go:34 | with slices sized read-width times read-height, a 256 x 256 read resampled to 1024 x 1024 overruns the slice |
| TileGdal.DefaultZoomLevels | pkg/tile_gdal/tile.go:57-64 | without zoom options, both zoom bounds are 16 |
| TileGdal.ZoomDefaults | pkg/tile_gdal/tile.go:45-55 | options other than the zoom setters leave the zoom bounds unchanged |
| TileGdal.MapCellsConcat | pkg/tile_gdal/tile.go:206-207 | mapping over consecutive cell runs concatenates |
| TileGdal.OpenTile | pkg/tile_gdal/tile.go:66-93 | an empty input name returns `ErrInputFilename`; with no reader given, a failed open returns its error. Otherwise a tile with the defaults and options applied; a job queue exists only when the reader was opened here |
| TileGdal.Tile.constructor | pkg/tile_gdal/tile.go:57-64 | the settings as given, the default Mercator, and no ranges or jobs yet |
| TileGdal.Tile.GeoQuery | pkg/tile_gdal/tile.go:122-174 | the same window computation as `ReadBox`, over the reader's VRT; a window reads inside the VRT |
| TileGdal.Tile.TileRange | pkg/tile_gdal/tile.go:180-197 | a range for exactly the zooms `ZoomMin..ZoomMax`, each the clamped Mercator range of the VRT's bounds, within `0..2^z-1` |
| TileGdal.Tile.MakeTileJobInfo | pkg/tile_gdal/tile.go:199-229 | queues one job per tile of the `ZoomMax` range, in x-then-y order; a missing range entry counts as the zero range |
| TileGdal.Tile.RangeJobs | pkg/tile_gdal/tile.go:206-225 | the x loop produces the range's jobs in row-major order |
| TileGdal.Tile.ColumnJobs | pkg/tile_gdal/tile.go:207-224 | the y loop produces one column's jobs |
| TileGdal.JobsForNextColumn | pkg/tile_gdal/tile.go:206-207 | adding column x extends the job list by that column's jobs |
| TileGdal.JobsExactlyOnce | pkg/tile_gdal/tile.go:199-229 | each job is the job of a tile in range; a tile in range has its job; jobs are in strictly increasing order; no two share a file name |
| TileGdal.JobSkipsDegenerate | pkg/tile_gdal/tile.go:235-246 | a job with a zero read or write size succeeds without work; any other job's error is `TileRead`'s error, or else that of the PNG step |
| TileGdal.RunJob | pkg/tile_gdal/tile.go:235-246 | one job computes its specified error |
| TileGdal.Tile.GenerateBaseTile | pkg/tile_gdal/tile.go:231-255 | runs the jobs and returns the first error in job order |
| TileGdal.BaseTileFirstError | pkg/tile_gdal/tile.go:250-252 | `GenerateBaseTile` succeeds exactly when every job succeeds |
| TileGdal.FirstStays | pkg/tile_gdal/tile.go:250-252 | once an error is found, the result is an error |
| TileGdal.TwoStepsError | pkg/tile_gdal/tile.go:239-242 | a two-job chain fails with the first job's error, or else the second's |
| Command.RunTile | cmd/tile.go:36-41 | the chain with a nil check after a failed `NewTile` returns `NewTile`'s first error; an empty input name gives `ErrInputFilename` |
| Command.RunTileAsWritten | cmd/tile.go:36-41 | as written, a failed `NewTile` ends in a nil-pointer panic instead of returning its error |

## Left out

- Concurrency. The goroutines of `windows`, `BaseTile` and `GenerateBaseTile`, the errgroup limits and the racy appends to shared slices are modelled as sequential loops in source order. Ids, jobs and errors therefore appear in loop order, where the source gives a scheduling-dependent order. `errgroup.Wait` is modelled as the first error in job order.
- TileGdal.Tile.MakeTileJobInfo: the source sends jobs through a buffered channel from a goroutine, and `GenerateBaseTile` consumes them concurrently. The model collects the jobs into a sequence and only records whether a queue exists (`hasQueue`). Blocking on a missing or full channel is not modelled.
- TileGdal.Tile.GenerateBaseTile: the source ranges over a channel that no one closes, and so never terminates. The model runs the queued jobs and returns their first error.
- TileGdal.JobSkipsDegenerate: the guard tests for sizes equal to zero, as the source does. A negative read or write size is not skipped and goes on to `TileRead`.
- Tiles.PlanTile: the source calls `Mercator.TileMetersBounds`, which `pkg/gdal/mercator.go` does not define. The model uses `TileBounds`, the only tile-bounds function there.
- `BaseTile` is defined but not installed in `BuildMapTiles`, which runs only `OverviewTile`. The model keeps it as a separate step and proves it on its own.
- Overview.BaseTile: when opening the VRT fails, the source records the error and still calls `ReadTile` on the nil dataset. The model reads from an empty dataset with zero bands (`OpenOrNull`) instead of modelling the cgo dereference.
- Overview.OverviewTile: on a panic partway through the overview loop, the contract states the panic but not which errors the tile holds afterwards.
- Files, directories and encodings: `os.Stat` and `os.MkdirAll` on output paths, PNG encoding and the result of `CreateCopy` are left out. The overview pass records each composite it would write as an `Encoded` log entry (file name and bands), after the PNG driver lookup succeeds. The base tile's final step ignores the PNG outcome, as the source does. Only the existence test (`stat`) on child tile directories is modelled.
- `filepath.Join` path cleaning is not modelled. Child paths are joined with one `/`, and an empty folder gives a relative path.
- `errors.WithStack` is modelled as the identity on errors.
- Floating point: `float64` arithmetic is exact `real` arithmetic, and rounding error is not modelled. `math.Pow(2, z)` is exact, and π is the decimal value of Go's `math.Pi`.
- The Go `Close` of `pkg/tile_gdal/tile.go` and `pkg/tile_gdal/gdal.go` (the reader) are not part of this model. The reader is a record holding the VRT's dataset, file name, tile size and query size.
- TileGdal.OpenTile: `Open` followed by `WrapVrt().Execute()` is one `open` parameter returning a reader or an error.
- The `pkg/tile_gdal` Mercator is modelled by the `pkg/gdal` one, which has the same constants and formulas.
- The `TileToPNG` stage of `pkg/tile_gdal` (`ToPNG`, and `ReadyTile`/`ScaleQueryToTile` in job.go) is a handler parameter `toPng`. Its body is not part of this model.
- `tileToLat`, `tileToLon` and `tileToLonLat` in mercator.go are unused by the engine and are left out.
- The command's configuration and file-existence checks, the config package and logging output are left out. `RunTile` takes the options and the backend as parameters.
- `pkg/gdal/read.go` (the warp to EPSG:3857) is the backend's `warp` function.
- When a window computation divides by a zero pixel size or a zero read size, Go produces ±Inf or NaN and then an implementation-defined int. The model's window is then absent (`None`), and using an absent window inside a band loop is an `Undefined` error. A dataset without bands never reaches the loop and needs no window.

- Go's `int` is 64 bits wide; the model's integers are unbounded. `1 << tz` (tiles.go:114, tiles_overview.go:94) is `Pow2(tz)` here, where Go gives 0 or a negative value for tz >= 63. An `int(...)` of a finite float outside the int64 range (windows.go:35-39, for example with a tiny pixel size) is truncated exactly here, where Go's result is implementation-defined. No contract bounds zoom levels or window values to the int64 range.
- TileIds.Read, TileIds.ReadTile, TileIds.BandSlice, TileIds.ReadBandsSucceed: these follow the corrected slice size `WxSize * WySize` of Finding 1, not the `RxSize * RySize` of tile_ids.go:75. The code as written is `ReadStepAsWritten`, used by `TileIds.ReadOverrunsAsWritten`.
- Job.TileRead, Job.SlotsHoldBands: these follow the corrected slice size of Finding 2, not that of job.go:34. The code as written is `TileReadStepAsWritten`, used by `Job.TileReadOverrunsAsWritten`.
- Tiles.Tile.GenerateGdalReadWindows: this adds the recorded-error gate of Finding 3, which tiles.go:79-94 lacks. The code as written is `Tiles.Tile.GenerateGdalReadWindowsAsWritten`.

## Findings

| source | as written | input that shows it | evidently intended | confidence | as-written member | corrected member |
|---|---|---|---|---|---|---|
| pkg/tile/tile_ids.go:75 | each band slice has `RxSize * RySize` bytes, but the band read resamples into a `WxSize * WySize` buffer | a tile whose read rectangle is 256 x 256 and whose write buffer is 1024 x 1024, which `ReadBox` yields for an interior tile at native resolution (`TileIds.NativeWindowFromReadBox`) | slices of `WxSize * WySize` bytes, so that the read fills the slice | not executed | TileIds.ReadOverrunsAsWritten | TileIds.ReadTileRenders |
| pkg/tile_gdal/job.go:34 | the same slice size `RxSize * RySize` in `TileRead` | a job with a 256 x 256 read resampled to 1024 x 1024, on a raster of at least 256 x 256 with one band | slices of `WxSize * WySize` bytes | not executed | Job.TileReadOverrunsAsWritten | Job.TileReadTable |
| pkg/tile/tiles.go:79-80 | `GenerateGdalReadWindows` reads `tile.Gdal` without checking the recorded errors, while `NewTile` returns with `Gdal` nil after a failure | `SetInputFilename("")` in the chain of cmd/tile.go:36-41: the chain panics with a nil dereference instead of returning `ErrInputFilename` from `Close` | skip planning when an error is recorded, as `CuttingToImg` does, so `Close` returns the first error | not executed | Command.RunTileAsWritten | Command.RunTile |

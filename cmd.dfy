/**
  The `tile` command (`cmd/tile.go`): build a tile from the configured
  options, plan its read windows, cut the pyramid and close it, returning
  the first error recorded on the way.  The command's own configuration
  loading and the check for the sample image are I/O and are not part of
  this model.
*/
module Command {
  import opened Base
  import opened RasterBackend
  import opened Tiles
  import opened Overview

  /** The chain `NewTile(...).GenerateGdalReadWindows().CuttingToImg().Close()`
      with the planning step guarded by the recorded errors.  A crash in any
      step is returned as its panic. */
  method RunTile(options: seq<TileOption>, be: Backend) returns (result: Option<Error>)
    ensures var errs := NewTileErrors(ApplyTileOptions(DefaultTile(), options).inputFilename, be);
            errs != [] ==> result == Some(errs[0])
    ensures ApplyTileOptions(DefaultTile(), options).inputFilename == "" ==> result == Some(ErrInputFilename)
  {
    var t := new Tile.NewTile(options, be);
    var crash := t.GenerateGdalReadWindows();
    if crash.Some? {
      return crash;
    }
    var encoded;
    crash, encoded := CuttingToImg(t, be);
    if crash.Some? {
      return crash;
    }
    result := t.Close();
  }

  /** The same chain with `GenerateGdalReadWindows` as written: a tile
      whose construction failed has no raster wrapper, and planning reads
      its bounds through it. */
  method RunTileAsWritten(options: seq<TileOption>, be: Backend) returns (result: Option<Error>)
    ensures NewTileErrors(ApplyTileOptions(DefaultTile(), options).inputFilename, be) != [] ==>
              result == Some(Panic("nil pointer dereference"))
  {
    var t := new Tile.NewTile(options, be);
    var crash := t.GenerateGdalReadWindowsAsWritten();
    if crash.Some? {
      return crash;
    }
    var encoded;
    crash, encoded := CuttingToImg(t, be);
    if crash.Some? {
      return crash;
    }
    result := t.Close();
  }
}

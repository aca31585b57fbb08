/** The fx mapping (`fx_files`): an ordered dictionary from an fx variable
    name to a file name or `None`. Loading walks it in order and keeps only
    the last file actually present. */
module FxFiles {
  import opened Errors
  import opened NdArrays

  /** One `key: fx_file` item of the dictionary. */
  datatype FxEntry = FxEntry(key: string, file: Option<string>)

  /** The file of the last entry whose value is not `None`. */
  function LastFxFile(fx: seq<FxEntry>): Option<string>
  {
    if fx == [] then None
    else if fx[|fx| - 1].file.Some? then fx[|fx| - 1].file
    else LastFxFile(fx[..|fx| - 1])
  }

  /** What the loading loop leaves in its variable: the grid read from the
      last file present, or `None`. */
  function Loaded(fx: seq<FxEntry>, load: string -> Grid): Option<Grid>
  {
    match LastFxFile(fx)
    case None => None
    case Some(f) => Some(load(f))
  }

  /** Last wins: `f` is selected iff some entry holds `f` and every later
      entry holds `None`. Earlier files are overwritten, never merged. */
  lemma {:induction false} LastFxFileIsLastPresent(fx: seq<FxEntry>, f: string)
    ensures LastFxFile(fx) == Some(f) <==>
            exists i :: 0 <= i < |fx| && fx[i].file == Some(f) &&
                        forall j :: i < j < |fx| ==> fx[j].file.None?
  {
    if fx != [] {
      var n := |fx| - 1;
      var pre := fx[..n];
      LastFxFileIsLastPresent(pre, f);
      if LastFxFile(fx) == Some(f) {
        if fx[n].file.None? {
          var i :| 0 <= i < |pre| && pre[i].file == Some(f) &&
                   forall j :: i < j < |pre| ==> pre[j].file.None?;
          assert fx[i].file == Some(f);
          assert forall j :: i < j < |fx| ==> fx[j].file.None? by {
            forall j | i < j < |fx| ensures fx[j].file.None? {
              if j < n { assert fx[j] == pre[j]; }
            }
          }
        }
      }
      if exists i :: 0 <= i < |fx| && fx[i].file == Some(f) &&
                     forall j :: i < j < |fx| ==> fx[j].file.None? {
        var i :| 0 <= i < |fx| && fx[i].file == Some(f) &&
                 forall j :: i < j < |fx| ==> fx[j].file.None?;
        if i < n {
          assert fx[n].file.None?;
          assert pre[i].file == Some(f);
          assert forall j :: i < j < |pre| ==> pre[j].file.None? by {
            forall j | i < j < |pre| ensures pre[j].file.None? {
              assert pre[j] == fx[j];
            }
          }
        }
      }
    }
  }

  /** No file is selected iff every entry holds `None`. */
  lemma {:induction false} LastFxFileNone(fx: seq<FxEntry>)
    ensures LastFxFile(fx).None? <==> forall i :: 0 <= i < |fx| ==> fx[i].file.None?
  {
    if fx != [] {
      var pre := fx[..|fx| - 1];
      LastFxFileNone(pre);
      assert forall i :: 0 <= i < |pre| ==> pre[i] == fx[i];
    }
  }

  /** The `for key, fx_file in fx_files.items()` loop of `tile_grid_areas`
      and `zonal_meridional_statistics`: skip `None` values, load every
      other file and overwrite the grid with it. */
  method LoadFx(fx: seq<FxEntry>, load: string -> Grid) returns (grid: Option<Grid>)
    ensures grid == Loaded(fx, load)
    ensures grid.Some? <==> exists i :: 0 <= i < |fx| && fx[i].file.Some?
  {
    grid := None;
    for i := 0 to |fx|
      invariant grid == Loaded(fx[..i], load)
    {
      assert fx[..i + 1][..i] == fx[..i];
      if fx[i].file.None? {
        continue;
      }
      grid := Some(load(fx[i].file.value));
    }
    assert fx[..|fx|] == fx;
    LastFxFileNone(fx);
  }
}

/** Zonal, meridional and area statistics: which errors are raised, which
    coordinates are collapsed and which weights are handed to the collapse.
    The collapse itself (iris) is recorded, not computed. */
module Statistics {
  import opened Errors
  import opened NdArrays
  import opened FxFiles
  import opened Cubes

  /** The iris aggregator an operator name maps to (`iris.analysis.MEAN`, ...). */
  datatype Aggregator = Aggregator(name: string)

  /** `get_iris_analysis_operation` as a table from operator names to
      aggregators, and the set `weighted_operators`. */
  datatype OperatorTable = OperatorTable(operations: map<string, Aggregator>, weightedOperators: set<string>)

  /** The call `cube.collapsed(coords, aggregator[, weights=...])`. */
  datatype Collapse = Collapse(coords: seq<string>, aggregator: Aggregator, weights: Option<Grid>)

  /** The two horizontal coordinates, in the order `area_statistics` passes them. */
  const AreaCoords: seq<string> := ["longitude", "latitude"]

  function LowerChar(c: char): char
  {
    if 'A' <= c <= 'Z' then (c as int + 32) as char else c
  }

  /** `str.lower()` on ASCII letters. */
  function Lower(s: string): (r: string)
    ensures |r| == |s|
  {
    seq(|s|, i requires 0 <= i < |s| => LowerChar(s[i]))
  }

  /** Zonal and meridional statistics weight case-insensitively. */
  predicate ZonalWeighted(operator: string, table: OperatorTable)
  {
    Lower(operator) in table.weightedOperators
  }

  /** Area statistics weight only the exact name `mean`. */
  predicate AreaWeighted(operator: string)
  {
    operator == "mean"
  }

  /** numpy's `a.any()` on a real array, a reduction with `or` over the
      cells: true iff some cell is non-zero. */
  predicate AnyNonZero(values: seq<real>): (b: bool)
    ensures b <==> exists i :: 0 <= i < |values| && values[i] != 0.0
  {
    values != [] && (values[0] != 0.0 || AnyNonZero(values[1..]))
  }

  /** `grid_areas is None or not grid_areas.any()`: no usable fx weights, so
      `area_statistics` computes them from the coordinate bounds. */
  predicate Recomputes(tiled: Option<Grid>)
  {
    tiled.None? || !AnyNonZero(tiled.value.values)
  }

  /** `not fx_files and cube.coord('latitude').points.ndim == 2`, with the
      lookup's own failure: the checks between tiling and weighting pass. */
  predicate LatitudeAccepted(coords: map<string, Coord>, fx: seq<FxEntry>)
  {
    fx != [] || ("latitude" in coords && coords["latitude"].ndim != 2)
  }

  // ---------------------------------------------------------------------
  // zonal_meridional_statistics

  /** What `zonal_meridional_statistics(cube, operator, coord, fx_files)`
      returns, for a cube with coordinates `coords`. */
  function ZonalMeridionalOutcome(coords: map<string, Coord>, operator: string, coord: string,
                                  fx: seq<FxEntry>, load: string -> Grid, table: OperatorTable): (r: Result<Collapse>)
    // a 2-D latitude is rejected before the operator is looked up or any fx file is read
    ensures "latitude" in coords && coords["latitude"].ndim == 2 ==> r == Err(CoordinateMultiDim("latitude"))
    ensures "latitude" !in coords ==> r == Err(CoordinateNotFound("latitude"))
    // the operator is looked up only once the latitude check passed
    ensures r.Err? && r.error.UnknownOperator? ==> operator !in table.operations
    ensures "latitude" in coords && coords["latitude"].ndim != 2 && operator !in table.operations ==>
              r == Err(UnknownOperator(operator))
    ensures r.Ok? <==> "latitude" in coords && coords["latitude"].ndim != 2 && operator in table.operations
    // exactly the requested coordinate is collapsed, with the operator's aggregator
    ensures r.Ok? ==> r.value.coords == [coord] && r.value.aggregator == table.operations[operator]
    // weights are passed iff some fx entry names a file and the lowered operator is weighted
    ensures r.Ok? ==> (r.value.weights.Some? <==>
                         (exists i :: 0 <= i < |fx| && fx[i].file.Some?) && ZonalWeighted(operator, table))
    // and they are the grid of the last file, not a merge of several
    ensures r.Ok? && r.value.weights.Some? ==> r.value.weights == Loaded(fx, load)
  {
    LastFxFileNone(fx);
    if "latitude" !in coords then Err(CoordinateNotFound("latitude"))
    else if coords["latitude"].ndim == 2 then Err(CoordinateMultiDim("latitude"))
    else if operator !in table.operations then Err(UnknownOperator(operator))
    else
      var grid := Loaded(fx, load);
      var weights := if grid.Some? && ZonalWeighted(operator, table) then grid else None;
      Ok(Collapse([coord], table.operations[operator], weights))
  }

  method ZonalMeridionalStatistics(cube: Cube, operator: string, coord: string, fx: seq<FxEntry>,
                                   load: string -> Grid, table: OperatorTable) returns (r: Result<Collapse>)
    ensures r == ZonalMeridionalOutcome(cube.coords, operator, coord, fx, load, table)
  {
    if "latitude" !in cube.coords {
      return Err(CoordinateNotFound("latitude"));
    }
    if cube.coords["latitude"].ndim == 2 {
      return Err(CoordinateMultiDim("latitude"));
    }
    if operator !in table.operations {
      return Err(UnknownOperator(operator));
    }
    var operation := table.operations[operator];
    var gridVolume := None;
    if fx != [] {
      gridVolume := LoadFx(fx, load);
    }
    if gridVolume.Some? && Lower(operator) in table.weightedOperators {
      return Ok(Collapse([coord], operation, gridVolume));
    }
    return Ok(Collapse([coord], operation, None));
  }

  /** `zonal_statistics`: collapse along `longitude`. */
  method ZonalStatistics(cube: Cube, operator: string, fx: seq<FxEntry>,
                         load: string -> Grid, table: OperatorTable) returns (r: Result<Collapse>)
    ensures r == ZonalMeridionalOutcome(cube.coords, operator, "longitude", fx, load, table)
    ensures r.Ok? ==> r.value.coords == ["longitude"]
  {
    r := ZonalMeridionalStatistics(cube, operator, "longitude", fx, load, table);
  }

  /** `meridional_statistics`: collapse along `latitude`. */
  method MeridionalStatistics(cube: Cube, operator: string, fx: seq<FxEntry>,
                              load: string -> Grid, table: OperatorTable) returns (r: Result<Collapse>)
    ensures r == ZonalMeridionalOutcome(cube.coords, operator, "latitude", fx, load, table)
    ensures r.Ok? ==> r.value.coords == ["latitude"]
  {
    r := ZonalMeridionalStatistics(cube, operator, "latitude", fx, load, table);
  }

  // ---------------------------------------------------------------------
  // tile_grid_areas

  /** What `tile_grid_areas` returns for a cube of shape `shape`: no weights
      without fx files; otherwise the last grid read, which must have the
      cube's last two dimensions, replicated over the cube's leading ones. */
  function TiledGridAreas(shape: seq<nat>, fx: seq<FxEntry>, load: string -> Grid): (r: Result<Option<Grid>>)
    ensures fx == [] ==> r == Ok(None)
    // a loaded grid of shape `cube.shape[-2:]` is tiled unless the cube has
    // more than four dimensions or a leading dimension of length zero
    ensures r.Ok? <==> fx == [] || (Loaded(fx, load).Some? && Loaded(fx, load).value.shape == LastTwo(shape) &&
                                    |shape| <= 4 && 0 !in Leading(shape))
    ensures fx != [] && r.Ok? ==> r.value.Some?
    // the tiled weights always have exactly the cube's shape
    ensures r.Ok? && r.value.Some? ==> r.value.value.shape == shape
    // tiled weights only come from a grid that was loaded
    ensures r.Ok? && r.value.Some? ==> Loaded(fx, load).Some?
    // equal ranks (at most two dimensions) return the grid read, untiled
    ensures |shape| <= 2 && r.Ok? && r.value.Some? ==> r.value == Loaded(fx, load)
    ensures r.Ok? && r.value.Some? ==> 2 <= |shape| <= 4 || r.value == Loaded(fx, load)
  {
    if fx == [] then Ok(None)
    else match Loaded(fx, load)
      case None => Err(NoneHasNoShape)
      case Some(g) =>
        if g.shape != LastTwo(shape) then Err(FxShapeMismatch(g.shape, shape))
        else if |shape| <= 4 then
          if 0 in Leading(shape) then Err(NothingToStack)
          else TileNothingWhenEqual(g, shape); Ok(Some(Tile(g, Leading(shape))))
        else Err(RanksNotRecognised(|shape|, |g.shape|))
  }

  /** When the grid already has the cube's rank there is nothing to tile. */
  lemma TileNothingWhenEqual(g: Grid, shape: seq<nat>)
    requires g.shape == LastTwo(shape)
    ensures |shape| <= 2 ==> Tile(g, Leading(shape)) == g
  {
    if |shape| <= 2 {
      assert Leading(shape) == [];
      TileNothing(g);
    }
  }

  method TileGridAreas(cube: Cube, fx: seq<FxEntry>, load: string -> Grid) returns (r: Result<Option<Grid>>)
    ensures r == TiledGridAreas(cube.shape, fx, load)
  {
    if fx == [] {
      return Ok(None);
    }
    var loaded := LoadFx(fx, load);
    if loaded.None? {
      return Err(NoneHasNoShape);
    }
    var grid := loaded.value;
    var shape := cube.shape;
    if grid.shape != LastTwo(shape) {
      return Err(FxShapeMismatch(grid.shape, shape));
    }
    if |shape| == |grid.shape| {
      TileNothingWhenEqual(grid, shape);
      return Ok(Some(grid));
    } else if |shape| == 4 && |grid.shape| == 2 {
      var stacked := StackLevelsThenTimes(grid, shape);
      if stacked.Err? {
        return Err(stacked.error);
      }
      grid := stacked.value;
    } else if |shape| == 4 && |grid.shape| == 3 {
      // unreachable: the shape check fixes the grid of a 4-D cube at rank 2
      assert false;
    } else if |shape| == 3 && |grid.shape| == 2 {
      assert Leading(shape) == [shape[0]];
      if shape[0] == 0 {
        return Err(NothingToStack);
      }
      TileNothing(grid);
      StackTile(grid, [], shape[0]);
      grid := Stack(grid, shape[0]);
      assert Leading(shape) == [shape[0]] + [];
    } else {
      return Err(RanksNotRecognised(|shape|, |grid.shape|));
    }
    return Ok(Some(grid));
  }

  /** The `for shape in [1, 0]` loop: stack `shape[1]` copies of the grid,
      then `shape[0]` copies of the result; `da.stack` of no copies raises. */
  method StackLevelsThenTimes(grid: Grid, shape: seq<nat>) returns (r: Result<Grid>)
    requires |shape| == 4 && grid.shape == shape[2..]
    ensures r == if 0 in shape[..2] then Err(NothingToStack) else Ok(Tile(grid, shape[..2]))
  {
    var a := grid;
    TileNothing(grid);
    var axes := [1, 0];
    for k := 0 to 2
      invariant 0 !in shape[2 - k..2]
      invariant a == Tile(grid, shape[2 - k..2])
    {
      var n := shape[axes[k]];
      assert shape[1 - k..2] == [n] + shape[2 - k..2];
      if n == 0 {
        return Err(NothingToStack);
      }
      StackTile(grid, shape[2 - k..2], n);
      a := Stack(a, n);
    }
    assert shape[0..2] == shape[..2];
    return Ok(a);
  }

  /** A successful tiling is `Tile` of the last grid read over the cube's
      leading dimensions. */
  lemma TiledIsTile(shape: seq<nat>, fx: seq<FxEntry>, load: string -> Grid)
    requires TiledGridAreas(shape, fx, load).Ok? && TiledGridAreas(shape, fx, load).value.Some?
    ensures Loaded(fx, load).Some? && Loaded(fx, load).value.shape == LastTwo(shape)
    ensures TiledGridAreas(shape, fx, load).value.value == Tile(Loaded(fx, load).value, Leading(shape))
  {
  }

  /** Cell by cell: flat cell `i` of the tiled weights holds cell
      `i mod Y*X` of the grid read from the last fx file, and the result
      has exactly the cube's shape. */
  lemma TiledCells(shape: seq<nat>, fx: seq<FxEntry>, load: string -> Grid)
    requires TiledGridAreas(shape, fx, load).Ok? && TiledGridAreas(shape, fx, load).value.Some?
    ensures var a := TiledGridAreas(shape, fx, load).value.value;
            var g := Loaded(fx, load).value;
            && a.shape == shape && g.shape == LastTwo(shape)
            && forall i :: 0 <= i < |a.values| ==> |g.values| > 0 && a.values[i] == g.values[i % |g.values|]
  {
    TiledIsTile(shape, fx, load);
    var g := Loaded(fx, load).value;
    forall i | 0 <= i < |Tile(g, Leading(shape)).values|
      ensures |g.values| > 0 && Tile(g, Leading(shape)).values[i] == g.values[i % |g.values|]
    {
      TileAt(g, Leading(shape), i);
    }
  }

  /** A 4-D cube (T, L, Y, X): every `[t][l]` slice of the tiled weights is
      the fx grid read for the cube. */
  lemma TiledSlice4(shape: seq<nat>, fx: seq<FxEntry>, load: string -> Grid, t: nat, l: nat, j: nat)
    requires |shape| == 4 && t < shape[0] && l < shape[1]
    requires TiledGridAreas(shape, fx, load).Ok? && TiledGridAreas(shape, fx, load).value.Some?
    requires j < shape[2] * shape[3]
    ensures var a := TiledGridAreas(shape, fx, load).value.value;
            var g := Loaded(fx, load).value;
            var k: nat := t * shape[1] + l;
            && |g.values| == shape[2] * shape[3]
            && k * |g.values| + j < |a.values|
            && a.values[k * |g.values| + j] == g.values[j]
  {
    TiledIsTile(shape, fx, load);
    var g := Loaded(fx, load).value;
    assert Leading(shape) == [shape[0], shape[1]];
    assert g.shape == [shape[2], shape[3]];
    ProductTwo(shape[2], shape[3]);
    TileSlice2(g, shape[0], shape[1], t, l, j);
  }

  /** A 3-D cube (T, Y, X): every `[t]` slice of the tiled weights is the
      fx grid. */
  lemma TiledSlice3(shape: seq<nat>, fx: seq<FxEntry>, load: string -> Grid, t: nat, j: nat)
    requires |shape| == 3 && t < shape[0]
    requires TiledGridAreas(shape, fx, load).Ok? && TiledGridAreas(shape, fx, load).value.Some?
    requires j < shape[1] * shape[2]
    ensures var a := TiledGridAreas(shape, fx, load).value.value;
            var g := Loaded(fx, load).value;
            && |g.values| == shape[1] * shape[2]
            && t * |g.values| + j < |a.values|
            && a.values[t * |g.values| + j] == g.values[j]
  {
    TiledIsTile(shape, fx, load);
    var g := Loaded(fx, load).value;
    var lead := Leading(shape);
    assert lead == [shape[0]];
    assert g.shape == [shape[1], shape[2]];
    ProductTwo(shape[1], shape[2]);
    assert lead == [shape[0]] + [];
    ProductCons(shape[0], []);
    TileBlock(g, lead, t, j);
  }

  /** Which shapes and files make `tile_grid_areas` raise, and with what. */
  lemma TiledGridAreasErrors(shape: seq<nat>, fx: seq<FxEntry>, load: string -> Grid)
    ensures var r := TiledGridAreas(shape, fx, load);
            && (r == Err(NoneHasNoShape) <==> fx != [] && forall i :: 0 <= i < |fx| ==> fx[i].file.None?)
            && (r.Err? && r.error.FxShapeMismatch? <==>
                  fx != [] && Loaded(fx, load).Some? && Loaded(fx, load).value.shape != LastTwo(shape))
            && (r == Err(NothingToStack) <==>
                  fx != [] && Loaded(fx, load).Some? && Loaded(fx, load).value.shape == LastTwo(shape) &&
                  3 <= |shape| <= 4 && 0 in Leading(shape))
            && (r.Err? && r.error.RanksNotRecognised? <==>
                  fx != [] && Loaded(fx, load).Some? && Loaded(fx, load).value.shape == LastTwo(shape) && |shape| > 4)
            && (r.Err? && r.error.RanksNotRecognised? ==> r.error == RanksNotRecognised(|shape|, 2))
  {
    LastFxFileNone(fx);
  }

  /** The branch for a 4-D cube with a 3-D grid can never run: the shape
      check only admits a grid equal to the last two dimensions, so such a
      grid is rejected before the ranks are compared. */
  lemma ThreeDimGridOnFourDimCube(shape: seq<nat>, fx: seq<FxEntry>, load: string -> Grid)
    requires |shape| == 4 && fx != [] && Loaded(fx, load).Some? && |Loaded(fx, load).value.shape| == 3
    ensures TiledGridAreas(shape, fx, load) == Err(FxShapeMismatch(Loaded(fx, load).value.shape, shape))
  {
  }

  /** A 1-D grid on a cube of rank 2 or more is rejected by the shape check,
      never by the rank check, although no tiling rule covers rank 1. */
  lemma OneDimGridIsShapeMismatch(shape: seq<nat>, fx: seq<FxEntry>, load: string -> Grid)
    requires |shape| >= 2 && fx != [] && Loaded(fx, load).Some? && |Loaded(fx, load).value.shape| == 1
    ensures TiledGridAreas(shape, fx, load) == Err(FxShapeMismatch(Loaded(fx, load).value.shape, shape))
    ensures !TiledGridAreas(shape, fx, load).error.RanksNotRecognised?
  {
  }

  // ---------------------------------------------------------------------
  // area_statistics

  /** What `area_statistics` returns, and the coordinates the cube is left
      with (its bounds may have been guessed on the way). */
  function AreaStatisticsOutcome(shape: seq<nat>, coords: map<string, Coord>, operator: string,
                                 fx: seq<FxEntry>, load: string -> Grid, table: OperatorTable,
                                 areaWeights: (seq<nat>, map<string, Coord>) -> Grid): (out: (Result<Collapse>, map<string, Coord>))
    // errors of tile_grid_areas come first and leave the cube alone
    ensures TiledGridAreas(shape, fx, load).Err? ==>
              out == (Err(TiledGridAreas(shape, fx, load).error), coords)
    // without fx files an irregular grid is rejected
    ensures fx == [] && "latitude" in coords && coords["latitude"].ndim == 2 ==>
              out == (Err(CoordinateMultiDim("latitude")), coords)
    // bounds are guessed only for longitude and latitude, and only where missing
    ensures out.1.Keys == coords.Keys
    ensures forall c :: c in coords && (c !in AreaCoords || coords[c].bounds != Unbounded) ==> out.1[c] == coords[c]
    // a collapse over both horizontal coordinates, weighted only for exactly 'mean'
    ensures out.0.Ok? ==> out.0.value.coords == ["longitude", "latitude"]
    ensures out.0.Ok? ==> operator in table.operations && out.0.value.aggregator == table.operations[operator]
    ensures out.0.Ok? ==> (out.0.value.weights.Some? <==> AreaWeighted(operator))
    // the weights handed over have the cube's shape
    ensures out.0.Ok? && out.0.value.weights.Some? ==> out.0.value.weights.value.shape == shape
    // without fx files a cube lacking latitude fails the lookup
    ensures fx == [] && "latitude" !in coords ==> out == (Err(CoordinateNotFound("latitude")), coords)
    // when it succeeds: tiling and the latitude check pass, recomputed weights need both
    // coordinates and must have the cube's shape, and the operator must be known
    ensures var tiled := TiledGridAreas(shape, fx, load);
            out.0.Ok? <==>
              && tiled.Ok? && LatitudeAccepted(coords, fx)
              && (Recomputes(tiled.value) ==>
                    "longitude" in coords && "latitude" in coords && areaWeights(shape, out.1).shape == shape)
              && operator in table.operations
    // fx weights with a non-zero cell leave the coordinates alone
    ensures var tiled := TiledGridAreas(shape, fx, load);
            tiled.Ok? && !Recomputes(tiled.value) ==> out.1 == coords
    // recomputing looks up longitude, then latitude, then checks the computed shape
    ensures var tiled := TiledGridAreas(shape, fx, load);
            tiled.Ok? && LatitudeAccepted(coords, fx) && Recomputes(tiled.value) ==>
              if "longitude" !in coords then out.0 == Err(CoordinateNotFound("longitude"))
              else if "latitude" !in coords then out.0 == Err(CoordinateNotFound("latitude"))
              else areaWeights(shape, out.1).shape != shape ==>
                     out.0 == Err(AreaShapeMismatch(shape, areaWeights(shape, out.1).shape))
    // recomputing guesses the missing bounds in place, whatever the operator, keeping the
    // guesses made before a coordinate turns out to be missing
    ensures var tiled := TiledGridAreas(shape, fx, load);
            tiled.Ok? && LatitudeAccepted(coords, fx) && Recomputes(tiled.value) ==>
              out.1 == WithGuessedBounds(coords, AreaCoords[..FirstMissing(AreaCoords, coords.Keys)])
    // the operator is looked up last: an unknown one fails once every earlier check passed
    ensures out.0.Err? && out.0.error.UnknownOperator? ==> out.0.error == UnknownOperator(operator) && operator !in table.operations
    ensures var tiled := TiledGridAreas(shape, fx, load);
            && tiled.Ok? && LatitudeAccepted(coords, fx)
            && (Recomputes(tiled.value) ==>
                  "longitude" in coords && "latitude" in coords && areaWeights(shape, out.1).shape == shape)
            && operator !in table.operations
            ==> out.0 == Err(UnknownOperator(operator))
    // fx weights with a non-zero cell are used as tiled; otherwise bounds exist before weights are computed
    ensures out.0.Ok? && out.0.value.weights.Some? ==>
              var tiled := TiledGridAreas(shape, fx, load).value;
              if tiled.Some? && AnyNonZero(tiled.value.values) then out.0.value.weights == tiled
              else out.0.value.weights == Some(areaWeights(shape, out.1)) &&
                   forall c :: c in AreaCoords ==> c in out.1 && out.1[c].bounds != Unbounded
  {
    var tiled := TiledGridAreas(shape, fx, load);
    if tiled.Err? then (Err(tiled.error), coords)
    else if fx == [] && "latitude" !in coords then (Err(CoordinateNotFound("latitude")), coords)
    else if fx == [] && coords["latitude"].ndim == 2 then (Err(CoordinateMultiDim("latitude")), coords)
    else
      var recompute := tiled.value.None? || !AnyNonZero(tiled.value.value.values);
      var k := FirstMissing(AreaCoords, coords.Keys);
      var guessed := if recompute then WithGuessedBounds(coords, AreaCoords[..k]) else coords;
      if recompute && k < |AreaCoords| then (Err(CoordinateNotFound(AreaCoords[k])), guessed)
      else
        assert recompute ==> AreaCoords[..k] == AreaCoords;
        GuessedAreaBounded(coords);
        var weights := if recompute then areaWeights(shape, guessed) else tiled.value.value;
        if shape != weights.shape then (Err(AreaShapeMismatch(shape, weights.shape)), guessed)
        else (AreaCollapse(operator, table, weights), guessed)
  }

  /** Once both horizontal coordinates exist, guessing leaves both bounded. */
  lemma GuessedAreaBounded(coords: map<string, Coord>)
    ensures FirstMissing(AreaCoords, coords.Keys) == |AreaCoords| ==>
              var guessed := WithGuessedBounds(coords, AreaCoords);
              forall c :: c in AreaCoords ==> c in guessed && guessed[c].bounds != Unbounded
  {
  }

  /** The final `cube.collapsed` call of `area_statistics`: an unknown
      operator is an error; only an exact `mean` is weighted. */
  function AreaCollapse(operator: string, table: OperatorTable, weights: Grid): (r: Result<Collapse>)
    ensures r.Ok? <==> operator in table.operations
    ensures r.Err? ==> r.error == UnknownOperator(operator)
    ensures r.Ok? ==> r.value.coords == ["longitude", "latitude"] && r.value.aggregator == table.operations[operator]
    ensures r.Ok? ==> r.value.weights == if AreaWeighted(operator) then Some(weights) else None
  {
    if operator !in table.operations then Err(UnknownOperator(operator))
    else Ok(Collapse(AreaCoords, table.operations[operator], if operator == "mean" then Some(weights) else None))
  }

  method AreaStatistics(cube: Cube, operator: string, fx: seq<FxEntry>, load: string -> Grid,
                        table: OperatorTable, areaWeights: (seq<nat>, map<string, Coord>) -> Grid)
    returns (r: Result<Collapse>)
    modifies cube
    ensures (r, cube.coords) ==
            AreaStatisticsOutcome(old(cube.shape), old(cube.coords), operator, fx, load, table, areaWeights)
    ensures cube.shape == old(cube.shape) && cube.data == old(cube.data)
    ensures cube.mask == old(cube.mask) && cube.regionLabels == old(cube.regionLabels)
  {
    var gridAreas := TileGridAreas(cube, fx, load);
    if gridAreas.Err? {
      return Err(gridAreas.error);
    }
    if fx == [] {
      if "latitude" !in cube.coords {
        return Err(CoordinateNotFound("latitude"));
      }
      if cube.coords["latitude"].ndim == 2 {
        return Err(CoordinateMultiDim("latitude"));
      }
    }
    var weights: Grid;
    if gridAreas.value.None? || !AnyNonZero(gridAreas.value.value.values) {
      var guessed := GuessBounds(cube, AreaCoords);
      if guessed.Err? {
        return Err(guessed.error);
      }
      weights := areaWeights(cube.shape, cube.coords);
    } else {
      weights := gridAreas.value.value;
    }
    if cube.shape != weights.shape {
      return Err(AreaShapeMismatch(cube.shape, weights.shape));
    }
    if operator !in table.operations {
      return Err(UnknownOperator(operator));
    }
    var operation := table.operations[operator];
    if operator == "mean" {
      return Ok(Collapse(AreaCoords, operation, Some(weights)));
    }
    return Ok(Collapse(AreaCoords, operation, None));
  }

  /** The two dispatches disagree on case: with `mean` weighted, `MEAN`
      weights a zonal or meridional collapse but not an area one, while
      `mean` weights all three. */
  lemma CaseSensitivityDiffers(table: OperatorTable)
    requires "mean" in table.weightedOperators
    ensures ZonalWeighted("MEAN", table) && !AreaWeighted("MEAN")
    ensures AreaWeighted("mean") && ZonalWeighted("mean", table)
  {
    assert Lower("MEAN") == "mean";
    assert Lower("mean") == "mean";
  }
}

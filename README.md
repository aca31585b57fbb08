# Area preprocessor of ESMValCore, modelled in Dafny

This project models the horizontal "area" preprocessor of ESMValCore
(`esmvalcore/preprocessor/_area.py`). It covers the zonal, meridional and
area statistics, the tiling of fx cell-area grids to a cube's shape,
bounding-box extraction and named-region extraction. An iris cube is
reduced to a `Cubes.Cube` object with these parts:

- a shape;
- a flattened payload and its mask;
- numeric coordinates by name, each with a number of dimensions, points and a bounds state;
- the labels of an optional `region` coordinate.

An iris collapse is not computed. It is recorded as a `Statistics.Collapse`
value that holds the coordinates, the aggregator and the weights, if any.

Modules, one per component of the source file:

- `Errors`: `Option`, `Result`, and one `Error` constructor per exception raised.
- `NdArrays`: row-major arrays (`Grid`), `Stack` (what `da.stack` does) and the reference tiling `Tile`.
- `FxFiles`: the ordered fx dictionary, the "last file present wins" rule and the loading loop.
- `Cubes`: the `Cube` class and `_guess_bounds`.
- `Statistics`: zonal/meridional dispatch, `tile_grid_areas` and `area_statistics`.
- `Regions`: `extract_region` and `extract_named_regions`.

Where a function of the source works step by step, the model is a method.
This covers the fx loop, the `for shape in [1, 0]` stacking loop, the
bounds-guessing loop and the four `mask +=` accumulations. Each such method is
proved equal to a function (`Loaded`, `TiledGridAreas`, `WithGuessedBounds`),
or it states the new mask cell by cell. The properties are proved about those
functions.

Behaviours of the code that the model keeps:

- `tile_grid_areas` compares the grid's *whole* shape with `cube.shape[-2:]`.
  So a grid of rank 3 can never reach the branch for a 4-D cube with a 3-D
  grid. `TileGridAreas` marks that branch with `assert false`, and
  `ThreeDimGridOnFourDimCube` states the rejection.
- A grid of rank 1 is rejected by the shape check on any cube of rank 2 or
  more, not by the rank check (`OneDimGridIsShapeMismatch`).
- A cube of rank 3 or 4 with a leading dimension of length zero leaves
  `da.stack` an empty list of copies, which dask rejects with a
  `ValueError`. It is modelled as the error `NothingToStack`.
- On an irregular grid, a payload that is not a masked array has the mask
  `nomask`. A `masked_where` mask also shrinks to `nomask` when no point
  passes its test. So once some cell lies outside the box, `mask` becomes
  an array shaped like one horizontal field. On a cube with leading
  dimensions, dask then refuses that mask (`MaskError`) before `cube.data`
  is replaced. It is modelled as the error `MaskNotCompatible`. The one
  exception is a horizontal field of a single cell: dask broadcasts a mask
  of size one, so every cell ends up masked.
- A non-empty fx mapping whose values are all `None` fails with an
  `AttributeError` when `.shape` is read. It is modelled as the error
  `NoneHasNoShape`.
- Zonal and meridional statistics weight when `operator.lower()` is in
  `weighted_operators` and an fx file was loaded. Area statistics weight only
  for the exact string `mean` (`CaseSensitivityDiffers`).
- `extract_named_regions` with an empty list passes every check. iris's
  `extract` then returns `None`, which is modelled as `NoCube`.

Parameters stand for what the code delegates:

- `load: string -> Grid` is the array `iris.load_cube(fx_file)` yields.
- `areaWeights` stands for `iris.analysis.cartography.area_weights`, as a function of the cube's shape and coordinates.
- `OperatorTable` stands for `get_iris_analysis_operation` (a partial map from operator names) and the set `weighted_operators`.
- `fx_files=None` and `{}` are both falsy in the source, so both are the empty sequence.

## Model

| member | source | states |
|---|---|---|
| `FxFiles.LoadFx` | esmvalcore/preprocessor/_area.py:238-247 | the fx loop skips `None` values and leaves the grid of the last file present; it finds a grid iff some entry names a file |
| `FxFiles.LastFxFileIsLastPresent` | esmvalcore/preprocessor/_area.py:240-245 | file `f` is selected iff some entry holds `f` and every later entry holds `None` (later entries overwrite, nothing is merged) |
| `FxFiles.LastFxFileNone` | esmvalcore/preprocessor/_area.py:204-214 | no grid is loaded iff every fx value is `None` |
| `Statistics.ZonalMeridionalOutcome` | esmvalcore/preprocessor/_area.py:193-219 | a missing latitude raises `CoordinateNotFoundError` and a 2-D latitude raises `CoordinateMultiDimError`, both before the operator or fx files matter; otherwise an unknown operator raises; success iff latitude is not 2-D and the operator is known; exactly `[coord]` is collapsed; weights are passed iff some fx entry names a file and `operator.lower()` is weighted, and they are the last file's grid |
| `Statistics.ZonalMeridionalStatistics` | esmvalcore/preprocessor/_area.py:170-219 | the implementation, with its loading loop, returns `ZonalMeridionalOutcome` |
| `Statistics.ZonalStatistics` | esmvalcore/preprocessor/_area.py:118-119 | zonal statistics collapse `longitude` only |
| `Statistics.MeridionalStatistics` | esmvalcore/preprocessor/_area.py:166-167 | meridional statistics collapse `latitude` only |
| `Statistics.TiledGridAreas` | esmvalcore/preprocessor/_area.py:238-271 | no fx files give no weights; otherwise it succeeds, always with weights, iff the last grid read has shape `cube.shape[-2:]`, the cube has at most four dimensions and no leading dimension is zero; any tiled result has exactly the cube's shape; with at most two dimensions (equal ranks) the grid read is returned unchanged |
| `Statistics.TileGridAreas` | esmvalcore/preprocessor/_area.py:222-271 | the implementation (loading loop, rank dispatch, repeated stacking) returns `TiledGridAreas` |
| `Statistics.StackLevelsThenTimes` | esmvalcore/preprocessor/_area.py:257-260 | stacking `shape[1]` copies, then `shape[0]` copies, equals one tiling over both leading dimensions; a zero count makes `da.stack` raise |
| `Statistics.TiledCells` | esmvalcore/preprocessor/_area.py:249-266 | a successful result has the cube's shape, and its flat cell `i` is cell `i mod Y*X` of the last grid read, which has shape `cube.shape[-2:]` |
| `Statistics.TileNothingWhenEqual` | esmvalcore/preprocessor/_area.py:253-254 | when cube and grid ranks are equal the grid is returned unchanged |
| `Statistics.TiledSlice4` | esmvalcore/preprocessor/_area.py:257-260 | for a 4-D cube (T, L, Y, X) every `[t][l]` slice of the tiled weights equals the fx grid |
| `Statistics.TiledSlice3` | esmvalcore/preprocessor/_area.py:264-266 | for a 3-D cube (T, Y, X) every `[t]` slice of the tiled weights equals the fx grid |
| `Statistics.TiledGridAreasErrors` | esmvalcore/preprocessor/_area.py:249-270 | when each error is raised: all-`None` fx values; a grid shape differing from `cube.shape[-2:]`; a zero-length leading dimension on a 3-D or 4-D cube; a cube rank above 4, reported with grid rank 2 |
| `Statistics.OneDimGridIsShapeMismatch` | esmvalcore/preprocessor/_area.py:249-251 | a 1-D grid on a cube of rank 2 or more raises the shape `ValueError`, never the rank `ValueError` |
| `Statistics.ThreeDimGridOnFourDimCube` | esmvalcore/preprocessor/_area.py:249-263 | a 3-D grid on a 4-D cube always fails the shape check, so the 4-D/3-D branch never runs |
| `Statistics.AreaStatisticsOutcome` | esmvalcore/preprocessor/_area.py:322-350 | tiling errors come first and leave the cube alone; no fx files with a missing or 2-D latitude raise; fx weights with a non-zero cell leave the coordinates untouched; otherwise bounds are guessed in place, whatever the operator, for longitude then latitude where missing (a missing coordinate raises and keeps the earlier guess), and computed weights of another shape raise the shape `ValueError`; an unknown operator fails exactly when every earlier check passed; it succeeds iff none of these applies; the collapse is over `['longitude', 'latitude']`, weighted iff the operator is exactly `mean`, with weights of the cube's shape, the fx weights when some cell is non-zero and otherwise computed after both coordinates have bounds |
| `Statistics.AreaCollapse` | esmvalcore/preprocessor/_area.py:339-350 | the operator is looked up (unknown names fail); the collapse is over `['longitude', 'latitude']` with the weights iff the operator is exactly `mean` |
| `Statistics.AnyNonZero` | esmvalcore/preprocessor/_area.py:330 | `grid_areas.any()` holds iff some cell is non-zero |
| `Statistics.AreaStatistics` | esmvalcore/preprocessor/_area.py:274-350 | the implementation returns `AreaStatisticsOutcome` and leaves the cube's shape, data and mask unchanged |
| `Statistics.CaseSensitivityDiffers` | esmvalcore/preprocessor/_area.py:344-347 | `MEAN` weights a zonal/meridional collapse (lowered) but not an area collapse (exact match); `mean` weights both |
| `Cubes.GuessBounds` | esmvalcore/preprocessor/_area.py:18-24 | coordinates are visited in order; bounds are guessed only where missing; a missing coordinate raises and keeps the guesses already made; nothing else in the cube changes |
| `Cubes.WithGuessedBounds` | esmvalcore/preprocessor/_area.py:21-23 | afterwards every named coordinate has bounds; coordinates not named, or already bounded, are unchanged |
| `Cubes.FirstMissing` | esmvalcore/preprocessor/_area.py:22 | the index of the first name that is not a coordinate of the cube |
| `Regions.ExtractRegion` | esmvalcore/preprocessor/_area.py:62-78 | regular grid: the two intersections are requested and the cube is untouched; irregular grid: a missing longitude raises; a plain payload on a cube with leading dimensions, a horizontal field of more than one cell and some cell outside the box raises the mask error, mask untouched; otherwise the same cube comes back, and a cell is masked iff it was masked or its latitude or longitude lies outside the inclusive box; shape, values and coordinates are unchanged |
| `Regions.BoxMask` | esmvalcore/preprocessor/_area.py:72-76 | the mask starts as the payload's, each cell ends masked iff it was or its broadcast point is outside the box, and it is an array rather than `nomask` iff the payload had a mask or some cell is outside |
| `Regions.AnyWhere` | esmvalcore/preprocessor/_area.py:73-76 | a `masked_where` mask is not `nomask` iff some point passes the test |
| `Regions.OrWhere` | esmvalcore/preprocessor/_area.py:73-76 | one `mask +=` step ORs an out-of-range test into every cell, broadcasting the horizontal points |
| `Regions.ExtractNamedRegions` | esmvalcore/preprocessor/_area.py:380-394 | `TypeError` iff the selector is not a string, list, tuple or set; an error iff some requested label is absent, reporting the missing and available sets; no cube iff nothing was requested; otherwise exactly the cells with a requested label, in the cube's order |
| `Regions.Requested` | esmvalcore/preprocessor/_area.py:380-385 | a string becomes a one-element request; selectors other than a string, list, tuple or set are rejected |
| `Regions.KeepIndices` | esmvalcore/preprocessor/_area.py:393-394 | every kept index is in range and labelled with a requested region |
| `Regions.KeepIndicesSelects` | esmvalcore/preprocessor/_area.py:393-394 | the kept indices are increasing, in range, all labelled with a requested region, and include every such cell |
| `Regions.SelectsUnique` | esmvalcore/preprocessor/_area.py:393-394 | only one index sequence has those properties, so the result depends on the cube's order alone |
| `Regions.RequestOrderIrrelevant` | esmvalcore/preprocessor/_area.py:393 | two requests naming the same labels, in any order or as a set, extract the same cells |
| `Regions.NamedRegionsSingle` | tests/unit/preprocessor/_area/test_area.py:149-151 | `'region1'` extracts the first cell of the test cube |
| `Regions.NamedRegionsPair` | tests/unit/preprocessor/_area/test_area.py:154-156 | two regions, asked in either order, extract both cells in the cube's order |
| `Regions.NamedRegionsUnknown` | tests/unit/preprocessor/_area/test_area.py:159-160 | `'reg_A'` raises, naming `{'reg_A'}` and the three available labels |
| `NdArrays.Stack` | esmvalcore/preprocessor/_area.py:259-266 | `da.stack` of `n > 0` copies adds a leading axis of length `n`, and every sub-array along it is the grid |
| `NdArrays.RepeatRepeat` | esmvalcore/preprocessor/_area.py:258-260 | replicating `a` times and then `b` times is replicating `a * b` times |
| `NdArrays.StackTile` | esmvalcore/preprocessor/_area.py:259-260 | one `da.stack` of copies of a tiling adds one leading dimension to the tiling |
| `NdArrays.TileBlock` | esmvalcore/preprocessor/_area.py:259 | every copy inside a tiling equals the grid |
| `NdArrays.TileAt` | esmvalcore/preprocessor/_area.py:259 | flat cell `i` of a tiling holds cell `i mod size` of the grid |
| `NdArrays.TileSlice2` | esmvalcore/preprocessor/_area.py:257-260 | the `[t][l]` slice of a tiling over (T, L) is the grid |

## Left out

- The iris collapse numerics (mean, median, standard deviation, variance, min, max) are floating-point library computations. A collapse is recorded as a value, not computed. So the numeric results of the unit tests (all ones, all zeros) and the claim that constant weights give the unweighted mean are not modelled.
- `iris.analysis.cartography.area_weights` (spherical cell areas) is the parameter `areaWeights`. Its own failures, such as a missing coordinate system, are not modelled.
- `get_iris_analysis_operation` and `weighted_operators` come from `_shared`, which is not part of this model. They are the parameter `OperatorTable`; an operator missing from its map is the error `UnknownOperator`.
- The regular-grid path of `extract_region` (`cube.intersection`, longitude wrapping into [0, 360]) is iris semantics over floats. It is recorded as the two requested intersections, not computed. So the longitude-normalisation behaviour is not modelled.
- `iris.load_cube` file I/O, logging and dask laziness (`da.stack`, `core_data`, `np.array`) are left out. Loading is the parameter `load`, and stacking is row-major replication.
- `Statistics.Lower`: lower-cases ASCII letters only, where Python's `str.lower` handles all of Unicode.
- `Cubes.GuessBounds`: guessing always succeeds. iris's `guess_bounds` fails for 2-D or single-point coordinates, and that failure is not modelled.
- `Regions.ExtractRegion`: irregular latitude and longitude are taken to span the last two dimensions, one point per horizontal cell, broadcast over the leading dimensions; coordinates of another layout, and the numpy broadcasting errors they would cause, are not modelled. The mask error is modelled only for the `nomask` payload with some cell outside the box. A plain payload whose cells all lie inside ends with an all-false mask. Floating-point NaN comparisons are not modelled, because coordinates are reals.
- `Regions.ExtractNamedRegions`: the result records which cells are kept. iris dropping the region dimension when only one cell matches, and the data carried along, are not modelled.
- `Regions.Selector`: list, tuple and set items are strings. A non-string hashable item would be reported as a missing region; an unhashable one makes `set(regions)` raise `TypeError`. Neither is modelled.
- Duplicate keys in the fx dictionary cannot arise in Python. The sequence that stands for the dictionary does not rule them out, and the last-present rule does not depend on them.
- `esmvalcore/preprocessor/_derive/gtintpp.py`, `esmvalcore/preprocessor/_emac/_derive/SHIP_NO_s.py`, `esmvalcore/cmor/_fixes/cmip6/cesm2_waccm.py` and `esmvalcore/cmor/_fixes/cmip6/cnrm_cm6_1_hr.py` are not part of this model. They are a floating-point masked sum, a single collapse, netCDF file edits and empty fix classes.

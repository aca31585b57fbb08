/** Optional values, results and the exceptions raised by the area
    preprocessors, as values. */
module Errors {

  datatype Option<+T> = None | Some(value: T)

  /** One constructor per exception the area operations can raise. */
  datatype Error =
    /** iris `CoordinateNotFoundError`: `cube.coord(name)` on a cube without it. */
    | CoordinateNotFound(name: string)
    /** iris `CoordinateMultiDimError`: an operation needs a 1-D coordinate. */
    | CoordinateMultiDim(name: string)
    /** `AttributeError`: the fx mapping is non-empty but names no file, so
        `grid_areas` is still `None` when its `.shape` is read. */
    | NoneHasNoShape
    /** `ValueError`: the fx grid's shape is not the cube's last two dimensions. */
    | FxShapeMismatch(grid: seq<nat>, cube: seq<nat>)
    /** `ValueError` from `da.stack`: a leading dimension of length zero
        leaves no copies to stack. */
    | NothingToStack
    /** `ValueError`: no tiling rule for this pair of ranks. */
    | RanksNotRecognised(cubeRank: nat, gridRank: nat)
    /** `ValueError`: the (tiled or computed) weights do not have the cube's shape. */
    | AreaShapeMismatch(cube: seq<nat>, grid: seq<nat>)
    /** `MaskError`: the new mask does not have the payload's shape. */
    | MaskNotCompatible(data: seq<nat>, mask: seq<nat>)
    /** The operator name has no iris aggregator. */
    | UnknownOperator(operator: string)
    /** `TypeError`: the region selector is not a string, list, tuple or set. */
    | UnacceptableRegions
    /** `ValueError`: requested region labels missing from the cube. */
    | RegionsNotInCube(invalid: set<string>, available: set<string>)

  datatype Result<+T> = Ok(value: T) | Err(error: Error)
}

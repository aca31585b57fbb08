/** The part of an iris cube that the area operations look at, and
    `_guess_bounds`, which updates a cube's coordinates in place. */
module Cubes {
  import opened Errors
  import opened NdArrays

  /** Whether a coordinate carries cell bounds, and where they came from. */
  datatype Bounds = Unbounded | Supplied | Guessed

  /** A numeric coordinate: its number of dimensions, its flattened points
      and its bounds. */
  datatype Coord = Coord(ndim: nat, points: seq<real>, bounds: Bounds)

  class Cube {
    var shape: seq<nat>
    /** The data payload, flattened in row-major order. */
    var data: seq<real>
    /** The data mask, one flag per cell; `None` is numpy's `nomask`, the
        mask of a payload that is not a masked array. */
    var mask: Option<seq<bool>>
    /** Numeric coordinates by name (`latitude`, `longitude`, `time`, ...). */
    var coords: map<string, Coord>
    /** The points of the auxiliary `region` coordinate, if the cube has one. */
    var regionLabels: Option<seq<string>>

    /** Number of cells of one horizontal field: the product of the last two
        dimensions. */
    function FieldSize(): nat
      reads this
    {
      Product(LastTwo(shape))
    }

    /** The payload fills the shape, a mask has one flag per cell, and the
        coordinates of an irregular grid (a latitude that is not 1-D, and the
        longitude beside it if there is one) hold one point per horizontal
        cell. */
    ghost predicate Valid()
      reads this
      ensures Valid() ==> (|data| > 0 ==> FieldSize() > 0)
    {
      ProductConcat(Leading(shape), LastTwo(shape));
      && |data| == Product(shape)
      && (mask.Some? ==> |mask.value| == |data|)
      && ("latitude" in coords && coords["latitude"].ndim != 1 ==>
            && |coords["latitude"].points| == FieldSize()
            && ("longitude" in coords ==> |coords["longitude"].points| == FieldSize()))
    }
  }

  /** Index of the first name that is not a coordinate, or `|names|`. */
  function FirstMissing(names: seq<string>, keys: set<string>): (k: nat)
    ensures k <= |names|
    ensures forall j :: 0 <= j < k ==> names[j] in keys
    ensures k < |names| ==> names[k] !in keys
  {
    if names == [] || names[0] !in keys then 0
    else 1 + FirstMissing(names[1..], keys)
  }

  /** The coordinates after bounds were guessed for each of `names` that
      lacked them. */
  function WithGuessedBounds(coords: map<string, Coord>, names: seq<string>): (r: map<string, Coord>)
    ensures r.Keys == coords.Keys
    ensures forall c :: c in r ==> r[c].ndim == coords[c].ndim && r[c].points == coords[c].points
    ensures forall c :: c in r && c in names ==> r[c].bounds != Unbounded
    ensures forall c :: c in r && (c !in names || coords[c].bounds != Unbounded) ==> r[c] == coords[c]
  {
    map c | c in coords ::
      if c in names && coords[c].bounds == Unbounded then coords[c].(bounds := Guessed) else coords[c]
  }

  /** `_guess_bounds(cube, coords)`: for each name in order, look the
      coordinate up and guess its bounds if it has none. A missing name
      raises, leaving the guesses already made in place. */
  method GuessBounds(cube: Cube, names: seq<string>) returns (r: Result<()>)
    modifies cube`coords
    ensures cube.shape == old(cube.shape) && cube.data == old(cube.data)
    ensures cube.mask == old(cube.mask) && cube.regionLabels == old(cube.regionLabels)
    ensures var k := FirstMissing(names, old(cube.coords).Keys);
            && cube.coords == WithGuessedBounds(old(cube.coords), names[..k])
            && r == if k < |names| then Err(CoordinateNotFound(names[k])) else Ok(())
  {
    ghost var before := cube.coords;
    ghost var k := FirstMissing(names, before.Keys);
    var coords := cube.coords;
    var i := 0;
    while i < |names|
      invariant i <= k
      invariant coords == WithGuessedBounds(before, names[..i])
    {
      var name := names[i];
      if name !in coords {
        assert i == k;
        cube.coords := coords;
        return Err(CoordinateNotFound(name));
      }
      var coord := coords[name];
      GuessOneMore(before, names, i);
      if coord.bounds == Unbounded {
        coords := coords[name := coord.(bounds := Guessed)];
      }
      i := i + 1;
    }
    assert i == k && names[..i] == names;
    cube.coords := coords;
    return Ok(());
  }

  /** One more iteration of the `_guess_bounds` loop. */
  lemma GuessOneMore(coords: map<string, Coord>, names: seq<string>, i: nat)
    requires i < |names| && names[i] in coords
    ensures var w := WithGuessedBounds(coords, names[..i]);
            WithGuessedBounds(coords, names[..i + 1]) ==
              if w[names[i]].bounds == Unbounded then w[names[i] := w[names[i]].(bounds := Guessed)] else w
  {
    assert names[..i + 1] == names[..i] + [names[i]];
  }
}

/** `extract_region` (bounding box) and `extract_named_regions`. */
module Regions {
  import opened Errors
  import opened NdArrays
  import opened Cubes

  // ---------------------------------------------------------------------
  // extract_region

  datatype Range = Range(lo: real, hi: real)

  /** What `extract_region` hands back: on a regular grid the sub-cube of two
      `cube.intersection` calls (the box, then longitude into [0, 360]); on an
      irregular grid the input cube itself, now masked. */
  datatype RegionSubset =
    | Intersection(longitude: Range, latitude: Range, wrapped: Range)
    | MaskedInPlace

  /** A cell lies outside the box; the four bounds themselves are inside. */
  predicate OutsideBox(lat: real, lon: real, startLon: real, endLon: real, startLat: real, endLat: real)
  {
    lat < startLat || lat > endLat || lon < startLon || lon > endLon
  }

  /** `mask += np.ma.masked_where(test(points), points).mask`: OR the test of
      each point into the mask, the points of one horizontal field being
      broadcast over the leading dimensions. */
  method OrWhere(mask: array<bool>, points: seq<real>, test: real -> bool)
    requires mask.Length > 0 ==> |points| > 0
    modifies mask
    ensures forall i :: 0 <= i < mask.Length ==> mask[i] == (old(mask[i]) || test(points[i % |points|]))
  {
    for i := 0 to mask.Length
      invariant forall j :: 0 <= j < i ==> mask[j] == (old(mask[j]) || test(points[j % |points|]))
      invariant forall j :: i <= j < mask.Length ==> mask[j] == old(mask[j])
    {
      mask[i] := mask[i] || test(points[i % |points|]);
    }
  }

  /** numpy's `masked_where(test(points), points).mask` shrinks to `nomask`
      unless some point passes the test; `hit` says whether one does. */
  method AnyWhere(points: seq<real>, test: real -> bool) returns (hit: bool)
    ensures hit <==> exists j :: 0 <= j < |points| && test(points[j])
  {
    hit := false;
    for j := 0 to |points|
      invariant hit <==> exists k :: 0 <= k < j && test(points[k])
    {
      if test(points[j]) {
        hit := true;
      }
    }
  }

  /** Whether cell `i` is masked; `nomask` masks none. */
  function MaskedAt(mask: Option<seq<bool>>, i: nat): bool
    requires mask.Some? ==> i < |mask.value|
  {
    mask.Some? && mask.value[i]
  }

  /** Some horizontal cell of an irregular grid lies outside the box. */
  predicate AnyOutside(lats: seq<real>, lons: seq<real>, startLon: real, endLon: real, startLat: real, endLat: real)
    requires |lats| == |lons|
  {
    exists j :: 0 <= j < |lats| && OutsideBox(lats[j], lons[j], startLon, endLon, startLat, endLat)
  }

  /** `extract_region(cube, start_longitude, end_longitude, start_latitude,
      end_latitude)`. */
  method ExtractRegion(cube: Cube, startLon: real, endLon: real, startLat: real, endLat: real)
    returns (r: Result<RegionSubset>)
    requires cube.Valid()
    modifies cube`mask
    ensures cube.Valid()
    // only the mask can change: shape, payload values and coordinates stay
    ensures cube.shape == old(cube.shape) && cube.data == old(cube.data)
    ensures cube.coords == old(cube.coords) && cube.regionLabels == old(cube.regionLabels)
    ensures "latitude" !in cube.coords ==>
              r == Err(CoordinateNotFound("latitude")) && cube.mask == old(cube.mask)
    ensures "latitude" in cube.coords && cube.coords["latitude"].ndim == 1 ==>
              && r == Ok(Intersection(Range(startLon, endLon), Range(startLat, endLat), Range(0.0, 360.0)))
              && cube.mask == old(cube.mask)
    ensures "latitude" in cube.coords && cube.coords["latitude"].ndim != 1 && "longitude" !in cube.coords ==>
              r == Err(CoordinateNotFound("longitude")) && cube.mask == old(cube.mask)
    // irregular grid with a plain payload: once some cell is outside the box the
    // mask has the shape of one horizontal field, which a cube with leading
    // dimensions rejects before its data is replaced (a one-cell mask is
    // broadcast instead)
    ensures "latitude" in cube.coords && cube.coords["latitude"].ndim != 1 && "longitude" in cube.coords &&
            old(cube.mask).None? && |cube.shape| > 2 && cube.FieldSize() != 1 &&
            AnyOutside(cube.coords["latitude"].points, cube.coords["longitude"].points,
                       startLon, endLon, startLat, endLat) ==>
              r == Err(MaskNotCompatible(cube.shape, LastTwo(cube.shape))) && cube.mask == old(cube.mask)
    // otherwise the same cube comes back, a cell masked iff it was, or its point is outside the box
    ensures "latitude" in cube.coords && cube.coords["latitude"].ndim != 1 && "longitude" in cube.coords &&
            !(old(cube.mask).None? && |cube.shape| > 2 && cube.FieldSize() != 1 &&
              AnyOutside(cube.coords["latitude"].points, cube.coords["longitude"].points,
                         startLon, endLon, startLat, endLat)) ==>
              && r == Ok(MaskedInPlace)
              && cube.mask.Some? && |cube.mask.value| == |cube.data|
              && forall i :: 0 <= i < |cube.data| ==>
                   (cube.mask.value[i] <==>
                      MaskedAt(old(cube.mask), i) ||
                      OutsideBox(cube.coords["latitude"].points[i % cube.FieldSize()],
                                 cube.coords["longitude"].points[i % cube.FieldSize()],
                                 startLon, endLon, startLat, endLat))
  {
    if "latitude" !in cube.coords {
      return Err(CoordinateNotFound("latitude"));
    }
    if cube.coords["latitude"].ndim == 1 {
      return Ok(Intersection(Range(startLon, endLon), Range(startLat, endLat), Range(0.0, 360.0)));
    }
    var lats := cube.coords["latitude"].points;
    if "longitude" !in cube.coords {
      return Err(CoordinateNotFound("longitude"));
    }
    var lons := cube.coords["longitude"].points;
    var before := cube.mask;
    var mask, shaped := BoxMask(before, |cube.data|, lats, lons, startLon, endLon, startLat, endLat);
    if before.None? && shaped && |cube.shape| > 2 && cube.FieldSize() != 1 {
      return Err(MaskNotCompatible(cube.shape, LastTwo(cube.shape)));
    }
    cube.mask := Some(mask);
    return Ok(MaskedInPlace);
  }

  /** The four `mask +=` steps over a payload of `n` cells: the mask starts
      as the payload's own, and `shaped` says whether it ends as an array
      rather than `nomask`. */
  method BoxMask(before: Option<seq<bool>>, n: nat, lats: seq<real>, lons: seq<real>,
                 startLon: real, endLon: real, startLat: real, endLat: real)
    returns (mask: seq<bool>, shaped: bool)
    requires before.Some? ==> |before.value| == n
    requires |lats| == |lons| && (n > 0 ==> |lats| > 0)
    ensures shaped <==> before.Some? || AnyOutside(lats, lons, startLon, endLon, startLat, endLat)
    ensures |mask| == n
    ensures forall i :: 0 <= i < n ==>
              (mask[i] <==> MaskedAt(before, i) ||
                            OutsideBox(lats[i % |lats|], lons[i % |lats|], startLon, endLon, startLat, endLat))
  {
    var m := new bool[n](i requires 0 <= i < n => MaskedAt(before, i));
    shaped := before.Some?;
    var hit := AnyWhere(lats, x => x < startLat);
    shaped := shaped || hit;
    OrWhere(m, lats, x => x < startLat);
    hit := AnyWhere(lats, x => x > endLat);
    shaped := shaped || hit;
    OrWhere(m, lats, x => x > endLat);
    hit := AnyWhere(lons, x => x < startLon);
    shaped := shaped || hit;
    OrWhere(m, lons, x => x < startLon);
    hit := AnyWhere(lons, x => x > endLon);
    shaped := shaped || hit;
    OrWhere(m, lons, x => x > endLon);
    AnyOutsideSplits(lats, lons, startLon, endLon, startLat, endLat);
    mask := m[..];
  }

  /** A cell is outside the box iff one of the four tests picks it. */
  lemma AnyOutsideSplits(lats: seq<real>, lons: seq<real>, startLon: real, endLon: real, startLat: real, endLat: real)
    requires |lats| == |lons|
    ensures AnyOutside(lats, lons, startLon, endLon, startLat, endLat) <==>
              (exists j :: 0 <= j < |lats| && lats[j] < startLat) ||
              (exists j :: 0 <= j < |lats| && lats[j] > endLat) ||
              (exists j :: 0 <= j < |lons| && lons[j] < startLon) ||
              (exists j :: 0 <= j < |lons| && lons[j] > endLon)
  {
  }

  // ---------------------------------------------------------------------
  // extract_named_regions

  /** The `regions` argument: a string, a list, a tuple, a set, or anything
      else (a number, a dict, ...). */
  datatype Selector =
    | Str(name: string)
    | List(items: seq<string>)
    | Tuple(items: seq<string>)
    | Set(members: set<string>)
    | Other

  /** The labels asked for, once a string is wrapped into a one-element list;
      `None` for a selector of no accepted type. */
  function Requested(regions: Selector): (r: Option<set<string>>)
    ensures r.None? <==> regions.Other?
    ensures regions.Str? ==> r == Some({regions.name})
  {
    match regions
    case Str(name) => Some({name})
    case List(items) => Some(set x | x in items)
    case Tuple(items) => Some(set x | x in items)
    case Set(members) => Some(members)
    case Other => None
  }

  /** The result of `cube.extract`: `None` when no cell matches, otherwise
      the sub-cube made of the cells at `kept` along the region dimension. */
  datatype Extracted = NoCube | SubCube(kept: seq<nat>)

  /** Indices of the cells whose label is wanted, in the cube's order. */
  function KeepIndices(labels: seq<string>, wanted: set<string>): (r: seq<nat>)
    ensures forall i :: 0 <= i < |r| ==> r[i] < |labels| && labels[r[i]] in wanted
  {
    if labels == [] then []
    else
      var n := |labels| - 1;
      KeepIndices(labels[..n], wanted) + (if labels[n] in wanted then [n] else [])
  }

  /** `kept` lists, in increasing order, exactly the indices whose label is
      wanted. */
  ghost predicate Selects(labels: seq<string>, wanted: set<string>, kept: seq<nat>)
  {
    && StrictlyIncreasing(kept)
    && (forall i :: 0 <= i < |kept| ==> kept[i] < |labels| && labels[kept[i]] in wanted)
    && (forall j :: 0 <= j < |labels| && labels[j] in wanted ==> j in kept)
  }

  lemma {:induction false} KeepIndicesSelects(labels: seq<string>, wanted: set<string>)
    ensures Selects(labels, wanted, KeepIndices(labels, wanted))
    ensures forall i :: 0 <= i < |KeepIndices(labels, wanted)| ==> KeepIndices(labels, wanted)[i] < |labels|
  {
    if labels != [] {
      var n := |labels| - 1;
      var pre := labels[..n];
      KeepIndicesSelects(pre, wanted);
      var k := KeepIndices(pre, wanted);
      assert forall i :: 0 <= i < |k| ==> labels[k[i]] == pre[k[i]];
      assert forall j :: 0 <= j < n ==> labels[j] == pre[j];
    }
  }

  predicate StrictlyIncreasing(s: seq<nat>)
  {
    forall i, j :: 0 <= i < j < |s| ==> s[i] < s[j]
  }

  /** Two strictly increasing sequences with the same elements are equal. */
  lemma {:induction false} IncreasingSameElements(a: seq<nat>, b: seq<nat>)
    requires StrictlyIncreasing(a) && StrictlyIncreasing(b)
    requires forall x :: x in a <==> x in b
    ensures a == b
    decreases |a|
  {
    assert a != [] ==> a[0] in b;
    assert b != [] ==> b[0] in a;
    if a != [] {
      assert b != [] && b[0] in a;
      assert a[0] == b[0];
      forall x | x in a[1..] ensures x in b[1..] {
        assert x in b && x > a[0];
      }
      forall x | x in b[1..] ensures x in a[1..] {
        assert x in a && x > b[0];
      }
      IncreasingSameElements(a[1..], b[1..]);
      assert a == [a[0]] + a[1..] && b == [b[0]] + b[1..];
    }
  }

  /** At most one sequence selects: the kept cells are determined by the set
      of wanted labels and the cube's order alone. */
  lemma SelectsUnique(labels: seq<string>, wanted: set<string>, a: seq<nat>, b: seq<nat>)
    requires Selects(labels, wanted, a) && Selects(labels, wanted, b)
    ensures a == b
  {
    IncreasingSameElements(a, b);
  }

  /** `extract_named_regions(cube, regions)`. */
  function ExtractNamedRegions(cube: Cube, regions: Selector): (r: Result<Extracted>)
    reads cube
    // anything but a string, list, tuple or set is a TypeError, raised first
    ensures r == Err(UnacceptableRegions) <==> regions.Other?
    ensures !regions.Other? && cube.regionLabels.None? ==> r == Err(CoordinateNotFound("region"))
    ensures !regions.Other? && cube.regionLabels.Some? ==>
              var wanted := Requested(regions).value;
              var labels := cube.regionLabels.value;
              var available := set l | l in labels;
              // every requested label must occur on the cube
              && (r.Err? <==> !(wanted <= available))
              && (r.Err? ==> r.error == RegionsNotInCube(wanted - available, available))
              // iris returns no cube when nothing was requested
              && (r == Ok(NoCube) <==> wanted == {})
              // otherwise exactly the cells with a requested label, in the cube's order
              && (r.Ok? && r.value.SubCube? ==> Selects(labels, wanted, r.value.kept))
  {
    match Requested(regions)
    case None => Err(UnacceptableRegions)
    case Some(wanted) =>
      match cube.regionLabels
      case None => Err(CoordinateNotFound("region"))
      case Some(labels) =>
        var available := set l | l in labels;
        var invalid := wanted - available;
        if invalid != {} then Err(RegionsNotInCube(invalid, available))
        else
          NoInvalidMeansIncluded(wanted, available);
          var kept := KeepIndices(labels, wanted);
          KeepIndicesSelects(labels, wanted);
          SomeKeptWhenWanted(labels, wanted, kept);
          if kept == [] then Ok(NoCube) else Ok(SubCube(kept))
  }

  lemma NoInvalidMeansIncluded(wanted: set<string>, available: set<string>)
    ensures wanted - available == {} <==> wanted <= available
  {
    if wanted - available == {} {
      forall w | w in wanted ensures w in available {
        assert w !in wanted - available;
      }
    }
  }

  /** A wanted label that occurs on the cube keeps at least one cell. */
  lemma SomeKeptWhenWanted(labels: seq<string>, wanted: set<string>, kept: seq<nat>)
    requires Selects(labels, wanted, kept)
    ensures wanted != {} && wanted <= (set l | l in labels) ==> kept != []
    ensures wanted == {} ==> kept == []
  {
    assert kept != [] ==> labels[kept[0]] in wanted;
    if wanted != {} && wanted <= (set l | l in labels) {
      var w :| w in wanted;
      assert w in set l | l in labels;
      var j :| 0 <= j < |labels| && labels[j] == w;
      assert j in kept;
    }
  }

  /** The request order does not matter: two lists naming the same labels
      extract the same cells. */
  lemma RequestOrderIrrelevant(cube: Cube, xs: seq<string>, ys: seq<string>)
    requires forall x :: x in xs <==> x in ys
    ensures ExtractNamedRegions(cube, List(xs)) == ExtractNamedRegions(cube, List(ys))
    ensures ExtractNamedRegions(cube, List(xs)) == ExtractNamedRegions(cube, Set(set x | x in ys))
  {
    assert (set x | x in xs) == (set x | x in ys);
  }

  /** The cube of the unit test: three cells labelled region1..region3. */
  const TestLabels: seq<string> := ["region1", "region2", "region3"]

  lemma TestLabelsKept()
    ensures KeepIndices(TestLabels, {"region1"}) == [0]
    ensures KeepIndices(TestLabels, {"region1", "region2"}) == [0, 1]
  {
    var labels := TestLabels;
    var one, two := {"region1"}, {"region1", "region2"};
    assert "region2"[6] != "region1"[6] && "region3"[6] != "region1"[6] && "region3"[6] != "region2"[6];
    assert "region2" !in one && "region3" !in one && "region3" !in two;
    assert labels[..2] == ["region1", "region2"] && labels[..2][..1] == ["region1"];
    assert labels[..2][..1][..0] == [];
    assert KeepIndices(labels[..2][..1], one) == [0];
    assert KeepIndices(labels[..2], one) == [0];
    assert KeepIndices(labels[..2][..1], two) == [0];
    assert KeepIndices(labels[..2], two) == [0, 1];
  }

  /** A single label extracts its cell. */
  lemma NamedRegionsSingle(cube: Cube)
    requires cube.regionLabels == Some(TestLabels)
    ensures ExtractNamedRegions(cube, Str("region1")) == Ok(SubCube([0]))
  {
    TestLabelsKept();
    assert "region1" in set l | l in TestLabels;
  }

  /** Two labels, asked in the other order, extract both cells in the cube's order. */
  lemma NamedRegionsPair(cube: Cube)
    requires cube.regionLabels == Some(TestLabels)
    ensures ExtractNamedRegions(cube, List(["region1", "region2"])) == Ok(SubCube([0, 1]))
    ensures ExtractNamedRegions(cube, List(["region2", "region1"])) == Ok(SubCube([0, 1]))
  {
    TestLabelsKept();
    assert (set x | x in ["region1", "region2"]) == {"region1", "region2"};
    assert (set x | x in ["region2", "region1"]) == {"region1", "region2"};
    assert TestLabels[0] == "region1" && TestLabels[1] == "region2";
  }

  /** An unknown label is reported together with the labels present. */
  lemma NamedRegionsUnknown(cube: Cube)
    requires cube.regionLabels == Some(TestLabels)
    ensures ExtractNamedRegions(cube, Str("reg_A")) ==
            Err(RegionsNotInCube({"reg_A"}, {"region1", "region2", "region3"}))
  {
    assert (set l | l in TestLabels) == {"region1", "region2", "region3"};
  }
}

/**
 * BoundarySearch: which districts intersect the map's current view. The
 * bounds file groups districts under regions; only the districts of regions
 * that intersect the view are examined.
 */
module Boundaries {

  /** A latitude/longitude rectangle, as Leaflet's LatLngBounds, in fixed-point degrees. */
  datatype Bounds = Bounds(south: int, west: int, north: int, east: int)

  /** LatLngBounds.intersects: the rectangles overlap or touch. */
  predicate Intersects(a: Bounds, b: Bounds)
  {
    b.north >= a.south && b.south <= a.north && b.east >= a.west && b.west <= a.east
  }

  predicate Contains(outer: Bounds, inner: Bounds)
  {
    outer.south <= inner.south && inner.north <= outer.north && outer.west <= inner.west && inner.east <= outer.east
  }

  datatype District = District(code: string, bounds: Bounds)

  /** A region of the bounds file, with its districts in file order. */
  datatype Region = Region(code: string, bounds: Bounds, districts: seq<District>)

  /** The codes of the districts that intersect view, in order. */
  function DistrictsHit(districts: seq<District>, view: Bounds): (codes: seq<string>)
    ensures |codes| <= |districts|
  {
    if districts == [] then []
    else
      var last := districts[|districts| - 1];
      DistrictsHit(districts[..|districts| - 1], view) + (if Intersects(view, last.bounds) then [last.code] else [])
  }

  /** The districts in view: regions in order, each contributing its intersecting districts if it intersects. */
  function InView(regions: seq<Region>, view: Bounds): seq<string>
  {
    if regions == [] then []
    else
      var last := regions[|regions| - 1];
      InView(regions[..|regions| - 1], view) + (if Intersects(view, last.bounds) then DistrictsHit(last.districts, view) else [])
  }

  /** Found in region r: r intersects view and holds a district with this code that does. */
  predicate FoundIn(r: Region, view: Bounds, code: string)
  {
    Intersects(view, r.bounds) &&
    exists j :: 0 <= j < |r.districts| && r.districts[j].code == code && Intersects(view, r.districts[j].bounds)
  }

  lemma {:induction false} DistrictsHitMembers(districts: seq<District>, view: Bounds, code: string)
    ensures code in DistrictsHit(districts, view) <==>
      exists j :: 0 <= j < |districts| && districts[j].code == code && Intersects(view, districts[j].bounds)
  {
    if districts != [] {
      var init := districts[..|districts| - 1];
      DistrictsHitMembers(init, view, code);
      if exists j :: 0 <= j < |init| && init[j].code == code && Intersects(view, init[j].bounds) {
        var j :| 0 <= j < |init| && init[j].code == code && Intersects(view, init[j].bounds);
        assert districts[j] == init[j];
      }
      if exists j :: 0 <= j < |districts| && districts[j].code == code && Intersects(view, districts[j].bounds) {
        var j :| 0 <= j < |districts| && districts[j].code == code && Intersects(view, districts[j].bounds);
        if j < |init| {
          assert init[j] == districts[j];
        }
      }
    }
  }

  /** A code is reported exactly when some region in view holds an intersecting district with that code. */
  lemma {:induction false} InViewMembers(regions: seq<Region>, view: Bounds, code: string)
    ensures code in InView(regions, view) <==> exists i :: 0 <= i < |regions| && FoundIn(regions[i], view, code)
  {
    if regions != [] {
      var init, last := regions[..|regions| - 1], regions[|regions| - 1];
      InViewMembers(init, view, code);
      DistrictsHitMembers(last.districts, view, code);
      if exists i :: 0 <= i < |init| && FoundIn(init[i], view, code) {
        var i :| 0 <= i < |init| && FoundIn(init[i], view, code);
        assert regions[i] == init[i];
      }
      if exists i :: 0 <= i < |regions| && FoundIn(regions[i], view, code) {
        var i :| 0 <= i < |regions| && FoundIn(regions[i], view, code);
        if i < |init| {
          assert init[i] == regions[i];
        }
      }
    }
  }

  /** Each region's bounds enclose the bounds of its districts. */
  predicate Nested(regions: seq<Region>)
  {
    forall i, j :: 0 <= i < |regions| && 0 <= j < |regions[i].districts| ==>
      Contains(regions[i].bounds, regions[i].districts[j].bounds)
  }

  /**
   * Searching only the regions in view loses nothing when regions enclose
   * their districts: every district whose bounds intersect the view is reported.
   */
  lemma RegionFilterComplete(regions: seq<Region>, view: Bounds, i: nat, j: nat)
    requires Nested(regions)
    requires i < |regions| && j < |regions[i].districts|
    requires Intersects(view, regions[i].districts[j].bounds)
    ensures regions[i].districts[j].code in InView(regions, view)
  {
    assert Contains(regions[i].bounds, regions[i].districts[j].bounds);
    assert FoundIn(regions[i], view, regions[i].districts[j].code);
    InViewMembers(regions, view, regions[i].districts[j].code);
  }

  /** pb.BoundarySearch. */
  class BoundarySearch {
    const regions: seq<Region>
    var districtsInView: seq<string>

    constructor (regions: seq<Region>)
      ensures this.regions == regions && districtsInView == []
    {
      this.regions := regions;
      districtsInView := [];
    }

    /** Recomputes the districts in view for the map bounds. */
    method UpdateBoundaryData(mapBounds: Bounds)
      modifies this
      ensures districtsInView == InView(regions, mapBounds)
    {
      var found: seq<string> := [];
      var i := 0;
      while i < |regions|
        invariant 0 <= i <= |regions|
        invariant found == InView(regions[..i], mapBounds)
      {
        var region := regions[i];
        assert regions[..i + 1][..i] == regions[..i];
        if Intersects(mapBounds, region.bounds) {
          var districts := region.districts;
          var j := 0;
          while j < |districts|
            invariant 0 <= j <= |districts|
            invariant found == InView(regions[..i], mapBounds) + DistrictsHit(districts[..j], mapBounds)
          {
            assert districts[..j + 1][..j] == districts[..j];
            if Intersects(mapBounds, districts[j].bounds) {
              found := found + [districts[j].code];
            }
            j := j + 1;
          }
          assert districts[..j] == districts;
        }
        i := i + 1;
      }
      assert regions[..i] == regions;
      districtsInView := found;
    }
  }
}

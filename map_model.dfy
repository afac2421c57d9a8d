/**
 * pb.MapModel: the state behind the map. It tracks the zones the user has
 * selected and their running population, the district boundary layers that
 * have been downloaded and those shown on the map, the overlay control and
 * its Auto/On/Off setting, and the highlighted zone. Calls into the map view
 * (adding layers, restyling, rewriting the two info boxes) and the boundary
 * downloads it starts are recorded in a ghost event log.
 */
module MapState {
  import opened Wrappers
  import opened Thousands
  import opened Delimited
  import opened Boundaries

  /** A zone of a district's boundary file: its code and population. */
  datatype ZoneData = ZoneData(zone: string, population: int)

  /** The GeoJSON feature of a zone; `selected` is flipped in place by the model. */
  class Feature {
    const zone: string
    const population: int
    var selected: bool

    constructor (zone: string, population: int)
      ensures this.zone == zone && this.population == population && !selected
    {
      this.zone := zone;
      this.population := population;
      selected := false;
    }
  }

  /** The Leaflet layer drawn for one feature (Leaflet keeps the feature on the layer). */
  class Layer {
    const feature: Feature

    constructor (feature: Feature)
      ensures this.feature == feature
    {
      this.feature := feature;
    }
  }

  /** The GeoJSON layer group of one district. */
  datatype DistrictLayer = DistrictLayer(code: string, layers: seq<Layer>)

  /** What the model asks of the map view and the network, in order. */
  datatype ViewEvent =
    | ShowPopulation(population: int)
    | Fill(layer: Layer, selected: bool)
    | Outline(layer: Layer, highlighted: bool)
    | AddLayer(group: DistrictLayer)
    | RemoveLayer(group: DistrictLayer)
    | AddOverlayControl
    | RemoveOverlayControl
    | OverlayText(setting: string, zone: string)
    | Fetch(path: string)

  const MinimumZoom := 12
  const OverlayZoomLevel := 9
  const OverlayStates: seq<string> := ["Auto", "On", "Off"]
  const InitialZoom := 5

  /** The figure the population box shows: grouped when positive, otherwise 0. */
  function PopulationText(population: int): (text: string)
    ensures population > 0 ==> text == NumberWithCommas(population) && ParseGrouped(text) == population
    ensures population <= 0 ==> text == "0"
  {
    NumberWithCommasRoundTrip(population);
    if population > 0 then NumberWithCommas(population) else "0"
  }

  /** The download path of a district's boundary file. */
  function ZonePath(code: string): string
  {
    "resources/popzones/" + code + ".json"
  }

  /** A zone code that can travel in the comma-separated form field: not empty, and no comma in it. */
  predicate CodeOk(zone: string)
  {
    zone != "" && Count(zone, ',') == 0
  }

  /**
   * The boundary files: `home` maps each usable zone code to the one
   * district whose file holds the zone, and codes are unique within a file.
   */
  ghost predicate GeographyOk(boundaries: map<string, seq<ZoneData>>, home: map<string, string>)
  {
    && (forall z :: z in home ==> CodeOk(z))
    && forall d :: d in boundaries ==>
      && (forall i :: 0 <= i < |boundaries[d]| ==> boundaries[d][i].zone in home && home[boundaries[d][i].zone] == d)
      && (forall i, j :: 0 <= i < j < |boundaries[d]| ==> boundaries[d][i].zone != boundaries[d][j].zone)
  }

  /**
   * The entries of m whose keys are in keep. The value term names a fixed
   * placeholder for the keys left out, so that the verifier's encoding of the
   * comprehension does not carry m's dropped entries along.
   */
  function Restrict(m: map<string, DistrictLayer>, keep: set<string>): map<string, DistrictLayer>
  {
    map k | k in m && k in keep :: if k in m && k in keep then m[k] else DistrictLayer(k, [])
  }

  function Elems(s: seq<string>): set<string>
  {
    set x | x in s
  }

  /** The codes of s that have no cached layer, in order (one download each). */
  function Unloaded(s: seq<string>, loaded: map<string, DistrictLayer>): (r: seq<string>)
    ensures forall x :: x in r <==> x in s && x !in loaded
  {
    if s == [] then []
    else Unloaded(s[..|s| - 1], loaded) + (if s[|s| - 1] in loaded then [] else [s[|s| - 1]])
  }

  lemma ElemsSnoc(s: seq<string>, i: nat)
    requires i < |s|
    ensures Elems(s[..i + 1]) == Elems(s[..i]) + {s[i]}
  {
    assert s[..i + 1] == s[..i] + [s[i]];
  }

  lemma UnloadedSnoc(s: seq<string>, i: nat, loaded: map<string, DistrictLayer>)
    requires i < |s|
    ensures Unloaded(s[..i + 1], loaded) == Unloaded(s[..i], loaded) + (if s[i] in loaded then [] else [s[i]])
  {
    assert s[..i + 1][..i] == s[..i];
  }

  lemma ConcatAssoc(a: seq<string>, b: seq<string>, c: seq<string>)
    ensures a + (b + c) == (a + b) + c
  {
  }

  /** The downloads started by one pass of the first loop of setDistrictsInView. */
  lemma FetchStep(inView: seq<string>, i: nat, loaded: map<string, DistrictLayer>,
                  start: seq<string>, before: seq<string>, after: seq<string>)
    requires i < |inView|
    requires before == start + Unloaded(inView[..i], loaded)
    requires after == before + (if inView[i] in loaded then [] else [inView[i]])
    ensures after == start + Unloaded(inView[..i + 1], loaded)
  {
    UnloadedSnoc(inView, i, loaded);
    ConcatAssoc(start, Unloaded(inView[..i], loaded), if inView[i] in loaded then [] else [inView[i]]);
  }

  /** Showing one more district keeps the map equal to the cache restricted to the kept codes. */
  lemma RestrictGrow(loaded: map<string, DistrictLayer>, keep: set<string>, code: string)
    ensures Restrict(loaded, keep + {code}) ==
      if code !in Restrict(loaded, keep) && code in loaded then Restrict(loaded, keep)[code := loaded[code]]
      else Restrict(loaded, keep)
  {
  }

  /** Hiding a district outside the view removes it from the restriction. */
  lemma RestrictShrink(loaded: map<string, DistrictLayer>, keep: set<string>, rest: set<string>, code: string)
    requires code !in keep
    ensures Restrict(loaded, keep + (rest - {code})) == Restrict(loaded, keep + rest) - {code}
  {
  }

  /** Zone codes differ between the given layers. */
  predicate DistinctZones(layers: seq<Layer>)
  {
    forall j, k :: 0 <= j < k < |layers| ==> layers[j].feature.zone != layers[k].feature.zone
  }

  /** Each layer's feature, filed under its zone code. */
  function ZoneFeatures(layers: seq<Layer>): map<string, Feature>
    requires DistinctZones(layers)
  {
    map j | 0 <= j < |layers| :: layers[j].feature.zone := layers[j].feature
  }

  lemma ZoneFeaturesAt(layers: seq<Layer>, j: nat)
    requires DistinctZones(layers) && j < |layers|
    ensures layers[j].feature.zone in ZoneFeatures(layers) && ZoneFeatures(layers)[layers[j].feature.zone] == layers[j].feature
  {
  }

  /** The layers drawn for a district match its boundary file zone by zone. */
  ghost predicate DrawnFrom(layers: seq<Layer>, data: seq<ZoneData>)
    reads set j | 0 <= j < |layers| :: layers[j].feature
  {
    && |layers| == |data|
    && forall j :: 0 <= j < |data| ==>
         layers[j].feature.zone == data[j].zone && layers[j].feature.population == data[j].population && !layers[j].feature.selected
  }

  /**
   * L.geoJson with onEachFeature: a new feature, flagged unselected, and a new
   * layer for each zone of the boundary file.
   */
  method DrawZones(data: seq<ZoneData>) returns (layers: seq<Layer>)
    ensures DrawnFrom(layers, data)
    ensures forall j :: 0 <= j < |layers| ==> fresh(layers[j]) && fresh(layers[j].feature)
  {
    layers := [];
    var j := 0;
    while j < |data|
      invariant 0 <= j <= |data| && |layers| == j
      invariant forall k :: 0 <= k < j ==> fresh(layers[k]) && fresh(layers[k].feature)
      invariant forall k :: 0 <= k < j ==>
        layers[k].feature.zone == data[k].zone && layers[k].feature.population == data[k].population && !layers[k].feature.selected
    {
      var feature := new Feature(data[j].zone, data[j].population);
      var layer := new Layer(feature);
      layers := layers + [layer];
      j := j + 1;
    }
  }

  lemma RestrictPut(loaded: map<string, DistrictLayer>, keep: set<string>, code: string, group: DistrictLayer)
    ensures Restrict(loaded[code := group], keep) ==
      if code in keep then Restrict(loaded, keep)[code := group] else Restrict(loaded, keep) - {code}
  {
  }

  /** Caching a district's layer keeps the map showing exactly the cached districts in view. */
  lemma CachePut(loaded: map<string, DistrictLayer>, onMap: map<string, DistrictLayer>, keep: set<string>,
                 code: string, group: DistrictLayer)
    requires CacheWf(loaded, onMap) && onMap == Restrict(loaded, keep)
    ensures var onMap' := if code in keep then onMap[code := group] else onMap;
      CacheWf(loaded[code := group], onMap') && onMap' == Restrict(loaded[code := group], keep)
  {
    RestrictPut(loaded, keep, code, group);
  }

  /** The sum of the populations of the features in m. */
  ghost function PopSum(m: map<string, Feature>): int
    decreases |m|
  {
    if |m| == 0 then 0
    else
      var z :| z in m;
      m[z].population + PopSum(m - {z})
  }

  lemma PopSumPick(m: map<string, Feature>) returns (y: string)
    requires |m| > 0
    ensures y in m && PopSum(m) == m[y].population + PopSum(m - {y})
  {
    y :| y in m && PopSum(m) == m[y].population + PopSum(m - {y});
  }

  lemma MapRemoveCard(m: map<string, Feature>, y: string)
    requires y in m
    ensures |m - {y}| == |m| - 1
  {
    assert (m - {y}).Keys == m.Keys - {y};
  }

  /** The sum does not depend on the order the zones are taken in: any zone can be taken first. */
  lemma {:induction false} PopSumRemove(m: map<string, Feature>, z: string)
    requires z in m
    ensures PopSum(m) == m[z].population + PopSum(m - {z})
    decreases |m|
  {
    var y := PopSumPick(m);
    if y != z {
      var my, mz := m - {y}, m - {z};
      MapRemoveCard(m, y);
      MapRemoveCard(m, z);
      assert z in my && y in mz;
      PopSumRemove(my, z);
      PopSumRemove(mz, y);
      assert my - {z} == mz - {y};
    }
  }

  /** Adding a new zone adds its population. */
  lemma PopSumAdd(m: map<string, Feature>, z: string, f: Feature)
    requires z !in m
    ensures PopSum(m[z := f]) == PopSum(m) + f.population
  {
    PopSumRemove(m[z := f], z);
    assert m[z := f] - {z} == m;
  }

  lemma PopSumEmpty()
    ensures PopSum(map[]) == 0
  {
  }

  /** Every layer on the map is the cached layer of its district. */
  ghost predicate CacheWf(loaded: map<string, DistrictLayer>, onMap: map<string, DistrictLayer>)
  {
    onMap.Keys <= loaded.Keys && forall d :: d in onMap ==> onMap[d] == loaded[d]
  }

  /** Each drawn feature is filed under its own zone code, which is not empty and whose district has been downloaded. */
  ghost predicate FeaturesWf(featureOf: map<string, Feature>, home: map<string, string>, loaded: map<string, DistrictLayer>)
  {
    forall z :: z in featureOf ==> featureOf[z].zone == z && z != "" && z in home && home[z] in loaded
  }

  /** The two selection maps share their keys, which are known zones; each entry is the zone's feature and its layer. */
  ghost predicate SelectionWf(features: map<string, Feature>, layers: map<string, Layer>, home: map<string, string>)
  {
    features.Keys == layers.Keys &&
    forall z :: z in features ==> features[z].zone == z && z in home && layers[z].feature == features[z]
  }

  /** The highlighted code is the highlighted layer's (non-empty) zone, or empty when nothing is highlighted. */
  predicate HighlightWf(zone: Option<Layer>, code: string)
  {
    if zone.Some? then code == zone.value.feature.zone && code != "" else code == ""
  }

  /**
   * The selection agrees with the features: a zone is selected exactly when
   * its feature is flagged, and the running population is the sum of the
   * selected features' populations.
   */
  ghost predicate Agrees(selected: map<string, Feature>, featureOf: map<string, Feature>, population: int)
    reads featureOf.Values
  {
    && selected.Keys <= featureOf.Keys
    && (forall z :: z in selected ==> selected[z] == featureOf[z])
    && (forall z :: z in featureOf ==> (featureOf[z].selected <==> z in selected))
    && population == PopSum(selected)
  }

  lemma SelectionAdd(features: map<string, Feature>, layers: map<string, Layer>, home: map<string, string>, layer: Layer)
    requires SelectionWf(features, layers, home) && layer.feature.zone in home
    ensures SelectionWf(features[layer.feature.zone := layer.feature], layers[layer.feature.zone := layer], home)
  {
  }

  lemma SelectionRemove(features: map<string, Feature>, layers: map<string, Layer>, home: map<string, string>, z: string)
    requires SelectionWf(features, layers, home)
    ensures SelectionWf(features - {z}, layers - {z}, home)
  {
  }

  class MapModel {
    var mapBounds: Bounds
    var zoomLevel: int
    var districtsInView: seq<string>
    var districtsLoaded: map<string, DistrictLayer>
    var districtsOnMap: map<string, DistrictLayer>
    var selectedFeatures: map<string, Feature>
    var selectedZones: map<string, Layer>
    var selectedPopulation: int
    var overlayControlActive: bool
    var currentOverlayState: nat
    var highlightedZone: Option<Layer>
    var highlightedZoneCode: string

    /** The boundary files on the server, by district code. */
    const boundaries: map<string, seq<ZoneData>>
    ghost const home: map<string, string>
    /** The feature currently drawn for each zone that has been downloaded. */
    ghost var featureOf: map<string, Feature>
    /** The districts whose boundary downloads have been started, in order. */
    ghost var fetches: seq<string>
    ghost var events: seq<ViewEvent>

    /** The structural invariant, kept by every operation. */
    ghost predicate Wf()
      reads this
    {
      && CacheWf(districtsLoaded, districtsOnMap)
      && FeaturesWf(featureOf, home, districtsLoaded)
      && SelectionWf(selectedFeatures, selectedZones, home)
      && currentOverlayState < |OverlayStates|
      && HighlightWf(highlightedZone, highlightedZoneCode)
    }

    /**
     * The selection agrees with the features: a zone is selected exactly when
     * its feature is flagged, and the running population is the sum of the
     * selected features' populations.
     */
    ghost predicate Consistent()
      reads this, featureOf.Values
    {
      Agrees(selectedFeatures, featureOf, selectedPopulation)
    }

    /** The layers on the map are exactly the cached layers of the districts in view. */
    ghost predicate Synced()
      reads this
    {
      districtsOnMap == Restrict(districtsLoaded, Elems(districtsInView))
    }

    /** The feature is the one drawn for its zone. */
    ghost predicate Drawn(f: Feature)
      reads this
    {
      f.zone in featureOf && featureOf[f.zone] == f
    }

    function Selection(): (map<string, Feature>, map<string, Layer>, int)
      reads this
    {
      (selectedFeatures, selectedZones, selectedPopulation)
    }

    function Districts(): (seq<string>, map<string, DistrictLayer>, map<string, DistrictLayer>)
      reads this
    {
      (districtsInView, districtsLoaded, districtsOnMap)
    }

    function Overlay(): (bool, nat, Option<Layer>, string)
      reads this
    {
      (overlayControlActive, currentOverlayState, highlightedZone, highlightedZoneCode)
    }

    /** The initial state: nothing loaded, selected or highlighted, overlay setting Auto. */
    constructor (mapBounds: Bounds, boundaries: map<string, seq<ZoneData>>, ghost home: map<string, string>)
      requires GeographyOk(boundaries, home)
      ensures Wf() && Consistent() && Synced()
      ensures this.mapBounds == mapBounds && zoomLevel == InitialZoom
      ensures this.boundaries == boundaries && this.home == home
      ensures districtsInView == [] && districtsLoaded == map[] && districtsOnMap == map[]
      ensures selectedFeatures == map[] && selectedZones == map[] && selectedPopulation == 0
      ensures !overlayControlActive && currentOverlayState == 0
      ensures highlightedZone == None && highlightedZoneCode == ""
      ensures featureOf == map[] && fetches == [] && events == []
    {
      this.mapBounds := mapBounds;
      zoomLevel := InitialZoom;
      districtsInView := [];
      districtsLoaded := map[];
      districtsOnMap := map[];
      selectedFeatures := map[];
      selectedZones := map[];
      selectedPopulation := 0;
      overlayControlActive := false;
      currentOverlayState := 0;
      highlightedZone := None;
      highlightedZoneCode := "";
      this.boundaries := boundaries;
      this.home := home;
      featureOf := map[];
      fetches := [];
      events := [];
      new;
      PopSumEmpty();
    }

    /* ---------------- Selection ---------------- */

    /** selectZone: flags the feature, records it and adds its population. */
    method SelectZone(layer: Layer)
      requires Wf() && layer.feature.zone in home
      modifies this, layer.feature
      ensures Wf()
      ensures layer.feature.selected
      ensures selectedFeatures == old(selectedFeatures)[layer.feature.zone := layer.feature]
      ensures selectedZones == old(selectedZones)[layer.feature.zone := layer]
      ensures selectedPopulation == old(selectedPopulation) + layer.feature.population
      ensures events == old(events) + [Fill(layer, true), ShowPopulation(selectedPopulation)]
      ensures Districts() == old(Districts()) && Overlay() == old(Overlay())
      ensures featureOf == old(featureOf) && fetches == old(fetches) && zoomLevel == old(zoomLevel) && mapBounds == old(mapBounds)
    {
      var f := layer.feature;
      SelectionAdd(selectedFeatures, selectedZones, home, layer);
      f.selected := true;
      selectedFeatures := selectedFeatures[f.zone := f];
      selectedZones := selectedZones[f.zone := layer];
      selectedPopulation := selectedPopulation + f.population;
      events := events + [Fill(layer, true), ShowPopulation(selectedPopulation)];
    }

    /** deselectZone: clears the flag, drops the zone and subtracts its population. */
    method DeselectZone(layer: Layer)
      requires Wf()
      modifies this, layer.feature
      ensures Wf()
      ensures !layer.feature.selected
      ensures selectedFeatures == old(selectedFeatures) - {layer.feature.zone}
      ensures selectedZones == old(selectedZones) - {layer.feature.zone}
      ensures selectedPopulation == old(selectedPopulation) - layer.feature.population
      ensures events == old(events) + [Fill(layer, false), ShowPopulation(selectedPopulation)]
      ensures Districts() == old(Districts()) && Overlay() == old(Overlay())
      ensures featureOf == old(featureOf) && fetches == old(fetches) && zoomLevel == old(zoomLevel) && mapBounds == old(mapBounds)
    {
      var f := layer.feature;
      SelectionRemove(selectedFeatures, selectedZones, home, f.zone);
      f.selected := false;
      selectedFeatures := selectedFeatures - {f.zone};
      selectedZones := selectedZones - {f.zone};
      selectedPopulation := selectedPopulation - f.population;
      events := events + [Fill(layer, false), ShowPopulation(selectedPopulation)];
    }

    /** The click handler of a zone layer: toggles the zone's selection. */
    method Click(layer: Layer)
      requires Wf() && Consistent() && Drawn(layer.feature)
      modifies this, layer.feature
      ensures Wf() && Consistent()
      ensures layer.feature.selected == !old(layer.feature.selected)
      ensures layer.feature.selected <==> layer.feature.zone in selectedFeatures
      ensures selectedFeatures == if layer.feature.selected
        then old(selectedFeatures)[layer.feature.zone := layer.feature]
        else old(selectedFeatures) - {layer.feature.zone}
      ensures Districts() == old(Districts()) && Overlay() == old(Overlay())
      ensures featureOf == old(featureOf) && fetches == old(fetches) && zoomLevel == old(zoomLevel) && mapBounds == old(mapBounds)
    {
      if layer.feature.selected {
        ClickSelected(layer);
      } else {
        ClickUnselected(layer);
      }
    }

    /** The click handler on a selected zone: deselectZone, which keeps the selection consistent. */
    method ClickSelected(layer: Layer)
      requires Wf() && Consistent() && Drawn(layer.feature) && layer.feature.selected
      modifies this, layer.feature
      ensures Wf() && Consistent() && !layer.feature.selected
      ensures selectedFeatures == old(selectedFeatures) - {layer.feature.zone}
      ensures Districts() == old(Districts()) && Overlay() == old(Overlay())
      ensures featureOf == old(featureOf) && fetches == old(fetches) && zoomLevel == old(zoomLevel) && mapBounds == old(mapBounds)
    {
      assert layer.feature.zone in selectedFeatures;
      PopSumRemove(selectedFeatures, layer.feature.zone);
      DeselectZone(layer);
      forall y | y in featureOf ensures featureOf[y].selected <==> y in selectedFeatures {
        if featureOf[y] != layer.feature {
          assert featureOf[y].selected == old(featureOf[y].selected);
        }
      }
    }

    /** The click handler on an unselected zone: selectZone, which keeps the selection consistent. */
    method ClickUnselected(layer: Layer)
      requires Wf() && Consistent() && Drawn(layer.feature) && !layer.feature.selected
      modifies this, layer.feature
      ensures Wf() && Consistent() && layer.feature.selected
      ensures selectedFeatures == old(selectedFeatures)[layer.feature.zone := layer.feature]
      ensures Districts() == old(Districts()) && Overlay() == old(Overlay())
      ensures featureOf == old(featureOf) && fetches == old(fetches) && zoomLevel == old(zoomLevel) && mapBounds == old(mapBounds)
    {
      assert layer.feature.zone !in selectedFeatures;
      PopSumAdd(selectedFeatures, layer.feature.zone, layer.feature);
      SelectZone(layer);
      forall y | y in featureOf ensures featureOf[y].selected <==> y in selectedFeatures {
        if featureOf[y] != layer.feature {
          assert featureOf[y].selected == old(featureOf[y].selected);
        }
      }
    }

    /** One step of deselectAllZones: deselects the selected zone z through its stored feature and layer. */
    method DeselectSelected(z: string)
      requires Wf() && Consistent() && z in selectedFeatures
      modifies this, featureOf[z]
      ensures Wf() && Consistent()
      ensures selectedFeatures == old(selectedFeatures) - {z} && selectedZones == old(selectedZones) - {z}
      ensures Districts() == old(Districts()) && Overlay() == old(Overlay())
      ensures featureOf == old(featureOf) && fetches == old(fetches) && zoomLevel == old(zoomLevel) && mapBounds == old(mapBounds)
    {
      var layer := selectedZones[z];
      PopSumRemove(selectedFeatures, z);
      DeselectZone(layer);
      forall y | y in featureOf ensures featureOf[y].selected <==> y in selectedFeatures {
        if featureOf[y] != layer.feature {
          assert featureOf[y].selected == old(featureOf[y].selected);
        }
      }
    }

    /** deselectAllZones: deselects every selected zone. */
    method DeselectAllZones()
      requires Wf() && Consistent()
      modifies this, featureOf.Values
      ensures Wf() && Consistent()
      ensures selectedFeatures == map[] && selectedZones == map[] && selectedPopulation == 0
      ensures forall z :: z in featureOf ==> !featureOf[z].selected
      ensures Districts() == old(Districts()) && Overlay() == old(Overlay())
      ensures featureOf == old(featureOf) && fetches == old(fetches) && zoomLevel == old(zoomLevel) && mapBounds == old(mapBounds)
    {
      var keys := selectedFeatures.Keys;
      while keys != {}
        invariant Wf() && Consistent()
        invariant selectedFeatures.Keys == keys
        invariant Districts() == old(Districts()) && Overlay() == old(Overlay())
        invariant featureOf == old(featureOf) && fetches == old(fetches) && zoomLevel == old(zoomLevel) && mapBounds == old(mapBounds)
        decreases keys
      {
        var z :| z in keys;
        DeselectSelected(z);
        keys := keys - {z};
      }
      PopSumEmpty();
    }

    /* ---------------- District layers ---------------- */

    /** addDistrictToMap: shows the cached layer, or starts its download. */
    method AddDistrictToMap(code: string)
      requires Wf()
      modifies this
      ensures Wf()
      ensures districtsLoaded == old(districtsLoaded) && districtsInView == old(districtsInView)
      ensures districtsOnMap == if code !in old(districtsOnMap) && code in districtsLoaded
        then old(districtsOnMap)[code := districtsLoaded[code]] else old(districtsOnMap)
      ensures fetches == if code !in old(districtsOnMap) && code !in districtsLoaded
        then old(fetches) + [code] else old(fetches)
      ensures events == old(events) + (
        if code in old(districtsOnMap) then []
        else if code in districtsLoaded then [AddLayer(districtsLoaded[code])]
        else [Fetch(ZonePath(code))])
      ensures Selection() == old(Selection()) && Overlay() == old(Overlay())
      ensures featureOf == old(featureOf) && zoomLevel == old(zoomLevel) && mapBounds == old(mapBounds)
    {
      if code !in districtsOnMap {
        if code in districtsLoaded {
          var group := districtsLoaded[code];
          districtsOnMap := districtsOnMap[code := group];
          events := events + [AddLayer(group)];
        } else {
          fetches := fetches + [code];
          events := events + [Fetch(ZonePath(code))];
        }
      }
    }

    /** removeDistrictFromMap: takes the district's layer off the map if it is there. */
    method RemoveDistrictFromMap(code: string)
      requires Wf()
      modifies this
      ensures Wf()
      ensures districtsLoaded == old(districtsLoaded) && districtsInView == old(districtsInView)
      ensures districtsOnMap == old(districtsOnMap) - {code}
      ensures events == old(events) + (if code in old(districtsOnMap) then [RemoveLayer(old(districtsOnMap)[code])] else [])
      ensures Selection() == old(Selection()) && Overlay() == old(Overlay())
      ensures featureOf == old(featureOf) && fetches == old(fetches) && zoomLevel == old(zoomLevel) && mapBounds == old(mapBounds)
    {
      if code in districtsOnMap {
        events := events + [RemoveLayer(districtsOnMap[code])];
        districtsOnMap := districtsOnMap - {code};
      }
    }

    /**
     * setDistrictsInView: records the districts in view, shows those with a
     * cached layer, starts downloads for the others and hides the rest.
     */
    method SetDistrictsInView(inView: seq<string>)
      requires Wf()
      modifies this
      ensures Wf() && Synced()
      ensures districtsInView == inView
      ensures districtsLoaded == old(districtsLoaded)
      ensures districtsOnMap == Restrict(districtsLoaded, Elems(inView))
      ensures fetches == old(fetches) + Unloaded(inView, districtsLoaded)
      ensures Selection() == old(Selection()) && Overlay() == old(Overlay())
      ensures featureOf == old(featureOf) && zoomLevel == old(zoomLevel) && mapBounds == old(mapBounds)
    {
      districtsInView := inView;
      var onMap := districtsOnMap.Keys;
      ShowDistricts(inView, onMap);
      HideDistricts(inView, onMap);
    }

    /** The first loop of setDistrictsInView: adds each district in view that was not on the map. */
    method ShowDistricts(inView: seq<string>, onMap: set<string>)
      requires Wf() && onMap == districtsOnMap.Keys
      modifies this
      ensures Wf()
      ensures districtsInView == old(districtsInView) && districtsLoaded == old(districtsLoaded)
      ensures districtsOnMap == Restrict(districtsLoaded, Elems(inView) + onMap)
      ensures fetches == old(fetches) + Unloaded(inView, districtsLoaded)
      ensures Selection() == old(Selection()) && Overlay() == old(Overlay())
      ensures featureOf == old(featureOf) && zoomLevel == old(zoomLevel) && mapBounds == old(mapBounds)
    {
      assert districtsOnMap == Restrict(districtsLoaded, onMap);
      var i := 0;
      while i < |inView|
        invariant 0 <= i <= |inView|
        invariant Wf() && onMap <= districtsLoaded.Keys
        invariant districtsInView == old(districtsInView) && districtsLoaded == old(districtsLoaded)
        invariant districtsOnMap == Restrict(districtsLoaded, Elems(inView[..i]) + onMap)
        invariant fetches == old(fetches) + Unloaded(inView[..i], districtsLoaded)
        invariant Selection() == old(Selection()) && Overlay() == old(Overlay())
        invariant featureOf == old(featureOf) && zoomLevel == old(zoomLevel) && mapBounds == old(mapBounds)
      {
        ghost var before := fetches;
        ShowDistrict(inView, i, onMap);
        FetchStep(inView, i, districtsLoaded, old(fetches), before, fetches);
        i := i + 1;
      }
      assert inView[..i] == inView;
    }

    /** One pass of the first loop: adds inView[i] unless it was on the map when the loop began. */
    method ShowDistrict(inView: seq<string>, i: nat, onMap: set<string>)
      requires i < |inView| && Wf() && onMap <= districtsLoaded.Keys
      requires districtsOnMap == Restrict(districtsLoaded, Elems(inView[..i]) + onMap)
      modifies this
      ensures Wf()
      ensures districtsInView == old(districtsInView) && districtsLoaded == old(districtsLoaded)
      ensures districtsOnMap == Restrict(districtsLoaded, Elems(inView[..i + 1]) + onMap)
      ensures fetches == old(fetches) + (if inView[i] in districtsLoaded then [] else [inView[i]])
      ensures Selection() == old(Selection()) && Overlay() == old(Overlay())
      ensures featureOf == old(featureOf) && zoomLevel == old(zoomLevel) && mapBounds == old(mapBounds)
    {
      var code := inView[i];
      ghost var keep := Elems(inView[..i]) + onMap;
      RestrictGrow(districtsLoaded, keep, code);
      ElemsSnoc(inView, i);
      assert Elems(inView[..i + 1]) + onMap == keep + {code};
      if code !in onMap {
        AddDistrictToMap(code);
      } else {
        assert keep + {code} == keep;
      }
    }

    /** The second loop of setDistrictsInView: removes each district that was on the map and is not in view. */
    method HideDistricts(inView: seq<string>, onMap: set<string>)
      requires Wf() && districtsOnMap == Restrict(districtsLoaded, Elems(inView) + onMap)
      modifies this
      ensures Wf()
      ensures districtsInView == old(districtsInView) && districtsLoaded == old(districtsLoaded)
      ensures districtsOnMap == Restrict(districtsLoaded, Elems(inView))
      ensures fetches == old(fetches)
      ensures Selection() == old(Selection()) && Overlay() == old(Overlay())
      ensures featureOf == old(featureOf) && zoomLevel == old(zoomLevel) && mapBounds == old(mapBounds)
    {
      var rest := onMap;
      while rest != {}
        invariant Wf()
        invariant districtsInView == old(districtsInView) && districtsLoaded == old(districtsLoaded)
        invariant districtsOnMap == Restrict(districtsLoaded, Elems(inView) + rest)
        invariant fetches == old(fetches)
        invariant Selection() == old(Selection()) && Overlay() == old(Overlay())
        invariant featureOf == old(featureOf) && zoomLevel == old(zoomLevel) && mapBounds == old(mapBounds)
        decreases |rest|
      {
        var code :| code in rest;
        if code !in inView {
          RestrictShrink(districtsLoaded, Elems(inView), rest, code);
          RemoveDistrictFromMap(code);
        } else {
          assert Elems(inView) + (rest - {code}) == Elems(inView) + rest;
        }
        rest := rest - {code};
      }
      assert Elems(inView) + rest == Elems(inView);
    }

    /**
     * The body of the download callback: draws the district's zones, caches
     * the layer, and shows it if the district is in view.
     */
    method DrawDistrict(code: string) returns (layers: seq<Layer>)
      requires Wf() && GeographyOk(boundaries, home) && Synced() && code in boundaries
      modifies this
      ensures Wf() && Synced()
      ensures DrawnFrom(layers, boundaries[code]) && DistinctZones(layers)
      ensures forall j :: 0 <= j < |layers| ==> fresh(layers[j]) && fresh(layers[j].feature)
      ensures districtsLoaded == old(districtsLoaded)[code := DistrictLayer(code, layers)]
      ensures featureOf == old(featureOf) + ZoneFeatures(layers)
      ensures Selection() == old(Selection()) && Overlay() == old(Overlay()) && districtsInView == old(districtsInView)
      ensures fetches == old(fetches) && zoomLevel == old(zoomLevel) && mapBounds == old(mapBounds)
    {
      layers := DrawZones(boundaries[code]);
      ZonesOfFile(code, layers);
      Install(code, layers);
    }

    /** Files the drawn features and caches the district's layer, showing it if it is in view. */
    method Install(code: string, layers: seq<Layer>)
      requires Wf() && Synced() && DistinctZones(layers)
      requires FeaturesWf(featureOf + ZoneFeatures(layers), home, districtsLoaded[code := DistrictLayer(code, layers)])
      modifies this
      ensures Wf() && Synced()
      ensures districtsLoaded == old(districtsLoaded)[code := DistrictLayer(code, layers)]
      ensures featureOf == old(featureOf) + ZoneFeatures(layers)
      ensures Selection() == old(Selection()) && Overlay() == old(Overlay()) && districtsInView == old(districtsInView)
      ensures fetches == old(fetches) && zoomLevel == old(zoomLevel) && mapBounds == old(mapBounds)
    {
      var group := DistrictLayer(code, layers);
      var keep := Elems(districtsInView);
      CachePut(districtsLoaded, districtsOnMap, keep, code, group);
      var onMap := if code in keep then districtsOnMap[code := group] else districtsOnMap;
      var shown := if code in keep then [AddLayer(group)] else [];
      featureOf, districtsLoaded, districtsOnMap, events :=
        featureOf + ZoneFeatures(layers), districtsLoaded[code := group], onMap, events + shown;
    }

    lemma ZonesOfFile(code: string, layers: seq<Layer>)
      requires Wf() && GeographyOk(boundaries, home) && code in boundaries
      requires DrawnFrom(layers, boundaries[code])
      ensures DistinctZones(layers)
      ensures FeaturesWf(featureOf + ZoneFeatures(layers), home, districtsLoaded[code := DistrictLayer(code, layers)])
    {
    }

    /**
     * The download callback with the guard the cache needs: a district whose
     * layer is already cached is not drawn again. A missing file only logs
     * a warning.
     */
    method DistrictDownloaded(code: string) returns (ghost layers: seq<Layer>)
      requires Wf() && GeographyOk(boundaries, home) && Consistent() && Synced() && code in fetches
      modifies this
      ensures Wf() && Consistent() && Synced()
      ensures code !in boundaries || code in old(districtsLoaded) ==>
        districtsLoaded == old(districtsLoaded) && featureOf == old(featureOf) && events == old(events)
      ensures code in boundaries && code !in old(districtsLoaded) ==>
        && districtsLoaded == old(districtsLoaded)[code := DistrictLayer(code, layers)]
        && DrawnFrom(layers, boundaries[code]) && DistinctZones(layers)
        && featureOf == old(featureOf) + ZoneFeatures(layers)
        && (forall j :: 0 <= j < |layers| ==> fresh(layers[j]) && fresh(layers[j].feature))
      ensures Selection() == old(Selection()) && Overlay() == old(Overlay()) && districtsInView == old(districtsInView)
      ensures fetches == old(fetches) && zoomLevel == old(zoomLevel) && mapBounds == old(mapBounds)
    {
      if code !in boundaries || code in districtsLoaded {
        layers := [];
        return;
      }
      NewZonesUnseen(code);
      layers := DrawDistrict(code);
      forall z | z in featureOf ensures featureOf[z].selected <==> z in selectedFeatures {
        if z !in old(featureOf) {
          var j :| 0 <= j < |layers| && layers[j].feature.zone == z;
          ZoneFeaturesAt(layers, j);
        }
      }
    }

    /** The zones of a district that is not cached yet have no feature so far. */
    lemma NewZonesUnseen(code: string)
      requires Wf() && GeographyOk(boundaries, home) && code in boundaries && code !in districtsLoaded
      ensures forall j :: 0 <= j < |boundaries[code]| ==> boundaries[code][j].zone !in featureOf
    {
    }

    /**
     * The download callback as written: it only checks that the district is
     * not on the map, so a second download of a cached district that is out
     * of view replaces the cached layer with new, unselected features.
     */
    method DistrictDownloadedAsWritten(code: string) returns (layers: seq<Layer>)
      requires Wf() && GeographyOk(boundaries, home) && Synced() && code in fetches
      modifies this
      ensures Wf() && Synced()
      ensures code in boundaries && code !in old(districtsOnMap) ==>
        && districtsLoaded == old(districtsLoaded)[code := DistrictLayer(code, layers)]
        && DrawnFrom(layers, boundaries[code]) && DistinctZones(layers)
        && featureOf == old(featureOf) + ZoneFeatures(layers)
        && (forall j :: 0 <= j < |layers| ==> fresh(layers[j]) && fresh(layers[j].feature))
      ensures code !in boundaries || code in old(districtsOnMap) ==>
        districtsLoaded == old(districtsLoaded) && featureOf == old(featureOf) && events == old(events)
      ensures Selection() == old(Selection()) && Overlay() == old(Overlay()) && districtsInView == old(districtsInView)
      ensures fetches == old(fetches) && zoomLevel == old(zoomLevel) && mapBounds == old(mapBounds)
    {
      if code !in boundaries || code in districtsOnMap {
        layers := [];
        return;
      }
      layers := DrawDistrict(code);
    }

    /* ---------------- Overlay control and highlighted zone ---------------- */

    /** The overlay box's text for the current setting and the given zone code. */
    function OverlayUpdate(zone: string): ViewEvent
      requires currentOverlayState < |OverlayStates|
      reads this
    {
      OverlayText(OverlayStates[currentOverlayState], zone)
    }

    /** activateOverlayControl: shows the control, with the current setting, if it is hidden. */
    method ActivateOverlayControl()
      requires Wf()
      modifies this
      ensures Wf() && overlayControlActive
      ensures old(overlayControlActive) ==> events == old(events)
      ensures !old(overlayControlActive) ==> events == old(events) + [AddOverlayControl] + [OverlayUpdate(highlightedZoneCode)]
      ensures currentOverlayState == old(currentOverlayState)
      ensures highlightedZone == old(highlightedZone) && highlightedZoneCode == old(highlightedZoneCode)
      ensures Selection() == old(Selection()) && Districts() == old(Districts())
      ensures featureOf == old(featureOf) && fetches == old(fetches) && zoomLevel == old(zoomLevel) && mapBounds == old(mapBounds)
    {
      if !overlayControlActive {
        overlayControlActive := true;
        events := events + [AddOverlayControl];
        SetOverlayState(currentOverlayState);
      }
    }

    /** deactivateOverlayControl: hides the control if it is shown. */
    method DeactivateOverlayControl()
      requires Wf()
      modifies this
      ensures Wf() && !overlayControlActive
      ensures events == old(events) + (if old(overlayControlActive) then [RemoveOverlayControl] else [])
      ensures currentOverlayState == old(currentOverlayState)
      ensures highlightedZone == old(highlightedZone) && highlightedZoneCode == old(highlightedZoneCode)
      ensures Selection() == old(Selection()) && Districts() == old(Districts())
      ensures featureOf == old(featureOf) && fetches == old(fetches) && zoomLevel == old(zoomLevel) && mapBounds == old(mapBounds)
    {
      if overlayControlActive {
        overlayControlActive := false;
        events := events + [RemoveOverlayControl];
      }
    }

    /** setOverlayState: records the setting, which must be one of the three, and shows it. */
    method SetOverlayState(overlayState: nat)
      requires Wf() && overlayState < |OverlayStates|
      modifies this
      ensures Wf() && currentOverlayState == overlayState
      ensures events == old(events) + [OverlayText(OverlayStates[overlayState], highlightedZoneCode)]
      ensures overlayControlActive == old(overlayControlActive)
      ensures highlightedZone == old(highlightedZone) && highlightedZoneCode == old(highlightedZoneCode)
      ensures Selection() == old(Selection()) && Districts() == old(Districts())
      ensures featureOf == old(featureOf) && fetches == old(fetches) && zoomLevel == old(zoomLevel) && mapBounds == old(mapBounds)
    {
      currentOverlayState := overlayState;
      events := events + [OverlayUpdate(highlightedZoneCode)];
    }

    /** setZoneCode: shows a zone code in the overlay box; the model's own state is untouched. */
    method SetZoneCode(zone: string)
      requires Wf()
      modifies this
      ensures Wf() && events == old(events) + [OverlayUpdate(zone)]
      ensures Overlay() == old(Overlay()) && Selection() == old(Selection()) && Districts() == old(Districts())
      ensures featureOf == old(featureOf) && fetches == old(fetches) && zoomLevel == old(zoomLevel) && mapBounds == old(mapBounds)
    {
      events := events + [OverlayUpdate(zone)];
    }

    /** clearCurrentZone: drops the highlight, restoring the outline, and blanks the zone code. */
    method ClearCurrentZone()
      requires Wf()
      modifies this
      ensures Wf() && highlightedZone == None && highlightedZoneCode == ""
      ensures old(highlightedZone).Some? ==> events == old(events) + [Outline(old(highlightedZone).value, false)] + [OverlayUpdate("")]
      ensures old(highlightedZone).None? ==> events == old(events) + [OverlayUpdate("")]
      ensures overlayControlActive == old(overlayControlActive) && currentOverlayState == old(currentOverlayState)
      ensures Selection() == old(Selection()) && Districts() == old(Districts())
      ensures featureOf == old(featureOf) && fetches == old(fetches) && zoomLevel == old(zoomLevel) && mapBounds == old(mapBounds)
    {
      if highlightedZone.Some? {
        events := events + [Outline(highlightedZone.value, false)];
        highlightedZone := None;
        highlightedZoneCode := "";
      }
      SetZoneCode("");
    }

    /**
     * setHighlightedZone (mouseover and contextmenu): highlighting the
     * highlighted layer again clears the highlight; any other layer replaces
     * it, and its zone code is shown.
     */
    method SetHighlightedZone(layer: Layer)
      requires Wf() && layer.feature.zone in featureOf
      modifies this
      decreases 1
      ensures Wf()
      ensures old(highlightedZone) == Some(layer) ==>
        && highlightedZone == None && highlightedZoneCode == ""
        && events == old(events) + [Outline(layer, false)] + [OverlayUpdate("")]
      ensures old(highlightedZone) != Some(layer) ==>
        highlightedZone == Some(layer) && highlightedZoneCode == layer.feature.zone
      ensures old(highlightedZone).None? ==>
        events == old(events) + [Outline(layer, true)] + [OverlayUpdate(layer.feature.zone)]
      ensures old(highlightedZone).Some? && old(highlightedZone) != Some(layer) ==>
        var h := old(highlightedZone).value;
        events == old(events) + [Outline(h, false)] + [Outline(h, false)] + [OverlayUpdate("")]
          + [Outline(layer, true)] + [OverlayUpdate(layer.feature.zone)]
      ensures overlayControlActive == old(overlayControlActive) && currentOverlayState == old(currentOverlayState)
      ensures Selection() == old(Selection()) && Districts() == old(Districts())
      ensures featureOf == old(featureOf) && fetches == old(fetches) && zoomLevel == old(zoomLevel) && mapBounds == old(mapBounds)
    {
      if highlightedZone.Some? {
        if highlightedZone.value == layer {
          ClearCurrentZone();
          return;
        } else {
          events := events + [Outline(highlightedZone.value, false)];
          ClearCurrentZone();
          highlightedZone := None;
          highlightedZoneCode := "";
        }
      }
      events := events + [Outline(layer, true)];
      highlightedZone := Some(layer);
      highlightedZoneCode := layer.feature.zone;
      SetCurrentZone(layer);
    }

    /**
     * setCurrentZone (mousemove): shows the zone's code, and highlights the
     * layer when nothing is highlighted.
     */
    method SetCurrentZone(layer: Layer)
      requires Wf() && layer.feature.zone in featureOf
      modifies this
      decreases if highlightedZone.None? then 2 else 0
      ensures Wf()
      ensures highlightedZone == (if old(highlightedZone).None? then Some(layer) else old(highlightedZone))
      ensures highlightedZoneCode == (if old(highlightedZone).None? then layer.feature.zone else old(highlightedZoneCode))
      ensures old(highlightedZone).Some? ==> events == old(events) + [OverlayUpdate(layer.feature.zone)]
      ensures old(highlightedZone).None? ==>
        events == old(events) + [OverlayUpdate(layer.feature.zone)] + [Outline(layer, true)] + [OverlayUpdate(layer.feature.zone)]
      ensures overlayControlActive == old(overlayControlActive) && currentOverlayState == old(currentOverlayState)
      ensures Selection() == old(Selection()) && Districts() == old(Districts())
      ensures featureOf == old(featureOf) && fetches == old(fetches) && zoomLevel == old(zoomLevel) && mapBounds == old(mapBounds)
    {
      SetZoneCode(layer.feature.zone);
      if highlightedZone.None? {
        SetHighlightedZone(layer);
      }
    }

    /** Nothing is highlighted exactly when the highlighted zone code is empty. */
    lemma HighlightCode()
      requires Wf()
      ensures highlightedZone.None? <==> highlightedZoneCode == ""
    {
    }
  }
}

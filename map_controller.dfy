/**
 * pb.MapController: turns map moves, the overlay control's clicks and the
 * page's buttons into calls on the map model. The district search and the
 * model are the controller's collaborators.
 */
module MapControl {
  import opened Wrappers
  import opened Delimited
  import opened Boundaries
  import opened MapState
  import PopulationHandlers

  /** The results page the selection is posted to. */
  const ResultsPage := "results"

  /**
   * Whether updateMap shows the district layers: the zoom is past the
   * overlay level, some district is in view, and the setting is On, or Auto
   * with the zoom past the minimum zoom.
   */
  predicate ShowsDistricts(zoom: int, inView: seq<string>, setting: nat)
  {
    zoom > OverlayZoomLevel && |inView| > 0 && (setting == 1 || (setting == 0 && zoom > MinimumZoom))
  }

  /** The setting after the overlay control is clicked: Auto, On, Off and round again. */
  function NextSetting(setting: nat): (next: nat)
    requires setting < |OverlayStates|
    ensures next < |OverlayStates|
    ensures next == 0 <==> setting == |OverlayStates| - 1
    ensures next != 0 ==> next == setting + 1
  {
    if setting + 1 > |OverlayStates| - 1 then 0 else setting + 1
  }

  /** Three clicks on the overlay control bring back the setting it started from. */
  lemma SettingCycles(setting: nat)
    requires setting < |OverlayStates|
    ensures NextSetting(NextSetting(NextSetting(setting))) == setting
  {
  }

  /** Every district whose layer is shown after updateMap lies in a region and intersects the view. */
  lemma {:induction false} ShownDistrictsInView(regions: seq<Region>, view: Bounds, loaded: map<string, DistrictLayer>, code: string)
    requires code in Restrict(loaded, Elems(InView(regions, view)))
    ensures code in loaded
    ensures exists i :: 0 <= i < |regions| && FoundIn(regions[i], view, code)
  {
    InViewMembers(regions, view, code);
  }

  /** No code in codes is empty or holds a comma, and none repeats. */
  predicate PostableCodes(codes: seq<string>)
  {
    && (forall i :: 0 <= i < |codes| ==> codes[i] != "" && ',' !in codes[i])
    && (forall i, j :: 0 <= i < j < |codes| ==> codes[i] != codes[j])
  }

  class MapController {
    const model: MapModel
    const search: BoundarySearch

    constructor (model: MapModel, search: BoundarySearch)
      ensures this.model == model && this.search == search
    {
      this.model := model;
      this.search := search;
    }

    /** The model's invariants, and the boundary files it draws from. */
    ghost predicate Valid()
      reads this, model, model.featureOf.Values
    {
      model.Wf() && model.Consistent() && model.Synced() && GeographyOk(model.boundaries, model.home)
    }

    /** clearMap: hides every district layer and clears the current zone. */
    method ClearMap()
      requires Valid()
      modifies model
      ensures Valid()
      ensures model.districtsInView == [] && model.districtsOnMap == map[]
      ensures model.highlightedZone == None && model.highlightedZoneCode == ""
      ensures model.districtsLoaded == old(model.districtsLoaded) && model.fetches == old(model.fetches)
      ensures model.selectedFeatures == old(model.selectedFeatures) && model.selectedZones == old(model.selectedZones)
      ensures model.selectedPopulation == old(model.selectedPopulation) && model.featureOf == old(model.featureOf)
      ensures model.overlayControlActive == old(model.overlayControlActive)
      ensures model.currentOverlayState == old(model.currentOverlayState)
      ensures model.zoomLevel == old(model.zoomLevel) && model.mapBounds == old(model.mapBounds)
    {
      model.SetDistrictsInView([]);
      model.ClearCurrentZone();
    }

    /**
     * updateMap: finds the districts in view; past the overlay zoom level
     * with some district in view it shows the overlay control and, as the
     * setting says, the district layers, otherwise it clears the map and
     * hides the control. The new bounds and zoom are recorded.
     */
    method UpdateMap(mapBounds: Bounds, newZoomLevel: int)
      requires Valid()
      modifies model, search
      ensures Valid()
      ensures search.districtsInView == InView(search.regions, mapBounds)
      ensures model.overlayControlActive <==> newZoomLevel > OverlayZoomLevel && |search.districtsInView| > 0
      ensures model.districtsInView ==
        if ShowsDistricts(newZoomLevel, search.districtsInView, model.currentOverlayState) then search.districtsInView else []
      ensures model.districtsOnMap == Restrict(model.districtsLoaded, Elems(model.districtsInView))
      ensures model.districtsLoaded == old(model.districtsLoaded)
      ensures model.fetches == old(model.fetches) + Unloaded(model.districtsInView, model.districtsLoaded)
      ensures !ShowsDistricts(newZoomLevel, search.districtsInView, model.currentOverlayState) ==>
        model.highlightedZone == None && model.highlightedZoneCode == ""
      ensures ShowsDistricts(newZoomLevel, search.districtsInView, model.currentOverlayState) ==>
        model.highlightedZone == old(model.highlightedZone) && model.highlightedZoneCode == old(model.highlightedZoneCode)
      ensures model.currentOverlayState == old(model.currentOverlayState)
      ensures model.selectedFeatures == old(model.selectedFeatures) && model.selectedZones == old(model.selectedZones)
      ensures model.selectedPopulation == old(model.selectedPopulation) && model.featureOf == old(model.featureOf)
      ensures model.mapBounds == mapBounds && model.zoomLevel == newZoomLevel
    {
      search.UpdateBoundaryData(mapBounds);
      Redraw(search.districtsInView, newZoomLevel);
      model.mapBounds := mapBounds;
      model.zoomLevel := newZoomLevel;
    }

    /** The body of updateMap between the district search and the recording of the new view. */
    method Redraw(districtsInView: seq<string>, newZoomLevel: int)
      requires Valid()
      modifies model
      ensures Valid()
      ensures model.overlayControlActive <==> newZoomLevel > OverlayZoomLevel && |districtsInView| > 0
      ensures model.districtsInView ==
        if ShowsDistricts(newZoomLevel, districtsInView, model.currentOverlayState) then districtsInView else []
      ensures model.districtsOnMap == Restrict(model.districtsLoaded, Elems(model.districtsInView))
      ensures model.districtsLoaded == old(model.districtsLoaded)
      ensures model.fetches == old(model.fetches) + Unloaded(model.districtsInView, model.districtsLoaded)
      ensures !ShowsDistricts(newZoomLevel, districtsInView, model.currentOverlayState) ==>
        model.highlightedZone == None && model.highlightedZoneCode == ""
      ensures ShowsDistricts(newZoomLevel, districtsInView, model.currentOverlayState) ==>
        model.highlightedZone == old(model.highlightedZone) && model.highlightedZoneCode == old(model.highlightedZoneCode)
      ensures model.currentOverlayState == old(model.currentOverlayState)
      ensures model.selectedFeatures == old(model.selectedFeatures) && model.selectedZones == old(model.selectedZones)
      ensures model.selectedPopulation == old(model.selectedPopulation) && model.featureOf == old(model.featureOf)
      ensures model.zoomLevel == old(model.zoomLevel) && model.mapBounds == old(model.mapBounds)
    {
      if newZoomLevel > OverlayZoomLevel && |districtsInView| > 0 {
        model.ActivateOverlayControl();
        ShowOrClear(districtsInView, newZoomLevel);
      } else {
        ClearMap();
        model.DeactivateOverlayControl();
      }
    }

    /** The switch of updateMap on the overlay setting, once the control is active. */
    method ShowOrClear(districtsInView: seq<string>, newZoomLevel: int)
      requires Valid() && newZoomLevel > OverlayZoomLevel && |districtsInView| > 0
      modifies model
      ensures Valid()
      ensures model.districtsInView ==
        if ShowsDistricts(newZoomLevel, districtsInView, model.currentOverlayState) then districtsInView else []
      ensures model.districtsOnMap == Restrict(model.districtsLoaded, Elems(model.districtsInView))
      ensures model.districtsLoaded == old(model.districtsLoaded)
      ensures model.fetches == old(model.fetches) + Unloaded(model.districtsInView, model.districtsLoaded)
      ensures !ShowsDistricts(newZoomLevel, districtsInView, model.currentOverlayState) ==>
        model.highlightedZone == None && model.highlightedZoneCode == ""
      ensures ShowsDistricts(newZoomLevel, districtsInView, model.currentOverlayState) ==>
        model.highlightedZone == old(model.highlightedZone) && model.highlightedZoneCode == old(model.highlightedZoneCode)
      ensures model.overlayControlActive == old(model.overlayControlActive)
      ensures model.currentOverlayState == old(model.currentOverlayState)
      ensures model.selectedFeatures == old(model.selectedFeatures) && model.selectedZones == old(model.selectedZones)
      ensures model.selectedPopulation == old(model.selectedPopulation) && model.featureOf == old(model.featureOf)
      ensures model.zoomLevel == old(model.zoomLevel) && model.mapBounds == old(model.mapBounds)
    {
      var setting := model.currentOverlayState;
      if setting == 0 {
        if newZoomLevel > MinimumZoom {
          model.SetDistrictsInView(districtsInView);
        } else {
          ClearMap();
        }
      } else if setting == 1 {
        model.SetDistrictsInView(districtsInView);
      } else {
        ClearMap();
      }
    }

    /** changeOverlaySetting: moves to the next setting and redraws the map at the current bounds and zoom. */
    method ChangeOverlaySetting()
      requires Valid()
      modifies model, search
      ensures Valid()
      ensures model.currentOverlayState == NextSetting(old(model.currentOverlayState))
      ensures search.districtsInView == InView(search.regions, old(model.mapBounds))
      ensures model.districtsInView ==
        if ShowsDistricts(old(model.zoomLevel), search.districtsInView, model.currentOverlayState) then search.districtsInView else []
      ensures model.districtsOnMap == Restrict(model.districtsLoaded, Elems(model.districtsInView))
      ensures model.districtsLoaded == old(model.districtsLoaded)
      ensures model.fetches == old(model.fetches) + Unloaded(model.districtsInView, model.districtsLoaded)
      ensures model.overlayControlActive <==> old(model.zoomLevel) > OverlayZoomLevel && |search.districtsInView| > 0
      ensures !ShowsDistricts(old(model.zoomLevel), search.districtsInView, model.currentOverlayState) ==>
        model.highlightedZone == None && model.highlightedZoneCode == ""
      ensures ShowsDistricts(old(model.zoomLevel), search.districtsInView, model.currentOverlayState) ==>
        model.highlightedZone == old(model.highlightedZone) && model.highlightedZoneCode == old(model.highlightedZoneCode)
      ensures model.selectedFeatures == old(model.selectedFeatures) && model.selectedZones == old(model.selectedZones)
      ensures model.selectedPopulation == old(model.selectedPopulation) && model.featureOf == old(model.featureOf)
      ensures model.mapBounds == old(model.mapBounds) && model.zoomLevel == old(model.zoomLevel)
    {
      var overlayState := model.currentOverlayState + 1;
      if overlayState > |OverlayStates| - 1 {
        overlayState := 0;
      }
      model.SetOverlayState(overlayState);
      UpdateMap(model.mapBounds, model.zoomLevel);
    }

    /** deselectAll: deselects every zone and clears the current zone. */
    method DeselectAll()
      requires Valid()
      modifies model, model.featureOf.Values
      ensures Valid()
      ensures model.selectedFeatures == map[] && model.selectedZones == map[] && model.selectedPopulation == 0
      ensures forall z :: z in model.featureOf ==> !model.featureOf[z].selected
      ensures model.highlightedZone == None && model.highlightedZoneCode == ""
      ensures model.featureOf == old(model.featureOf)
      ensures model.districtsInView == old(model.districtsInView) && model.districtsLoaded == old(model.districtsLoaded)
      ensures model.districtsOnMap == old(model.districtsOnMap) && model.fetches == old(model.fetches)
      ensures model.overlayControlActive == old(model.overlayControlActive)
      ensures model.currentOverlayState == old(model.currentOverlayState)
      ensures model.zoomLevel == old(model.zoomLevel) && model.mapBounds == old(model.mapBounds)
      ensures search.districtsInView == old(search.districtsInView)
    {
      model.DeselectAllZones();
      model.ClearCurrentZone();
    }

    /**
     * getResults: the page and the `zones` form value posted to it, the
     * selected zone codes joined with commas (in no particular order). The
     * codes are returned as well.
     */
    method GetResults() returns (page: string, codes: seq<string>, zones: string)
      requires Valid()
      ensures page == ResultsPage
      ensures zones == Join(codes, ',')
      ensures forall z :: z in codes <==> z in model.selectedZones
      ensures PostableCodes(codes)
    {
      codes := [];
      var keys := model.selectedZones.Keys;
      while keys != {}
        invariant keys <= model.selectedZones.Keys
        invariant forall z :: z in codes <==> z in model.selectedZones && z !in keys
        invariant PostableCodes(codes)
        decreases keys
      {
        var z :| z in keys;
        CountZero(z, ',');
        codes := codes + [z];
        keys := keys - {z};
      }
      zones := Join(codes, ',');
      page := ResultsPage;
    }
  }

  /**
   * The results page receives exactly the selected zones: an empty
   * selection posts an empty list, which the server answers with a redirect
   * home; otherwise the server's zone list is the list of codes posted.
   */
  lemma SelectionReachesServer(codes: seq<string>, zones: string)
    requires PostableCodes(codes) && zones == Join(codes, ',')
    ensures codes == [] <==> zones == ""
    ensures codes != [] ==> PopulationHandlers.ZoneList(zones) == codes
  {
    PopulationHandlers.PostedZonesReachDatabase(codes);
  }
}

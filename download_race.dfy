/**
 * Two downloads of one district's boundary file. addDistrictToMap starts a
 * download whenever the district is neither on the map nor cached, so a
 * district that leaves the view and comes back before its file arrives is
 * fetched twice. The callback as written only checks that the district is
 * not on the map; if the second file arrives while the district is out of
 * view, it replaces the cached layer, and the selected zone keeps pointing
 * at a feature that is no longer drawn.
 */
module DownloadRace {
  import opened Boundaries
  import opened Delimited
  import opened MapState

  const District := "D"
  const Zone := "Z"

  /** One district with one zone of the given population. */
  function Files(population: int): map<string, seq<ZoneData>>
  {
    map[District := [ZoneData(Zone, population)]]
  }

  const Homes: map<string, string> := map[Zone := District]

  lemma FilesOk(population: int)
    ensures GeographyOk(Files(population), Homes)
  {
    assert Count(Zone, ',') == 0;
  }

  /** The sum over one selected zone is that zone's population. */
  lemma PopSumSingle(z: string, f: Feature)
    ensures PopSum(map[z := f]) == f.population
  {
    PopSumEmpty();
    PopSumAdd(map[], z, f);
    assert map[][z := f] == map[z := f];
  }

  /**
   * A fresh map whose district was viewed, left and viewed again before
   * its file arrived: two downloads are pending and nothing is cached.
   */
  method ViewTwice(population: int) returns (m: MapModel)
    ensures fresh(m)
    ensures m.Wf() && m.Consistent() && m.Synced() && GeographyOk(m.boundaries, m.home)
    ensures m.boundaries == Files(population) && m.home == Homes
    ensures m.districtsInView == [District] && m.districtsLoaded == map[] && m.fetches == [District, District]
    ensures m.featureOf == map[] && m.selectedFeatures == map[] && m.selectedZones == map[] && m.selectedPopulation == 0
  {
    FilesOk(population);
    m := new MapModel(Bounds(0, 0, 0, 0), Files(population), Homes);
    m.SetDistrictsInView([District]);
    m.SetDistrictsInView([]);
    m.SetDistrictsInView([District]);
  }

  /** With the callback as written: the first file is drawn and its zone clicked. */
  method FirstFileAsWritten(m: MapModel, ghost population: int) returns (first: Layer)
    requires m.Wf() && m.Synced() && GeographyOk(m.boundaries, m.home)
    requires m.boundaries == Files(population) && m.home == Homes
    requires m.districtsInView == [District] && m.districtsLoaded == map[] && m.fetches == [District, District]
    requires m.selectedFeatures == map[] && m.selectedZones == map[] && m.selectedPopulation == 0
    modifies m
    ensures m.Wf() && m.Synced() && m.boundaries == Files(population) && m.home == Homes
    ensures m.districtsInView == [District] && m.districtsLoaded.Keys == {District} && m.fetches == [District, District]
    ensures m.selectedFeatures == map[Zone := first.feature] && m.selectedPopulation == population
  {
    ghost var drawn := m.DistrictDownloadedAsWritten(District);
    first := m.districtsLoaded[District].layers[0];
    m.SelectZone(first);
  }

  /**
   * With the callback as written: the district leaves the view, the second
   * file arrives and replaces the cached layer, the district comes back and
   * the zone's new, unselected layer is clicked.
   */
  method SecondFileAsWritten(m: MapModel, ghost population: int, ghost first: Feature)
    requires m.Wf() && m.Synced() && m.boundaries == Files(population) && m.home == Homes
    requires m.districtsInView == [District] && m.districtsLoaded.Keys == {District} && m.fetches == [District, District]
    requires m.selectedFeatures == map[Zone := first] && m.selectedPopulation == population
    modifies m
    ensures m.Wf() && m.selectedZones.Keys == {Zone} && m.selectedFeatures.Keys == {Zone}
    ensures m.selectedFeatures[Zone] != first && m.selectedFeatures[Zone].population == population
    ensures m.selectedPopulation == 2 * population
  {
    FilesOk(population);
    m.SetDistrictsInView([]);
    var drawn := m.DistrictDownloadedAsWritten(District);
    m.SetDistrictsInView([District]);
    m.SelectZone(drawn[0]);
  }

  /**
   * The two downloads with the callback as written: one zone is selected,
   * but its population is counted twice.
   */
  method TwoDownloadsAsWritten(population: int) returns (m: MapModel)
    requires population > 0
    ensures m.Wf() && m.selectedZones.Keys == {Zone}
    ensures m.selectedPopulation == 2 * population
    ensures PopSum(m.selectedFeatures) == population
    ensures !m.Consistent()
  {
    m := ViewTwice(population);
    var first := FirstFileAsWritten(m, population);
    SecondFileAsWritten(m, population, first.feature);
    assert m.selectedFeatures == map[Zone := m.selectedFeatures[Zone]];
    PopSumSingle(Zone, m.selectedFeatures[Zone]);
  }

  /** A district file of one zone files that zone's feature under its code. */
  lemma OneZoneFeature(layers: seq<Layer>)
    requires |layers| == 1
    ensures DistinctZones(layers) && ZoneFeatures(layers) == map[layers[0].feature.zone := layers[0].feature]
  {
    ZoneFeaturesAt(layers, 0);
  }

  /** With the guarded callback: the first file is drawn and its zone clicked. */
  method FirstFileGuarded(m: MapModel, ghost population: int) returns (first: Layer)
    requires m.Wf() && m.Consistent() && m.Synced() && GeographyOk(m.boundaries, m.home)
    requires m.boundaries == Files(population) && m.home == Homes
    requires m.districtsInView == [District] && m.districtsLoaded == map[] && m.fetches == [District, District]
    requires m.featureOf == map[] && m.selectedFeatures == map[]
    modifies m
    ensures m.Wf() && m.Consistent() && m.Synced() && GeographyOk(m.boundaries, m.home)
    ensures m.districtsInView == [District] && District in m.districtsLoaded && m.fetches == [District, District]
    ensures m.featureOf == map[Zone := first.feature] && fresh(first.feature)
    ensures m.selectedFeatures == map[Zone := first.feature]
  {
    ghost var drawn := m.DistrictDownloaded(District);
    OneZoneFeature(drawn);
    first := m.districtsLoaded[District].layers[0];
    m.Click(first);
  }

  /**
   * With the guarded callback: the second file is ignored, the cached layer
   * comes back with its zone still selected, and clicking it deselects the zone.
   */
  method SecondFileGuarded(m: MapModel, first: Layer)
    requires m.Wf() && m.Consistent() && m.Synced() && GeographyOk(m.boundaries, m.home)
    requires m.districtsInView == [District] && District in m.districtsLoaded && m.fetches == [District, District]
    requires m.featureOf == map[Zone := first.feature]
    requires m.selectedFeatures == map[Zone := first.feature]
    modifies m, first.feature
    ensures m.Wf() && m.Consistent()
    ensures m.selectedFeatures == map[] && m.selectedPopulation == 0
  {
    m.SetDistrictsInView([]);
    ghost var ignored := m.DistrictDownloaded(District);
    m.SetDistrictsInView([District]);
    m.Click(first);
    PopSumEmpty();
  }

  /** The same events with the guarded callback: the selection stays consistent. */
  method TwoDownloadsGuarded(population: int) returns (m: MapModel)
    ensures m.Wf() && m.Consistent()
    ensures m.selectedFeatures == map[] && m.selectedPopulation == 0
  {
    m := ViewTwice(population);
    var first := FirstFileGuarded(m, population);
    SecondFileGuarded(m, first);
  }
}

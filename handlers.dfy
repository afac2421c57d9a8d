/**
 * The results and download pages. Both expect the form value `zones`, a
 * comma-separated list of zone codes: an empty value is sent back to the
 * home page; otherwise the codes are looked up and the page is rendered from
 * the data, or an error page is served when the lookup fails.
 */
module PopulationHandlers {
  import opened Wrappers
  import opened Delimited
  import opened PopulationDb
  import opened PopulationStore
  import HomeGate

  /** The aggregate query of ResultsDb up to its open `IN (` list. */
  const ResultsBaseQuery: string :=
    "SELECT sum(m_0_9), sum(m_10_19), sum(m_20_29), sum(m_30_39), sum(m_40_49), "
    + "sum(m_50_59), sum(m_60_69), sum(m_70_79), sum(m_80_89), sum(m_90), "
    + "sum(f_0_9), sum(f_10_19), sum(f_20_29), sum(f_30_39), sum(f_40_49), "
    + "sum(f_50_59), sum(f_60_69), sum(f_70_79), sum(f_80_89), sum(f_90) "
    + "FROM population WHERE code IN ("

  /** The row query of DownloadDb up to its open `IN (` list: the code and 57 bands. */
  const DownloadBaseQuery: string :=
    "SELECT code, p_0_4, p_5_9, p_10_14, p_15_19, p_20_24, p_25_29, p_30_34, p_35_39, "
    + "p_40_44, p_45_49, p_50_54, p_55_59, p_60_64, p_65_69, p_70_74, p_75_79, "
    + "p_80_84, p_85_89, p_90, m_0_4, m_5_9, m_10_14, m_15_19, m_20_24, m_25_29, "
    + "m_30_34, m_35_39, m_40_44, m_45_49, m_50_54, m_55_59, m_60_64, m_65_69, "
    + "m_70_74, m_75_79, m_80_84, m_85_89, m_90, f_0_4, f_5_9, f_10_14, f_15_19, "
    + "f_20_24, f_25_29, f_30_34, f_35_39, f_40_44, f_45_49, f_50_54, f_55_59, "
    + "f_60_64, f_65_69, f_70_74, f_75_79, f_80_84, f_85_89, f_90 "
    + "FROM population WHERE code IN ("

  const ZoneForm := "zones"
  const ResultsError := "Could not get population data from the ResultsDb."
  const DownloadError := "Could not get population data from the DownloadDb."

  /** The headers that mark the CSV as a file download. */
  const DownloadHeaders: seq<(string, string)> := [
    ("Content-Disposition", "attachment; filename=download.csv"),
    ("Content-Type", "text/csv; charset=utf-8"),
    ("Cache-Control", "must-revalidate, post-check=0, pre-check=0"),
    ("Pragma", "public")
  ]

  /** What a page handler does with one request. */
  datatype Outcome<T> =
    | Redirect(status: int, location: string)
    | ErrorPage(message: string)
    | Rendered(headers: seq<(string, string)>, data: T)

  /** The zone codes the handlers pass to the database for a non-empty form value. */
  function ZoneList(zonestr: string): (zones: seq<Code>)
    ensures |zones| == Count(zonestr, ',') + 1
    ensures Join(zones, ',') == zonestr
    ensures forall i :: 0 <= i < |zones| ==> ',' !in zones[i]
  {
    SplitCount(zonestr, ',');
    JoinSplit(zonestr, ',');
    Split(zonestr, ',')
  }

  /** The results page for the form value zonestr, with the database answering through queryRow. */
  function ResultsOutcome(zonestr: string, queryRow: (string, seq<Code>) -> SummaryReply): (out: Outcome<ResultsData>)
    ensures zonestr == "" <==> out == Redirect(HomeGate.StatusFound, HomeGate.BaseUrl)
    ensures out.ErrorPage? ==> out.message == ResultsError
    ensures out.Rendered? ==> out.headers == [] && out.data.zones == zonestr
    ensures zonestr != "" ==>
      (out.ErrorPage? <==> ScanSummary(queryRow(QueryText(ResultsBaseQuery, |ZoneList(zonestr)|), ZoneList(zonestr))).Failure?)
    ensures zonestr != "" && out.Rendered? ==>
      var reply := queryRow(QueryText(ResultsBaseQuery, |ZoneList(zonestr)|), ZoneList(zonestr));
      && reply.Row?
      && |out.data.male| == 10 && |out.data.female| == 10
      && out.data.male + out.data.female == reply.values
      && out.data.population == Thousands.NumberWithCommas(Sum(reply.values))
  {
    if zonestr == "" then Redirect(HomeGate.StatusFound, HomeGate.BaseUrl)
    else
      var zones := ZoneList(zonestr);
      match ScanSummary(queryRow(QueryText(ResultsBaseQuery, |zones|), zones))
      case Failure(_) => ErrorPage(ResultsError)
      case Success(d) => Rendered([], d.(zones := zonestr))
  }

  /** The download page for the form value zonestr, with the database answering through query. */
  function DownloadOutcome(zonestr: string, query: (string, seq<Code>) -> DetailReply): (out: Outcome<seq<DownloadData>>)
    ensures zonestr == "" <==> out == Redirect(HomeGate.StatusFound, HomeGate.BaseUrl)
    ensures out.ErrorPage? ==> out.message == DownloadError
    ensures out.Rendered? ==> out.headers == DownloadHeaders
    ensures zonestr != "" ==>
      match DetailResult(query(QueryText(DownloadBaseQuery, |ZoneList(zonestr)|), ZoneList(zonestr)))
      case Failure(_) => out == ErrorPage(DownloadError)
      case Success(records) => out == Rendered(DownloadHeaders, records)
  {
    if zonestr == "" then Redirect(HomeGate.StatusFound, HomeGate.BaseUrl)
    else
      var zones := ZoneList(zonestr);
      match DetailResult(query(QueryText(DownloadBaseQuery, |zones|), zones))
      case Failure(_) => ErrorPage(DownloadError)
      case Success(records) => Rendered(DownloadHeaders, records)
  }

  /** ResultsHandler.ServeHTTP. */
  method ServeResults(zonestr: string, queryRow: (string, seq<Code>) -> SummaryReply) returns (out: Outcome<ResultsData>)
    ensures out == ResultsOutcome(zonestr, queryRow)
  {
    if zonestr != "" {
      var zones := ZoneList(zonestr);
      var data := GetSummary(ResultsBaseQuery, zones, queryRow);
      if data.Failure? {
        return ErrorPage(ResultsError);
      }
      out := Rendered([], data.value.(zones := zonestr));
    } else {
      out := Redirect(HomeGate.StatusFound, HomeGate.BaseUrl);
    }
  }

  /** DownloadHandler.ServeHTTP. */
  method ServeDownload(zonestr: string, query: (string, seq<Code>) -> DetailReply) returns (out: Outcome<seq<DownloadData>>)
    ensures out == DownloadOutcome(zonestr, query)
  {
    if zonestr != "" {
      var zones := ZoneList(zonestr);
      var data := GetDetail(DownloadBaseQuery, zones, query);
      if data.Failure? {
        return ErrorPage(DownloadError);
      }
      out := Rendered(DownloadHeaders, data.value);
    } else {
      out := Redirect(HomeGate.StatusFound, HomeGate.BaseUrl);
    }
  }

  /* ---------------- Against a store ---------------- */

  /**
   * Against a reachable store, the results page is rendered for the submitted
   * zones with the band-wise sums and the formatted total of their stored
   * records; against an
   * unreachable one it is the error page.
   */
  lemma ResultsFromStore(store: Store, zonestr: string)
    requires zonestr != "" && Conforms(store.table, SummaryWidth)
    ensures var out := ResultsOutcome(zonestr, SummaryEngine(store));
      if store.online then
        && out.Rendered?
        && out.data.zones == zonestr
        && out.data.male + out.data.female == Columns(Matching(store.table, ZoneList(zonestr)), SummaryWidth)
        && out.data.population == Thousands.NumberWithCommas(SumBy(Matching(store.table, ZoneList(zonestr)), RecordTotal))
      else out == ErrorPage(ResultsError)
  {
    if store.online {
      StoreSummary(store, ZoneList(zonestr));
    }
  }

  /**
   * Against a reachable store, the download holds one record per stored zone
   * among the submitted codes, with the download headers; against an
   * unreachable one it is the error page.
   */
  lemma DownloadFromStore(store: Store, zonestr: string)
    requires zonestr != "" && Conforms(store.table, DetailWidth)
    ensures var out := DownloadOutcome(zonestr, DetailEngine(store));
      var m := Matching(store.table, ZoneList(zonestr));
      if store.online then
        && out.Rendered?
        && out.headers == DownloadHeaders
        && |out.data| == |m|
        && forall i :: 0 <= i < |m| ==> out.data[i] == DownloadData(m[i].code, m[i].counts)
      else out == ErrorPage(DownloadError)
  {
    if store.online {
      StoreDetail(store, ZoneList(zonestr));
    }
  }

  /**
   * The zone list the browser posts (selected codes joined with commas)
   * reaches the database as exactly those codes, provided no code is empty or
   * holds a comma; an empty selection is sent back to the home page instead.
   */
  lemma PostedZonesReachDatabase(codes: seq<Code>)
    requires forall i :: 0 <= i < |codes| ==> codes[i] != "" && ',' !in codes[i]
    ensures codes == [] ==> Join(codes, ',') == ""
    ensures codes != [] ==> Join(codes, ',') != "" && ZoneList(Join(codes, ',')) == codes
  {
    if codes != [] {
      SplitJoin(codes, ',');
    }
  }
}

# popbuilder, modelled in Dafny

popbuilder is a small web application for building a population estimate of
an arbitrary area of Great Britain. The user selects census zones on a map,
and the server returns their combined population by age band. It has two halves.

The server (`popbuilder.go`) has three parts:

- **Home gate** (`HomeHandler.ServeHTTP`). It chooses between the introduction page, the map
  page and a not-found answer. It uses the visitor's `seen` and `skip` cookies and the
  posted form values `posted` and `skipintro`.
- **Two database read paths.** `ResultsDb.GetPopulationData` sums 20 ten-year bands over
  the chosen zones and formats the total with thousands separators.
  `DownloadDb.GetPopulationData` returns one 57-column row per zone.
- **Two page handlers** (`ResultsHandler`, `DownloadHandler`). Each splits the posted
  comma-separated zone list and queries the database. It then renders, redirects home
  or serves an error page.

The browser application (`resources/app/popbuilder.js`) has four parts:

- **`BoundarySearch`** finds the districts whose bounds intersect the map view.
- **`MapModel`** holds the map state:
  - the selected zones and their running population;
  - the downloaded and the displayed district boundary layers;
  - the overlay control with its Auto/On/Off setting;
  - the highlighted zone.
- **`MapController`** turns map moves, overlay clicks, "clear" and "get results" into
  model calls.
- **`numberWithCommas`** formats the population figure.

Module layout:

| file | module | models |
|---|---|---|
| `wrappers.dfy` | `Wrappers` | `Option` and `Result` |
| `delimited.dfy` | `Delimited` | splitting on and joining with a separator (`strings.Split`, `Array.join`) |
| `thousands.dfy` | `Thousands` | `numberWithCommas` and its inverse |
| `home_gate.dfy` | `HomeGate` | `HomeHandler.ServeHTTP` and the cookie lifetimes |
| `population_db.dfy` | `PopulationDb` | both `GetPopulationData` methods, with the sqlite engine as a parameter |
| `population_store.dfy` | `PopulationStore` | a table-backed engine, and what the read paths return over it |
| `handlers.dfy` | `PopulationHandlers` | `ResultsHandler.ServeHTTP` and `DownloadHandler.ServeHTTP` |
| `boundary_search.dfy` | `Boundaries` | the `BoundarySearch` class |
| `map_model.dfy` | `MapState` | the `MapModel` class, with zone features and layers as classes |
| `map_controller.dfy` | `MapControl` | the `MapController` class |
| `download_race.dfy` | `DownloadRace` | a concrete run of the boundary download callback (see Findings) |

`MapModel` keeps the source's own fields and updates them in place. It adds a few
ghost fields:

- `featureOf` is the feature drawn for each downloaded zone;
- `fetches` is the boundary downloads started;
- `events` is the calls made to the map view, in order.

Four invariants describe the model:

- **`Wf`** is structural and every operation keeps it:
  - every layer on the map is the cached layer of its district;
  - the two selection maps share their keys;
  - the overlay setting is one of the three;
  - the highlighted code is the highlighted layer's zone code, which is non-empty, and is empty when nothing is highlighted.
- **`Consistent`**: a zone is selected exactly when its feature is flagged, and the running
  population is the sum of the selected features' populations.
- **`Synced`**: the layers on the map are exactly the cached layers of the districts in view.
- **`Drawn`** (for one feature): the feature is the one drawn for its zone.

## Model

| member | source | states |
|---|---|---|
| Thousands.NumberWithCommasRoundTrip | resources/app/popbuilder.js:591-596 | Removing the commas that `numberWithCommas` inserts and reading the digits back gives the original integer, negative numbers included. |
| Thousands.NumberWithCommasInjective | resources/app/popbuilder.js:591-596 | Two different integers never format to the same text. |
| Thousands.StripGroup | resources/app/popbuilder.js:593 | Grouping a comma-free digit string and then deleting the commas gives the string back. |
| Thousands.GroupShape | resources/app/popbuilder.js:593 | After grouping, the first group has 1 to 3 digits and every later group exactly 3. |
| Thousands.DecimalValue | resources/app/popbuilder.js:593 | The decimal digit string of n denotes n. |
| Thousands.TestedFormats | popbuilder_test.go:225-240 | 1863 formats as "1,863" and 18755 as "18,755", the two totals the results test expects. It also states that a three-digit number such as 909 gets no separator. 909 is the download test's integer checksum, not a string that test checks. |
| Delimited.Split | popbuilder.go:276 | Splitting gives at least one piece, and no piece contains the separator. |
| Delimited.SplitCount | popbuilder.go:276 | The number of pieces is one more than the number of separators. |
| Delimited.JoinSplit | popbuilder.go:276 | Joining the pieces of a split with the separator gives the input back. |
| Delimited.SplitJoin | resources/app/popbuilder.js:519 | Splitting a join of one or more separator-free strings gives those strings back. |
| Delimited.SplitAround | popbuilder.go:276 | Splitting `x + sep + y` gives the pieces of x followed by the pieces of y. |
| Delimited.SplitFree | popbuilder.go:276 | A string with no separator splits into itself alone. |
| Delimited.CountZero | popbuilder.go:276 | The separator count is zero exactly when the separator does not occur. |
| HomeGate.ServeHome | popbuilder.go:88-149 | Any path other than "/" gets not-found and no cookie. On "/", a non-empty `posted` gets a 302 redirect to "/". That redirect sets the 360-day skip cookie when `skipintro` is non-empty, and otherwise the one-hour seen cookie. With no post, the map page is served when either cookie was sent, otherwise the intro page. The seen cookie is expired (MaxAge -1) only when it was sent without the skip cookie. |
| HomeGate.NewVisitorSeesIntro | popbuilder.go:119-148 | A visitor with no cookies sees the intro page and gets no cookie. |
| HomeGate.ContinueShowsMapOnce | popbuilder.go:101-148 | Posting "continue" redirects and sets the seen cookie. The next visit within the hour shows the map and expires the cookie, and the visit after that shows the intro again. |
| HomeGate.SkipShowsMapForAYear | popbuilder.go:101-148 | Posting with "skip intro" redirects and sets the skip cookie, and every visit within 360 days shows the map. |
| HomeGate.HandlerTestCases | popbuilder_test.go:16-196 | The unknown path, the first visit, the skip and seen cookies, the posted form and the posted skip form each get the action that the handler's table of cases expects. |
| PopulationDb.BuildQuery | popbuilder.go:205-215 | The loop's query is the base query, one `?` per zone separated by commas, and `)`. The argument list is the zone list itself. |
| PopulationDb.QueryPlaceholders | popbuilder.go:205-215 | For one or more zones, the query starts with the base query and ends with `)`. Between them is exactly one `?` per zone, and no code enters the text. |
| PopulationDb.RepeatMarks | popbuilder.go:209-213 | Appending "?," n times equals the n joined marks followed by one trailing comma, which is then cut. |
| PopulationDb.MarksCount | popbuilder.go:209-213 | The joined placeholder list holds exactly n question marks. |
| PopulationDb.ScanSummary | popbuilder.go:217-235 | A failing query, or a row that is not 20 columns wide, yields the error. Otherwise the result holds the 20 band values in order. Its population text is the grouped sum of the bands, and its zone list is left for the handler to fill. |
| PopulationDb.SumTwenty | popbuilder.go:226-228 | The loop total over 20 bands is the sum of all of them, written out. |
| PopulationDb.SumAppend | popbuilder.go:226-228 | The sum distributes over concatenation. |
| PopulationDb.GetSummary | popbuilder.go:199-240 | The method builds the query, runs it once and returns what `ScanSummary` makes of the reply. |
| PopulationDb.CollectRows | popbuilder.go:388-428 | Success holds exactly when every row scans. On success there is one result per row, in row order, each the scan of its row. |
| PopulationDb.CollectStopsAtFailure | popbuilder.go:391-404 | Once a row fails to scan, the rows after it do not change the outcome (the first error is returned). |
| PopulationDb.GetDetail | popbuilder.go:352-429 | The method builds the query, runs it once and returns the collected rows, or the query or iteration error. |
| PopulationStore.Columns | popbuilder.go:217-223 | The summed row has exactly the requested width. |
| PopulationStore.AsRawRows | popbuilder.go:376-389 | There is one raw row per selected record. |
| PopulationStore.MatchingMembers | popbuilder.go:205-215 | A record is selected exactly when it is in the table and its code is among the arguments. |
| PopulationStore.MatchingByStoredCodes | popbuilder.go:205-215 | Argument lists that agree on every stored code select the same rows. |
| PopulationStore.MatchingNothing | popbuilder.go:205-215 | No arguments select no rows. |
| PopulationStore.MatchingAdditive | popbuilder.go:217-228 | For disjoint code lists, a column sum over both lists is the sum over each. |
| PopulationStore.SumOfSingles | popbuilder.go:217-228 | For distinct codes, the aggregate is the sum of the codes' individual aggregates. |
| PopulationStore.ColumnsTotal | popbuilder.go:226-228 | Totalling the column sums gives the sum of every record's first w cells. |
| PopulationStore.SumByCellsIsTotal | popbuilder.go:226-228 | For rows of width w, that sum is the sum of the records' totals. |
| PopulationStore.CellsUpToSum | popbuilder.go:226-228 | A record's first w cells sum as a slice. |
| PopulationStore.SumByStep | popbuilder.go:226-228 | Adding one column adds that column's sum. |
| PopulationStore.SumByZero | popbuilder.go:226-228 | Zero columns sum to zero. |
| PopulationStore.MatchingConforms | popbuilder.go:217-223 | Selected rows keep the table's width. |
| PopulationStore.StoreSummary | popbuilder.go:199-240 | Over a well-formed store, the summary succeeds. Its bands are the column sums of the matching records, and its population is the grouped total of those records. |
| PopulationStore.StoreDetail | popbuilder.go:352-429 | Over a well-formed store, the detail succeeds with one row per matching record, in storage order, carrying that record's code and counts. |
| PopulationStore.P0TotalOfRows | popbuilder.go:388-420 | The sum of the returned rows' first count is the column sum over the records. |
| PopulationStore.SumSinglesIs | popbuilder.go:217-228 | When each code's aggregate is known, the combined aggregate is their left-to-right sum. |
| PopulationStore.MatchingAgree | popbuilder.go:217-228 | Over agreeing stores, the summary total of the matching records equals the sum of the person counts of the matching detail records. |
| PopulationStore.PersonsTotalOfRows | popbuilder.go:388-420 | The person counts of the returned download rows sum to the person counts of the matching records. |
| PopulationStore.SummaryMatchesDetail | popbuilder.go:199-240 | Suppose both stores are reachable and well formed, and their data agree: same codes in the same order, and each summary record's total is the person count (`p_0_4` to `p_90`) of its detail record. Then for any code list both read paths succeed, and the results total is the grouped sum of the download rows' person counts. |
| PopulationStore.ResultsTotalsAdd | popbuilder_test.go:199-266 | Ten distinct codes whose single totals are the ones used by the results test aggregate to a population shown as "18,755". |
| PopulationStore.DownloadP0Add | popbuilder_test.go:357-436 | Ten distinct codes whose `p_0_4` values are the ones used by the download test total 909 over the returned rows. |
| PopulationHandlers.ZoneList | popbuilder.go:274-276 | The codes split from the form value number one more than its commas, contain no comma, and join back to the form value. |
| PopulationHandlers.ResultsOutcome | popbuilder.go:272-296 | An empty `zones` value, and only that, redirects to "/" with 302. A failed lookup serves the results error page. Otherwise the page is rendered with no extra headers and names the posted list. Its ten male and ten female bands are, in order, the 20 values of the database row, and its population is their sum, comma-grouped. |
| PopulationHandlers.DownloadOutcome | popbuilder.go:461-493 | An empty value redirects to "/". A failed lookup serves the download error page. Otherwise the CSV is rendered, with the four download headers, from the detail rows of the split codes. |
| PopulationHandlers.ServeResults | popbuilder.go:272-296 | The handler method does what `ResultsOutcome` describes. |
| PopulationHandlers.ServeDownload | popbuilder.go:461-493 | The handler method does what `DownloadOutcome` describes. |
| PopulationHandlers.ResultsFromStore | popbuilder.go:272-296 | With a well-formed store, a non-empty form value renders the page for the posted list. Its male and female bands are the column sums of the matching records, and its population is their grouped total. An unreachable store gives the error page. |
| PopulationHandlers.DownloadFromStore | popbuilder.go:461-493 | With a well-formed store, a non-empty form value renders one row per matching record, with the download headers. |
| PopulationHandlers.PostedZonesReachDatabase | popbuilder.go:274-276 | Codes that are non-empty and comma-free survive the round trip through the form. Joining and splitting gives them back, and only the empty list produces the empty value, which redirects home. |
| Boundaries.DistrictsHit | resources/app/popbuilder.js:47-57 | Scanning one region's districts yields at most one code per district. |
| Boundaries.DistrictsHitMembers | resources/app/popbuilder.js:47-57 | A code is collected from a region exactly when one of its districts has that code and intersects the view. |
| Boundaries.InViewMembers | resources/app/popbuilder.js:38-58 | A code is in view exactly when some region intersecting the view has a district with that code that intersects the view. |
| Boundaries.RegionFilterComplete | resources/app/popbuilder.js:38-58 | When each region's bounds contain its districts' bounds, checking the region first loses no district that meets the view. |
| Boundaries.BoundarySearch.constructor | resources/app/popbuilder.js:22-25 | The search starts with the given regions and no districts in view. |
| Boundaries.BoundarySearch.UpdateBoundaryData | resources/app/popbuilder.js:27-61 | After the loops, `districtsInView` is exactly the in-view list for the new bounds. |
| MapState.PopulationText | resources/app/popbuilder.js:91-108 | A positive population is shown as its `NumberWithCommas` text, comma-grouped, which reads back as itself. Any other population is shown as "0". |
| MapState.Unloaded | resources/app/popbuilder.js:170-200 | The districts that need a download are exactly the ones in view without a cached layer. |
| MapState.DrawZones | resources/app/popbuilder.js:218-265 | Each zone of a downloaded file gets a fresh unselected feature with that zone's code and population, on a fresh layer, in file order. |
| MapState.PopSumRemove | resources/app/popbuilder.js:318-326 | The population of a selection is a removed zone's population plus that of the rest. |
| MapState.PopSumAdd | resources/app/popbuilder.js:307-315 | Adding a new zone adds its population. |
| MapState.SelectionAdd | resources/app/popbuilder.js:307-315 | Recording a zone's feature and layer keeps the two selection maps aligned. |
| MapState.SelectionRemove | resources/app/popbuilder.js:318-326 | Deleting a zone from both maps keeps them aligned. |
| MapState.MapModel.constructor | resources/app/popbuilder.js:148-166 | The model starts at zoom 5 with nothing loaded, shown or selected, population 0, the overlay control inactive on Auto, and nothing highlighted. It satisfies all the invariants. |
| MapState.MapModel.SelectZone | resources/app/popbuilder.js:307-315 | The zone's feature is flagged and filed in both selection maps, and the population grows by its population. The layer is filled and the new total shown, and nothing else changes. |
| MapState.MapModel.DeselectZone | resources/app/popbuilder.js:318-326 | The flag is cleared, the zone is deleted from both maps, and the population is reduced by its population. The layer is unfilled and the total shown. |
| MapState.MapModel.Click | resources/app/popbuilder.js:227-234 | Clicking a drawn zone toggles its selection. The zone is selected afterwards exactly when its flag is set, and `Consistent` is kept (the shown total is the sum of the selection). |
| MapState.MapModel.ClickSelected | resources/app/popbuilder.js:229-231 | Clicking a selected zone deselects it and keeps `Consistent`. |
| MapState.MapModel.ClickUnselected | resources/app/popbuilder.js:232-233 | Clicking an unselected zone selects it and keeps `Consistent`. |
| MapState.MapModel.DeselectSelected | resources/app/popbuilder.js:331-335 | One loop step removes one selected zone and keeps `Consistent`. |
| MapState.MapModel.DeselectAllZones | resources/app/popbuilder.js:329-337 | Afterwards nothing is selected, the population is 0 and no drawn feature is flagged. The districts and the overlay are unchanged. |
| MapState.MapModel.AddDistrictToMap | resources/app/popbuilder.js:203-288 | A district not on the map is shown from the cache when cached. Otherwise one download is started. A district already on the map is left alone, and the cache never changes here. |
| MapState.MapModel.RemoveDistrictFromMap | resources/app/popbuilder.js:291-304 | The district is taken off the map (and its layer removed from the view) when it was on it; the cache is unchanged. |
| MapState.MapModel.SetDistrictsInView | resources/app/popbuilder.js:170-200 | The districts in view are recorded, and the map then shows exactly the cached layers of those districts. Exactly the uncached ones are downloaded, in order, and the cache and the selection are unchanged. |
| MapState.MapModel.ShowDistricts | resources/app/popbuilder.js:178-187 | The first loop adds every cached district in view and starts a download for each uncached one. |
| MapState.MapModel.ShowDistrict | resources/app/popbuilder.js:180-186 | One step of the first loop adds one district in view. |
| MapState.MapModel.HideDistricts | resources/app/popbuilder.js:190-199 | The second loop removes every district on the map that is no longer in view. |
| MapState.MapModel.DrawDistrict | resources/app/popbuilder.js:218-265 | A downloaded file is drawn as fresh layers, one per zone, cached under the district. Each zone's feature becomes the drawn feature of its code. |
| MapState.MapModel.Install | resources/app/popbuilder.js:267-275 | The drawn group is cached and shown only when its district is in view, which keeps `Synced`. |
| MapState.MapModel.DistrictDownloaded | resources/app/popbuilder.js:210-278 | This is the download callback, corrected to skip districts already cached. It keeps `Consistent` and `Synced`. It draws and caches a district only on its first arrival, filing each new zone's feature as the drawn feature of its code. A repeated arrival changes nothing, the view-event log included. |
| MapState.MapModel.DistrictDownloadedAsWritten | resources/app/popbuilder.js:210-278 | This is the callback as written. A file whose district is not on the map is drawn afresh and replaces the cached group, even when that district was already cached. Its new features replace the drawn features of their codes. A file whose district is on the map changes nothing. It keeps `Wf` and `Synced` only. |
| MapState.MapModel.ActivateOverlayControl | resources/app/popbuilder.js:340-349 | When inactive, the control becomes active, is added and shows the current setting. When already active, nothing happens. |
| MapState.MapModel.DeactivateOverlayControl | resources/app/popbuilder.js:351-358 | When active, the control becomes inactive and is removed. |
| MapState.MapModel.SetOverlayState | resources/app/popbuilder.js:361-368 | The setting becomes the given one, and the control shows its name with the highlighted code. |
| MapState.MapModel.SetZoneCode | resources/app/popbuilder.js:371-376 | The control shows the current setting with the given code; no state changes. |
| MapState.MapModel.ClearCurrentZone | resources/app/popbuilder.js:390-399 | Any highlight is un-styled and cleared, and the control then shows an empty code. |
| MapState.MapModel.SetHighlightedZone | resources/app/popbuilder.js:403-425 | For the layer of a drawn zone: re-highlighting the highlighted layer clears the highlight. Otherwise the old highlight is cleared and the layer becomes highlighted with its zone's code, and the control shows that code. |
| MapState.MapModel.SetCurrentZone | resources/app/popbuilder.js:379-386 | For the layer of a drawn zone, the control shows the layer's code. When nothing is highlighted, the layer becomes the highlight. |
| MapState.MapModel.HighlightCode | resources/app/popbuilder.js:390-425 | Nothing is highlighted exactly when the highlighted zone code is empty. |
| MapControl.NextSetting | resources/app/popbuilder.js:498-504 | The next overlay setting is the following one, wrapping from Off back to Auto. |
| MapControl.SettingCycles | resources/app/popbuilder.js:496-507 | Three presses of the overlay button return to the starting setting. |
| MapControl.ShownDistrictsInView | resources/app/popbuilder.js:435-486 | Any district shown after a map move is cached and lies in the view, according to the boundary search. |
| MapControl.MapController.constructor | resources/app/popbuilder.js:430-432 | The controller holds the model and the boundary search. |
| MapControl.MapController.ClearMap | resources/app/popbuilder.js:489-493 | No district is in view or on the map and the highlight is cleared. The cache, the downloads, the selection and the overlay are kept. |
| MapControl.MapController.UpdateMap | resources/app/popbuilder.js:435-486 | The control is active exactly when the zoom exceeds 9 and some district is in view. The map shows the cached districts in view when the setting (On, or Auto above zoom 12) shows districts, and nothing otherwise. Exactly the uncached ones are downloaded. The selection, cache and setting are kept, and the new bounds and zoom are recorded. |
| MapControl.MapController.Redraw | resources/app/popbuilder.js:439-482 | After the search, this applies the same rules to the districts found. |
| MapControl.MapController.ShowOrClear | resources/app/popbuilder.js:446-476 | The switch on the setting shows the districts in view or clears the map. |
| MapControl.MapController.ChangeOverlaySetting | resources/app/popbuilder.js:496-507 | The setting advances to the next one, and the map is redrawn for the same bounds and zoom. The control is active exactly when that zoom exceeds 9 and some district is in view. The map shows the cached districts in view when the new setting shows districts, and exactly the uncached ones are downloaded. Otherwise the map and the highlight are cleared. The selection, cache, bounds and zoom are kept. |
| MapControl.MapController.DeselectAll | resources/app/popbuilder.js:510-514 | Nothing is selected, the population is 0, no feature is flagged and nothing is highlighted. The districts, downloads, overlay control and setting, bounds, zoom and the search's districts are unchanged. |
| MapControl.MapController.GetResults | resources/app/popbuilder.js:517-524 | The codes posted to the results page are exactly the selected zones, each once, non-empty and comma-free, joined by commas. |
| MapControl.SelectionReachesServer | resources/app/popbuilder.js:517-524 | The server's split of the posted list gives back exactly the selected codes. An empty selection, and only that, posts the empty value. |
| DownloadRace.TwoDownloadsAsWritten | resources/app/popbuilder.js:210-278 | As written, a one-zone district downloaded twice, with that zone selected after each arrival, ends with one selected zone but twice its population shown, so `Consistent` fails. |
| DownloadRace.TwoDownloadsGuarded | resources/app/popbuilder.js:210-278 | With the corrected callback, the same run keeps `Consistent`. The second click deselects the zone, and the total returns to 0. |

## Left out

- **Coordinates.** Map and boundary coordinates are floating point in the source. The model uses integer fixed-point bounds, and `intersects` is the closed-box test on them.
- **Rendering and map library calls.** Rendering (Leaflet layers, styles, d3 drawing, the two info boxes) is reduced to a ghost log of view events; nothing is drawn.
- **The sqlite engine.** The engine is a function parameter. A table-backed engine stands in for the population tables, and opening and closing the database are not modelled.
- **NULL sums.** When none of the codes exists, sqlite's `sum` returns NULL and the Go scan into `int` fails. The store-backed engine sums to zero instead.
- **Boundary data.** `GeographyOk` is an assumption about the boundary files, and the source checks none of it. It assumes every zone code in a file is non-empty and comma-free, every zone belongs to the district whose file holds it, and no code repeats within a file. The `MapModel` constructor, `DrawDistrict`, `Install`, `DistrictDownloaded` and the controller's `Valid` require it. So `GetResults` (codes the server splits back intact), `SelectionReachesServer`, the non-empty highlight code and the `Consistent` invariant kept by `DistrictDownloaded` hold only for such files. A comma inside a zone code would break the round trip to the server.
- **Database agreement.** That the two databases agree (`Agree`) is a property of their data, not of the code. `SummaryMatchesDetail` takes it as a hypothesis.
- **Integer width.** Go's `int` sums and the JavaScript number are unbounded integers here; overflow and floating-point populations are not modelled.
- **Go's thousands formatter.** `decimals.FormatThousands` (a foreign package) is represented by the same grouping as `numberWithCommas`. This agrees on the test figures "1,863" and "18,755".
- **`parseInt`.** Zone populations in boundary files are integers. `parseInt` and `NaN` are not modelled.
- **Key order.** `Object.keys` order is modelled as the order of the input sequences. `GetResults` posts the selected codes in some order that contains each exactly once.
- **Asynchronous downloads.** `d3.json` is modelled as a recorded fetch. The callback is the separate method `DistrictDownloaded` (or `DistrictDownloadedAsWritten`) that a caller runs when the file arrives; a failed download is the callback not being run.
- **The clock.** Cookie expiry is relative: a cookie op carries its lifetime in seconds, and lemmas quantify over visit times.
- **Templates and output.** HTML templates, template execution errors, the CSV writer and the HTTP response writer are not modelled. Handlers return which page is rendered, with which data and headers.
- **Other server parts.** `main`, the constructors `NewHomeHandler`/`NewResultsDb`/`NewDownloadDb` and `Close` are not modelled.
- **Browser plumbing.** `submitForm`'s DOM plumbing, `pb.launch` and `pb.run` are not modelled; `GetResults` returns the page and form value it would post.
- **Mouse events.** Mouse-over, mouse-move, mouse-out and context-menu are modelled through `SetHighlightedZone`, `SetCurrentZone` and `ClearCurrentZone`. Which event fires when is the browser's business. `SetHighlightedZone` and `SetCurrentZone` require the layer's zone to be drawn, because only drawn layers receive these events.
- MapControl.MapController.UpdateMap: does not state the view-event log. The same holds for every other `MapController` method, and for these `MapModel` methods:
  - `Click`, `ClickSelected`, `ClickUnselected`, `DeselectSelected` and `DeselectAllZones`;
  - `SetDistrictsInView`, `ShowDistricts`, `ShowDistrict` and `HideDistricts`;
  - `DrawDistrict` and `Install`;
  - `DistrictDownloaded` on a first arrival, and `DistrictDownloadedAsWritten` when it redraws.

  Their contracts state the model's fields, and leave the order of calls to the map view free. The log is stated by the single-step methods they call: `SelectZone`, `DeselectZone`, `AddDistrictToMap`, `RemoveDistrictFromMap`, the overlay-control methods and the highlight methods.
- PopulationDb.BuildQuery: with no codes at all, the source cuts the last character of the base query (its `(`). This is modelled as written. The handlers never call it that way, because splitting always yields at least one code.

## Findings

| source | as written | input that shows it | evidently intended | confidence | as-written member | corrected member |
|---|---|---|---|---|---|---|
| resources/app/popbuilder.js:210-278 | The download callback checks only `districtsOnMap`. A second download of a district that is already cached but not on the map therefore draws new features and replaces the cached group, while the old features stay in the selection. | View district D, pan away and back before D's file arrives (two downloads). The first file arrives and the zone is selected. Pan away, the second file arrives, pan back and click the zone. It is selected again, and the total shows twice its population for one zone. | Skip a file whose district is already in `districtsLoaded`, so each zone has one feature and the total stays the sum of the selected zones. | not executed | DownloadRace.TwoDownloadsAsWritten | DownloadRace.TwoDownloadsGuarded |

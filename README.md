# Paris Fraîcheur, modelled in Dafny

Paris Fraîcheur is a small React front end over three datasets of the Paris
open-data portal: green spaces (`espaces verts`), cooling equipment and
activities (`îlots de fraîcheur`), and drinking fountains. Each dataset has a
view that fetches one page of 20 records, filters it by a few controls and a
free-text search, and shows what remains as a table or as map markers. The
home page shows a map of fountains and green spaces.

This project models that core in Dafny:

- `js_values.dfy` (module `JsValues`): the JavaScript values the records are
  made of, and the parts of JavaScript the views rely on: truthiness, `||`,
  `??`, optional chaining, `item.fields || item`, `String(v)`, `toLowerCase`
  and `includes`. A TypeError is a `Thrown` completion.
- `filtering.dfy` (module `Filtering`): `Array.prototype.filter` and `map` with
  callbacks that may throw. `filter` is proved equal to a pure reference
  filter `Select` whenever no callback throws; `map` gives one result per
  element, in order.
- `api.dfy` (module `Api`): the URL each fetcher requests, and what its promise
  resolves to once the network has answered.
- `espaces_verts.dfy`, `ilots_de_fraicheur.dfy`, `fontaines.dfy`: each view's
  filter callback, table rows and map items.
- `districts.dfy` (module `Districts`): the postal-code options of the district
  selector of the green-spaces and cooling-equipment views.
- `pagination.dfy` (module `Pagination`): the state the three views share
  (page, loading flag, records, list or map view), as a class whose methods
  are the click handlers and the view effect.
- `app.dfy` (module `App`): the home-page map, which merges fountains and
  green spaces.
- `map_items.dfy` (module `MapItems`): the items handed to the map, and the
  coordinates cell two of the tables share.

Behaviours of the code worth knowing before reading the model:

- Every fetcher has the default parameter `pageNum = 0`. A call without an
  argument (the map views, the home page) therefore still gets the
  `?limit=20&offset=0` query. The branch without a query string is
  unreachable (`Api.OmittedPageIsPageZero`).
- A network or decoding failure does not give an empty list. The `.catch`
  handler returns nothing, so the view receives `undefined` and its next
  `.filter` call throws (`Api.FailureIsNotEmptyPage`,
  `Pagination.FailedFetchBreaksFilter`). A payload that is `null` ends the
  same way. An HTTP error status is not a failure: `fetch` resolves, and a
  JSON error body without `results` gives `[]`.
- A search term made only of spaces is searched for like any other term.
  In the fountains view the composed address always holds a space, so a
  one-space term keeps every fountain whose `type_objet`, `modele` and
  `commune` are strings or missing (`Fontaines.SpaceFindsEveryFountain`).
- The green-spaces and fountains searches compute every field's match before
  combining them. A non-string search field therefore makes the filter throw
  even when another field matched. The cooling-equipment search is a
  short-circuit `||` chain and does not throw when a field read before the
  non-string one already matched
  (`IlotsDeFraicheur.SearchShortCircuits`).
- Switching to the map and back refetches the first page but does not reset
  the page counter. The pagination bar then shows the old page number over
  first-page data, and the next click skips a page
  (`Pagination.ToggleAfterPaging`).

## Model

| member | source | states |
|---|---|---|
| JsValues.Or | src/EspacesVerts.jsx:84 | the JavaScript or-operator yields `a` when `a` is truthy, `b` otherwise, and is truthy exactly when one of them is |
| JsValues.Coalesce | src/EspacesVerts.jsx:88 | `a ?? b` is `a` unless `a` is `null`/`undefined`; it agrees with `a || b` exactly when `a` is truthy or nullish (or equals `b`), so a present `0`, `false` or `""` is kept where `||` would replace it |
| JsValues.Unwrap | src/EspacesVerts.jsx:56 | `item.fields || item` throws exactly on a `null`/`undefined` record, and otherwise yields `fields` when it is truthy and the record itself when it is not |
| JsValues.UnwrapWrapped | src/EspacesVerts.jsx:56 | a record wrapped one level under `fields` and the bare record both unwrap to the bare record |
| JsValues.LowerIncludes | src/EspacesVerts.jsx:70-73 | `v?.toLowerCase().includes(term)` throws exactly when `v` is present but not a string, and is true exactly when `v` is a string whose lower-cased text contains the term |
| JsValues.OrElse | src/IlotsDeFraicheur.jsx:63-67 | a short-circuit or-chain is true when the left side is, evaluates the right side only after a false left side, and throws only when an evaluated side throws |
| JsValues.ContainsAt | src/EspacesVerts.jsx:70 | `includes` holds exactly when the needle occurs at some index of the haystack |
| JsValues.ParseNatText | src/service/api.js:7 | the decimal text of the offset reads back as the same number |
| JsValues.NatTextInjective | src/service/api.js:7 | distinct offsets have distinct decimal texts |
| JsValues.NatTextNoLeadingZero | src/Fontaines.jsx:55 | the decimal text of a positive number never starts with 0, so a search for "07" does not find street number 7 |
| JsValues.ToTextScalars | src/Fontaines.jsx:69 | `String(v)` of a non-negative number is decimal text reading back as the number with no leading zero, so exactly its usual decimal form; of a negative one a minus sign before that text; of a string the string itself |
| JsValues.ToTextArrays | src/EspacesVerts.jsx:61 | `String(v)` of `[]` is empty, of `[v]` is v's text (empty when v is `null`/`undefined`), and of `[v, w]` with both present the two texts joined by a comma |
| JsValues.ToTextArrayCons | src/EspacesVerts.jsx:61 | `String(v)` of any array of two or more elements is the first element's text (empty for `null`/`undefined`), a comma, then `String` of the remaining elements: the comma join of all elements |
| Filtering.Filter | src/EspacesVerts.jsx:55-78 | `.filter` completes exactly when no callback throws, and then returns the records the callback accepted, in order |
| Filtering.MapAll | src/EspacesVerts.jsx:80-92 | `.map` completes exactly when no callback throws, and then returns one result per record, in order |
| Filtering.FilterArray | src/EspacesVerts.jsx:55 | `.filter` on a value that is not an array throws; on an array the result is a subsequence holding exactly the accepted records |
| Filtering.FilterIdentity | src/EspacesVerts.jsx:55-78 | a callback that accepts every record returns the list unchanged |
| Filtering.FilterIdempotent | src/EspacesVerts.jsx:55-78 | filtering an already filtered list again changes nothing |
| Filtering.SelectAnd | src/EspacesVerts.jsx:58-77 | filtering by a conjunction is filtering by one conjunct, then by the other |
| Api.DatasetsRequestDistinctUrls | src/service/api.js:6-32 | the three fetchers use distinct fixed dataset paths, so two fetchers never request the same URL |
| Api.UrlCarriesOffset | src/service/api.js:4-7 | the URL for page `p >= 0` is the dataset's records URL with `?limit=20&offset=` and the decimal `20 * p`, and the offset can be read back from it |
| Api.OmittedPageIsPageZero | src/service/api.js:4-7 | a call without a page requests exactly the URL of page 0, offset 0 |
| Api.ConsecutivePagesOffset | src/service/api.js:7 | consecutive pages are 20 records apart |
| Api.DistinctPagesDistinctUrls | src/service/api.js:5-7 | distinct non-negative pages request distinct URLs |
| Api.Results | src/service/api.js:9-14 | the promise resolves to `undefined` exactly on a failed request or a `null` payload, and otherwise to `results` when truthy, else `[]` |
| Api.FailureIsNotEmptyPage | src/service/api.js:11-14 | a failed request does not resolve to the empty list an empty page gives |
| EspacesVerts.FilteredEspaces | src/EspacesVerts.jsx:55-78 | the call completes exactly when the records are an array on which no callback throws, and then returns exactly the reference filter of the matching records: in order, with their multiplicity, and nothing else |
| EspacesVerts.FilterWithoutCriteria | src/EspacesVerts.jsx:55-78 | with every control on "Tous" the list is unchanged, unless it holds a `null` record, which makes the filter throw |
| EspacesVerts.FilterTwiceIsFilterOnce | src/EspacesVerts.jsx:55-78 | applying the filter to its own output changes nothing |
| EspacesVerts.MatchesIsConjunction | src/EspacesVerts.jsx:58-77 | a record passes all criteria exactly when it passes each one alone |
| EspacesVerts.FilterIsIntersection | src/EspacesVerts.jsx:55-78 | the combined filter equals the four single-criterion filters applied in turn, and keeps what each of them keeps |
| EspacesVerts.WrappedRecordReadsFields | src/EspacesVerts.jsx:55-92 | a record wrapped under `fields` is kept, shown as a row and placed on the map exactly as the bare record is |
| EspacesVerts.DistrictCriterion | src/EspacesVerts.jsx:58 | a district choice keeps exactly the records whose `arrondissement` is that string |
| EspacesVerts.OpenCriterion | src/EspacesVerts.jsx:60-64 | "oui" keeps exactly the records open all day, "non" exactly all the others |
| EspacesVerts.IsOpenValues | src/EspacesVerts.jsx:61 | a string counts as open exactly when it reads "oui" in any case, and so does a one-element array holding such a string; a missing value, number, boolean or object never does |
| EspacesVerts.TypeCriterion | src/EspacesVerts.jsx:66 | a type choice keeps exactly the records whose `type` is that string |
| EspacesVerts.SearchCriterion | src/EspacesVerts.jsx:68-75 | the search throws exactly when a search field is present but not a string, and keeps a record exactly when one of the four fields contains the term, ignoring case |
| EspacesVerts.SearchIgnoresCase | src/EspacesVerts.jsx:69-73 | "PARC" finds "Parc Monceau" |
| EspacesVerts.RowShape | src/EspacesVerts.jsx:80-92 | one cell per column; no cell but the vegetation one is blank; a `null` record makes the mapping throw |
| EspacesVerts.RowCells | src/EspacesVerts.jsx:81-91 | each text cell shows its field or "Non précisé"; Type falls back to `categorie`; vegetation keeps any present value; "Ouvert 24h" is "Oui" or "Non", in agreement with the "oui"/"non" filter |
| EspacesVerts.TypeCellIsNotTypeFilter | src/EspacesVerts.jsx:85 | a record shown with type "Bois" through `categorie` is not found by the "Bois" type filter |
| EspacesVerts.RowsShape | src/EspacesVerts.jsx:80-92 | the rows are one per filtered record, in order, each with one cell per column |
| EspacesVerts.FilteredRowsComplete | src/EspacesVerts.jsx:55-92 | whenever the filter completes, mapping the kept records to table rows never throws |
| EspacesVerts.MarkerShape | src/EspacesVerts.jsx:154-161 | a marker has the name as title, the address or else "Non précisée" as description, and each coordinate or 0 on its own when falsy |
| IlotsDeFraicheur.FilteredLieux | src/IlotsDeFraicheur.jsx:55-71 | the call completes exactly when the records are an array on which no callback throws, and then returns exactly the reference filter of the matching records: in order, with their multiplicity, and nothing else |
| IlotsDeFraicheur.FilterWithoutCriteria | src/IlotsDeFraicheur.jsx:55-71 | with no criteria the list is unchanged unless it holds a `null` record |
| IlotsDeFraicheur.FilterTwiceIsFilterOnce | src/IlotsDeFraicheur.jsx:55-71 | applying the filter to its own output changes nothing |
| IlotsDeFraicheur.MatchesIsConjunction | src/IlotsDeFraicheur.jsx:57-70 | a record passes all criteria exactly when it passes each one alone |
| IlotsDeFraicheur.FilterIsIntersection | src/IlotsDeFraicheur.jsx:55-71 | the combined filter equals the single-criterion filters applied in turn |
| IlotsDeFraicheur.ExactCriteria | src/IlotsDeFraicheur.jsx:57-59 | district, type and paid choices each keep exactly the records whose field equals the choice |
| IlotsDeFraicheur.SearchCriterion | src/IlotsDeFraicheur.jsx:61-69 | a record is kept exactly when some search field contains the term, ignoring case, and every field read before it is a string or missing |
| IlotsDeFraicheur.SearchShortCircuits | src/IlotsDeFraicheur.jsx:63-67 | a name match is found even when a later search field is a number |
| IlotsDeFraicheur.RowShape | src/IlotsDeFraicheur.jsx:73-84 | one cell per column, none blank; a `null` record makes the mapping throw |
| IlotsDeFraicheur.RowCells | src/IlotsDeFraicheur.jsx:74-83 | each text cell shows its field or "Non précisé"; the last cell is the coordinates |
| IlotsDeFraicheur.RowsShape | src/IlotsDeFraicheur.jsx:73-84 | one row per filtered record, in order |
| IlotsDeFraicheur.FilteredRowsComplete | src/IlotsDeFraicheur.jsx:55-84 | whenever the filter completes, mapping the kept records to table rows never throws |
| IlotsDeFraicheur.MarkerShape | src/IlotsDeFraicheur.jsx:149-156 | a marker has the name as title, a non-blank description, and each coordinate or 0 |
| MapItems.CoordinatesCellShape | src/IlotsDeFraicheur.jsx:82 | the coordinates cell is exactly the latitude's text, ", " and the longitude's text, each replaced by "-" on its own when falsy, and never blank |
| Fontaines.DistrictOptions | src/Fontaines.jsx:93-97 | twenty options; the i-th is "PARIS ", the decimal text of i + 1 (digits reading as i + 1, no leading zero), then "EME ARRONDISSEMENT"; no two are equal |
| Fontaines.FilteredFontaines | src/Fontaines.jsx:45-60 | the call completes exactly when the records are an array on which no callback throws, and then returns exactly the reference filter of the matching records: in order, with their multiplicity, and nothing else |
| Fontaines.FilterWithoutCriteria | src/Fontaines.jsx:45-60 | with no criteria the list is unchanged unless it holds a `null` record |
| Fontaines.FilterTwiceIsFilterOnce | src/Fontaines.jsx:45-60 | applying the filter to its own output changes nothing |
| Fontaines.MatchesIsConjunction | src/Fontaines.jsx:48-59 | a record passes all criteria exactly when it passes each one alone |
| Fontaines.FilterIsIntersection | src/Fontaines.jsx:45-60 | the combined filter equals the single-criterion filters applied in turn |
| Fontaines.ExactCriteria | src/Fontaines.jsx:48-49 | the district choice keeps exactly the records whose `commune` equals it, the availability choice those whose `dispo` does |
| Fontaines.SearchCriterion | src/Fontaines.jsx:51-58 | the search throws exactly when `type_objet`, `modele` or `commune` is present but not a string, and keeps a record exactly when one of them or the composed address contains the term, ignoring case |
| Fontaines.SearchFindsComposedAddress | src/Fontaines.jsx:55 | "7 rue" finds a fountain at number 7 "RUE DU BAC" that has no other search field |
| Fontaines.SpaceFindsEveryFountain | src/Fontaines.jsx:51-58 | a search for a single space keeps every fountain whose `type_objet`, `modele` and `commune` are strings or missing, because the composed address always holds a space |
| Fontaines.AddressCellShape | src/Fontaines.jsx:69 | the address cell is exactly the even street number, else the odd one, else nothing, then one space, then the street, else "Non précisée"; it is never blank |
| Fontaines.RowShape | src/Fontaines.jsx:64-74 | one cell per column, none blank; a `null` record makes the mapping throw |
| Fontaines.RowCells | src/Fontaines.jsx:65-73 | each plain cell shows its field or its "Non précisé(e)" placeholder; address and coordinates are the composed cells |
| Fontaines.RowsShape | src/Fontaines.jsx:64-74 | one row per filtered record, in order |
| Fontaines.FilteredRowsComplete | src/Fontaines.jsx:45-74 | whenever the filter completes, mapping the kept records to table rows never throws |
| Fontaines.MarkerShape | src/Fontaines.jsx:117-125 | a marker carries `gid`, `type_objet`, the street or else "Non précisée", and the raw coordinates |
| Districts.PadStart | src/EspacesVerts.jsx:117 | `padStart` leaves a long enough text alone, and otherwise fills on the left up to the width |
| Districts.PostalCodeOptions | src/EspacesVerts.jsx:116-120 | twenty options; the i-th is five digits reading as 75001 + i; no two are equal |
| Districts.PostalCodeValue | src/IlotsDeFraicheur.jsx:109 | each option value is five digits reading as 75000 plus the district number |
| App.FilterBooleanKeepsAll | src/App.jsx:31 | `.filter(Boolean)` removes no projected point, since each is an object |
| App.PointsLayout | src/App.jsx:21-46 | the effect succeeds exactly when both fetches gave arrays without `null` records; the points are then all fountains, in order, followed by all green spaces, in order |
| App.FailedFetchKeepsPoints | src/App.jsx:47-49 | when either fetch fails, the error is caught and the map keeps its previous points |
| App.EspacePointShape | src/App.jsx:35-43 | a green-space point has a non-blank title (the name or "Espace vert") and description (the type or "Non précisée") and raw coordinates |
| App.FountainPointShape | src/App.jsx:22-30 | a fountain point carries `gid`, `type_objet`, the street or "Non précisée", and raw coordinates |
| Pagination.PageStep | src/EspacesVerts.jsx:42-53 | "previous" does nothing on the first page and otherwise undoes "next" |
| Pagination.PageStaysValid | src/EspacesVerts.jsx:42-53 | from a valid page any sequence of clicks stays on a valid page, at most one page per click away |
| Pagination.PageBoundedByNextClicks | src/EspacesVerts.jsx:42-46 | the page index never exceeds its start plus the number of "next" clicks |
| Pagination.ViewRequestsFirstPage | src/EspacesVerts.jsx:38-40 | both the list and the map view request the first page, offset 0 |
| Pagination.BrowseView.constructor | src/EspacesVerts.jsx:20-27 | a view starts on page 0, in the list view, not loading, with no records |
| Pagination.BrowseView.Mount | src/EspacesVerts.jsx:38-40 | showing the view starts loading the page its view asks for |
| Pagination.BrowseView.NextPage | src/EspacesVerts.jsx:42-46 | "next" moves one page on, starts loading, and requests that page; records and view are kept |
| Pagination.BrowseView.PrevPage | src/EspacesVerts.jsx:48-53 | "previous" on the first page changes nothing and requests nothing; otherwise it moves one page back and requests that page |
| Pagination.BrowseView.SetView | src/Fontaines.jsx:28-30 | choosing the current view does nothing; choosing the other one requests the first page and keeps the page counter |
| Pagination.BrowseView.Receive | src/Fontaines.jsx:20-26 | the answer replaces the records, `undefined` on failure, and ends loading; the pagination bar shows exactly when a non-empty list arrived |
| Pagination.FailedFetchBreaksFilter | src/IlotsDeFraicheur.jsx:55 | after a failed fetch the view's `.filter` call throws whatever the criteria |
| Pagination.ToggleAfterPaging | src/IlotsDeFraicheur.jsx:38-53 | with every request answered by a non-empty page, after "next" and a round trip through the map view the counter still says page 2, the data is the first page, and the next click requests offset 40 |

## Left out

- The network, `fetch`, JSON decoding and `console.error` are not modelled. A
  response is a parameter: a decoded payload, or a failure.
- React's asynchronous state updates and the ordering of overlapping requests
  are not modelled. `Receive` applies whichever answer it is given. A late
  answer to an older request can overwrite a newer one in the real views.
- Records are JSON values, but numbers are integers only. Coordinates and
  other fractional numbers are not modelled, and neither is how JavaScript
  prints them. JavaScript numbers are doubles: integers of 10^21 and above
  print in exponent form and `pageNum * limit` rounds beyond 2^53, while the
  model prints every integer in plain decimal and multiplies exactly, so
  the URL lemmas also hold for page numbers far beyond any a user can reach,
  where the program would build a different URL.
- `toLowerCase` is modelled for ASCII, the Latin-1 capitals and Œ and Ÿ only.
  Other capitals (the rest of Latin Extended, Greek, Cyrillic and other
  scripts), and letters whose lower-case form has a different length, are
  left unchanged by the model.
- Rendering is not modelled: the JSX markup, the `Table` component and its
  "no data" message, the Leaflet map, `ToggleButton`'s markup, routing and
  `main.jsx`. The option lists of the type, "Ouvert 24h", "Payant" and
  "Disponible" selectors are fixed strings and are not modelled. The filters
  are proved for any chosen string.
- IsOpenValues: states which values count as open for strings,
  one-element arrays of strings and the values that never do; longer arrays
  and nested arrays are not characterised.
- Only page numbers the views can produce (0 and up) are proved about. The
  fetchers accept any number.

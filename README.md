# ONE-SEVA core, modelled in Dafny

ONE-SEVA is a Forest Rights Act (FRA) claims portal: a Flask backend and a
React web client. This project models its deterministic core and proves
properties of it:

- **Rule-based claim scoring** (`_score_claim`). The score starts at 50 and
  gains or loses fixed integer weights for documents, duplicates, area band,
  wildlife zone, community support and status. It is clamped to [0, 100] and
  banded into high, medium or low priority, with a "; "-joined explanation.
  The batch endpoint maps this over a list.
- **Sign-in** against the two demo accounts, the **role gate**
  `require_roles`, and the **layer table** against the GeoJSON dispatch
  (`backend/app/api/routes.py`).
- **Dashboard aggregates**: Counter tallies by status and state, the month
  tally sorted by key, and the four area buckets. Also the **land-use
  insights** per land type (`backend/app/services/dummy_data.py`).
- The client's **authenticated dispatcher** (`frontend/src/lib/api.js`):
  - the request interceptor that attaches `Bearer <token>`;
  - the single-flight refresh on a 401, with a queue of waiting requests;
  - `processQueue`;
  - token storage on login and logout.

  The module state is the class `Dispatcher.Client`. Each interceptor event
  is one method, proved against a state-transition function.
- The **WebGIS view** (`frontend/src/App.jsx`):
  - the layer-load loop and the `/api/` prefix rewrite of layer urls;
  - the state/status filter shared by the map and both exports;
  - the status colours;
  - the CSV export loop and its quote doubling;
  - the descending sort of scored batches.
- **CORS origin parsing** in `create_app` (`backend/app/__init__.py`).

Modules:

- `Common`: Option, and JavaScript/Python truthiness of an optional string.
- `Text`: Python's `strip`, `split` and `join`, and ASCII `lower`.
- `Scoring`, `Auth` and `Layers`: the routes.
- `Counting`: `Counter`, `defaultdict(int)` and `sorted(d.items())`.
- `Aggregation` and `LandUse`: the dummy-data services.
- `Dispatcher`: api.js.
- `MapView`, `CsvExport` and `BatchView`: App.jsx.
- `Origins`: the app factory.

Imperative source code is modelled by methods with loops, proved equal to a
specification function:
- `_score_claim` and the batch loop;
- the loops of `aggregates` and `land_use_insights`;
- `processQueue` and the interceptors;
- the layer-load loop;
- the CSV loop.

Lemmas prove the promised properties of those functions.

## Model

| member | source | states |
|---|---|---|
| Origins.ParseOrigins | backend/app/__init__.py:11-13 | the origin list is never empty |
| Origins.OriginsAreClean | backend/app/__init__.py:11-13 | every origin is non-empty, has no surrounding whitespace and no comma |
| Origins.NonBlankAvoids | backend/app/__init__.py:11 | stripping and dropping blank pieces introduces no character that was not in the pieces |
| Origins.NonBlankEmpty | backend/app/__init__.py:11 | nothing survives the comprehension exactly when every piece strips to "" |
| Origins.BlankSettingIsWildcard | backend/app/__init__.py:11-13 | a setting whose comma-separated pieces are all blank gives ["*"] |
| Origins.DefaultIsWildcard | backend/app/config/settings.py:9 | the default setting "*" gives ["*"] |
| Origins.NonBlankClean | backend/app/__init__.py:11 | already clean pieces pass through unchanged and in order |
| Origins.ParseJoined | backend/app/__init__.py:11-13 | round trip: a non-empty list of clean, comma-free origins joined by "," parses back to the same list |
| Text.StripIdempotent | backend/app/api/routes.py:22-23 | stripping twice is stripping once |
| Text.StripIsSlice | backend/app/api/routes.py:22-23 | the stripped string is a slice of the input with only whitespace cut off each end |
| Text.JoinSplit | backend/app/services/dummy_data.py:53 | joining the pieces of a split with the separator gives the input back |
| Text.SplitJoin | backend/app/__init__.py:11 | splitting the join of separator-free pieces gives the pieces back |
| Text.LowerIdempotent | backend/app/api/routes.py:32-36 | lower-casing twice is lower-casing once |
| Scoring.ScoreClaim | backend/app/api/routes.py:169-209 | the result is the rule-defined score; the score lies in [0,100]; high iff score >= 70, low iff score < 40 |
| Scoring.ApplyRules | backend/app/api/routes.py:171-201 | the running score ends at 50 plus the weights of the rules that fire, and the explanation lists exactly those rules' lines in rule order |
| Scoring.ExplanationAccountsForScore | backend/app/api/routes.py:171-208 | the weights of the explanation's lines add up to the unclamped score minus the base 50 |
| Scoring.WeightSumAppend | backend/app/api/routes.py:172-201 | the weight of two explanation lists is the sum of their weights |
| Scoring.RawScoreRange | backend/app/api/routes.py:171-203 | the unclamped score lies in [-45, 85], so the upper clamp never fires |
| Scoring.ScoreIsFlooredRaw | backend/app/api/routes.py:203 | the score is the unclamped score floored at 0, and at most 85 |
| Scoring.DecidedNeverHigh | backend/app/api/routes.py:195-204 | an approved claim scores at most 45 and a rejected one at most 55; neither is ever high priority |
| Scoring.HighIff | backend/app/api/routes.py:171-204 | a claim is high priority iff it has complete documents, is no duplicate, is undecided, and meets two of: small area, community support, outside a critical wildlife zone |
| Scoring.CompletingDocsNeverLowers | backend/app/api/routes.py:173-178 | completing the documents never lowers the score |
| Scoring.SupportNeverLowers | backend/app/api/routes.py:192-194 | community support never lowers the score |
| Scoring.DuplicateNeverRaises | backend/app/api/routes.py:179-181 | being a duplicate never raises the score |
| Scoring.AreaBands | backend/app/api/routes.py:182-188 | a missing, null or zero area earns the small-area line; >= 10 ha the large-area line; strictly between 2 and 10 no area line |
| Scoring.TermsOrdered | backend/app/api/routes.py:172-208 | the explanation has 1 to 6 lines, starts with the one documents line (+15 iff complete), and lists at most one line per rule in the fixed rule order |
| Scoring.ScoreEntry | backend/app/api/routes.py:227 | one batch entry echoes the claim and its claim_id and carries its score |
| Scoring.EntriesScoreEachClaim | backend/app/api/routes.py:224-228 | entry i of the batch is claim i, with its claim_id and its _score_claim result |
| Scoring.ScoreBatch | backend/app/api/routes.py:222-228 | missing claims give no entries; otherwise one entry per claim in order; count is the number of entries |
| Auth.FirstTruthy | backend/app/api/routes.py:22-23 | the first truthy value, or "" when none is truthy |
| Auth.FindUser | backend/app/api/routes.py:38 | None iff no user accepts the credentials; otherwise the first accepting user |
| Auth.SignInIff | backend/app/api/routes.py:31-48 | a resolved identifier and password sign in iff some demo account accepts them, and then as the first such account; otherwise 401 |
| Auth.LoginIff | backend/app/api/routes.py:20-49 | the same for a login body, via the resolved identifier (first truthy of identifier, username, email, phone, stripped) and stripped password |
| Auth.DemoFind | backend/app/api/routes.py:26-38 | the search over the two demo accounts: the admin if it accepts, else the officer if it accepts, else none |
| Auth.SignedInRole | backend/app/api/routes.py:42-48 | a signed-in identity has role admin or officer, the same as the returned profile |
| Auth.CaseInsensitive | backend/app/api/routes.py:31-36 | identifiers equal up to ASCII case give the same outcome |
| Auth.FindUserSame | backend/app/api/routes.py:38 | identifiers that match the same users find the same user |
| Auth.EachDemoUserSignsIn | backend/app/api/routes.py:22-48 | a body resolving to any of a demo account's username, email or phone, in any case, with its password, signs in as that account |
| Auth.WrongPasswordRejected | backend/app/api/routes.py:38-40 | a password that is neither demo password is always rejected |
| Auth.Login | backend/app/api/routes.py:20-49 | 401 iff no demo account accepts the resolved credentials; a signed-in identity agrees with the returned profile and has role admin or officer |
| Auth.RequireRoles | backend/app/api/routes.py:60-73 | no listed role lets every caller pass; a non-dict identity is refused whenever a role is listed; a refusal is 403 with the role seen and the allowed list |
| Auth.GateIff | backend/app/api/routes.py:65-71 | the gate passes iff no role is required or the identity is a dict whose role is listed; otherwise 403 with that role and the list |
| Auth.SignedInPasses | backend/app/api/routes.py:77-113 | every signed-in demo identity passes the officer-or-admin endpoints; only the admin passes the admin-only endpoint |
| Layers.GetGeoJson | backend/app/api/routes.py:151-164 | a served layer always names an asset file |
| Layers.CatalogueUrls | backend/app/api/routes.py:79-86 | every listed layer's url is /api/map/geojson/ + its id, and the ids are distinct |
| Layers.DispatchAgreesWithCatalogue | backend/app/api/routes.py:79-164 | get_geojson serves an id iff the table lists it; any other id is 404 unknown_layer |
| Counting.BumpGet | backend/app/services/dummy_data.py:54 | `d[k] += 1` raises k's count by one and leaves every other count |
| Counting.BumpTotal | backend/app/services/dummy_data.py:54 | a bump raises the total by one |
| Counting.BumpKeys | backend/app/services/dummy_data.py:54 | a bump adds its key and no other |
| Counting.BumpDistinct | backend/app/services/dummy_data.py:51-54 | a bump keeps the keys distinct |
| Counting.BumpPositive | backend/app/services/dummy_data.py:51-54 | a bump keeps every count positive |
| Counting.CountGet | backend/app/services/dummy_data.py:48-49 | the tally records each key's number of occurrences |
| Counting.CountTotal | backend/app/services/dummy_data.py:48-49 | the tally's counts add up to the number of keys |
| Counting.CountShape | backend/app/services/dummy_data.py:48-49 | the tally lists exactly the keys seen, each once, with a positive count |
| Counting.LessTotal | backend/app/services/dummy_data.py:67 | Python string order is total and asymmetric |
| Counting.LessTransitive | backend/app/services/dummy_data.py:67 | Python string order is transitive |
| Counting.SortByKeyCorrect | backend/app/services/dummy_data.py:67 | sorting a tally keeps its entries (as a multiset) and orders keys strictly ascending |
| Aggregation.BandBoundaries | backend/app/services/dummy_data.py:59-62 | <= 2 is "0-2", (2,5] is "2-5", (5,10] is "5-10", > 10 is "10+" |
| Aggregation.BucketsPartition | backend/app/services/dummy_data.py:56-62 | each bucket counts the claims in its band, and the four buckets together count every claim once |
| Aggregation.MonthKeyOfDate | backend/app/services/dummy_data.py:53-54 | the month key of "Y-M-D" is "Y-M" |
| Aggregation.MonthKeyFails | backend/app/services/dummy_data.py:53 | a date fails to unpack iff it does not contain exactly two dashes |
| Aggregation.MonthKeysIff | backend/app/services/dummy_data.py:52-54 | the month keys fail iff some date fails; otherwise one key per claim, in order |
| Aggregation.Aggregates | backend/app/services/dummy_data.py:46-69 | the method computes exactly the specified summary, or the error of a malformed date |
| Aggregation.TallyMonths | backend/app/services/dummy_data.py:51-54 | the month loop stops iff some date fails; otherwise it yields the tally of the month keys |
| Aggregation.FillBuckets | backend/app/services/dummy_data.py:56-62 | the bucket loop yields the band count of the claims |
| Aggregation.TotalsAgree | backend/app/services/dummy_data.py:47-68 | total is the number of claims, and the status, state and month tallies and the buckets each sum to it |
| Aggregation.TalliesCount | backend/app/services/dummy_data.py:48-49 | each status and state is counted as often as it occurs |
| Aggregation.MonthsSortedAndCounted | backend/app/services/dummy_data.py:52-67 | the month tally is in ascending key order, and each month's count is the number of claims created in it |
| Aggregation.MalformedIff | backend/app/services/dummy_data.py:53 | aggregates fails iff some claim's date fails to unpack |
| Counting.SortByKeyTotal | backend/app/services/dummy_data.py:67 | sorting a tally keeps its total |
| Counting.SortByKeyGet | backend/app/services/dummy_data.py:67 | sorting a tally keeps every key's count |
| LandUse.Subset | backend/app/services/dummy_data.py:76 | the subset holds only claims of that land type, all taken from the input |
| LandUse.SubsetKeepsAll | backend/app/services/dummy_data.py:76 | the subset holds every claim of the land type as often as the input does, and no other claim, so its size is the number of input claims of that type |
| LandUse.SubsetNonEmptyIff | backend/app/services/dummy_data.py:76-78 | a land type's subset is non-empty iff some input claim has that land type |
| LandUse.LandUseInsights | backend/app/services/dummy_data.py:72-94 | the loop yields one entry per land type whose subset is non-empty (by SubsetNonEmptyIff: some claim has that type), in land-type order |
| LandUse.InsightsStep | backend/app/services/dummy_data.py:75-93 | one more land type appends its entry iff its subset is non-empty |
| LandUse.PresentIff | backend/app/services/dummy_data.py:75-78 | a land type is present iff it is listed and its subset is non-empty |
| LandUse.PresentOrdered | backend/app/services/dummy_data.py:75 | entries keep the order of the land-type list |
| LandUse.EntriesDescribeSubsets | backend/app/services/dummy_data.py:76-92 | each entry's count is the size of its type's subset (>= 1; by SubsetKeepsAll the number of claims of that type), averages their areas, and carries its type's suggestion; protected_zone gets the conservation text |
| LandUse.EntryIff | backend/app/services/dummy_data.py:75-78 | an entry exists for a land type iff it is one of the four and some input claim has that land type |
| LandUse.EntriesOrdered | backend/app/services/dummy_data.py:75 | the entries follow LAND_TYPES order |
| LandUse.SumBounds | backend/app/services/dummy_data.py:79 | the sum of areas lies between n times any lower and upper bound |
| LandUse.AverageWithin | backend/app/services/dummy_data.py:79 | the unrounded average lies between any lower and upper bound of the subset's areas |
| Dispatcher.OnError | frontend/src/lib/api.js:33-66 | the response interceptor keeps the invariant; a rejection leaves the state unchanged; a request queues only while a refresh is in flight, one more in the queue; a refresh starts only when none is in flight, with the refresh token as bearer |
| Dispatcher.Intercept | frontend/src/lib/api.js:7-14 | a truthy stored token sets Authorization to "Bearer " + token; otherwise the request is unchanged |
| Dispatcher.ResendAll | frontend/src/lib/api.js:19-29 | every queued request is re-sent once, in order |
| Dispatcher.Client.constructor | frontend/src/lib/api.js:16-17 | a fresh module: not refreshing, empty queue, stored tokens |
| Dispatcher.Client.Login | frontend/src/lib/api.js:110-115 | both returned tokens are stored |
| Dispatcher.Client.Logout | frontend/src/lib/api.js:117-120 | both tokens are removed |
| Dispatcher.Client.HandleError | frontend/src/lib/api.js:33-66 | the new state and the reaction are exactly those of the response interceptor up to the refresh call |
| Dispatcher.Client.RefreshSucceeded | frontend/src/lib/api.js:51-57 | the new access token is stored, the flag is cleared, the queue then the original request are re-sent with the new bearer |
| Dispatcher.Client.RefreshFailed | frontend/src/lib/api.js:58-63 | the flag is cleared, the queue is rejected, both tokens are removed, and the refresh error is propagated |
| Dispatcher.Client.ProcessQueue | frontend/src/lib/api.js:19-29 | with an error every queued request is rejected; otherwise each is re-sent with the token's bearer; the queue ends empty; nothing else changes |
| Dispatcher.EventsKeepInv | frontend/src/lib/api.js:16-68 | every event keeps the invariant: refreshing iff a refresh owner exists, requests wait only during a refresh, and all are marked retried |
| Dispatcher.OtherErrorsPassThrough | frontend/src/lib/api.js:35-66 | any error other than a first 401 is rejected unchanged, and the state is untouched |
| Dispatcher.NoRefreshTokenRejects | frontend/src/lib/api.js:36-40 | without a refresh token the 401 is rejected with its request marked retried, and no refresh starts |
| Dispatcher.SingleFlight | frontend/src/lib/api.js:41-48 | while a refresh is in flight no second one starts, and a 401 waits at the end of the queue; a refresh starts only when idle, with the refresh token as bearer |
| Dispatcher.RefreshedSettlesAll | frontend/src/lib/api.js:19-57 | on success each waiting request, then the owner, is sent exactly once with the new bearer; the access token is new, the refresh token kept, and the queue empty |
| Dispatcher.FailedClearsSession | frontend/src/lib/api.js:58-63 | on failure every waiting request is rejected in order, both tokens are cleared, nothing waits, and the refresh error is propagated |
| Dispatcher.SessionTokens | frontend/src/lib/api.js:110-120 | login stores both tokens and later requests carry the new bearer; after logout requests are left unchanged |
| Dispatcher.TwoConcurrent401s | frontend/src/lib/api.js:31-68 | two concurrent 401s: the first starts the refresh, the second waits, and on success both are re-sent with the new token, the waiting one first |
| MapView.Filter | frontend/src/App.jsx:101-105 | the shown claims are never more than the input |
| MapView.FilterKeepsMatches | frontend/src/App.jsx:101-105 | every shown claim matches, and a claim is shown iff it is in the input and matches both choices |
| MapView.FilterSingle | frontend/src/App.jsx:101-105 | a single claim is shown iff it matches both choices |
| MapView.FilterAppend | frontend/src/App.jsx:101-105 | filtering distributes over concatenation; with FilterSingle, the result is the matching claims in input order, each as often as in the input |
| MapView.LayerColour | frontend/src/App.jsx:66-74 | the stroke is one of the four colours; blue iff the India outline; layers other than the claims are green |
| MapView.RequestPath | frontend/src/App.jsx:53 | a url starting with "/api/" becomes a path starting with "/" that, after the client base's "/api", names the url again; any other url is requested unchanged |
| MapView.AllShowsEverything | frontend/src/App.jsx:101-105 | with both choices 'all' every claim is shown, in order |
| MapView.ClaimColours | frontend/src/App.jsx:68-70 | a claim is green iff approved, red iff rejected, and yellow otherwise, including a missing or empty status |
| MapView.CataloguePaths | frontend/src/App.jsx:53 | every catalogued layer is requested at /map/geojson/ + its id |
| MapView.LoadLayers | frontend/src/App.jsx:48-59 | the loop fills the data, visibility and opacity objects exactly as specified, skipping failed requests |
| MapView.LoadedAlike | frontend/src/App.jsx:55-57 | the three objects list the same layers; every one is visible, with opacity 0.4 for the outline and 0.8 otherwise |
| MapView.LoadedIff | frontend/src/App.jsx:51-58 | a layer id is loaded iff some layer with that id was fetched successfully |
| MapView.LoadedData | frontend/src/App.jsx:54-55 | a loaded layer holds what its request returned, provided no later layer with the same id was fetched (the last successful request wins) |
| CsvExport.RowOf | frontend/src/App.jsx:203-211 | every row has as many fields as the header |
| CsvExport.ExportCsv | frontend/src/App.jsx:196-213 | nothing without the claims layer; otherwise the header, then one row per claim passing the filter, written as specified |
| CsvExport.ExportMatchesMap | frontend/src/App.jsx:199-202 | the exported rows are the rows of the claims the map shows, in Filter's order (input order, by FilterAppend) |
| CsvExport.RowShape | frontend/src/App.jsx:198-211 | every row has the header's six columns, and a missing property or coordinate becomes "" |
| CsvExport.UnescapeEscape | frontend/src/App.jsx:213 | undoubling the quotes of an escaped field gives the field back |
| CsvExport.EscapeDoublesQuotes | frontend/src/App.jsx:213 | escaping doubles every quote and changes nothing else; a value without quotes is written as is |
| CsvExport.EscapeAvoids | frontend/src/App.jsx:213 | escaping adds no character except quotes |
| CsvExport.LineRoundTrip | frontend/src/App.jsx:213 | a row of comma- and newline-free fields reads back unchanged from its line |
| CsvExport.CsvRoundTrip | frontend/src/App.jsx:213 | a file of non-empty rows of comma- and newline-free fields reads back as the rows written |
| CsvExport.ExportRoundTrip | frontend/src/App.jsx:196-213 | when no shown claim has a comma or newline in its values, reading the export gives back the header and the shown claims' rows |
| CsvExport.CommasShiftColumns | frontend/src/App.jsx:213 | fields are never enclosed in quotes, so each comma inside a value adds a column when the line is read back |
| BatchView.SortByScoreCorrect | frontend/src/App.jsx:341 | the sort keeps the entries (as a multiset) and puts scores in non-increasing order |
| BatchView.SortByScoreStable | frontend/src/App.jsx:341 | entries with equal scores keep their original order |
| BatchView.InsertWithScore | frontend/src/App.jsx:341 | inserting an entry puts it before every entry of equal score and keeps the others' order |
| BatchView.ShownRows | frontend/src/App.jsx:341-342 | the row count is unchanged |
| BatchView.ShownRowsFromResults | frontend/src/App.jsx:341-342 | every row comes from a scored entry, and scores never increase down the table |
| BatchView.ShownRowsRanked | frontend/src/App.jsx:341-342 | after scoring a batch there is one row per claim, highest score first, each showing its claim's score |

## Left out

- The ML scoring (`backend/app/services/ml_model.py`, `/dss/ml/score` and `/dss/ml/score-batch`) is left out. It calls a scikit-learn model that is not part of this model.
- `generate_claim`/`generate_claims` are left out because they depend on `random` and the date. The claims are inputs.
- The 2-decimal rounding of the land-use average is not modelled. Areas and averages are `real`.
- The token minting and checking of flask_jwt_extended and `/auth/refresh` are left out. A sign-in is modelled up to the identity and profile it returns, and the gate reads an already decoded identity.
- The remaining endpoints return constant data, are Flask routing, or are health checks: `/decisions/recommendations`, `/ai/insights` (only its role gate is modelled), `/dashboard/summary`, `/claims`.
- `_read_geojson` file I/O is left out. `get_geojson` is modelled up to the name of the asset it would read.
- `Auth.Login`: the body fields are optional strings. A truthy non-string field, such as a number, makes `.strip()` raise in the source; that path is not modelled.
- `Auth.MatchUser`: `str.lower()` is modelled on ASCII letters only. Python also lower-cases non-ASCII letters.
- `Scoring.ScoreClaim`: the flags are modelled as booleans and the area as an optional real. Other truthy JSON values, and an area that `float()` rejects, are not modelled. A `NaN` area (`float("nan")`) fails both comparisons in Python and earns no area line; the model has no NaN. `round(base)` is the identity because every weight is an integer.
- `Dispatcher.Client`:
  - Promises, axios transport and real concurrency are not modelled. Each response, and each outcome of the refresh call, is one event method.
  - `Dispatcher.Client.RefreshSucceeded` and `Dispatcher.Client.RefreshFailed` each fold the `await processQueue(...)` (api.js lines 54 and 60) into one atomic event, together with the token write and the flag reset. `processQueue` settles its promises synchronously, so no response can be handled in between.
  - A re-sent request is returned as a list rather than sent.
  - localStorage is two optional fields.
  - The refresh call goes through bare `axios` without the interceptors, so it is not an event of the client.
- `Dispatcher.Client.RefreshSucceeded`: the new access token is modelled as a string. A response without `access_token` is not modelled.
- The data-fetch wrappers of `api.js` and `fetchHealth` are left out because they are one-call façades.
- `MapView.LoadLayers`:
  - The GET is a function parameter returning None where the request throws.
  - The awaits are taken in order.
  - React state, Leaflet rendering, the opacity slider and the stroke weights are not modelled.
- `CsvExport.ExportCsv`:
  - JavaScript's `String(v)` formatting of numbers is not modelled. Property values and coordinates are the text they print as.
  - The Blob download, the GeoJSON export's `JSON.stringify` and the Nominatim search are left out.
- `CsvExport.CsvRoundTrip`: the round trip holds only for fields without commas or newlines. Like the source, the export never encloses fields in quotes (`CommasShiftColumns`).
- `CsvExport.Parse` is this model's own reader, the exact inverse of the writer: it splits on newlines and commas and undoubles quotes in every field. The round-trip lemmas hold under it only. RFC 4180 does not allow a `"` in an unquoted field. Common CSV readers keep an inner `""` as two quotes, and read a field that starts with `"` as a quoted field. So a value containing `"` does not in general come back from them.
- `BatchView.ShownRows`: the ML `prob` column is not modelled.

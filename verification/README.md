# Locations service converter, modelled in Dafny

This project models the lookup core of a Go service that maps a latitude and
longitude to a U.S. state and then to a city or county in that state. The
core is `converter/convert.go`. It has four parts:

- **Normaliser and grouper.** `MapLocations` turns GeoJSON features into
  `Location` records and groups them by state name, in input order.
- **Ordering.** `SortBySize` orders each state's group by house units,
  largest first.
- **Two first-match scans.** `FindState` scans the state features.
  `FindCityCounty` scans one state's group.
- **Point construction.** `MakePoint` builds a point as (longitude, latitude).

The modules follow the structure of the code:

- `Wrappers`: `Option` and `Result`. `Ok` is a normal return with a nil
  error. `Err` is either an error return or a runtime panic.
- `Orb`: points, polygons and geometry kinds. The containment tests are
  caller-supplied predicates (`Planar`).
- `Properties`: the feature property map. Each value is a tagged union, and
  a missing key reads as nil.
- `Locations`: `Location`, the schema dispatch (`Normalize`),
  `MapLocations`, and the reference grouping (`Group`, `OfState`, `Kept`).
- `Ordering`: `SortBySize`.
- `Search`: `FindState`, `FindCityCounty` and `MakePoint`.
- `Lookup`: lemmas about how the pieces compose.

Go's failed type assertions and nil dereferences are modelled as explicit
`Err` outcomes, not as preconditions. They are checked in the same order as
in the code:

- `FailedAssertion(key)` is a failed type assertion on the property `key`.
- `NilGroup` is a dereference of a nil `*[]Location`.
- `UnsupportedGeometry` is the error value returned at line 82.

In these places the model follows the code as written:

- Ordering uses the unstable `sort.Slice`. The model promises a permutation
  that is non-increasing in house units, and nothing about ties.
- A point outside every state gives `""` with a nil error; there is no
  separate not-found result.
- When no region of the state contains the point, the scan returns nil,
  which is `Ok(None)` here.
- A feature without a string `NAME` panics; such features are not skipped.
- Unknown abbreviations and FIPS codes give `""` and are grouped under `""`.

The house-unit handling has two variants, selected by a `Weighting`
parameter:

- `AsWritten` is the code as written.
- `Intended` is the behaviour the code evidently intends (see Findings).

Every lemma about building and searching the index holds for both variants.

## Model

| member | source | states |
|---|---|---|
| Locations.Normalize | converter/convert.go:76-116 | Geometry error exactly for non-polygonal geometry; skip exactly when NAME is a string and none of ST, STATE, STATE_NAME is set; a panic exactly when some reached type assertion fails; a kept location carries the feature, its NAME, the multi-polygon tag matching the geometry, the state from the abbreviation table, the FIPS table or STATE_NAME by schema, and 10 house units when HOUSEUNITS is absent |
| Locations.TruncateToInt32 | converter/convert.go:97 | Go's float64-to-int32 conversion truncates toward zero within range; outside it the model saturates |
| Locations.MapLocations | converter/convert.go:72-125 | The build fails iff some feature fails, with the fault of the first failing feature; otherwise the result maps each state to exactly its kept locations in input order |
| Locations.AdvanceFailure | converter/convert.go:75-83 | One more loop iteration keeps "fails iff some feature fails, with the first failure's fault" |
| Locations.AdvanceGroups | converter/convert.go:117-122 | One more loop iteration keeps the map equal to the reference grouping of the kept locations |
| Locations.GroupAdd | converter/convert.go:117-122 | Append-or-create on the map equals regrouping the kept locations with one more location at the end |
| Locations.GroupContents | converter/convert.go:117-122 | Every location under key k has state k; every kept location appears under its own state as often as it was kept, and under no other key |
| Locations.KeptOrDropped | converter/convert.go:94-110 | Without failures, kept plus dropped features number exactly the input features |
| Locations.KeptIncludes | converter/convert.go:117-122 | A kept feature's location is among the kept locations |
| Locations.SuccessfulBuildAccounts | converter/convert.go:94-116 | After a successful build a feature is dropped iff it has none of ST, STATE, STATE_NAME, every other feature is kept, and the kept count is the input count less the dropped count |
| Locations.LineFeatureAborts | converter/convert.go:81-83 | A line-string feature makes the build return the geometry error |
| Locations.CityHouseUnitsPanic | converter/convert.go:94-116 | As written, every city feature carrying HOUSEUNITS panics on it, since float64 and int32 are both asserted |
| Locations.CityWithUnitsExample | converter/convert.go:96-113 | A concrete city record with a float64 count makes the as-written build panic |
| Locations.IntendedCityHouseUnits | converter/convert.go:90-100 | With the intended handling, a city with a float64 count is kept with that count truncated to int32 and its state from the abbreviation table |
| Locations.IntendedAgreesElsewhere | converter/convert.go:102-116 | The intended and as-written normalisers agree on every feature except cities carrying HOUSEUNITS |
| Ordering.Insert | converter/convert.go:164-166 | Inserting into a non-increasing group adds exactly that location and stays non-increasing |
| Ordering.SortByUnits | converter/convert.go:163-166 | A group is reordered into a permutation of itself that is non-increasing in house units |
| Ordering.SortBySize | converter/convert.go:161-170 | Same key set; each group becomes a permutation of the original, non-increasing in house units |
| Search.First | converter/convert.go:48-64 | Returns the index of the earliest element satisfying the test, with no earlier one satisfying it, or none iff no element does |
| Search.MakePoint | converter/convert.go:174-176 | The point's first coordinate (longitude) is lon and its second (latitude) is lat |
| Search.MakePointRoundTrip | converter/convert.go:174-176 | Rebuilding a point from its own latitude and longitude gives the same point |
| Search.FindState | converter/convert.go:47-67 | Returns the NAME of the earliest polygon or multi-polygon feature containing the point, passing over other kinds; "" when none contains it; the only failure is the NAME assertion panic, never an error value |
| Search.HitsIsContains | converter/convert.go:142-154 | For a location whose tag matches its geometry, the tag-dispatched test is geometric containment |
| Search.Report | converter/convert.go:131-138 | The result carries the location's City and State and its Community_ID; a non-string Community_ID panics |
| Search.FindCityCounty | converter/convert.go:129-157 | A nil group panics; otherwise nil iff no location contains the point, else the report of the earliest containing location in slice order |
| Lookup.LargestContainingWins | converter/convert.go:161-166 | After ordering, the location the scan stops at has at least as many house units as every containing location of the original group |
| Lookup.KeptInIndex | converter/convert.go:117-122 | After a successful build a kept feature's location is stored under its own state |
| Lookup.InSortedGroup | converter/convert.go:161-168 | Ordering keeps every location in its state's group |
| Lookup.MemberIsFound | converter/convert.go:140-156 | A scan over a group holding a containing location does not return nil |
| Lookup.ContainedPointIsFound | converter/convert_test.go:41-42 | With the state name supplied as the kept region's own state, searching a point inside that region's geometry in the state's ordered group never yields nil |
| Lookup.StateThenRegion | converter/convert_test.go:40-42 | With the state name that FindState returned: a name with no group makes the scan panic on nil, and a name whose kept region contains the point never yields nil |
| Lookup.UnknownAbbreviationGroupedUnderEmpty | converter/convert.go:95 | A city whose abbreviation is missing from the table is kept and stored under the empty state name |

## Findings

| source | as written | input that shows it | evidently intended | confidence | as-written member | corrected member |
|---|---|---|---|---|---|---|
| converter/convert.go:112-116 | The int32 HOUSEUNITS block runs for every feature, after line 97 has already asserted float64 for cities | A city feature with ST "NC" and HOUSEUNITS 120000.0 (a float64): line 113 panics | The comment at lines 90-93 says cities hold a float64 count and counties an int32 one, so lines 112-116 belong to the county branch only | high; not executed | Locations.CityHouseUnitsPanic | Locations.IntendedCityHouseUnits |

The example record is `Locations.CityWithUnitsExample`. With the
`Intended` weighting the generic block runs only for counties.
`Locations.IntendedAgreesElsewhere` proves that nothing else changes. A
related point: a standard JSON decoder turns every number into a float64.
If so, the int32 assertion at line 113 would also panic for county records
that carry `HOUSEUNITS`. The decoder is not part of this model, so this is a
note only.

## Left out

- `GetFeatureCollection` and GeoJSON decoding: file I/O plus an external library. Features are given as values.
- The geometry of `planar.PolygonContains` and `planar.MultiPolygonContains`: floating-point geometry in a library not modelled. `Planar` supplies them as arbitrary total predicates.
- Float coordinates: points are pairs of reals. Only the coordinate order matters here.
- TruncateToInt32: saturates out-of-range values, because Go leaves out-of-range float-to-int conversion to the implementation.
- The contents of `StateFromAbbrev` and `StateFromNum`: they are not part of this model. `Tables` supplies them, and a missing key gives `""`.
- Property values other than nil, string, float64, int32 and bool (nested JSON objects and arrays): no type assertion in the core can accept them, so `Bool` stands for all of them.
- SortBySize: does not model the in-place mutation of the Go map or its always-nil error result. The model returns a new map. Among equal counts, the insertion sort's order is a modelling choice and is not part of the contract.
- All `fmt.Print*` logging.
- `internal/server/server.go` (HTTP handling, JSON, routing, `.env` loading, and the dereference of a nil `FindCityCounty` result), `main.go` and `cmd/geoservice/main.go`: transport and startup.
- The benchmarks in `converter/convert_test.go`: they read absolute local paths and make no assertions. Their call sequence (find the state, read its group, scan it) is modelled by `Lookup.StateThenRegion`.
- The round-robin goroutine TODO at the end of `converter/convert.go`: it is concurrency and is not implemented.

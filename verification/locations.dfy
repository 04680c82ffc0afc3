/** The region normaliser and grouper of converter/convert.go: `Location`,
    the per-feature schema dispatch of `MapLocations`, and the map from state
    name to that state's locations in input order. */
module Locations {
  import opened Wrappers
  import opened Orb
  import opened Properties

  /** A normalised sub-state region (city, county or community). */
  datatype Location = Location(
    isMultiPolygon: bool,
    feature: Feature,
    houseUnits: int32,
    state: string,
    city: string)

  /** Why a call did not return normally. */
  datatype Fault =
    | UnsupportedGeometry          // the error value returned by MapLocations
    | FailedAssertion(key: string) // a runtime panic: the property under `key` lacks the asserted Go type
    | NilGroup                     // a runtime panic: a nil `*[]Location` was dereferenced

  /** The `StateFromAbbrev` and `StateFromNum` tables, whose contents are not
      part of this model. */
  datatype Tables = Tables(fromAbbrev: map<string, string>, fromNumber: map<string, string>)

  /** A Go map read: a missing key yields the zero string. */
  function Lookup(table: map<string, string>, key: string): string {
    if key in table then table[key] else ""
  }

  /** Which house-unit handling to use: the code as written, where the
      generic `HOUSEUNITS` block also runs for cities, or the evidently
      intended one, where cities keep their float64 count. */
  datatype Weighting = AsWritten | Intended

  const DefaultHouseUnits: int32 := 10

  datatype Schema = City | County

  datatype StateChoice =
    | Resolved(state: string, schema: Schema)
    | Unresolvable
    | Unreadable(key: string)

  /** Schema detection: `ST` selects the city schema; otherwise `STATE`
      (a FIPS code) and then `STATE_NAME` select the county schema. */
  function ResolveState(f: Feature, tables: Tables): StateChoice {
    if Has(f, KeyAbbrev) then
      if IsString(f, KeyAbbrev) then Resolved(Lookup(tables.fromAbbrev, StringOf(f, KeyAbbrev)), City)
      else Unreadable(KeyAbbrev)
    else if Has(f, KeyStateNumber) then
      if IsString(f, KeyStateNumber) then Resolved(Lookup(tables.fromNumber, StringOf(f, KeyStateNumber)), County)
      else Unreadable(KeyStateNumber)
    else if Has(f, KeyStateName) then
      if IsString(f, KeyStateName) then Resolved(StringOf(f, KeyStateName), County)
      else Unreadable(KeyStateName)
    else
      Unresolvable
  }

  /** Go's `int32(x)` for a float64 `x`: truncation toward zero. Go leaves
      the result of an out-of-range conversion to the implementation; this
      model saturates. */
  function TruncateToInt32(x: real): (n: int32)
    ensures 0.0 <= x < 0x8000_0000 as real ==> n as real <= x < n as real + 1.0
    ensures -0x8000_0000 as real <= x < 0.0 ==> n as real - 1.0 < x <= n as real
    ensures x >= 0x8000_0000 as real ==> n == 0x7fff_ffff
    ensures x < -0x8000_0000 as real ==> n == -0x8000_0000
  {
    var t := if x >= 0.0 then x.Floor else -((-x).Floor);
    if t < -0x8000_0000 then -0x8000_0000
    else if t > 0x7fff_ffff then 0x7fff_ffff
    else t as int32
  }

  /** The generic block after the schema branches: an int32 `HOUSEUNITS`,
      or 10 when the property is absent. */
  function CountyHouseUnits(f: Feature): Result<int32, Fault> {
    if !Has(f, KeyHouseUnits) then Ok(DefaultHouseUnits)
    else if IsInt32(f, KeyHouseUnits) then Ok(Get(f, KeyHouseUnits).n)
    else Err(FailedAssertion(KeyHouseUnits))
  }

  /** The city branch: a float64 `HOUSEUNITS` is asserted first. As written
      the generic block then runs as well and overrides the city's count. */
  function CityHouseUnits(f: Feature, w: Weighting): Result<int32, Fault> {
    if Has(f, KeyHouseUnits) && !IsFloat64(f, KeyHouseUnits) then Err(FailedAssertion(KeyHouseUnits))
    else
      match w
      case AsWritten => CountyHouseUnits(f)
      case Intended =>
        if Has(f, KeyHouseUnits) then Ok(TruncateToInt32(Get(f, KeyHouseUnits).f))
        else Ok(DefaultHouseUnits)
  }

  function HouseUnitsFor(f: Feature, schema: Schema, w: Weighting): Result<int32, Fault> {
    match schema
    case City => CityHouseUnits(f, w)
    case County => CountyHouseUnits(f)
  }

  /** Every Go type assertion on the house-unit count of a city succeeds:
      float64 in the city branch and, as written, also int32 afterwards. */
  predicate CityUnitsTyped(f: Feature, w: Weighting) {
    Has(f, KeyHouseUnits) ==> IsFloat64(f, KeyHouseUnits) && (w == AsWritten ==> IsInt32(f, KeyHouseUnits))
  }

  predicate CountyUnitsTyped(f: Feature) {
    Has(f, KeyHouseUnits) ==> IsInt32(f, KeyHouseUnits)
  }

  /** Every type assertion that normalising a polygonal feature reaches
      succeeds, so it does not panic. */
  predicate AssertionsHold(f: Feature, w: Weighting) {
    && IsString(f, KeyName)
    && (Has(f, KeyAbbrev) ==> IsString(f, KeyAbbrev) && CityUnitsTyped(f, w))
    && (!Has(f, KeyAbbrev) && Has(f, KeyStateNumber) ==>
          IsString(f, KeyStateNumber) && CountyUnitsTyped(f))
    && (!Has(f, KeyAbbrev) && !Has(f, KeyStateNumber) && Has(f, KeyStateName) ==>
          IsString(f, KeyStateName) && CountyUnitsTyped(f))
  }

  /** A location's multi-polygon tag agrees with its feature's geometry. */
  predicate WellFormed(l: Location) {
    IsPolygonal(l.feature.geometry) && l.isMultiPolygon == l.feature.geometry.MultiPolygonShape?
  }

  /** What one iteration of the `MapLocations` loop does with a feature. */
  datatype Step = Keep(location: Location) | Skip | Abort(fault: Fault)

  /** One iteration of the `MapLocations` loop body. */
  function Normalize(f: Feature, tables: Tables, w: Weighting): (r: Step)
    ensures r == Abort(UnsupportedGeometry) <==> !IsPolygonal(f.geometry)
    ensures r.Skip? <==>
      && IsPolygonal(f.geometry) && IsString(f, KeyName)
      && !Has(f, KeyAbbrev) && !Has(f, KeyStateNumber) && !Has(f, KeyStateName)
    ensures IsPolygonal(f.geometry) ==> (r.Abort? <==> !AssertionsHold(f, w))
    ensures r.Keep? ==>
      && WellFormed(r.location) && r.location.feature == f
      && IsString(f, KeyName) && r.location.city == StringOf(f, KeyName)
    ensures r.Keep? && !Has(f, KeyHouseUnits) ==> r.location.houseUnits == DefaultHouseUnits
    ensures r.Keep? && Has(f, KeyHouseUnits) && !Has(f, KeyAbbrev) ==>
      Get(f, KeyHouseUnits) == Int32(r.location.houseUnits)
    ensures r.Keep? && Has(f, KeyHouseUnits) && Has(f, KeyAbbrev) ==>
      && w == Intended && Get(f, KeyHouseUnits).Float64?
      && r.location.houseUnits == TruncateToInt32(Get(f, KeyHouseUnits).f)
    ensures r.Keep? && Has(f, KeyAbbrev) ==>
      IsString(f, KeyAbbrev) && r.location.state == Lookup(tables.fromAbbrev, StringOf(f, KeyAbbrev))
    ensures r.Keep? && !Has(f, KeyAbbrev) && Has(f, KeyStateNumber) ==>
      IsString(f, KeyStateNumber) && r.location.state == Lookup(tables.fromNumber, StringOf(f, KeyStateNumber))
    ensures r.Keep? && !Has(f, KeyAbbrev) && !Has(f, KeyStateNumber) ==>
      IsString(f, KeyStateName) && r.location.state == StringOf(f, KeyStateName)
  {
    if !IsPolygonal(f.geometry) then Abort(UnsupportedGeometry)
    else if !IsString(f, KeyName) then Abort(FailedAssertion(KeyName))
    else
      match ResolveState(f, tables)
      case Unreadable(key) => Abort(FailedAssertion(key))
      case Unresolvable => Skip
      case Resolved(state, schema) =>
        match HouseUnitsFor(f, schema, w)
        case Err(e) => Abort(e)
        case Ok(units) =>
          Keep(Location(f.geometry.MultiPolygonShape?, f, units, state, StringOf(f, KeyName)))
  }

  function StepLocations(s: Step): seq<Location> {
    if s.Keep? then [s.location] else []
  }

  /** The locations the features normalise to, in input order. */
  function Kept(fs: seq<Feature>, tables: Tables, w: Weighting): seq<Location> {
    if |fs| == 0 then []
    else Kept(fs[..|fs| - 1], tables, w) + StepLocations(Normalize(fs[|fs| - 1], tables, w))
  }

  /** How many features are skipped for want of a state property. */
  function Dropped(fs: seq<Feature>, tables: Tables, w: Weighting): nat {
    if |fs| == 0 then 0
    else Dropped(fs[..|fs| - 1], tables, w) + (if Normalize(fs[|fs| - 1], tables, w).Skip? then 1 else 0)
  }

  /** The subsequence of `locs` whose state is `k`, in order. */
  function OfState(locs: seq<Location>, k: string): seq<Location> {
    if |locs| == 0 then []
    else
      var last := locs[|locs| - 1];
      OfState(locs[..|locs| - 1], k) + (if last.state == k then [last] else [])
  }

  function States(locs: seq<Location>): set<string> {
    set l | l in locs :: l.state
  }

  /** The reference grouping: each state that occurs maps to its locations
      in input order. */
  function Group(locs: seq<Location>): map<string, seq<Location>> {
    map k | k in States(locs) :: OfState(locs, k)
  }

  /** Append to the state's slice, or create it (convert.go:117-122). */
  function AddLocation(index: map<string, seq<Location>>, l: Location): map<string, seq<Location>> {
    if l.state in index then index[l.state := index[l.state] + [l]]
    else index[l.state := [l]]
  }

  lemma {:induction false} OfStateAbsent(locs: seq<Location>, k: string)
    requires k !in States(locs)
    ensures OfState(locs, k) == []
  {
    if |locs| > 0 {
      var init := locs[..|locs| - 1];
      assert States(init) <= States(locs) by {
        forall x | x in States(init) ensures x in States(locs) {
          var l :| l in init && l.state == x;
          assert l in locs;
        }
      }
      OfStateAbsent(init, k);
      assert locs[|locs| - 1] in locs;
    }
  }

  /** Adding one location to the reference grouping is exactly the
      append-or-create step of the loop. */
  lemma {:induction false} GroupAdd(locs: seq<Location>, l: Location)
    ensures Group(locs + [l]) == AddLocation(Group(locs), l)
  {
    var ls := locs + [l];
    assert ls[..|ls| - 1] == locs;
    assert States(ls) == States(locs) + {l.state} by {
      forall x | x in States(ls) ensures x in States(locs) + {l.state} {
        var y :| y in ls && y.state == x;
        if y != l {
          assert y in locs;
        }
      }
      assert l in ls;
      forall x | x in States(locs) ensures x in States(ls) {
        var y :| y in locs && y.state == x;
        assert y in ls;
      }
    }
    var g, a := Group(ls), AddLocation(Group(locs), l);
    assert g.Keys == a.Keys;
    forall k | k in g ensures g[k] == a[k] {
      if k == l.state && k !in States(locs) {
        OfStateAbsent(locs, k);
      }
    }
  }

  lemma {:induction false} OfStateCount(locs: seq<Location>, k: string, l: Location)
    ensures multiset(OfState(locs, k))[l] == if l.state == k then multiset(locs)[l] else 0
  {
    if |locs| > 0 {
      var init := locs[..|locs| - 1];
      assert locs == init + [locs[|locs| - 1]];
      OfStateCount(init, k, l);
    }
  }

  /** Every location stored under key `k` has state `k`; each location of
      the input appears in its own state's group exactly as often as in the
      input, and in no other group. */
  lemma GroupContents(locs: seq<Location>)
    ensures forall k, i :: k in Group(locs) && 0 <= i < |Group(locs)[k]| ==> Group(locs)[k][i].state == k
    ensures forall l :: l in locs ==>
      l.state in Group(locs) && multiset(Group(locs)[l.state])[l] == multiset(locs)[l]
    ensures forall k, l: Location :: k in Group(locs) && l.state != k ==> l !in Group(locs)[k]
  {
    forall k, i | k in Group(locs) && 0 <= i < |Group(locs)[k]|
      ensures Group(locs)[k][i].state == k
    {
      var x := Group(locs)[k][i];
      assert x in multiset(OfState(locs, k));
      OfStateCount(locs, k, x);
    }
    forall l | l in locs
      ensures l.state in Group(locs) && multiset(Group(locs)[l.state])[l] == multiset(locs)[l]
    {
      OfStateCount(locs, l.state, l);
    }
    forall k, l: Location | k in Group(locs) && l.state != k
      ensures l !in Group(locs)[k]
    {
      OfStateCount(locs, k, l);
    }
  }

  type Index = map<string, seq<Location>>

  /** The effect of one loop iteration on the result so far. */
  function Advance(acc: Result<Index, Fault>, s: Step): Result<Index, Fault> {
    match acc
    case Err(e) => Err(e)
    case Ok(index) =>
      match s
      case Abort(e) => Err(e)
      case Skip => Ok(index)
      case Keep(l) => Ok(AddLocation(index, l))
  }

  /** `r` fails exactly when some feature of `fc` fails, with the fault of
      the first one. */
  predicate FailsAtFirstAbort(fc: seq<Feature>, tables: Tables, w: Weighting, r: Result<Index, Fault>) {
    && (r.Err? <==> exists i :: 0 <= i < |fc| && Normalize(fc[i], tables, w).Abort?)
    && (forall i ::
          (0 <= i < |fc| && Normalize(fc[i], tables, w).Abort?
           && forall j :: 0 <= j < i ==> !Normalize(fc[j], tables, w).Abort?) ==>
          r == Err(Normalize(fc[i], tables, w).fault))
  }

  lemma AdvanceFailure(fc: seq<Feature>, tables: Tables, w: Weighting, acc: Result<Index, Fault>)
    requires |fc| > 0 && FailsAtFirstAbort(fc[..|fc| - 1], tables, w, acc)
    ensures FailsAtFirstAbort(fc, tables, w, Advance(acc, Normalize(fc[|fc| - 1], tables, w)))
  {
    var prefix := fc[..|fc| - 1];
    assert forall i :: 0 <= i < |prefix| ==> prefix[i] == fc[i];
    var r := Advance(acc, Normalize(fc[|fc| - 1], tables, w));
    if acc.Err? {
      var i :| 0 <= i < |prefix| && Normalize(prefix[i], tables, w).Abort?;
      assert Normalize(fc[i], tables, w).Abort?;
    }
    if r.Err? && acc.Ok? {
      assert Normalize(fc[|fc| - 1], tables, w).Abort?;
    }
  }

  lemma AdvanceGroups(fc: seq<Feature>, tables: Tables, w: Weighting, acc: Result<Index, Fault>)
    requires |fc| > 0
    requires acc.Ok? ==> acc.value == Group(Kept(fc[..|fc| - 1], tables, w))
    ensures var r := Advance(acc, Normalize(fc[|fc| - 1], tables, w));
      r.Ok? ==> r.value == Group(Kept(fc, tables, w))
  {
    var prefix := fc[..|fc| - 1];
    var s := Normalize(fc[|fc| - 1], tables, w);
    assert Kept(fc, tables, w) == Kept(prefix, tables, w) + StepLocations(s);
    if s.Keep? {
      GroupAdd(Kept(prefix, tables, w), s.location);
    } else {
      assert Kept(fc, tables, w) == Kept(prefix, tables, w);
    }
  }

  /** `MapLocations`: fails as soon as a feature fails, with that feature's
      fault; otherwise groups the normalised locations by state. */
  function MapLocations(fc: seq<Feature>, tables: Tables, w: Weighting): (r: Result<Index, Fault>)
    ensures r.Err? <==> exists i :: 0 <= i < |fc| && Normalize(fc[i], tables, w).Abort?
    ensures forall i ::
      (0 <= i < |fc| && Normalize(fc[i], tables, w).Abort?
       && forall j :: 0 <= j < i ==> !Normalize(fc[j], tables, w).Abort?) ==>
      r == Err(Normalize(fc[i], tables, w).fault)
    ensures r.Ok? ==> r.value == Group(Kept(fc, tables, w))
    decreases |fc|
  {
    if |fc| == 0 then Ok(map[])
    else
      var acc := MapLocations(fc[..|fc| - 1], tables, w);
      AdvanceFailure(fc, tables, w, acc);
      AdvanceGroups(fc, tables, w, acc);
      Advance(acc, Normalize(fc[|fc| - 1], tables, w))
  }

  /** Without failures, every feature is either kept or dropped. */
  lemma {:induction false} KeptOrDropped(fs: seq<Feature>, tables: Tables, w: Weighting)
    requires forall i :: 0 <= i < |fs| ==> !Normalize(fs[i], tables, w).Abort?
    ensures |Kept(fs, tables, w)| + Dropped(fs, tables, w) == |fs|
  {
    if |fs| > 0 {
      var init := fs[..|fs| - 1];
      assert forall i :: 0 <= i < |init| ==> init[i] == fs[i];
      KeptOrDropped(init, tables, w);
    }
  }

  /** A kept feature's location is among the kept locations. */
  lemma {:induction false} KeptIncludes(fs: seq<Feature>, tables: Tables, w: Weighting, i: nat)
    requires i < |fs| && Normalize(fs[i], tables, w).Keep?
    ensures Normalize(fs[i], tables, w).location in Kept(fs, tables, w)
  {
    var init := fs[..|fs| - 1];
    if i < |fs| - 1 {
      assert init[i] == fs[i];
      KeptIncludes(init, tables, w, i);
    }
  }

  /** After a successful build, a feature is dropped exactly when it has
      none of `ST`, `STATE` and `STATE_NAME`; every other feature is kept,
      so the kept locations number the features less the dropped ones. */
  lemma SuccessfulBuildAccounts(fc: seq<Feature>, tables: Tables, w: Weighting)
    requires MapLocations(fc, tables, w).Ok?
    ensures forall i :: 0 <= i < |fc| ==>
      (Normalize(fc[i], tables, w).Skip? <==>
        !Has(fc[i], KeyAbbrev) && !Has(fc[i], KeyStateNumber) && !Has(fc[i], KeyStateName))
    ensures forall i :: 0 <= i < |fc| ==> Normalize(fc[i], tables, w).Skip? || Normalize(fc[i], tables, w).Keep?
    ensures |Kept(fc, tables, w)| == |fc| - Dropped(fc, tables, w)
  {
    KeptOrDropped(fc, tables, w);
  }

  /** A feature of any kind but polygon or multi-polygon aborts the build
      with the geometry error. */
  lemma LineFeatureAborts(tables: Tables, w: Weighting)
    ensures MapLocations([Feature(OtherShape("LineString"), map[])], tables, w) == Err(UnsupportedGeometry)
  {
  }

  /** As written, a city feature that carries `HOUSEUNITS` always panics:
      the city branch asserts float64 and the generic block then asserts
      int32 on the same value. */
  lemma CityHouseUnitsPanic(f: Feature, tables: Tables)
    requires IsPolygonal(f.geometry) && IsString(f, KeyName) && IsString(f, KeyAbbrev)
    requires Has(f, KeyHouseUnits)
    ensures Normalize(f, tables, AsWritten) == Abort(FailedAssertion(KeyHouseUnits))
    ensures !AssertionsHold(f, AsWritten)
  {
  }

  /** A concrete city record with a float64 count aborts the build. */
  lemma CityWithUnitsExample(tables: Tables)
    ensures var f := Feature(PolygonShape(Polygon([])),
                             map[KeyName := Str("Durham"), KeyAbbrev := Str("NC"), KeyHouseUnits := Float64(120000.0)]);
      MapLocations([f], tables, AsWritten) == Err(FailedAssertion(KeyHouseUnits))
  {
  }

  /** With the intended handling, a city's float64 count becomes its weight. */
  lemma IntendedCityHouseUnits(f: Feature, tables: Tables)
    requires IsPolygonal(f.geometry) && IsString(f, KeyName) && IsString(f, KeyAbbrev)
    requires IsFloat64(f, KeyHouseUnits)
    ensures Normalize(f, tables, Intended).Keep?
    ensures Normalize(f, tables, Intended).location.houseUnits == TruncateToInt32(Get(f, KeyHouseUnits).f)
    ensures Normalize(f, tables, Intended).location.state == Lookup(tables.fromAbbrev, StringOf(f, KeyAbbrev))
  {
  }

  /** The intended handling differs from the code as written only on city
      features carrying `HOUSEUNITS`. */
  lemma IntendedAgreesElsewhere(f: Feature, tables: Tables)
    requires !(Has(f, KeyAbbrev) && Has(f, KeyHouseUnits))
    ensures Normalize(f, tables, Intended) == Normalize(f, tables, AsWritten)
  {
  }
}

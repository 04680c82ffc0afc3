/** The two first-match scans of converter/convert.go: `FindState` over the
    state features and `FindCityCounty` over one state's locations, plus
    `MakePoint`. */
module Search {
  import opened Wrappers
  import opened Orb
  import opened Properties
  import opened Locations

  /** The index of the first element of `s` satisfying `hit`. */
  function First<T>(s: seq<T>, hit: T -> bool): (r: Option<nat>)
    ensures r.Some? ==> r.value < |s| && hit(s[r.value]) && forall j :: 0 <= j < r.value ==> !hit(s[j])
    ensures r.None? <==> forall j :: 0 <= j < |s| ==> !hit(s[j])
  {
    if |s| == 0 then None
    else if hit(s[0]) then Some(0)
    else
      match First(s[1..], hit)
      case None => assert forall j :: 0 < j < |s| ==> s[j] == s[1..][j - 1]; None
      case Some(i) => Some(i + 1)
  }

  /** `MakePoint`: orb points are (longitude, latitude). */
  function MakePoint(lat: real, lon: real): (p: Point)
    ensures p.x == lon && p.y == lat
    ensures p.Lat() == lat && p.Lon() == lon
  {
    Point(lon, lat)
  }

  lemma MakePointRoundTrip(p: Point)
    ensures MakePoint(p.Lat(), p.Lon()) == p
  {
  }

  /** `FindState`: the `NAME` of the first state feature whose polygon or
      multi-polygon contains `p`, or "" when none does. Features of other
      geometry kinds are passed over. The only way not to return is the
      panic of a non-string `NAME` on the matching feature; the Go error
      result is never set. */
  function FindState(fc: seq<Feature>, p: Point, planar: Planar): (r: Result<string, Fault>)
    ensures r.Err? ==> r.error == FailedAssertion(KeyName)
    ensures (forall i :: 0 <= i < |fc| ==> !Contains(planar, fc[i].geometry, p)) ==> r == Ok("")
    ensures forall i ::
      (0 <= i < |fc| && Contains(planar, fc[i].geometry, p)
       && forall j :: 0 <= j < i ==> !Contains(planar, fc[j].geometry, p)) ==>
      r == if IsString(fc[i], KeyName) then Ok(StringOf(fc[i], KeyName)) else Err(FailedAssertion(KeyName))
  {
    match First(fc, (f: Feature) => Contains(planar, f.geometry, p))
    case None => Ok("")
    case Some(i) =>
      if IsString(fc[i], KeyName) then Ok(StringOf(fc[i], KeyName)) else Err(FailedAssertion(KeyName))
  }

  /** What `FindCityCounty` reports for a matching location. */
  datatype SearchResult = SearchResult(city: string, state: string, communityId: string)

  /** The containment test of a location, dispatched on its recorded tag.
      A tag that disagrees with the geometry passes the zero value of the
      tagged kind, as the unchecked type assertions do. */
  predicate Hits(planar: Planar, l: Location, p: Point) {
    if l.isMultiPolygon then planar.multiPolygonContains(MultiPolygonOf(l.feature.geometry), p)
    else planar.polygonContains(PolygonOf(l.feature.geometry), p)
  }

  /** The tagged test agrees with containment for a well-formed location. */
  lemma HitsIsContains(planar: Planar, l: Location, p: Point)
    requires WellFormed(l)
    ensures Hits(planar, l, p) == Contains(planar, l.feature.geometry, p)
  {
  }

  /** The `makeRes` closure: the result, or the panic of a non-string
      `Community_ID`. */
  function Report(l: Location): (r: Result<Option<SearchResult>, Fault>)
    ensures r.Ok? <==> IsString(l.feature, KeyCommunityId)
    ensures r.Ok? ==>
      && r.value.Some? && r.value.value.city == l.city && r.value.value.state == l.state
      && r.value.value.communityId == StringOf(l.feature, KeyCommunityId)
    ensures r.Err? ==> r.error == FailedAssertion(KeyCommunityId)
  {
    if IsString(l.feature, KeyCommunityId) then
      Ok(Some(SearchResult(l.city, l.state, StringOf(l.feature, KeyCommunityId))))
    else Err(FailedAssertion(KeyCommunityId))
  }

  /** `FindCityCounty`: the first location, in slice order, containing `p`,
      or `None` (Go's nil) when none does. A nil slice pointer panics. */
  function FindCityCounty(locs: Option<seq<Location>>, p: Point, planar: Planar): (r: Result<Option<SearchResult>, Fault>)
    ensures locs.None? ==> r == Err(NilGroup)
    ensures locs.Some? ==>
      (r == Ok(None) <==> forall i :: 0 <= i < |locs.value| ==> !Hits(planar, locs.value[i], p))
    ensures locs.Some? ==> forall i ::
      (0 <= i < |locs.value| && Hits(planar, locs.value[i], p)
       && forall j :: 0 <= j < i ==> !Hits(planar, locs.value[j], p)) ==>
      r == Report(locs.value[i])
  {
    match locs
    case None => Err(NilGroup)
    case Some(ls) =>
      match First(ls, (l: Location) => Hits(planar, l, p))
      case None => Ok(None)
      case Some(i) => Report(ls[i])
  }
}

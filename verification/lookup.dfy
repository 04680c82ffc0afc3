/** The two-tier lookup as the converter's callers compose it: build the
    index with `MapLocations`, order it with `SortBySize`, find the state
    with `FindState`, then scan that state's group with `FindCityCounty`. */
module Lookup {
  import opened Wrappers
  import opened Orb
  import opened Properties
  import opened Locations
  import opened Ordering
  import opened Search

  /** After ordering, the location the scan stops at has at least as many
      house units as every location of the original group containing the
      point. */
  lemma LargestContainingWins(index: Index, k: string, p: Point, planar: Planar, i: nat)
    requires k in index
    requires var g := SortBySize(index)[k];
      i < |g| && Hits(planar, g[i], p) && forall j :: 0 <= j < i ==> !Hits(planar, g[j], p)
    ensures forall l :: l in index[k] && Hits(planar, l, p) ==> SortBySize(index)[k][i].houseUnits >= l.houseUnits
  {
    var g := SortBySize(index)[k];
    assert NonIncreasing(g) && multiset(g) == multiset(index[k]);
    forall l | l in index[k] && Hits(planar, l, p)
      ensures g[i].houseUnits >= l.houseUnits
    {
      assert l in multiset(index[k]);
      assert l in g;
      var j :| 0 <= j < |g| && g[j] == l;
    }
  }

  /** A kept feature's location is stored under its own state. */
  lemma {:induction false} KeptInIndex(fc: seq<Feature>, tables: Tables, w: Weighting, index: Index, i: nat)
    requires MapLocations(fc, tables, w) == Ok(index)
    requires i < |fc| && Normalize(fc[i], tables, w).Keep?
    ensures var l := Normalize(fc[i], tables, w).location;
      l.state in index && l in index[l.state]
  {
    var l := Normalize(fc[i], tables, w).location;
    var kept := Kept(fc, tables, w);
    KeptIncludes(fc, tables, w, i);
    GroupContents(kept);
    assert index == Group(kept);
    assert multiset(index[l.state])[l] == multiset(kept)[l];
  }

  /** Ordering keeps every location in its group. */
  lemma InSortedGroup(index: Index, k: string, l: Location)
    requires k in index && l in index[k]
    ensures k in SortBySize(index) && l in SortBySize(index)[k]
  {
    var g := SortBySize(index)[k];
    assert multiset(g) == multiset(index[k]);
    assert l in multiset(index[k]);
  }

  /** A scan over a group holding a containing location finds something. */
  lemma MemberIsFound(g: seq<Location>, l: Location, p: Point, planar: Planar)
    requires l in g && Hits(planar, l, p)
    ensures FindCityCounty(Some(g), p, planar) != Ok(None)
  {
    var j :| 0 <= j < |g| && g[j] == l;
    assert Hits(planar, g[j], p);
  }

  /** A point inside a kept region is never reported as "no region" when
      its state's ordered group is searched: the scan finds some region. */
  lemma ContainedPointIsFound(fc: seq<Feature>, tables: Tables, w: Weighting, index: Index, p: Point, planar: Planar, i: nat)
    requires MapLocations(fc, tables, w) == Ok(index)
    requires i < |fc| && Normalize(fc[i], tables, w).Keep?
    requires Contains(planar, fc[i].geometry, p)
    ensures var l := Normalize(fc[i], tables, w).location;
      && l.state in SortBySize(index)
      && FindCityCounty(Some(SortBySize(index)[l.state]), p, planar) != Ok(None)
  {
    var l := Normalize(fc[i], tables, w).location;
    KeptInIndex(fc, tables, w, index, i);
    InSortedGroup(index, l.state, l);
    HitsIsContains(planar, l, p);
    MemberIsFound(SortBySize(index)[l.state], l, p, planar);
  }

  /** An abbreviation missing from the table is not a reason to skip: the
      city is grouped under the empty state name. */
  lemma UnknownAbbreviationGroupedUnderEmpty(fc: seq<Feature>, tables: Tables, w: Weighting, index: Index, i: nat)
    requires MapLocations(fc, tables, w) == Ok(index)
    requires i < |fc| && IsString(fc[i], KeyAbbrev) && StringOf(fc[i], KeyAbbrev) !in tables.fromAbbrev
    ensures Normalize(fc[i], tables, w).Keep?
    ensures "" in index && Normalize(fc[i], tables, w).location in index[""]
  {
    assert !Normalize(fc[i], tables, w).Abort?;
    KeptInIndex(fc, tables, w, index, i);
  }

  /** Go's read of a `map[string]*[]Location`: a missing state gives nil. */
  function GroupFor(index: Index, s: string): Option<seq<Location>> {
    if s in index then Some(index[s]) else None
  }

  /** The benchmarks' lookup: find the state, read its ordered group and
      scan it. A state name with no group makes the scan panic on nil; a
      state that holds a kept region containing the point never yields
      nil. */
  lemma StateThenRegion(states: seq<Feature>, fc: seq<Feature>, tables: Tables, w: Weighting,
                        index: Index, p: Point, planar: Planar, s: string, i: nat)
    requires MapLocations(fc, tables, w) == Ok(index)
    requires FindState(states, p, planar) == Ok(s)
    ensures s !in index ==> FindCityCounty(GroupFor(SortBySize(index), s), p, planar) == Err(NilGroup)
    ensures (i < |fc| && Normalize(fc[i], tables, w).Keep? && Contains(planar, fc[i].geometry, p)
             && Normalize(fc[i], tables, w).location.state == s) ==>
      FindCityCounty(GroupFor(SortBySize(index), s), p, planar) != Ok(None)
  {
    if i < |fc| && Normalize(fc[i], tables, w).Keep? && Contains(planar, fc[i].geometry, p)
      && Normalize(fc[i], tables, w).location.state == s
    {
      ContainedPointIsFound(fc, tables, w, index, p, planar, i);
    }
  }
}

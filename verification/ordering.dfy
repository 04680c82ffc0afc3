/** `SortBySize`: each state's locations are reordered, largest house-unit
    count first. Go's `sort.Slice` is not stable, so nothing is promised
    about the relative order of locations with equal counts. */
module Ordering {
  import opened Locations

  predicate NonIncreasing(s: seq<Location>) {
    forall i, j :: 0 <= i < j < |s| ==> s[i].houseUnits >= s[j].houseUnits
  }

  /** Places `l` before the first location of `s` with a count no larger. */
  function Insert(l: Location, s: seq<Location>): (r: seq<Location>)
    requires NonIncreasing(s)
    ensures multiset(r) == multiset(s) + multiset{l}
    ensures NonIncreasing(r)
  {
    if |s| == 0 then [l]
    else if l.houseUnits >= s[0].houseUnits then [l] + s
    else
      var rest := Insert(l, s[1..]);
      assert forall j :: 0 <= j < |rest| ==> s[0].houseUnits >= rest[j].houseUnits by {
        forall j | 0 <= j < |rest| ensures s[0].houseUnits >= rest[j].houseUnits {
          assert rest[j] in multiset(rest);
          if rest[j] != l {
            assert rest[j] in multiset(s[1..]);
            var k :| 0 <= k < |s[1..]| && s[1..][k] == rest[j];
            assert s[k + 1] == rest[j];
          }
        }
      }
      assert s == [s[0]] + s[1..];
      [s[0]] + rest
  }

  /** One state's group in the order the search visits it. */
  function SortByUnits(s: seq<Location>): (r: seq<Location>)
    ensures multiset(r) == multiset(s)
    ensures NonIncreasing(r)
  {
    if |s| == 0 then []
    else
      assert s == [s[0]] + s[1..];
      Insert(s[0], SortByUnits(s[1..]))
  }

  /** `SortBySize`: the same states, each group a permutation of the
      original sorted by decreasing house units. The Go error result is
      always nil and is not modelled. */
  function SortBySize(index: Index): (r: Index)
    ensures r.Keys == index.Keys
    ensures forall k :: k in r ==> multiset(r[k]) == multiset(index[k]) && NonIncreasing(r[k])
  {
    map k | k in index :: SortByUnits(index[k])
  }
}

/** The region grouping of `useLocationsByRegion` in src/hooks/use-locations.ts. */
module Locations {
  import opened Common

  /** A row of the `locations` table (the query already keeps active rows only and
      orders them by `display_order`). */
  datatype Location = Location(
    id: int,
    name: string,
    address: string,
    city: string,
    postalCode: Option<string>,
    region: Option<string>,
    displayOrder: int,
    isActive: bool)

  /** `location.region || location.city`. */
  function RegionKey(l: Location): (k: string)
    ensures StrTruthy(l.region) ==> k == l.region.value
    ensures !StrTruthy(l.region) ==> k == l.city
  {
    OrElse(l.region, l.city)
  }

  /** One step of the reduce: append the location to its group, creating the group when missing. */
  function Add(acc: map<string, seq<Location>>, l: Location): map<string, seq<Location>>
  {
    var k := RegionKey(l);
    if k in acc then acc[k := acc[k] + [l]] else acc[k := [l]]
  }

  /** The reduce over the rows, from the empty record. */
  function Grouped(ls: seq<Location>): map<string, seq<Location>>
  {
    if ls == [] then map[] else Add(Grouped(ls[..|ls| - 1]), ls[|ls| - 1])
  }

  /** The rows with key `k`, in input order. */
  function Filter(ls: seq<Location>, k: string): (r: seq<Location>)
    ensures |r| <= |ls|
    ensures forall l | l in r :: l in ls && RegionKey(l) == k
  {
    if ls == [] then []
    else
      var rest := Filter(ls[..|ls| - 1], k);
      if RegionKey(ls[|ls| - 1]) == k then rest + [ls[|ls| - 1]] else rest
  }

  /** Filtering a concatenation filters each part and keeps their order. */
  lemma {:induction false} FilterAppend(a: seq<Location>, b: seq<Location>, k: string)
    ensures Filter(a + b, k) == Filter(a, k) + Filter(b, k)
    decreases |b|
  {
    if b == [] {
      assert a + b == a;
    } else {
      var b' := b[..|b| - 1];
      assert (a + b)[..|a + b| - 1] == a + b';
      assert (a + b)[|a + b| - 1] == b[|b| - 1];
      FilterAppend(a, b', k);
    }
  }

  /** There is a row with key `k`. */
  predicate HasKey(ls: seq<Location>, k: string)
  {
    exists i | 0 <= i < |ls| :: RegionKey(ls[i]) == k
  }

  /** The groups are exactly the keys that occur, and each holds exactly the rows with
      that key, in input order. */
  lemma {:induction false} GroupedIsFilter(ls: seq<Location>)
    ensures forall k :: k in Grouped(ls) <==> HasKey(ls, k)
    ensures forall k | k in Grouped(ls) :: Grouped(ls)[k] == Filter(ls, k)
    decreases |ls|
  {
    if ls != [] {
      var init, l := ls[..|ls| - 1], ls[|ls| - 1];
      GroupedIsFilter(init);
      forall k ensures k in Grouped(ls) <==> HasKey(ls, k) {
        if HasKey(init, k) {
          var i :| 0 <= i < |init| && RegionKey(init[i]) == k;
          assert ls[i] == init[i];
        }
        if HasKey(ls, k) && RegionKey(l) != k {
          var i :| 0 <= i < |ls| && RegionKey(ls[i]) == k;
          assert i < |init| && init[i] == ls[i];
        }
      }
      forall k | k in Grouped(ls) ensures Grouped(ls)[k] == Filter(ls, k) {
        if k !in Grouped(init) {
          FilterAbsent(init, k);
        }
      }
    }
  }

  /** The filtered rows of a key that does not occur are none. */
  lemma {:induction false} FilterAbsent(ls: seq<Location>, k: string)
    requires !HasKey(ls, k)
    ensures Filter(ls, k) == []
    decreases |ls|
  {
    if ls != [] {
      var init := ls[..|ls| - 1];
      assert !HasKey(init, k) by {
        forall i | 0 <= i < |init| ensures RegionKey(init[i]) != k {
          assert init[i] == ls[i];
        }
      }
      FilterAbsent(init, k);
    }
  }

  /** A key that occurs has a non-empty group. */
  lemma {:induction false} FilterPresent(ls: seq<Location>, k: string)
    requires HasKey(ls, k)
    ensures Filter(ls, k) != []
    decreases |ls|
  {
    var init, l := ls[..|ls| - 1], ls[|ls| - 1];
    if RegionKey(l) != k {
      var i :| 0 <= i < |ls| && RegionKey(ls[i]) == k;
      assert i < |init| && init[i] == ls[i];
      FilterPresent(init, k);
    }
  }

  /** No group is empty, and every row sits in the group of its own key, so rows with
      equal keys share a group. */
  lemma EveryRowInItsGroup(ls: seq<Location>)
    ensures forall k | k in Grouped(ls) :: Grouped(ls)[k] != []
    ensures forall i | 0 <= i < |ls| :: RegionKey(ls[i]) in Grouped(ls) && ls[i] in Grouped(ls)[RegionKey(ls[i])]
  {
    GroupedIsFilter(ls);
    forall k | k in Grouped(ls) ensures Grouped(ls)[k] != [] {
      FilterPresent(ls, k);
    }
    forall i | 0 <= i < |ls| ensures RegionKey(ls[i]) in Grouped(ls) && ls[i] in Grouped(ls)[RegionKey(ls[i])] {
      assert HasKey(ls, RegionKey(ls[i]));
      FilterContains(ls, i);
    }
  }

  lemma {:induction false} FilterContains(ls: seq<Location>, i: int)
    requires 0 <= i < |ls|
    ensures ls[i] in Filter(ls, RegionKey(ls[i]))
    decreases |ls|
  {
    var init := ls[..|ls| - 1];
    if i < |ls| - 1 {
      assert init[i] == ls[i];
      FilterContains(init, i);
    }
  }

  // ---------------------------------------------------------------------------
  // Nothing lost: the group sizes add up to the number of rows
  // ---------------------------------------------------------------------------

  /** The keys in order of first appearance (the order groups are created in). */
  function KeyOrder(ls: seq<Location>): (ks: seq<string>)
    ensures forall k :: k in ks <==> HasKey(ls, k)
    ensures forall i, j | 0 <= i < j < |ks| :: ks[i] != ks[j]
  {
    if ls == [] then []
    else
      var init, l := ls[..|ls| - 1], ls[|ls| - 1];
      var ks0 := KeyOrder(init);
      assert forall k :: HasKey(ls, k) <==> HasKey(init, k) || RegionKey(l) == k by {
        forall k ensures HasKey(ls, k) <==> HasKey(init, k) || RegionKey(l) == k {
          if HasKey(init, k) {
            var i :| 0 <= i < |init| && RegionKey(init[i]) == k;
            assert ls[i] == init[i];
          }
          if HasKey(ls, k) && RegionKey(l) != k {
            var i :| 0 <= i < |ls| && RegionKey(ls[i]) == k;
            assert i < |init| && init[i] == ls[i];
          }
        }
      }
      if RegionKey(l) in ks0 then ks0 else ks0 + [RegionKey(l)]
  }

  /** The total size of the groups named by `ks`. */
  function SumSizes(ls: seq<Location>, ks: seq<string>): nat
  {
    if ks == [] then 0 else SumSizes(ls, ks[..|ks| - 1]) + |Filter(ls, ks[|ks| - 1])|
  }

  /** Appending a row adds one to exactly the group of its key. */
  lemma {:induction false} SumSizesSnoc(ls: seq<Location>, l: Location, ks: seq<string>)
    requires forall i, j | 0 <= i < j < |ks| :: ks[i] != ks[j]
    ensures SumSizes(ls + [l], ks) == SumSizes(ls, ks) + (if RegionKey(l) in ks then 1 else 0)
    decreases |ks|
  {
    if ks != [] {
      var init, k := ks[..|ks| - 1], ks[|ks| - 1];
      assert (ls + [l])[..|ls + [l]| - 1] == ls;
      SumSizesSnoc(ls, l, init);
      assert RegionKey(l) in ks <==> RegionKey(l) in init || RegionKey(l) == k;
      assert RegionKey(l) == k ==> RegionKey(l) !in init;
    }
  }

  /** Every row lands in exactly one group: the group sizes add up to the row count. */
  lemma {:induction false} CountPreserved(ls: seq<Location>)
    ensures SumSizes(ls, KeyOrder(ls)) == |ls|
    decreases |ls|
  {
    if ls != [] {
      var init, l := ls[..|ls| - 1], ls[|ls| - 1];
      assert ls == init + [l];
      CountPreserved(init);
      var ks0 := KeyOrder(init);
      SumSizesSnoc(init, l, ks0);
      if RegionKey(l) !in ks0 {
        FilterAbsent(init, RegionKey(l));
        assert (ks0 + [RegionKey(l)])[..|ks0|] == ks0;
      }
    }
  }

  /** The keys of the result are exactly the keys in `KeyOrder`. */
  lemma GroupKeysAreKeyOrder(ls: seq<Location>)
    ensures forall k :: k in Grouped(ls) <==> k in KeyOrder(ls)
  {
    GroupedIsFilter(ls);
  }

  /** `useLocationsByRegion`'s reduce, as the loop that fills the record. */
  method GroupByRegion(data: seq<Location>) returns (grouped: map<string, seq<Location>>)
    ensures grouped == Grouped(data)
  {
    grouped := map[];
    for i := 0 to |data|
      invariant grouped == Grouped(data[..i])
    {
      var region := RegionKey(data[i]);
      ghost var before := grouped;
      if region !in grouped {
        grouped := grouped[region := []];
      }
      grouped := grouped[region := grouped[region] + [data[i]]];
      assert data[..i + 1][..i] == data[..i];
      assert Grouped(data[..i + 1]) == Add(Grouped(data[..i]), data[i]);
      assert region !in before ==> [] + [data[i]] == [data[i]];
      assert grouped == Add(before, data[i]);
    }
    assert data[..|data|] == data;
  }
}

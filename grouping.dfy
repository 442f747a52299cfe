/**
 * The `GROUP BY ... SUM(...)` of the usage reports, stated once for any
 * grouping key: each input entry carries a key and the two usage counters,
 * and each output entry is one group with the counters summed.
 */
module Grouping {

  datatype Entry<K> = Entry(key: K, washer: int, dryer: int)

  /** Reference definition: the washing-machine uses of the entries with key `k`. */
  function WasherOf<K(==,!new)>(es: seq<Entry<K>>, k: K): int
  {
    if es == [] then 0
    else (if es[0].key == k then es[0].washer else 0) + WasherOf(es[1..], k)
  }

  /** Reference definition: the dryer uses of the entries with key `k`. */
  function DryerOf<K(==,!new)>(es: seq<Entry<K>>, k: K): int
  {
    if es == [] then 0
    else (if es[0].key == k then es[0].dryer else 0) + DryerOf(es[1..], k)
  }

  function TotalWasher<K>(es: seq<Entry<K>>): int
  {
    if es == [] then 0 else es[0].washer + TotalWasher(es[1..])
  }

  function TotalDryer<K>(es: seq<Entry<K>>): int
  {
    if es == [] then 0 else es[0].dryer + TotalDryer(es[1..])
  }

  /** The keys that occur in `es`. */
  function KeysOf<K(!new)>(es: seq<Entry<K>>): (ks: set<K>)
    ensures forall k :: k in ks <==> exists i :: 0 <= i < |es| && es[i].key == k
  {
    if es == [] then {}
    else
      var rest := KeysOf(es[1..]);
      assert forall i :: 1 <= i < |es| ==> es[i] == es[1..][i - 1];
      {es[0].key} + rest
  }

  /** No key occurs twice. */
  predicate DistinctKeys<K(==,!new)>(gs: seq<Entry<K>>)
  {
    forall i, j :: 0 <= i < j < |gs| ==> gs[i].key != gs[j].key
  }

  /** Adds one entry to a list of groups: into its key's group, or as a new group at the end. */
  function Add<K(==,!new)>(gs: seq<Entry<K>>, e: Entry<K>): (r: seq<Entry<K>>)
    ensures |r| <= |gs| + 1
  {
    if gs == [] then [e]
    else if gs[0].key == e.key then [Entry(e.key, gs[0].washer + e.washer, gs[0].dryer + e.dryer)] + gs[1..]
    else [gs[0]] + Add(gs[1..], e)
  }

  /** The sums over a list that starts with `x`. */
  lemma SumsOfCons<K(!new)>(x: Entry<K>, rest: seq<Entry<K>>, k: K)
    ensures WasherOf([x] + rest, k) == (if x.key == k then x.washer else 0) + WasherOf(rest, k)
    ensures DryerOf([x] + rest, k) == (if x.key == k then x.dryer else 0) + DryerOf(rest, k)
    ensures TotalWasher([x] + rest) == x.washer + TotalWasher(rest)
    ensures TotalDryer([x] + rest) == x.dryer + TotalDryer(rest)
    ensures KeysOf([x] + rest) == {x.key} + KeysOf(rest)
  {
    assert ([x] + rest)[1..] == rest;
  }

  /** Adding an entry adds its key to the keys. */
  lemma {:induction false} AddKeys<K(!new)>(gs: seq<Entry<K>>, e: Entry<K>)
    ensures KeysOf(Add(gs, e)) == KeysOf(gs) + {e.key}
  {
    if gs != [] {
      SumsOfCons(gs[0], gs[1..], e.key);
      assert gs == [gs[0]] + gs[1..];
      if gs[0].key == e.key {
        SumsOfCons(Entry(e.key, gs[0].washer + e.washer, gs[0].dryer + e.dryer), gs[1..], e.key);
      } else {
        AddKeys(gs[1..], e);
        SumsOfCons(gs[0], Add(gs[1..], e), e.key);
      }
    }
  }

  /** Dropping the first group keeps the rest distinct, and the first key is not among them. */
  lemma DistinctTail<K(!new)>(gs: seq<Entry<K>>)
    requires DistinctKeys(gs) && gs != []
    ensures DistinctKeys(gs[1..])
    ensures gs[0].key !in KeysOf(gs[1..])
  {
    forall a, b | 0 <= a < b < |gs| - 1 ensures gs[1..][a].key != gs[1..][b].key {
      assert gs[1..][a] == gs[a + 1] && gs[1..][b] == gs[b + 1];
    }
  }

  /** A group whose key is new can be put in front of distinct groups. */
  lemma DistinctCons<K(!new)>(x: Entry<K>, rest: seq<Entry<K>>)
    requires DistinctKeys(rest) && x.key !in KeysOf(rest)
    ensures DistinctKeys([x] + rest)
  {
    forall a, b | 0 <= a < b < |[x] + rest| ensures ([x] + rest)[a].key != ([x] + rest)[b].key {
      assert ([x] + rest)[b] == rest[b - 1];
      if a > 0 {
        assert ([x] + rest)[a] == rest[a - 1];
      }
    }
  }

  /** Adding an entry keeps the keys distinct. */
  lemma {:induction false} AddDistinct<K(!new)>(gs: seq<Entry<K>>, e: Entry<K>)
    requires DistinctKeys(gs)
    ensures DistinctKeys(Add(gs, e))
  {
    if gs != [] {
      DistinctTail(gs);
      if gs[0].key == e.key {
        DistinctCons(Entry(e.key, gs[0].washer + e.washer, gs[0].dryer + e.dryer), gs[1..]);
      } else {
        AddDistinct(gs[1..], e);
        AddKeys(gs[1..], e);
        DistinctCons(gs[0], Add(gs[1..], e));
      }
    }
  }

  /** Adding an entry adds its counters to its own key's sums and nowhere else. */
  lemma {:induction false} AddSums<K(!new)>(gs: seq<Entry<K>>, e: Entry<K>, k: K)
    ensures WasherOf(Add(gs, e), k) == WasherOf(gs, k) + (if k == e.key then e.washer else 0)
    ensures DryerOf(Add(gs, e), k) == DryerOf(gs, k) + (if k == e.key then e.dryer else 0)
    ensures TotalWasher(Add(gs, e)) == TotalWasher(gs) + e.washer
    ensures TotalDryer(Add(gs, e)) == TotalDryer(gs) + e.dryer
  {
    if gs == [] {
      SumsOfCons(e, [], k);
    } else if gs[0].key == e.key {
      SumsOfCons(Entry(e.key, gs[0].washer + e.washer, gs[0].dryer + e.dryer), gs[1..], k);
      SumsOfCons(gs[0], gs[1..], k);
      assert gs == [gs[0]] + gs[1..];
    } else {
      AddSums(gs[1..], e, k);
      SumsOfCons(gs[0], Add(gs[1..], e), k);
      SumsOfCons(gs[0], gs[1..], k);
      assert gs == [gs[0]] + gs[1..];
    }
  }

  /**
   * Groups the entries by key: one group per key that occurs, holding the
   * sums of that key's counters.
   */
  function GroupBy<K(==,!new)>(es: seq<Entry<K>>): (gs: seq<Entry<K>>)
    ensures |gs| <= |es|
    ensures gs == [] <==> es == []
    ensures DistinctKeys(gs)
    ensures KeysOf(gs) == KeysOf(es)
    ensures forall k :: WasherOf(gs, k) == WasherOf(es, k) && DryerOf(gs, k) == DryerOf(es, k)
  {
    if es == [] then []
    else
      var rest := GroupBy(es[1..]);
      AddKeys(rest, es[0]);
      AddDistinct(rest, es[0]);
      SumsOfCons(es[0], es[1..], es[0].key);
      assert es == [es[0]] + es[1..];
      assert forall k :: WasherOf(Add(rest, es[0]), k) == WasherOf(es, k) && DryerOf(Add(rest, es[0]), k) == DryerOf(es, k) by {
        forall k ensures WasherOf(Add(rest, es[0]), k) == WasherOf(es, k) && DryerOf(Add(rest, es[0]), k) == DryerOf(es, k) {
          AddSums(rest, es[0], k);
          SumsOfCons(es[0], es[1..], k);
        }
      }
      Add(rest, es[0])
  }

  /** In a list with distinct keys, a group's counters are the sums for its key. */
  lemma {:induction false} GroupHoldsItsSums<K(!new)>(gs: seq<Entry<K>>, i: int)
    requires DistinctKeys(gs) && 0 <= i < |gs|
    ensures WasherOf(gs, gs[i].key) == gs[i].washer
    ensures DryerOf(gs, gs[i].key) == gs[i].dryer
  {
    var k := gs[i].key;
    if i == 0 {
      NoOtherGroup(gs[1..], k);
    } else {
      DistinctTail(gs);
      assert gs[1..][i - 1] == gs[i];
      GroupHoldsItsSums(gs[1..], i - 1);
    }
  }

  /** A key that occurs nowhere sums to zero. */
  lemma {:induction false} NoOtherGroup<K(!new)>(es: seq<Entry<K>>, k: K)
    requires forall j :: 0 <= j < |es| ==> es[j].key != k
    ensures WasherOf(es, k) == 0 && DryerOf(es, k) == 0
  {
    if es != [] {
      assert forall j :: 0 <= j < |es| - 1 ==> es[1..][j] == es[j + 1];
      NoOtherGroup(es[1..], k);
    }
  }

  /** Every group of the result carries exactly the sums of the input entries with its key. */
  lemma GroupByRecords<K(!new)>(es: seq<Entry<K>>)
    ensures forall i :: 0 <= i < |GroupBy(es)| ==>
      GroupBy(es)[i].washer == WasherOf(es, GroupBy(es)[i].key) &&
      GroupBy(es)[i].dryer == DryerOf(es, GroupBy(es)[i].key)
  {
    var gs := GroupBy(es);
    forall i | 0 <= i < |gs|
      ensures gs[i].washer == WasherOf(es, gs[i].key) && gs[i].dryer == DryerOf(es, gs[i].key)
    {
      GroupHoldsItsSums(gs, i);
    }
  }

  /** Grouping neither creates nor loses usage: the groups' totals are the entries' totals. */
  lemma {:induction false} GroupByConservesTotals<K(!new)>(es: seq<Entry<K>>)
    ensures TotalWasher(GroupBy(es)) == TotalWasher(es)
    ensures TotalDryer(GroupBy(es)) == TotalDryer(es)
  {
    if es != [] {
      GroupByConservesTotals(es[1..]);
      AddSums(GroupBy(es[1..]), es[0], es[0].key);
      SumsOfCons(es[0], es[1..], es[0].key);
      assert es == [es[0]] + es[1..];
    }
  }
}

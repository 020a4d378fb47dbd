// Python's Counter as the code uses it: keys in insertion order with positive counts. A counter
// of a list has the list's distinct keys in order of first occurrence, each with its multiplicity;
// adding entries up over the keys with a property counts the items that have it, and the most
// common key is the earliest among those of the largest count.
module Counters {
  import opened Sequences

  datatype Counter<K> = Counter(order: seq<K>, counts: map<K, nat>)

  function Empty<K>(): Counter<K> {
    Counter([], map[])
  }

  function Bump<K>(c: Counter<K>, k: K): Counter<K> {
    if k in c.counts then Counter(c.order, c.counts[k := c.counts[k] + 1])
    else Counter(c.order + [k], c.counts[k := 1])
  }

  // c is the counter of items.
  ghost predicate CounterOf<K(!new)>(c: Counter<K>, items: seq<K>) {
    && c.order == Distinct(items)
    && (forall k :: k in c.counts <==> k in items)
    && forall k :: k in c.counts ==> c.counts[k] == multiset(items)[k]
  }

  // Counting a list from scratch.
  function Tally<K>(items: seq<K>): Counter<K> {
    if items == [] then Empty() else Bump(Tally(items[..|items| - 1]), items[|items| - 1])
  }

  lemma TallyStep<K>(items: seq<K>, k: K)
    ensures Tally(items + [k]) == Bump(Tally(items), k)
  {
    assert (items + [k])[..|items|] == items;
  }

  lemma {:induction false} TallyCounts<K(!new)>(items: seq<K>)
    ensures CounterOf(Tally(items), items)
    ensures NoDuplicates(Tally(items).order)
    ensures forall k :: k in Tally(items).order <==> k in items
  {
    if items != [] {
      var init, last := items[..|items| - 1], items[|items| - 1];
      TallyCounts(init);
      assert items == init + [last];
      assert Distinct(init) + [] == Distinct(init);
    }
  }

  // The counts of the keys that satisfy p, added up.
  function Weight<K>(p: K -> bool, order: seq<K>, counts: map<K, nat>): nat
    requires forall k :: k in order ==> k in counts
  {
    if order == [] then 0 else
    Weight(p, order[..|order| - 1], counts) + if p(order[|order| - 1]) then counts[order[|order| - 1]] else 0
  }

  lemma WeightStep<K>(p: K -> bool, order: seq<K>, counts: map<K, nat>, i: nat)
    requires i < |order| && forall k :: k in order ==> k in counts
    ensures Weight(p, order[..i + 1], counts) == Weight(p, order[..i], counts) + if p(order[i]) then counts[order[i]] else 0
  {
    assert order[..i + 1][..i] == order[..i];
  }

  lemma {:induction false} WeightUpdate<K(!new)>(p: K -> bool, order: seq<K>, counts: map<K, nat>, k: K)
    requires forall j :: j in order ==> j in counts
    requires NoDuplicates(order) && k in counts
    ensures Weight(p, order, counts[k := counts[k] + 1]) ==
            Weight(p, order, counts) + if k in order && p(k) then 1 else 0
  {
    if order != [] {
      WeightUpdate(p, order[..|order| - 1], counts, k);
      assert order == order[..|order| - 1] + [order[|order| - 1]];
    }
  }

  lemma {:induction false} WeightExtend<K(!new)>(p: K -> bool, order: seq<K>, counts: map<K, nat>, k: K, n: nat)
    requires forall j :: j in order ==> j in counts
    requires k !in order
    ensures Weight(p, order, counts[k := n]) == Weight(p, order, counts)
  {
    if order != [] {
      WeightExtend(p, order[..|order| - 1], counts, k, n);
    }
  }

  lemma BumpWeight<K(!new)>(p: K -> bool, c: Counter<K>, k: K)
    requires NoDuplicates(c.order) && forall j :: j in c.order <==> j in c.counts
    ensures forall j :: j in Bump(c, k).order ==> j in Bump(c, k).counts
    ensures Weight(p, Bump(c, k).order, Bump(c, k).counts) == Weight(p, c.order, c.counts) + if p(k) then 1 else 0
  {
    if k in c.counts {
      WeightUpdate(p, c.order, c.counts, k);
    } else {
      WeightExtend(p, c.order, c.counts, k, 1);
      assert (c.order + [k])[..|c.order|] == c.order;
    }
  }

  // Adding up a counter over the keys with a property counts the items with it.
  lemma {:induction false} WeightIsCount<K(!new)>(p: K -> bool, items: seq<K>)
    ensures forall k :: k in Tally(items).order ==> k in Tally(items).counts
    ensures Weight(p, Tally(items).order, Tally(items).counts) == Count(p, items)
  {
    TallyCounts(items);
    if items != [] {
      var init, last := items[..|items| - 1], items[|items| - 1];
      WeightIsCount(p, init);
      TallyCounts(init);
      BumpWeight(p, Tally(init), last);
    }
  }

  // most_common(1): a key of greatest count, the earliest inserted among equals.
  ghost predicate Dominant<K(!new)>(items: seq<K>, k: K) {
    && k in items
    && (forall j :: j in items ==> multiset(items)[j] <= multiset(items)[k])
    && exists at :: 0 <= at < |Distinct(items)| && Distinct(items)[at] == k
        && forall i :: 0 <= i < at ==> multiset(items)[Distinct(items)[i]] < multiset(items)[k]
  }

  lemma FirstLargestIsDominant<K(!new)>(items: seq<K>, at: nat)
    requires at < |Distinct(items)|
    requires forall j :: 0 <= j < |Distinct(items)| ==>
      multiset(items)[Distinct(items)[j]] <= multiset(items)[Distinct(items)[at]]
    requires forall j :: 0 <= j < at ==>
      multiset(items)[Distinct(items)[j]] < multiset(items)[Distinct(items)[at]]
    ensures Dominant(items, Distinct(items)[at])
  {
    DistinctMembers(items);
    forall j | j in items ensures multiset(items)[j] <= multiset(items)[Distinct(items)[at]] {
      assert j in Distinct(items);
    }
  }

  // The position of the first key of greatest count.
  ghost predicate FirstLargest<K(!new)>(order: seq<K>, counts: map<K, nat>, at: nat)
    requires forall k :: k in order ==> k in counts
  {
    && at < |order|
    && (forall j :: 0 <= j < |order| ==> counts[order[j]] <= counts[order[at]])
    && (forall j :: 0 <= j < at ==> counts[order[j]] < counts[order[at]])
  }

  method FindFirstLargest<K(!new)>(order: seq<K>, counts: map<K, nat>) returns (at: nat)
    requires order != [] && forall k :: k in order ==> k in counts
    ensures FirstLargest(order, counts, at)
  {
    at := 0;
    for i := 1 to |order|
      invariant at < i <= |order|
      invariant forall j :: 0 <= j < i ==> counts[order[j]] <= counts[order[at]]
      invariant forall j :: 0 <= j < at ==> counts[order[j]] < counts[order[at]]
    {
      if counts[order[i]] > counts[order[at]] {
        at := i;
      }
    }
  }

  lemma FirstLargestOfTally<K(!new)>(items: seq<K>, c: Counter<K>, at: nat)
    requires CounterOf(c, items) && forall k :: k in c.order ==> k in c.counts
    requires FirstLargest(c.order, c.counts, at)
    ensures Dominant(items, c.order[at]) && c.counts[c.order[at]] == multiset(items)[c.order[at]]
  {
    FirstLargestIsDominant(items, at);
  }

  method MostCommon<K(!new)>(c: Counter<K>, ghost items: seq<K>) returns (top: K, count: nat)
    requires c == Tally(items) && items != []
    ensures Dominant(items, top) && count == multiset(items)[top]
  {
    TallyCounts(items);
    assert items[0] in c.order;
    var at := FindFirstLargest(c.order, c.counts);
    FirstLargestOfTally(items, c, at);
    top, count := c.order[at], c.counts[c.order[at]];
  }

  lemma SoleItemIsDominant<K(!new)>(k: K)
    ensures Dominant([k], k) && multiset([k])[k] == 1
  {
    assert [k][..0] == [];
    assert Distinct([k]) == [k];
    FirstLargestIsDominant([k], 0);
  }

  lemma DominantUnique<K(!new)>(items: seq<K>, k: K, j: K)
    requires Dominant(items, k) && Dominant(items, j)
    ensures k == j
  {
    var a :| 0 <= a < |Distinct(items)| && Distinct(items)[a] == k
        && forall i :: 0 <= i < a ==> multiset(items)[Distinct(items)[i]] < multiset(items)[k];
    var b :| 0 <= b < |Distinct(items)| && Distinct(items)[b] == j
        && forall i :: 0 <= i < b ==> multiset(items)[Distinct(items)[i]] < multiset(items)[j];
    assert multiset(items)[k] == multiset(items)[j];
  }

  lemma {:induction false} MultiplicityAtMostCount<K(!new)>(p: K -> bool, items: seq<K>, k: K)
    requires p(k)
    ensures multiset(items)[k] <= Count(p, items)
  {
    if items != [] {
      MultiplicityAtMostCount(p, items[..|items| - 1], k);
      assert items == items[..|items| - 1] + [items[|items| - 1]];
    }
  }
}

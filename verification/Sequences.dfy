// Folds over sequences, read left to right, and the stable sort the code takes from its runtime.
// Recursion peels the last element, so that a loop's invariant is one unfolding. Everything here
// is generic: the modules of the pipeline pass in what they filter by, count, add up or sort on.
// The stable sort is characterised by its result: sorted, with ties in their old order, which
// leaves exactly one arrangement.
module Sequences {

  function Filter<T>(p: T -> bool, s: seq<T>): seq<T> {
    if s == [] then [] else
    Filter(p, s[..|s| - 1]) + if p(s[|s| - 1]) then [s[|s| - 1]] else []
  }

  function Count<T>(p: T -> bool, s: seq<T>): nat {
    if s == [] then 0 else
    Count(p, s[..|s| - 1]) + if p(s[|s| - 1]) then 1 else 0
  }

  function Sum<T>(f: T -> real, s: seq<T>): real {
    if s == [] then 0.0 else Sum(f, s[..|s| - 1]) + f(s[|s| - 1])
  }

  function Total<T>(f: T -> nat, s: seq<T>): nat {
    if s == [] then 0 else Total(f, s[..|s| - 1]) + f(s[|s| - 1])
  }

  function Flatten<T>(ss: seq<seq<T>>): seq<T> {
    if ss == [] then [] else Flatten(ss[..|ss| - 1]) + ss[|ss| - 1]
  }

  // First occurrences, in order.
  function Distinct<T(==)>(s: seq<T>): seq<T> {
    if s == [] then [] else
    Distinct(s[..|s| - 1]) + if s[|s| - 1] in s[..|s| - 1] then [] else [s[|s| - 1]]
  }

  function Map<A, B>(f: A -> B, s: seq<A>): (r: seq<B>)
    ensures |r| == |s| && forall i :: 0 <= i < |s| ==> r[i] == f(s[i])
  {
    seq(|s|, i requires 0 <= i < |s| => f(s[i]))
  }

  ghost predicate NoDuplicates<T>(s: seq<T>) {
    forall i, j :: 0 <= i < j < |s| ==> s[i] != s[j]
  }

  lemma {:induction false} FilterConcat<T>(p: T -> bool, a: seq<T>, b: seq<T>)
    ensures Filter(p, a + b) == Filter(p, a) + Filter(p, b)
  {
    if b == [] {
      assert a + b == a;
    } else {
      assert (a + b)[..|a + b| - 1] == a + b[..|b| - 1];
      FilterConcat(p, a, b[..|b| - 1]);
    }
  }

  lemma FilterSingleton<T>(p: T -> bool, x: T)
    ensures Filter(p, [x]) == if p(x) then [x] else []
  {
    assert [x][..0] == [];
  }

  lemma FilterAppend<T>(p: T -> bool, s: seq<T>, x: T)
    ensures Filter(p, s + [x]) == Filter(p, s) + if p(x) then [x] else []
  {
    assert (s + [x])[..|s|] == s;
  }

  lemma FilterStep<T>(p: T -> bool, s: seq<T>, k: nat)
    requires k < |s|
    ensures Filter(p, s[..k + 1]) == Filter(p, s[..k]) + if p(s[k]) then [s[k]] else []
  {
    assert s[..k + 1][..k] == s[..k];
  }

  lemma {:induction false} FilterMember<T>(p: T -> bool, s: seq<T>, x: T)
    ensures x in Filter(p, s) <==> x in s && p(x)
  {
    if s != [] {
      FilterMember(p, s[..|s| - 1], x);
      assert s == s[..|s| - 1] + [s[|s| - 1]];
    }
  }

  lemma {:induction false} FilterAll<T>(p: T -> bool, s: seq<T>)
    requires forall i :: 0 <= i < |s| ==> p(s[i])
    ensures Filter(p, s) == s
  {
    if s != [] {
      FilterAll(p, s[..|s| - 1]);
    }
  }

  lemma {:induction false} FilterNone<T>(p: T -> bool, s: seq<T>)
    requires forall x :: x in s ==> !p(x)
    ensures Filter(p, s) == []
  {
    if s != [] {
      FilterNone(p, s[..|s| - 1]);
    }
  }

  lemma {:induction false} FilterSame<T>(p: T -> bool, q: T -> bool, s: seq<T>)
    requires forall x :: x in s ==> (p(x) <==> q(x))
    ensures Filter(p, s) == Filter(q, s)
  {
    if s != [] {
      FilterSame(p, q, s[..|s| - 1]);
    }
  }

  lemma {:induction false} FilterTwice<T>(p: T -> bool, q: T -> bool, both: T -> bool, s: seq<T>)
    requires forall x :: x in s ==> (both(x) <==> p(x) && q(x))
    ensures Filter(p, Filter(q, s)) == Filter(both, s)
  {
    if s != [] {
      var init, last := s[..|s| - 1], s[|s| - 1];
      FilterTwice(p, q, both, init);
      FilterAppend(p, Filter(q, init), last);
      assert both(last) <==> p(last) && q(last);
      assert Filter(q, init) + [] == Filter(q, init);
    }
  }

  lemma {:induction false} FilterMultiplicity<T>(p: T -> bool, s: seq<T>, x: T)
    ensures multiset(Filter(p, s))[x] == if p(x) then multiset(s)[x] else 0
  {
    if s != [] {
      FilterMultiplicity(p, s[..|s| - 1], x);
      assert s == s[..|s| - 1] + [s[|s| - 1]];
    }
  }

  lemma {:induction false} FilterCount<T>(p: T -> bool, s: seq<T>)
    ensures |Filter(p, s)| == Count(p, s) <= |s|
  {
    if s != [] {
      FilterCount(p, s[..|s| - 1]);
    }
  }

  lemma {:induction false} CountConcat<T>(p: T -> bool, a: seq<T>, b: seq<T>)
    ensures Count(p, a + b) == Count(p, a) + Count(p, b)
  {
    if b == [] {
      assert a + b == a;
    } else {
      assert (a + b)[..|a + b| - 1] == a + b[..|b| - 1];
      CountConcat(p, a, b[..|b| - 1]);
    }
  }

  lemma CountAppend<T>(p: T -> bool, s: seq<T>, x: T)
    ensures Count(p, s + [x]) == Count(p, s) + if p(x) then 1 else 0
  {
    assert (s + [x])[..|s|] == s;
  }

  lemma {:induction false} CountMonotone<T>(p: T -> bool, q: T -> bool, s: seq<T>)
    requires forall x :: x in s && p(x) ==> q(x)
    ensures Count(p, s) <= Count(q, s)
  {
    if s != [] {
      CountMonotone(p, q, s[..|s| - 1]);
    }
  }

  lemma {:induction false} CountPositive<T>(p: T -> bool, s: seq<T>, x: T)
    requires x in s && p(x)
    ensures Count(p, s) > 0
  {
    if x != s[|s| - 1] {
      assert x in s[..|s| - 1];
      CountPositive(p, s[..|s| - 1], x);
    }
  }

  lemma {:induction false} CountZero<T>(p: T -> bool, s: seq<T>)
    requires forall x :: x in s ==> !p(x)
    ensures Count(p, s) == 0
  {
    if s != [] {
      CountZero(p, s[..|s| - 1]);
    }
  }

  lemma {:induction false} CountAll<T>(p: T -> bool, s: seq<T>)
    requires forall x :: x in s ==> p(x)
    ensures Count(p, s) == |s|
  {
    if s != [] {
      CountAll(p, s[..|s| - 1]);
    }
  }

  lemma {:induction false} CountSame<T>(p: T -> bool, q: T -> bool, s: seq<T>)
    requires forall x :: x in s ==> (p(x) <==> q(x))
    ensures Count(p, s) == Count(q, s)
  {
    CountMonotone(p, q, s);
    CountMonotone(q, p, s);
  }

  lemma {:induction false} CountAligned<A, B>(p: A -> bool, s: seq<A>, q: B -> bool, t: seq<B>)
    requires |s| == |t|
    requires forall i :: 0 <= i < |s| ==> (p(s[i]) <==> q(t[i]))
    ensures Count(p, s) == Count(q, t)
  {
    if s != [] {
      CountAligned(p, s[..|s| - 1], q, t[..|t| - 1]);
    }
  }

  lemma {:induction false} CountFilter<T>(p: T -> bool, q: T -> bool, r: T -> bool, s: seq<T>)
    requires forall x :: x in s ==> (r(x) <==> p(x) && q(x))
    ensures Count(p, Filter(q, s)) == Count(r, s)
  {
    if s != [] {
      var init, last := s[..|s| - 1], s[|s| - 1];
      CountFilter(p, q, r, init);
      CountConcat(p, Filter(q, init), [last]);
      assert [last][..0] == [];
      assert Filter(q, init) + [] == Filter(q, init);
    }
  }

  lemma {:induction false} CountUpdate<T>(p: T -> bool, s: seq<T>, i: nat, x: T)
    requires i < |s|
    ensures Count(p, s[i := x]) == Count(p, s) - (if p(s[i]) then 1 else 0) + (if p(x) then 1 else 0)
  {
    var t := s[i := x];
    if i == |s| - 1 {
      assert t[..|t| - 1] == s[..|s| - 1];
    } else {
      assert t[..|t| - 1] == s[..|s| - 1][i := x];
      CountUpdate(p, s[..|s| - 1], i, x);
    }
  }

  // How often a predicate holds does not depend on the order of the elements.
  lemma {:induction false} CountPermuted<T>(p: T -> bool, a: seq<T>, b: seq<T>)
    requires multiset(a) == multiset(b)
    ensures Count(p, a) == Count(p, b)
  {
    if a == [] {
      assert |b| == |multiset(b)| == |multiset(a)|;
    } else {
      var last := a[|a| - 1];
      assert a == a[..|a| - 1] + [last];
      assert last in multiset(b);
      var k :| 0 <= k < |b| && b[k] == last;
      assert b == b[..k] + [last] + b[k + 1..];
      assert multiset(b[..k] + b[k + 1..]) == multiset(b) - multiset{last};
      assert multiset(a[..|a| - 1]) == multiset(a) - multiset{last};
      CountPermuted(p, a[..|a| - 1], b[..k] + b[k + 1..]);
      CountConcat(p, b[..k] + [last], b[k + 1..]);
      CountConcat(p, b[..k], [last]);
      CountConcat(p, b[..k], b[k + 1..]);
      assert [last][..0] == [];
      assert Count(p, [last]) == if p(last) then 1 else 0;
    }
  }

  lemma {:induction false} ZeroTotal<T>(f: T -> nat, s: seq<T>)
    requires forall t :: t in s ==> f(t) == 0
    ensures Total(f, s) == 0
  {
    if s != [] {
      ZeroTotal(f, s[..|s| - 1]);
    }
  }

  lemma {:induction false} RaiseTotal<T>(f: T -> nat, g: T -> nat, s: seq<T>, x: T, k: nat)
    requires NoDuplicates(s)
    requires forall t :: t in s ==> g(t) == f(t) + if t == x then k else 0
    ensures Total(g, s) == Total(f, s) + if x in s then k else 0
  {
    if s != [] {
      RaiseTotal(f, g, s[..|s| - 1], x, k);
      assert s == s[..|s| - 1] + [s[|s| - 1]];
    }
  }

  lemma {:induction false} MemberAtMostTotal<T>(f: T -> nat, s: seq<T>, x: T)
    requires x in s
    ensures f(x) <= Total(f, s)
  {
    if x != s[|s| - 1] {
      assert x in s[..|s| - 1];
      MemberAtMostTotal(f, s[..|s| - 1], x);
    }
  }

  lemma {:induction false} TotalConcat<T>(f: T -> nat, a: seq<T>, b: seq<T>)
    ensures Total(f, a + b) == Total(f, a) + Total(f, b)
  {
    if b == [] {
      assert a + b == a;
    } else {
      assert (a + b)[..|a + b| - 1] == a + b[..|b| - 1];
      TotalConcat(f, a, b[..|b| - 1]);
    }
  }

  // A total does not depend on the order of the elements.
  lemma {:induction false} TotalPermuted<T>(f: T -> nat, a: seq<T>, b: seq<T>)
    requires multiset(a) == multiset(b)
    ensures Total(f, a) == Total(f, b)
  {
    if a == [] {
      assert |b| == |multiset(b)| == |multiset(a)|;
    } else {
      var last := a[|a| - 1];
      assert a == a[..|a| - 1] + [last];
      assert last in multiset(b);
      var k :| 0 <= k < |b| && b[k] == last;
      assert b == b[..k] + [last] + b[k + 1..];
      assert multiset(b[..k] + b[k + 1..]) == multiset(b) - multiset{last};
      assert multiset(a[..|a| - 1]) == multiset(a) - multiset{last};
      TotalPermuted(f, a[..|a| - 1], b[..k] + b[k + 1..]);
      TotalConcat(f, b[..k] + [last], b[k + 1..]);
      TotalConcat(f, b[..k], [last]);
      TotalConcat(f, b[..k], b[k + 1..]);
      assert [last][..0] == [];
      assert Total(f, [last]) == f(last);
    }
  }

  lemma {:induction false} FilterPermuted<T>(p: T -> bool, a: seq<T>, b: seq<T>)
    requires multiset(a) == multiset(b)
    ensures multiset(Filter(p, a)) == multiset(Filter(p, b))
  {
    if a == [] {
      assert |b| == |multiset(b)| == |multiset(a)|;
    } else {
      var last := a[|a| - 1];
      assert a == a[..|a| - 1] + [last];
      assert last in multiset(b);
      var k :| 0 <= k < |b| && b[k] == last;
      assert b == b[..k] + [last] + b[k + 1..];
      assert multiset(b[..k] + b[k + 1..]) == multiset(b) - multiset{last};
      assert multiset(a[..|a| - 1]) == multiset(a) - multiset{last};
      FilterPermuted(p, a[..|a| - 1], b[..k] + b[k + 1..]);
      FilterConcat(p, b[..k] + [last], b[k + 1..]);
      FilterAppend(p, b[..k], last);
      FilterConcat(p, b[..k], b[k + 1..]);
    }
  }

  lemma {:induction false} SameTotal<T>(f: T -> nat, g: T -> nat, s: seq<T>)
    requires forall t :: t in s ==> g(t) == f(t)
    ensures Total(g, s) == Total(f, s)
  {
    if s != [] {
      SameTotal(f, g, s[..|s| - 1]);
    }
  }

  lemma {:induction false} UnionAtMostSum<T>(u: T -> bool, p: T -> bool, q: T -> bool, s: seq<T>)
    requires forall x :: x in s && u(x) ==> p(x) || q(x)
    ensures Count(u, s) <= Count(p, s) + Count(q, s)
  {
    if s != [] {
      UnionAtMostSum(u, p, q, s[..|s| - 1]);
    }
  }

  lemma {:induction false} CountStrict<T>(p: T -> bool, q: T -> bool, s: seq<T>, x: T)
    requires forall t :: p(t) ==> q(t)
    requires x in s && q(x) && !p(x)
    ensures Count(p, s) < Count(q, s)
  {
    var init, last := s[..|s| - 1], s[|s| - 1];
    if last == x {
      CountMonotone(p, q, init);
    } else {
      assert x in init;
      CountStrict(p, q, init, x);
    }
  }

  function Repeat<T>(s: seq<T>, k: nat): seq<T> {
    if k == 0 then [] else Repeat(s, k - 1) + s
  }

  lemma OneMoreTime(k: nat, n: nat)
    ensures (k + 1) * n == k * n + n
  {
  }

  lemma {:induction false} CountRepeated<T>(p: T -> bool, s: seq<T>, k: nat)
    ensures Count(p, Repeat(s, k)) == k * Count(p, s)
  {
    if k > 0 {
      CountRepeated(p, s, k - 1);
      CountConcat(p, Repeat(s, k - 1), s);
      OneMoreTime(k - 1, Count(p, s));
    }
  }

  // ---- counting by tag ----------------------------------------------------

  function WithLabel<X, L(==)>(tag: X -> L, l: L): X -> bool {
    (x: X) => tag(x) == l
  }

  function LabelIn<X, L(==)>(tag: X -> L, labels: seq<L>): X -> bool {
    (x: X) => tag(x) in labels
  }

  function LabelTally<X, L(==)>(tag: X -> L, items: seq<X>): L -> nat {
    (l: L) => Count(WithLabel(tag, l), items)
  }

  // Adding up the counts of different labels counts each item once.
  lemma {:induction false} LabelsCountOnce<X, L>(tag: X -> L, items: seq<X>, labels: seq<L>)
    requires NoDuplicates(labels)
    ensures Total(LabelTally(tag, items), labels) == Count(LabelIn(tag, labels), items)
  {
    if items == [] {
      ZeroTotal(LabelTally(tag, items), labels);
    } else {
      var init, last := items[..|items| - 1], items[|items| - 1];
      LabelsCountOnce(tag, init, labels);
      RaiseTotal(LabelTally(tag, init), LabelTally(tag, items), labels, tag(last), 1);
    }
  }

  // A counter's entry is the number of items with that tag.
  lemma {:induction false} LabelMultiplicity<X, L>(tag: X -> L, items: seq<X>, l: L)
    ensures multiset(Map(tag, items))[l] == Count(WithLabel(tag, l), items)
  {
    if items != [] {
      var init, last := items[..|items| - 1], items[|items| - 1];
      LabelMultiplicity(tag, init, l);
      assert Map(tag, items) == Map(tag, init) + [tag(last)];
    }
  }

  lemma {:induction false} SumConcat<T>(f: T -> real, a: seq<T>, b: seq<T>)
    ensures Sum(f, a + b) == Sum(f, a) + Sum(f, b)
  {
    if b == [] {
      assert a + b == a;
    } else {
      assert (a + b)[..|a + b| - 1] == a + b[..|b| - 1];
      SumConcat(f, a, b[..|b| - 1]);
    }
  }

  lemma {:induction false} ZeroSum<T>(f: T -> real, s: seq<T>)
    requires forall x :: x in s ==> f(x) == 0.0
    ensures Sum(f, s) == 0.0
  {
    if s != [] {
      ZeroSum(f, s[..|s| - 1]);
    }
  }

  lemma {:induction false} SumSame<T>(f: T -> real, g: T -> real, s: seq<T>)
    requires forall x :: x in s ==> f(x) == g(x)
    ensures Sum(f, s) == Sum(g, s)
  {
    if s != [] {
      SumSame(f, g, s[..|s| - 1]);
    }
  }

  lemma {:induction false} FlattenConcat<T>(a: seq<seq<T>>, b: seq<seq<T>>)
    ensures Flatten(a + b) == Flatten(a) + Flatten(b)
  {
    if b == [] {
      assert a + b == a;
    } else {
      var init, last := b[..|b| - 1], b[|b| - 1];
      assert (a + b)[..|a + b| - 1] == a + init && (a + b)[|a + b| - 1] == last;
      FlattenConcat(a, init);
      assert Flatten(a) + Flatten(init) + last == Flatten(a) + (Flatten(init) + last);
    }
  }

  lemma {:induction false} DistinctMembers<T>(s: seq<T>)
    ensures NoDuplicates(Distinct(s))
    ensures forall x :: x in Distinct(s) <==> x in s
  {
    if s != [] {
      DistinctMembers(s[..|s| - 1]);
      assert s == s[..|s| - 1] + [s[|s| - 1]];
    }
  }

  // x occurs in s, and y does not occur before it does.
  ghost predicate MetBefore<T>(s: seq<T>, x: T, y: T) {
    exists a :: 0 <= a < |s| && s[a] == x && y !in s[..a + 1]
  }

  lemma {:induction false} DistinctInOrder<T(!new)>(s: seq<T>, i: nat, j: nat)
    requires i < j < |Distinct(s)|
    ensures MetBefore(s, Distinct(s)[i], Distinct(s)[j])
  {
    var init, last := s[..|s| - 1], s[|s| - 1];
    var earlier := Distinct(init);
    DistinctMembers(init);
    if j < |earlier| {
      DistinctInOrder(init, i, j);
      var a :| 0 <= a < |init| && init[a] == earlier[i] && earlier[j] !in init[..a + 1];
      assert s[..a + 1] == init[..a + 1];
    } else {
      assert earlier[i] in earlier;
      var a :| 0 <= a < |init| && init[a] == earlier[i];
      assert s[a] == init[a] && last !in init && s[..a + 1] == init[..a + 1];
    }
  }

  lemma {:induction false} FilterKeepsDistinct<T>(p: T -> bool, s: seq<T>)
    requires NoDuplicates(s)
    ensures NoDuplicates(Filter(p, s))
  {
    if s != [] {
      FilterKeepsDistinct(p, s[..|s| - 1]);
      FilterMember(p, s[..|s| - 1], s[|s| - 1]);
    }
  }

  // ---- stable sort --------------------------------------------------------

  ghost predicate TotalPreorder<T(!new)>(leq: (T, T) -> bool) {
    && (forall x, y :: leq(x, y) || leq(y, x))
    && (forall x, y, z :: leq(x, y) && leq(y, z) ==> leq(x, z))
  }

  ghost predicate Sorted<T>(leq: (T, T) -> bool, s: seq<T>) {
    forall i, j :: 0 <= i < j < |s| ==> leq(s[i], s[j])
  }

  // The elements that rank with x, as a predicate.
  function Ties<T>(leq: (T, T) -> bool, x: T): T -> bool {
    y => leq(x, y) && leq(y, x)
  }

  // r lists s in ascending order and keeps the given order among ties.
  ghost predicate StableArrangement<T(!new)>(leq: (T, T) -> bool, s: seq<T>, r: seq<T>) {
    && Sorted(leq, r)
    && forall x: T :: Filter(Ties(leq, x), r) == Filter(Ties(leq, x), s)
  }

  function InsertAfterTies<T>(leq: (T, T) -> bool, s: seq<T>, x: T): seq<T> {
    if s == [] || leq(s[|s| - 1], x) then s + [x]
    else InsertAfterTies(leq, s[..|s| - 1], x) + [s[|s| - 1]]
  }

  function StableSort<T>(leq: (T, T) -> bool, s: seq<T>): seq<T> {
    if s == [] then [] else InsertAfterTies(leq, StableSort(leq, s[..|s| - 1]), s[|s| - 1])
  }

  lemma {:induction false} InsertMembers<T>(leq: (T, T) -> bool, s: seq<T>, x: T)
    ensures multiset(InsertAfterTies(leq, s, x)) == multiset(s) + multiset{x}
    ensures |InsertAfterTies(leq, s, x)| == |s| + 1
  {
    if s != [] && !leq(s[|s| - 1], x) {
      InsertMembers(leq, s[..|s| - 1], x);
      assert s == s[..|s| - 1] + [s[|s| - 1]];
    }
  }

  lemma {:induction false} InsertSorted<T(!new)>(leq: (T, T) -> bool, s: seq<T>, x: T)
    requires TotalPreorder(leq) && Sorted(leq, s)
    ensures Sorted(leq, InsertAfterTies(leq, s, x))
  {
    if s != [] && !leq(s[|s| - 1], x) {
      var init, last := s[..|s| - 1], s[|s| - 1];
      InsertSorted(leq, init, x);
      InsertMembers(leq, init, x);
      forall y | y in InsertAfterTies(leq, init, x) ensures leq(y, last) {
        assert y in multiset(InsertAfterTies(leq, init, x));
        assert y in init || y == x;
      }
    }
  }

  lemma FilterSwap<T>(p: T -> bool, s: seq<T>, x: T, y: T)
    requires !(p(x) && p(y))
    ensures Filter(p, s + [x] + [y]) == Filter(p, s + [y] + [x])
  {
    assert (s + [x] + [y])[..|s| + 1] == s + [x] && (s + [y] + [x])[..|s| + 1] == s + [y];
    assert (s + [x])[..|s|] == s && (s + [y])[..|s|] == s;
  }

  lemma {:induction false} InsertKeepsTies<T(!new)>(leq: (T, T) -> bool, s: seq<T>, x: T, z: T)
    requires TotalPreorder(leq) && Sorted(leq, s)
    ensures Filter(Ties(leq, z), InsertAfterTies(leq, s, x)) == Filter(Ties(leq, z), s + [x])
  {
    if s != [] && !leq(s[|s| - 1], x) {
      var init, last, p := s[..|s| - 1], s[|s| - 1], Ties(leq, z);
      InsertKeepsTies(leq, init, x, z);
      FilterConcat(p, InsertAfterTies(leq, init, x), [last]);
      FilterConcat(p, init + [x], [last]);
      assert s == init + [last];
      assert !(p(x) && p(last));
      FilterSwap(p, init, x, last);
    }
  }

  lemma InsertKeepsArrangement<T(!new)>(leq: (T, T) -> bool, s: seq<T>, t: seq<T>, x: T)
    requires TotalPreorder(leq) && StableArrangement(leq, s, t)
    ensures StableArrangement(leq, s + [x], InsertAfterTies(leq, t, x))
  {
    InsertSorted(leq, t, x);
    forall z: T
      ensures Filter(Ties(leq, z), InsertAfterTies(leq, t, x)) == Filter(Ties(leq, z), s + [x])
    {
      InsertKeepsTies(leq, t, x, z);
      FilterConcat(Ties(leq, z), t, [x]);
      FilterConcat(Ties(leq, z), s, [x]);
    }
  }

  lemma {:induction false} SortKeepsMembers<T>(leq: (T, T) -> bool, s: seq<T>)
    ensures multiset(StableSort(leq, s)) == multiset(s)
  {
    if s != [] {
      var init, last := s[..|s| - 1], s[|s| - 1];
      SortKeepsMembers(leq, init);
      InsertMembers(leq, StableSort(leq, init), last);
      assert s == init + [last];
    }
  }

  lemma {:induction false} StableSortArranges<T(!new)>(leq: (T, T) -> bool, s: seq<T>)
    requires TotalPreorder(leq)
    ensures StableArrangement(leq, s, StableSort(leq, s))
    ensures multiset(StableSort(leq, s)) == multiset(s)
  {
    SortKeepsMembers(leq, s);
    if s != [] {
      var init, last := s[..|s| - 1], s[|s| - 1];
      StableSortArranges(leq, init);
      assert s == init + [last];
      InsertKeepsArrangement(leq, init, StableSort(leq, init), last);
    }
  }

  // Being sorted and keeping ties in order leaves exactly one arrangement.
  lemma {:induction false} StableArrangementUnique<T(!new)>(leq: (T, T) -> bool, s: seq<T>, r: seq<T>, q: seq<T>)
    requires TotalPreorder(leq)
    requires StableArrangement(leq, s, r) && StableArrangement(leq, s, q)
    ensures r == q
    decreases |r|
  {
    forall x: T ensures Filter(Ties(leq, x), r) == Filter(Ties(leq, x), q) {
    }
    SameTiesSameSequence(leq, r, q);
  }

  lemma FilterWithoutLast<T>(p: T -> bool, s: seq<T>)
    requires s != []
    ensures Filter(p, s[..|s| - 1]) ==
            if p(s[|s| - 1]) then Filter(p, s)[..|Filter(p, s)| - 1] else Filter(p, s)
    ensures p(s[|s| - 1]) ==> Filter(p, s) != [] && Filter(p, s)[|Filter(p, s)| - 1] == s[|s| - 1]
  {
    var init, last := Filter(p, s[..|s| - 1]), s[|s| - 1];
    assert p(last) ==> (init + [last])[..|init|] == init;
  }

  lemma {:induction false} SameTiesSameSequence<T(!new)>(leq: (T, T) -> bool, r: seq<T>, q: seq<T>)
    requires TotalPreorder(leq) && Sorted(leq, r) && Sorted(leq, q)
    requires forall x: T :: Filter(Ties(leq, x), r) == Filter(Ties(leq, x), q)
    ensures r == q
    decreases |r|
  {
    forall x: T ensures x in r <==> x in q {
      FilterMember(Ties(leq, x), r, x);
      FilterMember(Ties(leq, x), q, x);
    }
    if q != [] {
      assert q[0] in r;
    }
    if r != [] {
      assert r[0] in q;
      SameLast(leq, r, q);
      forall x: T
        ensures Filter(Ties(leq, x), r[..|r| - 1]) == Filter(Ties(leq, x), q[..|q| - 1])
      {
        FilterWithoutLast(Ties(leq, x), r);
        FilterWithoutLast(Ties(leq, x), q);
      }
      SameTiesSameSequence(leq, r[..|r| - 1], q[..|q| - 1]);
      assert r == r[..|r| - 1] + [r[|r| - 1]] && q == q[..|q| - 1] + [q[|q| - 1]];
    }
  }

  lemma SameLast<T(!new)>(leq: (T, T) -> bool, r: seq<T>, q: seq<T>)
    requires TotalPreorder(leq) && Sorted(leq, r) && Sorted(leq, q)
    requires r != [] && q != []
    requires forall x: T :: x in r <==> x in q
    requires forall x: T :: Filter(Ties(leq, x), r) == Filter(Ties(leq, x), q)
    ensures r[|r| - 1] == q[|q| - 1]
  {
    var a, b := r[|r| - 1], q[|q| - 1];
    assert leq(b, a) by {
      assert b in r;
    }
    assert leq(a, b) by {
      assert a in q;
    }
    assert Ties(leq, a)(b) && Ties(leq, a)(a);
    assert Filter(Ties(leq, a), r) == Filter(Ties(leq, a), q);
    FilterWithoutLast(Ties(leq, a), r);
    FilterWithoutLast(Ties(leq, a), q);
  }
}

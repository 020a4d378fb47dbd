// The two per-client feature vectors. Volume is not a signal: every dimension is a frequency.
module Vectors {
  import opened Vocabulary
  import opened Sequences
  import opened Ratios

  // EVENT_CATEGORIES without COLLABORATION, in order.
  const ML_CATEGORIES: seq<Category> := [
    DhcpSuccess, DhcpFailure, DnsSuccess, DnsFailure,
    AuthSuccess, AuthFailure, RoamSuccess, RoamFailure,
    DisassocAp, DisassocClient, ArpSuccess, ArpFailure,
    CaptivePortal, Security, Other]

  const FAILURE_CATEGORIES: seq<Category> := [DhcpFailure, DnsFailure, AuthFailure, RoamFailure, ArpFailure]

  datatype CategoryVector = CategoryVector(frequency: map<Category, real>, top: real, topFailure: real)

  predicate IsMl(e: Event) {
    Listed(e.etype) != Some(Collaboration)
  }

  predicate IsCategorised(e: Event) {
    Listed(e.etype).Some? && IsMl(e)
  }

  function ListedUnder(c: Category): Event -> bool {
    (e: Event) => Listed(e.etype) == Some(c)
  }

  function MlTotal(events: seq<Event>): nat {
    Count(IsMl, events)
  }

  function FrequencyOf(events: seq<Event>, c: Category): real {
    if MlTotal(events) == 0 then 0.0 else Share(Count(ListedUnder(c), events), MlTotal(events))
  }

  function Frequencies(events: seq<Event>): map<Category, real> {
    map c | c in ML_CATEGORIES :: FrequencyOf(events, c)
  }

  function Largest(f: map<Category, real>, order: seq<Category>): real
    requires forall c :: c in order ==> c in f
  {
    if order == [] then 0.0 else
    var m := Largest(f, order[..|order| - 1]);
    if f[order[|order| - 1]] > m then f[order[|order| - 1]] else m
  }

  // At least every listed entry, and one of them unless none is positive.
  lemma {:induction false} LargestIsMaximum(f: map<Category, real>, order: seq<Category>)
    requires forall c :: c in order ==> c in f
    ensures Largest(f, order) >= 0.0
    ensures forall c :: c in order ==> f[c] <= Largest(f, order)
    ensures Largest(f, order) == 0.0 || exists c :: c in order && f[c] == Largest(f, order)
  {
    if order != [] {
      var init, last := order[..|order| - 1], order[|order| - 1];
      LargestIsMaximum(f, init);
      assert order == init + [last];
      if c :| c in init && f[c] == Largest(f, init) {
        assert c in order;
      }
    }
  }

  function CategoryVectorOf(events: seq<Event>): CategoryVector {
    CategoryVector(Frequencies(events), Largest(Frequencies(events), ML_CATEGORIES),
                   Largest(Frequencies(events), FAILURE_CATEGORIES))
  }

  function TypeOf(e: Event): EventType { e.etype }

  // ---- building the category vector --------------------------------------------------

  function OfType(t: EventType): Event -> bool {
    WithLabel(TypeOf, t)
  }

  function TypeIn(types: seq<EventType>): Event -> bool {
    LabelIn(TypeOf, types)
  }

  function TypeTally(events: seq<Event>): EventType -> nat {
    LabelTally(TypeOf, events)
  }

  // Adding up a bucket's types counts the events listed under its category: no type is in the
  // bucket twice or in another one.
  lemma BucketTotal(events: seq<Event>, c: Category)
    ensures Total(TypeTally(events), Bucket(c)) == Count(ListedUnder(c), events)
  {
    BucketsListNoTypeTwice(c);
    LabelsCountOnce(TypeOf, events, Bucket(c));
    forall e | e in events ensures TypeIn(Bucket(c))(e) <==> ListedUnder(c)(e) {
      BucketsMatchReverseMap(TypeOf(e), c);
    }
    CountSame(TypeIn(Bucket(c)), ListedUnder(c), events);
  }

  // Counter entries, added up type by type.
  method AddUpTypes(events: seq<Event>, typeCounts: multiset<EventType>, types: seq<EventType>) returns (count: nat)
    requires typeCounts == multiset(Map(TypeOf, events))
    ensures count == Total(TypeTally(events), types)
  {
    count := 0;
    for i := 0 to |types|
      invariant count == Total(TypeTally(events), types[..i])
    {
      assert types[..i + 1][..i] == types[..i];
      LabelMultiplicity(TypeOf, events, types[i]);
      count := count + typeCounts[types[i]];
    }
    assert types[..|types|] == types;
  }

  method LargestOf(f: map<Category, real>, order: seq<Category>) returns (m: real)
    requires forall c :: c in order ==> c in f && f[c] >= 0.0
    ensures m == Largest(f, order)
  {
    m := 0.0;
    for i := 0 to |order|
      invariant m == Largest(f, order[..i])
    {
      assert order[..i + 1][..i] == order[..i];
      if f[order[i]] > m {
        m := f[order[i]];
      }
    }
    assert order[..|order|] == order;
  }

  // m is the greatest of the listed frequencies.
  ghost predicate IsMaximum(m: real, f: map<Category, real>, order: seq<Category>) {
    && (forall c :: c in order ==> c in f && f[c] <= m)
    && exists c :: c in order && c in f && f[c] == m
  }

  lemma FrequenciesHaveMaximum(events: seq<Event>, order: seq<Category>)
    requires order != [] && forall c :: c in order ==> c in Frequencies(events)
    ensures IsMaximum(Largest(Frequencies(events), order), Frequencies(events), order)
  {
    var f := Frequencies(events);
    LargestIsMaximum(f, order);
    FrequenciesAreNonNegative(events);
    assert order[0] in order && f[order[0]] >= 0.0;
  }

  method CountFrequency(events: seq<Event>, ml: seq<Event>, typeCounts: multiset<EventType>, c: Category) returns (x: real)
    requires ml == Filter(IsMl, events) && typeCounts == multiset(Map(TypeOf, ml)) && c != Collaboration
    ensures x == FrequencyOf(events, c)
  {
    var count := AddUpTypes(ml, typeCounts, Bucket(c));
    FilterCount(IsMl, events);
    BucketTotal(ml, c);
    MlCategoryCount(events, c);
    x := if |ml| == 0 then 0.0 else Share(count, |ml|);
  }

  method FrequenciesOver(events: seq<Event>, order: seq<Category>) returns (f: map<Category, real>)
    requires Collaboration !in order
    ensures forall c :: c in f <==> c in order
    ensures forall c :: c in f ==> f[c] == FrequencyOf(events, c)
  {
    var ml := Filter(IsMl, events);
    var typeCounts := multiset(Map(TypeOf, ml));
    f := map[];
    for i := 0 to |order|
      invariant forall c :: c in f <==> c in order[..i]
      invariant forall c :: c in f ==> f[c] == FrequencyOf(events, c)
    {
      var x := CountFrequency(events, ml, typeCounts, order[i]);
      f := f[order[i] := x];
      assert order[..i + 1] == order[..i] + [order[i]];
    }
    assert order[..|order|] == order;
  }

  method BuildFrequencies(events: seq<Event>) returns (f: map<Category, real>)
    ensures f == Frequencies(events)
  {
    CollaborationIsNotMl();
    f := FrequenciesOver(events, ML_CATEGORIES);
  }

  // ---- the dimensions in the buckets' own terms -----------------------------------------

  ghost function InBucket(c: Category): Event -> bool {
    (e: Event) => e.etype in Bucket(c)
  }

  ghost function OutsideCalls(): Event -> bool {
    (e: Event) => e.etype !in Bucket(Collaboration)
  }

  // Every category but collaboration has its bucket's share of the events outside collaboration's.
  ghost predicate SharesOfBuckets(f: map<Category, real>, events: seq<Event>) {
    var n := Count(OutsideCalls(), events);
    && (forall c :: c in f <==> c != Collaboration)
    && forall c :: c in f ==> f[c] == if n == 0 then 0.0 else Count(InBucket(c), events) as real / n as real
  }

  lemma FrequenciesByBucket(events: seq<Event>)
    ensures SharesOfBuckets(Frequencies(events), events)
  {
    FailuresAreMl();
    forall e: Event ensures IsMl(e) <==> OutsideCalls()(e) {
      BucketsMatchReverseMap(e.etype, Collaboration);
    }
    CountSame(IsMl, OutsideCalls(), events);
    forall c | c in Frequencies(events) ensures Count(ListedUnder(c), events) == Count(InBucket(c), events) {
      forall e: Event ensures ListedUnder(c)(e) <==> InBucket(c)(e) {
        BucketsMatchReverseMap(e.etype, c);
      }
      CountSame(ListedUnder(c), InBucket(c), events);
    }
  }

  method BuildCategoryVector(events: seq<Event>) returns (v: CategoryVector)
    ensures v == CategoryVectorOf(events)
    ensures SharesOfBuckets(v.frequency, events)
    ensures IsMaximum(v.top, v.frequency, ML_CATEGORIES)
    ensures IsMaximum(v.topFailure, v.frequency, [DhcpFailure, DnsFailure, AuthFailure, RoamFailure, ArpFailure])
  {
    FrequenciesByBucket(events);
    var f := BuildFrequencies(events);
    FailuresAreMl();
    FrequenciesAreNonNegative(events);
    var top := LargestOf(f, ML_CATEGORIES);
    var topFailure := LargestOf(f, FAILURE_CATEGORIES);
    FrequenciesHaveMaximum(events, ML_CATEGORIES);
    FrequenciesHaveMaximum(events, FAILURE_CATEGORIES);
    v := CategoryVector(f, top, topFailure);
  }

  lemma FrequenciesAreNonNegative(events: seq<Event>)
    ensures forall c :: c in Frequencies(events) ==> Frequencies(events)[c] >= 0.0
  {
  }

  lemma MlListsNoCategoryTwice()
    ensures NoDuplicates(ML_CATEGORIES)
  {
  }

  lemma CollaborationIsNotMl()
    ensures Collaboration !in ML_CATEGORIES && Collaboration !in FAILURE_CATEGORIES
  {
  }

  lemma OtherCategoryIsMl(c: Category)
    requires c != Collaboration
    ensures c in ML_CATEGORIES
  {
    var order := ML_CATEGORIES;
    match c
    case DhcpSuccess => assert order[0] == c;
    case DhcpFailure => assert order[1] == c;
    case DnsSuccess => assert order[2] == c;
    case DnsFailure => assert order[3] == c;
    case AuthSuccess => assert order[4] == c;
    case AuthFailure => assert order[5] == c;
    case RoamSuccess => assert order[6] == c;
    case RoamFailure => assert order[7] == c;
    case DisassocAp => assert order[8] == c;
    case DisassocClient => assert order[9] == c;
    case ArpSuccess => assert order[10] == c;
    case ArpFailure => assert order[11] == c;
    case CaptivePortal => assert order[12] == c;
    case Security => assert order[13] == c;
    case Other => assert order[14] == c;
    case Collaboration =>
  }

  lemma FailuresAreMl()
    ensures forall c :: c in FAILURE_CATEGORIES ==> c in ML_CATEGORIES
    ensures Collaboration !in ML_CATEGORIES && NoDuplicates(ML_CATEGORIES)
    ensures forall c :: c == Collaboration || c in ML_CATEGORIES
  {
    MlListsNoCategoryTwice();
    CollaborationIsNotMl();
    forall c | c != Collaboration ensures c in ML_CATEGORIES {
      OtherCategoryIsMl(c);
    }
  }

  lemma MlCategoryCount(events: seq<Event>, c: Category)
    requires c != Collaboration
    ensures Count(ListedUnder(c), Filter(IsMl, events)) == Count(ListedUnder(c), events)
  {
    CountFilter(ListedUnder(c), IsMl, ListedUnder(c), events);
  }

  // ---- what the dimensions add up to ---------------------------------------------------

  function FrequencyIn(f: map<Category, real>): Category -> real {
    (c: Category) => if c in f then f[c] else 0.0
  }

  function CategoryTally(events: seq<Event>): Category -> nat {
    (c: Category) => Count(ListedUnder(c), events)
  }

  lemma {:induction false} CategoriesCountOnce(events: seq<Event>)
    ensures Total(CategoryTally(events), ML_CATEGORIES) == Count(IsCategorised, events)
  {
    if events == [] {
      ZeroTotal(CategoryTally(events), ML_CATEGORIES);
    } else {
      var init, last := events[..|events| - 1], events[|events| - 1];
      CategoriesCountOnce(init);
      FailuresAreMl();
      match Listed(last.etype)
      case Some(c) => RaiseTotal(CategoryTally(init), CategoryTally(events), ML_CATEGORIES, c, 1);
      case None => SameTotal(CategoryTally(init), CategoryTally(events), ML_CATEGORIES);
    }
  }

  lemma {:induction false} RatiosAddUp<T>(f: T -> real, n: T -> nat, s: seq<T>, whole: nat)
    requires whole > 0 && forall t :: t in s ==> f(t) == Share(n(t), whole)
    ensures Sum(f, s) == Share(Total(n, s), whole)
  {
    if s != [] {
      RatiosAddUp(f, n, s[..|s| - 1], whole);
      SharesAdd(Total(n, s[..|s| - 1]), n(s[|s| - 1]), whole);
    }
  }

  lemma RatioIsOne(part: nat, whole: nat)
    requires whole > 0
    ensures Share(part, whole) == 1.0 <==> part == whole
  {
    if Share(part, whole) == 1.0 {
      assert part as real == Share(part, whole) * whole as real;
    }
  }

  // The category dimensions sum to the categorised share of the non-collaboration events; to
  // 1.0 just when every such event is in a bucket.
  lemma CategoryDimensionsSum(events: seq<Event>)
    requires MlTotal(events) > 0
    ensures var sum := Sum(FrequencyIn(Frequencies(events)), ML_CATEGORIES);
      && sum == Share(Count(IsCategorised, events), MlTotal(events))
      && (sum == 1.0 <==> forall e :: e in events && IsMl(e) ==> Listed(e.etype).Some?)
  {
    CategoriesCountOnce(events);
    RatiosAddUp(FrequencyIn(Frequencies(events)), CategoryTally(events), ML_CATEGORIES, MlTotal(events));
    RatioIsOne(Count(IsCategorised, events), MlTotal(events));
    if forall e :: e in events && IsMl(e) ==> Listed(e.etype).Some? {
      CountSame(IsCategorised, IsMl, events);
    } else {
      var e :| e in events && IsMl(e) && Listed(e.etype).None?;
      CountStrict(IsCategorised, IsMl, events, e);
    }
  }

  ghost predicate AllZero(v: CategoryVector) {
    (forall c :: c in v.frequency ==> v.frequency[c] == 0.0) && v.top == 0.0 && v.topFailure == 0.0
  }

  lemma LargestOfZeros(f: map<Category, real>, order: seq<Category>)
    requires forall c :: c in order ==> c in f && f[c] == 0.0
    ensures Largest(f, order) == 0.0
  {
    LargestIsMaximum(f, order);
  }

  lemma ZeroFrequency(events: seq<Event>, c: Category)
    requires c in Frequencies(events) && forall e :: e in events ==> !IsCategorised(e)
    ensures Frequencies(events)[c] == 0.0
  {
    CollaborationIsNotMl();
    CountZero(ListedUnder(c), events);
  }

  lemma NoCategorisedNoFrequency(events: seq<Event>)
    requires forall e :: e in events ==> !IsCategorised(e)
    ensures AllZero(CategoryVectorOf(events))
  {
    var f := Frequencies(events);
    forall c | c in f ensures f[c] == 0.0 {
      ZeroFrequency(events, c);
    }
    FailuresAreMl();
    LargestOfZeros(f, ML_CATEGORIES);
    LargestOfZeros(f, FAILURE_CATEGORIES);
  }

  lemma PositiveFrequency(events: seq<Event>, c: Category)
    requires MlTotal(events) > 0 && Count(ListedUnder(c), events) > 0
    ensures FrequencyOf(events, c) > 0.0
  {
  }

  lemma CategorisedHasFrequency(events: seq<Event>, e: Event)
    requires e in events && IsCategorised(e)
    ensures FrequencyOf(events, Listed(e.etype).value) > 0.0 && Listed(e.etype).value in Frequencies(events)
  {
    var c := Listed(e.etype).value;
    OtherCategoryIsMl(c);
    CountPositive(IsMl, events, e);
    CountPositive(ListedUnder(c), events, e);
    PositiveFrequency(events, c);
  }

  // A client's category vector is zero in every dimension exactly when none of its events is in
  // a bucket other than collaboration's.
  lemma CategoryVectorIsZeroIff(events: seq<Event>)
    ensures AllZero(CategoryVectorOf(events)) <==> forall e :: e in events ==> !IsCategorised(e)
  {
    if forall e :: e in events ==> !IsCategorised(e) {
      NoCategorisedNoFrequency(events);
    } else {
      var e :| e in events && IsCategorised(e);
      CategorisedHasFrequency(events, e);
    }
  }

  lemma ZeroDimensionSum(events: seq<Event>)
    requires forall e :: e in events ==> !IsCategorised(e)
    ensures Sum(FrequencyIn(Frequencies(events)), ML_CATEGORIES) == 0.0
  {
    forall c ensures FrequencyIn(Frequencies(events))(c) == 0.0 {
      if c in Frequencies(events) {
        ZeroFrequency(events, c);
      }
    }
    ZeroSum(FrequencyIn(Frequencies(events)), ML_CATEGORIES);
  }

  // So a client whose events are all of unlisted types, such as one that only ever associates,
  // has counted events and a vector of zeros: the dimensions do not always sum to 1.0.
  lemma UncategorisedEventsGiveZeros(events: seq<Event>)
    requires events != [] && forall e :: e in events ==> Listed(e.etype).None?
    ensures MlTotal(events) == |events|
    ensures AllZero(CategoryVectorOf(events)) && Sum(FrequencyIn(Frequencies(events)), ML_CATEGORIES) == 0.0
  {
    CountAll(IsMl, events);
    NoCategorisedNoFrequency(events);
    ZeroDimensionSum(events);
  }

  // ---- the event vector ------------------------------------------------------------------

  function EventVectorOf(events: seq<Event>, index: seq<EventType>): map<EventType, real> {
    var total := Count(TypeIn(index), events);
    map t | t in index :: if total == 0 then 0.0 else Share(Count(OfType(t), events), total)
  }

  function EntryIn(v: map<EventType, real>): EventType -> real {
    (t: EventType) => if t in v then v[t] else 0.0
  }

  // The event vector is a probability distribution, or all zeros when no event is indexed.
  lemma EventVectorIsDistribution(events: seq<Event>, index: seq<EventType>)
    ensures var v := EventVectorOf(events, index);
      if exists e :: e in events && TypeOf(e) in index then Sum(EntryIn(v), Distinct(index)) == 1.0
      else forall t :: t in v ==> v[t] == 0.0
  {
    var v, total := EventVectorOf(events, index), Count(TypeIn(index), events);
    if exists e :: e in events && TypeOf(e) in index {
      var e :| e in events && TypeOf(e) in index;
      CountPositive(TypeIn(index), events, e);
      DistinctMembers(index);
      LabelsCountOnce(TypeOf, events, Distinct(index));
      CountSame(TypeIn(Distinct(index)), TypeIn(index), events);
      RatiosAddUp(EntryIn(v), TypeTally(events), Distinct(index), total);
      RatioIsOne(total, total);
    } else {
      CountZero(TypeIn(index), events);
    }
  }

  ghost predicate InProportion(x: real, a: nat, y: real, b: nat) {
    x * b as real == y * a as real
  }

  // Its entries are to each other as the numbers of their events.
  lemma EventVectorIsProportional(events: seq<Event>, index: seq<EventType>, t: EventType, u: EventType, v: map<EventType, real>)
    requires v == EventVectorOf(events, index) && t in index && u in index
    ensures t in v && u in v && InProportion(v[t], Count(OfType(t), events), v[u], Count(OfType(u), events))
  {
    SharesAreInProportion(v[t], Count(OfType(t), events), v[u], Count(OfType(u), events), Count(TypeIn(index), events));
  }

  lemma SharesAreInProportion(x: real, a: nat, y: real, b: nat, whole: nat)
    requires x == (if whole == 0 then 0.0 else Share(a, whole)) && y == if whole == 0 then 0.0 else Share(b, whole)
    ensures InProportion(x, a, y, b)
  {
    if whole > 0 {
      var w := whole as real;
      assert x * w == a as real && y * w == b as real;
      assert x * (y * w) == y * (x * w);
    }
  }

  // ---- order and volume do not matter -----------------------------------------------------

  lemma RatioScales(part: nat, whole: nat, k: nat)
    requires whole > 0 && k > 0
    ensures k * whole > 0 && Share(k * part, k * whole) == Share(part, whole)
  {
    var p, w, n := part as real, whole as real, k as real;
    assert (k * part) as real == n * p && (k * whole) as real == n * w;
    assert n * p / (n * w) == p / w;
  }

  lemma VectorsIgnoreOrder(a: seq<Event>, b: seq<Event>, index: seq<EventType>)
    requires multiset(a) == multiset(b)
    ensures CategoryVectorOf(a) == CategoryVectorOf(b)
    ensures EventVectorOf(a, index) == EventVectorOf(b, index)
  {
    CountPermuted(IsMl, a, b);
    CountPermuted(TypeIn(index), a, b);
    forall c ensures Count(ListedUnder(c), a) == Count(ListedUnder(c), b) {
      CountPermuted(ListedUnder(c), a, b);
    }
    forall t ensures Count(OfType(t), a) == Count(OfType(t), b) {
      CountPermuted(OfType(t), a, b);
    }
    assert Frequencies(a) == Frequencies(b);
  }

  lemma FrequencyIgnoresVolume(events: seq<Event>, k: nat, p: Event -> bool, whole: Event -> bool)
    requires k > 0 && Count(whole, events) > 0
    ensures Count(whole, Repeat(events, k)) > 0
    ensures Share(Count(p, Repeat(events, k)), Count(whole, Repeat(events, k))) == Share(Count(p, events), Count(whole, events))
  {
    CountRepeated(p, events, k);
    CountRepeated(whole, events, k);
    RatioScales(Count(p, events), Count(whole, events), k);
  }

  // Repeating the whole stream any number of times leaves both vectors as they were.
  lemma VectorsIgnoreVolume(events: seq<Event>, k: nat, index: seq<EventType>)
    requires k > 0
    ensures CategoryVectorOf(Repeat(events, k)) == CategoryVectorOf(events)
    ensures EventVectorOf(Repeat(events, k), index) == EventVectorOf(events, index)
  {
    CategoryFrequenciesIgnoreVolume(events, k);
    EventFrequenciesIgnoreVolume(events, k, index);
  }

  lemma CategoryFrequenciesIgnoreVolume(events: seq<Event>, k: nat)
    requires k > 0
    ensures Frequencies(Repeat(events, k)) == Frequencies(events)
  {
    CountRepeated(IsMl, events, k);
    if MlTotal(events) > 0 {
      forall c | c in ML_CATEGORIES ensures Frequencies(Repeat(events, k))[c] == Frequencies(events)[c] {
        FrequencyIgnoresVolume(events, k, ListedUnder(c), IsMl);
      }
    }
  }

  lemma EventFrequenciesIgnoreVolume(events: seq<Event>, k: nat, index: seq<EventType>)
    requires k > 0
    ensures EventVectorOf(Repeat(events, k), index) == EventVectorOf(events, index)
  {
    CountRepeated(TypeIn(index), events, k);
    if Count(TypeIn(index), events) > 0 {
      forall t | t in index ensures EventVectorOf(Repeat(events, k), index)[t] == EventVectorOf(events, index)[t] {
        FrequencyIgnoresVolume(events, k, OfType(t), TypeIn(index));
      }
    }
  }
}

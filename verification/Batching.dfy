// What a collect stores does not depend on how its pages were cut into batches, exactly when
// the variants of each event agree on whether they pass the filters.
module Batching {
  import opened Vocabulary
  import opened Sequences
  import opened Dedup
  import opened Ingest
  import opened StuckLoop

  // Some variant of the key, with a site, passes the filters by itself.
  ghost predicate HasAcceptedVariant(events: seq<Event>, k: Key, threshold: int) {
    exists e :: e in events && e.siteId != "" && KeyOf(e) == k && Accepted(e, threshold)
  }

  lemma AcceptedIgnoresCaptureUrl(e: Event, threshold: int)
    ensures Accepted(Strip(e), threshold) <==> Accepted(e, threshold)
  {
  }

  lemma StoredKeysHaveAcceptedVariants(batch: seq<Event>, k: Key, threshold: int)
    requires Stores(batch, k, threshold)
    ensures HasAcceptedVariant(batch, k, threshold)
  {
    var site :| StoresAt(batch, site, k, threshold);
    VariantOfRepresentative(SiteGroup(batch, site), k);
    GroupMembers(batch, site);
    var v :| v in SiteGroup(batch, site) && KeyOf(v) == k && Representative(SiteGroup(batch, site), k) == Strip(v);
    AcceptedIgnoresCaptureUrl(v, threshold);
  }

  // Joining two batches can lose a key but never gain one.
  lemma JoinedBatchStoresNoMore(a: seq<Event>, b: seq<Event>, k: Key, threshold: int)
    requires Stores(a + b, k, threshold)
    ensures Stores(a, k, threshold) || Stores(b, k, threshold)
  {
    var site :| StoresAt(a + b, site, k, threshold);
    var ga, gb := SiteGroup(a, site), SiteGroup(b, site);
    FilterConcat(AtSite(site), a, b);
    FilterConcat(HasKey(k), ga, gb);
    KeyHasVariants(ga, k);
    KeyHasVariants(gb, k);
    KeyHasVariants(ga + gb, k);
    var va, vb := Variants(ga, k), Variants(gb, k);
    if va == [] {
      assert va + vb == vb;
      assert StoresAt(b, site, k, threshold);
    } else if vb == [] {
      assert va + vb == va;
      assert StoresAt(a, site, k, threshold);
    } else {
      BestConcat(va, vb);
      assert Best(va + vb) == Best(va) ==> StoresAt(a, site, k, threshold);
      assert Best(va + vb) == Best(vb) ==> StoresAt(b, site, k, threshold);
    }
  }

  lemma EmptyBatchStoresNothing(k: Key, threshold: int)
    ensures !Stores([], k, threshold)
  {
  }

  // A property a joined batch can only have from one of its parts comes from some batch.
  lemma {:induction false} SomeBatchHas(has: seq<Event> -> bool, batches: seq<seq<Event>>, n: nat) returns (b: nat)
    requires !has([]) && forall x, y :: has(x + y) ==> has(x) || has(y)
    requires n <= |batches| && has(Flatten(batches[..n]))
    ensures b < n && has(batches[b])
  {
    assert n > 0;
    assert batches[..n][..n - 1] == batches[..n - 1];
    if has(Flatten(batches[..n - 1])) {
      b := SomeBatchHas(has, batches, n - 1);
    } else {
      b := n - 1;
    }
  }

  ghost function StoresKey(k: Key, threshold: int): seq<Event> -> bool {
    (batch: seq<Event>) => Stores(batch, k, threshold)
  }

  lemma AnyBatchingStoresAtLeast(batches: seq<seq<Event>>, n: nat, k: Key, threshold: int)
    requires n <= |batches| && Stores(Flatten(batches[..n]), k, threshold)
    ensures AnyStores(batches, n, k, threshold)
  {
    EmptyBatchStoresNothing(k, threshold);
    forall x, y | StoresKey(k, threshold)(x + y) ensures StoresKey(k, threshold)(x) || StoresKey(k, threshold)(y) {
      JoinedBatchStoresNoMore(x, y, k, threshold);
    }
    var b := SomeBatchHas(StoresKey(k, threshold), batches, n);
  }

  // Whatever the batches, what is stored lies between the keys a single batch would store and
  // the keys with an accepted variant.
  lemma EveryBatchingIsSandwiched(batches: seq<seq<Event>>, k: Key, threshold: int)
    ensures Stores(Flatten(batches), k, threshold) ==> StoredByAll(batches, threshold)(k)
    ensures StoredByAll(batches, threshold)(k) ==> HasAcceptedVariant(Flatten(batches), k, threshold)
  {
    assert batches[..|batches|] == batches;
    if Stores(Flatten(batches), k, threshold) {
      AnyBatchingStoresAtLeast(batches, |batches|, k, threshold);
    }
    if StoredByAll(batches, threshold)(k) {
      var b :| 0 <= b < |batches| && Stores(batches[b], k, threshold);
      StoredKeysHaveAcceptedVariants(batches[b], k, threshold);
      var e :| e in batches[b] && e.siteId != "" && KeyOf(e) == k && Accepted(e, threshold);
      BatchMembers(batches, b, e);
    }
  }

  lemma PassingVariantsAreStored(events: seq<Event>, e: Event, threshold: int)
    requires e in events && e.siteId != ""
    requires forall v :: v in events && KeyOf(v) == KeyOf(e) ==> Passes(v, threshold)
    ensures StoresAt(events, e.siteId, KeyOf(e), threshold)
  {
    var group, k := SiteGroup(events, e.siteId), KeyOf(e);
    GroupMembers(events, e.siteId);
    FilterMember(AtSite(e.siteId), events, e);
    FilterMember(HasKey(k), group, e);
    KeyHasVariants(group, k);
    VariantOfRepresentative(group, k);
    var v :| v in group && KeyOf(v) == k && Representative(group, k) == Strip(v);
    FateByField(v, threshold);
    AcceptedIgnoresCaptureUrl(v, threshold);
  }

  // In the events' own fields, however the stream is cut: an event with a site is stored if every
  // variant of it passes the filters, and only if some variant with a site does.
  lemma StoredByField(batches: seq<seq<Event>>, e: Event, threshold: int)
    requires e in Flatten(batches)
    ensures e.siteId != "" && (forall v :: v in Flatten(batches) && KeyOf(v) == KeyOf(e) ==> Passes(v, threshold)) ==>
      StoredByAll(batches, threshold)(KeyOf(e))
    ensures StoredByAll(batches, threshold)(KeyOf(e)) ==>
      exists v :: v in Flatten(batches) && KeyOf(v) == KeyOf(e) && v.siteId != "" && Passes(v, threshold)
  {
    EveryBatchingIsSandwiched(batches, KeyOf(e), threshold);
    if e.siteId != "" && forall v :: v in Flatten(batches) && KeyOf(v) == KeyOf(e) ==> Passes(v, threshold) {
      PassingVariantsAreStored(Flatten(batches), e, threshold);
    }
    if StoredByAll(batches, threshold)(KeyOf(e)) {
      var v :| v in Flatten(batches) && v.siteId != "" && KeyOf(v) == KeyOf(e) && Accepted(v, threshold);
      FateByField(v, threshold);
    }
  }

  function Alone(e: Event): seq<Event> {
    [e]
  }

  lemma {:induction false} SingletonsFlatten(events: seq<Event>)
    ensures Flatten(Map(Alone, events)) == events
  {
    if events != [] {
      var init := events[..|events| - 1];
      SingletonsFlatten(init);
      assert Map(Alone, events)[..|events| - 1] == Map(Alone, init);
    }
  }

  lemma AcceptedEventAloneIsStored(e: Event, threshold: int)
    requires e.siteId != "" && Accepted(e, threshold)
    ensures Stores([e], KeyOf(e), threshold)
  {
    var k, group := KeyOf(e), SiteGroup([e], e.siteId);
    FilterSingleton(AtSite(e.siteId), e);
    FilterSingleton(HasKey(k), e);
    KeyHasVariants(group, k);
    AcceptedIgnoresCaptureUrl(e, threshold);
    assert StoresAt([e], e.siteId, k, threshold);
  }

  // One event per batch stores every key with an accepted variant: the upper bound is met.
  lemma SingletonsStoreAllAccepted(events: seq<Event>, k: Key, threshold: int)
    ensures StoredByAll(Map(Alone, events), threshold)(k) <==> HasAcceptedVariant(events, k, threshold)
  {
    var batches := Map(Alone, events);
    SingletonsFlatten(events);
    EveryBatchingIsSandwiched(batches, k, threshold);
    if HasAcceptedVariant(events, k, threshold) {
      var e :| e in events && e.siteId != "" && KeyOf(e) == k && Accepted(e, threshold);
      var i :| 0 <= i < |events| && events[i] == e;
      AcceptedEventAloneIsStored(e, threshold);
      assert batches[i] == [e];
    }
  }

  // No key whose accepted variant hides behind a rejected representative.
  ghost predicate Stable(events: seq<Event>, threshold: int) {
    forall e :: e in events && e.siteId != "" && Accepted(e, threshold) ==> Stores(events, KeyOf(e), threshold)
  }

  ghost predicate SameStoredKeys(batches: seq<seq<Event>>, events: seq<Event>, threshold: int) {
    forall k :: StoredByAll(batches, threshold)(k) <==> Stores(events, k, threshold)
  }

  ghost predicate BatchingIndependent(events: seq<Event>, threshold: int) {
    forall batches :: Flatten(batches) == events ==> SameStoredKeys(batches, events, threshold)
  }

  // Every way of cutting the stream stores the same keys if and only if the stream is stable.
  lemma BatchingIndependentIffStable(events: seq<Event>, threshold: int)
    ensures BatchingIndependent(events, threshold) <==> Stable(events, threshold)
  {
    if Stable(events, threshold) {
      forall batches | Flatten(batches) == events ensures SameStoredKeys(batches, events, threshold) {
        StableBatching(batches, threshold);
      }
    }
    if BatchingIndependent(events, threshold) {
      SingletonsFlatten(events);
      assert SameStoredKeys(Map(Alone, events), events, threshold);
      forall e | e in events && e.siteId != "" && Accepted(e, threshold)
        ensures Stores(events, KeyOf(e), threshold)
      {
        SingletonsStoreAllAccepted(events, KeyOf(e), threshold);
      }
    }
  }

  lemma StableBatching(batches: seq<seq<Event>>, threshold: int)
    requires Stable(Flatten(batches), threshold)
    ensures SameStoredKeys(batches, Flatten(batches), threshold)
  {
    forall k ensures StoredByAll(batches, threshold)(k) <==> Stores(Flatten(batches), k, threshold) {
      EveryBatchingIsSandwiched(batches, k, threshold);
    }
  }

  // The fields the filters and the grouping read agree between variants.
  ghost predicate VariantsAgree(events: seq<Event>) {
    forall a, b :: a in events && b in events && KeyOf(a) == KeyOf(b) ==>
      a.siteId == b.siteId && a.rssi == b.rssi && a.statusCode == b.statusCode
  }

  lemma AgreedVariantIsStored(events: seq<Event>, e: Event, threshold: int)
    requires VariantsAgree(events) && e in events && e.siteId != "" && Accepted(e, threshold)
    ensures StoresAt(events, e.siteId, KeyOf(e), threshold)
  {
    var group, k := SiteGroup(events, e.siteId), KeyOf(e);
    GroupMembers(events, e.siteId);
    FilterMember(AtSite(e.siteId), events, e);
    FilterMember(HasKey(k), group, e);
    KeyHasVariants(group, k);
    VariantOfRepresentative(group, k);
    var v :| v in group && KeyOf(v) == k && Representative(group, k) == Strip(v);
    assert v in events && v.etype == e.etype;
  }

  lemma AgreeingVariantsAreStable(events: seq<Event>, threshold: int)
    requires VariantsAgree(events)
    ensures Stable(events, threshold)
  {
    forall e | e in events && e.siteId != "" && Accepted(e, threshold)
      ensures Stores(events, KeyOf(e), threshold)
    {
      AgreedVariantIsStored(events, e, threshold);
    }
  }

  // ---- replay --------------------------------------------------------------------------

  // Collecting the same batches again inserts nothing, whatever is in them.
  lemma ReplayOfSameBatches(t0: Table, t1: Table, t2: Table, batches: seq<seq<Event>>, threshold: int)
    requires Extends(t0, t1, StoredByAll(batches, threshold))
    requires Extends(t1, t2, StoredByAll(batches, threshold))
    ensures t2 == t1
  {
    var p := StoredByAll(batches, threshold);
    ExtendsAgain(t0, t1, t2, p, p);
  }

  lemma NothingNewNothingCounted(t: Table, counts: map<string, nat>, counts': map<string, nat>)
    requires CountedBySite(t, counts, t, counts')
    ensures forall s :: CountAt(counts', s) == CountAt(counts, s)
  {
    forall s ensures NewAt(t, t, s) == {} {
    }
  }

  // Collecting the same events again, cut up differently, inserts nothing and counts nothing.
  lemma ReplayInsertsNothing(
    t0: Table, t1: Table, t2: Table, first: seq<seq<Event>>, second: seq<seq<Event>>, threshold: int,
    counts: map<string, nat>, counts': map<string, nat>)
    requires Flatten(first) == Flatten(second) && Stable(Flatten(first), threshold)
    requires Extends(t0, t1, StoredByAll(first, threshold))
    requires Extends(t1, t2, StoredByAll(second, threshold)) && CountedBySite(t1, counts, t2, counts')
    ensures t2 == t1 && forall s :: CountAt(counts', s) == CountAt(counts, s)
  {
    var p, q := StoredByAll(first, threshold), StoredByAll(second, threshold);
    StableBatching(first, threshold);
    StableBatching(second, threshold);
    forall k ensures q(k) ==> p(k) {
      assert p(k) <==> Stores(Flatten(first), k, threshold);
    }
    ExtendsAgain(t0, t1, t2, p, q);
    NothingNewNothingCounted(t1, counts, counts');
  }

  // And if the stream is not stable, some key is inserted by a replay: one batch misses it,
  // single-event batches store it.
  lemma UnstableReplayInserts(events: seq<Event>, threshold: int) returns (k: Key)
    requires !Stable(events, threshold)
    ensures Flatten([events]) == events == Flatten(Map(Alone, events))
    ensures !Stores(events, k, threshold) && StoredByAll(Map(Alone, events), threshold)(k)
  {
    var e :| e in events && e.siteId != "" && Accepted(e, threshold) && !Stores(events, KeyOf(e), threshold);
    k := KeyOf(e);
    SingletonsFlatten(events);
    SingletonsStoreAllAccepted(events, k, threshold);
    assert [events][..0] == [];
  }

  // Such streams exist: a weak first variant hides a strong second one in the same batch.
  lemma WeakVariantHidesStrongOne(weak: Event, strong: Event)
    requires weak.etype == ClientDnsOk && weak.rssi == Some(-95) && weak.hasPcap == None
    requires strong == weak.(rssi := Some(-50)) && weak.siteId != ""
    ensures !Stable([weak, strong], -87)
  {
    var events, k, site := [weak, strong], KeyOf(weak), weak.siteId;
    assert Accepted(strong, -87) && strong in events;
    TwinGroup(weak, strong);
    assert !Accepted(Strip(weak), -87);
    forall s ensures !StoresAt(events, s, k, -87) {
      if s != site {
        TwinsAtOtherSites(weak, strong, s);
      }
    }
  }

  lemma TwinsAtOtherSites(a: Event, b: Event, s: string)
    requires a.siteId != s && b.siteId != s
    ensures SiteGroup([a, b], s) == []
  {
    assert [a, b] == [a] + [b];
    FilterConcat(AtSite(s), [a], [b]);
    FilterSingleton(AtSite(s), a);
    FilterSingleton(AtSite(s), b);
  }

  lemma BothKept<T>(p: T -> bool, a: T, b: T)
    requires p(a) && p(b)
    ensures Filter(p, [a, b]) == [a, b]
  {
    FilterAll(p, [a, b]);
  }

  lemma BestOfTwo(a: Event, b: Event)
    requires !HasCapture(b)
    ensures Best([a, b]) == a
  {
    assert [a, b][..1] == [a] && [a][..0] == [];
    assert Best([a]) == a;
  }

  lemma TwinGroup(a: Event, b: Event)
    requires KeyOf(a) == KeyOf(b) && a.siteId == b.siteId && !HasCapture(b)
    ensures SiteGroup([a, b], a.siteId) == [a, b]
    ensures Representative([a, b], KeyOf(a)) == Strip(a)
  {
    BothKept(AtSite(a.siteId), a, b);
    BothKept(HasKey(KeyOf(a)), a, b);
    BestOfTwo(a, b);
  }

  // ---- what the detectors read ------------------------------------------------------------

  // Nothing ignored is ever in the table, so on stored events the stuck-loop detector is the
  // one criterion of PassesCollapse.
  lemma StuckLoopOnStoredEvents(rows: Table, rssi: int, events: seq<Event>, minEvents: int, threshold: real)
    requires AllFit(rows, rssi)
    requires forall e :: e in events ==> KeyOf(e) in rows && rows[KeyOf(e)].event == e
    ensures Detected(events, minEvents, threshold) <==>
      |events| >= minEvents && FailureShareReaches(LoopPairs(events), threshold)
  {
    forall e | e in events ensures !Ignored(e.etype) {
      assert RowFits(KeyOf(e), rows[KeyOf(e)], rssi);
    }
    PassesCollapse(events, minEvents, threshold);
  }
}

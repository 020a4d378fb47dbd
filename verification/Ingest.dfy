// Streaming collection: pages are buffered into batches, each batch is grouped by site,
// deduplicated, filtered and inserted into a table that ignores keys it already has.
module Ingest {
  import opened Vocabulary
  import opened Sequences
  import opened Dedup

  // The UNIQUE columns are the dedup key; the site is not among them.
  datatype Row = Row(site: string, event: Event, category: Category)

  predicate TransmissionFailure(e: Event) {
    && (e.etype == ClientAuthFailure || e.etype == ClientMacAuthFailure)
    && (e.statusCode == Some(79) || e.statusCode == Some(-79))
  }

  predicate WeakSignal(e: Event, threshold: int) {
    e.rssi.Some? && e.rssi.value < threshold
  }

  // The filter's branches, in the order it tries them.
  datatype Fate = Dropped | Transmission | Weak | Kept

  function FateOf(e: Event, threshold: int): Fate {
    if Ignored(e.etype) then Dropped
    else if TransmissionFailure(e) then Transmission
    else if WeakSignal(e, threshold) then Weak
    else Kept
  }

  function Meets(fate: Fate, threshold: int): Event -> bool {
    (e: Event) => FateOf(e, threshold) == fate
  }

  predicate Accepted(e: Event, threshold: int) {
    FateOf(e, threshold) == Kept
  }

  ghost predicate Filtered(enriched: seq<Event>, transmissionSkipped: nat, weakSkipped: nat, read: seq<Event>, threshold: int) {
    && enriched == Filter(Meets(Kept, threshold), read)
    && transmissionSkipped == Count(Meets(Transmission, threshold), read)
    && weakSkipped == Count(Meets(Weak, threshold), read)
  }

  lemma FilteredStep(enriched: seq<Event>, transmissionSkipped: nat, weakSkipped: nat, read: seq<Event>, threshold: int, e: Event)
    requires Filtered(enriched, transmissionSkipped, weakSkipped, read, threshold)
    ensures var fate := FateOf(e, threshold);
      Filtered(
        if fate == Kept then enriched + [e] else enriched,
        if fate == Transmission then transmissionSkipped + 1 else transmissionSkipped,
        if fate == Weak then weakSkipped + 1 else weakSkipped, read + [e], threshold)
  {
    FilterAppend(Meets(Kept, threshold), read, e);
    CountAppend(Meets(Transmission, threshold), read, e);
    CountAppend(Meets(Weak, threshold), read, e);
    assert enriched + [] == enriched;
  }

  method FilterEvents(unique: seq<Event>, threshold: int)
    returns (enriched: seq<Event>, transmissionSkipped: nat, weakSkipped: nat)
    ensures Filtered(enriched, transmissionSkipped, weakSkipped, unique, threshold)
  {
    enriched, transmissionSkipped, weakSkipped := [], 0, 0;
    for i := 0 to |unique|
      invariant Filtered(enriched, transmissionSkipped, weakSkipped, unique[..i], threshold)
    {
      var e := unique[i];
      FilteredStep(enriched, transmissionSkipped, weakSkipped, unique[..i], threshold, e);
      assert unique[..i + 1] == unique[..i] + [e];
      if Ignored(e.etype) {
      } else if TransmissionFailure(e) {
        transmissionSkipped := transmissionSkipped + 1;
      } else if WeakSignal(e, threshold) {
        weakSkipped := weakSkipped + 1;
      } else {
        enriched := enriched + [e];
      }
    }
    assert unique[..|unique|] == unique;
  }

  // Deduplicate, then filter. Every deduplicated event is kept, counted as skipped, or ignored.
  method EnrichBatch(events: seq<Event>, threshold: int)
    returns (enriched: seq<Event>, transmissionSkipped: nat, weakSkipped: nat)
    ensures enriched == Filter(Meets(Kept, threshold), Deduplicated(events))
    ensures forall e :: e in enriched <==> e in Deduplicated(events) && Passes(e, threshold)
    ensures transmissionSkipped == Count(LostInTransit(), Deduplicated(events))
    ensures weakSkipped == Count(TooWeak(threshold), Deduplicated(events))
    ensures |Keys(events)| ==
      |enriched| + transmissionSkipped + weakSkipped + Count(Meets(Dropped, threshold), Deduplicated(events))
  {
    var unique := DedupEvents(events);
    enriched, transmissionSkipped, weakSkipped := FilterEvents(unique, threshold);
    FatesPartition(unique, threshold);
    FatesByField(unique, threshold);
  }

  // What an event must be like to be kept, field by field ...
  predicate Passes(e: Event, threshold: int) {
    && e.etype !in {Dhcpv6Nak, Dhcpv6Failure, Dhcpv6Stuck}
    && (e.etype in {ClientAuthFailure, ClientMacAuthFailure} ==> e.statusCode !in {Some(79), Some(-79)})
    && (e.rssi.None? || e.rssi.value >= threshold)
  }

  // ... to be counted as a transmission failure ...
  function LostInTransit(): Event -> bool {
    (e: Event) => e.etype in {ClientAuthFailure, ClientMacAuthFailure} && e.statusCode in {Some(79), Some(-79)}
  }

  // ... or as too weak.
  function TooWeak(threshold: int): Event -> bool {
    (e: Event) =>
      && e.etype !in {Dhcpv6Nak, Dhcpv6Failure, Dhcpv6Stuck} && !LostInTransit()(e)
      && e.rssi.Some? && e.rssi.value < threshold
  }

  lemma FateByField(e: Event, threshold: int)
    ensures Meets(Kept, threshold)(e) <==> Passes(e, threshold)
    ensures Meets(Transmission, threshold)(e) <==> LostInTransit()(e)
    ensures Meets(Weak, threshold)(e) <==> TooWeak(threshold)(e)
    ensures Accepted(e, threshold) <==> Passes(e, threshold)
  {
  }

  lemma FatesByField(unique: seq<Event>, threshold: int)
    ensures forall e :: e in Filter(Meets(Kept, threshold), unique) <==> e in unique && Passes(e, threshold)
    ensures Count(Meets(Transmission, threshold), unique) == Count(LostInTransit(), unique)
    ensures Count(Meets(Weak, threshold), unique) == Count(TooWeak(threshold), unique)
  {
    forall e
      ensures e in Filter(Meets(Kept, threshold), unique) <==> e in unique && Passes(e, threshold)
      ensures Meets(Transmission, threshold)(e) <==> LostInTransit()(e)
      ensures Meets(Weak, threshold)(e) <==> TooWeak(threshold)(e)
    {
      FilterMember(Meets(Kept, threshold), unique, e);
      FateByField(e, threshold);
    }
    CountSame(Meets(Transmission, threshold), LostInTransit(), unique);
    CountSame(Meets(Weak, threshold), TooWeak(threshold), unique);
  }

  lemma {:induction false} FatesPartition(unique: seq<Event>, threshold: int)
    ensures |unique| == |Filter(Meets(Kept, threshold), unique)| + Count(Meets(Transmission, threshold), unique)
                        + Count(Meets(Weak, threshold), unique) + Count(Meets(Dropped, threshold), unique)
  {
    if unique != [] {
      FatesPartition(unique[..|unique| - 1], threshold);
    }
  }

  function AtSite(site: string): Event -> bool {
    (e: Event) => e.siteId == site
  }

  function SiteGroup(events: seq<Event>, site: string): seq<Event> {
    Filter(AtSite(site), events)
  }

  // A batch leads to a row for k when, in some site's part of it, the variant that dedup
  // prefers passes the filters.
  ghost predicate StoresAt(batch: seq<Event>, site: string, k: Key, threshold: int) {
    var group := SiteGroup(batch, site);
    site != "" && k in Keys(group) && Accepted(Representative(group, k), threshold)
  }

  ghost predicate Stores(batch: seq<Event>, k: Key, threshold: int) {
    exists site :: StoresAt(batch, site, k, threshold)
  }

  ghost predicate AnyStores(batches: seq<seq<Event>>, n: nat, k: Key, threshold: int) {
    exists b :: 0 <= b < n && b < |batches| && Stores(batches[b], k, threshold)
  }

  ghost predicate RowFits(k: Key, row: Row, threshold: int) {
    && KeyOf(row.event) == k
    && row.category == CategoryOf(row.event.etype)
    && Passes(row.event, threshold)
    && row.site == row.event.siteId != ""
    && row.event.pcapUrl == None
  }

  type Table = map<Key, Row>

  // The table keeps its rows and gains rows exactly for the keys in `gained`.
  ghost predicate Extends<K(!new), V>(before: map<K, V>, after: map<K, V>, gained: K -> bool) {
    && (forall k :: k in after <==> k in before || gained(k))
    && forall k :: k in before ==> k in after && after[k] == before[k]
  }

  // Nothing is gained a second time.
  lemma ExtendsAgain<K(!new), V>(a: map<K, V>, b: map<K, V>, c: map<K, V>, p: K -> bool, q: K -> bool)
    requires Extends(a, b, p) && Extends(b, c, q)
    requires forall k :: q(k) ==> p(k)
    ensures c == b
  {
    forall k ensures k in c <==> k in b {
    }
  }

  ghost predicate AllFit(rows: Table, threshold: int) {
    forall k :: k in rows ==> RowFits(k, rows[k], threshold)
  }

  // The keys the first n batches lead to.
  ghost function StoredByFirst(batches: seq<seq<Event>>, n: nat, threshold: int): Key -> bool {
    (k: Key) => AnyStores(batches, n, k, threshold)
  }

  ghost function StoredByAll(batches: seq<seq<Event>>, threshold: int): Key -> bool {
    StoredByFirst(batches, |batches|, threshold)
  }

  // ---- which row a new key gets ---------------------------------------------------------

  // The table keeps its rows, and a new key gets the row on offer for it.
  ghost predicate Filled<K(!new), V>(before: map<K, V>, after: map<K, V>, offer: K -> Option<V>) {
    && (forall k :: k in after <==> k in before || offer(k).Some?)
    && (forall k :: k in before ==> k in after && after[k] == before[k])
    && forall k :: k in after && k !in before ==> offer(k) == Some(after[k])
  }

  function FirstOf<K, V>(p: K -> Option<V>, q: K -> Option<V>): K -> Option<V> {
    (k: K) => if p(k).Some? then p(k) else q(k)
  }

  // Of several offers the earliest one stands.
  function FirstOffer<K, V>(offers: seq<K -> Option<V>>): K -> Option<V> {
    if offers == [] then (k: K) => None else
    FirstOf(FirstOffer(offers[..|offers| - 1]), offers[|offers| - 1])
  }

  lemma FilledThen<K(!new), V>(a: map<K, V>, b: map<K, V>, c: map<K, V>, p: K -> Option<V>, q: K -> Option<V>)
    requires Filled(a, b, p) && Filled(b, c, q)
    ensures Filled(a, c, FirstOf(p, q))
  {
  }

  lemma SameOffer<K(!new), V>(a: map<K, V>, b: map<K, V>, p: K -> Option<V>, q: K -> Option<V>)
    requires Filled(a, b, p) && forall k :: p(k) == q(k)
    ensures Filled(a, b, q)
  {
  }

  lemma FilledExtends<K(!new), V>(a: map<K, V>, b: map<K, V>, offer: K -> Option<V>, gained: K -> bool)
    requires Filled(a, b, offer) && forall k :: offer(k).Some? <==> gained(k)
    ensures Extends(a, b, gained)
  {
  }

  // One more piece of work after the first i, filling the table in turn.
  lemma FilledStep<T, K(!new), V>(a: map<K, V>, b: map<K, V>, c: map<K, V>, offer: T -> K -> Option<V>, items: seq<T>, i: nat)
    requires i < |items| && Filled(a, b, FirstOffer(Map(offer, items[..i]))) && Filled(b, c, offer(items[i]))
    ensures Filled(a, c, FirstOffer(Map(offer, items[..i + 1])))
  {
    assert Map(offer, items[..i + 1])[..i] == Map(offer, items[..i]);
    FilledThen(a, b, c, FirstOffer(Map(offer, items[..i])), offer(items[i]));
  }

  // The offer that stands is the first item's that makes one.
  ghost predicate StandsAt<T, K, V>(offer: T -> K -> Option<V>, items: seq<T>, k: K, i: nat) {
    && i < |items| && offer(items[i])(k).Some? && FirstOffer(Map(offer, items))(k) == offer(items[i])(k)
    && forall j :: 0 <= j < i ==> offer(items[j])(k).None?
  }

  lemma {:induction false} FirstOfferStands<T, K, V>(offer: T -> K -> Option<V>, items: seq<T>, k: K)
    ensures FirstOffer(Map(offer, items))(k).Some? ==> exists i: nat :: StandsAt(offer, items, k, i)
    ensures FirstOffer(Map(offer, items))(k).None? ==> forall j :: 0 <= j < |items| ==> offer(items[j])(k).None?
  {
    if items != [] {
      var init, last := items[..|items| - 1], items[|items| - 1];
      assert Map(offer, items)[..|items| - 1] == Map(offer, init);
      FirstOfferStands(offer, init, k);
      if FirstOffer(Map(offer, init))(k).Some? {
        var i: nat :| StandsAt(offer, init, k, i);
        assert StandsAt(offer, items, k, i);
      } else if offer(last)(k).Some? {
        assert StandsAt(offer, items, k, |init|);
      }
    }
  }

  lemma AnyOfferCounts<T, K, V>(offer: T -> K -> Option<V>, items: seq<T>, k: K, i: nat)
    requires i < |items| && offer(items[i])(k).Some?
    ensures FirstOffer(Map(offer, items))(k).Some?
  {
    FirstOfferStands(offer, items, k);
  }

  function EventOffer(site: string): Event -> Key -> Option<Row> {
    (e: Event) => (k: Key) => if k == KeyOf(e) then Some(Row(site, e, CategoryOf(e.etype))) else None
  }

  // The row a site's part of a batch has for k: that of the variant dedup prefers.
  ghost function RowAt(batch: seq<Event>, site: string, k: Key): Row {
    var e := Representative(SiteGroup(batch, site), k);
    Row(site, e, CategoryOf(e.etype))
  }

  ghost function SiteOffer(batch: seq<Event>, threshold: int): string -> Key -> Option<Row> {
    (site: string) => (k: Key) => if StoresAt(batch, site, k, threshold) then Some(RowAt(batch, site, k)) else None
  }

  ghost function BatchOffer(threshold: int): seq<Event> -> Key -> Option<Row> {
    (batch: seq<Event>) => FirstOffer(Map(SiteOffer(batch, threshold), SitesOf(batch)))
  }

  // ---- grouping by site -----------------------------------------------------------------

  function SiteIdOf(e: Event): string { e.siteId }

  predicate NonEmpty(site: string) { site != "" }

  // The sites of a batch, in order of appearance.
  function SitesOf(batch: seq<Event>): seq<string> {
    Distinct(Filter(NonEmpty, Map(SiteIdOf, batch)))
  }

  lemma SitesStep(batch: seq<Event>, e: Event)
    ensures SitesOf(batch + [e]) == SitesOf(batch) + if e.siteId != "" && e.siteId !in SitesOf(batch) then [e.siteId] else []
  {
    var named := Filter(NonEmpty, Map(SiteIdOf, batch));
    assert Map(SiteIdOf, batch + [e]) == Map(SiteIdOf, batch) + [e.siteId];
    FilterAppend(NonEmpty, Map(SiteIdOf, batch), e.siteId);
    DistinctMembers(named);
    assert (named + [e.siteId])[..|named|] == named && named + [] == named;
  }

  lemma GroupStep(batch: seq<Event>, e: Event, site: string)
    ensures SiteGroup(batch + [e], site) == SiteGroup(batch, site) + if e.siteId == site then [e] else []
  {
    FilterAppend(AtSite(site), batch, e);
  }

  lemma SitesAreNonEmptyGroups(batch: seq<Event>, site: string)
    ensures site in SitesOf(batch) <==> site != "" && SiteGroup(batch, site) != []
  {
    var names := Map(SiteIdOf, batch);
    DistinctMembers(Filter(NonEmpty, names));
    FilterMember(NonEmpty, names, site);
    if site in names {
      var i :| 0 <= i < |batch| && names[i] == site;
      FilterMember(AtSite(site), batch, batch[i]);
    }
    if SiteGroup(batch, site) != [] {
      var e := SiteGroup(batch, site)[0];
      FilterMember(AtSite(site), batch, e);
      var i :| 0 <= i < |batch| && batch[i] == e;
      assert names[i] == site;
    }
  }

  // Each non-empty site that occurs has its events, in order.
  ghost predicate GroupsOf(groups: map<string, seq<Event>>, batch: seq<Event>) {
    && (forall s :: s in groups <==> s != "" && SiteGroup(batch, s) != [])
    && forall s :: s in groups ==> groups[s] == SiteGroup(batch, s)
  }

  // setdefault, then append.
  function AddToGroups(groups: map<string, seq<Event>>, e: Event): map<string, seq<Event>> {
    if e.siteId == "" then groups
    else groups[e.siteId := (if e.siteId in groups then groups[e.siteId] else []) + [e]]
  }

  lemma GroupsStep(groups: map<string, seq<Event>>, batch: seq<Event>, e: Event)
    requires GroupsOf(groups, batch)
    ensures GroupsOf(AddToGroups(groups, e), batch + [e])
  {
    forall s
      ensures s in AddToGroups(groups, e) <==> s != "" && SiteGroup(batch + [e], s) != []
      ensures s in AddToGroups(groups, e) ==> AddToGroups(groups, e)[s] == SiteGroup(batch + [e], s)
    {
      GroupStep(batch, e, s);
    }
  }

  // Some event names site x, and none before it names y.
  ghost predicate NamedBefore(batch: seq<Event>, x: string, y: string) {
    exists a :: 0 <= a < |batch| && batch[a].siteId == x && forall b :: 0 <= b <= a ==> batch[b].siteId != y
  }

  lemma {:induction false} SitesAppearInOrder(batch: seq<Event>, i: nat, j: nat)
    requires i < j < |SitesOf(batch)|
    ensures NamedBefore(batch, SitesOf(batch)[i], SitesOf(batch)[j])
  {
    if batch != [] {
      var init, last := batch[..|batch| - 1], batch[|batch| - 1];
      assert batch == init + [last];
      SitesStep(init, last);
      if j < |SitesOf(init)| {
        SitesAppearInOrder(init, i, j);
        var a :| 0 <= a < |init| && init[a].siteId == SitesOf(init)[i]
          && forall b :: 0 <= b <= a ==> init[b].siteId != SitesOf(init)[j];
        assert batch[a] == init[a];
      } else {
        NewSiteIsNamedLast(init, last, SitesOf(init)[i]);
      }
    }
  }

  lemma NewSiteIsNamedLast(init: seq<Event>, last: Event, site: string)
    requires site in SitesOf(init) && last.siteId != "" && last.siteId !in SitesOf(init)
    ensures NamedBefore(init + [last], site, last.siteId)
  {
    SitesAreNonEmptyGroups(init, site);
    SitesAreNonEmptyGroups(init, last.siteId);
    var e := SiteGroup(init, site)[0];
    FilterMember(AtSite(site), init, e);
    var a :| 0 <= a < |init| && init[a] == e;
    assert (init + [last])[a] == e;
    forall b | 0 <= b <= a ensures (init + [last])[b].siteId != last.siteId {
      FilterMember(AtSite(last.siteId), init, init[b]);
    }
  }

  // A site is met just when some event names it; sites come in the order they are first named.
  ghost predicate OrderOfAppearance(order: seq<string>, batch: seq<Event>) {
    && (forall s :: s in order <==> s != "" && exists e :: e in batch && e.siteId == s)
    && forall i, j :: 0 <= i < j < |order| ==> NamedBefore(batch, order[i], order[j])
  }

  lemma SitesByField(batch: seq<Event>)
    ensures OrderOfAppearance(SitesOf(batch), batch)
  {
    forall s ensures s in SitesOf(batch) <==> s != "" && exists e :: e in batch && e.siteId == s {
      SitesAreNonEmptyGroups(batch, s);
      if e :| e in batch && e.siteId == s {
        FilterMember(AtSite(s), batch, e);
      }
      if SiteGroup(batch, s) != [] {
        FilterMember(AtSite(s), batch, SiteGroup(batch, s)[0]);
      }
    }
    forall i, j | 0 <= i < j < |SitesOf(batch)| ensures NamedBefore(batch, SitesOf(batch)[i], SitesOf(batch)[j]) {
      SitesAppearInOrder(batch, i, j);
    }
  }

  // Each group holds the site's events and no others; GroupsOf says in which order.
  ghost predicate GroupsByField(groups: map<string, seq<Event>>, batch: seq<Event>) {
    forall s, e :: s in groups ==> (e in groups[s] <==> e in batch && e.siteId == s)
  }

  // Grouping by site, in order of appearance; events without a site are dropped.
  method GroupBySite(batch: seq<Event>) returns (order: seq<string>, groups: map<string, seq<Event>>)
    ensures order == SitesOf(batch) && GroupsOf(groups, batch)
    ensures forall s :: s in order <==> s in groups
    ensures OrderOfAppearance(order, batch) && GroupsByField(groups, batch)
  {
    SitesByField(batch);
    order, groups := [], map[];
    for i := 0 to |batch|
      invariant order == SitesOf(batch[..i]) && GroupsOf(groups, batch[..i])
    {
      var e := batch[i];
      assert batch[..i + 1] == batch[..i] + [e];
      SitesStep(batch[..i], e);
      SitesAreNonEmptyGroups(batch[..i], e.siteId);
      GroupsStep(groups, batch[..i], e);
      order := order + if e.siteId != "" && e.siteId !in groups then [e.siteId] else [];
      groups := AddToGroups(groups, e);
    }
    assert batch[..|batch|] == batch;
    forall s ensures s in order <==> s in groups {
      SitesAreNonEmptyGroups(batch, s);
    }
    forall s, e | s in groups ensures e in groups[s] <==> e in batch && e.siteId == s {
      FilterMember(AtSite(s), batch, e);
    }
  }

  // The keys that gained a row under this site.
  ghost function NewAt(before: Table, after: Table, site: string): set<Key> {
    set k | k in after && k !in before && after[k].site == site
  }

  function CountAt(counts: map<string, nat>, site: string): nat {
    if site in counts then counts[site] else 0
  }

  // Every site's count grew by the number of its new rows.
  ghost predicate CountedBySite(before: Table, countsBefore: map<string, nat>, after: Table, counts: map<string, nat>) {
    && (forall k :: k in before ==> k in after && after[k] == before[k])
    && forall s :: CountAt(counts, s) == CountAt(countsBefore, s) + |NewAt(before, after, s)|
  }

  lemma NothingCounted(rows: Table, counts: map<string, nat>)
    ensures CountedBySite(rows, counts, rows, counts)
  {
    forall s ensures NewAt(rows, rows, s) == {} {
    }
  }

  lemma CountedThen(a: Table, ca: map<string, nat>, b: Table, cb: map<string, nat>, c: Table, cc: map<string, nat>)
    requires CountedBySite(a, ca, b, cb) && CountedBySite(b, cb, c, cc)
    ensures CountedBySite(a, ca, c, cc)
  {
    forall s ensures |NewAt(a, c, s)| == |NewAt(a, b, s)| + |NewAt(b, c, s)| {
      assert NewAt(a, c, s) == NewAt(a, b, s) + NewAt(b, c, s);
      assert NewAt(a, b, s) !! NewAt(b, c, s);
    }
  }

  lemma NewKeysOfGrowth(before: Table, after: Table)
    requires forall k :: k in before ==> k in after
    ensures |after| == |before| + |after.Keys - before.Keys|
  {
    assert after.Keys == before.Keys + (after.Keys - before.Keys);
    assert |after| == |after.Keys| && |before| == |before.Keys|;
  }

  // Work that gives every new key a row of the one site.
  ghost predicate GrowsAt(before: Table, after: Table, site: string) {
    && (forall k :: k in before ==> k in after && after[k] == before[k])
    && forall k :: k in after && k !in before ==> after[k].site == site
  }

  lemma NewAtTheSite(before: Table, after: Table, site: string)
    requires GrowsAt(before, after, site)
    ensures |after| == |before| + |NewAt(before, after, site)|
  {
    NewKeysOfGrowth(before, after);
    assert NewAt(before, after, site) == after.Keys - before.Keys;
  }

  lemma NewAtNoOther(before: Table, after: Table, site: string, other: string)
    requires GrowsAt(before, after, site) && other != site
    ensures NewAt(before, after, other) == {}
  {
  }

  lemma CountedForSite(before: Table, after: Table, counts: map<string, nat>, next: map<string, nat>, site: string, written: nat)
    requires GrowsAt(before, after, site) && |after| == |before| + written
    requires forall s :: CountAt(next, s) == CountAt(counts, s) + if s == site then written else 0
    ensures CountedBySite(before, counts, after, next)
  {
    NewAtTheSite(before, after, site);
    forall s ensures CountAt(next, s) == CountAt(counts, s) + |NewAt(before, after, s)| {
      if s != site {
        NewAtNoOther(before, after, site, s);
      }
    }
  }

  lemma SiteOfferStaysAtSite(before: Table, after: Table, batch: seq<Event>, threshold: int, site: string)
    requires Filled(before, after, SiteOffer(batch, threshold)(site))
    ensures GrowsAt(before, after, site)
  {
    forall k | k in after && k !in before ensures after[k].site == site {
      assert SiteOffer(batch, threshold)(site)(k) == Some(after[k]);
    }
  }

  // New keys get the row on offer, each counted for its site.
  ghost predicate Flushed(before: Table, countsBefore: map<string, nat>, after: Table, counts: map<string, nat>,
    offer: Key -> Option<Row>)
  {
    Filled(before, after, offer) && CountedBySite(before, countsBefore, after, counts)
  }

  lemma FlushedStep<T>(a: Table, ca: map<string, nat>, b: Table, cb: map<string, nat>, c: Table, cc: map<string, nat>,
      offer: T -> Key -> Option<Row>, items: seq<T>, i: nat)
    requires i < |items| && Flushed(a, ca, b, cb, FirstOffer(Map(offer, items[..i]))) && Flushed(b, cb, c, cc, offer(items[i]))
    ensures Flushed(a, ca, c, cc, FirstOffer(Map(offer, items[..i + 1])))
  {
    FilledStep(a, b, c, offer, items, i);
    CountedThen(a, ca, b, cb, c, cc);
  }

  lemma NothingFlushed<T>(rows: Table, counts: map<string, nat>, offer: T -> Key -> Option<Row>, items: seq<T>)
    ensures Flushed(rows, counts, rows, counts, FirstOffer(Map(offer, items[..0])))
  {
    NothingCounted(rows, counts);
  }

  class Collector {
    const threshold: int
    var rows: Table
    var siteCounts: map<string, nat>

    constructor (threshold: int, rows: Table)
      ensures this.threshold == threshold && this.rows == rows && siteCounts == map[]
    {
      this.threshold := threshold;
      this.rows := rows;
      siteCounts := map[];
    }

    // INSERT OR IGNORE of one row.
    method InsertRow(e: Event, site: string) returns (inserted: nat)
      modifies this`rows
      ensures Filled(old(rows), rows, EventOffer(site)(e))
      ensures |rows| == |old(rows)| + inserted
    {
      inserted := 0;
      if KeyOf(e) !in rows {
        rows := rows[KeyOf(e) := Row(site, e, CategoryOf(e.etype))];
        inserted := 1;
      }
    }

    // Row by row; the result is the number of rows that went in.
    method InsertEvents(events: seq<Event>, site: string) returns (inserted: nat)
      modifies this`rows
      ensures Filled(old(rows), rows, FirstOffer(Map(EventOffer(site), events)))
      ensures |rows| == |old(rows)| + inserted
    {
      inserted := 0;
      for i := 0 to |events|
        invariant Filled(old(rows), rows, FirstOffer(Map(EventOffer(site), events[..i])))
        invariant |rows| == |old(rows)| + inserted
      {
        ghost var before := rows;
        var one := InsertRow(events[i], site);
        FilledStep(old(rows), before, rows, EventOffer(site), events, i);
        inserted := inserted + one;
      }
      assert events[..|events|] == events;
    }

    // What is left of a site's part of a batch goes in; the result is the growth.
    method EnrichAndInsert(batch: seq<Event>, site: string, group: seq<Event>) returns (written: nat)
      requires site != "" && group == SiteGroup(batch, site)
      modifies this`rows
      ensures Filled(old(rows), rows, SiteOffer(batch, threshold)(site))
      ensures |rows| == |old(rows)| + written
    {
      var enriched, transmissionSkipped, weakSkipped := EnrichBatch(group, threshold);
      written := InsertEvents(enriched, site);
      forall k ensures FirstOffer(Map(EventOffer(site), enriched))(k) == SiteOffer(batch, threshold)(site)(k) {
        EnrichedOffer(batch, site, k, threshold);
      }
      SameOffer(old(rows), rows, FirstOffer(Map(EventOffer(site), enriched)), SiteOffer(batch, threshold)(site));
    }

    method FlushSite(batch: seq<Event>, site: string, group: seq<Event>)
      requires site != "" && group == SiteGroup(batch, site)
      modifies this
      ensures Flushed(old(rows), old(siteCounts), rows, siteCounts, SiteOffer(batch, threshold)(site))
    {
      ghost var before := rows;
      var written := EnrichAndInsert(batch, site, group);
      ghost var counts := siteCounts;
      AddCount(site, written);
      SiteOfferStaysAtSite(before, rows, batch, threshold, site);
      CountedForSite(before, rows, counts, siteCounts, site, written);
    }

    method AddCount(site: string, written: nat)
      modifies this`siteCounts
      ensures forall s :: CountAt(siteCounts, s) == CountAt(old(siteCounts), s) + if s == site then written else 0
    {
      siteCounts := siteCounts[site := (if site in siteCounts then siteCounts[site] else 0) + written];
    }

    method FlushBatch(batch: seq<Event>)
      modifies this
      ensures Flushed(old(rows), old(siteCounts), rows, siteCounts, BatchOffer(threshold)(batch))
    {
      var order, groups := GroupBySite(batch);
      NothingFlushed(rows, siteCounts, SiteOffer(batch, threshold), order);
      for i := 0 to |order|
        invariant Flushed(old(rows), old(siteCounts), rows, siteCounts, FirstOffer(Map(SiteOffer(batch, threshold), order[..i])))
      {
        ghost var before, counts := rows, siteCounts;
        FlushSite(batch, order[i], groups[order[i]]);
        FlushedStep(old(rows), old(siteCounts), before, counts, rows, siteCounts, SiteOffer(batch, threshold), order, i);
      }
      assert order[..|order|] == order;
    }

    // The whole run. The batches are a ghost result: what the buffering made of the pages.
    method Collect(pages: seq<seq<Event>>, batchSize: nat) returns (ghost batches: seq<seq<Event>>)
      modifies this
      ensures Buffered(batches, pages, batchSize)
      ensures Flushed(old(rows), old(siteCounts), rows, siteCounts, FirstOffer(Map(BatchOffer(threshold), batches)))
      ensures Extends(old(rows), rows, StoredByAll(batches, threshold))
      ensures AllFit(old(rows), threshold) ==> AllFit(rows, threshold)
    {
      var all := Batches(pages, batchSize);
      batches := all;
      NothingFlushed(rows, siteCounts, BatchOffer(threshold), all);
      for b := 0 to |all|
        invariant Flushed(old(rows), old(siteCounts), rows, siteCounts, FirstOffer(Map(BatchOffer(threshold), all[..b])))
      {
        ghost var before, counts := rows, siteCounts;
        FlushBatch(all[b]);
        FlushedStep(old(rows), old(siteCounts), before, counts, rows, siteCounts, BatchOffer(threshold), all, b);
      }
      assert all[..|all|] == all;
      CollectedKeys(old(rows), rows, all, threshold);
      CollectedRowsFit(old(rows), rows, all, threshold);
    }
  }

  // ---- what the offers are --------------------------------------------------------------

  // Among the sites of a batch that store k, in order of appearance, site number i is the first.
  ghost predicate FirstSiteStoring(batch: seq<Event>, k: Key, threshold: int, i: nat) {
    && i < |SitesOf(batch)| && StoresAt(batch, SitesOf(batch)[i], k, threshold)
    && forall j :: 0 <= j < i ==> !StoresAt(batch, SitesOf(batch)[j], k, threshold)
  }

  lemma StoringSiteMakesOffer(batch: seq<Event>, site: string, k: Key, threshold: int)
    requires StoresAt(batch, site, k, threshold)
    ensures BatchOffer(threshold)(batch)(k).Some?
  {
    KeyHasVariants(SiteGroup(batch, site), k);
    SitesAreNonEmptyGroups(batch, site);
    var j :| 0 <= j < |SitesOf(batch)| && SitesOf(batch)[j] == site;
    AnyOfferCounts(SiteOffer(batch, threshold), SitesOf(batch), k, j);
  }

  ghost predicate OffersRowOfFirstSite(batch: seq<Event>, k: Key, threshold: int, i: nat) {
    && FirstSiteStoring(batch, k, threshold, i)
    && BatchOffer(threshold)(batch)(k) == Some(RowAt(batch, SitesOf(batch)[i], k))
  }

  // A batch offers a row exactly for the keys it stores: the row of the first such site.
  lemma BatchOffersStored(batch: seq<Event>, k: Key, threshold: int)
    ensures BatchOffer(threshold)(batch)(k).Some? <==> Stores(batch, k, threshold)
    ensures Stores(batch, k, threshold) ==> exists i: nat :: OffersRowOfFirstSite(batch, k, threshold, i)
  {
    var sites, offer := SitesOf(batch), SiteOffer(batch, threshold);
    if site :| StoresAt(batch, site, k, threshold) {
      StoringSiteMakesOffer(batch, site, k, threshold);
    }
    if BatchOffer(threshold)(batch)(k).Some? {
      FirstOfferStands(offer, sites, k);
      var i: nat :| StandsAt(offer, sites, k, i);
      assert StoresAt(batch, sites[i], k, threshold);
      assert OffersRowOfFirstSite(batch, k, threshold, i);
    }
  }

  // Batch number b is the first to store k, and its site number i the first of it to do so.
  ghost predicate FirstStoring(batches: seq<seq<Event>>, k: Key, threshold: int, b: nat, i: nat) {
    && b < |batches| && FirstSiteStoring(batches[b], k, threshold, i)
    && forall c :: 0 <= c < b ==> !Stores(batches[c], k, threshold)
  }

  ghost predicate OffersRowOfFirstBatch(batches: seq<seq<Event>>, k: Key, threshold: int, b: nat, i: nat) {
    && FirstStoring(batches, k, threshold, b, i)
    && FirstOffer(Map(BatchOffer(threshold), batches))(k) == Some(RowAt(batches[b], SitesOf(batches[b])[i], k))
  }

  // The row a collect gives a new key is that of the first site of the first batch storing it.
  lemma CollectedRow(batches: seq<seq<Event>>, k: Key, threshold: int)
    ensures FirstOffer(Map(BatchOffer(threshold), batches))(k).Some? <==> StoredByAll(batches, threshold)(k)
    ensures StoredByAll(batches, threshold)(k) ==>
      exists b: nat, i: nat :: OffersRowOfFirstBatch(batches, k, threshold, b, i)
  {
    var offer := BatchOffer(threshold);
    FirstOfferStands(offer, batches, k);
    forall c | 0 <= c < |batches| ensures offer(batches[c])(k).Some? <==> Stores(batches[c], k, threshold) {
      BatchOffersStored(batches[c], k, threshold);
    }
    if FirstOffer(Map(offer, batches))(k).Some? {
      var b: nat :| StandsAt(offer, batches, k, b);
      BatchOffersStored(batches[b], k, threshold);
      var i: nat :| OffersRowOfFirstSite(batches[b], k, threshold, i);
      assert OffersRowOfFirstBatch(batches, k, threshold, b, i);
    }
  }

  lemma CollectedKeys(before: Table, after: Table, batches: seq<seq<Event>>, threshold: int)
    requires Filled(before, after, FirstOffer(Map(BatchOffer(threshold), batches)))
    ensures Extends(before, after, StoredByAll(batches, threshold))
  {
    forall k ensures FirstOffer(Map(BatchOffer(threshold), batches))(k).Some? <==> StoredByAll(batches, threshold)(k) {
      CollectedRow(batches, k, threshold);
    }
    FilledExtends(before, after, FirstOffer(Map(BatchOffer(threshold), batches)), StoredByAll(batches, threshold));
  }

  lemma CollectedRowsFit(before: Table, after: Table, batches: seq<seq<Event>>, threshold: int)
    requires Filled(before, after, FirstOffer(Map(BatchOffer(threshold), batches)))
    ensures AllFit(before, threshold) ==> AllFit(after, threshold)
  {
    forall k | k in after && k !in before ensures RowFits(k, after[k], threshold) {
      CollectedRow(batches, k, threshold);
      var b: nat, i: nat :| OffersRowOfFirstBatch(batches, k, threshold, b, i);
      StoredRowFits(batches[b], SitesOf(batches[b])[i], k, threshold);
    }
  }

  // Such a row holds an event of the batch, without its capture URL, under the event's own site.
  lemma StoredRowFits(batch: seq<Event>, site: string, k: Key, threshold: int)
    requires StoresAt(batch, site, k, threshold)
    ensures RowFits(k, RowAt(batch, site, k), threshold)
    ensures exists v :: v in batch && v.siteId == site && KeyOf(v) == k && RowAt(batch, site, k).event == Strip(v)
  {
    VariantOfRepresentative(SiteGroup(batch, site), k);
    GroupMembers(batch, site);
    var v :| v in SiteGroup(batch, site) && KeyOf(v) == k && Representative(SiteGroup(batch, site), k) == Strip(v);
    assert v in batch;
    FateByField(Strip(v), threshold);
  }

  // Every row a collect adds holds an event of the collected stream.
  lemma NewRowsComeFromTheStream(before: Table, after: Table, batches: seq<seq<Event>>, threshold: int, k: Key)
    requires Filled(before, after, FirstOffer(Map(BatchOffer(threshold), batches)))
    requires k in after && k !in before
    ensures exists v :: v in Flatten(batches) && KeyOf(v) == k && after[k].event == Strip(v) && after[k].site == v.siteId
  {
    CollectedRow(batches, k, threshold);
    var b: nat, i: nat :| OffersRowOfFirstBatch(batches, k, threshold, b, i);
    StoredRowFits(batches[b], SitesOf(batches[b])[i], k, threshold);
    var v :| v in batches[b] && v.siteId == SitesOf(batches[b])[i] && KeyOf(v) == k && after[k].event == Strip(v);
    BatchMembers(batches, b, v);
  }

  lemma {:induction false} BatchMembers(batches: seq<seq<Event>>, b: nat, e: Event)
    requires b < |batches| && e in batches[b]
    ensures e in Flatten(batches)
  {
    if b < |batches| - 1 {
      BatchMembers(batches[..|batches| - 1], b, e);
    }
  }

  ghost predicate PagesWithin(pages: seq<seq<Event>>, limit: nat) {
    forall p :: p in pages ==> |p| <= limit
  }

  // Nothing lost, repeated or reordered; every batch but the last is full, none is empty, and
  // none outgrows the batch size by a whole page.
  ghost predicate Buffered(batches: seq<seq<Event>>, pages: seq<seq<Event>>, batchSize: nat) {
    && Flatten(batches) == Flatten(pages)
    && (forall b :: 0 <= b < |batches| - 1 ==> |batches[b]| >= batchSize)
    && (batchSize > 0 ==> forall b :: b in batches ==> b != [])
    && (batchSize > 0 ==>
          forall limit: nat, b :: PagesWithin(pages, limit) && b in batches ==> |b| < batchSize + limit)
  }

  // What the pages read so far became: full batches and a buffer that is not full.
  ghost predicate Buffering(batches: seq<seq<Event>>, buffer: seq<Event>, read: seq<seq<Event>>, batchSize: nat) {
    && Flatten(batches) + buffer == Flatten(read)
    && (forall b :: b in batches ==> |b| >= batchSize)
    && (buffer == [] || |buffer| < batchSize)
    && forall limit: nat, b :: batchSize > 0 && PagesWithin(read, limit) && b in batches ==> |b| < batchSize + limit
  }

  lemma OneMorePage(read: seq<seq<Event>>, page: seq<Event>, limit: nat)
    requires PagesWithin(read + [page], limit)
    ensures PagesWithin(read, limit) && |page| <= limit
  {
    assert page in read + [page];
    assert forall p :: p in read ==> p in read + [page];
  }

  lemma FlattenAppend(batches: seq<seq<Event>>, batch: seq<Event>)
    ensures Flatten(batches + [batch]) == Flatten(batches) + batch
  {
    assert (batches + [batch])[..|batches|] == batches;
  }

  // The loop's treatment of one page.
  method AddPage(batches: seq<seq<Event>>, buffer: seq<Event>, page: seq<Event>, batchSize: nat, ghost read: seq<seq<Event>>)
    returns (full: seq<seq<Event>>, rest: seq<Event>)
    requires Buffering(batches, buffer, read, batchSize)
    ensures Buffering(full, rest, read + [page], batchSize)
  {
    full, rest := batches, buffer + page;
    FlattenAppend(read, page);
    forall limit: nat | PagesWithin(read + [page], limit) ensures PagesWithin(read, limit) && |page| <= limit {
      OneMorePage(read, page, limit);
    }
    assert Flatten(batches) + (buffer + page) == (Flatten(batches) + buffer) + page;
    if |rest| >= batchSize {
      FlattenAppend(full, rest);
      full, rest := full + [rest], [];
    }
  }

  lemma LastBatch(batches: seq<seq<Event>>, buffer: seq<Event>, pages: seq<seq<Event>>, batchSize: nat)
    requires Buffering(batches, buffer, pages, batchSize)
    ensures Buffered(if buffer == [] then batches else batches + [buffer], pages, batchSize)
  {
    if buffer != [] {
      FlattenAppend(batches, buffer);
    }
  }

  // Pages go into a buffer that is handed on when it reaches the batch size, and at the end.
  method Batches(pages: seq<seq<Event>>, batchSize: nat) returns (batches: seq<seq<Event>>)
    ensures Buffered(batches, pages, batchSize)
  {
    batches := [];
    var buffer: seq<Event> := [];
    for p := 0 to |pages|
      invariant Buffering(batches, buffer, pages[..p], batchSize)
    {
      batches, buffer := AddPage(batches, buffer, pages[p], batchSize, pages[..p]);
      assert pages[..p + 1] == pages[..p] + [pages[p]];
    }
    assert pages[..|pages|] == pages;
    LastBatch(batches, buffer, pages, batchSize);
    if buffer != [] {
      batches := batches + [buffer];
    }
  }

  lemma EnrichedKeyIsStored(group: seq<Event>, e: Event, threshold: int)
    requires e in Filter(Meets(Kept, threshold), Deduplicated(group))
    ensures KeyOf(e) in Keys(group) && e == Representative(group, KeyOf(e)) && Accepted(e, threshold)
  {
    var unique := Deduplicated(group);
    DedupKeepsOnePerKey(group);
    FilterMember(Meets(Kept, threshold), unique, e);
    var i :| 0 <= i < |unique| && unique[i] == e;
    assert Keys(group)[i] == Map(KeyOf, unique)[i] == KeyOf(e);
  }

  lemma StoredKeyIsEnriched(group: seq<Event>, k: Key, threshold: int)
    requires k in Keys(group) && Accepted(Representative(group, k), threshold)
    ensures Representative(group, k) in Filter(Meets(Kept, threshold), Deduplicated(group))
    ensures KeyOf(Representative(group, k)) == k
  {
    var i :| 0 <= i < |Keys(group)| && Keys(group)[i] == k;
    RepresentativeIsPreferred(group, k);
    assert Deduplicated(group)[i] == Representative(group, k);
    FilterMember(Meets(Kept, threshold), Deduplicated(group), Representative(group, k));
  }

  lemma EnrichedOffersStored(group: seq<Event>, site: string, k: Key, threshold: int)
    requires k in Keys(group) && Accepted(Representative(group, k), threshold)
    ensures FirstOffer(Map(EventOffer(site), Filter(Meets(Kept, threshold), Deduplicated(group))))(k).Some?
  {
    var enriched := Filter(Meets(Kept, threshold), Deduplicated(group));
    StoredKeyIsEnriched(group, k, threshold);
    var j :| 0 <= j < |enriched| && enriched[j] == Representative(group, k);
    AnyOfferCounts(EventOffer(site), enriched, k, j);
  }

  lemma EnrichedOfferIsPreferred(group: seq<Event>, site: string, k: Key, threshold: int)
    requires FirstOffer(Map(EventOffer(site), Filter(Meets(Kept, threshold), Deduplicated(group))))(k).Some?
    ensures k in Keys(group) && Accepted(Representative(group, k), threshold)
    ensures FirstOffer(Map(EventOffer(site), Filter(Meets(Kept, threshold), Deduplicated(group))))(k)
      == EventOffer(site)(Representative(group, k))(k)
  {
    var enriched := Filter(Meets(Kept, threshold), Deduplicated(group));
    FirstOfferStands(EventOffer(site), enriched, k);
    var i: nat :| StandsAt(EventOffer(site), enriched, k, i);
    assert KeyOf(enriched[i]) == k;
    EnrichedKeyIsStored(group, enriched[i], threshold);
  }

  // Inserting what is left of a site's group offers that site's rows.
  lemma EnrichedOffer(batch: seq<Event>, site: string, k: Key, threshold: int)
    requires site != ""
    ensures var enriched := Filter(Meets(Kept, threshold), Deduplicated(SiteGroup(batch, site)));
      FirstOffer(Map(EventOffer(site), enriched))(k) == SiteOffer(batch, threshold)(site)(k)
  {
    var group := SiteGroup(batch, site);
    if StoresAt(batch, site, k, threshold) {
      EnrichedOffersStored(group, site, k, threshold);
    }
    if FirstOffer(Map(EventOffer(site), Filter(Meets(Kept, threshold), Deduplicated(group))))(k).Some? {
      EnrichedOfferIsPreferred(group, site, k, threshold);
      RepresentativeHasKey(group, k);
    }
  }

  lemma RepresentativeHasKey(group: seq<Event>, k: Key)
    requires k in Keys(group)
    ensures KeyOf(Representative(group, k)) == k
  {
    VariantOfRepresentative(group, k);
  }

  lemma GroupMembers(batch: seq<Event>, site: string)
    ensures forall e :: e in SiteGroup(batch, site) ==> e.siteId == site && e in batch
  {
    forall e | e in SiteGroup(batch, site) ensures e.siteId == site && e in batch {
      FilterMember(AtSite(site), batch, e);
    }
  }

  // The representative is one of the variants, stripped.
  lemma VariantOfRepresentative(events: seq<Event>, k: Key)
    requires k in Keys(events)
    ensures exists v :: v in events && KeyOf(v) == k && Representative(events, k) == Strip(v)
  {
    RepresentativeIsPreferred(events, k);
    var vs := Variants(events, k);
    var j :| 0 <= j < |vs| && Chosen(vs, j) && Representative(events, k) == Strip(vs[j]);
    FilterMember(HasKey(k), events, vs[j]);
  }
}

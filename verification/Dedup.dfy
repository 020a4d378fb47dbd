// Collapsing the Mist API's variants of one event to a single representative.
module Dedup {
  import opened Vocabulary
  import opened Sequences

  datatype Key = Key(mac: string, etype: EventType, timestamp: real, bssid: string)

  function LowerCase(c: char): char {
    if 'A' <= c <= 'Z' then c - 'A' + 'a' else c
  }

  // mac.replace(":", "").lower(), on ASCII.
  function NormalMac(mac: string): string {
    Map(LowerCase, Filter(c => c != ':', mac))
  }

  function KeyOf(e: Event): Key {
    Key(NormalMac(e.mac), e.etype, e.timestamp, e.bssid)
  }

  // The signed capture URL changes on every fetch and is never kept.
  function Strip(e: Event): Event {
    e.(pcapUrl := None)
  }

  predicate HasCapture(e: Event) {
    e.hasPcap == Some(true)
  }

  function HasKey(k: Key): Event -> bool {
    (e: Event) => KeyOf(e) == k
  }

  function Variants(events: seq<Event>, k: Key): seq<Event> {
    Filter(HasKey(k), events)
  }

  function Keys(events: seq<Event>): seq<Key> {
    Distinct(Map(KeyOf, events))
  }

  // The first variant with a capture, or else the first.
  function Best(variants: seq<Event>): (e: Event)
    requires variants != []
  {
    var init, last := variants[..|variants| - 1], variants[|variants| - 1];
    if init == [] then last else if HasCapture(last) && !HasCapture(Best(init)) then last else Best(init)
  }

  // One entry per key, in order of first occurrence.
  function Deduplicated(events: seq<Event>): seq<Event> {
    seq(|Keys(events)|, i requires 0 <= i < |Keys(events)| => Representative(events, Keys(events)[i]))
  }

  function Representative(events: seq<Event>, k: Key): Event {
    if Variants(events, k) == [] then Event("", NO_TYPE, 0.0, "", "", "", None, None, None, None, "")
    else Strip(Best(Variants(events, k)))
  }

  lemma VariantsStep(events: seq<Event>, e: Event, k: Key)
    ensures Variants(events + [e], k) == Variants(events, k) + if KeyOf(e) == k then [e] else []
  {
    assert (events + [e])[..|events|] == events;
  }

  lemma KeysStep(events: seq<Event>, e: Event)
    ensures Keys(events + [e]) == Keys(events) + if KeyOf(e) in Map(KeyOf, events) then [] else [KeyOf(e)]
  {
    assert Map(KeyOf, events + [e]) == Map(KeyOf, events) + [KeyOf(e)];
    assert (Map(KeyOf, events) + [KeyOf(e)])[..|events|] == Map(KeyOf, events);
  }

  lemma {:induction false} KeyHasVariants(events: seq<Event>, k: Key)
    ensures k in Keys(events) <==> Variants(events, k) != []
  {
    DistinctMembers(Map(KeyOf, events));
    if k in Map(KeyOf, events) {
      var i :| 0 <= i < |events| && KeyOf(events[i]) == k;
      FilterMember(HasKey(k), events, events[i]);
    }
    if Variants(events, k) != [] {
      var e := Variants(events, k)[0];
      FilterMember(HasKey(k), events, e);
      var i :| 0 <= i < |events| && events[i] == e;
      assert Map(KeyOf, events)[i] == k;
    }
  }

  lemma RepresentativeStep(events: seq<Event>, e: Event, k: Key)
    requires k in Keys(events)
    ensures Representative(events + [e], k) ==
      if KeyOf(e) == k && HasCapture(e) && !HasCapture(Representative(events, k)) then Strip(e) else Representative(events, k)
  {
    KeyHasVariants(events, k);
    VariantsStep(events, e, k);
    var vs := Variants(events, k);
    assert (vs + [e])[..|vs|] == vs && vs + [] == vs;
  }

  lemma NewRepresentative(events: seq<Event>, e: Event)
    requires KeyOf(e) !in Keys(events)
    ensures Representative(events + [e], KeyOf(e)) == Strip(e)
  {
    KeyHasVariants(events, KeyOf(e));
    VariantsStep(events, e, KeyOf(e));
  }

  lemma DedupNewKey(events: seq<Event>, e: Event)
    requires KeyOf(e) !in Keys(events)
    ensures Deduplicated(events + [e]) == Deduplicated(events) + [Strip(e)]
    ensures Keys(events + [e]) == Keys(events) + [KeyOf(e)]
  {
    KeysStep(events, e);
    DistinctMembers(Map(KeyOf, events));
    forall j | 0 <= j < |Keys(events)| ensures Deduplicated(events + [e])[j] == Deduplicated(events)[j] {
      RepresentativeStep(events, e, Keys(events)[j]);
    }
    NewRepresentative(events, e);
  }

  lemma DedupSeenKey(events: seq<Event>, e: Event, i: nat)
    requires i < |Keys(events)| && Keys(events)[i] == KeyOf(e)
    ensures Deduplicated(events + [e]) ==
      if HasCapture(e) && !HasCapture(Deduplicated(events)[i]) then Deduplicated(events)[i := Strip(e)] else Deduplicated(events)
    ensures Keys(events + [e]) == Keys(events)
  {
    KeysStep(events, e);
    DistinctMembers(Map(KeyOf, events));
    forall j | 0 <= j < |Keys(events)|
      ensures Deduplicated(events + [e])[j] ==
        if j == i && HasCapture(e) && !HasCapture(Deduplicated(events)[i]) then Strip(e) else Deduplicated(events)[j]
    {
      RepresentativeStep(events, e, Keys(events)[j]);
    }
  }

  // The positions of the keys seen so far.
  ghost predicate Indexes(seen: map<Key, nat>, keys: seq<Key>) {
    && (forall k :: k in seen <==> k in keys)
    && (forall k :: k in seen ==> seen[k] < |keys| && keys[seen[k]] == k)
  }

  lemma IndexesNewKey(seen: map<Key, nat>, keys: seq<Key>, k: Key)
    requires Indexes(seen, keys)
    ensures Indexes(seen[k := |keys|], keys + [k])
  {
  }

  // The loop's treatment of one event: result[seen[key]] is overwritten when a better variant
  // turns up.
  method AddVariant(result: seq<Event>, seen: map<Key, nat>, event: Event, ghost before: seq<Event>)
    returns (next: seq<Event>, index: map<Key, nat>)
    requires result == Deduplicated(before) && Indexes(seen, Keys(before))
    ensures next == Deduplicated(before + [event]) && Indexes(index, Keys(before + [event]))
  {
    next, index := result, seen;
    var e := Strip(event);
    var key := KeyOf(e);
    if key !in seen {
      DedupNewKey(before, event);
      IndexesNewKey(seen, Keys(before), key);
      index := index[key := |next|];
      next := next + [e];
    } else {
      DedupSeenKey(before, event, seen[key]);
      if HasCapture(e) && !HasCapture(result[seen[key]]) {
        next := next[seen[key] := e];
      }
    }
  }

  // ---- the result in the events' own fields ---------------------------------------------

  // Built up one character at a time: colons go, the capitals of ASCII become small.
  lemma MacByCharacter(mac: string, c: char)
    ensures NormalMac("") == ""
    ensures NormalMac(mac + [c]) == NormalMac(mac) +
      if c == ':' then "" else if 65 <= c as int <= 90 then [(c as int + 32) as char] else [c]
  {
    FilterAppend(x => x != ':', mac, c);
  }

  // The same device, type, moment and access point.
  ghost predicate SameEvent(a: Event, b: Event) {
    NormalMac(a.mac) == NormalMac(b.mac) && a.etype == b.etype && a.timestamp == b.timestamp && a.bssid == b.bssid
  }

  ghost predicate SomeCaptured(events: seq<Event>, e: Event) {
    exists v :: v in events && SameEvent(v, e) && v.hasPcap == Some(true)
  }

  // r is an event of the list without its capture URL, and has a capture if a variant of it has.
  ghost predicate Stands(r: Event, events: seq<Event>) {
    && (exists e :: e in events && r == e.(pcapUrl := None))
    && (SomeCaptured(events, r) ==> r.hasPcap == Some(true))
  }

  ghost predicate HasStandIn(e: Event, result: seq<Event>) {
    exists r :: r in result && SameEvent(r, e)
  }

  // Every event of the list is represented, once, by one of the list.
  ghost predicate Collapses(result: seq<Event>, events: seq<Event>) {
    && (forall r :: r in result ==> Stands(r, events))
    && (forall e :: e in events ==> HasStandIn(e, result))
    && forall i, j :: 0 <= i < j < |result| ==> !SameEvent(result[i], result[j])
  }

  lemma KeysByField(a: Event, b: Event)
    ensures KeyOf(a) == KeyOf(b) <==> SameEvent(a, b)
    ensures KeyOf(Strip(a)) == KeyOf(a) && Strip(a) == a.(pcapUrl := None)
    ensures HasCapture(a) <==> a.hasPcap == Some(true)
  {
  }

  lemma RepresentativeStands(events: seq<Event>, k: Key)
    requires k in Keys(events)
    ensures Stands(Representative(events, k), events)
  {
    KeyHasVariants(events, k);
    var vs := Variants(events, k);
    BestIsChosen(vs);
    var e := Best(vs);
    FilterMember(HasKey(k), events, e);
    KeysByField(e, e);
    assert Representative(events, k) == e.(pcapUrl := None);
    forall v | v in events && SameEvent(v, e) && v.hasPcap == Some(true) ensures e.hasPcap == Some(true) {
      FilterMember(HasKey(k), events, v);
      KeysByField(v, e);
    }
  }

  lemma RepresentedInResult(events: seq<Event>, e: Event)
    requires e in events
    ensures HasStandIn(e, Deduplicated(events))
  {
    var keys := Map(KeyOf, events);
    DistinctMembers(keys);
    var i :| 0 <= i < |events| && events[i] == e;
    assert keys[i] == KeyOf(e);
    assert KeyOf(e) in Keys(events);
    var k :| 0 <= k < |Keys(events)| && Keys(events)[k] == KeyOf(e);
    RepresentativeIsPreferred(events, KeyOf(e));
    assert Deduplicated(events)[k] == Representative(events, KeyOf(e));
    KeysByField(Representative(events, KeyOf(e)), e);
  }

  lemma DedupCollapses(events: seq<Event>)
    ensures Collapses(Deduplicated(events), events)
  {
    var result := Deduplicated(events);
    DedupKeepsOnePerKey(events);
    forall r | r in result ensures Stands(r, events) {
      var i :| 0 <= i < |result| && result[i] == r;
      RepresentativeStands(events, Keys(events)[i]);
    }
    forall e | e in events ensures HasStandIn(e, result) {
      RepresentedInResult(events, e);
    }
    forall i, j | 0 <= i < j < |result| ensures !SameEvent(result[i], result[j]) {
      KeysByField(result[i], result[j]);
      assert Map(KeyOf, result)[i] != Map(KeyOf, result)[j];
    }
  }

  method DedupEvents(events: seq<Event>) returns (result: seq<Event>)
    ensures result == Deduplicated(events)
    ensures Collapses(result, events)
  {
    DedupCollapses(events);
    result := [];
    var seen: map<Key, nat> := map[];
    for i := 0 to |events|
      invariant result == Deduplicated(events[..i])
      invariant Indexes(seen, Keys(events[..i]))
    {
      result, seen := AddVariant(result, seen, events[i], events[..i]);
      assert events[..i + 1] == events[..i] + [events[i]];
    }
    assert events[..|events|] == events;
  }

  // ---- what the collapse guarantees ---------------------------------------------------

  // e is variant i of its key: the first with a capture, or the first of variants without any.
  ghost predicate Chosen(variants: seq<Event>, i: nat)
    requires i < |variants|
  {
    if HasCapture(variants[i]) then forall j :: 0 <= j < i ==> !HasCapture(variants[j])
    else i == 0 && forall j :: 0 <= j < |variants| ==> !HasCapture(variants[j])
  }

  lemma {:induction false} BestIsChosen(variants: seq<Event>)
    requires variants != []
    ensures exists i :: 0 <= i < |variants| && variants[i] == Best(variants) && Chosen(variants, i)
    ensures HasCapture(Best(variants)) <==> exists e :: e in variants && HasCapture(e)
  {
    var init, last := variants[..|variants| - 1], variants[|variants| - 1];
    if init == [] {
      assert Chosen(variants, 0);
    } else {
      BestIsChosen(init);
      var i :| 0 <= i < |init| && init[i] == Best(init) && Chosen(init, i);
      if HasCapture(last) && !HasCapture(Best(init)) {
        assert Chosen(variants, |init|);
      } else {
        assert variants[i] == Best(variants) && Chosen(variants, i);
      }
    }
  }

  ghost predicate IsPreferredOf(e: Event, variants: seq<Event>) {
    exists j :: 0 <= j < |variants| && Chosen(variants, j) && e == Strip(variants[j])
  }

  lemma RepresentativeIsPreferred(events: seq<Event>, k: Key)
    requires k in Keys(events)
    ensures KeyOf(Representative(events, k)) == k
    ensures IsPreferredOf(Representative(events, k), Variants(events, k))
  {
    KeyHasVariants(events, k);
    var vs := Variants(events, k);
    BestIsChosen(vs);
    var j :| 0 <= j < |vs| && vs[j] == Best(vs) && Chosen(vs, j);
    FilterMember(HasKey(k), events, vs[j]);
  }

  // Exactly one event per key, in order of first occurrence, each the preferred variant.
  lemma DedupKeepsOnePerKey(events: seq<Event>)
    ensures Map(KeyOf, Deduplicated(events)) == Keys(events) && NoDuplicates(Keys(events))
    ensures forall i :: 0 <= i < |Deduplicated(events)| ==>
      IsPreferredOf(Deduplicated(events)[i], Variants(events, Keys(events)[i]))
  {
    DistinctMembers(Map(KeyOf, events));
    forall i | 0 <= i < |Keys(events)|
      ensures KeyOf(Deduplicated(events)[i]) == Keys(events)[i]
      ensures IsPreferredOf(Deduplicated(events)[i], Variants(events, Keys(events)[i]))
    {
      RepresentativeIsPreferred(events, Keys(events)[i]);
    }
  }

  lemma {:induction false} BestConcat(a: seq<Event>, b: seq<Event>)
    requires a != [] && b != []
    ensures Best(a + b) == if HasCapture(Best(b)) && !HasCapture(Best(a)) then Best(b) else Best(a)
  {
    assert (a + b)[..|a + b| - 1] == a + b[..|b| - 1];
    if |b| == 1 {
      assert a + b[..0] == a;
    } else {
      BestConcat(a, b[..|b| - 1]);
    }
  }

  lemma {:induction false} DistinctAbsorbs<T(!new)>(a: seq<T>, b: seq<T>)
    ensures Distinct(Distinct(a) + Distinct(b)) == Distinct(a + b)
    decreases |a| + |b|
  {
    if b == [] {
      assert a + b == a && Distinct(a) + Distinct(b) == Distinct(a);
      DistinctMembers(a);
      DistinctFixesDistinct(Distinct(a));
    } else {
      var init, last := b[..|b| - 1], b[|b| - 1];
      DistinctAbsorbs(a, init);
      DistinctMembers(a);
      DistinctMembers(init);
      assert (a + b)[..|a + b| - 1] == a + init;
      assert b == init + [last];
      if last in init {
        assert Distinct(b) == Distinct(init) + [] == Distinct(init);
        assert Distinct(a + b) == Distinct(a + init) + [] == Distinct(a + init);
      } else {
        assert Distinct(a) + Distinct(b) == (Distinct(a) + Distinct(init)) + [last];
        assert (Distinct(a) + Distinct(b))[..|Distinct(a) + Distinct(init)|] == Distinct(a) + Distinct(init);
      }
    }
  }

  lemma {:induction false} DistinctFixesDistinct<T(!new)>(s: seq<T>)
    requires NoDuplicates(s)
    ensures Distinct(s) == s
  {
    if s != [] {
      DistinctFixesDistinct(s[..|s| - 1]);
      assert s == s[..|s| - 1] + [s[|s| - 1]];
    }
  }

  lemma VariantsAfterDedup(events: seq<Event>, k: Key)
    ensures Variants(Deduplicated(events), k) == if k in Keys(events) then [Representative(events, k)] else []
  {
    DedupKeepsOnePerKey(events);
    var d := Deduplicated(events);
    VariantsOfDistinctKeys(d, k);
    if k in Keys(events) {
      var i :| 0 <= i < |Keys(events)| && Keys(events)[i] == k;
      assert KeyOf(d[i]) == Map(KeyOf, d)[i] == k;
    } else {
      forall i | 0 <= i < |d| ensures KeyOf(d[i]) != k {
        assert KeyOf(d[i]) == Map(KeyOf, d)[i];
      }
    }
  }

  lemma {:induction false} VariantsOfDistinctKeys(d: seq<Event>, k: Key)
    requires NoDuplicates(Map(KeyOf, d))
    ensures forall i :: 0 <= i < |d| && KeyOf(d[i]) == k ==> Variants(d, k) == [d[i]]
    ensures (forall i :: 0 <= i < |d| ==> KeyOf(d[i]) != k) ==> Variants(d, k) == []
  {
    if d != [] {
      var init := d[..|d| - 1];
      assert Map(KeyOf, init) == Map(KeyOf, d)[..|d| - 1];
      VariantsOfDistinctKeys(init, k);
      forall i | 0 <= i < |init| ensures KeyOf(init[i]) == Map(KeyOf, d)[i] {
      }
      assert KeyOf(d[|d| - 1]) == Map(KeyOf, d)[|d| - 1];
    }
  }

  // Deduplicating pieces first changes nothing, so it can be done batch by batch.
  lemma DedupOfDedups(a: seq<Event>, b: seq<Event>)
    ensures Deduplicated(Deduplicated(a) + Deduplicated(b)) == Deduplicated(a + b)
  {
    var da, db := Deduplicated(a), Deduplicated(b);
    DedupKeepsOnePerKey(a);
    DedupKeepsOnePerKey(b);
    assert Map(KeyOf, da + db) == Keys(a) + Keys(b);
    assert Map(KeyOf, a + b) == Map(KeyOf, a) + Map(KeyOf, b);
    DistinctAbsorbs(Map(KeyOf, a), Map(KeyOf, b));
    forall k ensures Representative(da + db, k) == Representative(a + b, k) {
      RepresentativeOfConcat(a, b, k);
    }
    SameRepresentatives(da + db, a + b);
  }

  lemma SameRepresentatives(a: seq<Event>, b: seq<Event>)
    requires Keys(a) == Keys(b)
    requires forall k :: Representative(a, k) == Representative(b, k)
    ensures Deduplicated(a) == Deduplicated(b)
  {
  }

  // What is left of one key's variants.
  function Kept(variants: seq<Event>): seq<Event> {
    if variants == [] then [] else [Strip(Best(variants))]
  }

  lemma KeptVariants(events: seq<Event>, k: Key)
    ensures Variants(Deduplicated(events), k) == Kept(Variants(events, k))
  {
    VariantsAfterDedup(events, k);
    KeyHasVariants(events, k);
  }

  lemma KeptOfConcat(va: seq<Event>, vb: seq<Event>)
    ensures Kept(Kept(va) + Kept(vb)) == Kept(va + vb)
  {
    if va == [] {
      assert va + vb == vb && Kept(va) + Kept(vb) == Kept(vb);
    } else if vb == [] {
      assert va + vb == va && Kept(va) + Kept(vb) == Kept(va);
    } else {
      BestConcat(va, vb);
      BestConcat([Strip(Best(va))], [Strip(Best(vb))]);
    }
  }

  lemma RepresentativeOfConcat(a: seq<Event>, b: seq<Event>, k: Key)
    ensures Representative(Deduplicated(a) + Deduplicated(b), k) == Representative(a + b, k)
  {
    FilterConcat(HasKey(k), a, b);
    FilterConcat(HasKey(k), Deduplicated(a), Deduplicated(b));
    KeptVariants(a, k);
    KeptVariants(b, k);
    KeptOfConcat(Variants(a, k), Variants(b, k));
    SameKept(Deduplicated(a) + Deduplicated(b), a + b, k);
  }

  lemma SameKept(a: seq<Event>, b: seq<Event>, k: Key)
    requires Kept(Variants(a, k)) == Kept(Variants(b, k))
    ensures Representative(a, k) == Representative(b, k)
  {
    assert Kept(Variants(a, k)) != [] ==> Representative(a, k) == Kept(Variants(a, k))[0];
    assert Kept(Variants(b, k)) != [] ==> Representative(b, k) == Kept(Variants(b, k))[0];
  }

  lemma DedupIdempotent(events: seq<Event>)
    ensures Deduplicated(Deduplicated(events)) == Deduplicated(events)
  {
    DedupOfDedups(events, []);
    assert events + [] == events;
    assert Deduplicated(events) + Deduplicated([]) == Deduplicated(events);
  }

  // Capture URLs rotate between fetches; the result cannot tell.
  lemma CaptureUrlsDoNotMatter(events: seq<Event>)
    ensures Deduplicated(Map(Strip, events)) == Deduplicated(events)
  {
    var stripped := Map(Strip, events);
    assert Map(KeyOf, stripped) == Map(KeyOf, events);
    forall k ensures Representative(stripped, k) == Representative(events, k) {
      StrippedVariants(events, k);
      if Variants(events, k) != [] {
        BestOfStripped(Variants(events, k));
      }
    }
    SameRepresentatives(stripped, events);
  }

  lemma {:induction false} StrippedVariants(events: seq<Event>, k: Key)
    ensures Variants(Map(Strip, events), k) == Map(Strip, Variants(events, k))
  {
    if events != [] {
      var init, last := events[..|events| - 1], events[|events| - 1];
      StrippedVariants(init, k);
      assert Map(Strip, events) == Map(Strip, init) + [Strip(last)];
      VariantsStep(Map(Strip, init), Strip(last), k);
    }
  }

  lemma {:induction false} BestOfStripped(vs: seq<Event>)
    requires vs != []
    ensures Best(Map(Strip, vs)) == Strip(Best(vs))
  {
    var init := vs[..|vs| - 1];
    assert Map(Strip, vs)[..|vs| - 1] == Map(Strip, init);
    if init != [] {
      BestOfStripped(init);
    }
  }
}

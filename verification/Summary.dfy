// The materialised client summary: grouped event rows folded into one entry per client, once
// per (site, WLAN) scope, or in a single pass over the whole organisation.
module Summary {
  import opened Vocabulary
  import opened Sequences

  // A stored category is one of the sixteen keys or a string no table knows.
  datatype Label = Known(category: Category) | Foreign(name: string)

  // One group of the SQL query. `stored` is absent for a NULL or empty category column.
  datatype Row = Row(
    site: string,
    wlan: Option<string>,
    mac: string,
    etype: EventType,
    stored: Option<Label>,
    family: Option<string>,
    first: Option<real>,
    last: Option<real>,
    cnt: nat)

  datatype Entry = Entry(
    total: nat,
    cats: multiset<Label>,
    first: Option<real>,
    last: Option<real>,
    family: Option<string>)

  datatype Scope = Scope(site: string, wlan: string)

  function LabelOf(r: Row): Label {
    if r.stored.Some? then r.stored.value else Known(CategoryOf(r.etype))
  }

  predicate Named(family: Option<string>) {
    family.Some? && family != Some("")
  }

  predicate Vague(family: Option<string>) {
    family in {None, Some(""), Some("Unknown")}
  }

  function Earlier(t: Option<real>, best: Option<real>): Option<real> {
    if t.Some? && (best.None? || t.value < best.value) then t else best
  }

  function Later(t: Option<real>, best: Option<real>): Option<real> {
    if t.Some? && (best.None? || t.value > best.value) then t else best
  }

  function Fresh(r: Row): Entry {
    Entry(0, multiset{}, r.first, r.last, r.family)
  }

  // The body both loops share.
  function Absorb(e: Entry, r: Row): Entry {
    var l := LabelOf(r);
    Entry(e.total + r.cnt, e.cats[l := e.cats[l] + r.cnt],
      Earlier(r.first, e.first), Later(r.last, e.last),
      if Named(r.family) && Vague(e.family) then r.family else e.family)
  }

  // ---- what an entry means ------------------------------------------------

  function CntOf(r: Row): nat { r.cnt }

  function CntUnder(l: Label): Row -> nat {
    (r: Row) => if LabelOf(r) == l then r.cnt else 0
  }

  ghost predicate IsEarliest(t: Option<real>, rs: seq<Row>) {
    && (t.None? ==> forall r :: r in rs ==> r.first.None?)
    && (t.Some? ==> exists r :: r in rs && r.first == t)
    && (t.Some? ==> forall r :: r in rs && r.first.Some? ==> t.value <= r.first.value)
  }

  ghost predicate IsLatest(t: Option<real>, rs: seq<Row>) {
    && (t.None? ==> forall r :: r in rs ==> r.last.None?)
    && (t.Some? ==> exists r :: r in rs && r.last == t)
    && (t.Some? ==> forall r :: r in rs && r.last.Some? ==> r.last.value <= t.value)
  }

  function FamilyOf(rs: seq<Row>): Option<string>
    requires rs != []
  {
    if |rs| == 1 then rs[0].family else
    var f := FamilyOf(rs[..|rs| - 1]);
    if Named(rs[|rs| - 1].family) && Vague(f) then rs[|rs| - 1].family else f
  }

  ghost predicate IsSummaryOf(e: Entry, rs: seq<Row>)
    requires rs != []
  {
    && e.total == Total(CntOf, rs)
    && (forall l :: e.cats[l] == Total(CntUnder(l), rs))
    && IsEarliest(e.first, rs)
    && IsLatest(e.last, rs)
    && e.family == FamilyOf(rs)
  }

  lemma TotalAppend<T>(f: T -> nat, s: seq<T>, x: T)
    ensures Total(f, s + [x]) == Total(f, s) + f(x)
  {
    assert (s + [x])[..|s|] == s;
  }

  lemma SummaryStarts(r: Row)
    ensures IsSummaryOf(Absorb(Fresh(r), r), [r])
  {
    TotalAppend(CntOf, [], r);
    assert [] + [r] == [r];
    forall l ensures Total(CntUnder(l), [r]) == CntUnder(l)(r) {
      TotalAppend(CntUnder(l), [], r);
    }
    assert r in [r];
  }

  lemma EarliestStep(t: Option<real>, rs: seq<Row>, r: Row)
    requires IsEarliest(t, rs)
    ensures IsEarliest(Earlier(r.first, t), rs + [r])
  {
    assert r in rs + [r];
    if t.Some? && Earlier(r.first, t) == t {
      var q :| q in rs && q.first == t;
      assert q in rs + [r];
    }
  }

  lemma LatestStep(t: Option<real>, rs: seq<Row>, r: Row)
    requires IsLatest(t, rs)
    ensures IsLatest(Later(r.last, t), rs + [r])
  {
    assert r in rs + [r];
    if t.Some? && Later(r.last, t) == t {
      var q :| q in rs && q.last == t;
      assert q in rs + [r];
    }
  }

  lemma SummaryGrows(e: Entry, rs: seq<Row>, r: Row)
    requires rs != [] && IsSummaryOf(e, rs)
    ensures IsSummaryOf(Absorb(e, r), rs + [r])
  {
    TotalAppend(CntOf, rs, r);
    var d := Absorb(e, r);
    forall l ensures d.cats[l] == Total(CntUnder(l), rs + [r]) {
      TotalAppend(CntUnder(l), rs, r);
    }
    EarliestStep(e.first, rs, r);
    LatestStep(e.last, rs, r);
    assert (rs + [r])[..|rs|] == rs;
  }

  // The stored label counts, and without one the bucket the event type is listed in.
  ghost predicate FallsUnder(r: Row, c: Category) {
    if r.stored.Some? then r.stored == Some(Known(c))
    else r.etype in Bucket(c) || (c == Other && forall d: Category :: r.etype !in Bucket(d))
  }

  ghost function CountedUnder(c: Category): Row -> nat {
    (r: Row) => if FallsUnder(r, c) then r.cnt else 0
  }

  ghost function CountedAs(name: string): Row -> nat {
    (r: Row) => if r.stored == Some(Foreign(name)) then r.cnt else 0
  }

  lemma LabelByField(r: Row, c: Category)
    ensures LabelOf(r) == Known(c) <==> FallsUnder(r, c)
  {
    forall d: Category ensures r.etype in Bucket(d) <==> Listed(r.etype) == Some(d) {
      BucketsMatchReverseMap(r.etype, d);
    }
  }

  // What an entry counts, in the rows' own fields.
  lemma EntryCountsByField(e: Entry, rs: seq<Row>)
    requires rs != [] && IsSummaryOf(e, rs)
    ensures e.total == Total((r: Row) => r.cnt, rs)
    ensures forall c :: e.cats[Known(c)] == Total(CountedUnder(c), rs)
    ensures forall name :: e.cats[Foreign(name)] == Total(CountedAs(name), rs)
  {
    SameTotal((r: Row) => r.cnt, CntOf, rs);
    forall c ensures e.cats[Known(c)] == Total(CountedUnder(c), rs) {
      forall r: Row ensures CntUnder(Known(c))(r) == CountedUnder(c)(r) {
        LabelByField(r, c);
      }
      SameTotal(CountedUnder(c), CntUnder(Known(c)), rs);
    }
    forall name ensures e.cats[Foreign(name)] == Total(CountedAs(name), rs) {
      SameTotal(CountedAs(name), CntUnder(Foreign(name)), rs);
    }
  }

  // ---- the per-scope loop -------------------------------------------------

  function OfMac(mac: string): Row -> bool {
    (r: Row) => r.mac == mac
  }

  function RowsOf(mac: string, rows: seq<Row>): seq<Row> {
    Filter(OfMac(mac), rows)
  }

  ghost predicate EntryFits(byMac: map<string, Entry>, rows: seq<Row>, mac: string) {
    && (mac in byMac <==> RowsOf(mac, rows) != [])
    && (mac in byMac ==> IsSummaryOf(byMac[mac], RowsOf(mac, rows)))
  }

  // One entry for each client with a row, and each summarises that client's rows.
  ghost predicate IsAggregate(byMac: map<string, Entry>, rows: seq<Row>) {
    forall mac :: EntryFits(byMac, rows, mac)
  }

  function Entered(byMac: map<string, Entry>, r: Row): map<string, Entry> {
    byMac[r.mac := Absorb(if r.mac in byMac then byMac[r.mac] else Fresh(r), r)]
  }

  lemma RowsOfStep(rows: seq<Row>, r: Row, mac: string)
    ensures mac == r.mac ==> RowsOf(mac, rows + [r]) == RowsOf(mac, rows) + [r]
    ensures mac == r.mac && RowsOf(mac, rows) == [] ==> RowsOf(mac, rows + [r]) == [r]
    ensures mac != r.mac ==> RowsOf(mac, rows + [r]) == RowsOf(mac, rows)
  {
    FilterAppend(OfMac(mac), rows, r);
    assert RowsOf(mac, rows) + [] == RowsOf(mac, rows);
    assert [] + [r] == [r];
  }

  lemma EntryGrows(byMac: map<string, Entry>, rows: seq<Row>, r: Row, mac: string)
    requires EntryFits(byMac, rows, mac)
    ensures EntryFits(Entered(byMac, r), rows + [r], mac)
  {
    RowsOfStep(rows, r, mac);
    if mac == r.mac {
      if mac in byMac {
        SummaryGrows(byMac[mac], RowsOf(mac, rows), r);
      } else {
        SummaryStarts(r);
      }
    }
  }

  lemma AggregateGrows(byMac: map<string, Entry>, rows: seq<Row>, r: Row)
    requires IsAggregate(byMac, rows)
    ensures IsAggregate(Entered(byMac, r), rows + [r])
  {
    forall mac ensures EntryFits(Entered(byMac, r), rows + [r], mac) {
      assert EntryFits(byMac, rows, mac);
      EntryGrows(byMac, rows, r, mac);
    }
  }

  method LoadEventAggregates(rows: seq<Row>) returns (byMac: map<string, Entry>)
    ensures IsAggregate(byMac, rows)
  {
    byMac := map[];
    NothingAggregated();
    for i := 0 to |rows|
      invariant IsAggregate(byMac, rows[..i])
    {
      var r := rows[i];
      AggregateGrows(byMac, rows[..i], r);
      assert rows[..i + 1] == rows[..i] + [r];
      var entry := if r.mac in byMac then byMac[r.mac] else Fresh(r);
      byMac := byMac[r.mac := Absorb(entry, r)];
    }
    assert rows[..|rows|] == rows;
  }

  // ---- the one-pass loop --------------------------------------------------

  // wlan or "": NULL and the empty string share a scope.
  function ScopeOf(r: Row): Scope {
    Scope(r.site, if r.wlan.Some? then r.wlan.value else "")
  }

  function InScope(s: Scope): Row -> bool {
    (r: Row) => ScopeOf(r) == s
  }

  function RowsIn(s: Scope, rows: seq<Row>): seq<Row> {
    Filter(InScope(s), rows)
  }

  function EntriesAt(byScope: map<Scope, map<string, Entry>>, s: Scope): map<string, Entry> {
    if s in byScope then byScope[s] else map[]
  }

  ghost predicate ScopeFits(byScope: map<Scope, map<string, Entry>>, rows: seq<Row>, s: Scope) {
    && (s in byScope <==> RowsIn(s, rows) != [])
    && IsAggregate(EntriesAt(byScope, s), RowsIn(s, rows))
  }

  ghost predicate IsPartition(byScope: map<Scope, map<string, Entry>>, keep: set<Scope>, rows: seq<Row>) {
    && byScope.Keys <= keep
    && (forall s :: s in keep ==> ScopeFits(byScope, rows, s))
  }

  lemma ScopeGrows(
      byScope: map<Scope, map<string, Entry>>, next: map<Scope, map<string, Entry>>, rows: seq<Row>, r: Row, s: Scope)
    requires ScopeFits(byScope, rows, s)
    requires s in next <==> s in byScope || s == ScopeOf(r)
    requires EntriesAt(next, s)
      == if s == ScopeOf(r) then Entered(EntriesAt(byScope, s), r) else EntriesAt(byScope, s)
    ensures ScopeFits(next, rows + [r], s)
  {
    FilterAppend(InScope(s), rows, r);
    if s == ScopeOf(r) {
      AggregateGrows(EntriesAt(byScope, s), RowsIn(s, rows), r);
    } else {
      assert RowsIn(s, rows + [r]) == RowsIn(s, rows);
    }
  }

  lemma PartitionGrows(
      byScope: map<Scope, map<string, Entry>>, next: map<Scope, map<string, Entry>>,
      keep: set<Scope>, rows: seq<Row>, r: Row)
    requires IsPartition(byScope, keep, rows)
    requires next == if ScopeOf(r) in keep
      then byScope[ScopeOf(r) := Entered(EntriesAt(byScope, ScopeOf(r)), r)] else byScope
    ensures IsPartition(next, keep, rows + [r])
  {
    forall s | s in keep ensures ScopeFits(next, rows + [r], s) {
      assert ScopeFits(byScope, rows, s);
      ScopeGrows(byScope, next, rows, r, s);
    }
  }

  lemma NothingAggregated()
    ensures IsAggregate(map[], [])
  {
    forall mac ensures EntryFits(map[], [], mac) {
      assert RowsOf(mac, []) == [];
    }
  }

  method LoadEventAggregatesAll(keep: set<Scope>, rows: seq<Row>) returns (byScope: map<Scope, map<string, Entry>>)
    ensures IsPartition(byScope, keep, rows)
  {
    byScope := map[];
    NothingAggregated();
    for i := 0 to |rows|
      invariant IsPartition(byScope, keep, rows[..i])
    {
      var r := rows[i];
      assert rows[..i + 1] == rows[..i] + [r];
      var scope := ScopeOf(r);
      ghost var before := byScope;
      if scope !in keep {
        PartitionGrows(before, byScope, keep, rows[..i], r);
        continue;
      }
      var scopeMap := if scope in byScope then byScope[scope] else map[];
      var entry := if r.mac in scopeMap then scopeMap[r.mac] else Fresh(r);
      byScope := byScope[scope := scopeMap[r.mac := Absorb(entry, r)]];
      PartitionGrows(before, byScope, keep, rows[..i], r);
    }
    assert rows[..|rows|] == rows;
  }

  // ---- the two agree ------------------------------------------------------

  lemma SameMembers<T>(a: seq<T>, b: seq<T>)
    requires multiset(a) == multiset(b)
    ensures forall x :: x in a <==> x in b
  {
    forall x ensures x in a <==> x in b {
      assert x in a <==> x in multiset(a);
    }
  }

  // Totals, category counts, first and last sighting do not depend on the order of the rows.
  lemma SummariesIgnoreOrder(e: Entry, d: Entry, rs: seq<Row>, qs: seq<Row>)
    requires rs != [] && qs != [] && multiset(rs) == multiset(qs)
    requires IsSummaryOf(e, rs) && IsSummaryOf(d, qs)
    ensures e.(family := d.family) == d
    ensures rs == qs ==> e == d
  {
    TotalPermuted(CntOf, rs, qs);
    forall l ensures e.cats[l] == d.cats[l] {
      TotalPermuted(CntUnder(l), rs, qs);
    }
    assert e.cats == d.cats;
    SameMembers(rs, qs);
  }

  lemma EntriesIgnoreOrder(
      m: map<string, Entry>, n: map<string, Entry>, rows: seq<Row>, others: seq<Row>, mac: string)
    requires multiset(rows) == multiset(others)
    requires EntryFits(m, rows, mac) && EntryFits(n, others, mac)
    ensures mac in m <==> mac in n
    ensures mac in m ==> m[mac].(family := n[mac].family) == n[mac]
    ensures mac in m && rows == others ==> m[mac] == n[mac]
  {
    FilterPermuted(OfMac(mac), rows, others);
    assert |RowsOf(mac, rows)| == |multiset(RowsOf(mac, rows))| == |RowsOf(mac, others)|;
    if mac in m {
      SummariesIgnoreOrder(m[mac], n[mac], RowsOf(mac, rows), RowsOf(mac, others));
    }
  }

  lemma AggregatesIgnoreOrder(m: map<string, Entry>, n: map<string, Entry>, rows: seq<Row>, others: seq<Row>)
    requires multiset(rows) == multiset(others)
    requires IsAggregate(m, rows) && IsAggregate(n, others)
    ensures m.Keys == n.Keys
    ensures forall mac :: mac in m ==> m[mac].(family := n[mac].family) == n[mac]
    ensures rows == others ==> m == n
  {
    forall mac
      ensures mac in m <==> mac in n
      ensures mac in m ==> m[mac].(family := n[mac].family) == n[mac]
      ensures mac in m && rows == others ==> m[mac] == n[mac]
    {
      assert EntryFits(m, rows, mac) && EntryFits(n, others, mac);
      EntriesIgnoreOrder(m, n, rows, others, mac);
    }
    assert m.Keys == n.Keys;
  }

  // WHERE site_id = ? AND wlan = ?: SQL equality never holds of NULL.
  function Selected(s: Scope): Row -> bool {
    (r: Row) => r.site == s.site && r.wlan == Some(s.wlan)
  }

  // The one-pass table restricted to a kept scope is the per-scope aggregate, unless the
  // scope has no WLAN name and rows without a WLAN exist at the site: those are pooled in.
  lemma OnePassIsPerScope(
      byScope: map<Scope, map<string, Entry>>, keep: set<Scope>, rows: seq<Row>, s: Scope, byMac: map<string, Entry>)
    requires IsPartition(byScope, keep, rows)
    requires IsAggregate(byMac, Filter(Selected(s), rows))
    requires s in keep
    requires forall r :: r in rows ==> r.cnt > 0
    ensures EntriesAt(byScope, s) == byMac <==>
      s.wlan != "" || forall r :: r in rows && r.site == s.site ==> r.wlan.Some?
  {
    var pooled, selected := RowsIn(s, rows), Filter(Selected(s), rows);
    assert ScopeFits(byScope, rows, s);
    if s.wlan != "" || forall r :: r in rows && r.site == s.site ==> r.wlan.Some? {
      FilterSame(InScope(s), Selected(s), rows);
      AggregatesIgnoreOrder(EntriesAt(byScope, s), byMac, pooled, selected);
    } else {
      var r :| r in rows && r.site == s.site && r.wlan.None?;
      assert InScope(s)(r) && !Selected(s)(r);
      PooledRowShows(EntriesAt(byScope, s), byMac, rows, s, r);
    }
  }

  lemma {:induction false} FilterLoses(p: Row -> bool, q: Row -> bool, s: seq<Row>, x: Row)
    requires forall r :: p(r) ==> q(r)
    requires x in s && q(x) && !p(x) && x.cnt > 0
    ensures Total(CntOf, Filter(p, s)) < Total(CntOf, Filter(q, s))
  {
    var init, last := s[..|s| - 1], s[|s| - 1];
    FilterTotalStep(p, s);
    FilterTotalStep(q, s);
    if x in init {
      FilterLoses(p, q, init, x);
    } else {
      assert s == init + [last];
      FilterAtMost(p, q, init);
    }
  }

  lemma FilterTotalStep(p: Row -> bool, s: seq<Row>)
    requires s != []
    ensures Total(CntOf, Filter(p, s))
      == Total(CntOf, Filter(p, s[..|s| - 1])) + if p(s[|s| - 1]) then s[|s| - 1].cnt else 0
  {
    TotalAppend(CntOf, Filter(p, s[..|s| - 1]), s[|s| - 1]);
    assert Filter(p, s[..|s| - 1]) + [] == Filter(p, s[..|s| - 1]);
  }

  lemma {:induction false} FilterAtMost(p: Row -> bool, q: Row -> bool, s: seq<Row>)
    requires forall r :: p(r) ==> q(r)
    ensures Total(CntOf, Filter(p, s)) <= Total(CntOf, Filter(q, s))
  {
    if s != [] {
      FilterTotalStep(p, s);
      FilterTotalStep(q, s);
      FilterAtMost(p, q, s[..|s| - 1]);
    }
  }

  lemma PooledRowShows(m: map<string, Entry>, n: map<string, Entry>, rows: seq<Row>, s: Scope, r: Row)
    requires IsAggregate(m, RowsIn(s, rows)) && IsAggregate(n, Filter(Selected(s), rows))
    requires r in rows && InScope(s)(r) && !Selected(s)(r) && r.cnt > 0
    ensures m != n
  {
    var wide := (q: Row) => OfMac(r.mac)(q) && InScope(s)(q);
    var narrow := (q: Row) => OfMac(r.mac)(q) && Selected(s)(q);
    FilterTwice(OfMac(r.mac), InScope(s), wide, rows);
    FilterTwice(OfMac(r.mac), Selected(s), narrow, rows);
    FilterMember(wide, rows, r);
    assert EntryFits(m, RowsIn(s, rows), r.mac) && EntryFits(n, Filter(Selected(s), rows), r.mac);
    FilterLoses(narrow, wide, rows, r);
    if r.mac in n {
      assert m[r.mac].total != n[r.mac].total;
    }
  }

  // Both queries may return their rows in any order: all but the family still agree.
  lemma OnePassIsPerScopeInAnyOrder(
      byScope: map<Scope, map<string, Entry>>, keep: set<Scope>, rows: seq<Row>, s: Scope,
      scoped: seq<Row>, byMac: map<string, Entry>)
    requires IsPartition(byScope, keep, rows)
    requires multiset(scoped) == multiset(Filter(Selected(s), rows)) && IsAggregate(byMac, scoped)
    requires s in keep && s.wlan != ""
    ensures EntriesAt(byScope, s).Keys == byMac.Keys
    ensures forall mac :: mac in byMac ==> byMac[mac].(family := EntriesAt(byScope, s)[mac].family) == EntriesAt(byScope, s)[mac]
  {
    FilterSame(InScope(s), Selected(s), rows);
    assert ScopeFits(byScope, rows, s);
    AggregatesIgnoreOrder(byMac, EntriesAt(byScope, s), scoped, RowsIn(s, rows));
  }

  // ---- the device family --------------------------------------------------

  // A name that is there, not empty and not "Unknown".
  ghost predicate Concrete(family: Option<string>) {
    family.Some? && family.value != "" && family.value != "Unknown"
  }

  ghost predicate FirstConcrete(rs: seq<Row>, i: nat) {
    i < |rs| && Concrete(rs[i].family) && forall j :: 0 <= j < i ==> !Concrete(rs[j].family)
  }

  ghost predicate AllVague(rs: seq<Row>) {
    forall r :: r in rs ==> !Concrete(r.family)
  }

  lemma {:induction false} ConcreteExists(rs: seq<Row>)
    ensures AllVague(rs) || exists i: nat :: FirstConcrete(rs, i)
  {
    if rs != [] {
      var init, last := rs[..|rs| - 1], rs[|rs| - 1];
      ConcreteExists(init);
      assert rs == init + [last];
      if AllVague(init) {
        assert forall j :: 0 <= j < |init| ==> init[j] in init;
        assert !Concrete(last.family) || FirstConcrete(rs, |rs| - 1);
      } else {
        var k: nat :| FirstConcrete(init, k);
        assert FirstConcrete(rs, k);
      }
    }
  }

  lemma {:induction false} VagueFamily(rs: seq<Row>)
    requires rs != [] && AllVague(rs)
    ensures (exists r :: r in rs && r.family == Some("Unknown")) ==> FamilyOf(rs) == Some("Unknown")
    ensures (forall r :: r in rs ==> r.family != Some("Unknown")) ==> FamilyOf(rs) == rs[0].family
    ensures !Concrete(FamilyOf(rs))
  {
    assert rs[0] in rs;
    if |rs| > 1 {
      var init, last := rs[..|rs| - 1], rs[|rs| - 1];
      assert rs == init + [last];
      assert last in rs && forall r :: r in init ==> r in rs;
      VagueFamily(init);
    }
  }

  lemma {:induction false} FirstConcreteDecides(rs: seq<Row>, i: nat)
    requires FirstConcrete(rs, i)
    ensures FamilyOf(rs) == rs[i].family
  {
    if |rs| > 1 {
      var init := rs[..|rs| - 1];
      if i < |init| {
        FirstConcreteDecides(init, i);
      } else {
        forall r | r in init ensures !Concrete(r.family) {
          var j :| 0 <= j < |init| && init[j] == r;
          assert rs[j] == r;
        }
        VagueFamily(init);
      }
    }
  }

  // The first concrete name; failing that "Unknown" if any row says so; failing that, what
  // the first row has.
  lemma FamilyIsFirstConcrete(rs: seq<Row>)
    requires rs != []
    ensures AllVague(rs) || exists i: nat :: FirstConcrete(rs, i)
    ensures forall i: nat :: FirstConcrete(rs, i) ==> FamilyOf(rs) == rs[i].family
    ensures AllVague(rs) && (exists r :: r in rs && r.family == Some("Unknown")) ==> FamilyOf(rs) == Some("Unknown")
    ensures AllVague(rs) && (forall r :: r in rs ==> r.family != Some("Unknown")) ==> FamilyOf(rs) == rs[0].family
  {
    ConcreteExists(rs);
    forall i: nat | FirstConcrete(rs, i) ensures FamilyOf(rs) == rs[i].family {
      FirstConcreteDecides(rs, i);
    }
    if AllVague(rs) {
      VagueFamily(rs);
    }
  }

  // At most one concrete name; and with none, an "Unknown" or no choice at all.
  ghost predicate Settled(rs: seq<Row>) {
    && (forall r, q :: r in rs && q in rs && Concrete(r.family) && Concrete(q.family) ==> r.family == q.family)
    && (AllVague(rs) ==>
          (exists r :: r in rs && r.family == Some("Unknown"))
          || forall r, q :: r in rs && q in rs ==> r.family == q.family)
  }

  ghost predicate FamilyIgnoresOrder(rs: seq<Row>)
    requires rs != []
  {
    forall qs :: multiset(qs) == multiset(rs) && qs != [] ==> FamilyOf(qs) == FamilyOf(rs)
  }

  // The family is the one field that may depend on the order of the rows, and this is when.
  lemma FamilyIgnoresOrderIffSettled(rs: seq<Row>)
    requires rs != []
    ensures FamilyIgnoresOrder(rs) <==> Settled(rs)
  {
    if Settled(rs) {
      forall qs | multiset(qs) == multiset(rs) && qs != [] ensures FamilyOf(qs) == FamilyOf(rs) {
        SettledFamily(rs, qs);
      }
    } else if r, q :| r in rs && q in rs && Concrete(r.family) && Concrete(q.family) && r.family != q.family {
      FrontedFamily(rs, r);
      FrontedFamily(rs, q);
    } else {
      var r, q :| r in rs && q in rs && r.family != q.family;
      FrontedFamily(rs, r);
      FrontedFamily(rs, q);
    }
  }

  lemma SettledFamily(rs: seq<Row>, qs: seq<Row>)
    requires rs != [] && qs != [] && multiset(qs) == multiset(rs) && Settled(rs)
    ensures FamilyOf(qs) == FamilyOf(rs)
  {
    SameMembers(rs, qs);
    FamilyIsFirstConcrete(rs);
    FamilyIsFirstConcrete(qs);
    if AllVague(rs) {
      assert rs[0] in rs && qs[0] in rs;
    } else {
      var i: nat :| FirstConcrete(rs, i);
      assert !AllVague(qs);
      var j: nat :| FirstConcrete(qs, j);
      assert rs[i] in rs && qs[j] in rs;
    }
  }

  lemma FrontRowDecides(rs: seq<Row>)
    requires rs != []
    requires Concrete(rs[0].family) || (AllVague(rs) && forall q :: q in rs ==> q.family != Some("Unknown"))
    ensures FamilyOf(rs) == rs[0].family
  {
    if !Concrete(rs[0].family) {
      VagueFamily(rs);
    } else {
      FirstConcreteDecides(rs, 0);
    }
  }

  lemma MovedToFront(rs: seq<Row>, k: nat)
    requires k < |rs|
    ensures multiset([rs[k]] + rs[..k] + rs[k + 1..]) == multiset(rs)
  {
    assert rs == rs[..k] + [rs[k]] + rs[k + 1..];
  }

  // Moving a row to the front decides the family by it when it is concrete or nothing names one.
  lemma FrontedFamily(rs: seq<Row>, r: Row)
    requires r in rs
    requires Concrete(r.family) || (AllVague(rs) && forall q :: q in rs ==> q.family != Some("Unknown"))
    ensures exists qs :: qs != [] && multiset(qs) == multiset(rs) && FamilyOf(qs) == r.family
  {
    var k :| 0 <= k < |rs| && rs[k] == r;
    var qs := [r] + rs[..k] + rs[k + 1..];
    MovedToFront(rs, k);
    SameMembers(rs, qs);
    FrontRowDecides(qs);
  }

  // ---- the category columns -----------------------------------------------

  function Column(e: Entry): Category -> nat {
    (c: Category) => e.cats[Known(c)]
  }

  function CntForeign(r: Row): nat {
    if LabelOf(r).Foreign? then r.cnt else 0
  }

  function CntIn(rs: seq<Row>): Category -> nat {
    (c: Category) => Total(CntUnder(Known(c)), rs)
  }

  lemma EveryCategoryIsListed(c: Category)
    ensures c in CATEGORIES
  {
    var order := CATEGORIES;
    assert order[0] == DhcpSuccess && order[1] == DhcpFailure && order[2] == DnsSuccess && order[3] == DnsFailure;
    assert order[4] == AuthSuccess && order[5] == AuthFailure && order[6] == RoamSuccess && order[7] == RoamFailure;
    assert order[8] == DisassocAp && order[9] == DisassocClient && order[10] == ArpSuccess && order[11] == ArpFailure;
    assert order[12] == CaptivePortal && order[13] == Security && order[14] == Collaboration && order[15] == Other;
  }

  lemma ColumnsStep(init: seq<Row>, last: Row)
    ensures Total(CntIn(init + [last]), CATEGORIES)
      == Total(CntIn(init), CATEGORIES) + if LabelOf(last).Known? then last.cnt else 0
  {
    assert (init + [last])[..|init|] == init;
    match LabelOf(last)
    case Known(c) =>
      EveryCategoryIsListed(c);
      RaiseTotal(CntIn(init), CntIn(init + [last]), CATEGORIES, c, last.cnt);
    case Foreign(_) =>
      SameTotal(CntIn(init), CntIn(init + [last]), CATEGORIES);
  }

  lemma {:induction false} ColumnsAndForeign(rs: seq<Row>)
    ensures Total(CntIn(rs), CATEGORIES) + Total(CntForeign, rs) == Total(CntOf, rs)
  {
    if rs == [] {
      ZeroTotal(CntIn(rs), CATEGORIES);
    } else {
      var init, last := rs[..|rs| - 1], rs[|rs| - 1];
      ColumnsAndForeign(init);
      ColumnsStep(init, last);
      assert rs == init + [last];
    }
  }

  // The sixteen columns of a summary row add up to total_events exactly when no counted row
  // carries a category outside the column map; such rows are dropped, not added to `other`.
  lemma ColumnsAddUpIff(e: Entry, rs: seq<Row>)
    requires rs != [] && IsSummaryOf(e, rs)
    ensures Total(Column(e), CATEGORIES) + Total(CntForeign, rs) == e.total
    ensures Total(Column(e), CATEGORIES) == e.total
      <==> forall r :: r in rs && r.cnt > 0 ==> LabelOf(r).Known?
  {
    ColumnsAndForeign(rs);
    SameTotal(CntIn(rs), Column(e), CATEGORIES);
    if forall r :: r in rs && r.cnt > 0 ==> LabelOf(r).Known? {
      ZeroTotal(CntForeign, rs);
    } else {
      var r :| r in rs && r.cnt > 0 && LabelOf(r).Foreign?;
      MemberAtMostTotal(CntForeign, rs, r);
    }
  }

  // Ingest stores only the sixteen keys, so every row it wrote is covered.
  lemma StoredCategoriesAddUp(e: Entry, rs: seq<Row>)
    requires rs != [] && IsSummaryOf(e, rs)
    requires forall r :: r in rs ==> r.stored == Some(Known(CategoryOf(r.etype))) || r.stored.None?
    ensures Total(Column(e), CATEGORIES) == e.total
  {
    ColumnsAddUpIff(e, rs);
  }
}

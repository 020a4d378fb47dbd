// Three loops that decide which findings are alerts: the site badge, the alert feed and the
// webhook. The repository writes each out on its own.
module Alerts {
  import opened Vocabulary
  import opened Sequences
  import opened Ratios
  import opened DualRecords
  import opened Findings

  // A family's stored health; an absent score counts as healthy.
  datatype FamilyHealth = FamilyHealth(score: Option<real>, alarms: nat, alarmRatio: Option<real>)

  const NO_HEALTH := FamilyHealth(None, 0, None)

  // A finding as stored: `embedded` is the health an organisation-wide finding carries itself.
  datatype Stored = Stored(finding: Finding, wlan: Option<string>, embedded: FamilyHealth)

  datatype Alert = Alert(source: Stored, wlan: string, health: FamilyHealth)

  datatype Combine = Either | Both

  datatype Gates = Gates(ratio: real, healthBelow: real, servicePct: real, minSize: int, combine: Combine)

  // Results by site and sanitised WLAN name, the last segments of the Redis keys.
  datatype Store = Store(
    findings: map<(string, string), seq<Stored>>,
    health: map<(string, string), map<string, FamilyHealth>>,
    orgFindings: map<string, seq<Stored>>)

  const EMPTY_STORE := Store(map[], map[], map[])

  // ---- keys and writes ----------------------------------------------------

  // What the runtime's regular expressions call whitespace.
  predicate IsWhitespace(c: char) {
    var k := c as int;
    9 <= k <= 13 || 28 <= k <= 32 || 0x2000 <= k <= 0x200a
    || k in {0x85, 0xa0, 0x1680, 0x2028, 0x2029, 0x202f, 0x205f, 0x3000}
  }

  predicate IsSeparator(c: char) {
    c == ':' || c == '/' || IsWhitespace(c)
  }

  function Hyphenated(c: char): char {
    if IsSeparator(c) then '-' else c
  }

  function SanitizeWlanKey(wlan: string): string {
    Map(Hyphenated, wlan)
  }

  // Hyphen, colon, slash, and the 29 characters the runtime treats as white space, by code point.
  ghost predicate Interchangeable(c: char) {
    || c in {'-', ':', '/', ' ', '\t', '\n', '\r'}
    || c as int in {11, 12, 28, 29, 30, 31, 133, 160, 5760, 8192, 8193, 8194, 8195, 8196, 8197, 8198, 8199, 8200,
                    8201, 8202, 8232, 8233, 8239, 8287, 12288}
  }

  lemma SeparatorsByCodePoint(c: char)
    ensures Interchangeable(c) <==> IsSeparator(c) || c == '-'
  {
  }

  // Two names collide when they differ only in which separator or hyphen they use.
  lemma NamesShareKeyIff(v: string, w: string)
    ensures SanitizeWlanKey(v) == SanitizeWlanKey(w) <==>
      |v| == |w| && forall i :: 0 <= i < |v| ==> v[i] == w[i] || (Interchangeable(v[i]) && Interchangeable(w[i]))
  {
    var a, b := SanitizeWlanKey(v), SanitizeWlanKey(w);
    forall c: char ensures Interchangeable(c) <==> IsSeparator(c) || c == '-' {
      SeparatorsByCodePoint(c);
    }
    if a == b {
      forall i | 0 <= i < |v| ensures v[i] == w[i] || (Interchangeable(v[i]) && Interchangeable(w[i])) {
        assert a[i] == b[i];
      }
    }
  }

  datatype Write =
    | SetFindings(site: string, wlan: string, results: seq<Stored>)
    | SetHealth(site: string, wlan: string, byFamily: map<string, FamilyHealth>)
    | SetOrgFindings(wlan: string, results: seq<Stored>)
    | Expire(findings: set<(string, string)>, health: set<(string, string)>, orgFindings: set<string>)

  function StampedWith(wlan: string): Stored -> Stored {
    (f: Stored) => f.(wlan := Some(wlan))
  }

  function Applied(store: Store, write: Write): Store {
    match write
    case SetFindings(site, wlan, results) =>
      store.(findings := store.findings[(site, SanitizeWlanKey(wlan)) := Map(StampedWith(wlan), results)])
    case SetHealth(site, wlan, byFamily) =>
      store.(health := store.health[(site, SanitizeWlanKey(wlan)) := byFamily])
    case SetOrgFindings(wlan, results) =>
      store.(orgFindings := store.orgFindings[SanitizeWlanKey(wlan) := Map(StampedWith(wlan), results)])
    case Expire(findings, health, orgFindings) =>
      Store(store.findings - findings, store.health - health, store.orgFindings - orgFindings)
  }

  function StoreAfter(writes: seq<Write>): Store {
    if writes == [] then EMPTY_STORE else
    Applied(StoreAfter(writes[..|writes| - 1]), writes[|writes| - 1])
  }

  lemma OneMoreWrite(writes: seq<Write>, write: Write)
    ensures StoreAfter(writes + [write]) == Applied(StoreAfter(writes), write)
  {
    assert (writes + [write])[..|writes|] == writes;
  }

  // All results under a key name one writer, whose name has that key.
  ghost predicate OneWriter(findings: seq<Stored>, key: string) {
    forall f :: f in findings ==>
      f.wlan.Some? && SanitizeWlanKey(f.wlan.value) == key && f.wlan == findings[0].wlan
  }

  ghost predicate WellWritten(store: Store) {
    && (forall k :: k in store.findings ==> OneWriter(store.findings[k], k.1))
    && (forall k :: k in store.orgFindings ==> OneWriter(store.orgFindings[k], k))
  }

  lemma StampingMakesOneWriter(wlan: string, results: seq<Stored>)
    ensures OneWriter(Map(StampedWith(wlan), results), SanitizeWlanKey(wlan))
  {
  }

  lemma {:induction false} EveryHistoryIsWellWritten(writes: seq<Write>)
    ensures WellWritten(StoreAfter(writes))
  {
    if writes != [] {
      var last := writes[|writes| - 1];
      EveryHistoryIsWellWritten(writes[..|writes| - 1]);
      if !last.Expire? && !last.SetHealth? {
        StampingMakesOneWriter(last.wlan, last.results);
      }
    }
  }

  function ScoreOf(h: FamilyHealth): real {
    if h.score.Some? then h.score.value else 1.0
  }

  function AlarmRatioOf(h: FamilyHealth): real {
    if h.alarmRatio.Some? then h.alarmRatio.value else 0.0
  }

  function HealthIn(health: map<string, FamilyHealth>, family: string): FamilyHealth {
    if family in health then health[family] else NO_HEALTH
  }

  predicate PassesRollupGate(f: Finding, ratio: real) {
    if f.family in HIDDEN_FAMILIES then false
    else if f.isFamilyOutlier then true
    else if f.total <= 0 then false
    else f.unionCount as real / f.total as real >= ratio
  }

  predicate HealthGatePasses(byScore: bool, byService: bool, combine: Combine) {
    if combine == Both then byScore && byService else byScore || byService
  }

  // The badge's gate.
  predicate IsAlert(f: Stored, h: FamilyHealth, g: Gates) {
    && PassesRollupGate(f.finding, g.ratio)
    && HealthGatePasses(ScoreOf(h) < g.healthBelow, h.alarms > 0 && AlarmRatioOf(h) >= g.servicePct, g.combine)
    && f.finding.total >= g.minSize
  }

  // ---- the gates field by field -------------------------------------------

  // The health gate: the score, or the share of alarming clients once a service alarms.
  ghost predicate Unwell(h: FamilyHealth, g: Gates) {
    var byScore := (if h.score.None? then 1.0 else h.score.value) < g.healthBelow;
    var byService := h.alarms > 0 && (if h.alarmRatio.None? then 0.0 else h.alarmRatio.value) >= g.servicePct;
    match g.combine
    case Either => byScore || byService
    case Both => byScore && byService
  }

  // Enough clients flagged by DBSCAN or Markov, or the centroid flag.
  ghost predicate Widespread(f: Finding, ratio: real) {
    f.isFamilyOutlier || (f.total > 0 && f.unionCount as real >= ratio * f.total as real)
  }

  ghost predicate ShouldAlert(f: Finding, h: FamilyHealth, g: Gates) {
    && f.family != "Unknown" && f.family != "IoT (Unknown)"
    && Widespread(f, g.ratio) && Unwell(h, g) && f.total >= g.minSize
  }

  lemma AlertByField(f: Stored, h: FamilyHealth, g: Gates)
    ensures IsAlert(f, h, g) <==> ShouldAlert(f.finding, h, g)
  {
    if f.finding.total > 0 {
      QuotientBelow(f.finding.unionCount as real, f.finding.total as real, g.ratio);
    }
  }

  // A named family of that many members, `either` of them flagged by DBSCAN or Markov.
  ghost predicate Alarms(family: string, members: nat, either: nat, centroid: bool, h: FamilyHealth, g: Gates) {
    && family != "Unknown" && family != "IoT (Unknown)"
    && Unwell(h, g) && members >= g.minSize
    && (centroid || either as real >= g.ratio * members as real)
  }

  lemma AlertByNumbers(f: Stored, h: FamilyHealth, g: Gates, members: nat, either: nat, centroid: bool)
    requires f.finding.total == members > 0 && f.finding.unionCount == either && f.finding.isFamilyOutlier == centroid
    ensures IsAlert(f, h, g) <==> Alarms(f.finding.family, members, either, centroid, h, g)
  {
    AlertByField(f, h, g);
  }

  // For whatever scoring produces: a family alerts exactly when its health fails, it is large
  // enough, and the centroid detector flagged it or DBSCAN and Markov together flagged a large
  // enough share of its members. Families without a name never do.
  lemma ProducedAlertIff(i: Rollup, f: Stored, h: FamilyHealth, g: Gates)
    requires Produces(i, f.finding)
    ensures IsAlert(f, h, g) <==>
      Alarms(f.finding.family, |i.members|, Count(NoisyOrDeviant(i.anomalies), i.members),
        f.finding.family in i.flagged, h, g)
  {
    TagsByField(i.anomalies, i.members);
    AlertByNumbers(f, h, g, |i.members|, Count(NoisyOrDeviant(i.anomalies), i.members), f.finding.family in i.flagged);
  }

  ghost predicate IsAlertOf(a: Alert, f: Stored, h: FamilyHealth, wlan: string) {
    a.source == f && a.health == h && a.wlan == if f.wlan.Some? && f.wlan.value != "" then f.wlan.value else wlan
  }

  // The health a family has in the stored table, or none at all.
  ghost predicate HasHealth(h: FamilyHealth, health: map<string, FamilyHealth>, family: string) {
    if family in health then h == health[family] else h == FamilyHealth(None, 0, None)
  }

  ghost predicate ListsSiteAlerts(alerts: seq<Alert>, findings: seq<Stored>, health: map<string, FamilyHealth>,
    wlan: string, g: Gates)
  {
    forall a :: a in alerts <==>
      && a.source in findings && IsAlertOf(a, a.source, a.health, wlan)
      && HasHealth(a.health, health, a.source.finding.family) && ShouldAlert(a.source.finding, a.health, g)
  }

  ghost predicate ListsOrgAlerts(alerts: seq<Alert>, findings: seq<Stored>, wlan: string, g: Gates) {
    forall a :: a in alerts <==>
      && a.source in findings && IsAlertOf(a, a.source, a.source.embedded, wlan)
      && ShouldAlert(a.source.finding, a.source.embedded, g)
  }

  lemma MapMember<A, B>(f: A -> B, p: A -> bool, s: seq<A>, y: B)
    ensures y in Map(f, Filter(p, s)) <==> exists x :: x in s && p(x) && f(x) == y
  {
    var kept := Filter(p, s);
    if y in Map(f, kept) {
      var i :| 0 <= i < |kept| && Map(f, kept)[i] == y;
      FilterMember(p, s, kept[i]);
    }
    if x :| x in s && p(x) && f(x) == y {
      FilterMember(p, s, x);
      var i :| 0 <= i < |kept| && kept[i] == x;
      assert Map(f, kept)[i] == y;
    }
  }

  lemma AlertForm(a: Alert, wlan: string, h: FamilyHealth)
    ensures IsAlertOf(a, a.source, h, wlan) <==> a == Alert(a.source, TagOf(a.source, wlan), h)
  {
  }

  lemma HealthForm(h: FamilyHealth, health: map<string, FamilyHealth>, family: string)
    ensures HasHealth(h, health, family) <==> h == HealthIn(health, family)
  {
  }

  lemma SiteAlertsByField(findings: seq<Stored>, health: map<string, FamilyHealth>, wlan: string, g: Gates)
    ensures ListsSiteAlerts(Map(SiteAlert(health, wlan), Filter(IsSiteAlert(health, g), findings)), findings, health, wlan, g)
  {
    var alerts := Map(SiteAlert(health, wlan), Filter(IsSiteAlert(health, g), findings));
    forall a ensures a in alerts <==>
      && a.source in findings && IsAlertOf(a, a.source, a.health, wlan)
      && HasHealth(a.health, health, a.source.finding.family) && ShouldAlert(a.source.finding, a.health, g)
    {
      MapMember(SiteAlert(health, wlan), IsSiteAlert(health, g), findings, a);
      AlertForm(a, wlan, a.health);
      HealthForm(a.health, health, a.source.finding.family);
      AlertByField(a.source, a.health, g);
      assert IsSiteAlert(health, g)(a.source) <==> IsAlert(a.source, HealthIn(health, a.source.finding.family), g);
    }
  }

  lemma OrgAlertsByField(findings: seq<Stored>, wlan: string, g: Gates)
    ensures ListsOrgAlerts(Map(OrgAlert(wlan), Filter(IsOrgAlert(g), findings)), findings, wlan, g)
  {
    var alerts := Map(OrgAlert(wlan), Filter(IsOrgAlert(g), findings));
    forall a ensures a in alerts <==>
      && a.source in findings && IsAlertOf(a, a.source, a.source.embedded, wlan)
      && ShouldAlert(a.source.finding, a.source.embedded, g)
    {
      MapMember(OrgAlert(wlan), IsOrgAlert(g), findings, a);
      AlertForm(a, wlan, a.source.embedded);
      AlertByField(a.source, a.source.embedded, g);
      assert IsOrgAlert(g)(a.source) <==> IsAlert(a.source, a.source.embedded, g);
    }
  }

  function IsSiteAlert(health: map<string, FamilyHealth>, g: Gates): Stored -> bool {
    (f: Stored) => IsAlert(f, HealthIn(health, f.finding.family), g)
  }

  function IsOrgAlert(g: Gates): Stored -> bool {
    (f: Stored) => IsAlert(f, f.embedded, g)
  }

  function FindingsAt(store: Store, site: string, wlan: string): seq<Stored> {
    var key := (site, SanitizeWlanKey(wlan));
    if key in store.findings then store.findings[key] else []
  }

  function HealthAt(store: Store, site: string, wlan: string): map<string, FamilyHealth> {
    var key := (site, SanitizeWlanKey(wlan));
    if key in store.health then store.health[key] else map[]
  }

  function OrgFindingsAt(store: Store, wlan: string): seq<Stored> {
    var key := SanitizeWlanKey(wlan);
    if key in store.orgFindings then store.orgFindings[key] else []
  }

  // alert_count of one site on the overview of one WLAN.
  function AlertCount(store: Store, site: string, wlan: string, g: Gates): nat {
    Count(IsSiteAlert(HealthAt(store, site, wlan), g), FindingsAt(store, site, wlan))
  }

  function OrgAlertCount(store: Store, wlan: string, g: Gates): nat {
    Count(IsOrgAlert(g), OrgFindingsAt(store, wlan))
  }

  // The results a writer leaves carry its name and are otherwise as given.
  ghost predicate Left(stored: seq<Stored>, results: seq<Stored>, wlan: string) {
    |stored| == |results| && forall i :: 0 <= i < |results| ==> stored[i] == results[i].(wlan := Some(wlan))
  }

  // A lookup under any name of the key yields the last write under it, and no other write but an
  // expiry touches it.
  lemma LookupsReadTheLastWrite(store: Store, write: Write, site: string, wlan: string)
    ensures var next, key := Applied(store, write), SanitizeWlanKey(wlan);
      && (match write
          case SetFindings(s, w, results) =>
            if s == site && SanitizeWlanKey(w) == key then Left(FindingsAt(next, site, wlan), results, w)
            else FindingsAt(next, site, wlan) == FindingsAt(store, site, wlan)
          case Expire(gone, _, _) =>
            FindingsAt(next, site, wlan) == if (site, key) in gone then [] else FindingsAt(store, site, wlan)
          case _ => FindingsAt(next, site, wlan) == FindingsAt(store, site, wlan))
      && (match write
          case SetHealth(s, w, byFamily) =>
            HealthAt(next, site, wlan)
            == if s == site && SanitizeWlanKey(w) == key then byFamily else HealthAt(store, site, wlan)
          case Expire(_, gone, _) =>
            HealthAt(next, site, wlan) == if (site, key) in gone then map[] else HealthAt(store, site, wlan)
          case _ => HealthAt(next, site, wlan) == HealthAt(store, site, wlan))
      && (match write
          case SetOrgFindings(w, results) =>
            if SanitizeWlanKey(w) == key then Left(OrgFindingsAt(next, wlan), results, w)
            else OrgFindingsAt(next, wlan) == OrgFindingsAt(store, wlan)
          case Expire(_, _, gone) =>
            OrgFindingsAt(next, wlan) == if key in gone then [] else OrgFindingsAt(store, wlan)
          case _ => OrgFindingsAt(next, wlan) == OrgFindingsAt(store, wlan))
  {
  }

  // ---- the alert feed -----------------------------------------------------

  function TagOf(f: Stored, wlan: string): string {
    if f.wlan.Some? && f.wlan.value != "" then f.wlan.value else wlan
  }

  function SiteAlert(health: map<string, FamilyHealth>, wlan: string): Stored -> Alert {
    (f: Stored) => Alert(f, TagOf(f, wlan), HealthIn(health, f.finding.family))
  }

  function OrgAlert(wlan: string): Stored -> Alert {
    (f: Stored) => Alert(f, TagOf(f, wlan), f.embedded)
  }

  // The alerts of one (site, WLAN), in the order of its findings.
  function AlertsAt(store: Store, site: string, wlan: string, g: Gates): seq<Alert> {
    var health := HealthAt(store, site, wlan);
    Map(SiteAlert(health, wlan), Filter(IsSiteAlert(health, g), FindingsAt(store, site, wlan)))
  }

  function OrgAlertsAt(store: Store, wlan: string, g: Gates): seq<Alert> {
    Map(OrgAlert(wlan), Filter(IsOrgAlert(g), OrgFindingsAt(store, wlan)))
  }

  // The feed enumerates raw names and concatenates what each one's key holds.
  function FeedOf(at: string -> seq<Alert>, wlans: seq<string>): seq<Alert> {
    if wlans == [] then [] else FeedOf(at, wlans[..|wlans| - 1]) + at(wlans[|wlans| - 1])
  }

  function SiteAlerts(store: Store, site: string, g: Gates): string -> seq<Alert> {
    (wlan: string) => AlertsAt(store, site, wlan, g)
  }

  function OrgAlerts(store: Store, g: Gates): string -> seq<Alert> {
    (wlan: string) => OrgAlertsAt(store, wlan, g)
  }

  function SiteFeed(store: Store, site: string, wlans: seq<string>, g: Gates): seq<Alert> {
    FeedOf(SiteAlerts(store, site, g), wlans)
  }

  function OrgFeed(store: Store, wlans: seq<string>, g: Gates): seq<Alert> {
    FeedOf(OrgAlerts(store, g), wlans)
  }

  // Name by name, in the order given.
  lemma {:induction false} FeedInOrder(at: string -> seq<Alert>, v: seq<string>, w: seq<string>)
    ensures FeedOf(at, v + w) == FeedOf(at, v) + FeedOf(at, w)
    ensures |w| == 1 ==> FeedOf(at, w) == at(w[0])
  {
    if w == [] {
      assert v + w == v;
    } else {
      var init, last := w[..|w| - 1], w[|w| - 1];
      assert (v + w)[..|v + w| - 1] == v + init;
      FeedInOrder(at, v, init);
    }
  }

  lemma MapStep<A, B>(f: A -> B, p: A -> bool, s: seq<A>, i: nat)
    requires i < |s|
    ensures Map(f, Filter(p, s[..i + 1])) == Map(f, Filter(p, s[..i])) + if p(s[i]) then [f(s[i])] else []
  {
    FilterStep(p, s, i);
  }

  // The feed's inner loop, with the gates in its own order.
  method CollectSiteAlerts(findings: seq<Stored>, health: map<string, FamilyHealth>, wlan: string, g: Gates)
    returns (alerts: seq<Alert>)
    ensures alerts == Map(SiteAlert(health, wlan), Filter(IsSiteAlert(health, g), findings))
    ensures ListsSiteAlerts(alerts, findings, health, wlan, g)
  {
    SiteAlertsByField(findings, health, wlan, g);
    alerts := [];
    for i := 0 to |findings|
      invariant alerts == Map(SiteAlert(health, wlan), Filter(IsSiteAlert(health, g), findings[..i]))
    {
      var f := findings[i];
      MapStep(SiteAlert(health, wlan), IsSiteAlert(health, g), findings, i);
      if !PassesRollupGate(f.finding, g.ratio) {
        continue;
      }
      var h := HealthIn(health, f.finding.family);
      var unhealthy := HealthGatePasses(
        ScoreOf(h) < g.healthBelow, h.alarms > 0 && AlarmRatioOf(h) >= g.servicePct, g.combine);
      var meetsFloor := f.finding.total >= g.minSize;
      if unhealthy && meetsFloor {
        alerts := alerts + [Alert(f, TagOf(f, wlan), h)];
      }
    }
    assert findings[..|findings|] == findings;
  }

  method CollectOrgAlerts(findings: seq<Stored>, wlan: string, g: Gates) returns (alerts: seq<Alert>)
    ensures alerts == Map(OrgAlert(wlan), Filter(IsOrgAlert(g), findings))
    ensures ListsOrgAlerts(alerts, findings, wlan, g)
  {
    OrgAlertsByField(findings, wlan, g);
    alerts := [];
    for i := 0 to |findings|
      invariant alerts == Map(OrgAlert(wlan), Filter(IsOrgAlert(g), findings[..i]))
    {
      var f := findings[i];
      MapStep(OrgAlert(wlan), IsOrgAlert(g), findings, i);
      if !PassesRollupGate(f.finding, g.ratio) {
        continue;
      }
      var unhealthy := HealthGatePasses(ScoreOf(f.embedded) < g.healthBelow,
        f.embedded.alarms > 0 && AlarmRatioOf(f.embedded) >= g.servicePct, g.combine);
      if unhealthy && f.finding.total >= g.minSize {
        alerts := alerts + [Alert(f, TagOf(f, wlan), f.embedded)];
      }
    }
    assert findings[..|findings|] == findings;
  }

  method CollectWlan(store: Store, wlan: string, sites: seq<string>, g: Gates, bySite: map<string, seq<Alert>>)
    returns (next: map<string, seq<Alert>>)
    requires NoDuplicates(sites) && bySite.Keys == set s | s in sites
    ensures next.Keys == bySite.Keys
    ensures forall s :: s in sites ==> next[s] == bySite[s] + AlertsAt(store, s, wlan, g)
  {
    next := bySite;
    for i := 0 to |sites|
      invariant next.Keys == bySite.Keys
      invariant forall j :: 0 <= j < i ==> next[sites[j]] == bySite[sites[j]] + AlertsAt(store, sites[j], wlan, g)
      invariant forall j :: i <= j < |sites| ==> next[sites[j]] == bySite[sites[j]]
    {
      var site := sites[i];
      var alerts := CollectSiteAlerts(FindingsAt(store, site, wlan), HealthAt(store, site, wlan), wlan, g);
      next := next[site := next[site] + alerts];
    }
  }

  method BuildOrgAlertsFull(store: Store, wlans: seq<string>, sites: seq<string>, g: Gates)
    returns (orgAlerts: seq<Alert>, bySite: map<string, seq<Alert>>)
    requires NoDuplicates(sites)
    ensures orgAlerts == OrgFeed(store, wlans, g)
    ensures bySite.Keys == set s | s in sites
    ensures forall s :: s in sites ==> bySite[s] == SiteFeed(store, s, wlans, g)
  {
    orgAlerts := [];
    bySite := map s | s in sites :: [];
    for i := 0 to |wlans|
      invariant orgAlerts == OrgFeed(store, wlans[..i], g)
      invariant bySite.Keys == set s | s in sites
      invariant forall s :: s in sites ==> bySite[s] == SiteFeed(store, s, wlans[..i], g)
    {
      var wlan := wlans[i];
      assert wlans[..i + 1][..i] == wlans[..i];
      var org := CollectOrgAlerts(OrgFindingsAt(store, wlan), wlan, g);
      orgAlerts := orgAlerts + org;
      bySite := CollectWlan(store, wlan, sites, g, bySite);
    }
    assert wlans[..|wlans|] == wlans;
  }

  // ---- when the badge and the feed agree ----------------------------------

  function ListedUnder(wlan: string): Alert -> bool {
    (a: Alert) => a.wlan == wlan
  }

  function SharesKey(wlan: string): string -> bool {
    (v: string) => SanitizeWlanKey(v) == SanitizeWlanKey(wlan)
  }

  // The WLAN whose scoring last wrote the findings, as they name it.
  function WriterOf(findings: seq<Stored>): Option<string> {
    if findings == [] then None else findings[0].wlan
  }

  lemma AlertsNameTheWriter(findings: seq<Stored>, f: Stored, wlan: string)
    requires OneWriter(findings, SanitizeWlanKey(wlan)) && f in findings
    ensures WriterOf(findings) == Some(TagOf(f, wlan))
  {
  }

  lemma ListedOfAll(f: Stored -> Alert, p: Stored -> bool, findings: seq<Stored>, asked: string, all: bool)
    requires forall s :: s in findings ==> (f(s).wlan == asked <==> all)
    ensures Count(ListedUnder(asked), Map(f, Filter(p, findings))) == if all then Count(p, findings) else 0
  {
    var kept := Filter(p, findings);
    FilterCount(p, findings);
    forall a | a in Map(f, kept) ensures a.wlan == asked <==> all {
      var i :| 0 <= i < |kept| && Map(f, kept)[i] == a;
      FilterMember(p, findings, kept[i]);
    }
    if all {
      CountAll(ListedUnder(asked), Map(f, kept));
    } else {
      CountZero(ListedUnder(asked), Map(f, kept));
    }
  }

  lemma ListedOfKey(f: Stored -> Alert, p: Stored -> bool, findings: seq<Stored>, next: string, asked: string)
    requires OneWriter(findings, SanitizeWlanKey(next))
    requires forall s :: f(s).wlan == TagOf(s, next)
    ensures Count(ListedUnder(asked), Map(f, Filter(p, findings)))
      == if WriterOf(findings) == Some(asked) then Count(p, findings) else 0
  {
    forall s | s in findings ensures f(s).wlan == asked <==> WriterOf(findings) == Some(asked) {
      AlertsNameTheWriter(findings, s, next);
    }
    ListedOfAll(f, p, findings, asked, WriterOf(findings) == Some(asked));
  }

  lemma WriterHasKey(findings: seq<Stored>, key: string, asked: string)
    requires OneWriter(findings, key) && WriterOf(findings) == Some(asked)
    ensures SanitizeWlanKey(asked) == key
  {
    assert findings[0] in findings;
  }

  // What one enumerated name adds to the list of another.
  lemma SiteShare(store: Store, site: string, next: string, wlan: string, g: Gates)
    requires WellWritten(store)
    ensures Count(ListedUnder(wlan), AlertsAt(store, site, next, g))
      == if WriterOf(FindingsAt(store, site, wlan)) == Some(wlan) && SharesKey(wlan)(next)
         then AlertCount(store, site, wlan, g) else 0
  {
    var findings, health := FindingsAt(store, site, next), HealthAt(store, site, next);
    ListedOfKey(SiteAlert(health, next), IsSiteAlert(health, g), findings, next, wlan);
    if WriterOf(findings) == Some(wlan) {
      WriterHasKey(findings, SanitizeWlanKey(next), wlan);
    }
  }

  lemma OrgShare(store: Store, next: string, wlan: string, g: Gates)
    requires WellWritten(store)
    ensures Count(ListedUnder(wlan), OrgAlertsAt(store, next, g))
      == if WriterOf(OrgFindingsAt(store, wlan)) == Some(wlan) && SharesKey(wlan)(next)
         then OrgAlertCount(store, wlan, g) else 0
  {
    var findings := OrgFindingsAt(store, next);
    ListedOfKey(OrgAlert(next), IsOrgAlert(g), findings, next, wlan);
    if WriterOf(findings) == Some(wlan) {
      WriterHasKey(findings, SanitizeWlanKey(next), wlan);
    }
  }

  lemma {:induction false} FeedCount(at: string -> seq<Alert>, wlans: seq<string>, wlan: string, n: nat)
    requires forall v {:trigger at(v)} :: Count(ListedUnder(wlan), at(v)) == if SharesKey(wlan)(v) then n else 0
    ensures Count(ListedUnder(wlan), FeedOf(at, wlans)) == Count(SharesKey(wlan), wlans) * n
  {
    if wlans != [] {
      var init, last := wlans[..|wlans| - 1], wlans[|wlans| - 1];
      FeedCount(at, init, wlan, n);
      CountConcat(ListedUnder(wlan), FeedOf(at, init), at(last));
      OneMoreTime(Count(SharesKey(wlan), init), n);
    }
  }

  // What the feed lists for any name, in any history: the writer's badge once for every
  // enumerated name of its key, and nothing for the other names of that key.
  lemma SiteFeedCount(writes: seq<Write>, site: string, wlans: seq<string>, wlan: string, g: Gates)
    ensures var store := StoreAfter(writes);
      Count(ListedUnder(wlan), SiteFeed(store, site, wlans, g))
      == Count(SharesKey(wlan), wlans)
         * if WriterOf(FindingsAt(store, site, wlan)) == Some(wlan) then AlertCount(store, site, wlan, g) else 0
  {
    var store := StoreAfter(writes);
    EveryHistoryIsWellWritten(writes);
    var n := if WriterOf(FindingsAt(store, site, wlan)) == Some(wlan) then AlertCount(store, site, wlan, g) else 0;
    forall v ensures Count(ListedUnder(wlan), SiteAlerts(store, site, g)(v)) == if SharesKey(wlan)(v) then n else 0 {
      SiteShare(store, site, v, wlan, g);
    }
    FeedCount(SiteAlerts(store, site, g), wlans, wlan, n);
  }

  lemma OrgFeedCount(writes: seq<Write>, wlans: seq<string>, wlan: string, g: Gates)
    ensures var store := StoreAfter(writes);
      Count(ListedUnder(wlan), OrgFeed(store, wlans, g))
      == Count(SharesKey(wlan), wlans)
         * if WriterOf(OrgFindingsAt(store, wlan)) == Some(wlan) then OrgAlertCount(store, wlan, g) else 0
  {
    var store := StoreAfter(writes);
    EveryHistoryIsWellWritten(writes);
    var n := if WriterOf(OrgFindingsAt(store, wlan)) == Some(wlan) then OrgAlertCount(store, wlan, g) else 0;
    forall v ensures Count(ListedUnder(wlan), OrgAlerts(store, g)(v)) == if SharesKey(wlan)(v) then n else 0 {
      OrgShare(store, v, wlan, g);
    }
    FeedCount(OrgAlerts(store, g), wlans, wlan, n);
  }

  // No other enumerated name has the key.
  ghost predicate OwnKey(wlan: string, wlans: seq<string>) {
    forall v :: v in wlans && SharesKey(wlan)(v) ==> v == wlan
  }

  lemma {:induction false} OwnKeyIff(wlan: string, wlans: seq<string>)
    requires NoDuplicates(wlans)
    ensures wlan in wlans ==> (Count(SharesKey(wlan), wlans) == 1 <==> OwnKey(wlan, wlans))
    ensures wlan !in wlans ==> (Count(SharesKey(wlan), wlans) == 0 <==> OwnKey(wlan, wlans))
  {
    if wlans != [] {
      var init, last := wlans[..|wlans| - 1], wlans[|wlans| - 1];
      assert wlans == init + [last];
      OwnKeyIff(wlan, init);
      if wlan in init {
        CountPositive(SharesKey(wlan), init, wlan);
      }
    }
  }

  lemma OnceIff(n: nat, c: nat, w: bool)
    requires c > 0
    ensures c * (if w then n else 0) == n <==> n == 0 || (w && c == 1)
  {
    if n > 0 && c > 1 {
      assert c * n > 1 * n;
    }
  }

  // In every history a WLAN's badge is the number of alerts the feed lists for it exactly when
  // it has none, or it wrote the findings last and no other enumerated name has its key.
  lemma SiteBadgeMatchesFeedIff(writes: seq<Write>, site: string, wlans: seq<string>, wlan: string, g: Gates)
    requires NoDuplicates(wlans) && wlan in wlans
    ensures var store := StoreAfter(writes);
      Count(ListedUnder(wlan), SiteFeed(store, site, wlans, g)) == AlertCount(store, site, wlan, g) <==>
        AlertCount(store, site, wlan, g) == 0
        || (WriterOf(FindingsAt(store, site, wlan)) == Some(wlan) && OwnKey(wlan, wlans))
  {
    var store := StoreAfter(writes);
    SiteFeedCount(writes, site, wlans, wlan, g);
    CountPositive(SharesKey(wlan), wlans, wlan);
    OwnKeyIff(wlan, wlans);
    OnceIff(AlertCount(store, site, wlan, g), Count(SharesKey(wlan), wlans),
      WriterOf(FindingsAt(store, site, wlan)) == Some(wlan));
  }

  lemma OrgBadgeMatchesFeedIff(writes: seq<Write>, wlans: seq<string>, wlan: string, g: Gates)
    requires NoDuplicates(wlans) && wlan in wlans
    ensures var store := StoreAfter(writes);
      Count(ListedUnder(wlan), OrgFeed(store, wlans, g)) == OrgAlertCount(store, wlan, g) <==>
        OrgAlertCount(store, wlan, g) == 0
        || (WriterOf(OrgFindingsAt(store, wlan)) == Some(wlan) && OwnKey(wlan, wlans))
  {
    var store := StoreAfter(writes);
    OrgFeedCount(writes, wlans, wlan, g);
    CountPositive(SharesKey(wlan), wlans, wlan);
    OwnKeyIff(wlan, wlans);
    OnceIff(OrgAlertCount(store, wlan, g), Count(SharesKey(wlan), wlans),
      WriterOf(OrgFindingsAt(store, wlan)) == Some(wlan));
  }

  ghost predicate WrittenByListed(findings: seq<Stored>, wlans: seq<string>) {
    WriterOf(findings).Some? ==> WriterOf(findings).value in wlans
  }

  // So both badges are right for every WLAN once no two enumerated names share a key and
  // findings come from enumerated names.
  lemma DistinctKeysMakeBadgesMatch(writes: seq<Write>, site: string, wlans: seq<string>, wlan: string, g: Gates)
    requires NoDuplicates(wlans) && wlan in wlans
    requires forall w :: w in wlans ==> OwnKey(w, wlans)
    requires WrittenByListed(FindingsAt(StoreAfter(writes), site, wlan), wlans)
    requires WrittenByListed(OrgFindingsAt(StoreAfter(writes), wlan), wlans)
    ensures var store := StoreAfter(writes);
      Count(ListedUnder(wlan), SiteFeed(store, site, wlans, g)) == AlertCount(store, site, wlan, g)
      && Count(ListedUnder(wlan), OrgFeed(store, wlans, g)) == OrgAlertCount(store, wlan, g)
  {
    var store := StoreAfter(writes);
    EveryHistoryIsWellWritten(writes);
    WriterIsTheName(FindingsAt(store, site, wlan), wlans, wlan);
    WriterIsTheName(OrgFindingsAt(store, wlan), wlans, wlan);
    SiteNoFindingsNoAlerts(store, site, wlan, g);
    SiteBadgeMatchesFeedIff(writes, site, wlans, wlan, g);
    OrgBadgeMatchesFeedIff(writes, wlans, wlan, g);
  }

  lemma SiteNoFindingsNoAlerts(store: Store, site: string, wlan: string, g: Gates)
    ensures FindingsAt(store, site, wlan) == [] ==> AlertCount(store, site, wlan, g) == 0
    ensures OrgFindingsAt(store, wlan) == [] ==> OrgAlertCount(store, wlan, g) == 0
  {
  }

  lemma WriterIsTheName(findings: seq<Stored>, wlans: seq<string>, wlan: string)
    requires OneWriter(findings, SanitizeWlanKey(wlan)) && OwnKey(wlan, wlans) && WrittenByListed(findings, wlans)
    ensures findings == [] || WriterOf(findings) == Some(wlan)
  {
    if findings != [] {
      assert findings[0] in findings;
      assert SharesKey(wlan)(findings[0].wlan.value);
    }
  }

  const SPACED := "Guest WiFi"
  const HYPHENED := "Guest-WiFi"

  lemma GuestNamesShareKey()
    ensures SanitizeWlanKey(SPACED) == SanitizeWlanKey(HYPHENED) && SPACED != HYPHENED
  {
    assert SPACED[5] != HYPHENED[5];
    NamesShareKeyIff(SPACED, HYPHENED);
  }

  // Two names of one key, both scored, the hyphened one last with n alerting findings: both
  // badges read n, the feed lists 2n alerts under the last writer and none under the other.
  lemma CollidingNamesBreakTheBadges(writes: seq<Write>, site: string, results: seq<Stored>, g: Gates)
    ensures var store := StoreAfter(writes + [SetFindings(site, SPACED, results), SetFindings(site, HYPHENED, results)]);
      var n := AlertCount(store, site, HYPHENED, g);
      && AlertCount(store, site, SPACED, g) == n
      && Count(ListedUnder(HYPHENED), SiteFeed(store, site, [SPACED, HYPHENED], g)) == 2 * n
      && Count(ListedUnder(SPACED), SiteFeed(store, site, [SPACED, HYPHENED], g)) == 0
  {
    var first, second := SetFindings(site, SPACED, results), SetFindings(site, HYPHENED, results);
    var history := writes + [first, second];
    assert history == writes + [first] + [second];
    OneMoreWrite(writes + [first], second);
    var store := StoreAfter(history);
    GuestNamesShareKey();
    SiteNoFindingsNoAlerts(store, site, HYPHENED, g);
    assert results != [] ==> WriterOf(FindingsAt(store, site, HYPHENED)) == Some(HYPHENED);
    SiteFeedCount(history, site, [SPACED, HYPHENED], SPACED, g);
    SiteFeedCount(history, site, [SPACED, HYPHENED], HYPHENED, g);
    BothShareKey();
  }

  function FailingHealth(g: Gates): FamilyHealth {
    FamilyHealth(Some(g.healthBelow - 1.0), 1, Some(g.servicePct))
  }

  lemma OutlierAlerts(n: nat, g: Gates)
    requires n > 0 && n >= g.minSize
    ensures IsAlert(Stored(SilentFinding(n).(isFamilyOutlier := true), None, NO_HEALTH), FailingHealth(g), g)
  {
    SilentFamilyIsVisible();
  }

  function Collision(site: string, f: Stored, h: FamilyHealth): seq<Write> {
    [SetHealth(site, SPACED, map[f.finding.family := h]), SetFindings(site, SPACED, [f]), SetFindings(site, HYPHENED, [f])]
  }

  lemma CollisionContents(site: string, f: Stored, h: FamilyHealth)
    ensures var store := StoreAfter(Collision(site, f, h));
      && FindingsAt(store, site, HYPHENED) == [f.(wlan := Some(HYPHENED))]
      && HealthAt(store, site, HYPHENED) == map[f.finding.family := h]
  {
    var writes := Collision(site, f, h);
    GuestNamesShareKey();
    assert writes == [] + [writes[0]] + [writes[1]] + [writes[2]];
    OneMoreWrite([], writes[0]);
    OneMoreWrite([] + [writes[0]], writes[1]);
    OneMoreWrite([] + [writes[0]] + [writes[1]], writes[2]);
  }

  // Such histories exist under any gates.
  lemma SomeCollisionBreaksTheBadges(site: string, g: Gates) returns (writes: seq<Write>)
    ensures var store := StoreAfter(writes);
      && AlertCount(store, site, SPACED, g) == 1 && AlertCount(store, site, HYPHENED, g) == 1
      && Count(ListedUnder(HYPHENED), SiteFeed(store, site, [SPACED, HYPHENED], g)) == 2
      && Count(ListedUnder(SPACED), SiteFeed(store, site, [SPACED, HYPHENED], g)) == 0
  {
    var n: nat := if g.minSize < 1 then 1 else g.minSize;
    var f := Stored(SilentFinding(n).(isFamilyOutlier := true), None, NO_HEALTH);
    writes := Collision(site, f, FailingHealth(g));
    OutlierAlerts(n, g);
    CollisionContents(site, f, FailingHealth(g));
    CountAll(IsSiteAlert(map[f.finding.family := FailingHealth(g)], g), [f.(wlan := Some(HYPHENED))]);
    assert writes == [writes[0]] + [writes[1], writes[2]];
    CollidingNamesBreakTheBadges([writes[0]], site, [f], g);
  }

  lemma BothShareKey()
    ensures Count(SharesKey(HYPHENED), [SPACED, HYPHENED]) == 2
  {
    GuestNamesShareKey();
    CountAll(SharesKey(HYPHENED), [SPACED, HYPHENED]);
  }

  function SiteBadge(store: Store, site: string, g: Gates): string -> nat {
    (wlan: string) => AlertCount(store, site, wlan, g)
  }

  function OrgBadge(store: Store, g: Gates): string -> nat {
    (wlan: string) => OrgAlertCount(store, wlan, g)
  }

  lemma {:induction false} FeedLength(at: string -> seq<Alert>, badge: string -> nat, wlans: seq<string>)
    requires forall w {:trigger at(w)} :: |at(w)| == badge(w)
    ensures |FeedOf(at, wlans)| == Total(badge, wlans)
  {
    if wlans != [] {
      FeedLength(at, badge, wlans[..|wlans| - 1]);
      assert |at(wlans[|wlans| - 1])| == badge(wlans[|wlans| - 1]);
    }
  }

  // Collisions move alerts between names but lose none: a feed is as long as its badges add up to.
  lemma FeedLengthIsBadgeTotal(store: Store, site: string, wlans: seq<string>, g: Gates)
    ensures |SiteFeed(store, site, wlans, g)| == Total(SiteBadge(store, site, g), wlans)
    ensures |OrgFeed(store, wlans, g)| == Total(OrgBadge(store, g), wlans)
  {
    forall w
      ensures |SiteAlerts(store, site, g)(w)| == SiteBadge(store, site, g)(w)
      ensures |OrgAlerts(store, g)(w)| == OrgBadge(store, g)(w)
    {
      FilterCount(IsSiteAlert(HealthAt(store, site, w), g), FindingsAt(store, site, w));
      FilterCount(IsOrgAlert(g), OrgFindingsAt(store, w));
    }
    FeedLength(SiteAlerts(store, site, g), SiteBadge(store, site, g), wlans);
    FeedLength(OrgAlerts(store, g), OrgBadge(store, g), wlans);
  }

  // ---- the webhook --------------------------------------------------------

  function HealthFor(orgScope: bool, health: map<string, FamilyHealth>, f: Stored): FamilyHealth {
    if orgScope then f.embedded else HealthIn(health, f.finding.family)
  }

  function Alerting(orgScope: bool, health: map<string, FamilyHealth>, g: Gates): Stored -> bool {
    (f: Stored) => IsAlert(f, HealthFor(orgScope, health, f), g)
  }

  function AffectsAtLeast(threshold: int): Stored -> bool {
    (f: Stored) => f.finding.affected >= threshold
  }

  function Qualified(findings: seq<Stored>, health: map<string, FamilyHealth>, orgScope: bool, g: Gates, sizeThreshold: int): seq<Stored> {
    Filter(AffectsAtLeast(sizeThreshold), Filter(Alerting(orgScope, health, g), findings))
  }

  // An alert that affects enough clients; organisation findings carry their own health.
  ghost predicate ShouldSend(f: Stored, health: map<string, FamilyHealth>, orgScope: bool, g: Gates, sizeThreshold: int) {
    && f.finding.affected >= sizeThreshold
    && if orgScope then ShouldAlert(f.finding, f.embedded, g)
       else if f.finding.family in health then ShouldAlert(f.finding, health[f.finding.family], g)
       else ShouldAlert(f.finding, FamilyHealth(None, 0, None), g)
  }

  lemma QualifyingByField(findings: seq<Stored>, health: map<string, FamilyHealth>, orgScope: bool, g: Gates, sizeThreshold: int)
    ensures forall f :: f in Qualified(findings, health, orgScope, g, sizeThreshold) <==>
      f in findings && ShouldSend(f, health, orgScope, g, sizeThreshold)
  {
    forall f ensures f in Qualified(findings, health, orgScope, g, sizeThreshold) <==>
      f in findings && ShouldSend(f, health, orgScope, g, sizeThreshold)
    {
      FilterMember(Alerting(orgScope, health, g), findings, f);
      FilterMember(AffectsAtLeast(sizeThreshold), Filter(Alerting(orgScope, health, g), findings), f);
      AlertByField(f, HealthFor(orgScope, health, f), g);
    }
  }

  // The webhook's loop sends exactly the alerts whose affected count reaches its own floor.
  method QualifyingFindings(findings: seq<Stored>, health: map<string, FamilyHealth>, orgScope: bool, g: Gates,
    sizeThreshold: int) returns (qualifying: seq<Stored>)
    ensures qualifying == Qualified(findings, health, orgScope, g, sizeThreshold)
    ensures forall f :: f in qualifying <==> f in findings && ShouldSend(f, health, orgScope, g, sizeThreshold)
  {
    QualifyingByField(findings, health, orgScope, g, sizeThreshold);
    qualifying := [];
    for i := 0 to |findings|
      invariant qualifying == Qualified(findings[..i], health, orgScope, g, sizeThreshold)
    {
      var f := findings[i];
      FilterStep(Alerting(orgScope, health, g), findings, i);
      ghost var alerts := Filter(Alerting(orgScope, health, g), findings[..i]);
      FilterAppend(AffectsAtLeast(sizeThreshold), alerts, f);
      assert alerts + [] == alerts;
      if !PassesRollupGate(f.finding, g.ratio) {
        continue;
      }
      var h := if orgScope then f.embedded else HealthIn(health, f.finding.family);
      var byScore := ScoreOf(h) < g.healthBelow;
      var byService := h.alarms > 0 && AlarmRatioOf(h) >= g.servicePct;
      if !HealthGatePasses(byScore, byService, g.combine) {
        continue;
      }
      if f.finding.affected < sizeThreshold {
        continue;
      }
      if f.finding.total < g.minSize {
        continue;
      }
      qualifying := qualifying + [f];
    }
    assert findings[..|findings|] == findings;
  }

  // Some family's rollup under this Markov threshold yields the finding.
  ghost predicate Produced(f: Finding, markovThreshold: real) {
    exists i: Rollup :: i.s.markovThreshold == markovThreshold && Produces(i, f)
  }

  lemma PositiveGateAffectsSomeone(f: Finding, ratio: real)
    requires Coherent(f) && PassesRollupGate(f, ratio) && ratio > 0.0
    ensures f.affected >= 1
  {
  }

  lemma AlertAffectsSomeone(f: Stored, h: FamilyHealth, g: Gates, markovThreshold: real)
    requires Produced(f.finding, markovThreshold) && IsAlert(f, h, g)
    requires g.ratio > 0.0 || markovThreshold > 0.0
    ensures f.finding.affected >= 1
  {
    var i: Rollup :| i.s.markovThreshold == markovThreshold && Produces(i, f.finding);
    RollUpIsCoherent(i, f.finding);
    if g.ratio > 0.0 {
      PositiveGateAffectsSomeone(f.finding, g.ratio);
    }
  }

  lemma SilentAlert(g: Gates, markovThreshold: real) returns (f: Stored, h: FamilyHealth)
    requires g.ratio <= 0.0 && markovThreshold <= 0.0
    ensures Produced(f.finding, markovThreshold) && IsAlert(f, h, g) && f.finding.affected == 0
  {
    var n := if g.minSize < 1 then 1 else g.minSize;
    SilentFindingIsProduced(n, markovThreshold);
    f := Stored(SilentFinding(n), None, NO_HEALTH);
    h := FailingHealth(g);
    assert Produced(f.finding, markovThreshold) by {
      assert SilentRollup(n, markovThreshold).s.markovThreshold == markovThreshold;
    }
    SilentFindingPasses(n, g.ratio);
  }

  lemma SilentFindingPasses(n: nat, ratio: real)
    requires n > 0 && ratio <= 0.0
    ensures PassesRollupGate(SilentFinding(n), ratio)
  {
    SilentFamilyIsVisible();
    assert 0.0 / n as real == 0.0;
  }

  // With the default floor of one affected client the webhook holds back no alert of a finding
  // scoring can produce, exactly when the ratio gate or the Markov family threshold is positive.
  lemma DefaultFloorSendsEveryAlertIff(g: Gates, markovThreshold: real)
    ensures g.ratio > 0.0 || markovThreshold > 0.0 <==>
      forall f: Stored, h: FamilyHealth :: Produced(f.finding, markovThreshold) && IsAlert(f, h, g) ==> f.finding.affected >= 1
  {
    if g.ratio > 0.0 || markovThreshold > 0.0 {
      forall f: Stored, h: FamilyHealth | Produced(f.finding, markovThreshold) && IsAlert(f, h, g)
        ensures f.finding.affected >= 1
      {
        AlertAffectsSomeone(f, h, g, markovThreshold);
      }
    } else {
      var f, h := SilentAlert(g, markovThreshold);
    }
  }

  // ---- tightening the gates -----------------------------------------------

  // `t` is at least as strict as `g`: higher floors, a lower health bar, AND instead of OR.
  predicate Stricter(t: Gates, g: Gates) {
    && t.ratio >= g.ratio && t.servicePct >= g.servicePct && t.minSize >= g.minSize
    && t.healthBelow <= g.healthBelow
    && (g.combine == Both ==> t.combine == Both)
  }

  function StillAlert(t: Gates): Alert -> bool {
    (a: Alert) => IsAlert(a.source, a.health, t)
  }

  lemma {:induction false} FilterOfMap<A, B>(f: A -> B, q: B -> bool, p: A -> bool, r: A -> bool, s: seq<A>)
    requires forall x :: x in s ==> (r(x) <==> p(x) && q(f(x)))
    ensures Filter(q, Map(f, Filter(p, s))) == Map(f, Filter(r, s))
  {
    if s != [] {
      var init, last := s[..|s| - 1], s[|s| - 1];
      assert last in s;
      FilterOfMap(f, q, p, r, init);
      var kept := Filter(p, init);
      FilterAppend(q, Map(f, kept), f(last));
      assert Map(f, kept + [last]) == Map(f, kept) + [f(last)];
      assert Map(f, Filter(r, init) + [last]) == Map(f, Filter(r, init)) + [f(last)];
      assert kept + [] == kept && Filter(r, init) + [] == Filter(r, init);
    }
  }

  lemma StricterAlertsAt(store: Store, site: string, wlan: string, t: Gates, g: Gates)
    requires Stricter(t, g)
    ensures AlertsAt(store, site, wlan, t) == Filter(StillAlert(t), AlertsAt(store, site, wlan, g))
    ensures OrgAlertsAt(store, wlan, t) == Filter(StillAlert(t), OrgAlertsAt(store, wlan, g))
  {
    var health := HealthAt(store, site, wlan);
    FilterOfMap(SiteAlert(health, wlan), StillAlert(t), IsSiteAlert(health, g), IsSiteAlert(health, t),
      FindingsAt(store, site, wlan));
    FilterOfMap(OrgAlert(wlan), StillAlert(t), IsOrgAlert(g), IsOrgAlert(t), OrgFindingsAt(store, wlan));
  }

  lemma {:induction false} FilteredFeed(q: Alert -> bool, at: string -> seq<Alert>, cut: string -> seq<Alert>, wlans: seq<string>)
    requires forall w :: cut(w) == Filter(q, at(w))
    ensures FeedOf(cut, wlans) == Filter(q, FeedOf(at, wlans))
  {
    if wlans != [] {
      var init, last := wlans[..|wlans| - 1], wlans[|wlans| - 1];
      FilteredFeed(q, at, cut, init);
      FilterConcat(q, FeedOf(at, init), at(last));
    }
  }

  // Stricter gates only ever remove alerts: the feeds they give are the old feeds filtered.
  lemma StricterGatesOnlyRemove(store: Store, site: string, wlans: seq<string>, t: Gates, g: Gates)
    requires Stricter(t, g)
    ensures SiteFeed(store, site, wlans, t) == Filter(StillAlert(t), SiteFeed(store, site, wlans, g))
    ensures OrgFeed(store, wlans, t) == Filter(StillAlert(t), OrgFeed(store, wlans, g))
  {
    forall w
      ensures SiteAlerts(store, site, t)(w) == Filter(StillAlert(t), SiteAlerts(store, site, g)(w))
      ensures OrgAlerts(store, t)(w) == Filter(StillAlert(t), OrgAlerts(store, g)(w))
    {
      StricterAlertsAt(store, site, w, t, g);
    }
    FilteredFeed(StillAlert(t), SiteAlerts(store, site, g), SiteAlerts(store, site, t), wlans);
    FilteredFeed(StillAlert(t), OrgAlerts(store, g), OrgAlerts(store, t), wlans);
  }

  function StillQualifies(orgScope: bool, health: map<string, FamilyHealth>, t: Gates, sizeThreshold: int): Stored -> bool {
    (f: Stored) => IsAlert(f, HealthFor(orgScope, health, f), t) && f.finding.affected >= sizeThreshold
  }

  lemma QualifiedIsOneFilter(findings: seq<Stored>, health: map<string, FamilyHealth>, orgScope: bool, g: Gates, sizeThreshold: int)
    ensures Qualified(findings, health, orgScope, g, sizeThreshold)
      == Filter(StillQualifies(orgScope, health, g, sizeThreshold), findings)
  {
    FilterTwice(AffectsAtLeast(sizeThreshold), Alerting(orgScope, health, g),
      StillQualifies(orgScope, health, g, sizeThreshold), findings);
  }

  // Nor do they, or a higher floor of its own, add to what the webhook sends.
  lemma StricterGatesSendNoMore(findings: seq<Stored>, health: map<string, FamilyHealth>, orgScope: bool,
      t: Gates, higher: int, g: Gates, lower: int)
    requires Stricter(t, g) && higher >= lower
    ensures Qualified(findings, health, orgScope, t, higher)
      == Filter(StillQualifies(orgScope, health, t, higher), Qualified(findings, health, orgScope, g, lower))
  {
    QualifiedIsOneFilter(findings, health, orgScope, t, higher);
    QualifiedIsOneFilter(findings, health, orgScope, g, lower);
    FilterTwice(StillQualifies(orgScope, health, t, higher), StillQualifies(orgScope, health, g, lower),
      StillQualifies(orgScope, health, t, higher), findings);
  }
}

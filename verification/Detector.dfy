// Per-site scoring around the ML passes: DBSCAN and Isolation-Forest verdicts are arbitrary
// inputs; grouping, propagation to the dual records, merging and the finding rollup are modelled.
module Detector {
  import opened Vocabulary
  import opened Sequences
  import opened DualRecords

  datatype DbscanResult = DbscanResult(cluster: Option<int>, noise: bool)

  datatype IfResult = IfResult(score: Option<real>, outlier: bool)

  const NOT_CLUSTERED := DbscanResult(None, false)
  const NOT_SCORED := IfResult(None, false)

  datatype Settings = Settings(
    minEvents: int, minPeers: int, samplesPct: int, findingMinSize: int, noiseThreshold: real,
    minScoreable: int, markovThreshold: real)

  function KeysOf(records: seq<Record>): set<string> {
    set r | r in records :: r.key
  }

  function KeyName(r: Record): string { r.key }

  function DeviceName(r: Record): string { UnderlyingMac(r.key) }

  predicate IsReal(r: Record) {
    !IsVirtualKey(r.key)
  }

  function HasEnough(minEvents: int): Record -> bool {
    (r: Record) => r.eventCount >= minEvents
  }

  function At<V>(m: map<string, V>, key: string, absent: V): V {
    if key in m then m[key] else absent
  }

  // ---- verdicts for every record ------------------------------------------

  function VerdictOn<V>(minEvents: int, verdict: string -> V, absent: V, r: Record): V {
    if r.eventCount >= minEvents then verdict(r.key) else absent
  }

  ghost predicate Filled<V>(results: map<string, V>, part: seq<Record>, minEvents: int, verdict: string -> V, absent: V) {
    && results.Keys == KeysOf(part)
    && (forall r :: r in part ==> r.key in results && results[r.key] == VerdictOn(minEvents, verdict, absent, r))
  }

  lemma FilledStep<V>(
      results: map<string, V>, part: seq<Record>, population: seq<Record>, r: Record,
      minEvents: int, verdict: string -> V, absent: V)
    requires Filled(results, part, minEvents, verdict, absent)
    requires DistinctKeys(population) && r in population && forall q :: q in part ==> q in population
    ensures r.key in results ==> r in part && Filled(results, part + [r], minEvents, verdict, absent)
    ensures Filled(results[r.key := VerdictOn(minEvents, verdict, absent, r)], part + [r], minEvents, verdict, absent)
  {
    assert KeysOf(part + [r]) == KeysOf(part) + {r.key};
    assert forall q :: q in part && q.key == r.key ==> q == r;
  }

  // The eligible records are done, and nobody from outside the population.
  ghost predicate Progress<V>(results: map<string, V>, part: seq<Record>, population: seq<Record>,
    minEvents: int, verdict: string -> V, absent: V)
  {
    && Filled(results, part, minEvents, verdict, absent)
    && (forall q :: q in part ==> q in population)
    && forall q :: q in population && q.eventCount >= minEvents ==> q in part
  }

  // A record without a result after the eligible ones are done gets the null one.
  lemma LeftOverStep<V>(
      results: map<string, V>, part: seq<Record>, population: seq<Record>, r: Record,
      minEvents: int, verdict: string -> V, absent: V)
    requires Progress(results, part, population, minEvents, verdict, absent)
    requires DistinctKeys(population) && r in population
    ensures Progress(if r.key in results then results else results[r.key := absent], part + [r], population,
      minEvents, verdict, absent)
  {
    FilledStep(results, part, population, r, minEvents, verdict, absent);
    if r.key !in results {
      assert r !in part;
      assert VerdictOn(minEvents, verdict, absent, r) == absent;
    }
  }

  lemma EligibleRecords(population: seq<Record>, minEvents: int)
    ensures forall r :: r in Filter(HasEnough(minEvents), population) <==> r in population && r.eventCount >= minEvents
  {
    forall r ensures r in Filter(HasEnough(minEvents), population) <==> r in population && r.eventCount >= minEvents {
      FilterMember(HasEnough(minEvents), population, r);
    }
  }

  // Eligible records get their verdict ...
  method EmitEligible<V>(population: seq<Record>, minEvents: int, verdict: string -> V, absent: V)
    returns (results: map<string, V>, ghost part: seq<Record>)
    requires DistinctKeys(population)
    ensures Filled(results, part, minEvents, verdict, absent)
    ensures forall r :: r in part <==> r in population && r.eventCount >= minEvents
  {
    var eligible := Filter(HasEnough(minEvents), population);
    part := eligible;
    EligibleRecords(population, minEvents);
    results := map[];
    for i := 0 to |eligible|
      invariant Filled(results, eligible[..i], minEvents, verdict, absent)
    {
      var r := eligible[i];
      FilledStep(results, eligible[..i], population, r, minEvents, verdict, absent);
      assert eligible[..i + 1] == eligible[..i] + [r];
      results := results[r.key := verdict(r.key)];
    }
    assert eligible[..|eligible|] == eligible;
  }

  ghost predicate AllIn(s: seq<Record>, part: seq<Record>) {
    forall q :: q in s ==> q in part
  }

  lemma AllInStep(s: seq<Record>, i: nat, part: seq<Record>)
    requires i < |s| && AllIn(s[..i], part)
    ensures AllIn(s[..i + 1], part + [s[i]])
  {
    assert s[..i + 1] == s[..i] + [s[i]];
  }

  lemma NobodyIsLeftOut<V>(
      results: map<string, V>, part: seq<Record>, population: seq<Record>,
      minEvents: int, verdict: string -> V, absent: V)
    requires Progress(results, part, population, minEvents, verdict, absent)
    requires AllIn(population, part)
    ensures Filled(results, population, minEvents, verdict, absent)
  {
    assert KeysOf(part) == KeysOf(population);
  }

  // ... and the others the null result: nobody is left out.
  method EmitResults<V>(population: seq<Record>, minEvents: int, verdict: string -> V, absent: V)
    returns (results: map<string, V>)
    requires DistinctKeys(population)
    ensures Filled(results, population, minEvents, verdict, absent)
  {
    ghost var part;
    results, part := EmitEligible(population, minEvents, verdict, absent);
    for i := 0 to |population|
      invariant Progress(results, part, population, minEvents, verdict, absent)
      invariant AllIn(population[..i], part)
    {
      var r := population[i];
      LeftOverStep(results, part, population, r, minEvents, verdict, absent);
      AllInStep(population, i, part);
      part := part + [r];
      if r.key !in results {
        results := results[r.key := absent];
      }
    }
    assert population[..|population|] == population;
    NobodyIsLeftOut(results, part, population, minEvents, verdict, absent);
  }

  // ---- DBSCAN -------------------------------------------------------------

  function AutoMinSamples(n: nat, pct: int): int {
    var share := n * (if pct < 1 then 1 else if pct > 10 then 10 else pct) / 100;
    if share > 3 then share else 3
  }

  // A population is too small to cluster exactly when it has fewer than three members.
  lemma OnlyTinyPopulationsAreAllNoise(n: nat, pct: int)
    ensures n < AutoMinSamples(n, pct) <==> n < 3
  {
    var p := if pct < 1 then 1 else if pct > 10 then 10 else pct;
    assert n * p <= n * 10 by {
      assert n * (10 - p) >= 0;
    }
  }

  function DbscanOf(population: seq<Record>, s: Settings, cluster: string -> int, r: Record): DbscanResult {
    var n := Count(HasEnough(s.minEvents), population);
    if r.eventCount < s.minEvents then NOT_CLUSTERED else
    var c := if n < AutoMinSamples(n, s.samplesPct) then -1 else cluster(r.key);
    DbscanResult(Some(c), c == -1)
  }

  function Clustered(cluster: string -> int, tooFew: bool): string -> DbscanResult {
    (key: string) => var c := if tooFew then -1 else cluster(key); DbscanResult(Some(c), c == -1)
  }

  ghost predicate Clusters(results: map<string, DbscanResult>, population: seq<Record>, s: Settings, cluster: string -> int) {
    && results.Keys == KeysOf(population)
    && (forall r :: r in population ==> r.key in results && results[r.key] == DbscanOf(population, s, cluster, r))
  }

  ghost function Eligible(minEvents: int): Record -> bool {
    (r: Record) => r.eventCount >= minEvents
  }

  // Too few events: no result. Fewer than three eligible records: all of them noise. Otherwise the
  // cluster, with -1 for noise.
  ghost predicate DbscanByField(result: DbscanResult, population: seq<Record>, s: Settings, cluster: string -> int, r: Record) {
    if r.eventCount < s.minEvents then result == DbscanResult(None, false)
    else if Count(Eligible(s.minEvents), population) < 3 then result == DbscanResult(Some(-1), true)
    else result == DbscanResult(Some(cluster(r.key)), cluster(r.key) == -1)
  }

  lemma DbscanDecided(population: seq<Record>, s: Settings, cluster: string -> int, r: Record)
    ensures DbscanByField(DbscanOf(population, s, cluster, r), population, s, cluster, r)
  {
    CountSame(HasEnough(s.minEvents), Eligible(s.minEvents), population);
    OnlyTinyPopulationsAreAllNoise(Count(HasEnough(s.minEvents), population), s.samplesPct);
  }

  method RunDbscan(population: seq<Record>, s: Settings, cluster: string -> int)
    returns (results: map<string, DbscanResult>)
    requires DistinctKeys(population)
    ensures Clusters(results, population, s, cluster)
    ensures forall r :: r in population ==> DbscanByField(results[r.key], population, s, cluster, r)
  {
    forall r ensures DbscanByField(DbscanOf(population, s, cluster, r), population, s, cluster, r) {
      DbscanDecided(population, s, cluster, r);
    }
    FilterCount(HasEnough(s.minEvents), population);
    var n := |Filter(HasEnough(s.minEvents), population)|;
    if n == 0 {
      forall r | r in population ensures r.eventCount < s.minEvents {
        if r.eventCount >= s.minEvents {
          CountPositive(HasEnough(s.minEvents), population, r);
        }
      }
      return map r | r in population :: r.key := NOT_CLUSTERED;
    }
    results := EmitResults(population, s.minEvents, Clustered(cluster, n < AutoMinSamples(n, s.samplesPct)), NOT_CLUSTERED);
  }

  // ---- Isolation Forest ---------------------------------------------------

  function Scored(forest: string -> (real, bool)): string -> IfResult {
    (key: string) => IfResult(Some(forest(key).0), forest(key).1)
  }

  // `contexts` are the records of the same family at other sites; their scores are discarded.
  function PooledWith(members: seq<Record>, s: Settings, contexts: seq<Record>): seq<Record> {
    if |members| < s.minPeers then contexts else []
  }

  // The family's Isolation Forest runs: enough peers counted, and enough of them eligible.
  predicate ForestRuns(family: string, members: seq<Record>, s: Settings, contexts: seq<Record>) {
    var pool := members + PooledWith(members, s, contexts);
    && !IsMfgRollupFamily(family)
    && |pool| >= s.minPeers
    && Count(HasEnough(s.minEvents), pool) >= s.minPeers
  }

  function IfOf(family: string, members: seq<Record>, s: Settings, contexts: seq<Record>,
    forest: string -> (real, bool), r: Record): IfResult
  {
    if ForestRuns(family, members, s, contexts) then VerdictOn(s.minEvents, Scored(forest), NOT_SCORED, r) else NOT_SCORED
  }

  method RunIsolationForest(members: seq<Record>, others: seq<Record>, s: Settings, forest: string -> (real, bool))
    returns (results: map<string, IfResult>)
    requires DistinctKeys(members)
    ensures results.Keys == KeysOf(members)
    ensures Count(HasEnough(s.minEvents), members + others) >= s.minPeers
      ==> Filled(results, members, s.minEvents, Scored(forest), NOT_SCORED)
    ensures Count(HasEnough(s.minEvents), members + others) < s.minPeers
      ==> forall r :: r in members ==> results[r.key] == NOT_SCORED
  {
    if Count(HasEnough(s.minEvents), members + others) < s.minPeers {
      return map r | r in members :: r.key := NOT_SCORED;
    }
    results := EmitResults(members, s.minEvents, Scored(forest), NOT_SCORED);
  }

  // ---- family groups ------------------------------------------------------

  function FamilyName(r: Record): string { r.family }

  function InFamily(family: string): Record -> bool {
    (r: Record) => r.family == family
  }

  function Members(records: seq<Record>, family: string): seq<Record> {
    Filter(InFamily(family), records)
  }

  function Families(records: seq<Record>): seq<string> {
    Distinct(Map(FamilyName, records))
  }

  ghost predicate Grouped(groups: map<string, seq<Record>>, records: seq<Record>) {
    forall f :: (f in groups <==> Members(records, f) != []) && (f in groups ==> groups[f] == Members(records, f))
  }

  method GroupByFamily(records: seq<Record>) returns (groups: map<string, seq<Record>>)
    ensures Grouped(groups, records)
  {
    groups := map[];
    for i := 0 to |records|
      invariant Grouped(groups, records[..i])
    {
      var r := records[i];
      forall f ensures Members(records[..i + 1], f) == Members(records[..i], f) + if r.family == f then [r] else [] {
        FilterStep(InFamily(f), records, i);
      }
      groups := groups[r.family := At(groups, r.family, []) + [r]];
    }
    assert records[..|records|] == records;
  }

  lemma FamiliesCover(records: seq<Record>)
    ensures forall r :: r in records ==> r.family in Families(records)
    ensures forall f :: f in Families(records) ==> Members(records, f) != []
    ensures NoDuplicates(Families(records))
  {
    DistinctMembers(Map(FamilyName, records));
    forall r | r in records ensures r.family in Families(records) {
      var i :| 0 <= i < |records| && records[i] == r;
      assert Map(FamilyName, records)[i] == r.family;
    }
    forall f | f in Families(records) ensures Members(records, f) != [] {
      var i :| 0 <= i < |records| && Map(FamilyName, records)[i] == f;
      FilterMember(InFamily(f), records, records[i]);
    }
  }

  // ---- Isolation Forest over the families ---------------------------------

  // The family is scored against records of other sites.
  predicate OrgPooled(family: string, members: seq<Record>, s: Settings, contexts: seq<Record>) {
    && !IsMfgRollupFamily(family)
    && |members| < s.minPeers <= |members| + |contexts|
    && contexts != []
  }

  // The forest runs outside the manufacturer rollups when enough peers, and enough of them with
  // enough events, are at the site, or with those of other sites when the site's own are too few.
  ghost predicate RunsForest(family: string, members: seq<Record>, s: Settings, contexts: seq<Record>) {
    var pool := if |members| < s.minPeers then members + contexts else members;
    && !Ends(family, "-MFG", 4)
    && |pool| >= s.minPeers && Count(Eligible(s.minEvents), pool) >= s.minPeers
  }

  ghost predicate IfByField(result: IfResult, family: string, members: seq<Record>, s: Settings, contexts: seq<Record>,
    forest: string -> (real, bool), r: Record)
  {
    result == if RunsForest(family, members, s, contexts) && r.eventCount >= s.minEvents
      then IfResult(Some(forest(r.key).0), forest(r.key).1) else IfResult(None, false)
  }

  lemma RollupByEnding(family: string)
    ensures IsMfgRollupFamily(family) <==> Ends(family, "-MFG", 4)
  {
    VirtualFamiliesDiffer(family);
    FamilyKindByEnding(family);
  }

  lemma ForestDecided(family: string, members: seq<Record>, s: Settings, contexts: seq<Record>)
    ensures ForestRuns(family, members, s, contexts) <==> RunsForest(family, members, s, contexts)
  {
    var pool := members + PooledWith(members, s, contexts);
    RollupByEnding(family);
    CountSame(HasEnough(s.minEvents), Eligible(s.minEvents), pool);
    assert members + [] == members;
  }

  method ScoreFamily(family: string, members: seq<Record>, s: Settings, contexts: seq<Record>, forest: string -> (real, bool))
    returns (results: map<string, IfResult>, pooled: bool)
    requires DistinctKeys(members)
    ensures results.Keys == KeysOf(members)
    ensures forall r :: r in members ==> results[r.key] == IfOf(family, members, s, contexts, forest, r)
    ensures pooled <==> OrgPooled(family, members, s, contexts)
    ensures forall r :: r in members ==> IfByField(results[r.key], family, members, s, contexts, forest, r)
    ensures pooled <==>
      !Ends(family, "-MFG", 4) && |members| < s.minPeers <= |members| + |contexts| && contexts != []
  {
    ForestDecided(family, members, s, contexts);
    RollupByEnding(family);
    pooled := false;
    if IsMfgRollupFamily(family) {
      return map r | r in members :: r.key := NOT_SCORED, false;
    }
    var others := [];
    if |members| < s.minPeers {
      others := contexts;
    }
    if |members| + |others| < s.minPeers {
      return map r | r in members :: r.key := NOT_SCORED, false;
    }
    results := RunIsolationForest(members, others, s, forest);
    pooled := others != [];
  }

  // What a record's own family group gives it.
  ghost function IfValue(records: seq<Record>, s: Settings, contexts: map<string, seq<Record>>,
    forest: string -> (real, bool)): Record -> IfResult
  {
    (r: Record) => IfOf(r.family, Members(records, r.family), s, At(contexts, r.family, []), forest, r)
  }

  // The records of the families in `done` have their values, and no other key has one.
  ghost predicate FamiliesScored(results: map<string, IfResult>, records: seq<Record>, done: seq<string>, value: Record -> IfResult) {
    && (forall key :: key in results ==> exists r :: r in records && r.key == key && r.family in done)
    && (forall r :: r in records && r.family in done ==> r.key in results && results[r.key] == value(r))
  }

  lemma MembersAreRecords(records: seq<Record>, family: string)
    ensures forall r :: r in Members(records, family) <==> r in records && r.family == family
  {
    forall r ensures r in Members(records, family) <==> r in records && r.family == family {
      FilterMember(InFamily(family), records, r);
    }
  }

  lemma {:induction false} PartKeysDiffer(p: Record -> bool, records: seq<Record>)
    requires DistinctKeys(records)
    ensures DistinctKeys(Filter(p, records))
  {
    if records != [] {
      var init, last := records[..|records| - 1], records[|records| - 1];
      PartKeysDiffer(p, init);
      forall r | r in Filter(p, init) ensures r.key != last.key {
        FilterMember(p, init, r);
      }
    }
  }

  lemma OtherFamiliesKeys(records: seq<Record>, family: string)
    requires DistinctKeys(records)
    ensures forall r :: r in records && r.family != family ==> r.key !in KeysOf(Members(records, family))
  {
    MembersAreRecords(records, family);
    forall r | r in records && r.family != family ensures r.key !in KeysOf(Members(records, family)) {
      forall q | q in Members(records, family) ensures q.key != r.key {
        var i :| 0 <= i < |records| && records[i] == r;
        var j :| 0 <= j < |records| && records[j] == q;
      }
    }
  }

  lemma ScoredKeys(before: map<string, IfResult>, added: map<string, IfResult>, records: seq<Record>, done: seq<string>,
      family: string, value: Record -> IfResult, key: string)
    requires FamiliesScored(before, records, done, value) && added.Keys == KeysOf(Members(records, family))
    requires key in before + added
    ensures exists r :: r in records && r.key == key && r.family in done + [family]
  {
    MembersAreRecords(records, family);
    if key in added {
      assert key in KeysOf(Members(records, family));
      var r :| r in Members(records, family) && r.key == key;
      assert r in records && r.family in done + [family];
    } else {
      var r :| r in records && r.key == key && r.family in done;
      assert r.family in done + [family];
    }
  }

  lemma ScoredValues(before: map<string, IfResult>, added: map<string, IfResult>, records: seq<Record>, done: seq<string>,
      family: string, value: Record -> IfResult, r: Record)
    requires DistinctKeys(records) && FamiliesScored(before, records, done, value) && family !in done
    requires added.Keys == KeysOf(Members(records, family))
    requires forall r :: r in Members(records, family) ==> added[r.key] == value(r)
    requires r in records && r.family in done + [family]
    ensures r.key in before + added && (before + added)[r.key] == value(r)
  {
    MembersAreRecords(records, family);
    OtherFamiliesKeys(records, family);
  }

  lemma FamilyScored(before: map<string, IfResult>, added: map<string, IfResult>, records: seq<Record>, done: seq<string>,
      family: string, value: Record -> IfResult)
    requires DistinctKeys(records) && FamiliesScored(before, records, done, value) && family !in done
    requires added.Keys == KeysOf(Members(records, family))
    requires forall r :: r in Members(records, family) ==> added[r.key] == value(r)
    ensures FamiliesScored(before + added, records, done + [family], value)
  {
    forall key | key in before + added ensures exists r :: r in records && r.key == key && r.family in done + [family] {
      ScoredKeys(before, added, records, done, family, value, key);
    }
    forall r | r in records && r.family in done + [family]
      ensures r.key in before + added && (before + added)[r.key] == value(r)
    {
      ScoredValues(before, added, records, done, family, value, r);
    }
  }

  ghost predicate Forested(results: map<string, IfResult>, records: seq<Record>, s: Settings,
    contexts: map<string, seq<Record>>, forest: string -> (real, bool))
  {
    && results.Keys == KeysOf(records)
    && (forall r :: r in records ==>
          r.key in results
          && results[r.key] == IfOf(r.family, Members(records, r.family), s, At(contexts, r.family, []), forest, r))
  }

  lemma AllFamiliesScored(results: map<string, IfResult>, records: seq<Record>, s: Settings,
      contexts: map<string, seq<Record>>, forest: string -> (real, bool))
    requires FamiliesScored(results, records, Families(records), IfValue(records, s, contexts, forest))
    ensures Forested(results, records, s, contexts, forest)
  {
    FamiliesCover(records);
  }

  method ScoreGroup(family: string, records: seq<Record>, groups: map<string, seq<Record>>, s: Settings,
    contexts: map<string, seq<Record>>, forest: string -> (real, bool))
    returns (results: map<string, IfResult>, pooled: bool)
    requires DistinctKeys(records) && Grouped(groups, records) && family in Families(records)
    ensures results.Keys == KeysOf(Members(records, family))
    ensures forall r :: r in Members(records, family) ==> results[r.key] == IfValue(records, s, contexts, forest)(r)
    ensures pooled <==> OrgPooled(family, Members(records, family), s, At(contexts, family, []))
  {
    FamiliesCover(records);
    PartKeysDiffer(InFamily(family), records);
    MembersAreRecords(records, family);
    results, pooled := ScoreFamily(family, groups[family], s, At(contexts, family, []), forest);
  }

  ghost function IsPooled(records: seq<Record>, s: Settings, contexts: map<string, seq<Record>>): string -> bool {
    (f: string) => OrgPooled(f, Members(records, f), s, At(contexts, f, []))
  }

  // The families scored so far: their results, and which of them drew on other sites.
  ghost predicate ScoredSoFar(results: map<string, IfResult>, pooled: set<string>, records: seq<Record>, done: seq<string>,
    value: Record -> IfResult, pools: string -> bool)
  {
    FamiliesScored(results, records, done, value) && forall f :: f in pooled <==> f in done && pools(f)
  }

  lemma ScoredStep(results: map<string, IfResult>, pooled: set<string>, added: map<string, IfResult>, org: bool,
      records: seq<Record>, families: seq<string>, i: nat, value: Record -> IfResult, pools: string -> bool)
    requires i < |families| && NoDuplicates(families) && DistinctKeys(records)
    requires ScoredSoFar(results, pooled, records, families[..i], value, pools)
    requires added.Keys == KeysOf(Members(records, families[i])) && (org <==> pools(families[i]))
    requires forall r :: r in Members(records, families[i]) ==> added[r.key] == value(r)
    ensures ScoredSoFar(results + added, pooled + if org then {families[i]} else {}, records, families[..i + 1], value, pools)
  {
    assert families[..i + 1] == families[..i] + [families[i]];
    FamilyScored(results, added, records, families[..i], families[i], value);
  }

  // Every record gets an Isolation-Forest result from its own family group.
  method ScoreFamilies(records: seq<Record>, groups: map<string, seq<Record>>, s: Settings,
    contexts: map<string, seq<Record>>, forest: string -> (real, bool))
    returns (results: map<string, IfResult>, pooled: set<string>)
    requires DistinctKeys(records) && Grouped(groups, records)
    ensures Forested(results, records, s, contexts, forest)
    ensures forall f :: f in pooled <==>
      f in Families(records) && OrgPooled(f, Members(records, f), s, At(contexts, f, []))
  {
    var families := Families(records);
    ghost var value, pools := IfValue(records, s, contexts, forest), IsPooled(records, s, contexts);
    FamiliesCover(records);
    results, pooled := map[], {};
    for i := 0 to |families|
      invariant ScoredSoFar(results, pooled, records, families[..i], value, pools)
    {
      var added, org := ScoreGroup(families[i], records, groups, s, contexts, forest);
      ScoredStep(results, pooled, added, org, records, families, i, value, pools);
      results, pooled := results + added, pooled + if org then {families[i]} else {};
    }
    assert families[..|families|] == families;
    AllFamiliesScored(results, records, s, contexts, forest);
  }

  // ---- propagation to the dual records ------------------------------------

  function VirtualKeys(records: seq<Record>): set<string> {
    set r | r in records && IsVirtualKey(r.key) :: r.key
  }

  ghost predicate Propagated<V>(all: map<string, V>, results: map<string, V>, virtual: set<string>, absent: V) {
    && all.Keys == results.Keys + virtual
    && (forall key :: key in all ==>
          all[key] == if key in virtual then At(results, UnderlyingMac(key), absent) else results[key])
  }

  lemma RealKeysStay<V>(all: map<string, V>, results: map<string, V>, virtual: set<string>, absent: V, key: string)
    requires Propagated(all, results, virtual, absent) && key !in virtual
    ensures At(all, key, absent) == At(results, key, absent)
  {
    assert key in all <==> key in results;
  }

  lemma PropagateKey<V>(all: map<string, V>, results: map<string, V>, virtual: set<string>, absent: V, key: string)
    requires Propagated(all, results, virtual, absent) && UnderlyingMac(key) !in virtual
    ensures Propagated(all[key := At(all, UnderlyingMac(key), absent)], results, virtual + {key}, absent)
  {
    RealKeysStay(all, results, virtual, absent, UnderlyingMac(key));
  }

  lemma VirtualKeysStep(records: seq<Record>, r: Record)
    ensures VirtualKeys(records + [r]) == VirtualKeys(records) + if IsVirtualKey(r.key) then {r.key} else {}
  {
  }

  lemma PropagateStep<V>(all: map<string, V>, results: map<string, V>, records: seq<Record>, i: nat, absent: V)
    requires i < |records| && HasPrimary(records, records[i])
    requires Propagated(all, results, VirtualKeys(records[..i]), absent)
    ensures var r := records[i];
      Propagated(if IsVirtualKey(r.key) then all[r.key := At(all, UnderlyingMac(r.key), absent)] else all,
        results, VirtualKeys(records[..i + 1]), absent)
  {
    var key := records[i].key;
    assert records[..i + 1] == records[..i] + [records[i]];
    VirtualKeysStep(records[..i], records[i]);
    if IsVirtualKey(key) {
      PropagateKey(all, results, VirtualKeys(records[..i]), absent, key);
    } else {
      assert VirtualKeys(records[..i + 1]) == VirtualKeys(records[..i]);
    }
  }

  // Every record reads, under its own key, what its device has under the plain MAC.
  ghost predicate Inherits<V>(all: map<string, V>, results: map<string, V>, records: seq<Record>, absent: V) {
    forall r :: r in records ==> At(all, r.key, absent) == At(results, UnderlyingMac(r.key), absent)
  }

  // A virtual key inherits what its device got; the loop reads the map it is filling.
  method Propagate<V>(records: seq<Record>, results: map<string, V>, absent: V) returns (all: map<string, V>)
    requires Dual(records)
    ensures all.Keys == results.Keys + VirtualKeys(records)
    ensures Inherits(all, results, records, absent)
  {
    all := results;
    for i := 0 to |records|
      invariant Propagated(all, results, VirtualKeys(records[..i]), absent)
    {
      var r := records[i];
      PropagateStep(all, results, records, i, absent);
      if IsVirtualKey(r.key) {
        all := all[r.key := At(all, UnderlyingMac(r.key), absent)];
      }
    }
    assert records[..|records|] == records;
    forall r | r in records ensures At(all, r.key, absent) == At(results, UnderlyingMac(r.key), absent) {
      if !IsVirtualKey(r.key) {
        RealKeysStay(all, results, VirtualKeys(records), absent, r.key);
      }
    }
  }
}

// Merging the detectors' verdicts per record and rolling them up into one finding per family.
module Findings {
  import opened Vocabulary
  import opened Sequences
  import opened Ratios
  import opened Rounding
  import opened DualRecords
  import opened Detector
  import opened MarkovFlags
  import Markov = MarkovRollup

  const HIDDEN_FAMILIES: set<string> := {"Unknown", "IoT (Unknown)"}

  datatype Anomaly = Anomaly(
    family: string, ifScore: Option<real>, isIf: bool, cluster: Option<int>, isDb: bool,
    isFamily: bool, markov: Markov.MacRecord, isMarkov: bool, isOutlier: bool)

  datatype Finding = Finding(
    family: string, kind: Kind, total: nat, affected: nat,
    isFamilyOutlier: bool, isFamilyDbscan: bool, noiseRatio: real, dbscanRatio: real,
    isFamilyMarkov: bool, markovReason: Option<Markov.Reason>, markovRatio: real,
    markovEvaluatable: nat, markovCount: nat,
    dbscanCount: nat, unionCount: nat, ifCount: nat)

  // ---- the family noise ratio ---------------------------------------------

  function DeviceNoise(results: map<string, DbscanResult>): Record -> bool {
    (r: Record) => At(results, UnderlyingMac(r.key), NOT_CLUSTERED).noise
  }

  function NoiseAt(results: map<string, DbscanResult>): string -> bool {
    (key: string) => At(results, key, NOT_CLUSTERED).noise
  }

  function KeyIn<V>(results: map<string, V>): string -> bool {
    (key: string) => key in results
  }

  // DBSCAN ran on the devices themselves, under their own keys.
  ghost predicate DevicesOnly(results: map<string, DbscanResult>, members: seq<Record>) {
    && (forall key :: key in results ==> !IsVirtualKey(key))
    && (forall r :: r in members ==> UnderlyingMac(r.key) in results)
  }

  lemma DevicesAreListed(members: seq<Record>, eligible: map<string, DbscanResult>)
    requires DevicesOnly(eligible, members)
    ensures Filter(KeyIn(eligible), Map(DeviceName, members)) == Map(DeviceName, members)
    ensures Count(NoiseAt(eligible), Map(DeviceName, members)) == Count(DeviceNoise(eligible), members)
  {
    FilterAll(KeyIn(eligible), Map(DeviceName, members));
    CountAligned(NoiseAt(eligible), Map(DeviceName, members), DeviceNoise(eligible), members);
  }

  lemma PrimaryKeysAreListed(members: seq<Record>, eligible: map<string, DbscanResult>, all: map<string, DbscanResult>)
    requires DevicesOnly(eligible, members) && Inherits(all, eligible, members, NOT_CLUSTERED)
    requires forall r :: r in members ==> KeyKind(r.key) == Primary
    ensures Filter(KeyIn(eligible), Map(KeyName, members)) == Map(KeyName, members)
    ensures Count(NoiseAt(all), Map(KeyName, members)) == Count(DeviceNoise(eligible), members)
  {
    assert Map(KeyName, members) == Map(DeviceName, members);
    DevicesAreListed(members, eligible);
    forall i | 0 <= i < |members| ensures NoiseAt(all)(Map(KeyName, members)[i]) <==> DeviceNoise(eligible)(members[i]) {
      assert members[i] in members;
    }
    CountAligned(NoiseAt(all), Map(KeyName, members), DeviceNoise(eligible), members);
  }

  lemma VirtualKeysAreNotListed(members: seq<Record>, eligible: map<string, DbscanResult>)
    requires DevicesOnly(eligible, members)
    requires forall r :: r in members ==> KeyKind(r.key) != Primary
    ensures Filter(KeyIn(eligible), Map(KeyName, members)) == []
  {
    FilterNone(KeyIn(eligible), Map(KeyName, members));
  }

  // A service-account family has no member among the clustered keys and falls back to the
  // devices behind its members; a manufacturer rollup has none either and reads zero.
  method FamilyNoiseRatio(family: string, members: seq<Record>, eligible: map<string, DbscanResult>,
    all: map<string, DbscanResult>) returns (ratio: real)
    requires members != [] && DevicesOnly(eligible, members)
    requires forall r :: r in members ==> KeyKind(r.key) == FamilyKind(family)
    requires Inherits(all, eligible, members, NOT_CLUSTERED)
    ensures ratio == if FamilyKind(family) == MfgRollup then 0.0 else ShareOrZero(Count(DeviceNoise(eligible), members), |members|)
  {
    VirtualFamiliesDiffer(family);
    var keys := Map(KeyName, members);
    var listed := Filter(KeyIn(eligible), keys);
    if FamilyKind(family) == Primary {
      PrimaryKeysAreListed(members, eligible, all);
    } else {
      VirtualKeysAreNotListed(members, eligible);
    }
    if listed == [] && IsServiceAccountFamily(family) {
      var primaries := Map(DeviceName, members);
      var found := Filter(KeyIn(eligible), primaries);
      DevicesAreListed(members, eligible);
      if found != [] {
        return Count(NoiseAt(eligible), found) as real / |found| as real;
      }
      return 0.0;
    }
    if listed == [] {
      return 0.0;
    }
    ratio := Count(NoiseAt(all), listed) as real / |listed| as real;
  }

  // ---- the merge ----------------------------------------------------------

  function AnomalyOf(r: Record, scored: IfResult, clustered: DbscanResult, markov: Markov.MacRecord, flagged: set<string>): Anomaly {
    var isFamily := r.family in flagged;
    Anomaly(r.family, scored.score, scored.outlier, clustered.cluster, clustered.noise, isFamily, markov, markov.isOutlier,
      scored.outlier || clustered.noise || isFamily || markov.isOutlier)
  }

  ghost predicate Merged(
    anomalies: map<string, Anomaly>, records: seq<Record>, scored: map<string, IfResult>,
    clustered: map<string, DbscanResult>, markov: Results, flagged: set<string>)
    requires KeysOf(records) <= scored.Keys && KeysOf(records) <= clustered.Keys
  {
    && anomalies.Keys == KeysOf(records)
    && (forall r :: r in records ==>
          r.key in anomalies
          && anomalies[r.key] == AnomalyOf(r, scored[r.key], clustered[r.key], At(markov, r.key, Markov.EMPTY_RECORD), flagged))
  }

  lemma MergedStep(anomalies: map<string, Anomaly>, part: seq<Record>, r: Record, scored: map<string, IfResult>,
      clustered: map<string, DbscanResult>, markov: Results, flagged: set<string>)
    requires KeysOf(part) <= scored.Keys && KeysOf(part) <= clustered.Keys
    requires Merged(anomalies, part, scored, clustered, markov, flagged)
    requires r.key in scored && r.key in clustered && r.key !in KeysOf(part)
    ensures KeysOf(part + [r]) == KeysOf(part) + {r.key}
    ensures Merged(
      anomalies[r.key := AnomalyOf(r, scored[r.key], clustered[r.key], At(markov, r.key, Markov.EMPTY_RECORD), flagged)],
      part + [r], scored, clustered, markov, flagged)
  {
    assert KeysOf(part + [r]) == KeysOf(part) + {r.key};
    assert forall q :: q in part ==> q.key in KeysOf(part);
  }

  // The loop indexes both result tables by every key: none may be missing.
  method Merge(records: seq<Record>, scored: map<string, IfResult>, clustered: map<string, DbscanResult>,
    markov: Results, flagged: set<string>) returns (anomalies: map<string, Anomaly>)
    requires DistinctKeys(records)
    requires KeysOf(records) <= scored.Keys && KeysOf(records) <= clustered.Keys
    ensures Merged(anomalies, records, scored, clustered, markov, flagged)
  {
    anomalies := map[];
    for i := 0 to |records|
      invariant KeysOf(records[..i]) <= scored.Keys && KeysOf(records[..i]) <= clustered.Keys
      invariant Merged(anomalies, records[..i], scored, clustered, markov, flagged)
    {
      var r := records[i];
      assert r.key in KeysOf(records);
      MergedStep(anomalies, records[..i], r, scored, clustered, markov, flagged);
      assert records[..i + 1] == records[..i] + [r];
      anomalies := anomalies[r.key := AnomalyOf(r, scored[r.key], clustered[r.key], At(markov, r.key, Markov.EMPTY_RECORD), flagged)];
    }
    assert records[..|records|] == records;
  }

  // ---- the rollup ---------------------------------------------------------

  function HasFlag(anomalies: map<string, Anomaly>, flag: Anomaly -> bool): Record -> bool {
    (r: Record) => r.key in anomalies && flag(anomalies[r.key])
  }

  predicate OutlierFlag(a: Anomaly) { a.isOutlier }
  predicate DbFlag(a: Anomaly) { a.isDb }
  predicate IfFlag(a: Anomaly) { a.isIf }
  predicate MarkovFlag(a: Anomaly) { a.isMarkov }
  predicate UnionFlag(a: Anomaly) { a.isDb || a.isMarkov }

  function Tagged(anomalies: map<string, Anomaly>, flag: Anomaly -> bool, members: seq<Record>): nat {
    Count(HasFlag(anomalies, flag), members)
  }

  predicate ContainsBar(name: string) {
    exists i :: 0 <= i <= |name| - 3 && name[i] == ' ' && name[i + 1] == '|' && name[i + 2] == ' '
  }

  // A single-token family: neither fingerprinted, nor Unknown, nor virtual.
  predicate IsBareOneTokenFamily(name: string) {
    && name != "" && !ContainsBar(name)
    && name != "Unknown" && !("Unknown/" <= name)
    && !EndsWith(name, SERVICE_ACCOUNT_SUFFIX) && !EndsWith(name, MFG_ROLLUP_SUFFIX)
  }

  predicate Surfaces(family: string, members: seq<Record>, anomalies: map<string, Anomaly>, s: Settings,
    pooled: set<string>, fm: Markov.FamilyMarkov, flagged: set<string>)
  {
    && family !in HIDDEN_FAMILIES
    && !IsBareOneTokenFamily(family)
    && |members| >= (if family in pooled then s.minPeers else s.findingMinSize)
    && (Tagged(anomalies, OutlierFlag, members) != 0 || fm.isOutlier || family in flagged)
  }

  // Each count of a finding is the number of the family's records with that flag; the Markov
  // fields are the family's own rollup.
  ghost predicate RollsUp(f: Finding, members: seq<Record>, anomalies: map<string, Anomaly>,
    fm: Markov.FamilyMarkov, flagged: set<string>)
  {
    && f.kind == FamilyKind(f.family)
    && f.total == |members|
    && f.affected == Tagged(anomalies, OutlierFlag, members)
    && f.dbscanCount == Tagged(anomalies, DbFlag, members)
    && f.unionCount == Tagged(anomalies, UnionFlag, members)
    && f.ifCount == Tagged(anomalies, IfFlag, members)
    && f.isFamilyOutlier == (f.family in flagged)
    && f.dbscanRatio == Round4(ShareOrZero(f.dbscanCount, f.total))
    && f.isFamilyMarkov == fm.isOutlier && f.markovReason == fm.reason
    && f.markovRatio == Round4(fm.ratio)
    && f.markovEvaluatable == fm.evaluatable && f.markovCount == fm.anomalous
  }

  // ---- listing and counting in the records' own fields ---------------------

  ghost predicate HasBar(name: string) {
    exists i, j :: 0 <= i < j <= |name| && name[i..j] == " | "
  }

  // One token with neither a fingerprint bar nor a virtual ending, and not an Unknown.
  ghost predicate IsBareToken(name: string) {
    && name != "" && !HasBar(name)
    && name != "Unknown" && !(|name| >= 8 && name[..8] == "Unknown/")
    && !Ends(name, ".service_account", 16) && !Ends(name, "-MFG", 4)
  }

  ghost predicate SomeOutlier(members: seq<Record>, anomalies: map<string, Anomaly>) {
    exists r :: r in members && r.key in anomalies && anomalies[r.key].isOutlier
  }

  // A family is worth a finding: it has a proper name, enough members, and someone or something
  // flagged.
  ghost predicate IsWorthListing(family: string, members: seq<Record>, anomalies: map<string, Anomaly>, least: int,
    markov: bool, centroid: bool)
  {
    && family != "Unknown" && family != "IoT (Unknown)" && !IsBareToken(family)
    && |members| >= least && (SomeOutlier(members, anomalies) || markov || centroid)
  }

  ghost function Outlying(anomalies: map<string, Anomaly>): Record -> bool {
    (r: Record) => r.key in anomalies && anomalies[r.key].isOutlier
  }

  ghost function Noisy(anomalies: map<string, Anomaly>): Record -> bool {
    (r: Record) => r.key in anomalies && anomalies[r.key].isDb
  }

  ghost function NoisyOrDeviant(anomalies: map<string, Anomaly>): Record -> bool {
    (r: Record) => r.key in anomalies && (anomalies[r.key].isDb || anomalies[r.key].isMarkov)
  }

  ghost function Isolated(anomalies: map<string, Anomaly>): Record -> bool {
    (r: Record) => r.key in anomalies && anomalies[r.key].isIf
  }

  ghost predicate CountsMembers(f: Finding, members: seq<Record>, anomalies: map<string, Anomaly>) {
    && f.total == |members|
    && f.affected == Count(Outlying(anomalies), members)
    && f.dbscanCount == Count(Noisy(anomalies), members)
    && f.unionCount == Count(NoisyOrDeviant(anomalies), members)
    && f.ifCount == Count(Isolated(anomalies), members)
    && (f.total > 0 ==> f.dbscanRatio == Round4(f.dbscanCount as real / f.total as real))
  }

  lemma BareByField(name: string)
    ensures IsBareOneTokenFamily(name) <==> IsBareToken(name)
  {
    if i, j :| 0 <= i < j <= |name| && name[i..j] == " | " {
      assert j == i + |name[i..j]| == i + 3;
      assert name[i..j][0] == name[i] && name[i..j][1] == name[i + 1] && name[i..j][2] == name[i + 2];
    }
    if i :| 0 <= i <= |name| - 3 && name[i] == ' ' && name[i + 1] == '|' && name[i + 2] == ' ' {
      assert name[i..i + 3] == " | ";
    }
    assert |SERVICE_ACCOUNT_SUFFIX| == 16 && |MFG_ROLLUP_SUFFIX| == 4 && |"Unknown/"| == 8;
  }

  lemma OutlierByField(members: seq<Record>, anomalies: map<string, Anomaly>)
    ensures Tagged(anomalies, OutlierFlag, members) != 0 <==> SomeOutlier(members, anomalies)
  {
    var flagged := HasFlag(anomalies, OutlierFlag);
    if r :| r in members && r.key in anomalies && anomalies[r.key].isOutlier {
      assert OutlierFlag(anomalies[r.key]);
      CountPositive(flagged, members, r);
    } else {
      forall r | r in members ensures !flagged(r) {
        assert r.key in anomalies ==> OutlierFlag(anomalies[r.key]) == anomalies[r.key].isOutlier;
      }
      CountZero(flagged, members);
    }
  }

  lemma TagsByField(anomalies: map<string, Anomaly>, members: seq<Record>)
    ensures Tagged(anomalies, OutlierFlag, members) == Count(Outlying(anomalies), members)
    ensures Tagged(anomalies, DbFlag, members) == Count(Noisy(anomalies), members)
    ensures Tagged(anomalies, UnionFlag, members) == Count(NoisyOrDeviant(anomalies), members)
    ensures Tagged(anomalies, IfFlag, members) == Count(Isolated(anomalies), members)
  {
    forall r: Record
      ensures HasFlag(anomalies, OutlierFlag)(r) <==> Outlying(anomalies)(r)
      ensures HasFlag(anomalies, DbFlag)(r) <==> Noisy(anomalies)(r)
      ensures HasFlag(anomalies, UnionFlag)(r) <==> NoisyOrDeviant(anomalies)(r)
      ensures HasFlag(anomalies, IfFlag)(r) <==> Isolated(anomalies)(r)
    {
      if r.key in anomalies {
        FlagsByField(anomalies[r.key]);
      }
    }
    CountSame(HasFlag(anomalies, OutlierFlag), Outlying(anomalies), members);
    CountSame(HasFlag(anomalies, DbFlag), Noisy(anomalies), members);
    CountSame(HasFlag(anomalies, UnionFlag), NoisyOrDeviant(anomalies), members);
    CountSame(HasFlag(anomalies, IfFlag), Isolated(anomalies), members);
  }

  lemma FlagsByField(a: Anomaly)
    ensures OutlierFlag(a) == a.isOutlier && DbFlag(a) == a.isDb && IfFlag(a) == a.isIf
    ensures UnionFlag(a) == (a.isDb || a.isMarkov) && MarkovFlag(a) == a.isMarkov
  {
  }

  lemma SurfacesByField(family: string, members: seq<Record>, anomalies: map<string, Anomaly>, s: Settings,
      pooled: set<string>, fm: Markov.FamilyMarkov, flagged: set<string>)
    ensures Surfaces(family, members, anomalies, s, pooled, fm, flagged) <==>
      IsWorthListing(family, members, anomalies, if family in pooled then s.minPeers else s.findingMinSize,
        fm.isOutlier, family in flagged)
  {
    BareByField(family);
    OutlierByField(members, anomalies);
  }

  function FindingFamily(f: Finding): string { f.family }

  function IsSurfaced(records: seq<Record>, anomalies: map<string, Anomaly>, s: Settings, pooled: set<string>,
    flags: map<string, Markov.FamilyMarkov>, flagged: set<string>): string -> bool
  {
    (family: string) =>
      Surfaces(family, Members(records, family), anomalies, s, pooled, At(flags, family, Markov.QUIET_FAMILY), flagged)
  }

  ghost predicate Reports(f: Finding, members: seq<Record>, anomalies: map<string, Anomaly>, ratio: real, s: Settings,
    fm: Markov.FamilyMarkov, flagged: set<string>)
  {
    && RollsUp(f, members, anomalies, fm, flagged)
    && f.noiseRatio == Round4(ratio)
    && (f.isFamilyDbscan <==> ratio >= s.noiseThreshold)
  }

  method RollUpOne(family: string, members: seq<Record>, anomalies: map<string, Anomaly>, ratio: real, s: Settings,
    pooled: set<string>, fm: Markov.FamilyMarkov, flagged: set<string>) returns (finding: Option<Finding>)
    ensures finding.Some? <==> Surfaces(family, members, anomalies, s, pooled, fm, flagged)
    ensures finding.Some? ==> finding.value.family == family
    ensures finding.Some? ==> Reports(finding.value, members, anomalies, ratio, s, fm, flagged)
    ensures finding.Some? <==>
      IsWorthListing(family, members, anomalies, if family in pooled then s.minPeers else s.findingMinSize,
        fm.isOutlier, family in flagged)
    ensures finding.Some? ==> CountsMembers(finding.value, members, anomalies)
  {
    SurfacesByField(family, members, anomalies, s, pooled, fm, flagged);
    TagsByField(anomalies, members);
    if family in HIDDEN_FAMILIES {
      return None;
    }
    if family != "" && IsBareOneTokenFamily(family) {
      return None;
    }
    var total := |members|;
    var least := if family in pooled then s.minPeers else s.findingMinSize;
    if total < least {
      return None;
    }
    var outliers := Tagged(anomalies, OutlierFlag, members);
    if outliers == 0 && !fm.isOutlier && family !in flagged {
      return None;
    }
    var dbscanCount := Tagged(anomalies, DbFlag, members);
    finding := Some(Finding(family, FamilyKind(family), total, outliers,
      family in flagged, ratio >= s.noiseThreshold, Round4(ratio), Round4(ShareOrZero(dbscanCount, total)),
      fm.isOutlier, fm.reason, Round4(fm.ratio), fm.evaluatable, fm.anomalous,
      dbscanCount, Tagged(anomalies, UnionFlag, members), Tagged(anomalies, IfFlag, members)));
  }

  ghost function IsReport(records: seq<Record>, anomalies: map<string, Anomaly>, noise: map<string, real>, s: Settings,
      flags: map<string, Markov.FamilyMarkov>, flagged: set<string>): Finding -> bool {
    (f: Finding) => Reports(f, Members(records, f.family), anomalies, At(noise, f.family, 0.0), s,
      At(flags, f.family, Markov.QUIET_FAMILY), flagged)
  }

  // One report for each surfacing family, in the order of the families.
  ghost predicate ReportedFor(findings: seq<Finding>, families: seq<string>, surfaced: string -> bool, reports: Finding -> bool) {
    Map(FindingFamily, findings) == Filter(surfaced, families) && forall f :: f in findings ==> reports(f)
  }

  lemma ReportedStep(findings: seq<Finding>, families: seq<string>, i: nat, found: Option<Finding>,
      surfaced: string -> bool, reports: Finding -> bool)
    requires i < |families| && ReportedFor(findings, families[..i], surfaced, reports)
    requires surfaced(families[i]) <==> found.Some?
    requires found.Some? ==> found.value.family == families[i] && reports(found.value)
    ensures ReportedFor(findings + if found.Some? then [found.value] else [], families[..i + 1], surfaced, reports)
  {
    FilterStep(surfaced, families, i);
    if found.Some? {
      assert Map(FindingFamily, findings + [found.value]) == Map(FindingFamily, findings) + [families[i]];
    } else {
      assert findings + [] == findings;
    }
  }

  method RollUpGroup(family: string, records: seq<Record>, groups: map<string, seq<Record>>, anomalies: map<string, Anomaly>,
    noise: map<string, real>, s: Settings, pooled: set<string>, flags: map<string, Markov.FamilyMarkov>,
    flagged: set<string>) returns (finding: Option<Finding>)
    requires Grouped(groups, records) && family in Families(records)
    ensures finding.Some? <==> IsSurfaced(records, anomalies, s, pooled, flags, flagged)(family)
    ensures finding.Some? ==>
      finding.value.family == family && IsReport(records, anomalies, noise, s, flags, flagged)(finding.value)
  {
    FamiliesCover(records);
    finding := RollUpOne(family, groups[family], anomalies, At(noise, family, 0.0), s, pooled,
      At(flags, family, Markov.QUIET_FAMILY), flagged);
  }

  method RollUp(records: seq<Record>, groups: map<string, seq<Record>>, anomalies: map<string, Anomaly>,
    noise: map<string, real>, s: Settings, pooled: set<string>, flags: map<string, Markov.FamilyMarkov>,
    flagged: set<string>) returns (findings: seq<Finding>)
    requires Grouped(groups, records)
    ensures ReportedFor(findings, Families(records), IsSurfaced(records, anomalies, s, pooled, flags, flagged),
      IsReport(records, anomalies, noise, s, flags, flagged))
  {
    var families := Families(records);
    ghost var surfaced := IsSurfaced(records, anomalies, s, pooled, flags, flagged);
    ghost var reports := IsReport(records, anomalies, noise, s, flags, flagged);
    findings := [];
    for i := 0 to |families|
      invariant ReportedFor(findings, families[..i], surfaced, reports)
    {
      var finding := RollUpGroup(families[i], records, groups, anomalies, noise, s, pooled, flags, flagged);
      ReportedStep(findings, families, i, finding, surfaced, reports);
      findings := findings + if finding.Some? then [finding.value] else [];
    }
    assert families[..|families|] == families;
  }

  // ---- what every finding satisfies ---------------------------------------

  // Everything one family's rollup reads.
  datatype Rollup = Rollup(
    members: seq<Record>, anomalies: map<string, Anomaly>, noise: real, results: Results, baseline: bool,
    s: Settings, pooled: set<string>, flagged: set<string>)

  function FlagsIn(i: Rollup, family: string): Markov.FamilyMarkov {
    FlagsOf(family, i.members, i.results, i.baseline, i.s)
  }

  // An anomaly carries its client's Markov flag and the union of the four, its family's included.
  ghost predicate FlagsAddUp(anomalies: map<string, Anomaly>, members: seq<Record>, results: Results, familyFlag: bool) {
    forall r :: r in members ==>
      r.key in anomalies
      && anomalies[r.key].isMarkov == DeviceOutlier(results)(r)
      && anomalies[r.key].isFamily == familyFlag
      && (var a := anomalies[r.key]; a.isOutlier == (a.isIf || a.isDb || a.isFamily || a.isMarkov))
  }

  // The finding is what the rollup makes of these members, verdicts and results.
  ghost predicate Produces(i: Rollup, f: Finding) {
    && i.members != [] && DistinctKeys(i.members)
    && (forall r :: r in i.members ==> r.family == f.family && KeyKind(r.key) == FamilyKind(f.family))
    && Analyzed(i.results, i.baseline, i.s)
    && FlagsAddUp(i.anomalies, i.members, i.results, f.family in i.flagged)
    && Surfaces(f.family, i.members, i.anomalies, i.s, i.pooled, FlagsIn(i, f.family), i.flagged)
    && Reports(f, i.members, i.anomalies, i.noise, i.s, FlagsIn(i, f.family), i.flagged)
  }

  // max(dbscan, markov) <= union <= affected <= total, and a family outlier affects everyone.
  ghost predicate Coherent(f: Finding) {
    && f.dbscanCount <= f.unionCount && f.markovCount <= f.unionCount
    && (f.kind != MfgRollup ==> f.unionCount <= f.dbscanCount + f.markovCount)
    && f.unionCount <= f.affected <= f.total
    && f.ifCount <= f.affected
    && (f.isFamilyOutlier ==> f.affected == f.total)
    && f.total > 0
  }

  // The family's Markov count, rolled up on its own from the clients' results, is the number of
  // its records with the Markov flag; a manufacturer rollup has none.
  lemma MarkovCountIsTagged(i: Rollup, f: Finding)
    requires Produces(i, f)
    ensures f.markovCount == if f.kind == MfgRollup then 0 else Tagged(i.anomalies, MarkovFlag, i.members)
    ensures i.s.markovThreshold > 0.0 && f.isFamilyMarkov ==> f.markovCount > 0
  {
    FlagsCountOutliers(f.family, i.members, i.results, i.baseline, i.s);
    forall r | r in i.members ensures DeviceOutlier(i.results)(r) <==> HasFlag(i.anomalies, MarkovFlag)(r) {
      assert MarkovFlag(i.anomalies[r.key]) == i.anomalies[r.key].isMarkov;
    }
    CountSame(DeviceOutlier(i.results), HasFlag(i.anomalies, MarkovFlag), i.members);
  }

  lemma RecordFlags(anomalies: map<string, Anomaly>, members: seq<Record>, results: Results, familyFlag: bool, r: Record)
    requires FlagsAddUp(anomalies, members, results, familyFlag) && r in members
    ensures HasFlag(anomalies, UnionFlag)(r) <==> HasFlag(anomalies, DbFlag)(r) || HasFlag(anomalies, MarkovFlag)(r)
    ensures HasFlag(anomalies, OutlierFlag)(r) <==>
      HasFlag(anomalies, UnionFlag)(r) || HasFlag(anomalies, IfFlag)(r) || familyFlag
  {
    var a := anomalies[r.key];
    assert UnionFlag(a) == (a.isDb || a.isMarkov) && OutlierFlag(a) == a.isOutlier;
    assert DbFlag(a) == a.isDb && MarkovFlag(a) == a.isMarkov && IfFlag(a) == a.isIf;
  }

  lemma TagsAreOrdered(anomalies: map<string, Anomaly>, members: seq<Record>, results: Results, familyFlag: bool)
    requires FlagsAddUp(anomalies, members, results, familyFlag)
    ensures Tagged(anomalies, DbFlag, members) <= Tagged(anomalies, UnionFlag, members)
    ensures Tagged(anomalies, MarkovFlag, members) <= Tagged(anomalies, UnionFlag, members)
    ensures Tagged(anomalies, UnionFlag, members)
      <= Tagged(anomalies, DbFlag, members) + Tagged(anomalies, MarkovFlag, members)
    ensures Tagged(anomalies, UnionFlag, members) <= Tagged(anomalies, OutlierFlag, members) <= |members|
    ensures Tagged(anomalies, IfFlag, members) <= Tagged(anomalies, OutlierFlag, members)
    ensures familyFlag ==> Tagged(anomalies, OutlierFlag, members) == |members|
  {
    var db, markov := HasFlag(anomalies, DbFlag), HasFlag(anomalies, MarkovFlag);
    var union, outlier := HasFlag(anomalies, UnionFlag), HasFlag(anomalies, OutlierFlag);
    forall r | r in members
      ensures union(r) <==> db(r) || markov(r)
      ensures outlier(r) <==> union(r) || HasFlag(anomalies, IfFlag)(r) || familyFlag
    {
      RecordFlags(anomalies, members, results, familyFlag, r);
    }
    CountMonotone(db, union, members);
    CountMonotone(markov, union, members);
    CountMonotone(union, outlier, members);
    CountMonotone(HasFlag(anomalies, IfFlag), outlier, members);
    FilterCount(outlier, members);
    UnionAtMostSum(union, db, markov, members);
    if familyFlag {
      CountAll(outlier, members);
    }
  }

  // Every finding the rollup produces is coherent; and with a positive Markov threshold none is
  // listed without an affected client.
  lemma RollUpIsCoherent(i: Rollup, f: Finding)
    requires Produces(i, f)
    ensures Coherent(f)
    ensures Tagged(i.anomalies, MarkovFlag, i.members) <= f.unionCount
      <= Tagged(i.anomalies, MarkovFlag, i.members) + f.dbscanCount
    ensures i.s.markovThreshold > 0.0 ==> f.affected > 0
  {
    TagsAreOrdered(i.anomalies, i.members, i.results, f.family in i.flagged);
    MarkovCountIsTagged(i, f);
  }

  // ---- a family listed without an affected client -------------------------

  const SILENT_FAMILY := "Apple | iPhone"
  const QUIET_ANOMALY := Anomaly(SILENT_FAMILY, None, false, None, false, false, Markov.EMPTY_RECORD, false, false)

  function SilentKey(k: nat): string {
    seq(k, _ => 'a')
  }

  function SilentMembers(n: nat): seq<Record> {
    seq(n, k requires 0 <= k < n => Record(SilentKey(k), SILENT_FAMILY, 0, ""))
  }

  function SilentRollup(n: nat, markovThreshold: real): Rollup {
    Rollup(SilentMembers(n), map r | r in SilentMembers(n) :: r.key := QUIET_ANOMALY, 0.0, map[], true,
      Settings(0, 1, 3, 1, 1.0, 1, markovThreshold), {}, {})
  }

  function SilentFinding(n: nat): Finding {
    Finding(SILENT_FAMILY, Primary, n, 0, false, false, Round4(0.0), Round4(ShareOrZero(0, n)),
      true, None, Round4(Round4(ShareOrZero(0, n))), 0, 0, 0, 0, 0)
  }

  lemma SilentFamilyIsVisible()
    ensures FamilyKind(SILENT_FAMILY) == Primary
    ensures SILENT_FAMILY !in HIDDEN_FAMILIES && !IsBareOneTokenFamily(SILENT_FAMILY)
  {
    var name := SILENT_FAMILY;
    assert |name| == 14 && name[13] == 'e';
    if IsServiceAccountFamily(name) {
      LastCharacter(name, SERVICE_ACCOUNT_SUFFIX);
    }
    if IsMfgRollupFamily(name) {
      LastCharacter(name, MFG_ROLLUP_SUFFIX);
    }
    assert name[5] == ' ' && name[6] == '|' && name[7] == ' ';
    assert name[0] == 'A';
  }

  lemma SilentKeysArePlain(k: nat)
    ensures KeyKind(SilentKey(k)) == Primary
  {
    var key := SilentKey(k);
    if IsSaRecordKey(key) {
      SuffixStart(key, SA_KEY_SUFFIX);
    }
    if IsMfgRecordKey(key) {
      SuffixStart(key, MFG_KEY_SUFFIX);
    }
  }

  lemma SilentCounts(n: nat, flag: Anomaly -> bool)
    requires !flag(QUIET_ANOMALY)
    ensures Tagged(SilentRollup(n, 0.0).anomalies, flag, SilentMembers(n)) == 0
  {
    CountZero(HasFlag(SilentRollup(n, 0.0).anomalies, flag), SilentMembers(n));
  }

  lemma SilentFlags(n: nat, markovThreshold: real)
    requires n > 0 && markovThreshold <= 0.0
    ensures FlagsIn(SilentRollup(n, markovThreshold), SILENT_FAMILY)
      == Markov.FamilyMarkov(true, None, Round4(ShareOrZero(0, n)), 0, 0)
  {
    var macs := Devices(SilentMembers(n));
    SilentFamilyIsVisible();
    CountZero(Markov.IsAnomalous(map[], 1), macs);
    CountZero(Markov.IsEvaluatable(map[], 1), macs);
    ShareOrder(0, 0, n);
  }

  lemma SilentMembersAreOfOneKind(n: nat)
    ensures DistinctKeys(SilentMembers(n))
    ensures forall r :: r in SilentMembers(n) ==> r.family == SILENT_FAMILY && KeyKind(r.key) == FamilyKind(SILENT_FAMILY)
  {
    SilentFamilyIsVisible();
    forall r | r in SilentMembers(n) ensures r.family == SILENT_FAMILY && KeyKind(r.key) == Primary {
      var k :| 0 <= k < n && r == SilentMembers(n)[k];
      SilentKeysArePlain(k);
    }
    forall j, k | 0 <= j < k < n ensures SilentMembers(n)[j].key != SilentMembers(n)[k].key {
      assert |SilentMembers(n)[j].key| == j && |SilentMembers(n)[k].key| == k;
    }
  }

  lemma SilentReport(n: nat, markovThreshold: real)
    requires n > 0 && markovThreshold <= 0.0
    ensures var i, f, fm := SilentRollup(n, markovThreshold), SilentFinding(n),
        Markov.FamilyMarkov(true, None, Round4(ShareOrZero(0, n)), 0, 0);
      && Surfaces(SILENT_FAMILY, i.members, i.anomalies, i.s, i.pooled, fm, i.flagged)
      && Reports(f, i.members, i.anomalies, i.noise, i.s, fm, i.flagged)
  {
    SilentFamilyIsVisible();
    assert !OutlierFlag(QUIET_ANOMALY) && !DbFlag(QUIET_ANOMALY) && !UnionFlag(QUIET_ANOMALY) && !IfFlag(QUIET_ANOMALY);
    SilentCounts(n, OutlierFlag);
    SilentCounts(n, DbFlag);
    SilentCounts(n, UnionFlag);
    SilentCounts(n, IfFlag);
  }

  // With a Markov family threshold of zero a family with no flagged client at all is listed.
  lemma SilentFindingIsProduced(n: nat, markovThreshold: real)
    requires n > 0 && markovThreshold <= 0.0
    ensures Produces(SilentRollup(n, markovThreshold), SilentFinding(n))
  {
    SilentMembersAreOfOneKind(n);
    SilentFlags(n, markovThreshold);
    SilentReport(n, markovThreshold);
    assert SilentMembers(n)[0] in SilentMembers(n);
  }

  // ---- the whole pass -----------------------------------------------------

  lemma GroupsAreOfOneKind(records: seq<Record>, family: string, eligible: map<string, DbscanResult>)
    requires Dual(records) && family in Families(records)
    requires eligible.Keys == KeysOf(Filter(IsReal, records))
    ensures Members(records, family) != [] && DevicesOnly(eligible, Members(records, family))
    ensures forall r :: r in Members(records, family) ==> r in records && KeyKind(r.key) == FamilyKind(family)
  {
    FamiliesCover(records);
    MembersAreRecords(records, family);
    forall key | key in eligible ensures !IsVirtualKey(key) {
      var r :| r in Filter(IsReal, records) && r.key == key;
      FilterMember(IsReal, records, r);
      assert IsReal(r);
    }
    forall r | r in records ensures UnderlyingMac(r.key) in eligible {
      DeviceIsClustered(records, r);
    }
  }

  lemma DeviceIsClustered(records: seq<Record>, r: Record)
    requires Dual(records) && r in records
    ensures UnderlyingMac(r.key) in KeysOf(Filter(IsReal, records))
  {
    assert HasPrimary(records, r);
    var p :| p in records && IsPrimaryOf(p, r);
    assert IsReal(p);
    FilterMember(IsReal, records, p);
  }

  function NoiseOf(family: string, members: seq<Record>, eligible: map<string, DbscanResult>): real {
    if FamilyKind(family) == MfgRollup then 0.0 else ShareOrZero(Count(DeviceNoise(eligible), members), |members|)
  }

  ghost predicate NoiseKnown(noise: map<string, real>, families: seq<string>, records: seq<Record>,
    eligible: map<string, DbscanResult>)
  {
    forall f :: f in families ==> f in noise && noise[f] == NoiseOf(f, Members(records, f), eligible)
  }

  method NoiseRatioAmong(records: seq<Record>, family: string, members: seq<Record>,
    eligible: map<string, DbscanResult>, all: map<string, DbscanResult>) returns (ratio: real)
    requires Dual(records) && family in Families(records) && members == Members(records, family)
    requires eligible.Keys == KeysOf(Filter(IsReal, records))
    requires Inherits(all, eligible, records, NOT_CLUSTERED)
    ensures ratio == NoiseOf(family, members, eligible)
  {
    GroupsAreOfOneKind(records, family, eligible);
    ratio := FamilyNoiseRatio(family, members, eligible, all);
  }

  lemma NoiseStep(noise: map<string, real>, families: seq<string>, i: nat, records: seq<Record>,
      eligible: map<string, DbscanResult>)
    requires i < |families| && NoiseKnown(noise, families[..i], records, eligible)
    ensures NoiseKnown(
      noise[families[i] := NoiseOf(families[i], Members(records, families[i]), eligible)],
      families[..i + 1], records, eligible)
  {
    assert families[..i + 1] == families[..i] + [families[i]];
  }

  method NoiseRatios(records: seq<Record>, groups: map<string, seq<Record>>,
    eligible: map<string, DbscanResult>, all: map<string, DbscanResult>) returns (noise: map<string, real>)
    requires Dual(records) && Grouped(groups, records)
    requires eligible.Keys == KeysOf(Filter(IsReal, records))
    requires Inherits(all, eligible, records, NOT_CLUSTERED)
    ensures NoiseKnown(noise, Families(records), records, eligible)
  {
    var families := Families(records);
    FamiliesCover(records);
    noise := map[];
    for i := 0 to |families|
      invariant NoiseKnown(noise, families[..i], records, eligible)
    {
      var family := families[i];
      assert family in families && groups[family] == Members(records, family);
      var ratio := NoiseRatioAmong(records, family, groups[family], eligible, all);
      NoiseStep(noise, families, i, records, eligible);
      noise := noise[family := ratio];
    }
    assert families[..|families|] == families;
  }

  // A dual record carries the DBSCAN and Markov flags of its device.
  ghost predicate SharesDeviceFlags(anomalies: map<string, Anomaly>, r: Record) {
    && r.key in anomalies && UnderlyingMac(r.key) in anomalies
    && anomalies[r.key].isDb == anomalies[UnderlyingMac(r.key)].isDb
    && anomalies[r.key].cluster == anomalies[UnderlyingMac(r.key)].cluster
    && anomalies[r.key].markov == anomalies[UnderlyingMac(r.key)].markov
    && anomalies[r.key].isMarkov == anomalies[UnderlyingMac(r.key)].isMarkov
  }

  // The noise ratio and the DBSCAN ratio are the same share outside the manufacturer rollups.
  lemma NoiseIsDbscanShare(i: Rollup, f: Finding, eligible: map<string, DbscanResult>)
    requires Produces(i, f)
    requires forall r :: r in i.members ==> i.anomalies[r.key].isDb == DeviceNoise(eligible)(r)
    requires i.noise == NoiseOf(f.family, i.members, eligible)
    ensures f.noiseRatio == if f.kind == MfgRollup then 0.0 else f.dbscanRatio
  {
    forall r | r in i.members ensures HasFlag(i.anomalies, DbFlag)(r) <==> DeviceNoise(eligible)(r) {
      assert HasFlag(i.anomalies, DbFlag)(r) == DbFlag(i.anomalies[r.key]);
    }
    CountSame(HasFlag(i.anomalies, DbFlag), DeviceNoise(eligible), i.members);
    RoundsToNearest(0.0);
  }

  ghost predicate ReadsForest(a: Anomaly, verdict: IfResult) {
    a.isIf == verdict.outlier && a.ifScore == verdict.score
  }

  ghost predicate ReadsClusters(a: Anomaly, verdict: DbscanResult) {
    a.isDb == verdict.noise && a.cluster == verdict.cluster
  }

  // What the detectors said of a record, under its own key or its device's.
  ghost predicate Judged(a: Anomaly, r: Record, records: seq<Record>, s: Settings, cluster: string -> int,
    forest: string -> (real, bool), contexts: map<string, seq<Record>>, results: Results, flagged: set<string>)
  {
    && a.family == r.family
    && ReadsForest(a, IfOf(r.family, Members(records, r.family), s, At(contexts, r.family, []), forest, r))
    && a.markov == At(results, UnderlyingMac(r.key), Markov.EMPTY_RECORD) && a.isMarkov == a.markov.isOutlier
    && a.isFamily == (r.family in flagged)
    && a.isOutlier == (a.isIf || a.isDb || a.isFamily || a.isMarkov)
    && (IsReal(r) ==> ReadsClusters(a, DbscanOf(Filter(IsReal, records), s, cluster, r)))
  }

  ghost predicate ReadsDevice(anomalies: map<string, Anomaly>, eligible: map<string, DbscanResult>,
    results: Results, r: Record)
  {
    && r.key in anomalies
    && anomalies[r.key].isDb == At(eligible, UnderlyingMac(r.key), NOT_CLUSTERED).noise
    && anomalies[r.key].cluster == At(eligible, UnderlyingMac(r.key), NOT_CLUSTERED).cluster
    && anomalies[r.key].markov == At(results, UnderlyingMac(r.key), Markov.EMPTY_RECORD)
  }

  lemma MergeReadsDevice(anomalies: map<string, Anomaly>, records: seq<Record>, scored: map<string, IfResult>,
      clustered: map<string, DbscanResult>, markov: Results, eligible: map<string, DbscanResult>,
      results: Results, flagged: set<string>, r: Record)
    requires r in records
    requires KeysOf(records) <= scored.Keys && KeysOf(records) <= clustered.Keys
    requires Merged(anomalies, records, scored, clustered, markov, flagged)
    requires Inherits(clustered, eligible, records, NOT_CLUSTERED) && Inherits(markov, results, records, Markov.EMPTY_RECORD)
    ensures ReadsDevice(anomalies, eligible, results, r)
  {
    assert r.key in KeysOf(records);
    assert anomalies[r.key] == AnomalyOf(r, scored[r.key], clustered[r.key], At(markov, r.key, Markov.EMPTY_RECORD), flagged);
  }

  lemma DeviceRecord(records: seq<Record>, r: Record) returns (p: Record)
    requires Dual(records) && r in records
    ensures p in records && IsReal(p) && p.key == UnderlyingMac(r.key) == UnderlyingMac(p.key)
    ensures IsReal(r) ==> r.key == UnderlyingMac(r.key)
  {
    assert HasPrimary(records, r);
    p :| p in records && IsPrimaryOf(p, r);
  }

  lemma MergeIsFaithful(anomalies: map<string, Anomaly>, records: seq<Record>, scored: map<string, IfResult>,
      clustered: map<string, DbscanResult>, markov: Results, eligible: map<string, DbscanResult>,
      results: Results, flagged: set<string>, r: Record)
    requires Dual(records) && r in records
    requires KeysOf(records) <= scored.Keys && KeysOf(records) <= clustered.Keys
    requires Merged(anomalies, records, scored, clustered, markov, flagged)
    requires Inherits(clustered, eligible, records, NOT_CLUSTERED) && Inherits(markov, results, records, Markov.EMPTY_RECORD)
    ensures SharesDeviceFlags(anomalies, r)
    ensures anomalies[r.key].isDb == DeviceNoise(eligible)(r)
    ensures anomalies[r.key].cluster == At(eligible, UnderlyingMac(r.key), NOT_CLUSTERED).cluster
    ensures anomalies[r.key].markov == At(results, UnderlyingMac(r.key), Markov.EMPTY_RECORD)
  {
    MergeReadsDevice(anomalies, records, scored, clustered, markov, eligible, results, flagged, r);
    var p := DeviceRecord(records, r);
    MergeReadsDevice(anomalies, records, scored, clustered, markov, eligible, results, flagged, p);
  }

  lemma MergeIsJudged(anomalies: map<string, Anomaly>, records: seq<Record>, scored: map<string, IfResult>,
      clustered: map<string, DbscanResult>, markov: Results, eligible: map<string, DbscanResult>,
      s: Settings, cluster: string -> int, forest: string -> (real, bool), contexts: map<string, seq<Record>>,
      results: Results, flagged: set<string>, r: Record)
    requires Dual(records) && r in records
    requires Forested(scored, records, s, contexts, forest)
    requires Clusters(eligible, Filter(IsReal, records), s, cluster)
    requires KeysOf(records) <= clustered.Keys
    requires Merged(anomalies, records, scored, clustered, markov, flagged)
    requires r.key in anomalies && anomalies[r.key].isDb == DeviceNoise(eligible)(r)
    requires anomalies[r.key].cluster == At(eligible, UnderlyingMac(r.key), NOT_CLUSTERED).cluster
    requires anomalies[r.key].markov == At(results, UnderlyingMac(r.key), Markov.EMPTY_RECORD)
    ensures Judged(anomalies[r.key], r, records, s, cluster, forest, contexts, results, flagged)
  {
    assert anomalies[r.key] == AnomalyOf(r, scored[r.key], clustered[r.key], At(markov, r.key, Markov.EMPTY_RECORD), flagged);
    if IsReal(r) {
      var p := DeviceRecord(records, r);
      FilterMember(IsReal, records, r);
      assert eligible[r.key] == DbscanOf(Filter(IsReal, records), s, cluster, r);
    }
  }

  ghost predicate RecordsScored(anomalies: map<string, Anomaly>, records: seq<Record>, eligible: map<string, DbscanResult>,
    s: Settings, cluster: string -> int, forest: string -> (real, bool), contexts: map<string, seq<Record>>,
    results: Results, flagged: set<string>)
  {
    && anomalies.Keys == KeysOf(records)
    && (forall r :: r in records ==>
          SharesDeviceFlags(anomalies, r)
          && anomalies[r.key].isDb == DeviceNoise(eligible)(r)
          && Judged(anomalies[r.key], r, records, s, cluster, forest, contexts, results, flagged))
  }

  method ScoreRecords(records: seq<Record>, groups: map<string, seq<Record>>, s: Settings, cluster: string -> int,
    forest: string -> (real, bool), contexts: map<string, seq<Record>>, results: Results, flagged: set<string>)
    returns (anomalies: map<string, Anomaly>, noise: map<string, real>, pooled: set<string>,
      ghost eligible: map<string, DbscanResult>)
    requires Dual(records) && Grouped(groups, records)
    ensures RecordsScored(anomalies, records, eligible, s, cluster, forest, contexts, results, flagged)
    ensures NoiseKnown(noise, Families(records), records, eligible)
  {
    var markov := Propagate(records, results, Markov.EMPTY_RECORD);
    PartKeysDiffer(IsReal, records);
    var clusters := RunDbscan(Filter(IsReal, records), s, cluster);
    eligible := clusters;
    var clustered := Propagate(records, clusters, NOT_CLUSTERED);
    noise := NoiseRatios(records, groups, clusters, clustered);
    var scored;
    scored, pooled := ScoreFamilies(records, groups, s, contexts, forest);
    EveryKeyIsClustered(records, clustered, clusters);
    anomalies := Merge(records, scored, clustered, markov, flagged);
    forall r | r in records
      ensures SharesDeviceFlags(anomalies, r) && anomalies[r.key].isDb == DeviceNoise(eligible)(r)
      ensures Judged(anomalies[r.key], r, records, s, cluster, forest, contexts, results, flagged)
    {
      MergeIsFaithful(anomalies, records, scored, clustered, markov, clusters, results, flagged, r);
      MergeIsJudged(
        anomalies, records, scored, clustered, markov, clusters, s, cluster, forest, contexts, results, flagged, r);
    }
  }

  // What scoring promises of each finding: it is the rollup of its family's records, its counts
  // are ordered, its Markov count is that of its flagged records, its noise ratio its DBSCAN ratio.
  ghost predicate Sound(f: Finding, i: Rollup) {
    && Produces(i, f)
    && Coherent(f)
    && f.markovCount == (if f.kind == MfgRollup then 0 else Tagged(i.anomalies, MarkovFlag, i.members))
    && f.noiseRatio == if f.kind == MfgRollup then 0.0 else f.dbscanRatio
  }

  lemma ScoredFlagsAddUp(anomalies: map<string, Anomaly>, records: seq<Record>, eligible: map<string, DbscanResult>,
      s: Settings, cluster: string -> int, forest: string -> (real, bool), contexts: map<string, seq<Record>>,
      results: Results, flagged: set<string>, family: string)
    requires RecordsScored(anomalies, records, eligible, s, cluster, forest, contexts, results, flagged)
    ensures FlagsAddUp(anomalies, Members(records, family), results, family in flagged)
    ensures forall r :: r in Members(records, family) ==> anomalies[r.key].isDb == DeviceNoise(eligible)(r)
  {
    MembersAreRecords(records, family);
    forall r | r in Members(records, family)
      ensures r.key in anomalies
      ensures anomalies[r.key].isMarkov == DeviceOutlier(results)(r) && anomalies[r.key].isFamily == (family in flagged)
      ensures var a := anomalies[r.key]; a.isOutlier == (a.isIf || a.isDb || a.isFamily || a.isMarkov)
      ensures anomalies[r.key].isDb == DeviceNoise(eligible)(r)
    {
      assert SharesDeviceFlags(anomalies, r);
      assert Judged(anomalies[r.key], r, records, s, cluster, forest, contexts, results, flagged);
    }
  }

  lemma MembersOfOneKind(records: seq<Record>, family: string)
    requires Dual(records) && family in Families(records)
    ensures Members(records, family) != [] && DistinctKeys(Members(records, family))
    ensures forall r :: r in Members(records, family) ==> r.family == family && KeyKind(r.key) == FamilyKind(family)
  {
    FamiliesCover(records);
    MembersAreRecords(records, family);
    PartKeysDiffer(InFamily(family), records);
  }

  lemma ProducedIsSound(i: Rollup, f: Finding, eligible: map<string, DbscanResult>)
    requires Produces(i, f)
    requires forall r :: r in i.members ==> i.anomalies[r.key].isDb == DeviceNoise(eligible)(r)
    requires i.noise == NoiseOf(f.family, i.members, eligible)
    ensures Sound(f, i)
  {
    RollUpIsCoherent(i, f);
    MarkovCountIsTagged(i, f);
    NoiseIsDbscanShare(i, f, eligible);
  }

  // A family's share of what scoring hands to the rollup.
  function RollupOf(family: string, records: seq<Record>, anomalies: map<string, Anomaly>, noise: map<string, real>,
    results: Results, baseline: bool, s: Settings, pooled: set<string>, flagged: set<string>): Rollup
  {
    Rollup(Members(records, family), anomalies, At(noise, family, 0.0), results, baseline, s, pooled, flagged)
  }

  function Listed(records: seq<Record>, anomalies: map<string, Anomaly>, results: Results, baseline: bool, s: Settings,
    pooled: set<string>, flagged: set<string>): string -> bool
  {
    (family: string) =>
      Surfaces(family, Members(records, family), anomalies, s, pooled,
        FlagsOf(family, Members(records, family), results, baseline, s), flagged)
  }

  lemma SurfacedIsListed(records: seq<Record>, anomalies: map<string, Anomaly>, results: Results, baseline: bool,
      s: Settings, pooled: set<string>, flags: map<string, Markov.FamilyMarkov>, flagged: set<string>)
    requires FlagsKnown(flags, records, results, baseline, s)
    ensures Filter(IsSurfaced(records, anomalies, s, pooled, flags, flagged), Families(records))
      == Filter(Listed(records, anomalies, results, baseline, s, pooled, flagged), Families(records))
  {
    FilterSame(IsSurfaced(records, anomalies, s, pooled, flags, flagged),
      Listed(records, anomalies, results, baseline, s, pooled, flagged), Families(records));
  }

  lemma FindingIsSound(f: Finding, i: Rollup, records: seq<Record>, eligible: map<string, DbscanResult>)
    requires Dual(records) && f.family in Families(records) && i.members == Members(records, f.family)
    requires Analyzed(i.results, i.baseline, i.s)
    requires FlagsAddUp(i.anomalies, i.members, i.results, f.family in i.flagged)
    requires forall r :: r in i.members ==> i.anomalies[r.key].isDb == DeviceNoise(eligible)(r)
    requires i.noise == NoiseOf(f.family, i.members, eligible)
    requires Surfaces(f.family, i.members, i.anomalies, i.s, i.pooled, FlagsIn(i, f.family), i.flagged)
    requires Reports(f, i.members, i.anomalies, i.noise, i.s, FlagsIn(i, f.family), i.flagged)
    ensures Sound(f, i)
  {
    MembersOfOneKind(records, f.family);
    assert Produces(i, f);
    ProducedIsSound(i, f, eligible);
  }

  lemma ReportIsSound(f: Finding, records: seq<Record>, anomalies: map<string, Anomaly>, noise: map<string, real>,
      s: Settings, results: Results, baseline: bool, pooled: set<string>, flagged: set<string>,
      fm: Markov.FamilyMarkov, eligible: map<string, DbscanResult>)
    requires Dual(records) && f.family in Families(records) && Analyzed(results, baseline, s)
    requires fm == FlagsOf(f.family, Members(records, f.family), results, baseline, s)
    requires FlagsAddUp(anomalies, Members(records, f.family), results, f.family in flagged)
    requires forall r :: r in Members(records, f.family) ==> anomalies[r.key].isDb == DeviceNoise(eligible)(r)
    requires At(noise, f.family, 0.0) == NoiseOf(f.family, Members(records, f.family), eligible)
    requires Listed(records, anomalies, results, baseline, s, pooled, flagged)(f.family)
    requires Reports(f, Members(records, f.family), anomalies, At(noise, f.family, 0.0), s, fm, flagged)
    ensures Sound(f, RollupOf(f.family, records, anomalies, noise, results, baseline, s, pooled, flagged))
  {
    FindingIsSound(f, RollupOf(f.family, records, anomalies, noise, results, baseline, s, pooled, flagged), records, eligible);
  }

  lemma ReportsAreSound(findings: seq<Finding>, records: seq<Record>, anomalies: map<string, Anomaly>,
      noise: map<string, real>, s: Settings, cluster: string -> int, forest: string -> (real, bool),
      contexts: map<string, seq<Record>>, results: Results, baseline: bool, flags: map<string, Markov.FamilyMarkov>,
      pooled: set<string>, flagged: set<string>, eligible: map<string, DbscanResult>)
    requires Dual(records)
    requires Analyzed(results, baseline, s) && FlagsKnown(flags, records, results, baseline, s)
    requires RecordsScored(anomalies, records, eligible, s, cluster, forest, contexts, results, flagged)
    requires NoiseKnown(noise, Families(records), records, eligible)
    requires forall f :: f in findings ==> IsReport(records, anomalies, noise, s, flags, flagged)(f)
    requires forall f :: f in findings ==>
      f.family in Families(records) && Listed(records, anomalies, results, baseline, s, pooled, flagged)(f.family)
    ensures forall f :: f in findings ==>
      Sound(f, RollupOf(f.family, records, anomalies, noise, results, baseline, s, pooled, flagged))
  {
    forall f | f in findings
      ensures Sound(f, RollupOf(f.family, records, anomalies, noise, results, baseline, s, pooled, flagged))
    {
      ScoredFlagsAddUp(anomalies, records, eligible, s, cluster, forest, contexts, results, flagged, f.family);
      ReportIsSound(f, records, anomalies, noise, s, results, baseline, pooled, flagged,
        At(flags, f.family, Markov.QUIET_FAMILY), eligible);
    }
  }

  // Scoring one (site, WLAN): the DBSCAN, forest and centroid verdicts and the clients' Markov
  // results are arbitrary.
  method Score(records: seq<Record>, s: Settings, cluster: string -> int, forest: string -> (real, bool),
    contexts: map<string, seq<Record>>, results: Results, baseline: bool, flagged: set<string>)
    returns (anomalies: map<string, Anomaly>, findings: seq<Finding>, ghost noise: map<string, real>, ghost pooled: set<string>)
    requires Dual(records) && Analyzed(results, baseline, s)
    ensures anomalies.Keys == KeysOf(records)
    ensures forall r :: r in records ==> SharesDeviceFlags(anomalies, r)
    ensures forall r :: r in records ==>
      Judged(anomalies[r.key], r, records, s, cluster, forest, contexts, results, flagged)
    ensures forall f :: f in findings ==>
      Sound(f, RollupOf(f.family, records, anomalies, noise, results, baseline, s, pooled, flagged))
    ensures Map(FindingFamily, findings)
      == Filter(Listed(records, anomalies, results, baseline, s, pooled, flagged), Families(records))
    ensures forall i, j :: 0 <= i < j < |findings| ==> findings[i].family != findings[j].family
  {
    var groups := GroupByFamily(records);
    var flags := MarkovFamilyFlags(records, groups, results, baseline, s);
    var ratios, orgPooled;
    ghost var eligible;
    anomalies, ratios, orgPooled, eligible := ScoreRecords(records, groups, s, cluster, forest, contexts, results, flagged);
    noise, pooled := ratios, orgPooled;
    findings := RollUp(records, groups, anomalies, ratios, s, orgPooled, flags, flagged);
    SurfacedIsListed(records, anomalies, results, baseline, s, pooled, flags, flagged);
    SurfacedFamilies(records, findings, Listed(records, anomalies, results, baseline, s, pooled, flagged));
    ReportsAreSound(
      findings, records, anomalies, noise, s, cluster, forest, contexts, results, baseline, flags, pooled, flagged, eligible);
  }

  lemma EveryKeyIsClustered(records: seq<Record>, clustered: map<string, DbscanResult>, eligible: map<string, DbscanResult>)
    requires eligible.Keys == KeysOf(Filter(IsReal, records))
    requires clustered.Keys == eligible.Keys + VirtualKeys(records)
    ensures KeysOf(records) <= clustered.Keys
  {
    forall r | r in records ensures r.key in clustered {
      if !IsVirtualKey(r.key) {
        assert IsReal(r);
        FilterMember(IsReal, records, r);
      }
    }
  }

  lemma SurfacedFamilies(records: seq<Record>, findings: seq<Finding>, p: string -> bool)
    requires Map(FindingFamily, findings) == Filter(p, Families(records))
    ensures forall f :: f in findings ==> f.family in Families(records) && p(f.family)
    ensures forall i, j :: 0 <= i < j < |findings| ==> findings[i].family != findings[j].family
  {
    FamiliesCover(records);
    var names := Map(FindingFamily, findings);
    forall f | f in findings ensures f.family in Families(records) && p(f.family) {
      var i :| 0 <= i < |findings| && findings[i] == f;
      assert names[i] == f.family;
      FilterMember(p, Families(records), f.family);
    }
    FilterKeepsDistinct(p, Families(records));
    forall i, j | 0 <= i < j < |findings| ensures findings[i].family != findings[j].family {
      assert names[i] == findings[i].family && names[j] == findings[j].family;
    }
  }
}

// The Markov family flags as scoring gathers them: from the analyzer for the families of real
// MACs, recomputed for the service-account families, absent for the manufacturer rollups.
module MarkovFlags {
  import opened Vocabulary
  import opened Sequences
  import opened DualRecords
  import opened Detector
  import Markov = MarkovRollup

  type Results = map<string, Markov.MacRecord>

  function Devices(members: seq<Record>): seq<string> {
    Map(DeviceName, members)
  }

  // Without a baseline the analyzer returns an empty record for every client.
  ghost predicate Analyzed(results: Results, baseline: bool, s: Settings) {
    && (forall m :: m in results ==> Markov.Coherent(results[m], s.minScoreable))
    && (!baseline ==> forall m :: m in results ==> results[m] == Markov.EMPTY_RECORD)
  }

  // What a lookup of the family's flags yields.
  function FlagsOf(family: string, members: seq<Record>, results: Results, baseline: bool, s: Settings): Markov.FamilyMarkov {
    match FamilyKind(family)
    case Primary =>
      if baseline then Markov.TotalRollup(Devices(members), results, s.minScoreable, s.markovThreshold)
      else Markov.QUIET_FAMILY
    case ServiceAccount => Markov.ServiceAccountRollup(Devices(members), results, s.minScoreable, s.markovThreshold)
    case MfgRollup => Markov.QUIET_FAMILY
  }

  ghost predicate FlagsKnown(flags: map<string, Markov.FamilyMarkov>, records: seq<Record>, results: Results,
    baseline: bool, s: Settings)
  {
    forall f :: f in Families(records) ==>
      At(flags, f, Markov.QUIET_FAMILY) == FlagsOf(f, Members(records, f), results, baseline, s)
  }

  // ---- the analyzer's own rollup ------------------------------------------

  function AnalyzerFlags(devices: seq<Record>, family: string, results: Results, baseline: bool, s: Settings): Markov.FamilyMarkov {
    if baseline
    then Markov.TotalRollup(Map(KeyName, Members(devices, family)), results, s.minScoreable, s.markovThreshold)
    else Markov.QUIET_FAMILY
  }

  method RollUpDevice(devices: seq<Record>, family: string, members: seq<Record>, results: Results, baseline: bool, s: Settings)
    returns (rolled: Markov.FamilyMarkov)
    requires members == Members(devices, family)
    ensures rolled == AnalyzerFlags(devices, family, results, baseline, s)
  {
    rolled := Markov.QUIET_FAMILY;
    if baseline {
      rolled := Markov.RollUpFamily(Map(KeyName, members), results, s.minScoreable, s.markovThreshold);
    }
  }

  method RollUpDevices(devices: seq<Record>, groups: map<string, seq<Record>>, results: Results, baseline: bool, s: Settings)
    returns (flags: map<string, Markov.FamilyMarkov>)
    requires Grouped(groups, devices)
    ensures flags.Keys == set f | f in Families(devices)
    ensures forall f :: f in flags ==> flags[f] == AnalyzerFlags(devices, f, results, baseline, s)
  {
    var families := Families(devices);
    FamiliesCover(devices);
    flags := map[];
    for i := 0 to |families|
      invariant flags.Keys == set f | f in families[..i]
      invariant forall f :: f in flags ==> flags[f] == AnalyzerFlags(devices, f, results, baseline, s)
    {
      var family := families[i];
      assert family in families && groups[family] == Members(devices, family);
      assert families[..i + 1] == families[..i] + [family];
      var rolled := RollUpDevice(devices, family, groups[family], results, baseline, s);
      flags := flags[family := rolled];
    }
    assert families[..|families|] == families;
  }

  // ---- the service-account families ---------------------------------------

  function AccountFlags(members: seq<Record>, results: Results, s: Settings): Markov.FamilyMarkov {
    Markov.ServiceAccountRollup(Devices(members), results, s.minScoreable, s.markovThreshold)
  }

  ghost predicate AccountsAdded(flags: map<string, Markov.FamilyMarkov>, before: map<string, Markov.FamilyMarkov>,
    done: seq<string>, records: seq<Record>, results: Results, s: Settings)
  {
    forall f ::
      At(flags, f, Markov.QUIET_FAMILY) ==
        if f in done && IsServiceAccountFamily(f) then AccountFlags(Members(records, f), results, s)
        else At(before, f, Markov.QUIET_FAMILY)
  }

  lemma AccountsStep(flags: map<string, Markov.FamilyMarkov>, before: map<string, Markov.FamilyMarkov>,
      families: seq<string>, i: nat, records: seq<Record>, results: Results, s: Settings)
    requires i < |families| && AccountsAdded(flags, before, families[..i], records, results, s)
    ensures var f := families[i];
      AccountsAdded(
        if IsServiceAccountFamily(f) then flags[f := AccountFlags(Members(records, f), results, s)] else flags,
        before, families[..i + 1], records, results, s)
  {
    assert families[..i + 1] == families[..i] + [families[i]];
  }

  method RollUpAccounts(records: seq<Record>, groups: map<string, seq<Record>>, before: map<string, Markov.FamilyMarkov>,
    results: Results, s: Settings) returns (flags: map<string, Markov.FamilyMarkov>)
    requires Grouped(groups, records)
    ensures AccountsAdded(flags, before, Families(records), records, results, s)
  {
    var families := Families(records);
    FamiliesCover(records);
    flags := before;
    for i := 0 to |families|
      invariant AccountsAdded(flags, before, families[..i], records, results, s)
    {
      var family := families[i];
      assert family in families && groups[family] == Members(records, family);
      AccountsStep(flags, before, families, i, records, results, s);
      if !IsServiceAccountFamily(family) {
        continue;
      }
      var rolled := Markov.RollUpServiceAccount(Devices(groups[family]), results, s.minScoreable, s.markovThreshold);
      flags := flags[family := rolled];
    }
    assert families[..|families|] == families;
  }

  // ---- both together ------------------------------------------------------

  // A fingerprint family has only real members ...
  lemma RealMembers(records: seq<Record>, family: string)
    requires Dual(records) && family in Families(records) && FamilyKind(family) == Primary
    ensures family in Families(Filter(IsReal, records))
    ensures Members(Filter(IsReal, records), family) == Members(records, family)
    ensures Map(KeyName, Members(records, family)) == Devices(Members(records, family))
  {
    var devices, members := Filter(IsReal, records), Members(records, family);
    FamiliesCover(records);
    MembersAreRecords(records, family);
    forall r | r in members ensures IsReal(r) && r.key == UnderlyingMac(r.key) {
    }
    FilterTwice(InFamily(family), IsReal, InFamily(family), records);
    assert members[0] in members;
    FilterMember(IsReal, records, members[0]);
    FamiliesCover(devices);
    assert Map(KeyName, members) == Devices(members);
  }

  // ... and a virtual one has none.
  lemma NoRealMembers(records: seq<Record>, family: string)
    requires Dual(records) && FamilyKind(family) != Primary
    ensures family !in Families(Filter(IsReal, records))
  {
    var devices := Filter(IsReal, records);
    FamiliesCover(devices);
    if family in Families(devices) {
      var r := Members(devices, family)[0];
      MembersAreRecords(devices, family);
      assert r in Members(devices, family);
      FilterMember(IsReal, records, r);
      assert false;
    }
  }

  // A manufacturer rollup has no flags; a service account's are over its evaluatable clients; a
  // fingerprint family's over all its clients, and it has none without a baseline.
  ghost predicate FlagsByEnding(fm: Markov.FamilyMarkov, family: string, macs: seq<string>, results: Results,
    baseline: bool, s: Settings)
  {
    if Ends(family, "-MFG", 4) || (!Ends(family, ".service_account", 16) && !baseline)
    then fm == Markov.FamilyMarkov(false, None, 0.0, 0, 0)
    else
      Markov.RollsUpOver(fm, if Ends(family, ".service_account", 16) then fm.evaluatable else |macs|,
        macs, results, s.minScoreable, s.markovThreshold)
  }

  lemma FlagsDecided(family: string, members: seq<Record>, results: Results, baseline: bool, s: Settings)
    ensures FlagsByEnding(FlagsOf(family, members, results, baseline, s), family, Devices(members), results, baseline, s)
  {
    FamilyKindByEnding(family);
    Markov.TotalRollupByField(Devices(members), results, s.minScoreable, s.markovThreshold);
    Markov.ServiceAccountRollupByField(Devices(members), results, s.minScoreable, s.markovThreshold);
  }

  method MarkovFamilyFlags(records: seq<Record>, groups: map<string, seq<Record>>, results: Results, baseline: bool, s: Settings)
    returns (flags: map<string, Markov.FamilyMarkov>)
    requires Dual(records) && Grouped(groups, records)
    ensures FlagsKnown(flags, records, results, baseline, s)
    ensures forall f :: f in Families(records) ==>
      FlagsByEnding(At(flags, f, Markov.QUIET_FAMILY), f, Devices(Members(records, f)), results, baseline, s)
  {
    var devices := Filter(IsReal, records);
    var realGroups := GroupByFamily(devices);
    var analyzed := RollUpDevices(devices, realGroups, results, baseline, s);
    flags := RollUpAccounts(records, groups, analyzed, results, s);
    forall f | f in Families(records)
      ensures At(flags, f, Markov.QUIET_FAMILY) == FlagsOf(f, Members(records, f), results, baseline, s)
    {
      VirtualFamiliesDiffer(f);
      if FamilyKind(f) == Primary {
        RealMembers(records, f);
      } else {
        NoRealMembers(records, f);
      }
    }
    forall f | f in Families(records)
      ensures FlagsByEnding(At(flags, f, Markov.QUIET_FAMILY), f, Devices(Members(records, f)), results, baseline, s)
    {
      FlagsDecided(f, Members(records, f), results, baseline, s);
    }
  }

  // ---- the flags and the clients ------------------------------------------

  function DeviceOutlier(results: Results): Record -> bool {
    (r: Record) => At(results, UnderlyingMac(r.key), Markov.EMPTY_RECORD).isOutlier
  }

  lemma FlaggedDevice(results: Results, baseline: bool, s: Settings, r: Record)
    requires Analyzed(results, baseline, s)
    ensures Markov.IsAnomalous(results, s.minScoreable)(UnderlyingMac(r.key)) <==> DeviceOutlier(results)(r)
    ensures !baseline ==> !DeviceOutlier(results)(r)
  {
    var m := UnderlyingMac(r.key);
    assert m in results ==> Markov.Coherent(results[m], s.minScoreable);
    assert m in results && !baseline ==> results[m] == Markov.EMPTY_RECORD;
  }

  lemma FlaggedDevices(members: seq<Record>, results: Results, baseline: bool, s: Settings)
    requires Analyzed(results, baseline, s)
    ensures Count(Markov.IsAnomalous(results, s.minScoreable), Devices(members)) == Count(DeviceOutlier(results), members)
    ensures !baseline ==> Count(DeviceOutlier(results), members) == 0
  {
    forall i | 0 <= i < |members|
      ensures Markov.IsAnomalous(results, s.minScoreable)(Devices(members)[i]) <==> DeviceOutlier(results)(members[i])
    {
      FlaggedDevice(results, baseline, s, members[i]);
    }
    CountAligned(Markov.IsAnomalous(results, s.minScoreable), Devices(members), DeviceOutlier(results), members);
    if !baseline {
      forall r | r in members ensures !DeviceOutlier(results)(r) {
        FlaggedDevice(results, baseline, s, r);
      }
      CountZero(DeviceOutlier(results), members);
    }
  }

  // The anomalous count is the number of the family's records whose client is flagged; a
  // positive threshold is never reached by a family without one.
  lemma FlagsCountOutliers(family: string, members: seq<Record>, results: Results, baseline: bool, s: Settings)
    requires Analyzed(results, baseline, s)
    ensures FlagsOf(family, members, results, baseline, s).anomalous
      == if FamilyKind(family) == MfgRollup then 0 else Count(DeviceOutlier(results), members)
    ensures s.markovThreshold > 0.0 && FlagsOf(family, members, results, baseline, s).isOutlier ==>
      FlagsOf(family, members, results, baseline, s).anomalous > 0
  {
    FlaggedDevices(members, results, baseline, s);
    Markov.TotalRollupCounts(Devices(members), results, s.minScoreable, s.markovThreshold);
    Markov.ServiceAccountRollupCounts(Devices(members), results, s.minScoreable, s.markovThreshold);
  }
}

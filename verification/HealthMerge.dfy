// Merging rounded per-site rollups against one rollup of the pool: exact for counts, one unit for means.
module HealthMerge {
  import opened Vocabulary
  import opened Sequences
  import opened Rounding
  import opened Health

  // ---- weighted sums of rounded means --------------------------------------------------

  // Off by at most half a unit for each of n.
  predicate Near(exact: real, x: real, n: nat) {
    exact - HALF_UNIT * n as real <= x <= exact + HALF_UNIT * n as real
  }

  // A value half a unit off the mean has a total at most n half units off.
  lemma NearTotal(sum: real, mean: real, r: real, n: nat)
    requires n > 0 && mean * n as real == sum && mean - HALF_UNIT <= r <= mean + HALF_UNIT
    ensures Near(sum, Weighted(r, n), n)
  {
    ProductSign(r - mean + HALF_UNIT, n as real);
    ProductSign(mean + HALF_UNIT - r, n as real);
  }

  lemma MeanTimesCount(sum: real, n: nat)
    requires n > 0
    ensures sum / n as real * n as real == sum
  {
  }

  lemma RoundedMeanTimesCount(sum: real, n: nat)
    requires n == 0 ==> sum == 0.0
    ensures Near(sum, Weighted(RoundedMean(sum, n), n), n)
  {
    if n > 0 {
      RoundsToNearest(sum / n as real);
      MeanTimesCount(sum, n);
      NearTotal(sum, sum / n as real, RoundedMean(sum, n), n);
    } else {
      assert Weighted(RoundedMean(sum, 0), 0) == 0.0;
    }
  }

  lemma NearAdds(a: real, x: real, m: nat, b: real, y: real, n: nat)
    requires Near(a, x, m) && Near(b, y, n)
    ensures Near(a + b, x + y, m + n)
  {
  }

  // If every site's weighted value is near its part's sum, their total misses the pooled sum by
  // at most half a unit per counted client, however many sites there are and however sized.
  lemma {:induction false} WeightedSumIsNear<H, T>(
    sites: seq<H>, parts: seq<seq<T>>, x: H -> real, f: T -> real, w: T -> bool)
    requires |sites| == |parts|
    requires forall i :: 0 <= i < |parts| ==> Near(Sum(f, parts[i]), x(sites[i]), Count(w, parts[i]))
    ensures Near(Sum(f, Flatten(parts)), Sum(x, sites), Count(w, Flatten(parts)))
  {
    if parts != [] {
      var k := |parts| - 1;
      WeightedSumIsNear(sites[..k], parts[..k], x, f, w);
      CountConcat(w, Flatten(parts[..k]), parts[k]);
      SumConcat(f, Flatten(parts[..k]), parts[k]);
      NearAdds(Sum(f, Flatten(parts[..k])), Sum(x, sites[..k]), Count(w, Flatten(parts[..k])),
               Sum(f, parts[k]), x(sites[k]), Count(w, parts[k]));
    }
  }

  // Within one unit of the exact mean and of its one-shot rounding.
  ghost predicate Close(merged: real, sum: real, n: nat)
    requires n > 0
  {
    && sum / n as real - UNIT <= merged <= sum / n as real + UNIT
    && RoundedMean(sum, n) - UNIT <= merged <= RoundedMean(sum, n) + UNIT
  }

  lemma QuotientsAreNear(weighted: real, exact: real, d: real)
    requires d > 0.0 && exact - HALF_UNIT * d <= weighted <= exact + HALF_UNIT * d
    ensures exact / d - HALF_UNIT <= weighted / d <= exact / d + HALF_UNIT
  {
    var a, b := weighted / d, exact / d;
    assert a * d == weighted && b * d == exact;
    ProductSign(HALF_UNIT + b - a, d);
    ProductSign(a - b + HALF_UNIT, d);
  }

  lemma RoundingNearValues(a: real, b: real)
    requires b - HALF_UNIT <= a <= b + HALF_UNIT
    ensures b - UNIT <= Round4(a) <= b + UNIT
    ensures Round4(b) - UNIT <= Round4(a) <= Round4(b) + UNIT
  {
    RoundsToNearest(a);
    RoundsToNearest(b);
    MultiplesApart(Round4(a), Round4(b));
  }

  // Dividing by the pooled count and rounding once more: within one unit of the exact pooled
  // mean, and of the mean a single rollup of the pool would have rounded to.
  lemma MeanOfMeans(weighted: real, exact: real, n: nat)
    requires n > 0
    requires Near(exact, weighted, n)
    ensures Close(RoundedMean(weighted, n), exact, n)
  {
    QuotientsAreNear(weighted, exact, n as real);
    RoundingNearValues(weighted / n as real, exact / n as real);
  }

  // ---- sites against the pool --------------------------------------------------------------

  function PartOf(family: string): seq<Client> -> seq<Client> {
    (site: seq<Client>) => Members(site, family)
  }

  lemma {:induction false} MembersOfPool(sites: seq<seq<Client>>, family: string)
    ensures Members(Flatten(sites), family) == Flatten(Map(PartOf(family), sites))
  {
    if sites != [] {
      var init := sites[..|sites| - 1];
      MembersOfPool(init, family);
      FilterConcat(InFamily(family), Flatten(init), sites[|sites| - 1]);
      assert Map(PartOf(family), sites)[..|sites| - 1] == Map(PartOf(family), init);
    }
  }

  // Health tables for the sites, in the same order.
  ghost predicate HealthOfSites(health: seq<SiteHealth>, sites: seq<seq<Client>>) {
    |health| == |sites| && forall i :: 0 <= i < |sites| ==> IsHealthOf(health[i], sites[i])
  }

  lemma {:induction false} TotalsAligned<H, T>(sites: seq<H>, parts: seq<seq<T>>, n: H -> nat, w: T -> bool)
    requires |sites| == |parts|
    requires forall i :: 0 <= i < |parts| ==> n(sites[i]) == Count(w, parts[i])
    ensures Total(n, sites) == Count(w, Flatten(parts))
  {
    if parts != [] {
      var k := |parts| - 1;
      TotalsAligned(sites[..k], parts[..k], n, w);
      CountConcat(w, Flatten(parts[..k]), parts[k]);
    }
  }

  lemma NoneCountedNoSum(f: Client -> real, w: Client -> bool, s: seq<Client>)
    requires forall c :: c in s && !w(c) ==> f(c) == 0.0
    requires Count(w, s) == 0
    ensures Sum(f, s) == 0.0
  {
    forall c | c in s ensures f(c) == 0.0 {
      if w(c) {
        CountPositive(w, s, c);
      }
    }
    ZeroSum(f, s);
  }

  // A weighted mean over the sites' rounded means is the pooled mean, to within one unit.
  lemma MergedMeanIsClose<H, T>(
    sites: seq<H>, parts: seq<seq<T>>, x: H -> real, n: H -> nat, f: T -> real, w: T -> bool)
    requires |sites| == |parts|
    requires forall i :: 0 <= i < |parts| ==> n(sites[i]) == Count(w, parts[i])
    requires forall i :: 0 <= i < |parts| ==> Near(Sum(f, parts[i]), x(sites[i]), Count(w, parts[i]))
    requires Count(w, Flatten(parts)) > 0
    ensures Total(n, sites) == Count(w, Flatten(parts))
    ensures Close(RoundedMean(Sum(x, sites), Total(n, sites)), Sum(f, Flatten(parts)), Count(w, Flatten(parts)))
  {
    TotalsAligned(sites, parts, n, w);
    WeightedSumIsNear(sites, parts, x, f, w);
    MeanOfMeans(Sum(x, sites), Sum(f, Flatten(parts)), Count(w, Flatten(parts)));
  }

  lemma EveryoneCounts(part: seq<Client>)
    ensures Count(Anyone, part) == |part|
  {
    forall c | c in part ensures Anyone(c) {
    }
    CountAll(Anyone, part);
  }

  lemma SiteEntries(health: SiteHealth, site: seq<Client>, family: string)
    requires IsHealthOf(health, site)
    ensures ClientsAt(family)(health) == Count(Anyone, Members(site, family))
    ensures AlarmedAt(family)(health) == Count(Tripped, Members(site, family))
    ensures Near(Sum(ScoreOf, Members(site, family)), ScoreWeightAt(family)(health), Count(Anyone, Members(site, family)))
  {
    var part := Members(site, family);
    EveryoneCounts(part);
    if family in health {
      assert health[family].healthScore == RoundedMean(Sum(ScoreOf, part), |part|);
      RoundedMeanTimesCount(Sum(ScoreOf, part), |part|);
    } else {
      assert part == [];
    }
  }

  lemma SiteServiceEntries(health: SiteHealth, site: seq<Client>, family: string, svc: Service)
    requires IsHealthOf(health, site)
    ensures ActiveAt(family, svc)(health) == Count(ActiveIn(svc), Members(site, family))
    ensures UnhealthyAt(family, svc)(health) == Count(UnhealthyIn(svc), Members(site, family))
    ensures Near(Sum(RateOf(svc), Members(site, family)), RateWeightAt(family, svc)(health), Count(Anyone, Members(site, family)))
    ensures Near(Sum(HealthIn(svc), Members(site, family)), HealthWeightAt(family, svc)(health),
                 Count(ActiveIn(svc), Members(site, family)))
  {
    var part := Members(site, family);
    EveryoneCounts(part);
    if family in health {
      ServiceEntries(part, svc);
      RoundedMeanTimesCount(Sum(RateOf(svc), part), |part|);
      MeanHealthTimesCount(part, svc);
    } else {
      assert part == [];
    }
  }

  lemma MeanHealthTimesCount(part: seq<Client>, svc: Service)
    ensures var n := Count(ActiveIn(svc), part);
      Near(Sum(HealthIn(svc), part), HealthWeight(MeanHealth(Sum(HealthIn(svc), part), n), n), n)
  {
    if Count(ActiveIn(svc), part) == 0 {
      NoneCountedNoSum(HealthIn(svc), ActiveIn(svc), part);
    }
    RoundedMeanTimesCount(Sum(HealthIn(svc), part), Count(ActiveIn(svc), part));
  }

  lemma ServiceEntries(part: seq<Client>, svc: Service)
    ensures var r := RecordOf(TallyOf(part));
      && r.active.At(svc) == Count(ActiveIn(svc), part)
      && r.unhealthy.At(svc) == Count(UnhealthyIn(svc), part)
      && r.components.At(svc) == RoundedMean(Sum(RateOf(svc), part), |part|)
      && r.serviceHealth.At(svc) == MeanHealth(Sum(HealthIn(svc), part), Count(ActiveIn(svc), part))
  {
    assert TallyOf(part).services.At(svc) == ServiceTallyOf(part, svc);
  }

  lemma MergedServiceCounts(health: seq<SiteHealth>, sites: seq<seq<Client>>, family: string, svc: Service)
    requires HealthOfSites(health, sites)
    ensures Total(ActiveAt(family, svc), health) == Count(ActiveIn(svc), Members(Flatten(sites), family))
    ensures Total(UnhealthyAt(family, svc), health) == Count(UnhealthyIn(svc), Members(Flatten(sites), family))
  {
    var parts := Map(PartOf(family), sites);
    MembersOfPool(sites, family);
    forall i | 0 <= i < |sites|
      ensures ActiveAt(family, svc)(health[i]) == Count(ActiveIn(svc), parts[i])
      ensures UnhealthyAt(family, svc)(health[i]) == Count(UnhealthyIn(svc), parts[i])
    {
      SiteServiceEntries(health[i], sites[i], family, svc);
    }
    TotalsAligned(health, parts, ActiveAt(family, svc), ActiveIn(svc));
    TotalsAligned(health, parts, UnhealthyAt(family, svc), UnhealthyIn(svc));
  }

  lemma MergedClientCounts(health: seq<SiteHealth>, sites: seq<seq<Client>>, family: string)
    requires HealthOfSites(health, sites)
    ensures Total(ClientsAt(family), health) == |Members(Flatten(sites), family)|
    ensures Total(AlarmedAt(family), health) == Count(Tripped, Members(Flatten(sites), family))
  {
    var parts := Map(PartOf(family), sites);
    MembersOfPool(sites, family);
    forall i | 0 <= i < |sites|
      ensures ClientsAt(family)(health[i]) == Count(Anyone, parts[i])
      ensures AlarmedAt(family)(health[i]) == Count(Tripped, parts[i])
    {
      SiteEntries(health[i], sites[i], family);
    }
    TotalsAligned(health, parts, ClientsAt(family), Anyone);
    TotalsAligned(health, parts, AlarmedAt(family), Tripped);
    EveryoneCounts(Members(Flatten(sites), family));
  }

  // Counts merge exactly: the org's active, unhealthy and alarmed counts, hence its list of
  // alarming services, are those of one rollup over the pooled clients.
  lemma CountsMergeExactly(health: seq<SiteHealth>, sites: seq<seq<Client>>, family: string, totalMacs: nat)
    requires HealthOfSites(health, sites)
    ensures var org := MergeOf(health, family, totalMacs);
      var pool := RecordOf(TallyOf(Members(Flatten(sites), family)));
      && org.active == pool.active && org.unhealthy == pool.unhealthy
      && org.alarms == pool.alarms
      && org.macAlarmCount == pool.macAlarmCount
      && Total(ClientsAt(family), health) == pool.macCount
      && (totalMacs == pool.macCount ==> org.macAlarmRatio == pool.macAlarmRatio)
  {
    var pooled := Members(Flatten(sites), family);
    MergedClientCounts(health, sites, family);
    forall svc: Service
      ensures AccOf(health, family).services.At(svc).active == TallyOf(pooled).services.At(svc).active
      ensures AccOf(health, family).services.At(svc).unhealthy == TallyOf(pooled).services.At(svc).unhealthy
    {
      AccCounts(health, sites, family, svc);
    }
    SameCounts(AccOf(health, family), TallyOf(pooled), totalMacs);
  }

  lemma AccCounts(health: seq<SiteHealth>, sites: seq<seq<Client>>, family: string, svc: Service)
    requires HealthOfSites(health, sites)
    ensures var pool := TallyOf(Members(Flatten(sites), family)).services.At(svc);
      && AccOf(health, family).services.At(svc).active == pool.active
      && AccOf(health, family).services.At(svc).unhealthy == pool.unhealthy
  {
    MergedServiceCounts(health, sites, family, svc);
    assert AccOf(health, family).services.At(svc) == ServiceAccOf(health, family, svc);
    assert TallyOf(Members(Flatten(sites), family)).services.At(svc) ==
           ServiceTallyOf(Members(Flatten(sites), family), svc);
  }

  lemma SameCounts(acc: Acc, t: Tally, totalMacs: nat)
    requires forall svc: Service :: acc.services.At(svc).active == t.services.At(svc).active
    requires forall svc: Service :: acc.services.At(svc).unhealthy == t.services.At(svc).unhealthy
    ensures Conclude(acc, totalMacs).active == RecordOf(t).active
    ensures Conclude(acc, totalMacs).unhealthy == RecordOf(t).unhealthy
    ensures Conclude(acc, totalMacs).alarms == RecordOf(t).alarms
  {
    assert acc.services.At(Auth).active == t.services.At(Auth).active;
    assert acc.services.At(Roam).active == t.services.At(Roam).active;
    assert acc.services.At(Dhcp).active == t.services.At(Dhcp).active;
    assert acc.services.At(Dns).active == t.services.At(Dns).active;
    assert acc.services.At(Arp).active == t.services.At(Arp).active;
    assert Conclude(acc, totalMacs).active == RecordOf(t).active;
    assert Conclude(acc, totalMacs).unhealthy == RecordOf(t).unhealthy;
  }

  // The merged health score is within 0.0001 of the exact mean over the pooled clients, and of
  // the score one rollup over the pool would have stored.
  lemma MergedScoreIsClose(health: seq<SiteHealth>, sites: seq<seq<Client>>, family: string, totalMacs: nat)
    requires HealthOfSites(health, sites) && Members(Flatten(sites), family) != []
    ensures var pooled := Members(Flatten(sites), family);
      Close(MergeOf(health, family, totalMacs).healthScore, Sum(ScoreOf, pooled), |pooled|)
  {
    var parts, pooled := Map(PartOf(family), sites), Members(Flatten(sites), family);
    MembersOfPool(sites, family);
    forall i | 0 <= i < |sites|
      ensures ClientsAt(family)(health[i]) == Count(Anyone, parts[i])
      ensures Near(Sum(ScoreOf, parts[i]), ScoreWeightAt(family)(health[i]), Count(Anyone, parts[i]))
    {
      SiteEntries(health[i], sites[i], family);
    }
    EveryoneCounts(pooled);
    MergedMeanIsClose(health, parts, ScoreWeightAt(family), ClientsAt(family), ScoreOf, Anyone);
  }

  lemma ConcludedEntries(acc: Acc, totalMacs: nat, svc: Service)
    ensures acc.clients > 0 ==>
      && Conclude(acc, totalMacs).components.Some?
      && Conclude(acc, totalMacs).components.value.At(svc) == RoundedMean(acc.services.At(svc).rates, acc.clients)
    ensures Conclude(acc, totalMacs).serviceHealth.At(svc)
      == MeanHealth(acc.services.At(svc).healths, acc.services.At(svc).active)
  {
  }

  // What the merge stores for a service, from the sums over the sites.
  lemma MergedEntries(health: seq<SiteHealth>, family: string, totalMacs: nat, svc: Service)
    ensures var org, clients := MergeOf(health, family, totalMacs), Total(ClientsAt(family), health);
      && (clients > 0 ==>
            && org.components.Some?
            && org.components.value.At(svc) == RoundedMean(Sum(RateWeightAt(family, svc), health), clients))
      && org.serviceHealth.At(svc)
         == MeanHealth(Sum(HealthWeightAt(family, svc), health), Total(ActiveAt(family, svc), health))
  {
    var acc := AccOf(health, family);
    assert acc.services.At(svc) == ServiceAccOf(health, family, svc);
    ConcludedEntries(acc, totalMacs, svc);
  }

  lemma RateMeanIsClose(health: seq<SiteHealth>, sites: seq<seq<Client>>, family: string, svc: Service)
    requires HealthOfSites(health, sites) && Members(Flatten(sites), family) != []
    ensures var pooled := Members(Flatten(sites), family);
      && Total(ClientsAt(family), health) == |pooled|
      && Close(RoundedMean(Sum(RateWeightAt(family, svc), health), |pooled|), Sum(RateOf(svc), pooled), |pooled|)
  {
    var parts, pooled := Map(PartOf(family), sites), Members(Flatten(sites), family);
    MembersOfPool(sites, family);
    forall i | 0 <= i < |sites|
      ensures ClientsAt(family)(health[i]) == Count(Anyone, parts[i])
      ensures Near(Sum(RateOf(svc), parts[i]), RateWeightAt(family, svc)(health[i]), Count(Anyone, parts[i]))
    {
      SiteEntries(health[i], sites[i], family);
      SiteServiceEntries(health[i], sites[i], family, svc);
    }
    EveryoneCounts(pooled);
    MergedMeanIsClose(health, parts, RateWeightAt(family, svc), ClientsAt(family), RateOf(svc), Anyone);
  }

  lemma HealthMeanIsClose(health: seq<SiteHealth>, sites: seq<seq<Client>>, family: string, svc: Service)
    requires HealthOfSites(health, sites)
    ensures var pooled := Members(Flatten(sites), family);
      var n := Count(ActiveIn(svc), pooled);
      && Total(ActiveAt(family, svc), health) == n
      && (n > 0 ==> Close(RoundedMean(Sum(HealthWeightAt(family, svc), health), n), Sum(HealthIn(svc), pooled), n))
  {
    var parts := Map(PartOf(family), sites);
    MembersOfPool(sites, family);
    forall i | 0 <= i < |sites|
      ensures ActiveAt(family, svc)(health[i]) == Count(ActiveIn(svc), parts[i])
      ensures Near(Sum(HealthIn(svc), parts[i]), HealthWeightAt(family, svc)(health[i]), Count(ActiveIn(svc), parts[i]))
    {
      SiteServiceEntries(health[i], sites[i], family, svc);
    }
    TotalsAligned(health, parts, ActiveAt(family, svc), ActiveIn(svc));
    if Count(ActiveIn(svc), Flatten(parts)) > 0 {
      MergedMeanIsClose(health, parts, HealthWeightAt(family, svc), ActiveAt(family, svc), HealthIn(svc), ActiveIn(svc));
    }
  }

  // So are the failure rates and, over the active clients, the service health values; a service
  // has no value at org level just when no client of the pool is active in it.
  lemma MergedServicesAreClose(health: seq<SiteHealth>, sites: seq<seq<Client>>, family: string, totalMacs: nat, svc: Service)
    requires HealthOfSites(health, sites) && Members(Flatten(sites), family) != []
    ensures var pooled := Members(Flatten(sites), family);
      var org := MergeOf(health, family, totalMacs);
      && org.components.Some?
      && Close(org.components.value.At(svc), Sum(RateOf(svc), pooled), |pooled|)
      && (org.serviceHealth.At(svc).None? <==> Count(ActiveIn(svc), pooled) == 0)
      && (org.serviceHealth.At(svc).Some? ==>
            Close(org.serviceHealth.At(svc).value, Sum(HealthIn(svc), pooled), Count(ActiveIn(svc), pooled)))
  {
    MergedEntries(health, family, totalMacs, svc);
    RateMeanIsClose(health, sites, family, svc);
    HealthMeanIsClose(health, sites, family, svc);
  }

  // ---- the unit is attained ------------------------------------------------------------------

  // A client whose authentications succeed with frequency s.
  function Skewed(family: string, s: real): Client {
    Client(family, 50000, map[AuthSuccess := s, AuthFailure := 1.0 - s])
  }

  lemma SumOverServices(f: Service -> real)
    ensures Sum(f, SERVICES) == f(Auth) + f(Roam) + f(Dhcp) + f(Dns) + f(Arp)
  {
    assert SERVICES[..4] == [Auth, Roam, Dhcp, Dns];
    assert SERVICES[..4][..3] == [Auth, Roam, Dhcp];
    assert [Auth, Roam, Dhcp][..2] == [Auth, Roam];
    assert [Auth, Roam][..1] == [Auth];
    assert [Auth][..0] == [];
  }

  lemma SkewedScore(family: string, s: real)
    requires 0.0 <= s <= 1.0
    ensures ScoreOf(Skewed(family, s)) == s
  {
    var v := Skewed(family, s).vector;
    SumOverServices(SuccessIn(v));
    SumOverServices(FailureIn(v));
  }

  lemma SoleMember(c: Client, family: string)
    ensures Members([c], family) == if c.family == family && !Hidden(family) then [c] else []
  {
    FilterSingleton(InFamily(family), c);
  }

  // The table of a site with one client.
  lemma SoleTable(c: Client) returns (table: SiteHealth)
    requires !Hidden(c.family)
    ensures IsHealthOf(table, [c])
  {
    SoleMember(c, c.family);
    var record := RecordOf(TallyOf(Members([c], c.family)));
    table := map[c.family := record];
    forall f ensures f in table <==> Members([c], f) != [] {
      SoleMember(c, f);
    }
  }

  lemma RoundingOfSixHundredThousandths()
    ensures RoundedMean(0.00006, 1) == UNIT && RoundedMean(0.0, 1) == 0.0
    ensures RoundedMean(UNIT + UNIT, 3) == UNIT && RoundedMean(0.00012, 3) == 0.0
  {
    assert (0.6).Floor == 0 && (0.4).Floor == 0;
    assert 0.0002 / 3.0 * 10000.0 == 2.0 / 3.0 && (2.0 / 3.0).Floor == 0;
    assert 0.00012 / 3.0 * 10000.0 == 0.4;
  }

  lemma RecordEntries(members: seq<Client>)
    ensures RecordOf(TallyOf(members)).macCount == |members|
    ensures RecordOf(TallyOf(members)).healthScore == RoundedMean(Sum(ScoreOf, members), |members|)
  {
  }

  // What one table entry contributes to the merge.
  lemma EntryShares(table: SiteHealth, family: string, record: HealthRecord)
    requires family in table && table[family] == record && record.macCount == 1
    ensures ClientsAt(family)(table) == 1
    ensures ScoreWeightAt(family)(table) == record.healthScore
  {
  }

  lemma SoleRecord(c: Client)
    ensures RecordOf(TallyOf([c])).macCount == 1
    ensures RecordOf(TallyOf([c])).healthScore == RoundedMean(ScoreOf(c), 1)
  {
    RecordEntries([c]);
    SumOfOne(ScoreOf, c);
  }

  lemma SoleEntries(family: string, c: Client, table: SiteHealth)
    requires !Hidden(family) && c.family == family && IsHealthOf(table, [c])
    ensures ClientsAt(family)(table) == 1
    ensures ScoreWeightAt(family)(table) == RoundedMean(ScoreOf(c), 1)
  {
    SoleMember(c, family);
    SoleRecord(c);
    EntryShares(table, family, RecordOf(TallyOf([c])));
  }

  lemma SumOfOne<T>(f: T -> real, x: T)
    ensures Sum(f, [x]) == f(x)
  {
    assert [x][..0] == [];
  }

  lemma SumOfThree<T>(f: T -> real, x: T, y: T, z: T)
    ensures Sum(f, [x, y, z]) == f(x) + f(y) + f(z)
  {
    SumOfOne(f, x);
    assert [x, y, z][..2] == [x, y] && [x, y][..1] == [x];
    assert Sum(f, [x, y]) == f(x) + f(y);
  }

  lemma TotalOfThree<T>(f: T -> nat, x: T, y: T, z: T)
    ensures Total(f, [x, y, z]) == f(x) + f(y) + f(z)
  {
    assert [x, y, z][..2] == [x, y] && [x, y][..1] == [x] && [x][..0] == [];
    assert Total(f, [x]) == f(x);
    assert Total(f, [x, y]) == f(x) + f(y);
  }

  lemma MergeOfThree(family: string, a: Client, b: Client, ta: SiteHealth, tb: SiteHealth)
    requires !Hidden(family) && a.family == family && b.family == family
    requires IsHealthOf(ta, [a]) && IsHealthOf(tb, [b])
    ensures Total(ClientsAt(family), [ta, ta, tb]) == 3
    ensures Sum(ScoreWeightAt(family), [ta, ta, tb])
      == RoundedMean(ScoreOf(a), 1) + RoundedMean(ScoreOf(a), 1) + RoundedMean(ScoreOf(b), 1)
  {
    SoleEntries(family, a, ta);
    SoleEntries(family, b, tb);
    TotalOfThree(ClientsAt(family), ta, ta, tb);
    SumOfThree(ScoreWeightAt(family), ta, ta, tb);
  }

  lemma TablesOfThree(a: seq<Client>, b: seq<Client>, ta: SiteHealth, tb: SiteHealth)
    requires IsHealthOf(ta, a) && IsHealthOf(tb, b)
    ensures HealthOfSites([ta, ta, tb], [a, a, b])
  {
  }

  lemma MergedScore(tables: seq<SiteHealth>, family: string, totalMacs: nat)
    ensures Total(ClientsAt(family), tables) > 0 ==>
      MergeOf(tables, family, totalMacs).healthScore
        == RoundedMean(Sum(ScoreWeightAt(family), tables), Total(ClientsAt(family), tables))
  {
  }

  lemma FlattenOfThree<T>(x: T, y: T, z: T)
    ensures Flatten([[x], [y], [z]]) == [x, y, z]
  {
    assert [[x], [y], [z]][..2] == [[x], [y]] && [[x], [y]][..1] == [[x]] && [[x]][..0] == [];
    assert Flatten([[x]]) == [x];
    assert Flatten([[x], [y]]) == [x, y];
  }

  lemma PoolOfThree(a: Client, b: Client)
    requires !Hidden(a.family) && b.family == a.family
    ensures Members(Flatten([[a], [a], [b]]), a.family) == [a, a, b]
    ensures Sum(ScoreOf, [a, a, b]) == ScoreOf(a) + ScoreOf(a) + ScoreOf(b)
  {
    FlattenOfThree(a, a, b);
    FilterAll(InFamily(a.family), [a, a, b]);
    SumOfThree(ScoreOf, a, a, b);
  }

  lemma MergedUnit(tables: seq<SiteHealth>, family: string)
    requires Total(ClientsAt(family), tables) == 3 && Sum(ScoreWeightAt(family), tables) == UNIT + UNIT
    ensures MergeOf(tables, family, 3).healthScore == UNIT
  {
    MergedScore(tables, family, 3);
    RoundingOfSixHundredThousandths();
  }

  lemma PooledZero(pooled: seq<Client>)
    requires |pooled| == 3 && Sum(ScoreOf, pooled) == 0.00012
    ensures RecordOf(TallyOf(pooled)).healthScore == 0.0
  {
    RecordEntries(pooled);
    RoundingOfSixHundredThousandths();
  }

  lemma TwoRoundedUp(family: string, a: Client, b: Client, ta: SiteHealth, tb: SiteHealth)
    requires !Hidden(family) && a.family == family && b.family == family
    requires IsHealthOf(ta, [a]) && IsHealthOf(tb, [b])
    requires ScoreOf(a) == 0.00006 && ScoreOf(b) == 0.0
    ensures Total(ClientsAt(family), [ta, ta, tb]) == 3 && Sum(ScoreWeightAt(family), [ta, ta, tb]) == UNIT + UNIT
  {
    MergeOfThree(family, a, b, ta, tb);
    RoundingOfSixHundredThousandths();
  }

  // Three sites with one client of the family each, two of them scoring 0.00006 and one 0.
  lemma ThreeSites(a: Client, b: Client) returns (health: seq<SiteHealth>)
    requires !Hidden(a.family) && b.family == a.family
    requires ScoreOf(a) == 0.00006 && ScoreOf(b) == 0.0
    ensures HealthOfSites(health, [[a], [a], [b]])
    ensures Total(ClientsAt(a.family), health) == 3 && Sum(ScoreWeightAt(a.family), health) == UNIT + UNIT
  {
    var ta := SoleTable(a);
    var tb := SoleTable(b);
    health := [ta, ta, tb];
    TablesOfThree([a], [b], ta, tb);
    TwoRoundedUp(a.family, a, b, ta, tb);
  }

  lemma ThreePooled(a: Client, b: Client)
    requires !Hidden(a.family) && b.family == a.family
    requires ScoreOf(a) == 0.00006 && ScoreOf(b) == 0.0
    ensures Members(Flatten([[a], [a], [b]]), a.family) == [a, a, b]
    ensures RecordOf(TallyOf([a, a, b])).healthScore == 0.0
  {
    PoolOfThree(a, b);
    PooledZero([a, a, b]);
  }

  // The double rounding is real: for three sites with one client of the family each, two of
  // them healthy three times in 50000, the merged score is a whole unit above the one a rollup
  // of the pooled clients stores.
  lemma MergeCanBeOneUnitOff(family: string) returns (health: seq<SiteHealth>, sites: seq<seq<Client>>)
    requires !Hidden(family)
    ensures HealthOfSites(health, sites) && Members(Flatten(sites), family) != []
    ensures var pooled := Members(Flatten(sites), family);
      MergeOf(health, family, |pooled|).healthScore == RecordOf(TallyOf(pooled)).healthScore + UNIT
  {
    SkewedScore(family, 0.00006);
    SkewedScore(family, 0.0);
    sites := [[Skewed(family, 0.00006)], [Skewed(family, 0.00006)], [Skewed(family, 0.0)]];
    health := ThreeSites(Skewed(family, 0.00006), Skewed(family, 0.0));
    MergedUnit(health, family);
    ThreePooled(Skewed(family, 0.00006), Skewed(family, 0.0));
  }
}

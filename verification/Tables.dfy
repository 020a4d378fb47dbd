// The tables that repeat one another across the code, and exactly where they differ: boundary
// types, raw and bucketed failures, the failure categories of the vectors, the sort expression and
// the stuck-loop detector, and the lease events of the burst scan. The buckets are the common
// reference.
module Tables {
  import opened Vocabulary
  import opened Episodes
  import opened StuckLoop
  import opened Vectors
  import Bursts
  import Health
  import OrderBy

  // A boundary is a listed success of authentication or roaming.
  lemma BoundariesAreSuccesses(t: EventType)
    ensures IsBoundary(t) <==> t in Bucket(AuthSuccess) || t in Bucket(RoamSuccess)
  {
    BucketsMatchReverseMap(t, AuthSuccess);
    BucketsMatchReverseMap(t, RoamSuccess);
  }

  ghost predicate InFailureBucket(t: EventType) {
    || t in Bucket(DhcpFailure) || t in Bucket(DnsFailure) || t in Bucket(AuthFailure) || t in Bucket(RoamFailure)
    || t in Bucket(ArpFailure) || t in Bucket(DisassocAp) || t in Bucket(DisassocClient)
  }

  ghost predicate RawFailureByBucket(t: EventType) {
    || t in {Dhcpv6Nak, Dhcpv6Failure, Dhcpv6Stuck}
    || (InFailureBucket(t) && t !in {SaeAuthFailure, SaQueryTimeout, ClientReassociationFailure})
  }

  lemma FailuresByBucket(t: EventType)
    ensures FailureCategory(CategoryOf(t)) <==> InFailureBucket(t)
  {
    BucketsMatchReverseMap(t, DhcpFailure);
    BucketsMatchReverseMap(t, DnsFailure);
    BucketsMatchReverseMap(t, AuthFailure);
    BucketsMatchReverseMap(t, RoamFailure);
    BucketsMatchReverseMap(t, ArpFailure);
    BucketsMatchReverseMap(t, DisassocAp);
    BucketsMatchReverseMap(t, DisassocClient);
  }

  // Three listed failures are not raw failures of the stuck-loop detector, and the three DHCPv6
  // types ingest drops are raw failures without being listed; otherwise the two notions agree.
  lemma RawFailuresByBucket(t: EventType)
    ensures RawFailure(t) <==> RawFailureByBucket(t)
  {
    FailuresByBucket(t);
    RawFailuresByCategory(t);
  }

  lemma RawFailuresByCategory(t: EventType)
    ensures RawFailure(t) <==>
      || t in {Dhcpv6Nak, Dhcpv6Failure, Dhcpv6Stuck}
      || (FailureCategory(CategoryOf(t)) && t !in {SaeAuthFailure, SaQueryTimeout, ClientReassociationFailure})
  {
  }

  // A pair fails when either of its ends does, for raw types and for categories.
  lemma PairsFailAtEitherEnd(t: Transition)
    ensures Failing(t) <==> InFailureBucket(t.0) || InFailureBucket(t.1)
    ensures RawFailing(t) <==> RawFailureByBucket(t.0) || RawFailureByBucket(t.1)
  {
    FailuresByBucket(t.0);
    FailuresByBucket(t.1);
    RawFailuresByBucket(t.0);
    RawFailuresByBucket(t.1);
  }

  // Each end of a pair has its own category.
  lemma PairCategories(t: Transition, c: Category, d: Category)
    requires t.0 in Bucket(c) && t.1 in Bucket(d)
    ensures CategoriesOf(t) == (c, d)
  {
    CategoryByBucket(t.0, c);
    CategoryByBucket(t.1, d);
  }

  // A type has the category whose bucket lists it, and OTHER if none does.
  lemma CategoryByBucket(t: EventType, c: Category)
    ensures CategoryOf(t) == c <==> t in Bucket(c) || (c == Other && forall d: Category :: t !in Bucket(d))
  {
    forall d: Category ensures t in Bucket(d) <==> Listed(t) == Some(d) {
      BucketsMatchReverseMap(t, d);
    }
  }

  ghost predicate IsFailureOfSomeService(c: Category) {
    exists svc: Health.Service, ok: Category :: Health.JudgedBy(svc, ok, c)
  }

  ghost predicate IsSuccessOfSomeService(c: Category) {
    exists svc: Health.Service, bad: Category :: Health.JudgedBy(svc, c, bad)
  }

  lemma ServicePairs()
    ensures Health.JudgedBy(Health.Auth, AuthSuccess, AuthFailure) && Health.JudgedBy(Health.Roam, RoamSuccess, RoamFailure)
    ensures Health.JudgedBy(Health.Dhcp, DhcpSuccess, DhcpFailure) && Health.JudgedBy(Health.Dns, DnsSuccess, DnsFailure)
    ensures Health.JudgedBy(Health.Arp, ArpSuccess, ArpFailure)
  {
  }

  lemma FailuresOfServices(c: Category)
    ensures IsFailureOfSomeService(c) <==> c in {DhcpFailure, DnsFailure, AuthFailure, RoamFailure, ArpFailure}
  {
    ServicePairs();
  }

  lemma SuccessesOfServices(c: Category)
    ensures IsSuccessOfSomeService(c) <==> c in {DhcpSuccess, DnsSuccess, AuthSuccess, RoamSuccess, ArpSuccess}
  {
    ServicePairs();
  }

  lemma FailureListsAgree(c: Category)
    ensures c in FAILURE_CATEGORIES <==> c in {DhcpFailure, DnsFailure, AuthFailure, RoamFailure, ArpFailure}
    ensures c in OrderBy.FAILURES <==> c in {DhcpFailure, DnsFailure, AuthFailure, RoamFailure, ArpFailure}
  {
    var f, g := FAILURE_CATEGORIES, OrderBy.FAILURES;
    assert f[0] == DhcpFailure && f[1] == DnsFailure && f[2] == AuthFailure && f[3] == RoamFailure && f[4] == ArpFailure;
    assert g[0] == AuthFailure && g[1] == RoamFailure && g[2] == DhcpFailure && g[3] == DnsFailure && g[4] == ArpFailure;
  }

  // The failure categories of the vectors, of the sort expression and of the stuck-loop detector
  // are those of the five services; the detector adds the two kinds of disassociation.
  lemma FailureTablesAgree(c: Category)
    ensures c in FAILURE_CATEGORIES <==> IsFailureOfSomeService(c)
    ensures c in OrderBy.FAILURES <==> IsFailureOfSomeService(c)
    ensures FailureCategory(c) <==> IsFailureOfSomeService(c) || c in {DisassocAp, DisassocClient}
  {
    FailuresOfServices(c);
    FailureListsAgree(c);
  }

  // The sort expression's outcomes are both categories of the five services.
  lemma OutcomesAreServiceCategories(c: Category)
    ensures c in OrderBy.OUTCOMES <==> IsFailureOfSomeService(c) || IsSuccessOfSomeService(c)
  {
    FailuresOfServices(c);
    SuccessesOfServices(c);
    var f := OrderBy.OUTCOMES;
    assert f[0] == AuthSuccess && f[1] == AuthFailure && f[2] == RoamSuccess && f[3] == RoamFailure && f[4] == DhcpSuccess;
    assert f[5] == DhcpFailure && f[6] == DnsSuccess && f[7] == DnsFailure && f[8] == ArpSuccess && f[9] == ArpFailure;
  }

  // A burst counts exactly the listed DHCP successes.
  lemma BurstsCountLeases(e: Event)
    ensures Bursts.IsDhcpSuccess(e) <==> e.etype in Bucket(DhcpSuccess)
  {
  }
}

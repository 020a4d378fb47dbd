// Three independently written per-client service alarms: from the rounded vector ratios
// (health scorer), from raw category counts (summary builder), and as a SQL predicate.
module ServiceAlarms {
  import opened Vocabulary
  import opened Sequences
  import opened Ratios
  import opened Rounding
  import opened Health
  import opened Vectors

  predicate CountAlarm(s: nat, f: nat) {
    s + f > 0 && s as real / (s + f) as real < 0.5
  }

  predicate SqlAlarm(s: nat, f: nat) {
    s + f > 0 && f > 0 && s as real / (s + f) as real < 0.5
  }

  function CountIn(cats: map<Category, nat>, c: Category): nat {
    if c in cats then cats[c] else 0
  }

  predicate CatsAlarm(cats: map<Category, nat>, svc: Service) {
    CountAlarm(CountIn(cats, SuccessOf(svc)), CountIn(cats, FailureOf(svc)))
  }

  // The count form and the SQL form are the same predicate, for any counts: more failures than
  // successes. The SQL's separate failure test is redundant.
  lemma CountAndSqlCoincide(s: nat, f: nat)
    ensures CountAlarm(s, f) <==> SqlAlarm(s, f)
    ensures CountAlarm(s, f) <==> s < f
  {
    if s + f > 0 {
      QuotientBelow(s as real, (s + f) as real, 0.5);
    }
  }

  // More events counted under `bad` than under `ok`.
  ghost predicate Outnumbers(cats: map<Category, nat>, bad: Category, ok: Category) {
    bad in cats && cats[bad] > if ok in cats then cats[ok] else 0
  }

  lemma CatsAlarmByCounts(cats: map<Category, nat>, svc: Service, ok: Category, bad: Category)
    requires JudgedBy(svc, ok, bad)
    ensures CatsAlarm(cats, svc) <==> Outnumbers(cats, bad, ok)
  {
    CountAndSqlCoincide(CountIn(cats, ok), CountIn(cats, bad));
  }

  lemma SomeAlarmByCounts(cats: map<Category, nat>)
    ensures (exists svc :: svc in SERVICES && CatsAlarm(cats, svc)) <==>
      || Outnumbers(cats, AuthFailure, AuthSuccess) || Outnumbers(cats, RoamFailure, RoamSuccess)
      || Outnumbers(cats, DhcpFailure, DhcpSuccess) || Outnumbers(cats, DnsFailure, DnsSuccess)
      || Outnumbers(cats, ArpFailure, ArpSuccess)
  {
    forall svc: Service ensures svc in SERVICES {
      EveryServiceIsListed(svc);
    }
    CatsAlarmByCounts(cats, Auth, AuthSuccess, AuthFailure);
    CatsAlarmByCounts(cats, Roam, RoamSuccess, RoamFailure);
    CatsAlarmByCounts(cats, Dhcp, DhcpSuccess, DhcpFailure);
    CatsAlarmByCounts(cats, Dns, DnsSuccess, DnsFailure);
    CatsAlarmByCounts(cats, Arp, ArpSuccess, ArpFailure);
  }

  method MacServiceAlarmFromCats(cats: map<Category, nat>) returns (alarm: bool)
    ensures alarm <==> exists svc :: svc in SERVICES && CatsAlarm(cats, svc)
    ensures alarm <==>
      || Outnumbers(cats, AuthFailure, AuthSuccess) || Outnumbers(cats, RoamFailure, RoamSuccess)
      || Outnumbers(cats, DhcpFailure, DhcpSuccess) || Outnumbers(cats, DnsFailure, DnsSuccess)
      || Outnumbers(cats, ArpFailure, ArpSuccess)
  {
    SomeAlarmByCounts(cats);
    var order := SERVICES;
    for i := 0 to |order|
      invariant forall j :: 0 <= j < i ==> !CatsAlarm(cats, order[j])
    {
      var s, f := CountIn(cats, SuccessOf(order[i])), CountIn(cats, FailureOf(order[i]));
      if s + f != 0 {
        if s as real / (s + f) as real < 0.5 {
          assert CatsAlarm(cats, order[i]);
          return true;
        }
      }
    }
    alarm := false;
  }

  // Dividing both counts by the same total does not change their ratio.
  lemma RatioOfShares(s: nat, f: nat, total: nat)
    requires total > 0
    ensures var a, b := Share(s, total), Share(f, total);
      && (a + b > 0.0 <==> s + f > 0)
      && (a + b == 0.0 <==> s + f == 0)
      && (s + f > 0 ==> a / (a + b) == s as real / (s + f) as real)
  {
    var a, b, t := Share(s, total), Share(f, total), total as real;
    assert a * t == s as real && b * t == f as real;
    assert (a + b) * t == (s + f) as real;
    ProductSign(a + b, t);
    if s + f > 0 {
      SameQuotient(a, a + b, t);
    }
  }

  // The vector form reads s/T and f/T, takes their ratio and rounds it to four places.
  lemma VectorAlarmByCounts(v: Vector, svc: Service, s: nat, f: nat, total: nat)
    requires total > 0
    requires Dimension(v, SuccessOf(svc)) == Share(s, total) && Dimension(v, FailureOf(svc)) == Share(f, total)
    ensures Unhealthy(v, svc) <==> s + f > 0 && 20000 * s < 9999 * (s + f)
  {
    RatioOfShares(s, f, total);
    if s + f > 0 {
      RoundedBelowHalf(s as real / (s + f) as real);
      QuotientBelow(s as real, (s + f) as real, 0.49995);
    }
  }

  lemma SameQuotient(x: real, y: real, t: real)
    requires y > 0.0 && t > 0.0
    ensures y * t > 0.0 && x / y == (x * t) / (y * t)
  {
    ProductSign(y, t);
    assert x / y * y == x;
    assert (x / y) * (y * t) == x * t;
  }

  // They agree exactly off the sliver in which the true ratio is below a half but rounds to it.
  lemma RoundedAlarmAgreesIff(v: Vector, svc: Service, s: nat, f: nat, total: nat)
    requires total > 0
    requires Dimension(v, SuccessOf(svc)) == Share(s, total) && Dimension(v, FailureOf(svc)) == Share(f, total)
    ensures (Unhealthy(v, svc) <==> CountAlarm(s, f)) <==> !(s < f && 20000 * s >= 9999 * (s + f))
    ensures s + f <= 10000 ==> (Unhealthy(v, svc) <==> CountAlarm(s, f))
  {
    VectorAlarmByCounts(v, svc, s, f, total);
    CountAndSqlCoincide(s, f);
  }

  // The bound of 10000 outcome events is tight: 5000 successes out of 10001.
  lemma RoundedAlarmCanDisagree(v: Vector, svc: Service)
    requires Dimension(v, SuccessOf(svc)) == Share(5000, 10001) && Dimension(v, FailureOf(svc)) == Share(5001, 10001)
    ensures !Unhealthy(v, svc) && CountAlarm(5000, 5001) && SqlAlarm(5000, 5001)
  {
    VectorAlarmByCounts(v, svc, 5000, 5001, 10001);
    CountAndSqlCoincide(5000, 5001);
  }

  // ---- the same client through both pipelines -----------------------------------------------

  function OutcomeCount(events: seq<Event>, svc: Service): nat {
    Count(ListedUnder(SuccessOf(svc)), events) + Count(ListedUnder(FailureOf(svc)), events)
  }

  ghost predicate CountsCategories(cats: map<Category, nat>, events: seq<Event>) {
    forall c: Category :: c != Other ==> CountIn(cats, c) == Count(ListedUnder(c), events)
  }

  lemma ServiceCategoriesAreMl(svc: Service)
    ensures SuccessOf(svc) in ML_CATEGORIES && FailureOf(svc) in ML_CATEGORIES
    ensures SuccessOf(svc) != Other && FailureOf(svc) != Other
  {
  }

  // For one client's events, the list made from the vector and the counters grouped from the
  // events raise the same alarm for a service, unless its failures lead by so little that the
  // rounded ratio reads one half; that takes more than 10000 outcome events.
  lemma BothPipelinesAgree(events: seq<Event>, cats: map<Category, nat>, svc: Service)
    requires CountsCategories(cats, events)
    ensures var s, n := Count(ListedUnder(SuccessOf(svc)), events), OutcomeCount(events, svc);
      (svc in MacServiceAlarms(Frequencies(events)) <==> CatsAlarm(cats, svc)) <==> !(2 * s < n && 20000 * s >= 9999 * n)
    ensures OutcomeCount(events, svc) <= 10000 ==>
      (svc in MacServiceAlarms(Frequencies(events)) <==> CatsAlarm(cats, svc))
  {
    var s, f := Count(ListedUnder(SuccessOf(svc)), events), Count(ListedUnder(FailureOf(svc)), events);
    ServiceCategoriesAreMl(svc);
    ListedAlarm(Frequencies(events), svc);
    assert CountIn(cats, SuccessOf(svc)) == s && CountIn(cats, FailureOf(svc)) == f;
    if MlTotal(events) > 0 {
      RoundedAlarmAgreesIff(Frequencies(events), svc, s, f, MlTotal(events));
    } else {
      NoMlNoOutcome(events, SuccessOf(svc));
      NoMlNoOutcome(events, FailureOf(svc));
    }
  }

  lemma NoMlNoOutcome(events: seq<Event>, c: Category)
    requires c in ML_CATEGORIES && MlTotal(events) == 0
    ensures Count(ListedUnder(c), events) == 0
  {
    FailuresAreMl();
    CountMonotone(ListedUnder(c), IsMl, events);
  }
}

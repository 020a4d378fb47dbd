// Per-client health, its rollup to device families at one site, and the org-wide merge of the
// sites' rounded rollups. Vectors hold frequencies; a service counts for a client only when it
// has an outcome there.
module Health {
  import opened Vocabulary
  import opened Sequences
  import opened Rounding

  datatype Service = Auth | Roam | Dhcp | Dns | Arp

  const SERVICES: seq<Service> := [Auth, Roam, Dhcp, Dns, Arp]

  function SuccessOf(svc: Service): Category {
    match svc
    case Auth => AuthSuccess
    case Roam => RoamSuccess
    case Dhcp => DhcpSuccess
    case Dns => DnsSuccess
    case Arp => ArpSuccess
  }

  function FailureOf(svc: Service): Category {
    match svc
    case Auth => AuthFailure
    case Roam => RoamFailure
    case Dhcp => DhcpFailure
    case Dns => DnsFailure
    case Arp => ArpFailure
  }

  // A dict with exactly the five services as keys.
  datatype PerService<T> = PerService(auth: T, roam: T, dhcp: T, dns: T, arp: T) {
    function At(svc: Service): T {
      match svc
      case Auth => auth
      case Roam => roam
      case Dhcp => dhcp
      case Dns => dns
      case Arp => arp
    }
  }

  function Each<T>(f: Service -> T): PerService<T> {
    PerService(f(Auth), f(Roam), f(Dhcp), f(Dns), f(Arp))
  }

  type Vector = map<Category, real>

  function Dimension(v: Vector, c: Category): real {
    if c in v then v[c] else 0.0
  }

  // One client's feature record, as far as health reads it.
  datatype Client = Client(family: string, events: nat, vector: Vector)

  predicate Hidden(family: string) {
    family == "Unknown" || family == "IoT (Unknown)"
  }

  function FailureRate(success: real, failure: real): real {
    if success + failure > 0.0 then failure / (success + failure) else 0.0
  }

  function SuccessIn(v: Vector): Service -> real {
    (svc: Service) => Dimension(v, SuccessOf(svc))
  }

  function FailureIn(v: Vector): Service -> real {
    (svc: Service) => Dimension(v, FailureOf(svc))
  }

  function ScoreOf(c: Client): real {
    var success, failure := Sum(SuccessIn(c.vector), SERVICES), Sum(FailureIn(c.vector), SERVICES);
    if success + failure > 0.0 then
      var h := 1.0 - failure / (success + failure);
      if h < 0.0 then 0.0 else h
    else 1.0
  }

  function RateOf(svc: Service): Client -> real {
    (c: Client) => FailureRate(Dimension(c.vector, SuccessOf(svc)), Dimension(c.vector, FailureOf(svc)))
  }

  // None: no event in the service.
  function ServiceHealth(v: Vector, svc: Service): Option<real> {
    var s, f := Dimension(v, SuccessOf(svc)), Dimension(v, FailureOf(svc));
    if s + f > 0.0 then Some(Round4(s / (s + f))) else None
  }

  predicate Unhealthy(v: Vector, svc: Service) {
    ServiceHealth(v, svc).Some? && ServiceHealth(v, svc).value < 0.5
  }

  function MacServiceAlarms(v: Vector): seq<Service> {
    Filter((svc: Service) => Unhealthy(v, svc), SERVICES)
  }

  function ActiveIn(svc: Service): Client -> bool {
    (c: Client) => ServiceHealth(c.vector, svc).Some?
  }

  function UnhealthyIn(svc: Service): Client -> bool {
    (c: Client) => Unhealthy(c.vector, svc)
  }

  // An inactive client adds nothing to a service's health.
  function HealthIn(svc: Service): Client -> real {
    (c: Client) => if ServiceHealth(c.vector, svc).Some? then ServiceHealth(c.vector, svc).value else 0.0
  }

  predicate Tripped(c: Client) {
    exists svc :: svc in SERVICES && Unhealthy(c.vector, svc)
  }

  predicate Anyone(c: Client) { true }

  function EventsOf(c: Client): nat { c.events }

  // ---- one family at one site -----------------------------------------------------------

  datatype ServiceTally = ServiceTally(rates: real, active: nat, unhealthy: nat, healths: real)

  datatype Tally = Tally(clients: nat, scores: real, events: nat, tripped: nat, services: PerService<ServiceTally>)

  function ServiceTallyOf(members: seq<Client>, svc: Service): ServiceTally {
    ServiceTally(Sum(RateOf(svc), members), Count(ActiveIn(svc), members),
                 Count(UnhealthyIn(svc), members), Sum(HealthIn(svc), members))
  }

  // What a family's members add up to.
  function TallyOf(members: seq<Client>): Tally {
    Tally(|members|, Sum(ScoreOf, members), Total(EventsOf, members), Count(Tripped, members),
          Each((svc: Service) => ServiceTallyOf(members, svc)))
  }

  function RoundedMean(sum: real, n: nat): real {
    if n == 0 then 0.0 else Round4(sum / n as real)
  }

  function MeanHealth(healths: real, active: nat): Option<real> {
    if active == 0 then None else Some(RoundedMean(healths, active))
  }

  datatype HealthRecord = HealthRecord(
    healthScore: real,
    components: PerService<real>,
    serviceHealth: PerService<Option<real>>,
    active: PerService<nat>,
    unhealthy: PerService<nat>,
    alarms: seq<Service>,
    macAlarmCount: nat,
    macAlarmRatio: real,
    totalEvents: nat,
    macCount: nat)

  // More than half of the active clients are unhealthy.
  predicate Alarming(active: nat, unhealthy: nat) {
    active > 0 && unhealthy as real / active as real > 0.5
  }

  function AlarmsIn(active: PerService<nat>, unhealthy: PerService<nat>): seq<Service> {
    Filter((svc: Service) => Alarming(active.At(svc), unhealthy.At(svc)), SERVICES)
  }

  function ActiveCounts(t: Tally): PerService<nat> {
    Each((svc: Service) => t.services.At(svc).active)
  }

  function UnhealthyCounts(t: Tally): PerService<nat> {
    Each((svc: Service) => t.services.At(svc).unhealthy)
  }

  function RecordOf(t: Tally): HealthRecord {
    HealthRecord(
      RoundedMean(t.scores, t.clients),
      Each((svc: Service) => RoundedMean(t.services.At(svc).rates, t.clients)),
      Each((svc: Service) => MeanHealth(t.services.At(svc).healths, t.services.At(svc).active)),
      ActiveCounts(t),
      UnhealthyCounts(t),
      AlarmsIn(ActiveCounts(t), UnhealthyCounts(t)),
      t.tripped,
      RoundedMean(t.tripped as real, t.clients),
      t.events,
      t.clients)
  }

  function InFamily(family: string): Client -> bool {
    (c: Client) => c.family == family && !Hidden(c.family)
  }

  function Members(clients: seq<Client>, family: string): seq<Client> {
    Filter(InFamily(family), clients)
  }

  // The site's health table: every visible family that has a client.
  ghost predicate IsHealthOf(health: map<string, HealthRecord>, clients: seq<Client>) {
    && (forall f :: f in health <==> Members(clients, f) != [])
    && forall f :: f in health ==> health[f] == RecordOf(TallyOf(Members(clients, f)))
  }

  const EMPTY_TALLY := TallyOf([])

  function AddClient(t: Tally, c: Client): Tally {
    Tally(t.clients + 1, t.scores + ScoreOf(c), t.events + c.events,
          t.tripped + if Tripped(c) then 1 else 0,
          Each((svc: Service) => AddToService(t.services.At(svc), c, svc)))
  }

  function AddToService(t: ServiceTally, c: Client, svc: Service): ServiceTally {
    var h := ServiceHealth(c.vector, svc);
    ServiceTally(
      t.rates + FailureRate(Dimension(c.vector, SuccessOf(svc)), Dimension(c.vector, FailureOf(svc))),
      t.active + if h.Some? then 1 else 0,
      t.unhealthy + if h.Some? && h.value < 0.5 then 1 else 0,
      t.healths + if h.Some? then h.value else 0.0)
  }

  lemma ServiceTallyStep(members: seq<Client>, c: Client, svc: Service)
    ensures ServiceTallyOf(members + [c], svc) == AddToService(ServiceTallyOf(members, svc), c, svc)
  {
    assert (members + [c])[..|members|] == members;
    assert Unhealthy(c.vector, svc) <==> UnhealthyIn(svc)(c);
  }

  lemma TallyStep(members: seq<Client>, c: Client)
    ensures TallyOf(members + [c]) == AddClient(TallyOf(members), c)
  {
    assert (members + [c])[..|members|] == members;
    assert EventsOf(c) == c.events;
    assert Tripped(c) || !Tripped(c);
    ServiceTallyStep(members, c, Auth);
    ServiceTallyStep(members, c, Roam);
    ServiceTallyStep(members, c, Dhcp);
    ServiceTallyStep(members, c, Dns);
    ServiceTallyStep(members, c, Arp);
  }

  ghost predicate TalliesMatch(tallies: map<string, Tally>, clients: seq<Client>) {
    && (forall f :: f in tallies <==> Members(clients, f) != [])
    && forall f :: f in tallies ==> tallies[f] == TallyOf(Members(clients, f))
  }

  function CountClient(tallies: map<string, Tally>, c: Client): map<string, Tally> {
    if Hidden(c.family) then tallies
    else tallies[c.family := AddClient(if c.family in tallies then tallies[c.family] else EMPTY_TALLY, c)]
  }

  lemma MembersStep(clients: seq<Client>, c: Client, family: string)
    ensures Members(clients + [c], family) ==
      if c.family == family && !Hidden(c.family) then Members(clients, family) + [c] else Members(clients, family)
  {
    FilterConcat(InFamily(family), clients, [c]);
    FilterSingleton(InFamily(family), c);
  }

  // One family's entry after a client is counted.
  lemma CountedFamily(tallies: map<string, Tally>, clients: seq<Client>, c: Client, f: string)
    requires TalliesMatch(tallies, clients)
    ensures f in CountClient(tallies, c) <==> Members(clients + [c], f) != []
    ensures f in CountClient(tallies, c) ==> CountClient(tallies, c)[f] == TallyOf(Members(clients + [c], f))
  {
    MembersStep(clients, c, f);
    if f == c.family && !Hidden(f) {
      TallyStep(Members(clients, f), c);
    }
  }

  lemma CountClientMatches(tallies: map<string, Tally>, clients: seq<Client>, c: Client)
    requires TalliesMatch(tallies, clients)
    ensures TalliesMatch(CountClient(tallies, c), clients + [c])
  {
    forall f
      ensures f in CountClient(tallies, c) <==> Members(clients + [c], f) != []
      ensures f in CountClient(tallies, c) ==> CountClient(tallies, c)[f] == TallyOf(Members(clients + [c], f))
    {
      CountedFamily(tallies, clients, c, f);
    }
  }

  // ---- the record in the categories' own terms ------------------------------------------

  // The two categories a service is judged by.
  ghost predicate JudgedBy(svc: Service, ok: Category, bad: Category) {
    match svc
    case Auth => ok == AuthSuccess && bad == AuthFailure
    case Roam => ok == RoamSuccess && bad == RoamFailure
    case Dhcp => ok == DhcpSuccess && bad == DhcpFailure
    case Dns => ok == DnsSuccess && bad == DnsFailure
    case Arp => ok == ArpSuccess && bad == ArpFailure
  }

  ghost function Frequency(c: Client, category: Category): real {
    if category in c.vector then c.vector[category] else 0.0
  }

  // The client has an outcome in one of the two categories.
  ghost function Uses(ok: Category, bad: Category): Client -> bool {
    (c: Client) => Frequency(c, ok) + Frequency(c, bad) > 0.0
  }

  // The rounded share of successes, nothing for a client without outcomes.
  ghost function SuccessShare(ok: Category, bad: Category): Client -> real {
    (c: Client) =>
      if Frequency(c, ok) + Frequency(c, bad) > 0.0 then Round4(Frequency(c, ok) / (Frequency(c, ok) + Frequency(c, bad)))
      else 0.0
  }

  ghost function FailureShare(ok: Category, bad: Category): Client -> real {
    (c: Client) =>
      if Frequency(c, ok) + Frequency(c, bad) > 0.0 then Frequency(c, bad) / (Frequency(c, ok) + Frequency(c, bad)) else 0.0
  }

  ghost function Struggles(ok: Category, bad: Category): Client -> bool {
    (c: Client) => Uses(ok, bad)(c) && SuccessShare(ok, bad)(c) < 0.5
  }

  ghost predicate StrugglesSomewhere(c: Client) {
    || Struggles(AuthSuccess, AuthFailure)(c) || Struggles(RoamSuccess, RoamFailure)(c)
    || Struggles(DhcpSuccess, DhcpFailure)(c) || Struggles(DnsSuccess, DnsFailure)(c)
    || Struggles(ArpSuccess, ArpFailure)(c)
  }

  ghost function Successes(c: Client): real {
    Frequency(c, AuthSuccess) + Frequency(c, RoamSuccess) + Frequency(c, DhcpSuccess)
    + Frequency(c, DnsSuccess) + Frequency(c, ArpSuccess)
  }

  ghost function Failures(c: Client): real {
    Frequency(c, AuthFailure) + Frequency(c, RoamFailure) + Frequency(c, DhcpFailure)
    + Frequency(c, DnsFailure) + Frequency(c, ArpFailure)
  }

  // One minus the failing share of all outcomes, never negative, one without outcomes.
  ghost function OverallScore(c: Client): real {
    var outcomes := Successes(c) + Failures(c);
    if outcomes <= 0.0 then 1.0 else if Failures(c) > outcomes then 0.0 else 1.0 - Failures(c) / outcomes
  }

  ghost function MeanShare(ok: Category, bad: Category, members: seq<Client>): Option<real> {
    if Count(Uses(ok, bad), members) == 0 then None
    else Some(Round4(Sum(SuccessShare(ok, bad), members) / Count(Uses(ok, bad), members) as real))
  }

  // What a family's record says of its members.
  ghost predicate DescribesMembers(r: HealthRecord, members: seq<Client>)
    requires members != []
  {
    var n := |members| as real;
    && r.macCount == |members| && r.totalEvents == Total((c: Client) => c.events, members)
    && r.healthScore == Round4(Sum(OverallScore, members) / n)
    && r.active == PerService(
      Count(Uses(AuthSuccess, AuthFailure), members), Count(Uses(RoamSuccess, RoamFailure), members),
      Count(Uses(DhcpSuccess, DhcpFailure), members), Count(Uses(DnsSuccess, DnsFailure), members),
      Count(Uses(ArpSuccess, ArpFailure), members))
    && r.unhealthy == PerService(
      Count(Struggles(AuthSuccess, AuthFailure), members), Count(Struggles(RoamSuccess, RoamFailure), members),
      Count(Struggles(DhcpSuccess, DhcpFailure), members), Count(Struggles(DnsSuccess, DnsFailure), members),
      Count(Struggles(ArpSuccess, ArpFailure), members))
    && r.components == PerService(
      Round4(Sum(FailureShare(AuthSuccess, AuthFailure), members) / n),
      Round4(Sum(FailureShare(RoamSuccess, RoamFailure), members) / n),
      Round4(Sum(FailureShare(DhcpSuccess, DhcpFailure), members) / n),
      Round4(Sum(FailureShare(DnsSuccess, DnsFailure), members) / n),
      Round4(Sum(FailureShare(ArpSuccess, ArpFailure), members) / n))
    && r.serviceHealth == PerService(
      MeanShare(AuthSuccess, AuthFailure, members), MeanShare(RoamSuccess, RoamFailure, members),
      MeanShare(DhcpSuccess, DhcpFailure, members), MeanShare(DnsSuccess, DnsFailure, members),
      MeanShare(ArpSuccess, ArpFailure, members))
    && r.macAlarmCount == Count(StrugglesSomewhere, members)
    && r.macAlarmRatio == Round4(r.macAlarmCount as real / n)
    && AlarmsAreMajorities(r)
  }

  // A service alarms when more than half of its users struggle.
  ghost predicate AlarmsAreMajorities(r: HealthRecord) {
    && (Auth in r.alarms <==> 2 * r.unhealthy.auth > r.active.auth)
    && (Roam in r.alarms <==> 2 * r.unhealthy.roam > r.active.roam)
    && (Dhcp in r.alarms <==> 2 * r.unhealthy.dhcp > r.active.dhcp)
    && (Dns in r.alarms <==> 2 * r.unhealthy.dns > r.active.dns)
    && (Arp in r.alarms <==> 2 * r.unhealthy.arp > r.active.arp)
  }

  lemma ServiceByField(c: Client, svc: Service, ok: Category, bad: Category)
    requires JudgedBy(svc, ok, bad)
    ensures ActiveIn(svc)(c) <==> Uses(ok, bad)(c)
    ensures UnhealthyIn(svc)(c) <==> Struggles(ok, bad)(c)
    ensures RateOf(svc)(c) == FailureShare(ok, bad)(c)
    ensures HealthIn(svc)(c) == SuccessShare(ok, bad)(c)
  {
  }

  lemma TallyByField(members: seq<Client>, svc: Service, ok: Category, bad: Category)
    requires JudgedBy(svc, ok, bad)
    ensures ServiceTallyOf(members, svc) == ServiceTally(
      Sum(FailureShare(ok, bad), members), Count(Uses(ok, bad), members),
      Count(Struggles(ok, bad), members), Sum(SuccessShare(ok, bad), members))
  {
    forall c | c in members
      ensures ActiveIn(svc)(c) <==> Uses(ok, bad)(c)
      ensures UnhealthyIn(svc)(c) <==> Struggles(ok, bad)(c)
      ensures RateOf(svc)(c) == FailureShare(ok, bad)(c)
      ensures HealthIn(svc)(c) == SuccessShare(ok, bad)(c)
    {
      ServiceByField(c, svc, ok, bad);
    }
    CountSame(ActiveIn(svc), Uses(ok, bad), members);
    CountSame(UnhealthyIn(svc), Struggles(ok, bad), members);
    SumSame(RateOf(svc), FailureShare(ok, bad), members);
    SumSame(HealthIn(svc), SuccessShare(ok, bad), members);
  }

  lemma SumOfServices(f: Service -> real)
    ensures Sum(f, SERVICES) == f(Auth) + f(Roam) + f(Dhcp) + f(Dns) + f(Arp)
  {
    var all := SERVICES;
    assert all[..4][..3] == all[..3] && all[..3][..2] == all[..2] && all[..2][..1] == all[..1] && all[..1][..0] == [];
    assert Sum(f, all[..1]) == f(Auth);
    assert Sum(f, all[..2]) == f(Auth) + f(Roam);
    assert Sum(f, all[..3]) == f(Auth) + f(Roam) + f(Dhcp);
    assert Sum(f, all[..4]) == f(Auth) + f(Roam) + f(Dhcp) + f(Dns);
  }

  lemma ScoreByField(c: Client)
    ensures ScoreOf(c) == OverallScore(c)
  {
    SumOfServices(SuccessIn(c.vector));
    SumOfServices(FailureIn(c.vector));
    var failing, outcomes := Failures(c), Successes(c) + Failures(c);
    assert Sum(SuccessIn(c.vector), SERVICES) == Successes(c) && Sum(FailureIn(c.vector), SERVICES) == Failures(c);
    if outcomes > 0.0 {
      assert failing / outcomes * outcomes == failing;
      ProductSign(failing / outcomes - 1.0, outcomes);
      ProductSign(1.0 - failing / outcomes, outcomes);
    }
  }

  lemma TrippedByField(c: Client)
    ensures Tripped(c) <==> StrugglesSomewhere(c)
  {
    assert SERVICES[0] == Auth && SERVICES[1] == Roam && SERVICES[2] == Dhcp && SERVICES[3] == Dns && SERVICES[4] == Arp;
    ServiceByField(c, Auth, AuthSuccess, AuthFailure);
    ServiceByField(c, Roam, RoamSuccess, RoamFailure);
    ServiceByField(c, Dhcp, DhcpSuccess, DhcpFailure);
    ServiceByField(c, Dns, DnsSuccess, DnsFailure);
    ServiceByField(c, Arp, ArpSuccess, ArpFailure);
    forall svc: Service ensures Unhealthy(c.vector, svc) <==> UnhealthyIn(svc)(c) {
    }
  }

  lemma ScoresAndTripsByField(members: seq<Client>)
    ensures Sum(ScoreOf, members) == Sum(OverallScore, members)
    ensures Count(Tripped, members) == Count(StrugglesSomewhere, members)
    ensures Total(EventsOf, members) == Total((c: Client) => c.events, members)
  {
    forall c | c in members ensures ScoreOf(c) == OverallScore(c) && (Tripped(c) <==> StrugglesSomewhere(c)) {
      ScoreByField(c);
      TrippedByField(c);
    }
    SumSame(ScoreOf, OverallScore, members);
    CountSame(Tripped, StrugglesSomewhere, members);
    SameTotal((c: Client) => c.events, EventsOf, members);
  }

  lemma AlarmListed(active: PerService<nat>, unhealthy: PerService<nat>, svc: Service)
    requires unhealthy.At(svc) <= active.At(svc)
    ensures svc in AlarmsIn(active, unhealthy) <==> 2 * unhealthy.At(svc) > active.At(svc)
  {
    var p := (s: Service) => Alarming(active.At(s), unhealthy.At(s));
    FilterMember(p, SERVICES, svc);
    EveryServiceIsListed(svc);
    assert p(svc) <==> Alarming(active.At(svc), unhealthy.At(svc));
    HalfOf(unhealthy.At(svc), active.At(svc));
  }

  lemma EveryServiceIsListed(svc: Service)
    ensures svc in SERVICES
  {
    assert SERVICES[0] == Auth && SERVICES[1] == Roam && SERVICES[2] == Dhcp && SERVICES[3] == Dns && SERVICES[4] == Arp;
  }

  // The five services of a tally, each with its own two categories.
  lemma ServicesByField(members: seq<Client>)
    ensures TallyOf(members).services == PerService(
      OutcomeTally(members, AuthSuccess, AuthFailure), OutcomeTally(members, RoamSuccess, RoamFailure),
      OutcomeTally(members, DhcpSuccess, DhcpFailure), OutcomeTally(members, DnsSuccess, DnsFailure),
      OutcomeTally(members, ArpSuccess, ArpFailure))
  {
    TallyByField(members, Auth, AuthSuccess, AuthFailure);
    TallyByField(members, Roam, RoamSuccess, RoamFailure);
    TallyByField(members, Dhcp, DhcpSuccess, DhcpFailure);
    TallyByField(members, Dns, DnsSuccess, DnsFailure);
    TallyByField(members, Arp, ArpSuccess, ArpFailure);
  }

  ghost function OutcomeTally(members: seq<Client>, ok: Category, bad: Category): ServiceTally {
    ServiceTally(Sum(FailureShare(ok, bad), members), Count(Uses(ok, bad), members),
                 Count(Struggles(ok, bad), members), Sum(SuccessShare(ok, bad), members))
  }

  lemma RecordDescribesMembers(members: seq<Client>)
    requires members != []
    ensures DescribesMembers(RecordOf(TallyOf(members)), members)
  {
    ServicesByField(members);
    ScoresAndTripsByField(members);
    AlarmsDescribeMembers(members);
  }

  lemma UnhealthyAreActive(members: seq<Client>, svc: Service)
    ensures UnhealthyCounts(TallyOf(members)).At(svc) <= ActiveCounts(TallyOf(members)).At(svc)
  {
    CountMonotone(UnhealthyIn(svc), ActiveIn(svc), members);
    assert TallyOf(members).services.At(svc) == ServiceTallyOf(members, svc);
  }

  lemma AlarmsDescribeMembers(members: seq<Client>)
    ensures AlarmsAreMajorities(RecordOf(TallyOf(members)))
  {
    var active, unhealthy := ActiveCounts(TallyOf(members)), UnhealthyCounts(TallyOf(members));
    forall svc: Service ensures unhealthy.At(svc) <= active.At(svc) {
      UnhealthyAreActive(members, svc);
    }
    AlarmsByMajority(active, unhealthy, RecordOf(TallyOf(members)));
  }

  lemma AlarmsByMajority(active: PerService<nat>, unhealthy: PerService<nat>, r: HealthRecord)
    requires r.active == active && r.unhealthy == unhealthy && r.alarms == AlarmsIn(active, unhealthy)
    requires forall svc: Service :: unhealthy.At(svc) <= active.At(svc)
    ensures AlarmsAreMajorities(r)
  {
    AlarmListed(active, unhealthy, Auth);
    AlarmListed(active, unhealthy, Roam);
    AlarmListed(active, unhealthy, Dhcp);
    AlarmListed(active, unhealthy, Dns);
    AlarmListed(active, unhealthy, Arp);
  }

  ghost function OfFamily(clients: seq<Client>, family: string): seq<Client> {
    Filter((c: Client) => c.family == family, clients)
  }

  lemma MembersByField(clients: seq<Client>, family: string)
    ensures Members(clients, family)
      == if family == "Unknown" || family == "IoT (Unknown)" then [] else OfFamily(clients, family)
    ensures OfFamily(clients, family) != [] <==> exists c :: c in clients && c.family == family
  {
    var named := (c: Client) => c.family == family;
    if Hidden(family) {
      FilterNone(InFamily(family), clients);
    } else {
      FilterSame(InFamily(family), named, clients);
    }
    if c :| c in clients && c.family == family {
      FilterMember(named, clients, c);
    }
    if OfFamily(clients, family) != [] {
      FilterMember(named, clients, OfFamily(clients, family)[0]);
    }
  }

  lemma ListedAlarm(v: Vector, svc: Service)
    ensures svc in MacServiceAlarms(v) <==> Unhealthy(v, svc)
  {
    var p := (s: Service) => Unhealthy(v, s);
    assert p(svc) <==> Unhealthy(v, svc);
    FilterMember(p, SERVICES, svc);
    EveryServiceIsListed(svc);
  }

  lemma NoShare(failure: real)
    requires failure > 0.0
    ensures Round4(0.0 / (0.0 + failure)) == 0.0
  {
  }

  // Whatever else it has, a client with failures and no success of a service uses it, struggles
  // in it and raises its alarm.
  lemma FailuresAloneRaiseTheAlarm(v: Vector, svc: Service, ok: Category, bad: Category)
    requires JudgedBy(svc, ok, bad)
    requires bad in v && v[bad] > 0.0 && (ok in v ==> v[ok] == 0.0)
    ensures ServiceHealth(v, svc) == Some(0.0) && svc in MacServiceAlarms(v)
  {
    NoShare(v[bad]);
    ListedAlarm(v, svc);
  }

  // A service is judged by its own two categories and by nothing else.
  lemma OtherDimensionsDoNotMatter(c: Client, d: Client, svc: Service, ok: Category, bad: Category)
    requires JudgedBy(svc, ok, bad)
    requires Frequency(c, ok) == Frequency(d, ok) && Frequency(c, bad) == Frequency(d, bad)
    ensures ServiceHealth(c.vector, svc) == ServiceHealth(d.vector, svc)
    ensures svc in MacServiceAlarms(c.vector) <==> svc in MacServiceAlarms(d.vector)
    ensures RateOf(svc)(c) == RateOf(svc)(d)
  {
    ListedAlarm(c.vector, svc);
    ListedAlarm(d.vector, svc);
  }

  // The docstring has a client whose one service fails completely score 0.0 whatever its others
  // do; that is so exactly when no service of it has a success.
  lemma FullFailureScoresZeroIff(c: Client)
    requires forall category :: category in c.vector ==> c.vector[category] >= 0.0
    requires Failures(c) > 0.0
    ensures ScoreOf(c) == 0.0 <==>
      forall category :: category in {AuthSuccess, RoamSuccess, DhcpSuccess, DnsSuccess, ArpSuccess} ==>
        Frequency(c, category) == 0.0
  {
    ScoreByField(c);
    var failing, outcomes := Failures(c), Successes(c) + Failures(c);
    assert failing / outcomes * outcomes == failing;
    ProductSign(1.0 - failing / outcomes, outcomes);
  }

  lemma HalfOf(unhealthy: nat, active: nat)
    requires unhealthy <= active
    ensures Alarming(active, unhealthy) <==> 2 * unhealthy > active
  {
    if active > 0 {
      var share := unhealthy as real / active as real;
      assert share * active as real == unhealthy as real;
      ProductSign(share - 0.5, active as real);
    }
  }

  // One pass over the clients, one tally per family; then one record per family.
  method ComputeFamilyHealth(clients: seq<Client>) returns (health: map<string, HealthRecord>)
    ensures IsHealthOf(health, clients)
    ensures forall f :: f in health <==>
      f != "Unknown" && f != "IoT (Unknown)" && exists c :: c in clients && c.family == f
    ensures forall f :: f in health ==> OfFamily(clients, f) != [] && DescribesMembers(health[f], OfFamily(clients, f))
  {
    var tallies: map<string, Tally> := map[];
    for i := 0 to |clients|
      invariant TalliesMatch(tallies, clients[..i])
    {
      CountClientMatches(tallies, clients[..i], clients[i]);
      assert clients[..i + 1] == clients[..i] + [clients[i]];
      tallies := CountClient(tallies, clients[i]);
    }
    assert clients[..|clients|] == clients;
    health := map f | f in tallies :: RecordOf(tallies[f]);
    HealthByField(health, clients);
  }

  lemma HealthByField(health: map<string, HealthRecord>, clients: seq<Client>)
    requires IsHealthOf(health, clients)
    ensures forall f :: f in health <==>
      f != "Unknown" && f != "IoT (Unknown)" && exists c :: c in clients && c.family == f
    ensures forall f :: f in health ==> OfFamily(clients, f) != [] && DescribesMembers(health[f], OfFamily(clients, f))
  {
    forall f ensures f in health <==> f != "Unknown" && f != "IoT (Unknown)" && exists c :: c in clients && c.family == f {
      MembersByField(clients, f);
    }
    forall f | f in health
      ensures OfFamily(clients, f) != [] && DescribesMembers(health[f], OfFamily(clients, f))
    {
      FamilyByField(health[f], clients, f);
    }
  }

  lemma FamilyByField(r: HealthRecord, clients: seq<Client>, family: string)
    requires Members(clients, family) != [] && r == RecordOf(TallyOf(Members(clients, family)))
    ensures OfFamily(clients, family) != [] && DescribesMembers(r, OfFamily(clients, family))
  {
    MembersByField(clients, family);
    RecordDescribesMembers(Members(clients, family));
  }

  // ---- the org-wide merge -----------------------------------------------------------------

  datatype OrgHealth = OrgHealth(
    healthScore: real,
    components: Option<PerService<real>>,
    serviceHealth: PerService<Option<real>>,
    active: PerService<nat>,
    unhealthy: PerService<nat>,
    alarms: seq<Service>,
    macAlarmCount: nat,
    macAlarmRatio: real)

  type SiteHealth = map<string, HealthRecord>

  function ClientsAt(family: string): SiteHealth -> nat {
    (s: SiteHealth) => if family in s then s[family].macCount else 0
  }

  function AlarmedAt(family: string): SiteHealth -> nat {
    (s: SiteHealth) => if family in s then s[family].macAlarmCount else 0
  }

  // A mean with the weight of n clients.
  function Weighted(mean: real, n: nat): real {
    mean * n as real
  }

  function ScoreWeightAt(family: string): SiteHealth -> real {
    (s: SiteHealth) => if family in s then Weighted(s[family].healthScore, s[family].macCount) else 0.0
  }

  function RateWeightAt(family: string, svc: Service): SiteHealth -> real {
    (s: SiteHealth) => if family in s then Weighted(s[family].components.At(svc), s[family].macCount) else 0.0
  }

  function ActiveAt(family: string, svc: Service): SiteHealth -> nat {
    (s: SiteHealth) => if family in s then s[family].active.At(svc) else 0
  }

  function UnhealthyAt(family: string, svc: Service): SiteHealth -> nat {
    (s: SiteHealth) => if family in s then s[family].unhealthy.At(svc) else 0
  }

  // A service's stored mean counts with the weight of its active clients.
  function HealthWeight(health: Option<real>, active: nat): real {
    if health.Some? && active > 0 then Weighted(health.value, active) else 0.0
  }

  function HealthWeightAt(family: string, svc: Service): SiteHealth -> real {
    (s: SiteHealth) =>
      if family in s then HealthWeight(s[family].serviceHealth.At(svc), s[family].active.At(svc)) else 0.0
  }

  // The accumulators of the merge loop.
  datatype ServiceAcc = ServiceAcc(rates: real, active: nat, unhealthy: nat, healths: real)
  datatype Acc = Acc(clients: nat, scores: real, alarmed: nat, services: PerService<ServiceAcc>)

  function ServiceAccOf(sites: seq<SiteHealth>, family: string, svc: Service): ServiceAcc {
    ServiceAcc(Sum(RateWeightAt(family, svc), sites), Total(ActiveAt(family, svc), sites),
               Total(UnhealthyAt(family, svc), sites), Sum(HealthWeightAt(family, svc), sites))
  }

  function AccOf(sites: seq<SiteHealth>, family: string): Acc {
    Acc(Total(ClientsAt(family), sites), Sum(ScoreWeightAt(family), sites), Total(AlarmedAt(family), sites),
        Each((svc: Service) => ServiceAccOf(sites, family, svc)))
  }

  function AddSiteService(acc: ServiceAcc, r: HealthRecord, svc: Service): ServiceAcc {
    ServiceAcc(
      acc.rates + Weighted(r.components.At(svc), r.macCount),
      acc.active + r.active.At(svc),
      acc.unhealthy + r.unhealthy.At(svc),
      acc.healths + HealthWeight(r.serviceHealth.At(svc), r.active.At(svc)))
  }

  function AddSite(acc: Acc, site: SiteHealth, family: string): Acc {
    if family !in site then acc else
    var r := site[family];
    Acc(acc.clients + r.macCount, acc.scores + Weighted(r.healthScore, r.macCount), acc.alarmed + r.macAlarmCount,
        Each((svc: Service) => AddSiteService(acc.services.At(svc), r, svc)))
  }

  lemma ServiceAccStep(sites: seq<SiteHealth>, site: SiteHealth, family: string, svc: Service)
    ensures ServiceAccOf(sites + [site], family, svc) ==
      if family in site then AddSiteService(ServiceAccOf(sites, family, svc), site[family], svc)
      else ServiceAccOf(sites, family, svc)
  {
    assert (sites + [site])[..|sites|] == sites;
  }

  lemma AccStep(sites: seq<SiteHealth>, site: SiteHealth, family: string)
    ensures AccOf(sites + [site], family) == AddSite(AccOf(sites, family), site, family)
  {
    assert (sites + [site])[..|sites|] == sites;
    ServiceAccStep(sites, site, family, Auth);
    ServiceAccStep(sites, site, family, Roam);
    ServiceAccStep(sites, site, family, Dhcp);
    ServiceAccStep(sites, site, family, Dns);
    ServiceAccStep(sites, site, family, Arp);
  }

  // What the loop's accumulators become at its end; no components when no site has the family.
  function Conclude(acc: Acc, totalMacs: nat): OrgHealth {
    var active := Each((svc: Service) => acc.services.At(svc).active);
    var unhealthy := Each((svc: Service) => acc.services.At(svc).unhealthy);
    OrgHealth(
      if acc.clients > 0 then RoundedMean(acc.scores, acc.clients) else 1.0,
      if acc.clients > 0 then Some(Each((svc: Service) => RoundedMean(acc.services.At(svc).rates, acc.clients))) else None,
      Each((svc: Service) => MeanHealth(acc.services.At(svc).healths, acc.services.At(svc).active)),
      active, unhealthy, AlarmsIn(active, unhealthy), acc.alarmed, RoundedMean(acc.alarmed as real, totalMacs))
  }

  function MergeOf(sites: seq<SiteHealth>, family: string, totalMacs: nat): OrgHealth {
    Conclude(AccOf(sites, family), totalMacs)
  }

  // Nothing is known of the family: full marks and no service used.
  ghost predicate IsHealthyDefault(org: OrgHealth) {
    && org.healthScore == 1.0 && org.components == None && org.macAlarmCount == 0
    && org.serviceHealth == PerService(None, None, None, None, None)
    && org.active == PerService(0, 0, 0, 0, 0) && org.unhealthy == PerService(0, 0, 0, 0, 0) && org.alarms == []
  }

  lemma {:induction false} AbsentFamilyAddsNothing(sites: seq<SiteHealth>, family: string)
    requires forall s :: s in sites ==> family !in s
    ensures AccOf(sites, family) == AccOf([], family)
  {
    if sites != [] {
      var init, last := sites[..|sites| - 1], sites[|sites| - 1];
      assert sites == init + [last];
      AbsentFamilyAddsNothing(init, family);
      AccStep(init, last, family);
    }
  }

  lemma NoAlarmsWithoutUsers(active: PerService<nat>, unhealthy: PerService<nat>)
    requires active == PerService(0, 0, 0, 0, 0)
    ensures AlarmsIn(active, unhealthy) == []
  {
    FilterNone((svc: Service) => Alarming(active.At(svc), unhealthy.At(svc)), SERVICES);
  }

  lemma AbsentFamilyIsHealthy(sites: seq<SiteHealth>, family: string, totalMacs: nat)
    requires forall s :: s in sites ==> family !in s
    ensures IsHealthyDefault(MergeOf(sites, family, totalMacs))
  {
    AbsentFamilyAddsNothing(sites, family);
    NoAlarmsWithoutUsers(PerService(0, 0, 0, 0, 0), PerService(0, 0, 0, 0, 0));
  }

  // One family over all sites that have it; a family no site has is healthy by default.
  method MergeOrgHealth(sites: seq<SiteHealth>, family: string, totalMacs: nat) returns (org: OrgHealth)
    ensures org == MergeOf(sites, family, totalMacs)
    ensures org.macAlarmRatio == if totalMacs == 0 then 0.0 else Round4(org.macAlarmCount as real / totalMacs as real)
    ensures (forall s :: s in sites ==> family !in s) ==> IsHealthyDefault(org)
  {
    if forall s :: s in sites ==> family !in s {
      AbsentFamilyIsHealthy(sites, family, totalMacs);
    }
    var acc := AccOf([], family);
    for i := 0 to |sites|
      invariant acc == AccOf(sites[..i], family)
    {
      assert sites[..i + 1] == sites[..i] + [sites[i]];
      AccStep(sites[..i], sites[i], family);
      acc := AddSite(acc, sites[i], family);
    }
    assert sites[..|sites|] == sites;
    org := Conclude(acc, totalMacs);
  }
}

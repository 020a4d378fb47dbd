// The baseline-independent detector: three passes over the pairs of a client's event stream.
module StuckLoop {
  import opened Vocabulary
  import opened Sequences
  import opened Counters
  import opened Episodes
  import opened Ratios

  predicate RawFailure(t: EventType) {
    t in {ClientAuthFailure, ClientAuthDenied, ClientMacAuthFailure,
          DhcpFailureEvent, Dhcpv6Failure, DhcpNak, Dhcpv6Nak, DhcpStuck, Dhcpv6Stuck, FailedDhcpInform,
          MarvisDnsFailure, ClientFbtFailure, ClientAuthFailureOkc, ClientAuthFailure11r, WlcFtKeyNotFound,
          ClientDeassociation, ClientDeauthentication, ClientDeauthenticated, StaLeaving,
          ClientGwArpFailure, ClientArpFailure, ClientExcessiveArpingGw}
  }

  predicate FailureCategory(c: Category) {
    c in {DhcpFailure, DnsFailure, AuthFailure, RoamFailure, ArpFailure, DisassocAp, DisassocClient}
  }

  type CategoryPair = (Category, Category)

  function CategoriesOf(t: Transition): CategoryPair {
    (CategoryOf(t.0), CategoryOf(t.1))
  }

  predicate RawFailing(t: Transition) {
    RawFailure(t.0) || RawFailure(t.1)
  }

  predicate CategoryFailing(c: CategoryPair) {
    FailureCategory(c.0) || FailureCategory(c.1)
  }

  predicate Failing(t: Transition) {
    CategoryFailing(CategoriesOf(t))
  }

  predicate BothTyped(t: Transition) {
    t.0 != NO_TYPE && t.1 != NO_TYPE
  }

  // The AP of the last boundary event, "" before the first.
  function EpisodeAp(events: seq<Event>): string {
    if events == [] then "" else
    if IsBoundary(events[|events| - 1].etype) then events[|events| - 1].ap
    else EpisodeAp(events[..|events| - 1])
  }

  predicate KeptUnder(episodeAp: string, event: Event) {
    IsBoundary(event.etype) || episodeAp == "" || event.ap == "" || event.ap == episodeAp
  }

  // Drops events on another AP than the one the episode started on.
  function ApFilter(events: seq<Event>): seq<Event> {
    if events == [] then [] else
    var init, last := events[..|events| - 1], events[|events| - 1];
    ApFilter(init) + if KeptUnder(EpisodeAp(init), last) then [last] else []
  }

  // The pairs the passes count.
  function LoopPairs(events: seq<Event>): seq<Transition> {
    TypedPairs(ApFilter(StableSort(NotLater, events)))
  }

  datatype Label = RawLabel(pair: Transition) | CategoryLabel(categories: CategoryPair)

  // Crashed: max() of an empty list, in pass 3.
  datatype Verdict = Verdict(stuck: bool, pairLabel: Option<Label>, fraction: real) | Crashed

  // Pass 1 on its own.
  ghost predicate RawPassFires(pairs: seq<Transition>, threshold: real) {
    pairs != [] && exists t :: Dominant(pairs, t) && RawFailing(t) && Share(multiset(pairs)[t], |pairs|) >= threshold
  }

  // The share of all pairs with a failure category on one side: pass 3's measure.
  ghost predicate FailureShareReaches(pairs: seq<Transition>, threshold: real) {
    pairs != [] && Share(Count(Failing, pairs), |pairs|) >= threshold
  }

  ghost predicate Detected(events: seq<Event>, minEvents: int, threshold: real) {
    && |events| >= minEvents
    && (RawPassFires(LoopPairs(events), threshold) || FailureShareReaches(LoopPairs(events), threshold))
  }

  function TypedPairs(filtered: seq<Event>): seq<Transition> {
    Filter(BothTyped, Transitions(filtered))
  }

  lemma TalliesStep(pairs: seq<Transition>, t: Transition)
    ensures Tally(pairs + [t]) == Bump(Tally(pairs), t)
    ensures Tally(Map(CategoriesOf, pairs + [t])) == Bump(Tally(Map(CategoriesOf, pairs)), CategoriesOf(t))
  {
    TallyStep(pairs, t);
    TallyStep(Map(CategoriesOf, pairs), CategoriesOf(t));
    assert Map(CategoriesOf, pairs + [t]) == Map(CategoriesOf, pairs) + [CategoriesOf(t)];
  }

  // One turn of the counting loop: pairs with an untyped end are skipped.
  method CountPair(raw: Counter<Transition>, byCategory: Counter<CategoryPair>, t: Transition, ghost pairs: seq<Transition>)
    returns (raw': Counter<Transition>, byCategory': Counter<CategoryPair>)
    requires raw == Tally(pairs) && byCategory == Tally(Map(CategoriesOf, pairs))
    ensures raw' == Tally(pairs + if BothTyped(t) then [t] else [])
    ensures byCategory' == Tally(Map(CategoriesOf, pairs + if BothTyped(t) then [t] else []))
  {
    raw', byCategory' := raw, byCategory;
    if BothTyped(t) {
      TalliesStep(pairs, t);
      raw' := Bump(raw, t);
      byCategory' := Bump(byCategory, CategoriesOf(t));
    } else {
      assert pairs + [] == pairs;
    }
  }

  ghost predicate Typed(t: Transition) {
    t.0 != Unlisted("") && t.1 != Unlisted("")
  }

  // A pair counts as often as it is adjacent, unless one of the two events has no type.
  lemma TypedPairsCounted(filtered: seq<Event>)
    ensures forall t: Transition ::
      multiset(TypedPairs(filtered))[t] == if Typed(t) then multiset(Transitions(filtered))[t] else 0
  {
    forall t: Transition
      ensures multiset(TypedPairs(filtered))[t] == if Typed(t) then multiset(Transitions(filtered))[t] else 0
    {
      FilterMultiplicity(BothTyped, Transitions(filtered), t);
    }
  }

  method CountPairs(filtered: seq<Event>) returns (raw: Counter<Transition>, byCategory: Counter<CategoryPair>)
    ensures forall t: Transition ::
      (if t in raw.counts then raw.counts[t] else 0) == if Typed(t) then multiset(Transitions(filtered))[t] else 0
    ensures raw == Tally(TypedPairs(filtered))
    ensures byCategory == Tally(Map(CategoriesOf, TypedPairs(filtered)))
  {
    raw, byCategory := Empty(), Empty();
    ghost var ts := Transitions(filtered);
    for k := 0 to if |filtered| == 0 then 0 else |filtered| - 1
      invariant raw == Tally(Filter(BothTyped, ts[..k]))
      invariant byCategory == Tally(Map(CategoriesOf, Filter(BothTyped, ts[..k])))
    {
      FilterStep(BothTyped, ts, k);
      raw, byCategory := CountPair(raw, byCategory, (filtered[k].etype, filtered[k + 1].etype),
                                   Filter(BothTyped, ts[..k]));
    }
    assert ts[..|ts|] == ts;
    TallyOfTyped(raw, filtered);
  }

  lemma TallyOfTyped(raw: Counter<Transition>, filtered: seq<Event>)
    requires raw == Tally(TypedPairs(filtered))
    ensures forall t: Transition ::
      (if t in raw.counts then raw.counts[t] else 0) == if Typed(t) then multiset(Transitions(filtered))[t] else 0
  {
    TypedPairsCounted(filtered);
    TallyCounts(TypedPairs(filtered));
  }

  // Event b is the last boundary event before event j.
  ghost predicate OpensEpisodeOf(s: seq<Event>, b: nat, j: nat)
    requires j <= |s|
  {
    b < j && IsBoundary(s[b].etype) && forall m :: b < m < j ==> !IsBoundary(s[m].etype)
  }

  // Boundary events stay, and so does an event whose access point is unknown, or that no boundary
  // event precedes, or whose last boundary event has no access point or the same one.
  ghost predicate Stays(s: seq<Event>, j: nat)
    requires j < |s|
  {
    IsBoundary(s[j].etype) || s[j].ap == "" ||
    forall b: nat :: OpensEpisodeOf(s, b, j) ==> s[b].ap == "" || s[b].ap == s[j].ap
  }

  // The increasing positions `at` are exactly those of the events that stay.
  ghost predicate Survivors(s: seq<Event>, at: seq<nat>) {
    && (forall k :: 0 <= k < |at| ==> at[k] < |s|)
    && (forall k, l :: 0 <= k < l < |at| ==> at[k] < at[l])
    && forall j :: 0 <= j < |s| ==> (j in at <==> Stays(s, j))
  }

  ghost predicate EventsAt(filtered: seq<Event>, s: seq<Event>, at: seq<nat>) {
    |filtered| == |at| && forall k :: 0 <= k < |at| ==> at[k] < |s| && filtered[k] == s[at[k]]
  }

  lemma {:induction false} LastBoundaryAp(s: seq<Event>)
    ensures forall b: nat :: OpensEpisodeOf(s, b, |s|) ==> EpisodeAp(s) == s[b].ap
    ensures (forall b: nat :: !OpensEpisodeOf(s, b, |s|)) ==> EpisodeAp(s) == ""
  {
    if s != [] {
      var init := s[..|s| - 1];
      LastBoundaryAp(init);
      if IsBoundary(s[|s| - 1].etype) {
        assert OpensEpisodeOf(s, |s| - 1, |s|);
      } else {
        forall b: nat ensures OpensEpisodeOf(s, b, |s|) <==> OpensEpisodeOf(init, b, |init|) {
          SameOpening(s, |init|, b);
        }
      }
    }
  }

  lemma SameOpening(s: seq<Event>, n: nat, b: nat)
    requires n < |s| && !IsBoundary(s[n].etype)
    ensures OpensEpisodeOf(s, b, n + 1) <==> OpensEpisodeOf(s[..n], b, n)
  {
  }

  lemma LastEventStays(s: seq<Event>)
    requires s != []
    ensures Stays(s, |s| - 1) <==> KeptUnder(EpisodeAp(s[..|s| - 1]), s[|s| - 1])
  {
    var n := |s| - 1;
    var init := s[..n];
    LastBoundaryAp(init);
    forall b: nat ensures OpensEpisodeOf(s, b, n) <==> OpensEpisodeOf(init, b, n) {
    }
    if exists b: nat :: OpensEpisodeOf(init, b, n) {
      var b: nat :| OpensEpisodeOf(init, b, n);
      assert forall c: nat :: OpensEpisodeOf(s, c, n) ==> c == b;
    }
  }

  lemma EarlierEventStays(s: seq<Event>, n: nat, j: nat)
    requires j < n <= |s|
    ensures Stays(s, j) <==> Stays(s[..n], j)
  {
    var init := s[..n];
    assert init[j] == s[j];
    forall b: nat
      ensures OpensEpisodeOf(s, b, j) <==> OpensEpisodeOf(init, b, j)
      ensures OpensEpisodeOf(init, b, j) ==> init[b] == s[b]
    {
      EarlierOpening(s, n, b, j);
    }
  }

  lemma EarlierOpening(s: seq<Event>, n: nat, b: nat, j: nat)
    requires j <= n <= |s|
    ensures OpensEpisodeOf(s, b, j) <==> OpensEpisodeOf(s[..n], b, j)
    ensures b < j ==> s[..n][b] == s[b]
  {
    var init := s[..n];
    if OpensEpisodeOf(init, b, j) {
      forall m | b < m < j ensures !IsBoundary(s[m].etype) {
        assert init[m] == s[m];
      }
    }
  }

  lemma {:induction false} FilterPositions(s: seq<Event>) returns (at: seq<nat>)
    ensures Survivors(s, at) && EventsAt(ApFilter(s), s, at)
  {
    at := [];
    if s != [] {
      var n := |s| - 1;
      var before := FilterPositions(s[..n]);
      LastEventStays(s);
      at := if Stays(s, n) then before + [n] else before;
      OneMoreSurvivor(s, before);
      EventsFollow(s, before, ApFilter(s[..n]));
    }
  }

  lemma OneMoreSurvivor(s: seq<Event>, before: seq<nat>)
    requires s != [] && Survivors(s[..|s| - 1], before)
    ensures Survivors(s, if Stays(s, |s| - 1) then before + [|s| - 1] else before)
  {
    var n := |s| - 1;
    var at := if Stays(s, n) then before + [n] else before;
    forall j | 0 <= j < |s| ensures j in at <==> Stays(s, j) {
      if j < n {
        EarlierEventStays(s, n, j);
        assert j in at <==> j in before;
      } else {
        assert n !in before;
      }
    }
  }

  lemma EventsFollow(s: seq<Event>, before: seq<nat>, filtered: seq<Event>)
    requires s != [] && EventsAt(filtered, s[..|s| - 1], before)
    ensures EventsAt(filtered, s, before) && EventsAt(filtered + [s[|s| - 1]], s, before + [|s| - 1])
  {
  }

  // Goodbye events on the access point the client has left are dropped, and nothing else is; the
  // others keep their order.
  method FilterByAp(ordered: seq<Event>) returns (filtered: seq<Event>)
    ensures filtered == ApFilter(ordered)
    ensures exists at: seq<nat> :: Survivors(ordered, at) && EventsAt(filtered, ordered, at)
  {
    filtered := [];
    var episodeAp := "";
    for i := 0 to |ordered|
      invariant filtered == ApFilter(ordered[..i])
      invariant episodeAp == EpisodeAp(ordered[..i])
    {
      var event := ordered[i];
      assert ordered[..i + 1][..i] == ordered[..i];
      if IsBoundary(event.etype) {
        episodeAp := event.ap;
        filtered := filtered + [event];
      } else if episodeAp != "" && event.ap != "" && event.ap != episodeAp {
      } else {
        filtered := filtered + [event];
      }
    }
    assert ordered[..|ordered|] == ordered;
    ghost var at := FilterPositions(ordered);
  }

  // The failing categories' counts added up.
  method FailureTotal(c: Counter<CategoryPair>, ghost items: seq<CategoryPair>) returns (total: nat)
    requires c == Tally(items)
    ensures total == Count(CategoryFailing, items)
  {
    TallyCounts(items);
    total := 0;
    for i := 0 to |c.order|
      invariant total == Weight(CategoryFailing, c.order[..i], c.counts)
    {
      WeightStep(CategoryFailing, c.order, c.counts, i);
      if CategoryFailing(c.order[i]) {
        total := total + c.counts[c.order[i]];
      }
    }
    assert c.order[..|c.order|] == c.order;
    WeightIsCount(CategoryFailing, items);
  }

  // The failing pair of greatest count; None is the max() of an empty list.
  method TopFailure(c: Counter<CategoryPair>, ghost items: seq<CategoryPair>) returns (top: Option<CategoryPair>)
    requires c == Tally(items)
    ensures top.None? <==> Count(CategoryFailing, items) == 0
    ensures top.Some? ==> IsTopFailure(items, top.value)
  {
    TallyCounts(items);
    top := None;
    ghost var at := 0;
    for i := 0 to |c.order|
      invariant top.Some? ==> top.value in c.counts
      invariant TopSoFar(c, i, top, at)
    {
      var k := c.order[i];
      TopStep(c, i, top, at);
      if CategoryFailing(k) && (top.None? || c.counts[k] > c.counts[top.value]) {
        top, at := Some(k), i;
      }
    }
    TopFailureDecided(c, items, top, at);
  }

  // Among the first n keys, the first failing one of greatest count stands at `at`.
  ghost predicate TopSoFar(c: Counter<CategoryPair>, n: nat, top: Option<CategoryPair>, at: nat)
    requires n <= |c.order| && forall k :: k in c.order ==> k in c.counts
  {
    && (top.None? ==> forall j :: 0 <= j < n ==> !CategoryFailing(c.order[j]))
    && (top.Some? ==> at < n && c.order[at] == top.value && CategoryFailing(top.value))
    && (top.Some? ==> forall j :: 0 <= j < n && CategoryFailing(c.order[j]) ==>
          c.counts[c.order[j]] <= c.counts[top.value] && (j < at ==> c.counts[c.order[j]] < c.counts[top.value]))
  }

  lemma TopStep(c: Counter<CategoryPair>, n: nat, top: Option<CategoryPair>, at: nat)
    requires n < |c.order| && forall k :: k in c.order ==> k in c.counts
    requires TopSoFar(c, n, top, at)
    ensures var k := c.order[n];
      if CategoryFailing(k) && (top.None? || c.counts[k] > c.counts[top.value]) then TopSoFar(c, n + 1, Some(k), n)
      else TopSoFar(c, n + 1, top, at)
  {
  }

  lemma TopFailureDecided(c: Counter<CategoryPair>, items: seq<CategoryPair>, top: Option<CategoryPair>, at: nat)
    requires c == Tally(items) && forall k :: k in c.order ==> k in c.counts
    requires TopSoFar(c, |c.order|, top, at)
    ensures top.None? <==> Count(CategoryFailing, items) == 0
    ensures top.Some? ==> IsTopFailure(items, top.value)
  {
    TallyCounts(items);
    if top.None? {
      CountZero(CategoryFailing, items);
    } else {
      CountPositive(CategoryFailing, items, top.value);
      assert FirstTopFailure(items, top.value, at);
    }
  }

  ghost predicate FirstTopFailure(items: seq<CategoryPair>, k: CategoryPair, at: nat) {
    && at < |Distinct(items)| && Distinct(items)[at] == k
    && forall i :: 0 <= i < at && CategoryFailing(Distinct(items)[i]) ==>
      multiset(items)[Distinct(items)[i]] < multiset(items)[k]
  }

  // A failing pair of greatest count, the earliest met among equals.
  ghost predicate IsTopFailure(items: seq<CategoryPair>, k: CategoryPair) {
    && k in items && CategoryFailing(k)
    && (forall j :: j in items && CategoryFailing(j) ==> multiset(items)[j] <= multiset(items)[k])
    && exists at: nat :: FirstTopFailure(items, k, at)
  }

  // Pass 2 on its own.
  ghost predicate CategoryPassFires(pairs: seq<Transition>, threshold: real) {
    var categories := Map(CategoriesOf, pairs);
    pairs != [] && exists k ::
      Dominant(categories, k) && CategoryFailing(k) && Share(multiset(categories)[k], |pairs|) >= threshold
  }

  // What a client that is not stuck is reported with: the larger share of the two commonest pairs.
  ghost predicate IsTopShare(fraction: real, pairs: seq<Transition>)
    requires pairs != []
  {
    var categories := Map(CategoriesOf, pairs);
    exists t, k :: Dominant(pairs, t) && Dominant(categories, k) &&
      var raw, grouped := Share(multiset(pairs)[t], |pairs|), Share(multiset(categories)[k], |pairs|);
      fraction == if raw >= grouped then raw else grouped
  }

  // What a verdict on these pairs must say.
  ghost predicate Justified(v: Verdict, pairs: seq<Transition>, threshold: real)
    requires pairs != []
  {
    match v
    case Crashed => !RawPassFires(pairs, threshold) && threshold <= 0.0 && Count(Failing, pairs) == 0
    case Verdict(stuck, None, fraction) =>
      && !stuck && !RawPassFires(pairs, threshold) && !FailureShareReaches(pairs, threshold)
      && IsTopShare(fraction, pairs)
    case Verdict(stuck, Some(RawLabel(t)), fraction) =>
      && stuck && RawPassFires(pairs, threshold) && Dominant(pairs, t)
      && fraction == Share(multiset(pairs)[t], |pairs|) >= threshold
    case Verdict(stuck, Some(CategoryLabel(k)), fraction) =>
      && stuck && !RawPassFires(pairs, threshold) && FailureShareReaches(pairs, threshold)
      && var categories := Map(CategoriesOf, pairs);
      if CategoryPassFires(pairs, threshold) then
        && Dominant(categories, k) && CategoryFailing(k)
        && fraction == Share(multiset(categories)[k], |pairs|) >= threshold
      else
        IsTopFailure(categories, k) && fraction == Share(Count(Failing, pairs), |pairs|) >= threshold
  }

  lemma CategoryPassDecided(pairs: seq<Transition>, top: CategoryPair, threshold: real)
    requires pairs != [] && Dominant(Map(CategoriesOf, pairs), top)
    ensures CategoryPassFires(pairs, threshold) <==>
      CategoryFailing(top) && Share(multiset(Map(CategoriesOf, pairs))[top], |pairs|) >= threshold
  {
    forall k | Dominant(Map(CategoriesOf, pairs), k) ensures k == top {
      DominantUnique(Map(CategoriesOf, pairs), k, top);
    }
  }

  lemma RawPassDecided(pairs: seq<Transition>, top: Transition, threshold: real)
    requires pairs != [] && Dominant(pairs, top)
    ensures RawPassFires(pairs, threshold) <==>
      RawFailing(top) && Share(multiset(pairs)[top], |pairs|) >= threshold
  {
    forall t | Dominant(pairs, t) ensures t == top {
      DominantUnique(pairs, t, top);
    }
  }

  lemma CategoryPassIsJustified(pairs: seq<Transition>, k: CategoryPair)
    requires pairs != [] && k in Map(CategoriesOf, pairs) && CategoryFailing(k)
    ensures Share(multiset(Map(CategoriesOf, pairs))[k], |pairs|) <= Share(Count(Failing, pairs), |pairs|)
    ensures Count(Failing, pairs) == Count(CategoryFailing, Map(CategoriesOf, pairs)) > 0
  {
    var categories := Map(CategoriesOf, pairs);
    CountAligned(CategoryFailing, categories, Failing, pairs);
    MultiplicityAtMostCount(CategoryFailing, categories, k);
    CountPositive(CategoryFailing, categories, k);
    ShareOrder(multiset(categories)[k], Count(Failing, pairs), |pairs|);
  }

  method RunPasses(raw: Counter<Transition>, byCategory: Counter<CategoryPair>, total: nat, threshold: real,
                   ghost pairs: seq<Transition>)
    returns (v: Verdict)
    requires pairs != [] && total == |pairs|
    requires raw == Tally(pairs) && byCategory == Tally(Map(CategoriesOf, pairs))
    ensures Justified(v, pairs, threshold)
  {
    var top, topCount := MostCommon(raw, pairs);
    var topFraction := Share(topCount, total);
    RawPassDecided(pairs, top, threshold);
    if topFraction >= threshold && RawFailing(top) {
      return Verdict(true, Some(RawLabel(top)), topFraction);
    }

    ghost var categories := Map(CategoriesOf, pairs);
    var categoryTop, categoryTopCount := MostCommon(byCategory, categories);
    var categoryTopFraction := Share(categoryTopCount, total);
    CategoryPassDecided(pairs, categoryTop, threshold);
    if categoryTopFraction >= threshold && CategoryFailing(categoryTop) {
      CategoryPassIsJustified(pairs, categoryTop);
      return Verdict(true, Some(CategoryLabel(categoryTop)), categoryTopFraction);
    }

    var failing := FailureTotal(byCategory, categories);
    CountAligned(CategoryFailing, categories, Failing, pairs);
    var failureFraction := Share(failing, total);
    if failureFraction >= threshold {
      ShareOrder(failing, 0, total);
      var topFailing := TopFailure(byCategory, categories);
      match topFailing
      case None => return Crashed;
      case Some(k) => return Verdict(true, Some(CategoryLabel(k)), failureFraction);
    }
    return Verdict(false, None, if topFraction >= categoryTopFraction then topFraction else categoryTopFraction);
  }

  // Pass 3 takes the maximum of no pair at all: the threshold is met by a failing share of zero.
  ghost predicate Crashes(events: seq<Event>, minEvents: int, threshold: real) {
    && |events| >= minEvents
    && LoopPairs(events) != []
    && !RawPassFires(LoopPairs(events), threshold)
    && threshold <= 0.0
    && Count(Failing, LoopPairs(events)) == 0
  }

  // The verdict, its pair and its fraction for a stream.
  ghost predicate Says(v: Verdict, events: seq<Event>, minEvents: int, threshold: real) {
    && (|events| < minEvents || LoopPairs(events) == [] ==> v == Verdict(false, None, 0.0))
    && (|events| >= minEvents && LoopPairs(events) != [] ==> Justified(v, LoopPairs(events), threshold))
  }

  lemma CrashDecided(v: Verdict, pairs: seq<Transition>, threshold: real)
    requires pairs != [] && Justified(v, pairs, threshold)
    ensures v.Crashed? <==> !RawPassFires(pairs, threshold) && threshold <= 0.0 && Count(Failing, pairs) == 0
  {
    ShareOrder(0, 0, |pairs|);
    match v
    case Verdict(_, Some(CategoryLabel(k)), _) => CategoryPassIsJustified(pairs, k);
    case _ =>
  }

  // The pairs are the adjacent typed ones of the events that stay, in stable time order.
  ghost predicate PairsOfSurvivors(pairs: seq<Transition>, events: seq<Event>) {
    exists ordered: seq<Event>, at: seq<nat>, filtered: seq<Event> ::
      && InTimeOrder(ordered) && StableArrangement(NotLater, events, ordered)
      && Survivors(ordered, at) && EventsAt(filtered, ordered, at)
      && pairs == Filter(t => Typed(t), Transitions(filtered))
  }

  lemma LoopPairsByField(events: seq<Event>)
    ensures PairsOfSurvivors(LoopPairs(events), events)
  {
    var ordered := StableSort(NotLater, events);
    SortedByTime(events);
    StableSortArranges(NotLater, events);
    var at := FilterPositions(ordered);
    var filtered := ApFilter(ordered);
    FilterSame(BothTyped, t => Typed(t), Transitions(filtered));
  }

  method DetectStuckLoop(events: seq<Event>, minEvents: int, threshold: real) returns (v: Verdict)
    ensures Says(v, events, minEvents, threshold)
    ensures PairsOfSurvivors(LoopPairs(events), events)
    ensures v.Verdict? ==> (v.stuck <==> Detected(events, minEvents, threshold))
    ensures v.Crashed? <==> Crashes(events, minEvents, threshold)
  {
    LoopPairsByField(events);
    if |events| < minEvents {
      return Verdict(false, None, 0.0);
    }
    var ordered := StableSort(NotLater, events);
    var filtered := FilterByAp(ordered);
    var raw, byCategory := CountPairs(filtered);
    var total := TotalPairs(raw, LoopPairs(events));
    if total == 0 {
      return Verdict(false, None, 0.0);
    }
    v := RunPasses(raw, byCategory, total, threshold, LoopPairs(events));
    CrashDecided(v, LoopPairs(events), threshold);
  }

  method TotalPairs(raw: Counter<Transition>, ghost pairs: seq<Transition>) returns (total: nat)
    requires raw == Tally(pairs)
    ensures total == |pairs|
  {
    var any := (t: Transition) => true;
    WeightIsCount(any, pairs);
    CountAll(any, pairs);
    total := Weight(any, raw.order, raw.counts);
  }

  // ---- the three passes are one criterion -------------------------------------------

  // The raw failure types that can reach storage all lie in a failure category.
  lemma StoredRawFailuresAreCategorised(t: EventType)
    requires RawFailure(t) && !Ignored(t)
    ensures FailureCategory(CategoryOf(t))
  {
  }

  ghost predicate FreeOfIgnored(events: seq<Event>) {
    forall e :: e in events ==> !Ignored(e.etype)
  }

  lemma {:induction false} ApFilterKeeps(events: seq<Event>, e: Event)
    requires e in ApFilter(events)
    ensures e in events
  {
    if e in ApFilter(events[..|events| - 1]) {
      ApFilterKeeps(events[..|events| - 1], e);
    }
  }

  lemma LoopPairsFreeOfIgnored(events: seq<Event>, t: Transition)
    requires FreeOfIgnored(events) && t in LoopPairs(events)
    ensures !Ignored(t.0) && !Ignored(t.1)
  {
    var ordered := StableSort(NotLater, events);
    var filtered := ApFilter(ordered);
    FilterMember(BothTyped, Transitions(filtered), t);
    var k :| 0 <= k < |Transitions(filtered)| && Transitions(filtered)[k] == t;
    var a, b := filtered[k], filtered[k + 1];
    ApFilterKeeps(ordered, a);
    ApFilterKeeps(ordered, b);
    StableSortArranges(NotLater, events);
    assert a in multiset(ordered) && b in multiset(ordered);
  }

  lemma RawFailingIsFailing(events: seq<Event>, t: Transition)
    requires FreeOfIgnored(events) && t in LoopPairs(events) && RawFailing(t)
    ensures Failing(t)
  {
    LoopPairsFreeOfIgnored(events, t);
    if RawFailure(t.0) {
      StoredRawFailuresAreCategorised(t.0);
    } else {
      StoredRawFailuresAreCategorised(t.1);
    }
  }

  // On streams as stored, the raw pass and the category pass never change the verdict: the
  // detector fires exactly when there are enough events and the failing share of the AP-filtered
  // pairs reaches the threshold.
  lemma PassesCollapse(events: seq<Event>, minEvents: int, threshold: real)
    requires FreeOfIgnored(events)
    ensures Detected(events, minEvents, threshold) <==>
      |events| >= minEvents && FailureShareReaches(LoopPairs(events), threshold)
  {
    var pairs := LoopPairs(events);
    if RawPassFires(pairs, threshold) {
      var t :| Dominant(pairs, t) && RawFailing(t) && Share(multiset(pairs)[t], |pairs|) >= threshold;
      RawFailingIsFailing(events, t);
      MultiplicityAtMostCount(Failing, pairs, t);
      ShareOrder(multiset(pairs)[t], Count(Failing, pairs), |pairs|);
    }
  }

  // With a threshold of zero or less the run aborts on exactly the stored streams that have
  // enough events, some pair, and no failing one.
  lemma CrashesWithoutFailures(events: seq<Event>, minEvents: int, threshold: real)
    requires FreeOfIgnored(events)
    ensures Crashes(events, minEvents, threshold) <==>
      threshold <= 0.0 && |events| >= minEvents && LoopPairs(events) != [] && Count(Failing, LoopPairs(events)) == 0
  {
    var pairs := LoopPairs(events);
    if RawPassFires(pairs, threshold) {
      var t :| Dominant(pairs, t) && RawFailing(t) && Share(multiset(pairs)[t], |pairs|) >= threshold;
      RawFailingIsFailing(events, t);
      CountPositive(Failing, pairs, t);
    }
  }

  // The criterion of PassesCollapse for one stream.
  ghost predicate OneCriterion(events: seq<Event>) {
    forall minEvents: int, threshold: real :: threshold > 0.0 ==>
      (Detected(events, minEvents, threshold) <==>
        |events| >= minEvents && FailureShareReaches(LoopPairs(events), threshold))
  }

  // Whatever types it holds, a stream obeys the one criterion for every setting exactly when no
  // dominant raw failing pair outnumbers the pairs with a failure category.
  lemma OneCriterionIff(events: seq<Event>)
    ensures OneCriterion(events) <==>
      forall t :: Dominant(LoopPairs(events), t) && RawFailing(t) ==>
        multiset(LoopPairs(events))[t] <= Count(Failing, LoopPairs(events))
  {
    var pairs := LoopPairs(events);
    if t :| Dominant(pairs, t) && RawFailing(t) && multiset(pairs)[t] > Count(Failing, pairs) {
      var threshold := Share(multiset(pairs)[t], |pairs|);
      ShareOrder(multiset(pairs)[t], Count(Failing, pairs), |pairs|);
      ShareOrder(multiset(pairs)[t], 0, |pairs|);
      assert Detected(events, |events|, threshold) && !FailureShareReaches(pairs, threshold);
    } else {
      forall minEvents: int, threshold: real | threshold > 0.0
        ensures Detected(events, minEvents, threshold) <==> |events| >= minEvents && FailureShareReaches(pairs, threshold)
      {
        if t :| Dominant(pairs, t) && RawFailing(t) && Share(multiset(pairs)[t], |pairs|) >= threshold {
          ShareOrder(multiset(pairs)[t], Count(Failing, pairs), |pairs|);
        }
      }
    }
  }

  lemma TwinsStay(e: Event)
    ensures StableSort(NotLater, [e, e]) == [e, e] && ApFilter([e, e]) == [e, e]
  {
    assert [e, e][..1] == [e] && [e][..0] == [];
    assert StableSort(NotLater, [e]) == [e] && ApFilter([e]) == [e];
  }

  lemma TransitionsOfTwins(e: Event)
    ensures Transitions([e, e]) == [(e.etype, e.etype)]
  {
  }

  lemma PairsOfTwins(e: Event)
    requires e.etype != NO_TYPE
    ensures LoopPairs([e, e]) == [(e.etype, e.etype)]
  {
    TwinsStay(e);
    TransitionsOfTwins(e);
    FilterSingleton(BothTyped, (e.etype, e.etype));
  }

  lemma NakIsARawFailureOnly()
    ensures RawFailing((Dhcpv6Nak, Dhcpv6Nak)) && !Failing((Dhcpv6Nak, Dhcpv6Nak))
  {
  }

  lemma SolePairFires(t: Transition)
    requires RawFailing(t)
    ensures RawPassFires([t], 1.0)
  {
    SoleItemIsDominant(t);
  }

  lemma SolePairHasNoShare(t: Transition)
    requires !Failing(t)
    ensures !FailureShareReaches([t], 1.0)
  {
    CountZero(Failing, [t]);
  }

  // With an ignored type in the stream the raw pass can fire alone: the hypothesis is needed.
  lemma IgnoredTypesSeparateThePasses(e: Event)
    requires e.etype == Dhcpv6Nak
    ensures Detected([e, e], 2, 1.0)
    ensures !FailureShareReaches(LoopPairs([e, e]), 1.0)
  {
    var t := (Dhcpv6Nak, Dhcpv6Nak);
    PairsOfTwins(e);
    NakIsARawFailureOnly();
    SolePairFires(t);
    SolePairHasNoShare(t);
  }

  // A category pair is counted once for every raw pair of those categories.
  lemma CategoryCountIsImageSum(pairs: seq<Transition>, k: CategoryPair)
    ensures forall t :: t in Tally(pairs).order ==> t in Tally(pairs).counts
    ensures multiset(Map(CategoriesOf, pairs))[k] ==
            Weight(t => CategoriesOf(t) == k, Tally(pairs).order, Tally(pairs).counts)
  {
    WeightIsCount(t => CategoriesOf(t) == k, pairs);
    ImageMultiplicity(pairs, k);
  }

  lemma {:induction false} ImageMultiplicity(pairs: seq<Transition>, k: CategoryPair)
    ensures multiset(Map(CategoriesOf, pairs))[k] == Count(t => CategoriesOf(t) == k, pairs)
  {
    if pairs != [] {
      var init, last := pairs[..|pairs| - 1], pairs[|pairs| - 1];
      ImageMultiplicity(init, k);
      assert Map(CategoriesOf, pairs) == Map(CategoriesOf, init) + [CategoriesOf(last)];
    }
  }

  // Dropped events leave no trace: the filter has nothing left to drop.
  lemma {:induction false} ApFilterIdempotent(events: seq<Event>)
    ensures ApFilter(ApFilter(events)) == ApFilter(events)
    ensures EpisodeAp(ApFilter(events)) == EpisodeAp(events)
  {
    if events != [] {
      var init, last := events[..|events| - 1], events[|events| - 1];
      ApFilterIdempotent(init);
      var kept := ApFilter(init);
      if KeptUnder(EpisodeAp(init), last) {
        assert (kept + [last])[..|kept|] == kept;
      } else {
        assert kept + [] == kept;
      }
    }
  }
}

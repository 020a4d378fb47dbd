// Per-client Markov analysis and the three family rollups written over its results.
module MarkovRollup {
  import opened Vocabulary
  import opened Sequences
  import opened Episodes
  import opened Scoring
  import opened StuckLoop
  import opened Ratios
  import opened Rounding

  datatype Reason = Repeated | Anomaly

  datatype MacRecord = MacRecord(
    totalEpisodes: nat,
    scoreable: nat,
    anomalous: nat,
    isStuck: bool,
    stuckPair: Option<Label>,
    isOutlier: bool,
    reason: Option<Reason>)

  const EMPTY_RECORD := MacRecord(0, 0, 0, false, None, false, None)

  datatype Config = Config(
    minEpisodeLength: int,
    minScoreable: int,
    outlierEpisodeRatio: real,
    episodeThreshold: real,
    stuckMinEvents: int,
    stuckThreshold: real)

  function ScoresBelow(threshold: real, logProb: seq<seq<real>>, idx: map<EventType, nat>): seq<Event> -> bool {
    e => EpisodeScore(e, logProb, idx) < threshold
  }

  ghost predicate ManyLowEpisodes(r: MacRecord, cfg: Config) {
    r.scoreable > 0 && r.scoreable >= cfg.minScoreable && Share(r.anomalous, r.scoreable) >= cfg.outlierEpisodeRatio
  }

  // What an analysed client's record says about its episodes.
  ghost predicate Explains(r: MacRecord, episodes: seq<seq<Event>>, logProb: seq<seq<real>>,
                           idx: map<EventType, nat>, cfg: Config) {
    var normal := Filter(LongEnough(cfg.minEpisodeLength), episodes);
    && r.totalEpisodes == |episodes| >= r.scoreable == |normal|
    && r.anomalous == Count(ScoresBelow(cfg.episodeThreshold, logProb, idx), normal) <= r.scoreable
    && r.reason == (if r.isStuck then Some(Repeated) else if ManyLowEpisodes(r, cfg) then Some(Anomaly) else None)
    && (r.isOutlier <==> r.reason.Some?)
  }

  // The stored pair is the one the detector names.
  ghost predicate PairIsReported(stuck: bool, pairLabel: Option<Label>, events: seq<Event>, cfg: Config) {
    exists fraction: real :: Says(Verdict(stuck, pairLabel, fraction), events, cfg.stuckMinEvents, cfg.stuckThreshold)
  }

  // The record passes the detector's verdict on.
  ghost predicate ReportsLoop(r: MacRecord, events: seq<Event>, cfg: Config) {
    && (r.isStuck <==> Detected(events, cfg.stuckMinEvents, cfg.stuckThreshold))
    && PairIsReported(r.isStuck, r.stuckPair, events, cfg)
  }

  lemma LoopIsReported(v: Verdict, r: MacRecord, events: seq<Event>, cfg: Config)
    requires v.Verdict? && Says(v, events, cfg.stuckMinEvents, cfg.stuckThreshold)
    requires v.stuck <==> Detected(events, cfg.stuckMinEvents, cfg.stuckThreshold)
    requires r.isStuck == v.stuck && r.stuckPair == v.pairLabel
    ensures ReportsLoop(r, events, cfg)
  {
    assert v == Verdict(v.stuck, v.pairLabel, v.fraction);
  }

  // The record of a client's counts and the detector's word.
  function RecordFrom(total: nat, normalCount: nat, anomalous: nat, stuck: bool, pair: Option<Label>, eventLevel: bool): MacRecord {
    var reason := if stuck then Some(Repeated) else if eventLevel then Some(Anomaly) else None;
    MacRecord(total, normalCount, anomalous, stuck, pair, reason.Some?, reason)
  }

  lemma RecordExplains(all: seq<seq<Event>>, normalCount: nat, anomalous: nat, stuck: bool, pair: Option<Label>,
      eventLevel: bool, logProb: seq<seq<real>>, idx: map<EventType, nat>, cfg: Config)
    requires cfg.minScoreable >= 1
    requires normalCount == |Filter(LongEnough(cfg.minEpisodeLength), all)| <= |all|
    requires anomalous <= normalCount
    requires anomalous
      == Count(ScoresBelow(cfg.episodeThreshold, logProb, idx), Filter(LongEnough(cfg.minEpisodeLength), all))
    requires eventLevel <==>
      normalCount >= cfg.minScoreable && Share(anomalous, normalCount) >= cfg.outlierEpisodeRatio
    ensures Explains(RecordFrom(|all|, normalCount, anomalous, stuck, pair, eventLevel), all, logProb, idx, cfg)
  {
  }

  // None: the detector crashed, which aborts the whole run.
  method AnalyzeMac(events: seq<Event>, logProb: seq<seq<real>>, idx: map<EventType, nat>, cfg: Config)
    returns (r: Option<MacRecord>, ghost episodes: seq<seq<Event>>)
    requires CoversIndex(logProb, idx) && cfg.minScoreable >= 1
    ensures IsSegmentation(episodes, StableSort(NotLater, events))
    ensures r.Some? && events == [] ==> r.value == EMPTY_RECORD
    ensures r.Some? && events != [] ==>
      Explains(r.value, episodes, logProb, idx, cfg) && ReportsLoop(r.value, events, cfg)
    ensures r.None? <==> events != [] && Crashes(events, cfg.stuckMinEvents, cfg.stuckThreshold)
  {
    var all := SegmentOrdered(events);
    episodes := all;
    if all == [] {
      return Some(EMPTY_RECORD), episodes;
    }
    r := AnalyzeEpisodes(all, events, logProb, idx, cfg);
  }

  // Both signals over a client's episodes and events.
  method AnalyzeEpisodes(all: seq<seq<Event>>, events: seq<Event>, logProb: seq<seq<real>>, idx: map<EventType, nat>,
                         cfg: Config) returns (r: Option<MacRecord>)
    requires CoversIndex(logProb, idx) && cfg.minScoreable >= 1
    ensures r.Some? ==> Explains(r.value, all, logProb, idx, cfg) && ReportsLoop(r.value, events, cfg)
    ensures r.None? <==> Crashes(events, cfg.stuckMinEvents, cfg.stuckThreshold)
  {
    var normalCount, anomalous := ScoreEpisodes(all, logProb, idx, cfg);
    var eventLevel := normalCount >= cfg.minScoreable && Share(anomalous, normalCount) >= cfg.outlierEpisodeRatio;
    var loop := DetectStuckLoop(events, cfg.stuckMinEvents, cfg.stuckThreshold);
    if loop.Crashed? {
      return None;
    }
    var record := RecordFrom(|all|, normalCount, anomalous, loop.stuck, loop.pairLabel, eventLevel);
    RecordExplains(all, normalCount, anomalous, loop.stuck, loop.pairLabel, eventLevel, logProb, idx, cfg);
    LoopIsReported(loop, record, events, cfg);
    r := Some(record);
  }

  method ScoreEpisodes(all: seq<seq<Event>>, logProb: seq<seq<real>>, idx: map<EventType, nat>, cfg: Config)
    returns (normalCount: nat, anomalous: nat)
    requires CoversIndex(logProb, idx)
    ensures normalCount == |Filter(LongEnough(cfg.minEpisodeLength), all)| <= |all|
    ensures anomalous <= normalCount
    ensures anomalous == Count(ScoresBelow(cfg.episodeThreshold, logProb, idx), Filter(LongEnough(cfg.minEpisodeLength), all))
    ensures normalCount == Count((e: seq<Event>) => |e| >= cfg.minEpisodeLength, all)
    ensures anomalous ==
      Count((e: seq<Event>) => |e| >= cfg.minEpisodeLength && EpisodeScore(e, logProb, idx) < cfg.episodeThreshold, all)
  {
    normalCount, anomalous := 0, 0;
    ghost var long, low := LongEnough(cfg.minEpisodeLength), ScoresBelow(cfg.episodeThreshold, logProb, idx);
    for e := 0 to |all|
      invariant normalCount == |Filter(long, all[..e])|
      invariant anomalous == Count(low, Filter(long, all[..e])) <= normalCount
    {
      FilterStep(long, all, e);
      CountAppend(low, Filter(long, all[..e]), all[e]);
      if |all[e]| >= cfg.minEpisodeLength {
        normalCount := normalCount + 1;
        var score := ScoreEpisode(all[e], logProb, idx);
        if score < cfg.episodeThreshold {
          anomalous := anomalous + 1;
        }
      } else {
        assert Filter(long, all[..e]) + [] == Filter(long, all[..e]);
      }
    }
    assert all[..|all|] == all;
    FilterCount(long, all);
    CountSame(long, (e: seq<Event>) => |e| >= cfg.minEpisodeLength, all);
    CountFilter(low, long,
      (e: seq<Event>) => |e| >= cfg.minEpisodeLength && EpisodeScore(e, logProb, idx) < cfg.episodeThreshold, all);
  }

  // A record any analysis can have produced.
  ghost predicate Coherent(r: MacRecord, minScoreable: int) {
    && (r.isOutlier <==> r.reason.Some?)
    && (r.isOutlier ==> Evaluatable(r, minScoreable))
  }

  predicate Evaluatable(r: MacRecord, minScoreable: int) {
    r.scoreable >= minScoreable || r.isStuck
  }

  // Every outlier is evaluatable.
  lemma OutliersAreEvaluatable(r: MacRecord, episodes: seq<seq<Event>>, logProb: seq<seq<real>>,
                               idx: map<EventType, nat>, cfg: Config)
    requires Explains(r, episodes, logProb, idx, cfg) || r == EMPTY_RECORD
    ensures Coherent(r, cfg.minScoreable)
  {
  }

  // The record follows from the client's own stream.
  ghost predicate Analyzed(r: MacRecord, events: seq<Event>, logProb: seq<seq<real>>, idx: map<EventType, nat>, cfg: Config) {
    && Coherent(r, cfg.minScoreable)
    && (events == [] ==> r == EMPTY_RECORD)
    && (events != [] ==>
          ReportsLoop(r, events, cfg)
          && exists episodes ::
               IsSegmentation(episodes, StableSort(NotLater, events)) && Explains(r, episodes, logProb, idx, cfg))
  }

  // The client's stream makes the stuck-loop detector crash.
  ghost predicate Aborts(events: seq<Event>, cfg: Config) {
    events != [] && Crashes(events, cfg.stuckMinEvents, cfg.stuckThreshold)
  }

  ghost predicate IsClient(mac: string, streams: seq<(string, seq<Event>)>) {
    exists i :: 0 <= i < |streams| && streams[i].0 == mac
  }

  // One record for each client, each from that client's own stream.
  ghost predicate ResultsFor(results: map<string, MacRecord>, streams: seq<(string, seq<Event>)>,
                             follows: (MacRecord, seq<Event>) -> bool) {
    && (forall m :: m in results <==> IsClient(m, streams))
    && (forall i :: 0 <= i < |streams| ==>
          streams[i].0 in results && follows(results[streams[i].0], streams[i].1))
  }

  ghost function Follows(logProb: seq<seq<real>>, idx: map<EventType, nat>, cfg: Config): (MacRecord, seq<Event>) -> bool {
    (r: MacRecord, events: seq<Event>) => Analyzed(r, events, logProb, idx, cfg)
  }

  ghost predicate SomeStream(aborts: seq<Event> -> bool, streams: seq<(string, seq<Event>)>) {
    exists i :: 0 <= i < |streams| && aborts(streams[i].1)
  }

  ghost function AbortsUnder(cfg: Config): seq<Event> -> bool {
    (events: seq<Event>) => Aborts(events, cfg)
  }

  lemma StreamAdded(aborts: seq<Event> -> bool, streams: seq<(string, seq<Event>)>, next: (string, seq<Event>))
    ensures SomeStream(aborts, streams + [next]) <==> SomeStream(aborts, streams) || aborts(next.1)
  {
    var all := streams + [next];
    assert all[|streams|] == next;
    if i :| 0 <= i < |streams| && aborts(streams[i].1) {
      assert aborts(all[i].1);
    }
  }

  lemma ResultAdded(results: map<string, MacRecord>, streams: seq<(string, seq<Event>)>, next: (string, seq<Event>),
                    r: MacRecord, follows: (MacRecord, seq<Event>) -> bool)
    requires ResultsFor(results, streams, follows) && next.0 !in results && follows(r, next.1)
    ensures ResultsFor(results[next.0 := r], streams + [next], follows)
  {
    var all := streams + [next];
    assert all[|streams|] == next;
    forall m ensures IsClient(m, all) <==> IsClient(m, streams) || m == next.0 {
      if i :| 0 <= i < |streams| && streams[i].0 == m {
        assert all[i].0 == m;
      }
    }
  }

  // One client of a scope: a record that follows from its stream, or a crash.
  method AnalyzeClient(events: seq<Event>, logProb: seq<seq<real>>, idx: map<EventType, nat>, cfg: Config)
    returns (r: Option<MacRecord>)
    requires CoversIndex(logProb, idx) && cfg.minScoreable >= 1
    ensures r.None? <==> AbortsUnder(cfg)(events)
    ensures r.Some? ==> Follows(logProb, idx, cfg)(r.value, events)
  {
    ghost var episodes;
    r, episodes := AnalyzeMac(events, logProb, idx, cfg);
    if r.Some? {
      OutliersAreEvaluatable(r.value, episodes, logProb, idx, cfg);
      assert Analyzed(r.value, events, logProb, idx, cfg);
    }
  }

  lemma ScopeStep(results: map<string, MacRecord>, streams: seq<(string, seq<Event>)>, i: nat, r: Option<MacRecord>,
      aborts: seq<Event> -> bool, follows: (MacRecord, seq<Event>) -> bool)
    requires i < |streams| && streams[i].0 !in results
    requires ResultsFor(results, streams[..i], follows) && !SomeStream(aborts, streams[..i])
    requires r.None? <==> aborts(streams[i].1)
    requires r.Some? ==> follows(r.value, streams[i].1)
    ensures r.None? ==> SomeStream(aborts, streams)
    ensures r.Some? ==>
      && ResultsFor(results[streams[i].0 := r.value], streams[..i + 1], follows)
      && !SomeStream(aborts, streams[..i + 1])
  {
    assert streams[..i + 1] == streams[..i] + [streams[i]];
    StreamAdded(aborts, streams[..i], streams[i]);
    if r.Some? {
      ResultAdded(results, streams[..i], streams[i], r.value, follows);
    }
  }

  lemma NotYetAnalyzed(results: map<string, MacRecord>, streams: seq<(string, seq<Event>)>, i: nat,
      follows: (MacRecord, seq<Event>) -> bool)
    requires i < |streams| && ResultsFor(results, streams[..i], follows)
    requires forall j, k :: 0 <= j < k < |streams| ==> streams[j].0 != streams[k].0
    ensures streams[i].0 !in results
  {
  }

  // Every client of a scope, in turn; one crash aborts the run.
  method AnalyzeScope(streams: seq<(string, seq<Event>)>, logProb: seq<seq<real>>, idx: map<EventType, nat>, cfg: Config)
    returns (results: Option<map<string, MacRecord>>)
    requires CoversIndex(logProb, idx) && cfg.minScoreable >= 1
    requires forall i, j :: 0 <= i < j < |streams| ==> streams[i].0 != streams[j].0
    ensures results.None? <==> SomeStream(AbortsUnder(cfg), streams)
    ensures results.Some? ==> ResultsFor(results.value, streams, Follows(logProb, idx, cfg))
  {
    ghost var aborts, follows := AbortsUnder(cfg), Follows(logProb, idx, cfg);
    var out: map<string, MacRecord> := map[];
    for i := 0 to |streams|
      invariant ResultsFor(out, streams[..i], follows) && !SomeStream(aborts, streams[..i])
    {
      var r := AnalyzeClient(streams[i].1, logProb, idx, cfg);
      NotYetAnalyzed(out, streams, i, follows);
      ScopeStep(out, streams, i, r, aborts, follows);
      if r.None? {
        return None;
      }
      out := out[streams[i].0 := r.value];
    }
    assert streams[..|streams|] == streams;
    results := Some(out);
  }

  // ---- family rollups --------------------------------------------------------------

  datatype FamilyMarkov = FamilyMarkov(
    isOutlier: bool,
    reason: Option<Reason>,
    ratio: real,
    evaluatable: nat,
    anomalous: nat)

  const QUIET_FAMILY := FamilyMarkov(false, None, 0.0, 0, 0)

  // Ties go to "repeated".
  function DominantReason(repeated: nat, anomaly: nat): Option<Reason> {
    if repeated == 0 && anomaly == 0 then None else if repeated >= anomaly then Some(Repeated) else Some(Anomaly)
  }

  predicate Has(r: MacRecord, reason: Reason) {
    r.isOutlier && r.reason == Some(reason)
  }

  function RecordOf(results: map<string, MacRecord>, mac: string): MacRecord {
    if mac in results then results[mac] else EMPTY_RECORD
  }

  function IsEvaluatable(results: map<string, MacRecord>, minScoreable: int): string -> bool {
    m => m in results && Evaluatable(results[m], minScoreable)
  }

  function IsAnomalous(results: map<string, MacRecord>, minScoreable: int): string -> bool {
    m => m in results && Evaluatable(results[m], minScoreable) && results[m].isOutlier
  }

  function IsAnomalousFor(results: map<string, MacRecord>, minScoreable: int, reason: Reason): string -> bool {
    m => m in results && Evaluatable(results[m], minScoreable) && Has(results[m], reason)
  }

  // run_markov_analysis: anomalous clients over all clients of the family.
  function TotalRollup(macs: seq<string>, results: map<string, MacRecord>, minScoreable: int, threshold: real): FamilyMarkov {
    if macs == [] then QUIET_FAMILY else
    var anomalous := Count(IsAnomalous(results, minScoreable), macs);
    FamilyMarkov(
      Share(anomalous, |macs|) >= threshold,
      if Share(anomalous, |macs|) >= threshold then ReasonAmong(macs, results, minScoreable) else None,
      Round4(Share(anomalous, |macs|)),
      Count(IsEvaluatable(results, minScoreable), macs),
      anomalous)
  }

  // score(), service-account families: anomalous clients over the evaluatable ones.
  function ServiceAccountRollup(macs: seq<string>, results: map<string, MacRecord>, minScoreable: int, threshold: real): FamilyMarkov {
    var evaluatable := Count(IsEvaluatable(results, minScoreable), macs);
    var anomalous := Count(IsAnomalous(results, minScoreable), macs);
    var ratio := ShareOrZero(anomalous, evaluatable);
    FamilyMarkov(
      ratio >= threshold,
      if ratio >= threshold then ReasonAmong(macs, results, minScoreable) else None,
      Round4(ratio), evaluatable, anomalous)
  }

  // The more frequent reason among the flagged clients, if there is one.
  function ReasonAmong(macs: seq<string>, results: map<string, MacRecord>, minScoreable: int): Option<Reason> {
    if Count(IsAnomalous(results, minScoreable), macs) == 0 then None else
    if Count(IsAnomalousFor(results, minScoreable, Repeated), macs) >=
       Count(IsAnomalousFor(results, minScoreable, Anomaly), macs)
    then Some(Repeated) else Some(Anomaly)
  }

  // A rollup's count is that of the flagged evaluatable clients, and a family without one never
  // reaches a positive threshold.
  lemma TotalRollupCounts(macs: seq<string>, results: map<string, MacRecord>, minScoreable: int, threshold: real)
    ensures var f := TotalRollup(macs, results, minScoreable, threshold);
      && f.anomalous == Count(IsAnomalous(results, minScoreable), macs)
      && (threshold > 0.0 && f.isOutlier ==> f.anomalous > 0)
  {
    if macs != [] {
      ShareOrder(0, 0, |macs|);
    }
  }

  lemma ServiceAccountRollupCounts(macs: seq<string>, results: map<string, MacRecord>, minScoreable: int, threshold: real)
    ensures var f := ServiceAccountRollup(macs, results, minScoreable, threshold);
      && f.anomalous == Count(IsAnomalous(results, minScoreable), macs)
      && (threshold > 0.0 && f.isOutlier ==> f.anomalous > 0)
  {
    var evaluatable := Count(IsEvaluatable(results, minScoreable), macs);
    if evaluatable > 0 {
      ShareOrder(0, 0, evaluatable);
    }
  }

  method CountFlagged(macs: seq<string>, results: map<string, MacRecord>, minScoreable: int)
    returns (evaluatable: nat, anomalous: nat, repeated: nat, anomaly: nat)
    ensures evaluatable == Count(IsEvaluatable(results, minScoreable), macs)
    ensures anomalous == Count(IsAnomalous(results, minScoreable), macs)
    ensures repeated == Count(IsAnomalousFor(results, minScoreable, Repeated), macs)
    ensures anomaly == Count(IsAnomalousFor(results, minScoreable, Anomaly), macs)
  {
    evaluatable, anomalous, repeated, anomaly := 0, 0, 0, 0;
    for i := 0 to |macs|
      invariant evaluatable == Count(IsEvaluatable(results, minScoreable), macs[..i])
      invariant anomalous == Count(IsAnomalous(results, minScoreable), macs[..i])
      invariant repeated == Count(IsAnomalousFor(results, minScoreable, Repeated), macs[..i])
      invariant anomaly == Count(IsAnomalousFor(results, minScoreable, Anomaly), macs[..i])
    {
      var m := macs[i];
      assert macs[..i + 1][..i] == macs[..i];
      if m in results && Evaluatable(results[m], minScoreable) {
        evaluatable := evaluatable + 1;
        if results[m].isOutlier {
          anomalous := anomalous + 1;
          match results[m].reason
          case Some(Repeated) => repeated := repeated + 1;
          case Some(Anomaly) => anomaly := anomaly + 1;
          case None =>
        }
      }
    }
    assert macs[..|macs|] == macs;
  }

  // ---- the rollups in the records' own fields ---------------------------------------------

  ghost function Judgeable(results: map<string, MacRecord>, minScoreable: int): string -> bool {
    m => m in results && (results[m].scoreable >= minScoreable || results[m].isStuck)
  }

  ghost function Deviant(results: map<string, MacRecord>, minScoreable: int): string -> bool {
    m => Judgeable(results, minScoreable)(m) && results[m].isOutlier
  }

  ghost function DeviantFor(results: map<string, MacRecord>, minScoreable: int, reason: Reason): string -> bool {
    m => m in results && Deviant(results, minScoreable)(m) && results[m].reason == Some(reason)
  }

  // The flagged share of `whole`, without dividing, against the threshold; the more frequent
  // reason among the flagged, "repeated" on a tie.
  ghost predicate AddsUp(f: FamilyMarkov, whole: nat, evaluatable: nat, anomalous: nat, repeated: nat, anomaly: nat,
                         threshold: real) {
    && f.evaluatable == evaluatable && f.anomalous == anomalous
    && (whole == 0 ==> f.ratio == 0.0)
    && (whole > 0 ==> f.ratio == Round4(anomalous as real / whole as real))
    && (whole > 0 ==> (f.isOutlier <==> anomalous as real >= threshold * whole as real))
    && f.reason == (
      if !f.isOutlier || anomalous == 0 then None else if repeated >= anomaly then Some(Repeated) else Some(Anomaly))
  }

  ghost predicate RollsUpOver(f: FamilyMarkov, whole: nat, macs: seq<string>, results: map<string, MacRecord>,
                              minScoreable: int, threshold: real) {
    AddsUp(f, whole, Count(Judgeable(results, minScoreable), macs), Count(Deviant(results, minScoreable), macs),
      Count(DeviantFor(results, minScoreable, Repeated), macs), Count(DeviantFor(results, minScoreable, Anomaly), macs),
      threshold)
  }

  lemma RatioAddsUp(whole: nat, evaluatable: nat, anomalous: nat, repeated: nat, anomaly: nat, threshold: real,
                    reason: Option<Reason>)
    requires whole > 0
    requires reason ==
      if Share(anomalous, whole) < threshold || anomalous == 0 then None
      else if repeated >= anomaly then Some(Repeated) else Some(Anomaly)
    ensures AddsUp(
      FamilyMarkov(Share(anomalous, whole) >= threshold, reason, Round4(Share(anomalous, whole)), evaluatable, anomalous),
      whole, evaluatable, anomalous, repeated, anomaly, threshold)
  {
    ShareReaches(anomalous, whole, threshold);
  }

  lemma CountsByField(macs: seq<string>, results: map<string, MacRecord>, minScoreable: int)
    ensures Count(IsEvaluatable(results, minScoreable), macs) == Count(Judgeable(results, minScoreable), macs)
    ensures Count(IsAnomalous(results, minScoreable), macs) == Count(Deviant(results, minScoreable), macs)
    ensures Count(IsAnomalousFor(results, minScoreable, Repeated), macs) == Count(DeviantFor(results, minScoreable, Repeated), macs)
    ensures Count(IsAnomalousFor(results, minScoreable, Anomaly), macs) == Count(DeviantFor(results, minScoreable, Anomaly), macs)
  {
    CountSame(IsEvaluatable(results, minScoreable), Judgeable(results, minScoreable), macs);
    CountSame(IsAnomalous(results, minScoreable), Deviant(results, minScoreable), macs);
    CountSame(IsAnomalousFor(results, minScoreable, Repeated), DeviantFor(results, minScoreable, Repeated), macs);
    CountSame(IsAnomalousFor(results, minScoreable, Anomaly), DeviantFor(results, minScoreable, Anomaly), macs);
  }

  lemma ShareReaches(part: nat, whole: nat, threshold: real)
    requires whole > 0
    ensures Share(part, whole) >= threshold <==> part as real >= threshold * whole as real
  {
    QuotientBelow(part as real, whole as real, threshold);
  }

  lemma TotalRollupByField(macs: seq<string>, results: map<string, MacRecord>, minScoreable: int, threshold: real)
    ensures RollsUpOver(TotalRollup(macs, results, minScoreable, threshold), |macs|, macs, results, minScoreable, threshold)
  {
    CountsByField(macs, results, minScoreable);
    if macs != [] {
      RatioAddsUp(|macs|, Count(Judgeable(results, minScoreable), macs), Count(Deviant(results, minScoreable), macs),
        Count(DeviantFor(results, minScoreable, Repeated), macs), Count(DeviantFor(results, minScoreable, Anomaly), macs),
        threshold, TotalRollup(macs, results, minScoreable, threshold).reason);
    }
  }

  lemma ServiceAccountRollupByField(macs: seq<string>, results: map<string, MacRecord>, minScoreable: int, threshold: real)
    ensures RollsUpOver(ServiceAccountRollup(macs, results, minScoreable, threshold),
      Count(Judgeable(results, minScoreable), macs), macs, results, minScoreable, threshold)
  {
    CountsByField(macs, results, minScoreable);
    AnomalousWithinEvaluatable(macs, results, minScoreable);
    if Count(Judgeable(results, minScoreable), macs) > 0 {
      RatioAddsUp(Count(Judgeable(results, minScoreable), macs), Count(Judgeable(results, minScoreable), macs),
        Count(Deviant(results, minScoreable), macs), Count(DeviantFor(results, minScoreable, Repeated), macs),
        Count(DeviantFor(results, minScoreable, Anomaly), macs),
        threshold, ServiceAccountRollup(macs, results, minScoreable, threshold).reason);
    } else {
      NoShareRounds();
    }
  }

  lemma NoShareRounds()
    ensures Round4(0.0) == 0.0
  {
  }

  method RollUpFamily(macs: seq<string>, results: map<string, MacRecord>, minScoreable: int, threshold: real)
    returns (f: FamilyMarkov)
    ensures f == TotalRollup(macs, results, minScoreable, threshold)
    ensures RollsUpOver(f, |macs|, macs, results, minScoreable, threshold)
    ensures macs == [] ==> !f.isOutlier
  {
    TotalRollupByField(macs, results, minScoreable, threshold);
    var evaluatable, anomalous, repeated, anomaly := CountFlagged(macs, results, minScoreable);
    if |macs| == 0 {
      return QUIET_FAMILY;
    }
    var ratio := Share(anomalous, |macs|);
    var isOutlier := ratio >= threshold;
    var reason := if isOutlier && anomalous > 0 then Some(if repeated >= anomaly then Repeated else Anomaly) else None;
    f := FamilyMarkov(isOutlier, reason, Round4(ratio), evaluatable, anomalous);
  }

  method RollUpServiceAccount(macs: seq<string>, results: map<string, MacRecord>, minScoreable: int, threshold: real)
    returns (f: FamilyMarkov)
    ensures f == ServiceAccountRollup(macs, results, minScoreable, threshold)
    ensures RollsUpOver(f, f.evaluatable, macs, results, minScoreable, threshold)
    ensures f.evaluatable == 0 ==> (f.isOutlier <==> threshold <= 0.0)
  {
    ServiceAccountRollupByField(macs, results, minScoreable, threshold);
    var evaluatable, anomalous, repeated, anomaly := CountFlagged(macs, results, minScoreable);
    var ratio := ShareOrZero(anomalous, evaluatable);
    var isOutlier := ratio >= threshold;
    var reason := if isOutlier && anomalous > 0 then Some(if repeated >= anomaly then Repeated else Anomaly) else None;
    f := FamilyMarkov(isOutlier, reason, Round4(ratio), evaluatable, anomalous);
  }

  lemma SmallerWholeLargerShare(part: nat, few: nat, many: nat)
    requires 0 < few <= many
    ensures Share(part, few) >= Share(part, many)
    ensures Share(part, few) == Share(part, many) <==> part == 0 || few == many
  {
    SmallerDivisorLargerQuotient(part as real, few as real, many as real);
  }

  lemma SmallerDivisorLargerQuotient(p: real, a: real, b: real)
    requires p >= 0.0 && 0.0 < a <= b
    ensures p / a >= p / b
    ensures p / a == p / b <==> p == 0.0 || a == b
  {
    var x, y := p / a, p / b;
    assert x * a == p == y * b;
    assert (x - y) * a == y * (b - a);
    ProductSign(y, b);
    ProductSign(x - y, a);
    if b > a {
      ProductSign(y, b - a);
    }
  }

  lemma AnomalousWithinEvaluatable(macs: seq<string>, results: map<string, MacRecord>, minScoreable: int)
    ensures Count(IsAnomalous(results, minScoreable), macs) <= Count(IsEvaluatable(results, minScoreable), macs) <= |macs|
  {
    CountMonotone(IsAnomalous(results, minScoreable), IsEvaluatable(results, minScoreable), macs);
    FilterCount(IsEvaluatable(results, minScoreable), macs);
  }

  // Before rounding, the service-account ratio is never below the total-based one, and equal
  // to it just when no client is flagged or every client is evaluatable. So it flags more.
  lemma ServiceAccountRatioIsAtLeastTotal(macs: seq<string>, results: map<string, MacRecord>, minScoreable: int, threshold: real)
    requires macs != []
    ensures var e, a := Count(IsEvaluatable(results, minScoreable), macs), Count(IsAnomalous(results, minScoreable), macs);
      && a <= e <= |macs|
      && (e > 0 ==> Share(a, e) >= Share(a, |macs|) && (Share(a, e) == Share(a, |macs|) <==> a == 0 || e == |macs|))
    ensures TotalRollup(macs, results, minScoreable, threshold).isOutlier ==>
      ServiceAccountRollup(macs, results, minScoreable, threshold).isOutlier
  {
    AnomalousWithinEvaluatable(macs, results, minScoreable);
    var e, a := Count(IsEvaluatable(results, minScoreable), macs), Count(IsAnomalous(results, minScoreable), macs);
    if e > 0 {
      SmallerWholeLargerShare(a, e, |macs|);
    }
  }

  // ---- the site summary's own rollup over anomaly records -----------------------------

  datatype AnomalyRecord = AnomalyRecord(
    family: string, scoreable: nat, isStuck: bool, isOutlier: bool, reason: Option<Reason>)

  datatype Member = Member(mac: string, family: string)

  // The merge step of score(): absent Markov results leave the defaults.
  function AnomalyOf(results: map<string, MacRecord>): Member -> AnomalyRecord {
    (m: Member) => var r := RecordOf(results, m.mac);
                   AnomalyRecord(m.family, r.scoreable, r.isStuck, r.isOutlier, r.reason)
  }

  predicate AnyRecord(r: AnomalyRecord) { true }
  predicate Measured(r: AnomalyRecord) { r.scoreable > 0 || r.isStuck }
  predicate Flagged(r: AnomalyRecord) { r.isOutlier }
  predicate FlaggedRepeated(r: AnomalyRecord) { r.isOutlier && r.reason == Some(Repeated) }
  predicate FlaggedAnomaly(r: AnomalyRecord) { r.isOutlier && r.reason == Some(Anomaly) }

  function Within(family: string, q: AnomalyRecord -> bool): AnomalyRecord -> bool {
    (r: AnomalyRecord) => r.family == family && q(r)
  }

  datatype Tallies = Tallies(total: nat, measured: nat, flagged: nat, repeated: nat, anomaly: nat)

  function TalliesOf(records: seq<AnomalyRecord>, family: string): Tallies {
    Tallies(
      Count(Within(family, AnyRecord), records),
      Count(Within(family, Measured), records),
      Count(Within(family, Flagged), records),
      Count(Within(family, FlaggedRepeated), records),
      Count(Within(family, FlaggedAnomaly), records))
  }

  function AddTo(t: Tallies, r: AnomalyRecord): Tallies {
    Tallies(
      t.total + 1,
      t.measured + if r.scoreable > 0 || r.isStuck then 1 else 0,
      t.flagged + if r.isOutlier then 1 else 0,
      t.repeated + if r.isOutlier && r.reason == Some(Repeated) then 1 else 0,
      t.anomaly + if r.isOutlier && r.reason == Some(Anomaly) then 1 else 0)
  }

  function SummaryOf(t: Tallies, threshold: real, minSize: int): FamilyMarkov {
    var ratio := ShareOrZero(t.flagged, t.total);
    var isOutlier := ratio >= threshold && t.total >= minSize;
    FamilyMarkov(isOutlier, if isOutlier then DominantReason(t.repeated, t.anomaly) else None,
                 Round4(ratio), t.measured, t.flagged)
  }

  ghost function OfFamily(family: string): AnomalyRecord -> bool {
    (r: AnomalyRecord) => r.family == family
  }

  ghost function MeasuredOf(family: string): AnomalyRecord -> bool {
    (r: AnomalyRecord) => r.family == family && (r.scoreable > 0 || r.isStuck)
  }

  ghost function OutlierOf(family: string): AnomalyRecord -> bool {
    (r: AnomalyRecord) => r.family == family && r.isOutlier
  }

  ghost function OutlierFor(family: string, reason: Reason): AnomalyRecord -> bool {
    (r: AnomalyRecord) => r.family == family && r.isOutlier && r.reason == Some(reason)
  }

  ghost predicate SumsUp(f: FamilyMarkov, t: Tallies, threshold: real, minSize: int) {
    && f.evaluatable == t.measured && f.anomalous == t.flagged
    && t.total > 0 && f.ratio == Round4(t.flagged as real / t.total as real)
    && (f.isOutlier <==> t.flagged as real >= threshold * t.total as real && t.total >= minSize)
    && f.reason == (
      if !f.isOutlier || (t.repeated == 0 && t.anomaly == 0) then None
      else if t.repeated >= t.anomaly then Some(Repeated) else Some(Anomaly))
  }

  // The entry of a family that has a record, in the records' own fields.
  ghost predicate SumsUpFamily(f: FamilyMarkov, records: seq<AnomalyRecord>, family: string, threshold: real, minSize: int) {
    SumsUp(f, Tallies(
      Count(OfFamily(family), records), Count(MeasuredOf(family), records), Count(OutlierOf(family), records),
      Count(OutlierFor(family, Repeated), records), Count(OutlierFor(family, Anomaly), records)), threshold, minSize)
  }

  lemma SummaryAddsUp(t: Tallies, threshold: real, minSize: int)
    requires t.total > 0
    ensures SumsUp(SummaryOf(t, threshold, minSize), t, threshold, minSize)
  {
    ShareReaches(t.flagged, t.total, threshold);
  }

  lemma RecordByField(r: AnomalyRecord)
    ensures AnyRecord(r) && (Measured(r) <==> r.scoreable > 0 || r.isStuck) && (Flagged(r) <==> r.isOutlier)
    ensures FlaggedRepeated(r) <==> r.isOutlier && r.reason == Some(Repeated)
    ensures FlaggedAnomaly(r) <==> r.isOutlier && r.reason == Some(Anomaly)
  {
  }

  lemma TalliesByField(records: seq<AnomalyRecord>, family: string)
    ensures TalliesOf(records, family) == Tallies(
      Count(OfFamily(family), records), Count(MeasuredOf(family), records), Count(OutlierOf(family), records),
      Count(OutlierFor(family, Repeated), records), Count(OutlierFor(family, Anomaly), records))
  {
    forall r: AnomalyRecord
      ensures Within(family, AnyRecord)(r) <==> OfFamily(family)(r)
      ensures Within(family, Measured)(r) <==> MeasuredOf(family)(r)
      ensures Within(family, Flagged)(r) <==> OutlierOf(family)(r)
      ensures Within(family, FlaggedRepeated)(r) <==> OutlierFor(family, Repeated)(r)
      ensures Within(family, FlaggedAnomaly)(r) <==> OutlierFor(family, Anomaly)(r)
    {
      RecordByField(r);
    }
    CountSame(Within(family, AnyRecord), OfFamily(family), records);
    CountSame(Within(family, Measured), MeasuredOf(family), records);
    CountSame(Within(family, Flagged), OutlierOf(family), records);
    CountSame(Within(family, FlaggedRepeated), OutlierFor(family, Repeated), records);
    CountSame(Within(family, FlaggedAnomaly), OutlierFor(family, Anomaly), records);
  }

  lemma SummaryByField(records: seq<AnomalyRecord>, family: string, threshold: real, minSize: int)
    requires HasRecord(records, family)
    ensures SumsUpFamily(SummaryOf(TalliesOf(records, family), threshold, minSize), records, family, threshold, minSize)
  {
    var r :| r in records && r.family == family;
    CountPositive(OfFamily(family), records, r);
    TalliesByField(records, family);
    SummaryAddsUp(TalliesOf(records, family), threshold, minSize);
  }

  // One pass over every record of the scope, then one entry per family met.
  method RollUpSummary(records: seq<AnomalyRecord>, threshold: real, minSize: int) returns (out: map<string, FamilyMarkov>)
    ensures forall f :: f in out <==> HasRecord(records, f)
    ensures forall f :: f in out ==> out[f] == SummaryOf(TalliesOf(records, f), threshold, minSize)
    ensures forall f :: f in out ==> SumsUpFamily(out[f], records, f, threshold, minSize)
  {
    var tallies: map<string, Tallies> := map[];
    for i := 0 to |records|
      invariant Tallied(tallies, records[..i])
    {
      var r := records[i];
      assert records[..i + 1] == records[..i] + [r];
      TalliedStep(tallies, records[..i], r);
      tallies := tallies[r.family := AddTo(if r.family in tallies then tallies[r.family] else NO_TALLIES, r)];
    }
    assert records[..|records|] == records;
    out := map f | f in tallies :: SummaryOf(tallies[f], threshold, minSize);
    SummariesByField(out, records, threshold, minSize);
  }

  const NO_TALLIES := Tallies(0, 0, 0, 0, 0)

  ghost predicate HasRecord(records: seq<AnomalyRecord>, family: string) {
    exists r :: r in records && r.family == family
  }

  // Every family met has its tallies, and no other has any.
  ghost predicate Tallied(tallies: map<string, Tallies>, records: seq<AnomalyRecord>) {
    && (forall f :: f in tallies <==> HasRecord(records, f))
    && forall f :: TalliesOf(records, f) == if f in tallies then tallies[f] else NO_TALLIES
  }

  lemma TalliedStep(tallies: map<string, Tallies>, records: seq<AnomalyRecord>, r: AnomalyRecord)
    requires Tallied(tallies, records)
    ensures Tallied(
      tallies[r.family := AddTo(if r.family in tallies then tallies[r.family] else NO_TALLIES, r)], records + [r])
  {
    assert r in records + [r];
    forall f
      ensures HasRecord(records + [r], f) <==> HasRecord(records, f) || r.family == f
      ensures TalliesOf(records + [r], f) == if r.family == f then AddTo(TalliesOf(records, f), r) else TalliesOf(records, f)
    {
      TalliesStep(records, r, f);
    }
  }

  lemma SummariesByField(out: map<string, FamilyMarkov>, records: seq<AnomalyRecord>, threshold: real, minSize: int)
    requires forall f :: f in out ==> HasRecord(records, f)
    requires forall f :: f in out ==> out[f] == SummaryOf(TalliesOf(records, f), threshold, minSize)
    ensures forall f :: f in out ==> SumsUpFamily(out[f], records, f, threshold, minSize)
  {
    forall f | f in out ensures SumsUpFamily(out[f], records, f, threshold, minSize) {
      SummaryByField(records, f, threshold, minSize);
    }
  }

  lemma WithinStep(f: string, q: AnomalyRecord -> bool, records: seq<AnomalyRecord>, r: AnomalyRecord)
    ensures Count(Within(f, q), records + [r]) == Count(Within(f, q), records) + if r.family == f && q(r) then 1 else 0
  {
    CountAppend(Within(f, q), records, r);
  }

  lemma TalliesStep(records: seq<AnomalyRecord>, r: AnomalyRecord, f: string)
    ensures TalliesOf(records + [r], f) == if r.family == f then AddTo(TalliesOf(records, f), r) else TalliesOf(records, f)
  {
    WithinStep(f, AnyRecord, records, r);
    WithinStep(f, Measured, records, r);
    WithinStep(f, Flagged, records, r);
    WithinStep(f, FlaggedRepeated, records, r);
    WithinStep(f, FlaggedAnomaly, records, r);
    assert AnyRecord(r) && (Measured(r) <==> r.scoreable > 0 || r.isStuck) && (Flagged(r) <==> r.isOutlier);
    assert FlaggedRepeated(r) <==> r.isOutlier && r.reason == Some(Repeated);
    assert FlaggedAnomaly(r) <==> r.isOutlier && r.reason == Some(Anomaly);
  }

  function InFamily(family: string): Member -> bool {
    (m: Member) => m.family == family
  }

  function MacOf(m: Member): string { m.mac }

  function FamilyMacs(members: seq<Member>, family: string): seq<string> {
    Map(MacOf, Filter(InFamily(family), members))
  }

  // Counting records of a family is counting its clients.
  lemma {:induction false} RecordsMatchClients(
    members: seq<Member>, results: map<string, MacRecord>, family: string, q: AnomalyRecord -> bool, p: string -> bool)
    requires forall m :: m in members && m.family == family ==> (q(AnomalyOf(results)(m)) <==> p(m.mac))
    ensures Count(Within(family, q), Map(AnomalyOf(results), members)) == Count(p, FamilyMacs(members, family))
  {
    if members != [] {
      var init, last := members[..|members| - 1], members[|members| - 1];
      RecordsMatchClients(init, results, family, q, p);
      assert Map(AnomalyOf(results), members) == Map(AnomalyOf(results), init) + [AnomalyOf(results)(last)];
      CountAppend(Within(family, q), Map(AnomalyOf(results), init), AnomalyOf(results)(last));
      if last.family == family {
        assert FamilyMacs(members, family) == FamilyMacs(init, family) + [last.mac];
        CountAppend(p, FamilyMacs(init, family), last.mac);
      } else {
        assert FamilyMacs(members, family) == FamilyMacs(init, family);
      }
    }
  }

  lemma ReasonsCoverFlagged(macs: seq<string>, results: map<string, MacRecord>, minScoreable: int)
    requires forall m :: m in results ==> Coherent(results[m], minScoreable)
    ensures Count(IsAnomalous(results, minScoreable), macs) ==
      Count(IsAnomalousFor(results, minScoreable, Repeated), macs) + Count(IsAnomalousFor(results, minScoreable, Anomaly), macs)
    decreases |macs|
  {
    if macs != [] {
      ReasonsCoverFlagged(macs[..|macs| - 1], results, minScoreable);
      var m := macs[|macs| - 1];
      if m in results && results[m].isOutlier {
        match results[m].reason
        case Some(Repeated) =>
        case Some(Anomaly) =>
      }
    }
  }

  // The rollup recomputed from anomaly records agrees with the one run_markov_analysis made:
  // same ratio and flagged count, same reason, same flag up to the minimum finding size.
  lemma SummaryAgreesWithAnalysis(
    members: seq<Member>, results: map<string, MacRecord>, family: string, minScoreable: int, threshold: real, minSize: int)
    requires minScoreable >= 1
    requires forall m :: m in results ==> Coherent(results[m], minScoreable)
    requires FamilyMacs(members, family) != []
    ensures var macs := FamilyMacs(members, family);
      var a := TotalRollup(macs, results, minScoreable, threshold);
      var b := SummaryOf(TalliesOf(Map(AnomalyOf(results), members), family), threshold, minSize);
      && b.anomalous == a.anomalous && b.ratio == a.ratio
      && (b.isOutlier <==> a.isOutlier && |macs| >= minSize)
      && (b.isOutlier ==> b.reason == a.reason)
      && b.evaluatable >= a.evaluatable
  {
    var macs := FamilyMacs(members, family);
    RecordsMatchClients(members, results, family, AnyRecord, (m: string) => true);
    CountAll((m: string) => true, macs);
    RecordsMatchClients(members, results, family, Flagged, IsAnomalous(results, minScoreable));
    RecordsMatchClients(members, results, family, FlaggedRepeated, IsAnomalousFor(results, minScoreable, Repeated));
    RecordsMatchClients(members, results, family, FlaggedAnomaly, IsAnomalousFor(results, minScoreable, Anomaly));
    var measured := (m: string) => m in results && Evaluatable(results[m], 1);
    RecordsMatchClients(members, results, family, Measured, measured);
    CountMonotone(IsEvaluatable(results, minScoreable), measured, macs);
    ReasonsCoverFlagged(macs, results, minScoreable);
  }
}

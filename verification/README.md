# Sasquatch client-anomaly pipeline: a verified model

Sasquatch collects wireless client events from the Mist cloud, stores them, looks for clients
that behave unlike their peers, and shows and sends alerts. This project models the parts of
`sasquatch/client_anomaly` whose correctness is not visible in one function body and proves what
they guarantee. Each Dafny module follows one component:

- `GlobalLock` - the Redis key that serialises collection and detection, as a class, and all tasks
  of the backend as a timed transition system with expiry, forced unlock, crash and restart.
- `FanOut` - the scoring fan-out behind a semaphore of four.
- `Episodes`, `Scoring`, `StuckLoop`, `MarkovRollup` - segmentation, transition counts, Laplace
  smoothing, episode scores, the three-pass stuck-loop detector, and the three family rollups.
- `Dedup`, `Ingest`, `Batching` - deduplication, the batch writer over a keyed table with
  insert-or-ignore, and what cutting the stream into batches can and cannot change.
- `Vectors`, `Bursts` - the two frequency vectors and the five-minute DHCP burst.
- `Health`, `HealthMerge`, `ServiceAlarms` - per-family health, its merge over sites against one
  rollup of the pooled clients, and three formulations of the service alarm.
- `Summary` - the one-pass aggregate behind the summary table against the per-scope one.
- `DualRecords`, `Detector`, `MarkovFlags`, `Findings` - composite record keys, propagation of
  verdicts to dual records, the Markov family flags, the merge and the finding rollup.
- `Alerts` - site badge, alert feed and webhook: three loops over results stored under sanitised
  WLAN names, as any history of writes leaves them.
- `OrderBy`, `HealthSort` - the ORDER BY resolver of the drilldown, the row sort that must agree
  with it, and the sort by health against the health the page shows.
- `Vocabulary`, `Tables` - event types and categories, and how the tables that repeat them agree.
- `Sequences`, `Counters`, `Ratios`, `Rounding` - folds and the stable sort, insertion-ordered
  counters, shares, rounding to four places.

Ratios are reals and `round(x, 4)` is rounding half to even to a multiple of 0.0001.

Main results:

1. With every deadline kept and no forced unlock at most one task is inside an operation in every
   run. Without any such hypothesis the tasks inside never outnumber the lost keys by more than one,
   and that bound is attained.
2. Any two batchings of an event stream store the same keys if and only if no accepted variant is
   hidden by a rejected one; replay then inserts nothing. Every new row is the preferred variant of
   the first site and batch that store its key, and each site's count grows by the number of its rows.
3. On stored events the three passes of the stuck-loop detector are one criterion. For any stream
   they are, at every minimum and every positive threshold, exactly when no dominant raw failing pair
   outnumbers the pairs with a failure category; a stream of an ignored failure type shows the
   difference.
4. No baseline can learn a transition into a boundary event, and smoothing leaves every such
   transition on the floor of its row.
5. The organisation health merge is exact for counts and within one unit of the fourth place for
   means, for any number and size of sites. Three one-client sites attain the unit against one rollup
   of their pool.
6. A service alarm from the rounded vector and one from the counts differ exactly on a sliver that
   needs more than 10000 outcome events.
7. The one-pass summary equals the per-scope one unless the scope has no WLAN name and rows without
   a WLAN exist; only the device family can depend on row order, and it is stated when.
8. Every finding has max(dbscan, markov) <= union <= affected <= total, where the Markov count comes
   from a rollup of its own over the clients' results and is proved to be the number of flagged
   records. Outside the manufacturer rollups the noise ratio is the DBSCAN ratio, even through the
   service-account fallback.
9. Results are stored under sanitised WLAN names, so two names can share an entry. In every history
   of writes a WLAN's badge is the number of alerts the feed lists for it exactly when it has none,
   or it wrote the findings last and no other enumerated name has its key; two names that differ
   only in a blank against a hyphen break it, and the feed is always as long as all badges together.
   The webhook set is the alert set cut at its own floor, and stricter gates only remove alerts,
   from both feeds and from the webhook.
10. Every finding that scoring produces is an alert exactly when its family is named and large enough,
   its health fails, and the centroid detector flagged it or the members flagged by DBSCAN or Markov
   reach the ratio.

## Model

| member | source | states |
|---|---|---|
| GlobalLock.LockKey.constructor | sasquatch/client_anomaly/scheduler.py:72-86 | before any task sets it the key is absent |
| GlobalLock.LockKey.Acquire | sasquatch/client_anomaly/scheduler.py:72-85 | wins exactly when there is no key or it has expired, then the key carries the operation for six hours; a loser leaves the key as it was |
| GlobalLock.LockKey.Release | sasquatch/client_anomaly/scheduler.py:88-92 | deletes without an owner check: no key at any later time |
| GlobalLock.LockKey.Transfer | sasquatch/client_anomaly/scheduler.py:117-131 | rewrites operation, start and expiry in one SET, whatever was there |
| GlobalLock.LockKey.ClearStale | sasquatch/client_anomaly/scheduler.py:95-114 | after startup no key of an earlier process is visible, then or later |
| GlobalLock.StepKeepsLock | sasquatch/client_anomaly/scheduler.py:72-131 | each step of any task, the clock, a crash or a boot keeps: key present exactly when one task is inside, its value that task's operation, its expiry that task's deadline |
| GlobalLock.MutualExclusion | sasquatch/client_anomaly/scheduler.py:995-1099 | in every run that keeps its deadlines and sees no forced unlock under a task, at most one task is inside and the key names its current operation |
| GlobalLock.TransferLeavesNoGap | sasquatch/client_anomaly/api/routes.py:280-313 | before and after the collect-to-detect hand-over another task is turned away, and being turned away never touches the key |
| GlobalLock.OperationByKind | sasquatch/client_anomaly/scheduler.py:293-299 | in every run a task inside is detecting exactly when it is a detect pipeline or has handed its lock over, which full collects and event polls alone can do |
| GlobalLock.InsidersAreBounded | sasquatch/client_anomaly/scheduler.py:88-92 | with no timing hypothesis: insiders are at most the lost keys plus one while a key is present |
| GlobalLock.SecondEntryIffKeyLost | sasquatch/client_anomaly/scheduler.py:72-92 | in every run: another task gets in beside those inside if and only if no live key is left, and then at least as many keys were lost as there are tasks inside |
| GlobalLock.Backend.constructor | sasquatch/main.py:30-41 | a started process has nobody inside and whatever key survived |
| GlobalLock.Backend.Enter | sasquatch/client_anomaly/scheduler.py:995-1010 | trying the lock is the Acquire step: inside with the key set, or turned away with the key untouched |
| GlobalLock.Backend.HandOver | sasquatch/client_anomaly/api/routes.py:280-283 | the hand-over helper performs the Transfer step |
| GlobalLock.Backend.Leave | sasquatch/client_anomaly/api/routes.py:306-313 | the release helper performs the Release step |
| GlobalLock.Backend.Perform | sasquatch/client_anomaly/scheduler.py:72-131 | every step of the transition system is what the lock helpers do to the key |
| GlobalLock.OverrunLetsTheNextIn | sasquatch/client_anomaly/scheduler.py:72-85 | one overrun of the time to live lets one more task in |
| GlobalLock.BoundIsAttained | sasquatch/client_anomaly/scheduler.py:72-92 | a concrete run with k overruns ends with k + 1 tasks inside |
| FanOut.StepKeepsAccount | sasquatch/client_anomaly/scheduler.py:548-591 | each step keeps the three counters equal to the finished tasks of each outcome and at most four in flight |
| FanOut.OutcomesPartition | sasquatch/client_anomaly/scheduler.py:571-587 | scored, skipped and failed do not overlap: together they count the finished tasks |
| FanOut.EveryInterleaving | sasquatch/client_anomaly/scheduler.py:548-650 | in every schedule: four in flight at most, counters tally, and org scoring starts only when they sum to the number of pairs |
| FanOut.EntersBelowFour | sasquatch/client_anomaly/scheduler.py:562-566 | a queued task can enter exactly while fewer than four are in flight |
| FanOut.EachStepCountsDown | sasquatch/client_anomaly/scheduler.py:589-591 | every step lowers a measure: the phase ends |
| FanOut.NeverStuck | sasquatch/client_anomaly/scheduler.py:548-591 | until org scoring starts some step is enabled |
| FanOut.EveryScheduleHasTheSameLength | sasquatch/client_anomaly/scheduler.py:548-650 | a complete schedule has two steps per pair and one more, whatever the scores |
| FanOut.Phase3.constructor | sasquatch/client_anomaly/scheduler.py:548-560 | every pair starts queued with all counters at zero |
| FanOut.Phase3.EnterSemaphore | sasquatch/client_anomaly/scheduler.py:562-566 | a queued task enters only below the limit; nothing else changes |
| FanOut.Phase3.RecordResult | sasquatch/client_anomaly/scheduler.py:566-587 | one in-flight task finishes and exactly the counter and site set of its outcome grow |
| FanOut.Phase3.TakeTurn | sasquatch/client_anomaly/scheduler.py:562-591 | while a task is unfinished some task can move, and moving it keeps the account and lowers the measure |
| FanOut.Phase3.Gather | sasquatch/client_anomaly/scheduler.py:589-591 | whatever order the event loop picks, all tasks finish; the counters are the numbers of results with records, without, and raised, and the scored sites those of the first kind |
| Episodes.SegmentOrdered | sasquatch/client_anomaly/markov_analyzer.py:132-158 | the episodes are a segmentation of the stable timestamp order: they concatenate to it with ascending timestamps, none is empty, boundary events only at heads, all but the first opened by one; no event, no episode |
| Episodes.SegmentationUnique | sasquatch/client_anomaly/markov_analyzer.py:143-158 | those conditions determine the segmentation |
| Episodes.SegmentsTheStableOrder | sasquatch/client_anomaly/markov_analyzer.py:136-158 | cutting up any stable time order of the events gives the same episodes |
| Episodes.CountTransition | sasquatch/client_anomaly/markov_analyzer.py:176-183 | one pair raises its cell by one if both types are indexed and no cell otherwise |
| Episodes.BuildTransitionCounts | sasquatch/client_anomaly/markov_analyzer.py:165-183 | cell (i, j) is the number of adjacent in-episode pairs of the i-th and j-th type |
| Episodes.BoundaryColumnIsZero | sasquatch/client_anomaly/markov_analyzer.py:143-183 | in any such matrix the column of a boundary type is all zero |
| Episodes.MatrixTotalIsKnownPairs | sasquatch/client_anomaly/markov_analyzer.py:176-183 | the matrix total is the number of in-episode pairs with both types indexed |
| Episodes.CollectNormal | sasquatch/client_anomaly/markov_analyzer.py:476-480 | the normal episodes are exactly those of every client's segmentation that have the minimum length, in order |
| Episodes.BuildBaseline | sasquatch/client_anomaly/markov_analyzer.py:476-484 | the stored counts tally the normal episodes of all streams, with every boundary column zero |
| Scoring.LaplaceRowIsDistribution | sasquatch/client_anomaly/markov_analyzer.py:186-196 | a smoothed row sums to exactly 1, no entry is below 1 / (row count + n), and only unseen pairs are on that floor |
| Scoring.LaplaceKeepsOrder | sasquatch/client_anomaly/markov_analyzer.py:186-196 | within a row smoothing keeps the order of the counts, both ways |
| Scoring.BoundaryTransitionsStayOnTheFloor | sasquatch/client_anomaly/markov_analyzer.py:143-196 | for any streams, a smoothed transition into a boundary event has the floor probability, the least of its row |
| Scoring.ScoreEpisode | sasquatch/client_anomaly/markov_analyzer.py:203-221 | the score is the mean log-probability of the known adjacent pairs, 0 without any |
| Scoring.TwoEventScore | sasquatch/client_anomaly/markov_analyzer.py:213-221 | two events score the entry in the row of the first and the column of the second, 0 if either type is not indexed |
| Scoring.LowScoreHasLowTransition | sasquatch/client_anomaly/markov_analyzer.py:213-221 | a score below a negative threshold needs a known adjacent pair that is itself below it |
| Scoring.LowTransitionsGiveLowScore | sasquatch/client_anomaly/markov_analyzer.py:213-221 | an episode whose known pairs are all below a threshold scores below it |
| StuckLoop.FilterByAp | sasquatch/client_anomaly/markov_analyzer.py:260-273 | over positions: an event stays exactly when it is a boundary event, names no access point, follows no boundary event, or its last boundary event names none or the same one; the others keep their order |
| StuckLoop.CountPairs | sasquatch/client_anomaly/markov_analyzer.py:275-284 | both counters hold every adjacent pair with two typed ends as often as it is adjacent, and no other, raw and by category |
| StuckLoop.DetectStuckLoop | sasquatch/client_anomaly/markov_analyzer.py:228-330 | over the surviving events in stable time order: stuck exactly when enough events and either a raw failing pair dominates or the failing share reaches the threshold; the pair and fraction of the pass that fires, or the larger top share if none does; a crash exactly when pass 3 meets a threshold of zero or less with no failing pair |
| StuckLoop.CrashesWithoutFailures | sasquatch/client_anomaly/markov_analyzer.py:317-327 | on stored streams the crash happens exactly at a threshold of zero or less with enough events, some pair and no failing pair |
| StuckLoop.OneCriterionIff | sasquatch/client_anomaly/markov_analyzer.py:286-330 | for any stream: the one criterion holds at every minimum and every positive threshold if and only if no dominant raw failing pair occurs more often than pairs with a failure category |
| StuckLoop.PassesCollapse | sasquatch/client_anomaly/markov_analyzer.py:286-330 | for a positive threshold and streams free of ignored types: stuck if and only if enough events, some pair, and the failing share reaches the threshold |
| StuckLoop.StoredRawFailuresAreCategorised | sasquatch/client_anomaly/markov_analyzer.py:79-116 | every raw failure type ingest lets through lies in a failure category |
| Tables.RawFailuresByBucket | sasquatch/client_anomaly/markov_analyzer.py:79-116 | the raw failure types are the bucketed failure types without three, and the three DHCPv6 types |
| Tables.PairsFailAtEitherEnd | sasquatch/client_anomaly/markov_analyzer.py:286-327 | a pair fails, raw or by category, when either of its ends is such a type |
| Tables.PairCategories | sasquatch/client_anomaly/markov_analyzer.py:275-284 | each end of a category pair is the bucket of that end's type |
| Tables.BoundariesAreSuccesses | sasquatch/client_anomaly/markov_analyzer.py:50-63 | the boundary types are the bucketed successes of authentication and roaming |
| Tables.FailureTablesAgree | sasquatch/client_anomaly/markov_analyzer.py:113-116 | the failure lists of the vectors, the sort expression and the detector are the failure categories of the five services, the detector's with the two disassociations |
| Tables.OutcomesAreServiceCategories | sasquatch/client_anomaly/api/routes.py:2064-2071 | the sort expression adds up exactly the success and failure categories of the five services |
| Tables.CategoryByBucket | sasquatch/client_anomaly/event_collector.py:481-489 | a type has the category whose bucket lists it, OTHER if none does |
| StuckLoop.IgnoredTypesSeparateThePasses | sasquatch/client_anomaly/markov_analyzer.py:84-88 | with a DHCPv6 NAK in the stream the raw pass fires and the category criterion does not |
| StuckLoop.CategoryCountIsImageSum | sasquatch/client_anomaly/markov_analyzer.py:275-284 | a category pair's count is the sum of its raw pairs' counts |
| StuckLoop.ApFilterIdempotent | sasquatch/client_anomaly/markov_analyzer.py:260-273 | filtering a filtered stream changes nothing |
| Counters.WeightIsCount | sasquatch/client_anomaly/markov_analyzer.py:275-327 | adding a counter up over the keys with a property counts the items with it |
| Counters.MostCommon | sasquatch/client_anomaly/markov_analyzer.py:290-327 | the key returned has the largest count and is the first such by insertion |
| MarkovRollup.ScoreEpisodes | sasquatch/client_anomaly/markov_analyzer.py:358-377 | counts the episodes of at least the minimum length and those of them that score below the threshold |
| MarkovRollup.AnalyzeMac | sasquatch/client_anomaly/markov_analyzer.py:337-416 | the record follows from the client's one segmentation and reports the detector's pair, a stuck loop outranks the event-level reason, and there is none exactly when the detector crashes |
| MarkovRollup.OutliersAreEvaluatable | sasquatch/client_anomaly/markov_analyzer.py:379-402 | every flagged client has enough scoreable episodes or is stuck |
| MarkovRollup.AnalyzeClient | sasquatch/client_anomaly/markov_analyzer.py:598-600 | a client yields a record that follows from its own stream, or aborts exactly when the detector crashes on it |
| MarkovRollup.AnalyzeScope | sasquatch/client_anomaly/markov_analyzer.py:596-600 | one record per client, each following from that client's own stream; the run aborts if and only if some client's stream makes it |
| MarkovRollup.RollUpFamily | sasquatch/client_anomaly/markov_analyzer.py:606-652 | flag, reason and ratio of the flagged evaluatable clients over all the family's clients, counted by their records' fields |
| MarkovRollup.RollUpServiceAccount | sasquatch/client_anomaly/anomaly_detector.py:720-757 | the same over the evaluatable clients only; without any, a ratio of zero |
| MarkovRollup.ServiceAccountRatioIsAtLeastTotal | sasquatch/client_anomaly/anomaly_detector.py:738-741 | that ratio is at least the total-based one, equal only when nothing is flagged or all are evaluatable, so it flags whenever the other does |
| MarkovRollup.TotalRollupCounts | sasquatch/client_anomaly/markov_analyzer.py:625-630 | the count is that of the flagged evaluatable clients, and a positive threshold needs one |
| MarkovRollup.ServiceAccountRollupCounts | sasquatch/client_anomaly/anomaly_detector.py:738-741 | the same for service accounts |
| MarkovRollup.RollUpSummary | sasquatch/client_anomaly/api/routes.py:2924-2982 | an entry for each family met: measured and flagged records counted by their fields, ratio over all its records, the flag from the minimum size on |
| MarkovRollup.SummaryAgreesWithAnalysis | sasquatch/client_anomaly/api/routes.py:2932-2982 | ratio, flagged count and reason recomputed from records equal the analyzer's, and so does the flag up to the minimum size |
| Vocabulary.BucketsMatchReverseMap | sasquatch/client_anomaly/event_collector.py:215-295 | a type is in a bucket exactly when the reverse map sends it there: no type is in two |
| Vocabulary.BucketsListNoTypeTwice | sasquatch/client_anomaly/event_collector.py:215-289 | no bucket lists a type twice |
| Dedup.DedupEvents | sasquatch/client_anomaly/event_collector.py:528-567 | the in-place loop returns stripped events of the list: one for each device, type, moment and BSSID, with a capture if a variant has one, in order of first occurrence |
| Dedup.MacByCharacter | sasquatch/client_anomaly/event_collector.py:550-555 | devices are compared by the MAC without colons and in lower case |
| Dedup.DedupKeepsOnePerKey | sasquatch/client_anomaly/event_collector.py:545-567 | as many events as distinct keys, each the first variant with a capture, or the first variant |
| Dedup.DedupIdempotent | sasquatch/client_anomaly/event_collector.py:545-567 | deduplicating twice changes nothing |
| Dedup.DedupOfDedups | sasquatch/client_anomaly/event_collector.py:545-567 | deduplicating two halves first and then their concatenation gives the same result |
| Dedup.CaptureUrlsDoNotMatter | sasquatch/client_anomaly/event_collector.py:528-544 | the rotating capture URL never influences the result |
| Ingest.EnrichBatch | sasquatch/client_anomaly/event_collector.py:570-629 | in the event's own fields: a deduplicated event is kept exactly when it is none of the three DHCPv6 types, no auth or MAC-auth failure with status 79 or -79, and has no signal or one of at least the threshold; both skip counts likewise; kept, skipped and ignored add up to the distinct keys |
| Ingest.GroupBySite | sasquatch/client_anomaly/event_collector.py:739-743 | each site some event names gets exactly its events in order, the sites in the order they are first named; events without a site are dropped |
| Ingest.Collector.constructor | sasquatch/client_anomaly/event_collector.py:757-800 | a collect starts on the table as it stands, with no site counted |
| Ingest.Collector.InsertEvents | sasquatch/client_anomaly/db.py:342-380 | insert-or-ignore: old rows stay, each new key gets the row of the first event that has it, and the returned number is the growth |
| Ingest.Collector.FlushSite | sasquatch/client_anomaly/event_collector.py:661-700 | adds exactly the keys this site's group stores, each with the variant dedup prefers in that group, and raises this site's count by their number |
| Ingest.Collector.FlushBatch | sasquatch/client_anomaly/event_collector.py:715-754 | old rows stay and new keys get the rows the batch offers, the sites taken in order of appearance; each site's count rises by the number of its new rows |
| Ingest.BatchOffersStored | sasquatch/client_anomaly/event_collector.py:661-700 | a batch offers a row exactly for the keys it stores: that of its first site, in order of appearance, that stores the key |
| Ingest.Collector.Collect | sasquatch/client_anomaly/event_collector.py:757-853 | over all pages: the table keeps its rows, grows by exactly the keys the buffered batches store, each with the row on offer first and only by events that pass the filter, and each site's count grows by the number of its new rows |
| Ingest.CollectedRow | sasquatch/client_anomaly/event_collector.py:757-853 | that row is the preferred variant in the first storing site's group of the first batch that stores the key |
| Ingest.NewRowsComeFromTheStream | sasquatch/client_anomaly/event_collector.py:757-853 | every row a collect adds holds an event of the collected stream without its capture URL, under that event's own site |
| Ingest.Batches | sasquatch/client_anomaly/event_collector.py:395-457 | buffering loses, repeats and reorders nothing; every batch but the last reaches the size, none is empty, and none exceeds it by as much as the largest page |
| Batching.JoinedBatchStoresNoMore | sasquatch/client_anomaly/event_collector.py:548-629 | what two batches joined store, one of them stores alone |
| Batching.EveryBatchingIsSandwiched | sasquatch/client_anomaly/event_collector.py:395-457 | any batching stores at least what one batch would and at most the keys with an accepted variant |
| Batching.StoredByField | sasquatch/client_anomaly/event_collector.py:597-629 | in the events' own fields, however the stream is cut: an event with a site is stored if every variant of it passes the filters and only if some variant with a site does |
| Batching.SingletonsStoreAllAccepted | sasquatch/client_anomaly/event_collector.py:548-629 | one event per batch stores every key with an accepted variant |
| Batching.BatchingIndependentIffStable | sasquatch/client_anomaly/event_collector.py:548-629 | all batchings store the same keys if and only if no accepted event's key is missed by the single batch |
| Batching.AgreeingVariantsAreStable | sasquatch/client_anomaly/event_collector.py:597-629 | it suffices that variants of a key agree on site, signal and status code |
| Batching.ReplayOfSameBatches | sasquatch/client_anomaly/db.py:352-380 | the same batches again insert nothing, whatever is in them |
| Batching.ReplayInsertsNothing | sasquatch/client_anomaly/db.py:352-380 | a stable stream cut up differently inserts nothing and leaves every site's count the second time |
| Batching.UnstableReplayInserts | sasquatch/client_anomaly/event_collector.py:597-629 | an unstable stream has a key one batch misses and single events store |
| Batching.WeakVariantHidesStrongOne | sasquatch/client_anomaly/event_collector.py:548-629 | a weak first variant hides a strong second one in the same batch: unstable streams exist |
| Batching.StuckLoopOnStoredEvents | sasquatch/client_anomaly/event_collector.py:606 | no ignored type is ever in the table, so on stored events the detector is the one criterion |
| Vectors.BuildCategoryVector | sasquatch/client_anomaly/feature_engineer.py:183-220 | each dimension is its bucket's share of the events outside collaboration's bucket; the two top fractions are the greatest dimension and the greatest of the five failure dimensions |
| Vectors.LargestIsMaximum | sasquatch/client_anomaly/feature_engineer.py:214-219 | the running maximum bounds every listed dimension and is one of them unless none is positive |
| Vectors.CategoryDimensionsSum | sasquatch/client_anomaly/feature_engineer.py:186-212 | the dimensions sum to the categorised share, and to 1 if and only if every non-collaboration event is in a bucket |
| Vectors.CategoryVectorIsZeroIff | sasquatch/client_anomaly/feature_engineer.py:183-220 | every dimension and both top fractions are zero if and only if no event of the stream is in a bucket other than collaboration's |
| Vectors.UncategorisedEventsGiveZeros | sasquatch/client_anomaly/feature_engineer.py:186-212 | every non-empty stream of unlisted types has counted events, zero in every dimension and a sum of 0, not 1 |
| Vectors.EventVectorIsDistribution | sasquatch/client_anomaly/feature_engineer.py:242-254 | the event vector sums to exactly 1, or is all zero when no event is indexed |
| Vectors.EventVectorIsProportional | sasquatch/client_anomaly/feature_engineer.py:242-254 | its entries, one for each indexed type, are to each other as the numbers of their events |
| Vectors.VectorsIgnoreOrder | sasquatch/client_anomaly/feature_engineer.py:183-254 | both vectors are invariant under permutation of the events |
| Vectors.VectorsIgnoreVolume | sasquatch/client_anomaly/feature_engineer.py:183-254 | both vectors are invariant under repeating the whole stream |
| Bursts.ScanBursts | sasquatch/client_anomaly/feature_engineer.py:301-313 | the scan's maximum over windows that open at an event, and where it is attained |
| Bursts.MaxBurst | sasquatch/client_anomaly/feature_engineer.py:300-313 | no closed 300-second window whatsoever holds more events of the DHCP success bucket, and one holds that many |
| Health.ComputeFamilyHealth | sasquatch/client_anomaly/health_scorer.py:143-269 | one record per named family, by its members' categories: for each service the users, the strugglers, the mean rate and the mean share from its own success and failure category, alarms where more than half of the users struggle, the mean overall score, and the members that struggle anywhere |
| Health.FailuresAloneRaiseTheAlarm | sasquatch/client_anomaly/health_scorer.py:104-140 | a client with failures and no success of a service has health 0 in it and its alarm, whatever its other dimensions |
| Health.OtherDimensionsDoNotMatter | sasquatch/client_anomaly/health_scorer.py:104-140 | health, rate and alarm of a service do not change with any dimension outside its own two categories |
| Health.FullFailureScoresZeroIff | sasquatch/client_anomaly/health_scorer.py:72-101 | a client with failures scores 0 overall if and only if no service of it has a success |
| Health.MergeOrgHealth | sasquatch/client_anomaly/anomaly_detector.py:1846-1914 | the merged record is built from the sums and weighted means over the sites that have the family; if none has, full marks, no service used and no alarm |
| HealthMerge.CountsMergeExactly | sasquatch/client_anomaly/anomaly_detector.py:1846-1914 | merged client, active, unhealthy and alarmed counts and the list of alarming services are exactly those of one rollup of the pooled clients |
| HealthMerge.MergedScoreIsClose | sasquatch/client_anomaly/anomaly_detector.py:1846-1914 | the merged score is within 0.0001 of the exact pooled mean and of the pooled rollup's score, for any sites |
| HealthMerge.MergedServicesAreClose | sasquatch/client_anomaly/anomaly_detector.py:1860-1905 | so are rates and service values, and a service has no value exactly when no pooled client used it |
| HealthMerge.MergeCanBeOneUnitOff | sasquatch/client_anomaly/anomaly_detector.py:1846-1914 | for any visible family: three one-client sites and their health tables for which the merged score is a whole 0.0001 above the score of one rollup of the pooled clients |
| ServiceAlarms.MacServiceAlarmFromCats | sasquatch/client_anomaly/client_summary_builder.py:231-247 | the early-exit loop is true exactly when, for one of the five pairs of categories, more events are counted under failure than under success |
| ServiceAlarms.CountAndSqlCoincide | sasquatch/client_anomaly/db.py:1262-1283 | count form and SQL predicate are the same for all counts: more failures than successes |
| ServiceAlarms.RoundedAlarmAgreesIff | sasquatch/client_anomaly/health_scorer.py:104-140 | rounded and raw alarm agree unless successes are below half but at least 0.49995 of the outcomes; always up to 10000 outcomes |
| ServiceAlarms.RoundedAlarmCanDisagree | sasquatch/client_anomaly/health_scorer.py:123-140 | 5000 successes of 10001 separate them |
| ServiceAlarms.BothPipelinesAgree | sasquatch/client_anomaly/health_scorer.py:134-140 | from one client's events the vector's alarm list and the summary's counters agree on a service, with the same exact exception |
| Summary.LoadEventAggregates | sasquatch/client_anomaly/client_summary_builder.py:142-162 | an entry for exactly the clients with rows: summed totals and category counts, earliest and latest sighting, family as folded |
| Summary.EntryCountsByField | sasquatch/client_anomaly/client_summary_builder.py:151-154 | an entry's total and category counts in the rows' own fields: the stored label, and without one the bucket that lists the type |
| Summary.LoadEventAggregatesAll | sasquatch/client_anomaly/client_summary_builder.py:197-220 | for exactly the kept scopes with rows, the same of that scope's rows |
| Summary.SummariesIgnoreOrder | sasquatch/client_anomaly/client_summary_builder.py:144-161 | two entries of the same rows in different orders agree on all but the family |
| Summary.OnePassIsPerScope | sasquatch/client_anomaly/client_summary_builder.py:124-220 | the one-pass table at a kept scope equals the per-scope aggregate if and only if the scope has a WLAN name or the site has no row without a WLAN |
| Summary.OnePassIsPerScopeInAnyOrder | sasquatch/client_anomaly/client_summary_builder.py:165-220 | with rows returned in any order: same clients and everything but the family |
| Summary.FamilyIsFirstConcrete | sasquatch/client_anomaly/client_summary_builder.py:159-161 | the family is the first concrete name; else "Unknown" if some row says so; else the first row's |
| Summary.FamilyIgnoresOrderIffSettled | sasquatch/client_anomaly/client_summary_builder.py:159-161 | the family is independent of row order exactly when the rows name at most one concrete family and, naming none, say "Unknown" or all agree |
| Summary.ColumnsAddUpIff | sasquatch/client_anomaly/client_summary_builder.py:493-497 | the sixteen columns sum to total_events if and only if no counted row has a category outside the map |
| Summary.StoredCategoriesAddUp | sasquatch/client_anomaly/client_summary_builder.py:152 | for rows ingest wrote they always do |
| DualRecords.KeysRoundTrip | sasquatch/client_anomaly/feature_engineer.py:91-117 | building a composite key and stripping it are inverse, kind included, so keys never collide |
| DualRecords.KeyKindByEnding | sasquatch/client_anomaly/feature_engineer.py:91-117 | the kind of a key is its ending, "#sa" or "#mfg", and stripping drops just that |
| DualRecords.FamilyKindByEnding | sasquatch/client_anomaly/feature_engineer.py:120-135 | the kind of a family is its ending, ".service_account" or "-MFG" |
| DualRecords.BuildRecords | sasquatch/client_anomaly/feature_engineer.py:549-651 | for every client with enough events the list holds the record under its MAC, one under MAC + "#sa" if and only if it has a label, one under MAC + "#mfg" if and only if it has a qualifying manufacturer, each with its family; nothing else, and in order |
| DualRecords.EmissionInOrder | sasquatch/client_anomaly/feature_engineer.py:549-651 | the records come client by client in the order given, each client's own record first |
| DualRecords.EmissionIsSound | sasquatch/client_anomaly/feature_engineer.py:574-651 | for any population and any family names: distinct keys, each virtual record beside the primary it copies |
| DualRecords.EmissionIsDualIff | sasquatch/client_anomaly/feature_engineer.py:574-651 | family kind and key kind agree on all records as well if and only if no client with enough events has a fingerprint family that ends in a virtual suffix |
| Detector.OnlyTinyPopulationsAreAllNoise | sasquatch/client_anomaly/anomaly_detector.py:215-227 | the population is below the tuned minimum exactly when it has fewer than three members |
| Detector.RunDbscan | sasquatch/client_anomaly/anomaly_detector.py:261-355 | below the event floor no result; with fewer than three eligible records noise for each of them; otherwise the record's cluster, noise at -1 |
| Detector.RunIsolationForest | sasquatch/client_anomaly/anomaly_detector.py:156-212 | every member gets a result, all null below the peer floor |
| Detector.ScoreFamily | sasquatch/client_anomaly/anomaly_detector.py:851-888 | the verdict exactly for members with enough events when the family is no manufacturer rollup and enough peers, and enough eligible ones, are there, with other sites' records only when the family is small; nulls otherwise |
| Detector.ScoreFamilies | sasquatch/client_anomaly/anomaly_detector.py:851-888 | every record, primary or virtual, has an Isolation-Forest result from its own family |
| Detector.GroupByFamily | sasquatch/client_anomaly/anomaly_detector.py:671-674 | each family's group is its records in order |
| Detector.Propagate | sasquatch/client_anomaly/anomaly_detector.py:776-784 | after the loop every record reads under its key what its device has under the plain MAC |
| MarkovFlags.RollUpDevices | sasquatch/client_anomaly/markov_analyzer.py:575-652 | for exactly the families of real MACs, the total-based rollup, or quiet flags without a baseline |
| MarkovFlags.RollUpAccounts | sasquatch/client_anomaly/anomaly_detector.py:724-757 | exactly the service-account families get their own rollup, over the devices behind their records |
| MarkovFlags.RealMembers | sasquatch/client_anomaly/anomaly_detector.py:687-694 | regrouping the real MACs leaves a fingerprint family as it is |
| MarkovFlags.MarkovFamilyFlags | sasquatch/client_anomaly/anomaly_detector.py:701-757 | a lookup yields no flags for a family ending in "-MFG", the rollup over evaluatable clients for one ending in ".service_account", the rollup over all clients for any other with a baseline |
| MarkovFlags.FlagsCountOutliers | sasquatch/client_anomaly/markov_analyzer.py:606-652 | the anomalous count is the number of the family's records whose client is flagged, and zero for a manufacturer rollup; a positive threshold needs one |
| Findings.FamilyNoiseRatio | sasquatch/client_anomaly/anomaly_detector.py:785-811 | the ratio is the noisy share of the devices behind the family's members, through the service-account fallback too, and zero for a manufacturer rollup |
| Findings.Merge | sasquatch/client_anomaly/anomaly_detector.py:895-927 | no lookup is missing and each record carries the four verdicts and their union |
| Findings.RollUpOne | sasquatch/client_anomaly/anomaly_detector.py:974-1186 | a family is listed exactly when it is named, no bare token, has enough members, and a member, its Markov rollup or the centroid detector is flagged; each count is that of its members with the flag |
| Findings.RollUp | sasquatch/client_anomaly/anomaly_detector.py:972-1186 | exactly the families that surface, once each and in order, each with its report |
| Findings.MarkovCountIsTagged | sasquatch/client_anomaly/anomaly_detector.py:1011-1016 | a finding's markov_family_anomalous_count is the number of its records with the Markov flag, zero for a manufacturer rollup |
| Findings.RollUpIsCoherent | sasquatch/client_anomaly/anomaly_detector.py:1001-1119 | for every finding the rollup can produce: max(dbscan, markov) <= union <= affected <= total, union <= dbscan + markov, a family outlier affects every member, and with a positive Markov threshold someone is affected |
| Findings.SilentFindingIsProduced | sasquatch/client_anomaly/anomaly_detector.py:1018-1023 | with a Markov threshold of zero a family without any flagged client is listed |
| Findings.Score | sasquatch/client_anomaly/anomaly_detector.py:671-1186 | over the whole pass, from the clients' Markov results: every key scored, dual records share their device's DBSCAN and Markov results, exactly the surfacing families listed, every finding coherent with its Markov count that of its flagged records, noise ratio equal to the DBSCAN ratio outside rollups and zero in them |
| Alerts.CollectSiteAlerts | sasquatch/client_anomaly/api/routes.py:1602-1634 | the feed's inner loop lists exactly the findings that should alert by their own fields and stored health, tagged with their writer's name, in order |
| Alerts.CollectOrgAlerts | sasquatch/client_anomaly/api/routes.py:1579-1597 | the same for organisation findings, by their embedded health |
| Alerts.BuildOrgAlertsFull | sasquatch/client_anomaly/api/routes.py:1566-1634 | each site's list is the concatenation over the WLANs of its alerts |
| Alerts.FeedInOrder | sasquatch/client_anomaly/api/routes.py:1566-1634 | the feed goes name by name in the order given |
| Alerts.AlertByField | sasquatch/client_anomaly/webhook_dispatcher.py:86-131 | an alert in the finding's own fields: a named family, the centroid flag or a union count of at least ratio times total, the health gate, the size floor |
| Alerts.ProducedAlertIff | sasquatch/client_anomaly/webhook_dispatcher.py:106-131 | a finding scoring produces is an alert if and only if its family is named, its health fails, it has enough members, and the centroid detector flagged it or the members flagged by DBSCAN or Markov reach the ratio |
| Alerts.NamesShareKeyIff | sasquatch/client_anomaly/event_collector.py:307-312 | two WLAN names get one key exactly when they differ only in which colon, slash, hyphen or white space they use, white space by code point |
| Alerts.EveryHistoryIsWellWritten | sasquatch/client_anomaly/anomaly_detector.py:1153-1199 | after any writes and expiries all findings under a key name one WLAN, whose name has that key |
| Alerts.LookupsReadTheLastWrite | sasquatch/client_anomaly/anomaly_detector.py:1153-1199 | a lookup under any name of a key reads the last write under it, findings stamped with the writer's name; no other write touches it |
| Alerts.SiteFeedCount | sasquatch/client_anomaly/api/routes.py:1566-1634 | in every history the feed lists under a name, enumerated or not, the badge of its key once per enumerated name of that key if it wrote the findings last, and nothing otherwise |
| Alerts.OrgFeedCount | sasquatch/client_anomaly/api/routes.py:1566-1597 | the same for the organisation feed |
| Alerts.SiteBadgeMatchesFeedIff | sasquatch/client_anomaly/api/routes.py:848-870 | in every history: an enumerated WLAN's alert_count at a site is the number of alerts the feed lists for it if and only if it is zero, or the WLAN wrote the findings last and no other enumerated name shares its key |
| Alerts.OrgBadgeMatchesFeedIff | sasquatch/client_anomaly/api/routes.py:909-924 | the same for org_alert_count and the organisation feed |
| Alerts.DistinctKeysMakeBadgesMatch | sasquatch/client_anomaly/api/routes.py:848-924 | so both counts match for every WLAN once enumerated names have distinct keys and wrote the findings |
| Alerts.CollidingNamesBreakTheBadges | sasquatch/client_anomaly/event_collector.py:307-312 | "Guest WiFi" and "Guest-WiFi" scored in turn: both badges read n, the feed lists 2n alerts under the second name and none under the first |
| Alerts.SomeCollisionBreaksTheBadges | sasquatch/client_anomaly/event_collector.py:307-312 | under any gates there is such a history with n = 1 |
| Alerts.FeedLengthIsBadgeTotal | sasquatch/client_anomaly/api/routes.py:1566-1634 | collisions lose no alert: each feed is as long as the badges of the enumerated names add up to |
| Alerts.QualifyingFindings | sasquatch/client_anomaly/webhook_dispatcher.py:396-478 | the webhook set is exactly the findings that should alert by their own fields and affect at least the webhook's own floor, in order |
| Alerts.DefaultFloorSendsEveryAlertIff | sasquatch/client_anomaly/webhook_dispatcher.py:446-456 | with the default floor of one, no alert of a finding scoring can produce is held back if and only if the ratio gate or the Markov family threshold is above zero |
| Alerts.StricterGatesOnlyRemove | sasquatch/client_anomaly/webhook_dispatcher.py:86-131 | raising a ratio or size floor, lowering the health bar or going from OR to AND gives the old site and organisation feeds with alerts removed |
| Alerts.StricterGatesSendNoMore | sasquatch/client_anomaly/webhook_dispatcher.py:396-478 | such gates and a higher affected floor give the old webhook set with findings removed |
| OrderBy.SplitTopLevelCommas | sasquatch/client_anomaly/api/routes.py:2115-2137 | the walker returns the stripped pieces of the expression |
| OrderBy.PiecesSplitAtCuts | sasquatch/client_anomaly/api/routes.py:2123-2137 | the pieces are separated by exactly the commas at depth zero |
| OrderBy.SplitIsUnique | sasquatch/client_anomaly/api/routes.py:2123-2137 | no other pieces are |
| OrderBy.RejoiningRestoresIff | sasquatch/client_anomaly/api/routes.py:2123-2137 | rejoining the unstripped pieces restores the input if and only if it does not end in a top-level comma |
| OrderBy.JoinedTermsSplitBack | sasquatch/client_anomaly/api/routes.py:2140-2151 | joining terms with ", " and splitting again is the identity |
| OrderBy.ColumnsEndInTerm | sasquatch/client_anomaly/api/routes.py:2079-2110 | every sortable column expression, the nested health one included, ends in a term |
| OrderBy.ColumnsAreKeysInLowerCase | sasquatch/client_anomaly/api/routes.py:2079-2110 | every sort key but four is its own column in lower case |
| OrderBy.HealthExpression | sasquatch/client_anomaly/api/routes.py:2064-2090 | the health expression is cut into exactly its null flag and its score |
| OrderBy.ResolveDrilldownOrder | sasquatch/client_anomaly/api/routes.py:2140-2151 | the default clause for a missing or unknown key; otherwise a clause with the column expression's terms and the direction on the last one only |
| OrderBy.IfScoreClauseTerms | sasquatch/client_anomaly/api/routes.py:2084 | sorting by if_score asks for the null flag ascending and the score directed |
| OrderBy.HealthClauseTerms | sasquatch/client_anomaly/api/routes.py:2085-2090 | so does sorting by health, with its own flag and score expressions |
| OrderBy.DefaultOrderTerms | sasquatch/client_anomaly/api/routes.py:2112 | the default clause is that clause ascending |
| OrderBy.KeyOrderIsSqlOrder | sasquatch/client_anomaly/api/routes.py:2444-2448 | the sort key orders rows as the clause does, in both directions |
| OrderBy.SortRowsByIfScore | sasquatch/client_anomaly/api/routes.py:2437-2449 | the list ends up in the clause's order, scored rows first by score in the direction asked for, with ties as they were, and holds the same rows |
| OrderBy.NullsComeLast | sasquatch/client_anomaly/api/routes.py:2444-2448 | rows without a score come last in either direction |
| OrderBy.DescendingPutsNullsFirstIff | sasquatch/client_anomaly/api/routes.py:2437-2448 | the documented flip of the null position happens only when all rows or none have a score |
| HealthSort.ValueIsCellHealth | sasquatch/client_anomaly/api/routes.py:2064-2078 | for all category columns the score expression is the health the page computes for the cell (`computeMacHealth`), NULL exactly when the total-is-zero flag is set, otherwise between 0 and 1 |
| HealthSort.HealthOrderIsSqlOrder | sasquatch/client_anomaly/api/routes.py:2085-2090 | ordering rows by flag and directed value of their own columns is the resolved clause's order, the null flag holding exactly for a total of zero |
| HealthSort.LeastHealthyFirst | sasquatch/client_anomaly/api/routes.py:2085-2088 | among rows with outcomes, ascending puts the larger failure share first and descending the smaller, decided by cross products of the counts |
| HealthSort.ZeroTotalsComeLast | sasquatch/client_anomaly/api/routes.py:2088-2090 | in any result in that order, rows without outcomes come last in either direction |
| HealthSort.DescendingPutsZeroTotalsFirstIff | sasquatch/client_anomaly/api/routes.py:2088-2090 | the documented flip under DESC happens only when all rows or none have outcomes |

## Where the code and its documentation differ

The model follows the code.

- The lock's comments speak of a two-hour time to live; the constant is six hours.
- `detect_stuck_loop` describes two passes; there are three.
- A stuck-loop threshold of 0.0 is accepted by the configuration; the third pass then takes the
  maximum of a possibly empty list, see `StuckLoop.CrashesWithoutFailures`.
- Three DHCPv6 failure types are raw failures without a category.
- The category dimensions are documented to sum to 1.0; see `Vectors.CategoryDimensionsSum`.
- The service-account Markov ratio divides by evaluatable clients, every other rollup by all.
- `_mac_health_score` documents that a client whose DHCP fails completely scores 0.0 whatever its
  other services do; see `Health.FullFailureScoresZeroIff`.
- Unmapped categories are documented to be added to `other`; the row builder drops them, see
  `Summary.ColumnsAddUpIff`.
- `_sort_rows_by_if_score` and the comment on the health sort say DESC puts nulls first; the
  direction is on the last term only, for both columns (`OrderBy.IfScoreClauseTerms`,
  `OrderBy.HealthClauseTerms`), see `OrderBy.DescendingPutsNullsFirstIff` and
  `HealthSort.DescendingPutsZeroTotalsFirstIff`.
- The summary's alert count is documented to stay in sync with the alert feed. The feed reads once
  per raw WLAN name what is stored under the sanitised one, and lists findings under the name of
  their writer; see `Alerts.SiteBadgeMatchesFeedIff` and `Alerts.CollidingNamesBreakTheBadges`.
- `build_site_events_summary` calls a client evaluatable when it has any scoreable episode, not the
  configured minimum, so its evaluatable count can be larger.

## Left out

- Mist HTTP, the page ceiling, retries, rate limits, TSHOOT calls, webhook delivery, FastAPI routing, CSV streaming, logging and all frontend code.
- Redis and SQLite as products: the lock key, a keyed table, stored findings and grouped rows are modelled; SQL text, migrations and other expiry times are not.
- sklearn, numpy, PCA and centroid distances: verdicts per record and flagged families are arbitrary inputs.
- Logarithms: the log-probability matrix is any matrix of reals.
- IEEE floating point: ratios are reals, so effects such as `int(n * 0.07)` on a float are not modelled.
- Lower-casing of MACs beyond ASCII, and the difference between a missing and an empty string in raw events where the code treats them alike.
- Family names, manufacturers and usernames are opaque values; majority voting over them and the token cleaning are not modelled.
- Client-cache lookups and the sets of unknown types and cache misses that `_enrich_batch` reports.
- Stored per-episode score lists and the rounded per-client episode ratio and loop fraction, which nothing modelled reads.
- Configuration resolution: thresholds are parameters. The analysis requires a minimum of at least one scoreable episode, the configured lower bound.
- Organisation-wide scoring apart from its health merge: organisation findings enter the alert loops as given.
- Several backend processes: one process and one lock key, as deployed. Task cancellation is not modelled.
- Finding fields that carry text or top features, the probable pattern, weighted scores and the final sort of findings by severity. The stored ratio of the union count, which repeats two counts.
- Optional fields of stored findings: a missing count is read as zero by every loop alike and is modelled as zero.
- Detector.RunIsolationForest: context records of other sites enter only through their number and event counts; their placeholder keys are not part of this model.
- DualRecords.EmissionIsSound: assumes, as does EmissionIsDualIff, that MACs are distinct and carry no key suffix; they are dictionary keys taken from the feed.
- Findings.Score: takes a record set whose family and key kinds agree; `DualRecords.EmissionIsDualIff` says when the emitted one does.
- OrderBy.SplitTopLevelCommas: strips blank, tab, newline and carriage return only.
- HealthSort.HealthOrderIsSqlOrder: evaluating SQL text is not modelled; flag and value are sums over the same column lists the text is built from.
- OrderBy.SortRowsByIfScore: the runtime's sort is taken to be the stable sort it documents and is written back in place.
- Summary.LoadEventAggregates: starts from the grouped rows; the grouping and the time window are the database's.
- The remaining row fields of the summary table, which copy client metadata.

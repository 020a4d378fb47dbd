// Episode segmentation of a client's event stream and the transition counts a baseline is
// built from.
module Episodes {
  import opened Vocabulary
  import opened Sequences

  // Successful association, authentication and roam events start a new episode.
  predicate IsBoundary(t: EventType) {
    t in {ClientAuthenticated, ClientAuthAssociation, ClientAuthAssociation11r,
          ClientAuthAssociationOkc, ClientAuthReassociation, ClientAuthReassociation11r,
          ClientAuthReassociationOkc, ClientReassociation, ClientReassociationPmkc,
          ClientAssociationPmkc}
  }

  predicate NotLater(a: Event, b: Event) {
    a.timestamp <= b.timestamp
  }

  // Episodes cover the stream in order, are never empty, carry boundary events at their head
  // only, and all but the first are opened by one.
  ghost predicate IsSegmentation(episodes: seq<seq<Event>>, stream: seq<Event>) {
    && Flatten(episodes) == stream
    && (forall e :: 0 <= e < |episodes| ==> episodes[e] != [] && BoundaryOnlyAtHead(episodes[e]))
    && forall e :: 0 < e < |episodes| ==> IsBoundary(episodes[e][0].etype)
  }

  ghost predicate BoundaryOnlyAtHead(episode: seq<Event>) {
    forall k :: 0 < k < |episode| ==> !IsBoundary(episode[k].etype)
  }

  // Closing an episode: the finished ones stay well formed and the new one opens properly.
  lemma CloseEpisode(episodes: seq<seq<Event>>, current: seq<Event>, stream: seq<Event>)
    requires IsSegmentation(episodes, stream)
    requires current != [] && BoundaryOnlyAtHead(current)
    requires episodes != [] ==> IsBoundary(current[0].etype)
    ensures IsSegmentation(episodes + [current], stream + current)
  {
    assert (episodes + [current])[..|episodes|] == episodes;
  }

  // Finished episodes covering `closed`, and the one being filled.
  ghost predicate Segmenting(episodes: seq<seq<Event>>, closed: seq<Event>, current: seq<Event>, read: seq<Event>) {
    && IsSegmentation(episodes, closed)
    && closed + current == read
    && BoundaryOnlyAtHead(current)
    && (current == [] ==> read == [])
    && (episodes != [] ==> current != [] && IsBoundary(current[0].etype))
  }

  lemma OpenEpisode(episodes: seq<seq<Event>>, closed: seq<Event>, current: seq<Event>, read: seq<Event>, event: Event)
    requires Segmenting(episodes, closed, current, read) && IsBoundary(event.etype)
    ensures current != [] ==> Segmenting(episodes + [current], closed + current, [event], read + [event])
    ensures current == [] ==> Segmenting(episodes, closed, [event], read + [event])
  {
    if current != [] {
      CloseEpisode(episodes, current, closed);
    }
  }

  lemma ExtendEpisode(episodes: seq<seq<Event>>, closed: seq<Event>, current: seq<Event>, read: seq<Event>, event: Event)
    requires Segmenting(episodes, closed, current, read) && !IsBoundary(event.etype)
    ensures Segmenting(episodes, closed, current + [event], read + [event])
  {
    assert closed + (current + [event]) == (closed + current) + [event];
  }

  // The loop's treatment of one event.
  method AddEvent(episodes: seq<seq<Event>>, current: seq<Event>, event: Event, ghost closed: seq<Event>, ghost read: seq<Event>)
    returns (grown: seq<seq<Event>>, open: seq<Event>, ghost covered: seq<Event>)
    requires Segmenting(episodes, closed, current, read)
    ensures Segmenting(grown, covered, open, read + [event])
  {
    grown, covered := episodes, closed;
    if IsBoundary(event.etype) {
      OpenEpisode(episodes, closed, current, read, event);
      if current != [] {
        grown := grown + [current];
        covered := covered + current;
      }
      open := [event];
    } else {
      ExtendEpisode(episodes, closed, current, read, event);
      open := current + [event];
    }
  }

  lemma FinishSegmenting(episodes: seq<seq<Event>>, closed: seq<Event>, current: seq<Event>, read: seq<Event>)
    requires Segmenting(episodes, closed, current, read)
    ensures current != [] ==> IsSegmentation(episodes + [current], read)
    ensures current == [] ==> IsSegmentation(episodes, read) && episodes == [] && read == []
  {
    if current != [] {
      CloseEpisode(episodes, current, closed);
    }
  }

  ghost predicate InTimeOrder(stream: seq<Event>) {
    forall i, j :: 0 <= i < j < |stream| ==> stream[i].timestamp <= stream[j].timestamp
  }

  lemma SortedByTime(events: seq<Event>)
    ensures InTimeOrder(StableSort(NotLater, events))
    ensures multiset(StableSort(NotLater, events)) == multiset(events)
  {
    StableSortArranges(NotLater, events);
    var ordered := StableSort(NotLater, events);
    forall i, j | 0 <= i < j < |ordered| ensures ordered[i].timestamp <= ordered[j].timestamp {
      assert NotLater(ordered[i], ordered[j]);
    }
  }

  lemma SegmentsInTimeOrder(events: seq<Event>, episodes: seq<seq<Event>>)
    requires Flatten(episodes) == StableSort(NotLater, events)
    ensures InTimeOrder(Flatten(episodes))
  {
    SortedByTime(events);
  }

  method SegmentOrdered(events: seq<Event>) returns (episodes: seq<seq<Event>>)
    ensures IsSegmentation(episodes, StableSort(NotLater, events))
    ensures InTimeOrder(Flatten(episodes))
    ensures events == [] <==> episodes == []
  {
    episodes := [];
    if events == [] {
      return;
    }
    var ordered := StableSort(NotLater, events);
    SortKeepsLength(events);
    episodes := CutAtBoundaries(ordered);
    SegmentsInTimeOrder(events, episodes);
  }

  // The loop, over the events in order.
  method CutAtBoundaries(ordered: seq<Event>) returns (episodes: seq<seq<Event>>)
    ensures IsSegmentation(episodes, ordered)
    ensures ordered == [] <==> episodes == []
  {
    episodes := [];
    var current: seq<Event> := [];
    ghost var closed: seq<Event> := [];
    for i := 0 to |ordered|
      invariant Segmenting(episodes, closed, current, ordered[..i])
    {
      assert ordered[..i + 1] == ordered[..i] + [ordered[i]];
      episodes, current, closed := AddEvent(episodes, current, ordered[i], closed, ordered[..i]);
    }
    assert ordered[..|ordered|] == ordered;
    FinishSegmenting(episodes, closed, current, ordered);
    if current != [] {
      episodes := episodes + [current];
    }
  }

  lemma SortKeepsLength(events: seq<Event>)
    ensures |StableSort(NotLater, events)| == |events|
  {
    StableSortArranges(NotLater, events);
    assert |multiset(StableSort(NotLater, events))| == |multiset(events)|;
  }

  lemma LastEpisodeNotShorter(a: seq<seq<Event>>, b: seq<seq<Event>>, stream: seq<Event>)
    requires IsSegmentation(a, stream) && IsSegmentation(b, stream) && a != [] && b != []
    ensures |a[|a| - 1]| >= |b[|b| - 1]|
  {
    var lastA, lastB := a[|a| - 1], b[|b| - 1];
    assert stream == Flatten(a[..|a| - 1]) + lastA;
    assert stream == Flatten(b[..|b| - 1]) + lastB;
    assert stream[|stream| - |lastA|] == lastA[0];
    forall p | |stream| - |lastB| < p < |stream| ensures !IsBoundary(stream[p].etype) {
      assert stream[p] == lastB[p - (|stream| - |lastB|)];
    }
    if |a| == 1 {
      assert Flatten(a[..0]) == [];
    } else {
      assert IsBoundary(stream[|stream| - |lastA|].etype);
    }
  }

  lemma InitIsSegmentation(a: seq<seq<Event>>, stream: seq<Event>)
    requires IsSegmentation(a, stream) && a != []
    ensures IsSegmentation(a[..|a| - 1], Flatten(a[..|a| - 1]))
  {
  }

  lemma SameLastEpisode(a: seq<seq<Event>>, b: seq<seq<Event>>, stream: seq<Event>)
    requires IsSegmentation(a, stream) && IsSegmentation(b, stream) && a != [] && b != []
    ensures a[|a| - 1] == b[|b| - 1] && Flatten(a[..|a| - 1]) == Flatten(b[..|b| - 1])
  {
    var lastA, lastB := a[|a| - 1], b[|b| - 1];
    LastEpisodeNotShorter(a, b, stream);
    LastEpisodeNotShorter(b, a, stream);
    assert Flatten(a[..|a| - 1]) == stream[..|stream| - |lastA|];
    assert Flatten(b[..|b| - 1]) == stream[..|stream| - |lastB|];
    assert lastA == stream[|stream| - |lastA|..] && lastB == stream[|stream| - |lastB|..];
  }

  // The four conditions leave no freedom: a stream has one segmentation.
  lemma {:induction false} SegmentationUnique(a: seq<seq<Event>>, b: seq<seq<Event>>, stream: seq<Event>)
    requires IsSegmentation(a, stream) && IsSegmentation(b, stream)
    ensures a == b
    decreases |a|
  {
    if a != [] && b != [] {
      SameLastEpisode(a, b, stream);
      InitIsSegmentation(a, stream);
      InitIsSegmentation(b, stream);
      SegmentationUnique(a[..|a| - 1], b[..|b| - 1], Flatten(a[..|a| - 1]));
      assert a == a[..|a| - 1] + [a[|a| - 1]] && b == b[..|b| - 1] + [b[|b| - 1]];
    }
  }

  // Sorting and segmenting: what is cut up is the input in time order, ties as given.
  lemma SegmentsTheStableOrder(events: seq<Event>, episodes: seq<seq<Event>>, ordered: seq<Event>)
    requires IsSegmentation(episodes, StableSort(NotLater, events))
    requires StableArrangement(NotLater, events, ordered)
    ensures Flatten(episodes) == ordered
    ensures multiset(Flatten(episodes)) == multiset(events)
  {
    StableSortArranges(NotLater, events);
    StableArrangementUnique(NotLater, events, ordered, StableSort(NotLater, events));
  }

  // ---- transitions ------------------------------------------------------------

  type Transition = (EventType, EventType)

  // Adjacent pairs within one episode, and across a list of episodes.
  function Transitions(episode: seq<Event>): (ts: seq<Transition>)
    ensures |ts| == if episode == [] then 0 else |episode| - 1
    ensures forall k :: 0 <= k < |ts| ==> ts[k] == (episode[k].etype, episode[k + 1].etype)
  {
    seq(if episode == [] then 0 else |episode| - 1,
        k requires 0 <= k < |episode| - 1 => (episode[k].etype, episode[k + 1].etype))
  }

  function AllTransitions(episodes: seq<seq<Event>>): seq<Transition> {
    if episodes == [] then [] else
    AllTransitions(episodes[..|episodes| - 1]) + Transitions(episodes[|episodes| - 1])
  }

  // The position of every indexed type; a repeated type keeps its last position.
  function IndexMap(index: seq<EventType>): (m: map<EventType, nat>)
    ensures forall t :: t in m <==> t in index
    ensures forall t :: t in m ==> m[t] < |index| && index[m[t]] == t
  {
    if index == [] then map[] else
    var init := IndexMap(index[..|index| - 1]);
    assert index == index[..|index| - 1] + [index[|index| - 1]];
    init[index[|index| - 1] := |index| - 1]
  }

  predicate Known(idx: map<EventType, nat>, t: Transition) {
    t.0 in idx && t.1 in idx
  }

  function KnownIn(idx: map<EventType, nat>): Transition -> bool {
    t => Known(idx, t)
  }

  function Cell(idx: map<EventType, nat>, i: nat, j: nat): Transition -> bool {
    t => Known(idx, t) && idx[t.0] == i && idx[t.1] == j
  }

  // Every cell of the matrix holds the count of its transition in ts.
  ghost predicate Tallies(counts: array2<nat>, idx: map<EventType, nat>, ts: seq<Transition>)
    reads counts
  {
    forall i, j :: 0 <= i < counts.Length0 && 0 <= j < counts.Length1 ==>
      counts[i, j] == Count(Cell(idx, i, j), ts)
  }

  ghost predicate Fits(counts: array2<nat>, idx: map<EventType, nat>) {
    forall t :: t in idx ==> idx[t] < counts.Length0 && idx[t] < counts.Length1
  }

  method CountTransition(counts: array2<nat>, idx: map<EventType, nat>, t: Transition, ghost ts: seq<Transition>)
    requires Fits(counts, idx) && Tallies(counts, idx, ts)
    modifies counts
    ensures Tallies(counts, idx, ts + [t])
  {
    assert (ts + [t])[..|ts|] == ts;
    if t.0 in idx && t.1 in idx {
      counts[idx[t.0], idx[t.1]] := counts[idx[t.0], idx[t.1]] + 1;
    }
  }

  method CountEpisode(counts: array2<nat>, idx: map<EventType, nat>, episode: seq<Event>, ghost ts: seq<Transition>)
    requires Fits(counts, idx) && Tallies(counts, idx, ts)
    modifies counts
    ensures Tallies(counts, idx, ts + Transitions(episode))
  {
    ghost var all := Transitions(episode);
    assert ts + all[..0] == ts;
    for k := 0 to if |episode| == 0 then 0 else |episode| - 1
      invariant Tallies(counts, idx, ts + all[..k])
    {
      CountTransition(counts, idx, (episode[k].etype, episode[k + 1].etype), ts + all[..k]);
      assert ts + all[..k + 1] == ts + all[..k] + [all[k]];
    }
    assert all[..|all|] == all;
  }

  method BuildTransitionCounts(episodes: seq<seq<Event>>, index: seq<EventType>) returns (counts: array2<nat>)
    ensures fresh(counts) && counts.Length0 == |index| && counts.Length1 == |index|
    ensures Tallies(counts, IndexMap(index), AllTransitions(episodes))
  {
    var idx, n := IndexMap(index), |index|;
    counts := new nat[n, n]((_, _) => 0);
    for e := 0 to |episodes|
      invariant Tallies(counts, idx, AllTransitions(episodes[..e]))
    {
      CountEpisode(counts, idx, episodes[e], AllTransitions(episodes[..e]));
      assert episodes[..e + 1][..e] == episodes[..e];
    }
    assert episodes[..|episodes|] == episodes;
  }

  // ---- what a baseline can and cannot learn ------------------------------------

  lemma {:induction false} AllTransitionsAvoidBoundary(episodes: seq<seq<Event>>, t: Transition)
    requires forall e :: e in episodes ==> BoundaryOnlyAtHead(e)
    requires t in AllTransitions(episodes)
    ensures !IsBoundary(t.1)
  {
    var init, last := episodes[..|episodes| - 1], episodes[|episodes| - 1];
    if t in Transitions(last) {
      var k :| 0 <= k < |Transitions(last)| && Transitions(last)[k] == t;
      assert BoundaryOnlyAtHead(last) && last[k + 1].etype == t.1;
    } else {
      AllTransitionsAvoidBoundary(init, t);
    }
  }

  // A transition into a boundary event is never counted.
  lemma BoundaryColumnIsZero(episodes: seq<seq<Event>>, index: seq<EventType>, boundary: EventType, i: nat)
    requires forall e :: e in episodes ==> BoundaryOnlyAtHead(e)
    requires boundary in index && IsBoundary(boundary)
    ensures Count(Cell(IndexMap(index), i, IndexMap(index)[boundary]), AllTransitions(episodes)) == 0
  {
    var idx := IndexMap(index);
    var cell := Cell(idx, i, idx[boundary]);
    forall t | t in AllTransitions(episodes) ensures !cell(t) {
      AllTransitionsAvoidBoundary(episodes, t);
    }
    CountZero(cell, AllTransitions(episodes));
  }

  function CellsBelow(idx: map<EventType, nat>, i: nat, m: nat): Transition -> bool {
    t => Known(idx, t) && idx[t.0] == i && idx[t.1] < m
  }

  function RowsBelow(idx: map<EventType, nat>, m: nat): Transition -> bool {
    t => Known(idx, t) && idx[t.0] < m
  }

  ghost function RowTotal(idx: map<EventType, nat>, ts: seq<Transition>, i: nat, m: nat): nat {
    if m == 0 then 0 else RowTotal(idx, ts, i, m - 1) + Count(Cell(idx, i, m - 1), ts)
  }

  // The total of the m-by-n upper part of the count matrix.
  ghost function MatrixTotal(idx: map<EventType, nat>, ts: seq<Transition>, m: nat, n: nat): nat {
    if m == 0 then 0 else MatrixTotal(idx, ts, m - 1, n) + RowTotal(idx, ts, m - 1, n)
  }

  lemma {:induction false} CountSplits(p: Transition -> bool, q: Transition -> bool, r: Transition -> bool, ts: seq<Transition>)
    requires forall t :: r(t) <==> p(t) || q(t)
    requires forall t :: !(p(t) && q(t))
    ensures Count(r, ts) == Count(p, ts) + Count(q, ts)
  {
    if ts != [] {
      CountSplits(p, q, r, ts[..|ts| - 1]);
    }
  }

  lemma {:induction false} RowTotalCounts(idx: map<EventType, nat>, ts: seq<Transition>, i: nat, m: nat)
    ensures RowTotal(idx, ts, i, m) == Count(CellsBelow(idx, i, m), ts)
  {
    if m == 0 {
      CountZero(CellsBelow(idx, i, 0), ts);
    } else {
      RowTotalCounts(idx, ts, i, m - 1);
      CountSplits(CellsBelow(idx, i, m - 1), Cell(idx, i, m - 1), CellsBelow(idx, i, m), ts);
    }
  }

  lemma {:induction false} MatrixTotalCounts(idx: map<EventType, nat>, ts: seq<Transition>, m: nat, n: nat)
    requires forall t :: t in idx ==> idx[t] < n
    ensures MatrixTotal(idx, ts, m, n) == Count(RowsBelow(idx, m), ts)
  {
    if m == 0 {
      CountZero(RowsBelow(idx, 0), ts);
    } else {
      MatrixTotalCounts(idx, ts, m - 1, n);
      RowTotalCounts(idx, ts, m - 1, n);
      CountSplits(RowsBelow(idx, m - 1), CellsBelow(idx, m - 1, n), RowsBelow(idx, m), ts);
    }
  }

  // The matrix loses nothing it knows: its total is the number of in-episode pairs with both
  // types indexed.
  lemma MatrixTotalIsKnownPairs(episodes: seq<seq<Event>>, index: seq<EventType>)
    ensures MatrixTotal(IndexMap(index), AllTransitions(episodes), |index|, |index|)
            == Count(KnownIn(IndexMap(index)), AllTransitions(episodes))
  {
    var idx, ts := IndexMap(index), AllTransitions(episodes);
    MatrixTotalCounts(idx, ts, |index|, |index|);
    CountSame(RowsBelow(idx, |index|), KnownIn(idx), ts);
  }

  function LongEnough(minLength: int): seq<Event> -> bool {
    e => |e| >= minLength
  }

  // The normal-length episodes of every client's stream, client by client.
  ghost predicate NormalEpisodes(normal: seq<seq<Event>>, segmented: seq<seq<seq<Event>>>, streams: seq<seq<Event>>,
                                 minLength: int) {
    && |segmented| == |streams|
    && (forall s :: 0 <= s < |streams| ==> IsSegmentation(segmented[s], StableSort(NotLater, streams[s])))
    && normal == Filter(LongEnough(minLength), Flatten(segmented))
  }

  method KeepNormal(normal: seq<seq<Event>>, episodes: seq<seq<Event>>, minLength: int, ghost earlier: seq<seq<Event>>)
    returns (next: seq<seq<Event>>)
    requires normal == Filter(LongEnough(minLength), earlier)
    ensures next == Filter(LongEnough(minLength), earlier + episodes)
  {
    next := normal;
    assert earlier + episodes[..0] == earlier;
    for e := 0 to |episodes|
      invariant next == Filter(LongEnough(minLength), earlier + episodes[..e])
    {
      FilterAppend(LongEnough(minLength), earlier + episodes[..e], episodes[e]);
      assert earlier + episodes[..e + 1] == earlier + episodes[..e] + [episodes[e]];
      if |episodes[e]| >= minLength {
        next := next + [episodes[e]];
      }
    }
    assert episodes[..|episodes|] == episodes;
  }

  method CollectNormal(streams: seq<seq<Event>>, minLength: int)
    returns (normal: seq<seq<Event>>, ghost segmented: seq<seq<seq<Event>>>)
    ensures NormalEpisodes(normal, segmented, streams, minLength)
    ensures forall e :: e in normal <==> |e| >= minLength && exists s :: 0 <= s < |segmented| && e in segmented[s]
  {
    normal, segmented := [], [];
    for s := 0 to |streams|
      invariant NormalEpisodes(normal, segmented, streams[..s], minLength)
    {
      var episodes := SegmentOrdered(streams[s]);
      var next := KeepNormal(normal, episodes, minLength, Flatten(segmented));
      NormalStep(normal, next, segmented, episodes, streams, s, minLength);
      normal, segmented := next, segmented + [episodes];
    }
    assert streams[..|streams|] == streams;
    NormalByField(segmented, minLength);
  }

  lemma NormalStep(normal: seq<seq<Event>>, next: seq<seq<Event>>, segmented: seq<seq<seq<Event>>>, episodes: seq<seq<Event>>,
      streams: seq<seq<Event>>, s: nat, minLength: int)
    requires s < |streams| && NormalEpisodes(normal, segmented, streams[..s], minLength)
    requires IsSegmentation(episodes, StableSort(NotLater, streams[s]))
    requires next == Filter(LongEnough(minLength), Flatten(segmented) + episodes)
    ensures NormalEpisodes(next, segmented + [episodes], streams[..s + 1], minLength)
  {
    var all, read := segmented + [episodes], streams[..s + 1];
    assert all[..s] == segmented;
    forall i | 0 <= i < |read| ensures IsSegmentation(all[i], StableSort(NotLater, read[i])) {
      if i < s {
        assert all[i] == segmented[i] && read[i] == streams[..s][i];
      }
    }
  }

  lemma NormalByField(segmented: seq<seq<seq<Event>>>, minLength: int)
    ensures forall e :: e in Filter(LongEnough(minLength), Flatten(segmented)) <==>
      |e| >= minLength && exists s :: 0 <= s < |segmented| && e in segmented[s]
  {
    forall e ensures e in Filter(LongEnough(minLength), Flatten(segmented)) <==>
      |e| >= minLength && exists s :: 0 <= s < |segmented| && e in segmented[s]
    {
      FilterMember(LongEnough(minLength), Flatten(segmented), e);
      if e in Flatten(segmented) {
        FlattenedFrom(segmented, e);
      }
      if s :| 0 <= s < |segmented| && e in segmented[s] {
        FlattenedInto(segmented, s, e);
      }
    }
  }

  lemma {:induction false} FlattenedInto(segmented: seq<seq<seq<Event>>>, s: nat, e: seq<Event>)
    requires s < |segmented| && e in segmented[s]
    ensures e in Flatten(segmented)
  {
    if s < |segmented| - 1 {
      FlattenedInto(segmented[..|segmented| - 1], s, e);
    }
  }

  lemma {:induction false} FlattenedFrom(segmented: seq<seq<seq<Event>>>, e: seq<Event>)
    requires e in Flatten(segmented)
    ensures exists s :: 0 <= s < |segmented| && e in segmented[s]
  {
    var init, last := segmented[..|segmented| - 1], segmented[|segmented| - 1];
    if e in last {
      assert e in segmented[|segmented| - 1];
    } else {
      FlattenedFrom(init, e);
      var s :| 0 <= s < |init| && e in init[s];
      assert e in segmented[s];
    }
  }

  lemma NormalEpisodesStartAtBoundaries(normal: seq<seq<Event>>, segmented: seq<seq<seq<Event>>>,
      streams: seq<seq<Event>>, minLength: int)
    requires NormalEpisodes(normal, segmented, streams, minLength)
    ensures forall e :: e in normal ==> BoundaryOnlyAtHead(e)
  {
    forall e | e in normal ensures BoundaryOnlyAtHead(e) {
      FilterMember(LongEnough(minLength), Flatten(segmented), e);
      FlattenedFrom(segmented, e);
      var s :| 0 <= s < |segmented| && e in segmented[s];
      assert IsSegmentation(segmented[s], StableSort(NotLater, streams[s]));
    }
  }

  // The baseline job: segment each client's stream, keep the episodes of normal length, count.
  method BuildBaseline(streams: seq<seq<Event>>, minLength: int, index: seq<EventType>)
    returns (counts: array2<nat>, normal: seq<seq<Event>>, ghost segmented: seq<seq<seq<Event>>>)
    ensures fresh(counts) && counts.Length0 == |index| && counts.Length1 == |index|
    ensures NormalEpisodes(normal, segmented, streams, minLength)
    ensures Tallies(counts, IndexMap(index), AllTransitions(normal))
    ensures forall i, b :: 0 <= i < |index| && b in index && IsBoundary(b) ==> counts[i, IndexMap(index)[b]] == 0
  {
    normal, segmented := CollectNormal(streams, minLength);
    NormalEpisodesStartAtBoundaries(normal, segmented, streams, minLength);
    counts := BuildTransitionCounts(normal, index);
    forall i, b | 0 <= i < |index| && b in index && IsBoundary(b)
      ensures counts[i, IndexMap(index)[b]] == 0
    {
      BoundaryColumnIsZero(normal, index, b, i);
    }
  }
}

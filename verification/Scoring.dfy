// Laplace smoothing of the transition counts, and the mean log-probability of an episode.
// Logarithms are not modelled: the log-probability matrix is any matrix of reals.
module Scoring {
  import opened Vocabulary
  import opened Sequences
  import opened Episodes
  import opened Ratios

  function Smoothed(row: seq<nat>): seq<real> {
    Map((c: nat) => (c + 1) as real, row)
  }

  function Add(row: seq<real>): real {
    if row == [] then 0.0 else Add(row[..|row| - 1]) + row[|row| - 1]
  }

  // Add one to every cell, divide each row by its sum.
  function LaplaceRow(row: seq<nat>): seq<real> {
    var smoothed := Smoothed(row);
    var total := if Add(smoothed) == 0.0 then 1.0 else Add(smoothed);
    seq(|row|, j requires 0 <= j < |row| => smoothed[j] / total)
  }

  function LaplaceSmoothAndNormalize(counts: seq<seq<nat>>): seq<seq<real>> {
    Map(LaplaceRow, counts)
  }

  function RowCount(row: seq<nat>): nat {
    Total((c: nat) => c, row)
  }

  lemma {:induction false} SmoothedTotal(row: seq<nat>)
    ensures Add(Smoothed(row)) == (RowCount(row) + |row|) as real
  {
    if row != [] {
      SmoothedTotal(row[..|row| - 1]);
      assert Smoothed(row)[..|row| - 1] == Smoothed(row[..|row| - 1]);
    }
  }

  lemma {:induction false} AddScales(row: seq<real>, d: real, scaled: seq<real>)
    requires d > 0.0 && |scaled| == |row|
    requires forall j :: 0 <= j < |row| ==> scaled[j] == row[j] / d
    ensures Add(scaled) == Add(row) / d
  {
    if row != [] {
      AddScales(row[..|row| - 1], d, scaled[..|row| - 1]);
    }
  }

  lemma QuotientOrder(a: nat, b: nat, d: real)
    requires d > 0.0
    ensures (a as real) / d <= (b as real) / d <==> a <= b
  {
    if a <= b {
      assert (b as real) / d - (a as real) / d == ((b - a) as real) / d >= 0.0;
    } else {
      assert (a as real) / d - (b as real) / d == ((a - b) as real) / d > 0.0;
    }
  }

  lemma LaplaceEntry(row: seq<nat>, j: nat)
    requires j < |row|
    ensures LaplaceRow(row)[j] == ((row[j] + 1) as real) / ((RowCount(row) + |row|) as real)
  {
    SmoothedTotal(row);
  }

  lemma EntryIsAboveFloor(row: seq<nat>, j: nat)
    requires j < |row|
    ensures AboveFloor(row, j)
  {
    var d := (RowCount(row) + |row|) as real;
    LaplaceEntry(row, j);
    QuotientOrder(1, row[j] + 1, d);
    QuotientOrder(row[j] + 1, 1, d);
  }

  lemma SmoothedRowSumsToOne(row: seq<nat>)
    requires row != []
    ensures Add(LaplaceRow(row)) == 1.0
  {
    var d := (RowCount(row) + |row|) as real;
    SmoothedTotal(row);
    forall j | 0 <= j < |row| ensures LaplaceRow(row)[j] == Smoothed(row)[j] / d {
      LaplaceEntry(row, j);
    }
    AddScales(Smoothed(row), d, LaplaceRow(row));
    SelfQuotient(d);
  }

  lemma SelfQuotient(x: real)
    requires x > 0.0
    ensures x / x == 1.0
  {
  }

  // A smoothed row is a probability distribution without zeros: it sums to exactly 1, no entry
  // is below 1 / (row count + n), and only unseen transitions sit on that floor.
  lemma LaplaceRowIsDistribution(row: seq<nat>)
    requires row != []
    ensures Add(LaplaceRow(row)) == 1.0
    ensures forall j :: 0 <= j < |row| ==> AboveFloor(row, j)
  {
    SmoothedRowSumsToOne(row);
    forall j | 0 <= j < |row| ensures AboveFloor(row, j) {
      EntryIsAboveFloor(row, j);
    }
  }

  ghost predicate AboveFloor(row: seq<nat>, j: nat)
    requires j < |row|
  {
    var floor := 1.0 / (RowCount(row) + |row|) as real;
    && LaplaceRow(row)[j] >= floor > 0.0
    && (LaplaceRow(row)[j] == floor <==> row[j] == 0)
  }

  // Within a row smoothing neither swaps nor merges counts.
  lemma LaplaceKeepsOrder(row: seq<nat>, j: nat, k: nat)
    requires j < |row| && k < |row|
    ensures LaplaceRow(row)[j] <= LaplaceRow(row)[k] <==> row[j] <= row[k]
  {
    LaplaceEntry(row, j);
    LaplaceEntry(row, k);
    QuotientOrder(row[j] + 1, row[k] + 1, (RowCount(row) + |row|) as real);
  }

  // Counting and smoothing together: whatever streams a baseline was built from, every
  // transition into a boundary event keeps the floor probability of its row.
  lemma BoundaryTransitionsStayOnTheFloor(
    episodes: seq<seq<Event>>, index: seq<EventType>, boundary: EventType, counts: seq<seq<nat>>, i: nat, row: seq<nat>)
    requires forall e :: e in episodes ==> BoundaryOnlyAtHead(e)
    requires boundary in index && IsBoundary(boundary)
    requires i < |counts| && counts[i] == row && |row| == |index|
    requires forall j :: 0 <= j < |index| ==>
      row[j] == Count(Cell(IndexMap(index), i, j), AllTransitions(episodes))
    ensures var smoothed := LaplaceSmoothAndNormalize(counts)[i];
      && |smoothed| == |index|
      && smoothed[IndexMap(index)[boundary]] == 1.0 / (RowCount(row) + |index|) as real
      && forall j :: 0 <= j < |index| ==> smoothed[IndexMap(index)[boundary]] <= smoothed[j]
  {
    var b := IndexMap(index)[boundary];
    BoundaryColumnIsZero(episodes, index, boundary, i);
    LaplaceRowIsDistribution(row);
    assert AboveFloor(row, b);
    forall j | 0 <= j < |index| ensures LaplaceRow(row)[b] <= LaplaceRow(row)[j] {
      assert AboveFloor(row, j);
    }
  }

  // ---- episode scores --------------------------------------------------------------

  ghost predicate CoversIndex(logProb: seq<seq<real>>, idx: map<EventType, nat>) {
    forall t :: t in idx ==> idx[t] < |logProb| && forall i :: 0 <= i < |logProb| ==> idx[t] < |logProb[i]|
  }

  function LogOf(logProb: seq<seq<real>>, idx: map<EventType, nat>, t: Transition): real {
    if Known(idx, t) && idx[t.0] < |logProb| && idx[t.1] < |logProb[idx[t.0]]|
    then logProb[idx[t.0]][idx[t.1]] else 0.0
  }

  function LogIn(logProb: seq<seq<real>>, idx: map<EventType, nat>): Transition -> real {
    t => LogOf(logProb, idx, t)
  }

  // The mean over the known transitions of an episode, 0 when there is none.
  function EpisodeScore(episode: seq<Event>, logProb: seq<seq<real>>, idx: map<EventType, nat>): real {
    var known := Filter(KnownIn(idx), Transitions(episode));
    if known == [] then 0.0 else Sum(LogIn(logProb, idx), known) / |known| as real
  }

  method ScoreEpisode(episode: seq<Event>, logProb: seq<seq<real>>, idx: map<EventType, nat>) returns (score: real)
    requires CoversIndex(logProb, idx)
    ensures score == EpisodeScore(episode, logProb, idx)
  {
    if |episode| < 2 {
      return 0.0;
    }
    var sum, n := 0.0, 0;
    ghost var ts, p, f := Transitions(episode), KnownIn(idx), LogIn(logProb, idx);
    for k := 0 to |episode| - 1
      invariant n == |Filter(p, ts[..k])|
      invariant sum == Sum(f, Filter(p, ts[..k]))
    {
      var a, b := episode[k].etype, episode[k + 1].etype;
      FilterStep(p, ts, k);
      SumStep(f, Filter(p, ts[..k]), (a, b));
      if a in idx && b in idx {
        sum := sum + logProb[idx[a]][idx[b]];
        n := n + 1;
      } else {
        assert Filter(p, ts[..k]) + [] == Filter(p, ts[..k]);
      }
    }
    assert ts[..|ts|] == ts;
    score := if n > 0 then sum / n as real else 0.0;
  }

  // Two events score the entry in the row of the first and the column of the second.
  lemma TwoEventScore(a: Event, b: Event, logProb: seq<seq<real>>, idx: map<EventType, nat>)
    requires CoversIndex(logProb, idx)
    ensures EpisodeScore([a, b], logProb, idx) ==
      if a.etype in idx && b.etype in idx then logProb[idx[a.etype]][idx[b.etype]] else 0.0
  {
    var t := (a.etype, b.etype);
    assert Transitions([a, b]) == [t];
    FilterSingleton(KnownIn(idx), t);
    if Known(idx, t) {
      assert Filter(KnownIn(idx), [t]) == [t] && [t][..0] == [];
      assert Sum(LogIn(logProb, idx), [t]) == LogOf(logProb, idx, t);
    }
  }

  lemma SumStep(f: Transition -> real, ts: seq<Transition>, t: Transition)
    ensures Sum(f, ts + [t]) == Sum(f, ts) + f(t)
  {
    assert (ts + [t])[..|ts|] == ts;
  }

  lemma {:induction false} SumAtLeast<T>(f: T -> real, s: seq<T>, bound: real)
    requires forall t :: t in s ==> f(t) >= bound
    ensures Sum(f, s) >= bound * |s| as real
  {
    if s != [] {
      SumAtLeast(f, s[..|s| - 1], bound);
    }
  }

  lemma {:induction false} SumBelow<T>(f: T -> real, s: seq<T>, bound: real)
    requires s != [] && forall t :: t in s ==> f(t) < bound
    ensures Sum(f, s) < bound * |s| as real
  {
    if |s| > 1 {
      SumBelow(f, s[..|s| - 1], bound);
    } else {
      assert Sum(f, s[..0]) == 0.0;
    }
  }

  // A mean is below a bound only if some term is, and is below it if every term is.
  lemma MeanBelow<T>(f: T -> real, s: seq<T>, bound: real)
    requires s != []
    ensures Sum(f, s) / |s| as real < bound ==> exists t :: t in s && f(t) < bound
    ensures (forall t :: t in s ==> f(t) < bound) ==> Sum(f, s) / |s| as real < bound
  {
    QuotientBelow(Sum(f, s), |s| as real, bound);
    if forall t :: t in s ==> f(t) >= bound {
      SumAtLeast(f, s, bound);
    }
    if forall t :: t in s ==> f(t) < bound {
      SumBelow(f, s, bound);
    }
  }

  // A score below a negative threshold is never an artefact of averaging: some adjacent pair
  // with both types indexed is itself below it.
  lemma LowScoreHasLowTransition(episode: seq<Event>, logProb: seq<seq<real>>, idx: map<EventType, nat>, threshold: real)
    requires threshold <= 0.0 && EpisodeScore(episode, logProb, idx) < threshold
    ensures exists t :: t in Transitions(episode) && Known(idx, t) && LogOf(logProb, idx, t) < threshold
  {
    var known, f := Filter(KnownIn(idx), Transitions(episode)), LogIn(logProb, idx);
    MeanBelow(f, known, threshold);
    var t :| t in known && f(t) < threshold;
    FilterMember(KnownIn(idx), Transitions(episode), t);
  }

  // And an episode whose known pairs are all below a threshold scores below it.
  lemma LowTransitionsGiveLowScore(
    episode: seq<Event>, logProb: seq<seq<real>>, idx: map<EventType, nat>, threshold: real, some: Transition)
    requires some in Transitions(episode) && Known(idx, some)
    requires forall t :: t in Filter(KnownIn(idx), Transitions(episode)) ==> LogOf(logProb, idx, t) < threshold
    ensures EpisodeScore(episode, logProb, idx) < threshold
  {
    var known, f := Filter(KnownIn(idx), Transitions(episode)), LogIn(logProb, idx);
    FilterMember(KnownIn(idx), Transitions(episode), some);
    MeanBelow(f, known, threshold);
  }
}

// The per-site scoring phase: tasks behind a semaphore, shared counters, and a gather before org-wide scoring.
module FanOut {
  import opened Sequences

  const CONCURRENCY: nat := 4

  datatype Outcome = Scored | SkippedEmpty | Failed

  datatype Status = Queued | InFlight | Done(outcome: Outcome)

  // What score() did: a count of records, or an exception.
  datatype ScoreResult = Returned(records: int) | Raised

  function OutcomeOf(r: ScoreResult): Outcome {
    match r
    case Raised => Failed
    case Returned(n) => if n > 0 then Scored else SkippedEmpty
  }

  datatype Phase = Phase(
    sites: seq<string>,
    tasks: seq<Status>,
    permits: nat,
    scored: nat,
    skipped: nat,
    failed: nat,
    sitesScored: set<string>,
    orgScoring: bool)

  function Start(sites: seq<string>): Phase {
    Phase(sites, seq(|sites|, _ => Queued), CONCURRENCY, 0, 0, 0, {}, false)
  }

  datatype Step = Enter(task: nat) | Finish(task: nat, result: ScoreResult) | StartOrgScoring

  ghost predicate AllDone(p: Phase) {
    forall i :: 0 <= i < |p.tasks| ==> p.tasks[i].Done?
  }

  ghost predicate Enabled(p: Phase, step: Step) {
    match step
    case Enter(i) => i < |p.tasks| && p.tasks[i] == Queued && p.permits > 0
    case Finish(i, _) => i < |p.tasks| && i < |p.sites| && p.tasks[i] == InFlight
    case StartOrgScoring => AllDone(p) && !p.orgScoring
  }

  ghost function Next(p: Phase, step: Step): Phase
    requires Enabled(p, step)
  {
    match step
    case Enter(i) => p.(tasks := p.tasks[i := InFlight], permits := p.permits - 1)
    case Finish(i, r) =>
      var q := p.(tasks := p.tasks[i := Done(OutcomeOf(r))], permits := p.permits + 1);
      (match OutcomeOf(r)
       case Scored => q.(scored := q.scored + 1, sitesScored := q.sitesScored + {p.sites[i]})
       case SkippedEmpty => q.(skipped := q.skipped + 1)
       case Failed => q.(failed := q.failed + 1))
    case StartOrgScoring => p.(orgScoring := true)
  }

  predicate IsInFlight(t: Status) { t == InFlight }
  predicate IsScored(t: Status) { t == Done(Scored) }
  predicate IsSkipped(t: Status) { t == Done(SkippedEmpty) }
  predicate IsFailed(t: Status) { t == Done(Failed) }
  predicate IsDone(t: Status) { t.Done? }

  // Counters are tallies, permits are what the tasks in flight have left, and the org-wide
  // phase has begun only if no task is left.
  ghost predicate Accounted(p: Phase) {
    && |p.sites| == |p.tasks|
    && p.permits + Count(IsInFlight, p.tasks) == CONCURRENCY
    && p.scored == Count(IsScored, p.tasks)
    && p.skipped == Count(IsSkipped, p.tasks)
    && p.failed == Count(IsFailed, p.tasks)
    && SitesMatch(p)
    && (p.orgScoring ==> AllDone(p))
  }

  ghost predicate Possible(p: Phase, steps: seq<Step>)
    decreases |steps|, 0
  {
    steps == [] ||
    (Possible(p, steps[..|steps| - 1]) && Enabled(After(p, steps[..|steps| - 1]), steps[|steps| - 1]))
  }

  ghost function After(p: Phase, steps: seq<Step>): Phase
    requires Possible(p, steps)
    decreases |steps|, 1
  {
    if steps == [] then p else Next(After(p, steps[..|steps| - 1]), steps[|steps| - 1])
  }

  lemma StartAccounted(sites: seq<string>)
    ensures Accounted(Start(sites))
  {
    var tasks := Start(sites).tasks;
    CountZero(IsInFlight, tasks);
    CountZero(IsScored, tasks);
    CountZero(IsSkipped, tasks);
    CountZero(IsFailed, tasks);
  }

  lemma StepTallies(tasks: seq<Status>, i: nat, t: Status)
    requires i < |tasks|
    ensures Count(IsInFlight, tasks[i := t]) ==
            Count(IsInFlight, tasks) - (if IsInFlight(tasks[i]) then 1 else 0) + (if IsInFlight(t) then 1 else 0)
    ensures Count(IsScored, tasks[i := t]) ==
            Count(IsScored, tasks) - (if IsScored(tasks[i]) then 1 else 0) + (if IsScored(t) then 1 else 0)
    ensures Count(IsSkipped, tasks[i := t]) ==
            Count(IsSkipped, tasks) - (if IsSkipped(tasks[i]) then 1 else 0) + (if IsSkipped(t) then 1 else 0)
    ensures Count(IsFailed, tasks[i := t]) ==
            Count(IsFailed, tasks) - (if IsFailed(tasks[i]) then 1 else 0) + (if IsFailed(t) then 1 else 0)
    ensures Count(IsDone, tasks[i := t]) ==
            Count(IsDone, tasks) - (if IsDone(tasks[i]) then 1 else 0) + (if IsDone(t) then 1 else 0)
  {
    CountUpdate(IsInFlight, tasks, i, t);
    CountUpdate(IsScored, tasks, i, t);
    CountUpdate(IsSkipped, tasks, i, t);
    CountUpdate(IsFailed, tasks, i, t);
    CountUpdate(IsDone, tasks, i, t);
  }

  // The sites with a scored task.
  ghost predicate SitesMatch(p: Phase)
    requires |p.sites| == |p.tasks|
  {
    forall s :: s in p.sitesScored <==> HasScored(p, s)
  }

  ghost predicate ScoredAmong(sites: seq<string>, tasks: seq<Status>, site: string)
    requires |sites| == |tasks|
  {
    exists i :: 0 <= i < |tasks| && sites[i] == site && tasks[i] == Done(Scored)
  }

  ghost predicate HasScored(p: Phase, site: string)
    requires |p.sites| == |p.tasks|
  {
    ScoredAmong(p.sites, p.tasks, site)
  }

  lemma ScoredUpdate(sites: seq<string>, tasks: seq<Status>, i: nat, t: Status, site: string)
    requires |sites| == |tasks| && i < |tasks| && tasks[i] != Done(Scored)
    ensures ScoredAmong(sites, tasks[i := t], site)
      <==> ScoredAmong(sites, tasks, site) || (t == Done(Scored) && site == sites[i])
  {
    var after := tasks[i := t];
    if ScoredAmong(sites, tasks, site) {
      var k :| 0 <= k < |tasks| && sites[k] == site && tasks[k] == Done(Scored);
      assert after[k] == Done(Scored);
    }
    if t == Done(Scored) && site == sites[i] {
      assert after[i] == Done(Scored);
    }
    if ScoredAmong(sites, after, site) {
      var k :| 0 <= k < |after| && sites[k] == site && after[k] == Done(Scored);
      assert k != i ==> tasks[k] == Done(Scored);
    }
  }

  lemma StepSites(p: Phase, step: Step)
    requires |p.sites| == |p.tasks| && SitesMatch(p) && Enabled(p, step)
    ensures SitesMatch(Next(p, step))
  {
    forall s ensures s in Next(p, step).sitesScored <==> HasScored(Next(p, step), s) {
      match step
      case Enter(i) => ScoredUpdate(p.sites, p.tasks, i, InFlight, s);
      case Finish(i, r) => ScoredUpdate(p.sites, p.tasks, i, Done(OutcomeOf(r)), s);
      case StartOrgScoring =>
    }
  }

  lemma StepKeepsAccount(p: Phase, step: Step)
    requires Accounted(p) && Enabled(p, step)
    ensures Accounted(Next(p, step))
  {
    StepSites(p, step);
    match step
    case Enter(i) => StepTallies(p.tasks, i, InFlight);
    case Finish(i, r) => StepTallies(p.tasks, i, Done(OutcomeOf(r)));
    case StartOrgScoring =>
  }

  // Three outcomes, no overlap: the counters together count the finished tasks.
  lemma {:induction false} OutcomesPartition(tasks: seq<Status>)
    ensures Count(IsScored, tasks) + Count(IsSkipped, tasks) + Count(IsFailed, tasks) == Count(IsDone, tasks)
    ensures Count(IsDone, tasks) + Count(IsInFlight, tasks) <= |tasks|
  {
    if tasks != [] {
      OutcomesPartition(tasks[..|tasks| - 1]);
      match tasks[|tasks| - 1]
      case Done(Scored) =>
      case Done(SkippedEmpty) =>
      case Done(Failed) =>
      case _ =>
    }
  }

  // Every interleaving: at most four tasks in flight, counters that tally, a sum that reaches
  // the number of pairs exactly when all are done, and no org-wide scoring before that.
  lemma {:induction false} EveryInterleaving(sites: seq<string>, steps: seq<Step>)
    requires Possible(Start(sites), steps)
    ensures var p := After(Start(sites), steps);
      && Accounted(p)
      && |p.tasks| == |sites|
      && Count(IsInFlight, p.tasks) <= 4
      && p.scored + p.skipped + p.failed <= |sites|
      && (p.scored + p.skipped + p.failed == |sites| <==> AllDone(p))
      && (p.orgScoring ==> p.scored + p.skipped + p.failed == |sites|)
  {
    if steps == [] {
      StartAccounted(sites);
    } else {
      var before := steps[..|steps| - 1];
      EveryInterleaving(sites, before);
      StepKeepsAccount(After(Start(sites), before), steps[|steps| - 1]);
    }
    var p := After(Start(sites), steps);
    OutcomesPartition(p.tasks);
    DoneCountsAll(p);
  }

  lemma DoneCountsAll(p: Phase)
    ensures Count(IsDone, p.tasks) == |p.tasks| <==> AllDone(p)
  {
    if AllDone(p) {
      CountAll(IsDone, p.tasks);
    } else {
      var i :| 0 <= i < |p.tasks| && !p.tasks[i].Done?;
      CountUpdate(IsDone, p.tasks, i, Done(Failed));
      FilterCount(IsDone, p.tasks[i := Done(Failed)]);
    }
  }

  // A fifth task waits, a fourth does not.
  lemma EntersBelowFour(p: Phase, i: nat)
    requires Accounted(p) && i < |p.tasks|
    ensures Enabled(p, Enter(i)) <==> p.tasks[i] == Queued && Count(IsInFlight, p.tasks) < 4
  {
  }

  // ---- progress -----------------------------------------------------------------

  // Steps left: two for a queued task, one for a task in flight, one for the phase itself.
  ghost function StepsLeft(p: Phase): int {
    2 * (|p.tasks| - Count(IsDone, p.tasks)) - Count(IsInFlight, p.tasks) + if p.orgScoring then 0 else 1
  }

  lemma EachStepCountsDown(p: Phase, step: Step)
    requires Accounted(p) && Enabled(p, step)
    ensures StepsLeft(p) > 0
    ensures StepsLeft(Next(p, step)) == StepsLeft(p) - 1
  {
    OutcomesPartition(p.tasks);
    match step
    case Enter(i) =>
      StepTallies(p.tasks, i, InFlight);
      OutcomesPartition(p.tasks[i := InFlight]);
    case Finish(i, r) =>
      StepTallies(p.tasks, i, Done(OutcomeOf(r)));
    case StartOrgScoring =>
  }

  // Nothing deadlocks: until the org-wide phase starts, some step can be taken.
  lemma NeverStuck(p: Phase)
    requires Accounted(p) && !p.orgScoring
    ensures exists step :: Enabled(p, step)
  {
    if AllDone(p) {
      assert Enabled(p, StartOrgScoring);
    } else if exists i :: 0 <= i < |p.tasks| && p.tasks[i] == InFlight {
      var i :| 0 <= i < |p.tasks| && p.tasks[i] == InFlight;
      assert Enabled(p, Finish(i, Raised));
    } else {
      var i :| 0 <= i < |p.tasks| && p.tasks[i] == Queued;
      CountZero(IsInFlight, p.tasks);
      assert Enabled(p, Enter(i));
    }
  }

  // Every schedule takes two steps per pair and one more, no matter what the scores were.
  lemma {:induction false} EveryScheduleHasTheSameLength(sites: seq<string>, steps: seq<Step>)
    requires Possible(Start(sites), steps)
    ensures |steps| + StepsLeft(After(Start(sites), steps)) == 2 * |sites| + 1
    ensures After(Start(sites), steps).orgScoring ==> |steps| == 2 * |sites| + 1
  {
    if steps == [] {
      CountZero(IsDone, Start(sites).tasks);
      CountZero(IsInFlight, Start(sites).tasks);
    } else {
      var before := steps[..|steps| - 1];
      EveryScheduleHasTheSameLength(sites, before);
      EveryInterleaving(sites, before);
      EachStepCountsDown(After(Start(sites), before), steps[|steps| - 1]);
    }
    var p := After(Start(sites), steps);
    if p.orgScoring {
      EveryInterleaving(sites, steps);
      CountAll(IsDone, p.tasks);
      CountZero(IsInFlight, p.tasks);
    }
  }

  // ---- the shared state as the tasks update it -------------------------------------

  class Phase3 {
    const sites: seq<string>
    var tasks: seq<Status>
    var permits: nat
    var scored: nat
    var skipped: nat
    var failed: nat
    var sitesScored: set<string>

    ghost function View(): Phase
      reads this
    {
      Phase(sites, tasks, permits, scored, skipped, failed, sitesScored, false)
    }

    constructor (sites: seq<string>)
      ensures View() == Start(sites)
    {
      this.sites := sites;
      tasks := seq(|sites|, _ => Queued);
      permits := CONCURRENCY;
      scored, skipped, failed := 0, 0, 0;
      sitesScored := {};
    }

    method EnterSemaphore(i: nat)
      requires Enabled(View(), Enter(i))
      modifies this
      ensures View() == Next(old(View()), Enter(i))
    {
      permits := permits - 1;
      tasks := tasks[i := InFlight];
    }

    method RecordResult(i: nat, result: ScoreResult)
      requires Enabled(View(), Finish(i, result))
      modifies this
      ensures View() == Next(old(View()), Finish(i, result))
    {
      tasks := tasks[i := Done(OutcomeOf(result))];
      permits := permits + 1;
      if result.Raised? {
        failed := failed + 1;
      } else if result.records > 0 {
        scored := scored + 1;
        sitesScored := sitesScored + {sites[i]};
      } else {
        skipped := skipped + 1;
      }
    }

    // One turn of the event loop: some task that can move does.
    method TakeTurn(results: seq<ScoreResult>)
      requires Accounted(View()) && FollowsResults(tasks, results) && !AllDone(View())
      modifies this
      ensures Accounted(View()) && FollowsResults(tasks, results)
      ensures 0 <= StepsLeft(View()) < StepsLeft(old(View()))
    {
      ghost var p := View();
      SomeTaskCanMove(p);
      if {
        case i: nat :| i < |tasks| && tasks[i] == InFlight =>
          EachStepCountsDown(p, Finish(i, results[i]));
          StepKeepsAccount(p, Finish(i, results[i]));
          RecordResult(i, results[i]);
        case i: nat :| i < |tasks| && tasks[i] == Queued && permits > 0 =>
          EachStepCountsDown(p, Enter(i));
          StepKeepsAccount(p, Enter(i));
          EnterSemaphore(i);
      }
    }

    // Gather: the event loop takes any step it can until every task is done. Whatever it
    // picks, the final counters are those of the results alone.
    method Gather(results: seq<ScoreResult>)
      requires View() == Start(sites) && |results| == |sites|
      modifies this
      ensures AllDone(View())
      ensures scored == Count(WithRecords, results)
      ensures skipped == Count(WithoutRecords, results)
      ensures failed == Count(Threw, results)
      ensures scored + skipped + failed == |sites|
      ensures forall s :: s in sitesScored <==> exists i :: 0 <= i < |sites| && sites[i] == s && WithRecords(results[i])
    {
      StartAccounted(sites);
      while exists i :: 0 <= i < |tasks| && !tasks[i].Done?
        invariant Accounted(View()) && FollowsResults(tasks, results)
        decreases StepsLeft(View())
      {
        TakeTurn(results);
      }
      OutcomesByRecords(tasks, results);
      CountAligned(IsScored, tasks, WithRecords, results);
      CountAligned(IsSkipped, tasks, WithoutRecords, results);
      CountAligned(IsFailed, tasks, Threw, results);
      OutcomesPartition(tasks);
      CountAll(IsDone, tasks);
    }
  }

  ghost predicate WithRecords(r: ScoreResult) { r.Returned? && r.records > 0 }
  ghost predicate WithoutRecords(r: ScoreResult) { r.Returned? && r.records <= 0 }
  ghost predicate Threw(r: ScoreResult) { r.Raised? }

  lemma OutcomesByRecords(tasks: seq<Status>, results: seq<ScoreResult>)
    requires FollowsResults(tasks, results) && forall i :: 0 <= i < |tasks| ==> tasks[i].Done?
    ensures forall i :: 0 <= i < |tasks| ==>
      && (IsScored(tasks[i]) <==> WithRecords(results[i]))
      && (IsSkipped(tasks[i]) <==> WithoutRecords(results[i]))
      && (IsFailed(tasks[i]) <==> Threw(results[i]))
  {
  }

  // A finished task has the outcome of its own result.
  ghost predicate FollowsResults(tasks: seq<Status>, results: seq<ScoreResult>) {
    && |tasks| == |results|
    && forall i :: 0 <= i < |tasks| && tasks[i].Done? ==> tasks[i] == Done(OutcomeOf(results[i]))
  }

  lemma SomeTaskCanMove(p: Phase)
    requires Accounted(p) && !p.orgScoring && !AllDone(p)
    ensures exists i: nat :: i < |p.tasks| && (p.tasks[i] == InFlight || (p.tasks[i] == Queued && p.permits > 0))
  {
    NeverStuck(p);
    var step :| Enabled(p, step);
    match step
    case Enter(i) => assert i < |p.tasks| && p.tasks[i] == Queued;
    case Finish(i, r) => assert i < |p.tasks| && p.tasks[i] == InFlight;
    case StartOrgScoring =>
  }
}

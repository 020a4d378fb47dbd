// The global operation mutex, a Redis key with a time to live, and all backend tasks as one timed system.
module GlobalLock {
  import opened Vocabulary
  import opened Sequences

  datatype Operation = Collecting | Detecting

  // Six hours, in seconds.
  const TTL := 21600

  datatype Entry = Entry(operation: Operation, startedAt: int, expiresAt: int)

  // What Redis shows of the key at a moment: nothing once it has expired.
  function Live(key: Option<Entry>, now: int): Option<Entry> {
    if key.Some? && now < key.value.expiresAt then key else None
  }

  function FreshEntry(operation: Operation, now: int): Option<Entry> {
    Some(Entry(operation, now, now + TTL))
  }

  function SetIfAbsent(key: Option<Entry>, operation: Operation, now: int): Option<Entry> {
    if Live(key, now).Some? then key else FreshEntry(operation, now)
  }

  function Deleted(): Option<Entry> {
    None
  }

  // Reads before it deletes, as the startup hook does; an expired key needs no deletion.
  function Cleared(key: Option<Entry>, now: int): Option<Entry> {
    if Live(key, now).Some? then Deleted() else key
  }

  // The key as the lock helpers drive it.
  class LockKey {
    var entry: Option<Entry>

    constructor ()
      ensures entry == None
    {
      entry := None;
    }

    method Acquire(operation: Operation, now: int) returns (acquired: bool)
      modifies this
      ensures acquired <==> Live(old(entry), now).None?
      ensures acquired <==> old(entry).None? || old(entry).value.expiresAt <= now
      ensures acquired ==> entry == Some(Entry(operation, now, now + 21600))
      ensures entry == SetIfAbsent(old(entry), operation, now)
      ensures acquired ==> Live(entry, now) == Some(Entry(operation, now, now + TTL))
      ensures !acquired ==> entry == old(entry)
    {
      acquired := Live(entry, now).None?;
      if acquired {
        entry := Some(Entry(operation, now, now + TTL));
      }
    }

    method Release()
      modifies this
      ensures forall now :: Live(entry, now) == None
      ensures entry == Deleted()
    {
      entry := None;
    }

    method Transfer(operation: Operation, now: int)
      modifies this
      ensures entry == FreshEntry(operation, now)
      ensures entry == Some(Entry(operation, now, now + 21600))
    {
      entry := Some(Entry(operation, now, now + TTL));
    }

    method ClearStale(now: int)
      modifies this
      ensures entry == Cleared(old(entry), now)
      ensures forall later :: now <= later ==> Live(entry, later) == None
    {
      if Live(entry, now).Some? {
        entry := None;
      }
    }
  }

  // ---- the backend as a transition system -----------------------------------

  datatype TaskKind = DetectPipeline | CollectFull | CollectEventsOnly | EventPoll

  function FirstOperation(kind: TaskKind): Operation {
    if kind == DetectPipeline then Detecting else Collecting
  }

  // Only these two hand their lock over from collecting to detecting.
  predicate ChainsDetection(kind: TaskKind) {
    kind == CollectFull || kind == EventPoll
  }

  // `since` is the time of the task's last SET of the key.
  datatype Task = Waiting | Inside(operation: Operation, since: int) | TurnedAway | Finished

  datatype System = System(
    now: int,
    key: Option<Entry>,
    booting: bool,
    kinds: seq<TaskKind>,
    tasks: seq<Task>)

  datatype Step =
    | Tick(seconds: nat)
    | Acquire(task: nat)
    | Transfer(task: nat)
    | Release(task: nat)
    | ForceUnlock
    | Crash
    | Boot

  // A process that has just started: any key of an earlier life may still be there.
  ghost predicate Initial(s: System) {
    && s.booting
    && |s.kinds| == |s.tasks|
    && forall i :: 0 <= i < |s.tasks| ==> s.tasks[i] == Waiting
  }

  ghost predicate Enabled(s: System, step: Step) {
    match step
    case Tick(_) => true
    case Acquire(i) => !s.booting && i < |s.tasks| && s.tasks[i] == Waiting
    case Transfer(i) =>
      && !s.booting && i < |s.tasks| && i < |s.kinds|
      && ChainsDetection(s.kinds[i]) && s.tasks[i].Inside? && s.tasks[i].operation == Collecting
    case Release(i) => !s.booting && i < |s.tasks| && s.tasks[i].Inside?
    case ForceUnlock => !s.booting
    case Crash => true
    case Boot => s.booting
  }

  ghost function Next(s: System, step: Step): System
    requires |s.kinds| == |s.tasks| && Enabled(s, step)
  {
    match step
    case Tick(d) => s.(now := s.now + d)
    case Acquire(i) =>
      var operation := FirstOperation(s.kinds[i]);
      if Live(s.key, s.now).Some? then s.(tasks := s.tasks[i := TurnedAway])
      else s.(key := SetIfAbsent(s.key, operation, s.now), tasks := s.tasks[i := Inside(operation, s.now)])
    case Transfer(i) =>
      s.(key := FreshEntry(Detecting, s.now), tasks := s.tasks[i := Inside(Detecting, s.now)])
    case Release(i) => s.(key := Deleted(), tasks := s.tasks[i := Finished])
    case ForceUnlock => s.(key := Deleted())
    case Crash => s.(booting := true, tasks := Map(Killed, s.tasks))
    case Boot => s.(booting := false, key := Cleared(s.key, s.now))
  }

  function Killed(t: Task): Task {
    if t.Inside? then Finished else t
  }

  // The state a run reaches, and whether each of its steps was possible.
  ghost predicate Possible(s: System, steps: seq<Step>)
    decreases |steps|, 0
  {
    |s.kinds| == |s.tasks| &&
    (steps == [] ||
     (Possible(s, steps[..|steps| - 1]) && Enabled(After(s, steps[..|steps| - 1]), steps[|steps| - 1])))
  }

  ghost function After(s: System, steps: seq<Step>): (r: System)
    requires Possible(s, steps)
    ensures |r.kinds| == |r.tasks| == |s.tasks|
    decreases |steps|, 1
  {
    if steps == [] then s else Next(After(s, steps[..|steps| - 1]), steps[|steps| - 1])
  }

  predicate IsInside(t: Task) {
    t.Inside?
  }

  function Insiders(s: System): nat {
    Count(IsInside, s.tasks)
  }

  // ---- what holds when every holder keeps its deadline ----------------------

  // Every task inside has SET the key less than a time to live ago.
  ghost predicate Timely(s: System) {
    forall i :: 0 <= i < |s.tasks| && s.tasks[i].Inside? ==> s.now < s.tasks[i].since + TTL
  }

  ghost predicate Exclusive(s: System) {
    forall i, j :: 0 <= i < |s.tasks| && 0 <= j < |s.tasks| && s.tasks[i].Inside? && s.tasks[j].Inside?
      ==> i == j
  }

  // The key is there exactly while a task is inside, and names what that task is doing.
  ghost predicate KeyNamesHolder(s: System) {
    && (Live(s.key, s.now).Some? ==> exists i :: 0 <= i < |s.tasks| && s.tasks[i].Inside?)
    && forall i :: 0 <= i < |s.tasks| && s.tasks[i].Inside? ==>
        s.key == Some(Entry(s.tasks[i].operation, s.tasks[i].since, s.tasks[i].since + TTL))
        && Live(s.key, s.now).Some?
  }

  ghost predicate LockHeldRight(s: System) {
    if s.booting then forall i :: 0 <= i < |s.tasks| ==> !s.tasks[i].Inside?
    else Exclusive(s) && KeyNamesHolder(s)
  }

  // No forced unlock while a task is inside, and no holder outstays its time to live.
  ghost predicate Undisturbed(s: System, steps: seq<Step>)
    requires Possible(s, steps)
  {
    steps == [] ||
    (var before := steps[..|steps| - 1];
     && Undisturbed(s, before)
     && (steps[|steps| - 1] == ForceUnlock ==> Insiders(After(s, before)) == 0)
     && Timely(After(s, steps)))
  }

  lemma NobodyInside(s: System)
    ensures Insiders(s) == 0 <==> forall i :: 0 <= i < |s.tasks| ==> !s.tasks[i].Inside?
  {
    var p := IsInside;
    if exists i :: 0 <= i < |s.tasks| && s.tasks[i].Inside? {
      var i :| 0 <= i < |s.tasks| && s.tasks[i].Inside?;
      CountPositive(p, s.tasks, s.tasks[i]);
    } else {
      CountZero(p, s.tasks);
    }
  }

  // Entering an empty building, or handing one's own lock over.
  lemma EntryKeepsLock(s: System, i: nat, operation: Operation)
    requires i < |s.tasks| && !s.booting
    requires forall j :: 0 <= j < |s.tasks| && s.tasks[j].Inside? ==> j == i
    ensures LockHeldRight(s.(key := FreshEntry(operation, s.now), tasks := s.tasks[i := Inside(operation, s.now)]))
  {
    var t := s.(key := FreshEntry(operation, s.now), tasks := s.tasks[i := Inside(operation, s.now)]);
    assert t.tasks[i].Inside?;
  }

  lemma StepKeepsLock(s: System, step: Step)
    requires |s.kinds| == |s.tasks| && Enabled(s, step)
    requires LockHeldRight(s) && Timely(Next(s, step))
    requires step == ForceUnlock ==> Insiders(s) == 0
    ensures LockHeldRight(Next(s, step))
  {
    var t := Next(s, step);
    NobodyInside(s);
    match step
    case Acquire(i) =>
      if Live(s.key, s.now).None? {
        EntryKeepsLock(s, i, FirstOperation(s.kinds[i]));
      } else {
        var j :| 0 <= j < |s.tasks| && s.tasks[j].Inside?;
        assert t.tasks[j].Inside?;
      }
    case Transfer(i) =>
      EntryKeepsLock(s, i, Detecting);
    case Tick(_) =>
      if Live(t.key, t.now).Some? && !s.booting {
        var i :| 0 <= i < |s.tasks| && s.tasks[i].Inside?;
        assert t.tasks[i].Inside?;
      }
    case _ =>
  }

  // Safety over every run: with deadlines kept and no forced unlock, at most one task is ever
  // inside, and the key says which operation that is.
  lemma {:induction false} MutualExclusion(s: System, steps: seq<Step>)
    requires Initial(s) && Possible(s, steps) && Undisturbed(s, steps)
    ensures LockHeldRight(After(s, steps))
  {
    if steps != [] {
      var before := steps[..|steps| - 1];
      MutualExclusion(s, before);
      StepKeepsLock(After(s, before), steps[|steps| - 1]);
    }
  }

  // The hand-over leaves no gap: before it and after it a second task is turned away, the key
  // stays put throughout, and turning away never touches it.
  lemma TransferLeavesNoGap(s: System, steps: seq<Step>, holder: nat, other: nat)
    requires Initial(s) && Possible(s, steps) && Undisturbed(s, steps)
    requires Enabled(After(s, steps), Transfer(holder)) && Enabled(After(s, steps), Acquire(other))
    ensures var t := After(s, steps);
            && Live(t.key, t.now).Some? && t.key.value.operation == Collecting
            && Next(t, Acquire(other)) == t.(tasks := t.tasks[other := TurnedAway])
    ensures var t := Next(After(s, steps), Transfer(holder));
            && Live(t.key, t.now) == Some(Entry(Detecting, t.now, t.now + TTL))
            && Enabled(t, Acquire(other))
            && Next(t, Acquire(other)) == t.(tasks := t.tasks[other := TurnedAway])
  {
    MutualExclusion(s, steps);
  }

  // ---- which operation a task is inside with -------------------------------

  ghost predicate NamesItsOperation(s: System, steps: seq<Step>, i: nat)
    requires Possible(s, steps) && i < |s.tasks|
  {
    var t := After(s, steps);
    && t.kinds == s.kinds
    && (t.tasks[i] == Waiting ==> Transfer(i) !in steps)
    && (Transfer(i) in steps ==> s.kinds[i] in {CollectFull, EventPoll})
    && (t.tasks[i].Inside? ==>
          (t.tasks[i].operation == Detecting <==> s.kinds[i] == DetectPipeline || Transfer(i) in steps))
    && (!t.booting && t.tasks[i].Inside? && t.tasks[i].operation == Collecting ==>
          (Enabled(t, Transfer(i)) <==> s.kinds[i] in {CollectFull, EventPoll}))
  }

  // In every run a task inside is detecting exactly when it is a detect pipeline or has handed its
  // lock over, which only full collects and event polls do.
  lemma {:induction false} OperationByKind(s: System, steps: seq<Step>, i: nat)
    requires Initial(s) && Possible(s, steps) && i < |s.tasks|
    ensures NamesItsOperation(s, steps, i)
  {
    if steps != [] {
      var before, last := steps[..|steps| - 1], steps[|steps| - 1];
      assert steps == before + [last];
      OperationByKind(s, before, i);
    }
  }

  // ---- what holds in every run at all ---------------------------------------

  // The steps at which a task inside lost its key: by expiry or by a forced unlock.
  ghost predicate LosesKey(s: System, step: Step)
    requires |s.kinds| == |s.tasks| && Enabled(s, step)
  {
    && (step.Tick? || step.ForceUnlock?)
    && Insiders(s) > 0
    && Live(s.key, s.now).Some?
    && Live(Next(s, step).key, Next(s, step).now).None?
  }

  ghost function Losses(s: System, steps: seq<Step>): nat
    requires Possible(s, steps)
  {
    if steps == [] then 0 else
    var before := steps[..|steps| - 1];
    Losses(s, before) + if LosesKey(After(s, before), steps[|steps| - 1]) then 1 else 0
  }

  ghost function KeyPresent(s: System): nat {
    if Live(s.key, s.now).Some? then 1 else 0
  }

  lemma StepInsiders(s: System, step: Step, losses: nat)
    requires |s.kinds| == |s.tasks| && Enabled(s, step)
    requires s.booting ==> Insiders(s) == 0
    requires Insiders(s) <= losses + KeyPresent(s)
    ensures Next(s, step).booting ==> Insiders(Next(s, step)) == 0
    ensures Insiders(Next(s, step)) <=
            losses + (if LosesKey(s, step) then 1 else 0) + KeyPresent(Next(s, step))
  {
    var p := IsInside;
    match step
    case Acquire(i) =>
      CountUpdate(p, s.tasks, i, TurnedAway);
      CountUpdate(p, s.tasks, i, Inside(FirstOperation(s.kinds[i]), s.now));
    case Transfer(i) => CountUpdate(p, s.tasks, i, Inside(Detecting, s.now));
    case Release(i) => CountUpdate(p, s.tasks, i, Finished);
    case Crash =>
      forall t | t in Map(Killed, s.tasks) ensures !p(t) {
      }
      CountZero(p, Map(Killed, s.tasks));
    case _ =>
  }

  // With no hypothesis on timing: the tasks inside never outnumber the lost keys by more than
  // one. A releaser that deletes another task's key is already paid for by its own loss.
  lemma {:induction false} InsidersAreBounded(s: System, steps: seq<Step>)
    requires Initial(s) && Possible(s, steps)
    ensures After(s, steps).booting ==> Insiders(After(s, steps)) == 0
    ensures Insiders(After(s, steps)) <= Losses(s, steps) + KeyPresent(After(s, steps))
  {
    if steps == [] {
      NobodyInside(s);
    } else {
      var before := steps[..|steps| - 1];
      InsidersAreBounded(s, before);
      StepInsiders(After(s, before), steps[|steps| - 1], Losses(s, before));
    }
  }

  // In every run, another task gets in beside the ones inside exactly when the key is gone, and
  // then at least as many keys were lost as there are tasks inside.
  lemma SecondEntryIffKeyLost(s: System, steps: seq<Step>, other: nat)
    requires Initial(s) && Possible(s, steps)
    requires Enabled(After(s, steps), Acquire(other)) && Insiders(After(s, steps)) > 0
    ensures var t := After(s, steps);
      && (Insiders(Next(t, Acquire(other))) > Insiders(t) <==> Live(t.key, t.now).None?)
      && (Insiders(Next(t, Acquire(other))) > Insiders(t) ==> Losses(s, steps) >= Insiders(t))
  {
    var t := After(s, steps);
    InsidersAreBounded(s, steps);
    CountUpdate(IsInside, t.tasks, other, TurnedAway);
    CountUpdate(IsInside, t.tasks, other, Inside(FirstOperation(t.kinds[other]), t.now));
  }

  // The run in which each holder outstays its time to live and the next one walks in.
  ghost function OverrunSteps(k: nat): seq<Step> {
    if k == 0 then [Boot, Acquire(0)] else OverrunSteps(k - 1) + [Tick(TTL), Acquire(k)]
  }

  // The key was taken just now, the first k tasks are inside and the others wait.
  ghost predicate JustEntered(s: System, k: nat) {
    && |s.kinds| == |s.tasks| && !s.booting
    && s.key.Some? && s.key.value.expiresAt == s.now + TTL
    && Insiders(s) == k
    && forall i :: k <= i < |s.tasks| ==> s.tasks[i] == Waiting
  }

  // One overrun of the time to live lets one more task in.
  lemma OverrunLetsTheNextIn(s: System, k: nat)
    requires JustEntered(s, k) && 0 < k < |s.tasks|
    ensures LosesKey(s, Tick(TTL)) && Enabled(Next(s, Tick(TTL)), Acquire(k))
    ensures !LosesKey(Next(s, Tick(TTL)), Acquire(k))
    ensures JustEntered(Next(Next(s, Tick(TTL)), Acquire(k)), k + 1)
  {
    CountUpdate(IsInside, s.tasks, k, Inside(FirstOperation(s.kinds[k]), s.now + TTL));
  }

  lemma FirstEntry(s: System)
    requires Initial(s) && |s.tasks| > 0
    ensures JustEntered(Next(Next(s, Boot), Acquire(0)), 1)
  {
    NobodyInside(s);
    CountUpdate(IsInside, s.tasks, 0, Inside(FirstOperation(s.kinds[0]), s.now));
  }

  lemma FirstTwoSteps(s: System)
    requires Initial(s) && |s.tasks| > 0
    ensures Possible(s, OverrunSteps(0)) && Losses(s, OverrunSteps(0)) == 0
    ensures After(s, OverrunSteps(0)) == Next(Next(s, Boot), Acquire(0))
  {
    var one := [Boot];
    assert one[..0] == [] && OverrunSteps(0)[..1] == one;
    assert After(s, []) == s && After(s, one) == Next(s, Boot);
    assert Losses(s, []) == 0 && Losses(s, one) == 0;
  }

  lemma TwoMoreSteps(s: System, done: seq<Step>, x: Step, y: Step)
    requires Possible(s, done) && Enabled(After(s, done), x) && Enabled(Next(After(s, done), x), y)
    ensures Possible(s, done + [x, y])
    ensures After(s, done + [x, y]) == Next(Next(After(s, done), x), y)
    ensures Losses(s, done + [x, y]) == Losses(s, done)
      + (if LosesKey(After(s, done), x) then 1 else 0) + if LosesKey(Next(After(s, done), x), y) then 1 else 0
  {
    var mid := done + [x];
    var all := done + [x, y];
    assert mid[..|mid| - 1] == done && all[..|all| - 1] == mid;
    assert Possible(s, mid) && After(s, mid) == Next(After(s, done), x);
  }

  // A run with k losses that ends with k + 1 tasks inside and a fresh key.
  ghost predicate OverrunRun(s: System, steps: seq<Step>, k: nat) {
    Possible(s, steps) && Losses(s, steps) == k && JustEntered(After(s, steps), k + 1)
  }

  lemma FirstHolder(s: System)
    requires Initial(s) && |s.tasks| > 0
    ensures OverrunRun(s, OverrunSteps(0), 0)
  {
    FirstTwoSteps(s);
    FirstEntry(s);
  }

  lemma OneMoreOverrun(s: System, done: seq<Step>, k: nat)
    requires 0 < k < |s.tasks| && OverrunRun(s, done, k - 1)
    ensures OverrunRun(s, done + [Tick(TTL), Acquire(k)], k)
  {
    OverrunLetsTheNextIn(After(s, done), k);
    TwoMoreSteps(s, done, Tick(TTL), Acquire(k));
  }

  lemma {:induction false} OverrunRuns(s: System, k: nat)
    requires Initial(s) && |s.tasks| > k
    ensures OverrunRun(s, OverrunSteps(k), k)
  {
    if k == 0 {
      FirstHolder(s);
    } else {
      OverrunRuns(s, k - 1);
      OneMoreOverrun(s, OverrunSteps(k - 1), k);
    }
  }

  // The bound is met: after k expiries k + 1 tasks can be inside at once.
  lemma BoundIsAttained(s: System, k: nat)
    requires Initial(s) && |s.tasks| > k
    ensures Possible(s, OverrunSteps(k)) && Losses(s, OverrunSteps(k)) == k
    ensures JustEntered(After(s, OverrunSteps(k)), k + 1)
    ensures Insiders(After(s, OverrunSteps(k))) == k + 1 && KeyPresent(After(s, OverrunSteps(k))) == 1
  {
    OverrunRuns(s, k);
  }

  // ---- the backend driving the key ------------------------------------------

  class Backend {
    const lock: LockKey
    var now: int
    var booting: bool
    var kinds: seq<TaskKind>
    var tasks: seq<Task>

    ghost function View(): System
      reads this, lock
    {
      System(now, lock.entry, booting, kinds, tasks)
    }

    // A freshly started process over a key that may survive from an earlier one.
    constructor (lock: LockKey, now: int, kinds: seq<TaskKind>)
      ensures this.lock == lock
      ensures Initial(View()) && View().key == lock.entry && View().now == now && View().kinds == kinds
    {
      this.lock := lock;
      this.now, booting, this.kinds := now, true, kinds;
      tasks := seq(|kinds|, _ => Waiting);
    }

    method Enter(i: nat)
      requires Enabled(View(), Acquire(i)) && |kinds| == |tasks|
      modifies this, lock
      ensures View() == Next(old(View()), Acquire(i))
    {
      var operation := FirstOperation(kinds[i]);
      var acquired := lock.Acquire(operation, now);
      tasks := tasks[i := if acquired then Inside(operation, now) else TurnedAway];
    }

    method HandOver(i: nat)
      requires Enabled(View(), Transfer(i)) && |kinds| == |tasks|
      modifies this, lock
      ensures View() == Next(old(View()), Transfer(i))
    {
      lock.Transfer(Detecting, now);
      tasks := tasks[i := Inside(Detecting, now)];
    }

    method Leave(i: nat)
      requires Enabled(View(), Release(i)) && |kinds| == |tasks|
      modifies this, lock
      ensures View() == Next(old(View()), Release(i))
    {
      lock.Release();
      tasks := tasks[i := Finished];
    }

    // Every step of the transition system is what the lock helpers do to the key.
    method Perform(step: Step)
      requires Enabled(View(), step) && |kinds| == |tasks|
      modifies this, lock
      ensures View() == Next(old(View()), step)
    {
      match step
      case Tick(d) => now := now + d;
      case Acquire(i) => Enter(i);
      case Transfer(i) => HandOver(i);
      case Release(i) => Leave(i);
      case ForceUnlock => lock.Release();
      case Crash => booting, tasks := true, Map(Killed, tasks);
      case Boot =>
        lock.ClearStale(now);
        booting := false;
    }
  }
}

// The DHCP burst explainer: a quadratic scan of sorted timestamps, and what its result means.
module Bursts {
  import opened Vocabulary
  import opened Sequences

  const BURST_WINDOW := 300.0

  predicate IsDhcpSuccess(e: Event) {
    e.etype == ClientIpAssigned || e.etype == ClientIpv6Assigned
  }

  function TimeOf(e: Event): real { e.timestamp }

  function DhcpTimes(events: seq<Event>): seq<real> {
    Map(TimeOf, Filter(IsDhcpSuccess, events))
  }

  predicate NotAfter(a: real, b: real) { a <= b }

  // The times in the closed window of five minutes that opens at start.
  function InWindow(start: real): real -> bool {
    (t: real) => start <= t <= start + BURST_WINDOW
  }

  function NotFarAfter(start: real): real -> bool {
    (t: real) => t - start <= BURST_WINDOW
  }

  // What the inner generator counts: the later times within five minutes of times[i].
  function BurstFrom(times: seq<real>, i: nat): nat
    requires i < |times|
  {
    Count(NotFarAfter(times[i]), times[i..])
  }

  ghost predicate BurstsUpTo(times: seq<real>, n: nat, burst: nat, at: nat)
    requires n <= |times|
  {
    && (forall j :: 0 <= j < n ==> BurstFrom(times, j) <= burst)
    && if n == 0 then burst == 0 else at < n && BurstFrom(times, at) == burst
  }

  lemma BurstsAreNotEmpty(times: seq<real>, i: nat)
    requires i < |times|
    ensures BurstFrom(times, i) > 0
  {
    CountPositive(NotFarAfter(times[i]), times[i..], times[i..][0]);
  }

  method ScanBursts(times: seq<real>) returns (burst: nat, ghost at: nat)
    ensures BurstsUpTo(times, |times|, burst, at)
  {
    burst, at := 0, 0;
    for i := 0 to |times|
      invariant BurstsUpTo(times, i, burst, at)
    {
      BurstsAreNotEmpty(times, i);
      var here := BurstFrom(times, i);
      if here > burst {
        burst, at := here, i;
      }
    }
  }

  // The result is the largest number of DHCP successes in any closed 300-second window
  // whatsoever, whether or not it opens at an event, and some window has that many.
  method MaxBurst(events: seq<Event>) returns (burst: nat)
    ensures forall start: real :: Count(LeasedFrom(start), events) <= burst
    ensures exists start: real :: Count(LeasedFrom(start), events) == burst
  {
    var times := StableSort(NotAfter, DhcpTimes(events));
    ghost var at;
    burst, at := ScanBursts(times);
    ScanIsMaximal(DhcpTimes(events), times, burst, at);
    forall start: real ensures Count(InWindow(start), DhcpTimes(events)) == Count(LeasedFrom(start), events) {
      WindowByField(events, start);
    }
  }

  // An address handed out within the 300 seconds from start on, both ends included.
  ghost function LeasedFrom(start: real): Event -> bool {
    (e: Event) => e.etype in Bucket(DhcpSuccess) && start <= e.timestamp <= start + 300.0
  }

  lemma {:induction false} WindowByField(events: seq<Event>, start: real)
    ensures Count(InWindow(start), DhcpTimes(events)) == Count(LeasedFrom(start), events)
  {
    if events != [] {
      var init, last := events[..|events| - 1], events[|events| - 1];
      WindowByField(init, start);
      if IsDhcpSuccess(last) {
        assert DhcpTimes(events) == DhcpTimes(init) + [last.timestamp];
        CountAppend(InWindow(start), DhcpTimes(init), last.timestamp);
      } else {
        assert DhcpTimes(events) == DhcpTimes(init);
      }
    }
  }

  lemma ScanIsMaximal(given: seq<real>, times: seq<real>, burst: nat, at: nat)
    requires times == StableSort(NotAfter, given) && BurstsUpTo(times, |times|, burst, at)
    ensures forall start: real :: Count(InWindow(start), given) <= burst
    ensures exists start: real :: Count(InWindow(start), given) == burst
  {
    StableSortArranges(NotAfter, given);
    forall start: real ensures Count(InWindow(start), given) <= burst {
      WindowIsInSomeBurst(times, start, burst);
      CountPermuted(InWindow(start), given, times);
    }
    if |times| == 0 {
      assert Count(InWindow(0.0), given) == burst by {
        CountPermuted(InWindow(0.0), given, times);
      }
    } else {
      assert Count(InWindow(times[at]), given) == burst by {
        BurstIsInItsWindow(times, at);
        CountPermuted(InWindow(times[at]), given, times);
      }
    }
  }

  lemma WindowIsInSomeBurst(times: seq<real>, start: real, burst: nat)
    requires Sorted(NotAfter, times)
    requires forall j :: 0 <= j < |times| ==> BurstFrom(times, j) <= burst
    ensures Count(InWindow(start), times) <= burst
  {
    var i := 0;
    while i < |times| && times[i] < start
      invariant i <= |times|
      invariant forall j :: 0 <= j < i ==> times[j] < start
    {
      i := i + 1;
    }
    WindowSkipsEarlier(times, start, i);
    if i < |times| {
      assert BurstFrom(times, i) <= burst;
      CountMonotone(InWindow(start), NotFarAfter(times[i]), times[i..]);
    }
  }

  lemma WindowSkipsEarlier(times: seq<real>, start: real, i: nat)
    requires i <= |times| && forall j :: 0 <= j < i ==> times[j] < start
    ensures Count(InWindow(start), times) == Count(InWindow(start), times[i..])
  {
    assert times == times[..i] + times[i..];
    CountConcat(InWindow(start), times[..i], times[i..]);
    CountZero(InWindow(start), times[..i]);
  }

  lemma BurstIsInItsWindow(times: seq<real>, i: nat)
    requires Sorted(NotAfter, times) && i < |times|
    ensures BurstFrom(times, i) <= Count(InWindow(times[i]), times)
  {
    var later := times[i..];
    assert times == times[..i] + later;
    CountConcat(InWindow(times[i]), times[..i], later);
    forall k | 0 <= k < |later| ensures times[i] <= later[k] {
      assert k > 0 ==> NotAfter(times[i], times[i + k]);
    }
    CountMonotone(NotFarAfter(times[i]), InWindow(times[i]), later);
  }
}

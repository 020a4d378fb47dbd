// Sorting the drilldown by health: the two SQL terms over a row's own category columns, against
// the health the page shows in the cell.
module HealthSort {
  import opened Vocabulary
  import opened Sequences
  import opened OrderBy

  // A summary row with its category columns; a column nobody counted is zero.
  datatype Counted = Counted(mac: string, columns: map<Category, nat>)

  function ColumnIn(r: Counted): Category -> nat {
    (c: Category) => if c in r.columns then r.columns[c] else 0
  }

  // What the sums in HealthTotal() and HealthFailure() evaluate to.
  function TotalOf(r: Counted): nat {
    Total(ColumnIn(r), OUTCOMES)
  }

  function FailureOf(r: Counted): nat {
    Total(ColumnIn(r), FAILURES)
  }

  // What HealthFlag() evaluates to.
  predicate FlagIsSet(r: Counted) {
    TotalOf(r) == 0
  }

  // What HealthValue() evaluates to; None is NULL.
  function ValueOf(r: Counted): Option<real> {
    if TotalOf(r) > 0 then Some(1.0 - FailureOf(r) as real / TotalOf(r) as real) else None
  }

  const CELL_SUCCESSES: seq<Category> := [DhcpSuccess, DnsSuccess, AuthSuccess, RoamSuccess, ArpSuccess]
  const CELL_FAILURES: seq<Category> := [DhcpFailure, DnsFailure, AuthFailure, RoamFailure, ArpFailure]

  // The health the page computes for the cell.
  function CellHealth(r: Counted): Option<real> {
    var success, failure := Total(ColumnIn(r), CELL_SUCCESSES), Total(ColumnIn(r), CELL_FAILURES);
    if success + failure == 0 then None else Some(1.0 - failure as real / (success + failure) as real)
  }

  lemma TotalOfFive<T>(f: T -> nat, a: T, b: T, c: T, d: T, e: T)
    ensures Total(f, [a, b, c, d, e]) == f(a) + f(b) + f(c) + f(d) + f(e)
  {
    var all := [a, b, c, d, e];
    assert all[..4] == [a, b, c, d] && [a, b, c, d][..3] == [a, b, c] && [a, b, c][..2] == [a, b];
    assert [a, b][..1] == [a] && [a][..0] == [];
    assert Total(f, [a]) == f(a);
    assert Total(f, [a, b]) == f(a) + f(b);
    assert Total(f, [a, b, c]) == f(a) + f(b) + f(c);
    assert Total(f, [a, b, c, d]) == f(a) + f(b) + f(c) + f(d);
  }

  lemma OutcomeSum(f: Category -> nat)
    ensures Total(f, OUTCOMES) ==
      f(AuthSuccess) + f(AuthFailure) + f(RoamSuccess) + f(RoamFailure) + f(DhcpSuccess)
      + f(DhcpFailure) + f(DnsSuccess) + f(DnsFailure) + f(ArpSuccess) + f(ArpFailure)
  {
    var front := [AuthSuccess, AuthFailure, RoamSuccess, RoamFailure, DhcpSuccess];
    var back := [DhcpFailure, DnsSuccess, DnsFailure, ArpSuccess, ArpFailure];
    assert OUTCOMES == front + back;
    TotalConcat(f, front, back);
    TotalOfFive(f, AuthSuccess, AuthFailure, RoamSuccess, RoamFailure, DhcpSuccess);
    TotalOfFive(f, DhcpFailure, DnsSuccess, DnsFailure, ArpSuccess, ArpFailure);
  }

  lemma CellSums(f: Category -> nat)
    ensures Total(f, OUTCOMES) == Total(f, CELL_SUCCESSES) + Total(f, CELL_FAILURES)
    ensures Total(f, FAILURES) == Total(f, CELL_FAILURES)
  {
    OutcomeSum(f);
    TotalOfFive(f, DhcpSuccess, DnsSuccess, AuthSuccess, RoamSuccess, ArpSuccess);
    TotalOfFive(f, DhcpFailure, DnsFailure, AuthFailure, RoamFailure, ArpFailure);
    TotalOfFive(f, AuthFailure, RoamFailure, DhcpFailure, DnsFailure, ArpFailure);
  }

  // The database sorts by exactly the value the cell shows, and flags exactly the empty cells.
  lemma ValueIsCellHealth(r: Counted)
    ensures ValueOf(r) == CellHealth(r)
    ensures FlagIsSet(r) <==> CellHealth(r).None?
    ensures ValueOf(r).Some? ==> 0.0 <= ValueOf(r).value <= 1.0
  {
    CellSums(ColumnIn(r));
    if TotalOf(r) > 0 {
      ShareIsAtMostOne(FailureOf(r), TotalOf(r));
    }
  }

  lemma ShareIsAtMostOne(n: nat, total: nat)
    requires n <= total && total > 0
    ensures 0.0 <= n as real / total as real <= 1.0
  {
  }

  // ---- the order ----------------------------------------------------------

  // NULL ranks below every value.
  predicate AtMost(a: Option<real>, b: Option<real>) {
    a.None? || (b.Some? && a.value <= b.value)
  }

  // The flag ascending, then the value in the direction asked for.
  function HealthOrder(descending: bool): (Counted, Counted) -> bool {
    (a: Counted, b: Counted) =>
      if FlagIsSet(a) != FlagIsSet(b) then FlagIsSet(b)
      else if descending then AtMost(ValueOf(b), ValueOf(a)) else AtMost(ValueOf(a), ValueOf(b))
  }

  function RowOf(r: Counted): Row {
    Row(r.mac, ValueOf(r))
  }

  // It is the order of the resolved clause over the rows' flags and values.
  lemma HealthOrderIsSqlOrder(descending: bool, a: Counted, b: Counted)
    ensures HealthOrder(descending)(a, b) <==> SqlOrder(descending)(RowOf(a), RowOf(b))
    ensures RowOf(a).score.None? <==> FlagIsSet(a)
  {
    PrecedesByKey(descending, RowOf(a), RowOf(b));
  }

  lemma QuotientOrder(f: nat, t: nat, g: nat, u: nat)
    requires t > 0 && u > 0
    ensures f as real / t as real >= g as real / u as real <==> f * u >= g * t
  {
    var x, y := f as real / t as real, g as real / u as real;
    var p := t as real * u as real;
    assert x * p == f as real * u as real == (f * u) as real;
    assert y * p == g as real * t as real == (g * t) as real;
    if x >= y {
      assert (x - y) * p >= 0.0;
    } else {
      assert (y - x) * p > 0.0;
    }
  }

  lemma OrderOfShares(descending: bool, a: Counted, b: Counted)
    requires TotalOf(a) > 0 && TotalOf(b) > 0
    ensures var x, y := FailureOf(a) as real / TotalOf(a) as real, FailureOf(b) as real / TotalOf(b) as real;
      HealthOrder(descending)(a, b) <==> if descending then x <= y else x >= y
  {
    assert !FlagIsSet(a) && !FlagIsSet(b);
  }

  // Ascending puts the larger share of failures first, by whole-number arithmetic alone.
  lemma LeastHealthyFirst(a: Counted, b: Counted)
    requires TotalOf(a) > 0 && TotalOf(b) > 0
    ensures HealthOrder(false)(a, b) <==> FailureOf(a) * TotalOf(b) >= FailureOf(b) * TotalOf(a)
    ensures HealthOrder(true)(a, b) <==> FailureOf(a) * TotalOf(b) <= FailureOf(b) * TotalOf(a)
  {
    OrderOfShares(false, a, b);
    OrderOfShares(true, a, b);
    QuotientOrder(FailureOf(a), TotalOf(a), FailureOf(b), TotalOf(b));
    QuotientOrder(FailureOf(b), TotalOf(b), FailureOf(a), TotalOf(a));
  }

  // However ties are broken, rows without outcomes come last in both directions.
  lemma ZeroTotalsComeLast(rows: seq<Counted>, descending: bool)
    requires Sorted(HealthOrder(descending), rows)
    ensures forall i, j :: 0 <= i < j < |rows| && FlagIsSet(rows[i]) ==> FlagIsSet(rows[j])
  {
    forall i, j | 0 <= i < j < |rows| && FlagIsSet(rows[i]) ensures FlagIsSet(rows[j]) {
      assert HealthOrder(descending)(rows[i], rows[j]);
    }
  }

  ghost predicate ZeroTotalsFirst(rows: seq<Counted>) {
    forall i, j :: 0 <= i < j < |rows| && FlagIsSet(rows[j]) ==> FlagIsSet(rows[i])
  }

  // The comment beside the expression has DESC put them first: true only of all or of none.
  lemma DescendingPutsZeroTotalsFirstIff(rows: seq<Counted>)
    requires Sorted(HealthOrder(true), rows)
    ensures ZeroTotalsFirst(rows) <==>
      (forall r :: r in rows ==> FlagIsSet(r)) || (forall r :: r in rows ==> !FlagIsSet(r))
  {
    ZeroTotalsComeLast(rows, true);
    if ZeroTotalsFirst(rows) && rows != [] {
      forall i | 0 <= i < |rows| ensures FlagIsSet(rows[i]) <==> FlagIsSet(rows[0]) {
      }
    }
  }
}

// Python's round(x, 4) on exact reals: the nearest multiple of 0.0001, halves to even. Scores,
// rates and ratios are stored rounded this way, and the merge over sites rounds a mean of such
// values once more. A rounded value is within half a unit of the exact one, and two multiples
// of the unit that are less than two units apart are at most one apart.
module Rounding {

  const UNIT := 0.0001
  const HALF_UNIT := 0.00005

  function Nearest(y: real): int {
    var below := y.Floor;
    var rest := y - below as real;
    if rest < 0.5 || (rest == 0.5 && below % 2 == 0) then below else below + 1
  }

  function Round4(x: real): real {
    Multiple(Nearest(x * 10000.0))
  }

  ghost predicate IsMultipleOfUnit(r: real) {
    exists k :: r == Multiple(k)
  }

  function Multiple(k: int): real {
    k as real * UNIT
  }

  lemma RoundsToNearest(x: real)
    ensures x - HALF_UNIT <= Round4(x) <= x + HALF_UNIT
    ensures IsMultipleOfUnit(Round4(x))
  {
    var y := x * 10000.0;
    assert y - 0.5 <= Nearest(y) as real <= y + 0.5;
    assert Round4(x) == Multiple(Nearest(y));
  }

  // A value half-way between two goes to the even one.
  lemma HalvesGoToEven(k: int)
    ensures Nearest(k as real + 0.5) == if k % 2 == 0 then k else k + 1
  {
    assert (k as real + 0.5).Floor == k;
  }

  lemma ProductSign(u: real, a: real)
    requires a > 0.0
    ensures u * a >= 0.0 <==> u >= 0.0
    ensures u * a == 0.0 <==> u == 0.0
  {
  }

  // Two multiples of the unit less than two units apart differ by at most one.
  lemma MultiplesApart(a: real, b: real)
    requires IsMultipleOfUnit(a) && IsMultipleOfUnit(b)
    requires a - b < 2.0 * UNIT && b - a < 2.0 * UNIT
    ensures a - b <= UNIT && b - a <= UNIT
  {
    var i :| a == Multiple(i);
    var j :| b == Multiple(j);
    assert a - b == (i - j) as real * UNIT;
    assert (i - j) as real < 2.0 && (j - i) as real < 2.0;
  }

  // A rounded ratio is below a half exactly when the ratio is below 0.49995.
  lemma RoundedBelowHalf(x: real)
    ensures Round4(x) < 0.5 <==> x < 0.49995
  {
    var y := x * 10000.0;
    assert Round4(x) < 0.5 <==> Nearest(y) < 5000;
    if y < 4999.5 {
      assert y.Floor <= 4999;
    } else {
      assert y.Floor >= 4999;
    }
  }
}

// Shares of a whole, as reals: how many of the items, over how many there are. The code tests
// for an empty whole before it divides, so the default of zero is a function of its own. Shares
// of one whole compare as their counts do; that is how the thresholds of the pipeline decide.
// No rounding here, see Rounding.
module Ratios {

  function Share(part: nat, whole: nat): real
    requires whole > 0
  {
    part as real / whole as real
  }

  // part / whole if whole > 0 else 0.0
  function ShareOrZero(part: nat, whole: nat): real {
    if whole > 0 then Share(part, whole) else 0.0
  }

  lemma QuotientBelow(s: real, t: real, bound: real)
    requires t > 0.0
    ensures s / t < bound <==> s < bound * t
  {
    assert s / t * t == s;
    if s / t < bound {
      assert (bound - s / t) * t > 0.0;
    } else {
      assert (s / t - bound) * t >= 0.0;
    }
  }

  lemma ShareOrder(a: nat, b: nat, whole: nat)
    requires whole > 0
    ensures Share(a, whole) <= Share(b, whole) <==> a <= b
    ensures Share(0, whole) == 0.0
  {
    if a <= b {
      assert Share(b, whole) - Share(a, whole) == ((b - a) as real) / whole as real >= 0.0;
    } else {
      assert Share(a, whole) - Share(b, whole) == ((a - b) as real) / whole as real > 0.0;
    }
  }

  lemma SharesAdd(a: nat, b: nat, whole: nat)
    requires whole > 0
    ensures Share(a + b, whole) == Share(a, whole) + Share(b, whole)
  {
    assert (a + b) as real == a as real + b as real;
  }
}

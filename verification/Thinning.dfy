// A session's energy curve, thinned to a limit without being cut off.

module Thinning {
  import opened Money

  // Evenly spaced over the positions of `total` readings, rounded half up, over exact rationals.
  function Step(total: nat, limit: nat): real
    requires limit >= 2
  {
    (total - 1) as real / (limit - 1) as real
  }

  // Where an even spread would put the i-th of them.
  function Position(i: nat, step: real): real {
    i as real * step
  }

  function Pick(i: nat, total: nat, limit: nat): int
    requires limit >= 2
  {
    RoundHalfUp(Position(i, Step(total, limit)))
  }

  function CeilDiv(a: nat, b: nat): (c: nat)
    requires b > 0
    ensures (c as int - 1) * b < a <= b * c
  {
    (a + b - 1) / b
  }

  lemma Cancel(l: real, x: real, y: real)
    requires l > 0.0
    ensures l * x < l * y <==> x < y
    ensures l * x <= l * y <==> x <= y
  {
    if x < y {
      assert l * (y - x) > 0.0;
    } else if x > y {
      assert l * (x - y) > 0.0;
    }
  }

  lemma StepTimes(total: nat, limit: nat)
    requires limit >= 2
    ensures (limit - 1) as real * Step(total, limit) == (total - 1) as real
  {
  }

  lemma ProductAsReal(a: int, b: int)
    ensures (a * b) as real == a as real * b as real
  {
  }

  lemma QuotientBounds(l: real, q: real, n: real, c: real)
    requires 0.0 < l < n <= l * c && l * q == n
    ensures 1.0 < q <= c
  {
    Cancel(l, 1.0, q);
    Cancel(l, q, c);
  }

  lemma StepBounds(total: nat, limit: nat)
    requires total > limit >= 2
    ensures 1.0 < Step(total, limit) <= CeilDiv(total - 1, limit - 1) as real
  {
    StepTimes(total, limit);
    ProductAsReal(limit - 1, CeilDiv(total - 1, limit - 1));
    QuotientBounds((limit - 1) as real, Step(total, limit), (total - 1) as real, CeilDiv(total - 1, limit - 1) as real);
  }

  lemma HalfUpAdvances(x: real, y: real, step: real, most: int)
    requires y == x + step && 1.0 < step <= most as real
    ensures 1 <= RoundHalfUp(y) - RoundHalfUp(x) <= most
  {
  }

  lemma OneStepOn(i: nat, step: real)
    ensures Position(i + 1, step) == Position(i, step) + step
  {
    assert (i + 1) as real == i as real + 1.0;
  }

  // One position on, by more than one reading and no more than the rounded-up spacing.
  lemma PickAdvances(i: nat, total: nat, limit: nat)
    requires total > limit >= 2
    ensures 1 <= Pick(i + 1, total, limit) - Pick(i, total, limit) <= CeilDiv(total - 1, limit - 1)
  {
    var s := Step(total, limit);
    OneStepOn(i, s);
    StepBounds(total, limit);
    HalfUpAdvances(Position(i, s), Position(i + 1, s), s, CeilDiv(total - 1, limit - 1));
  }

  lemma {:induction false} PicksRise(i: nat, j: nat, total: nat, limit: nat)
    requires total > limit >= 2 && i < j
    ensures Pick(i, total, limit) < Pick(j, total, limit)
  {
    PickAdvances(j - 1, total, limit);
    if i < j - 1 {
      PicksRise(i, j - 1, total, limit);
    }
  }

  lemma PickEnds(total: nat, limit: nat)
    requires total > limit >= 2
    ensures Pick(0, total, limit) == 0 && Pick(limit - 1, total, limit) == total - 1
  {
    StepTimes(total, limit);
    assert Position(0, Step(total, limit)) == 0.0;
  }

  lemma PickInRange(i: nat, total: nat, limit: nat)
    requires total > limit >= 2 && i < limit
    ensures 0 <= Pick(i, total, limit) < total
  {
    PickEnds(total, limit);
    if i > 0 {
      PicksRise(0, i, total, limit);
    }
    if i < limit - 1 {
      PicksRise(i, limit - 1, total, limit);
    }
  }

  predicate Near(pick: int, position: real) {
    pick as real - 0.5 <= position < pick as real + 0.5
  }

  lemma PickIsNear(i: nat, total: nat, limit: nat)
    requires limit >= 2
    ensures Near(Pick(i, total, limit), Position(i, Step(total, limit)))
  {
  }

  // `limit` strictly rising positions from first to last, no gap above the rounded-up spacing, and
  // each within half a reading of where an even spread would put it.
  lemma PicksSpanTheCurve(total: nat, limit: nat)
    requires total > limit >= 2
    ensures Pick(0, total, limit) == 0 && Pick(limit - 1, total, limit) == total - 1
    ensures forall i: nat :: i < limit ==> 0 <= Pick(i, total, limit) < total
    ensures forall i: nat, j: nat :: i < j < limit ==> Pick(i, total, limit) < Pick(j, total, limit)
    ensures forall i: nat, j: nat :: j < limit && j == i + 1 ==>
              Pick(j, total, limit) - Pick(i, total, limit) <= CeilDiv(total - 1, limit - 1)
    ensures forall i: nat :: i < limit ==>
              Near(Pick(i, total, limit), Position(i, Step(total, limit)))
  {
    PickEnds(total, limit);
    forall i: nat | i < limit ensures Near(Pick(i, total, limit), Position(i, Step(total, limit))) {
      PickIsNear(i, total, limit);
    }
    forall i: nat, j: nat | i < j < limit ensures Pick(i, total, limit) < Pick(j, total, limit) {
      PicksRise(i, j, total, limit);
    }
    forall i: nat | i < limit ensures 0 <= Pick(i, total, limit) < total {
      PickInRange(i, total, limit);
    }
    forall i: nat, j: nat | j < limit && j == i + 1
      ensures Pick(j, total, limit) - Pick(i, total, limit) <= CeilDiv(total - 1, limit - 1)
    {
      PickAdvances(i, total, limit);
    }
  }

  // listSessionReadings, on readings already in time order.
  function Thin<T>(all: seq<T>, limit: nat): seq<T> {
    if |all| <= limit then all
    else if limit == 0 then []
    else if limit == 1 then [all[|all| - 1]]
    else
      seq(limit, i requires 0 <= i < limit =>
        (PicksSpanTheCurve(|all|, limit); all[Pick(i, |all|, limit)]))
  }

  // A thinned curve has the size asked for, keeps its order, starts with the first reading where two
  // or more are kept, and always ends on the last one: the energy actually billed.
  lemma ThinSpansTheCharge<T>(all: seq<T>, limit: nat)
    ensures |Thin(all, limit)| == if |all| <= limit then |all| else limit
    ensures all != [] && limit >= 1 ==> Thin(all, limit)[|Thin(all, limit)| - 1] == all[|all| - 1]
    ensures all != [] && limit >= 2 ==> Thin(all, limit)[0] == all[0]
    ensures |all| <= limit ==> Thin(all, limit) == all
    ensures |all| > limit >= 2 ==>
              forall i: nat :: i < limit ==>
                0 <= Pick(i, |all|, limit) < |all| && Thin(all, limit)[i] == all[Pick(i, |all|, limit)]
  {
    if |all| > limit >= 2 {
      PicksSpanTheCurve(|all|, limit);
    }
  }
}

// Integer-paise arithmetic: one rounding, half up, of energy times rate.

module Money {

  // Math.round: half up.
  function RoundHalfUp(x: real): (n: int)
    ensures n as real - 0.5 <= x < n as real + 0.5
  {
    (x + 0.5).Floor
  }

  // calculateAmountPaise, over exact arithmetic.
  function CalculateAmountPaise(energyWh: real, pricePerKwhPaise: int): (amountPaise: nat)
    ensures energyWh <= 0.0 || pricePerKwhPaise <= 0 ==> amountPaise == 0
    ensures energyWh > 0.0 && pricePerKwhPaise > 0 ==>
              -500.0 <= energyWh * pricePerKwhPaise as real - 1000.0 * amountPaise as real < 500.0
  {
    if energyWh <= 0.0 || pricePerKwhPaise <= 0 then 0 else
      var cost := energyWh * pricePerKwhPaise as real;
      assert cost > 0.0;
      RoundHalfUp(cost / 1000.0)
  }

  // More energy, or a higher rate, never bills less.
  lemma AmountIsMonotone(e1: real, e2: real, r1: int, r2: int)
    requires e1 <= e2 && r1 <= r2
    ensures CalculateAmountPaise(e1, r1) <= CalculateAmountPaise(e2, r2)
  {
    if e1 > 0.0 && r1 > 0 {
      ProductIsMonotone(e1, e2, r1 as real, r2 as real);
    }
  }

  lemma ProductIsMonotone(a: real, b: real, x: real, y: real)
    requires 0.0 < a <= b && 0.0 < x <= y
    ensures a * x <= b * y
  {
    assert a * x <= b * x;
    assert b * x <= b * y;
  }

  // The amount is the only whole number of paise that close to the exact cost.
  lemma AmountIsNearest(energyWh: real, rate: int, n: int)
    requires energyWh > 0.0 && rate > 0
    requires -500.0 <= energyWh * rate as real - 1000.0 * n as real < 500.0
    ensures n == CalculateAmountPaise(energyWh, rate)
  {
  }

  function TotalEnergy(sessions: seq<real>): real {
    if sessions == [] then 0.0 else TotalEnergy(sessions[..|sessions| - 1]) + sessions[|sessions| - 1]
  }

  function TotalBilled(sessions: seq<real>, rate: int): int {
    if sessions == [] then 0
    else TotalBilled(sessions[..|sessions| - 1], rate) + CalculateAmountPaise(sessions[|sessions| - 1], rate)
  }

  // What one bill is off by, in thousandths of a paise.
  ghost function Error(energyWh: real, rate: int, billed: int): real {
    energyWh * rate as real - 1000.0 * billed as real
  }

  lemma BillError(energyWh: real, rate: int)
    requires energyWh >= 0.0 && rate >= 0
    ensures -500.0 <= Error(energyWh, rate, CalculateAmountPaise(energyWh, rate)) <= 500.0
  {
    if energyWh == 0.0 || rate == 0 {
      assert energyWh * rate as real == 0.0;
    }
  }

  lemma ErrorsAdd(e1: real, e2: real, rate: int, b1: int, b2: int)
    ensures Error(e1 + e2, rate, b1 + b2) == Error(e1, rate, b1) + Error(e2, rate, b2)
  {
    var r := rate as real;
    assert (e1 + e2) * r == e1 * r + e2 * r;
  }

  lemma {:induction false} BilledWithinHalfPaiseEach(sessions: seq<real>, rate: int)
    requires rate >= 0
    requires forall i :: 0 <= i < |sessions| ==> sessions[i] >= 0.0
    ensures TotalEnergy(sessions) >= 0.0
    ensures -500.0 * |sessions| as real
            <= Error(TotalEnergy(sessions), rate, TotalBilled(sessions, rate))
            <= 500.0 * |sessions| as real
  {
    if sessions == [] {
      assert 0.0 * rate as real == 0.0;
    } else {
      var n := |sessions| - 1;
      var before := sessions[..n];
      BilledWithinHalfPaiseEach(before, rate);
      BillError(sessions[n], rate);
      ErrorsAdd(TotalEnergy(before), sessions[n], rate,
                TotalBilled(before, rate), CalculateAmountPaise(sessions[n], rate));
    }
  }

  // Billing session by session drifts from one bill for the whole energy by at most half a paise
  // a session, plus half a paise for the one bill.
  lemma BilledSeparatelyOrTogether(sessions: seq<real>, rate: int)
    requires rate >= 0
    requires forall i :: 0 <= i < |sessions| ==> sessions[i] >= 0.0
    ensures -(|sessions| + 1)
            <= 2 * (TotalBilled(sessions, rate) - CalculateAmountPaise(TotalEnergy(sessions), rate))
            <= |sessions| + 1
  {
    BilledWithinHalfPaiseEach(sessions, rate);
    BillError(TotalEnergy(sessions), rate);
  }

  // A whole number of hundredths.
  predicate InHundredths(x: real) {
    (x * 100.0).Floor as real == x * 100.0
  }

  // consumedWh's toFixed(2), for the non-negative differences the clamp lets through.
  function ToHundredths(x: real): (y: real)
    requires x >= 0.0
    ensures y >= 0.0 && -0.005 <= x - y < 0.005 && InHundredths(y)
  {
    RoundHalfUp(x * 100.0) as real / 100.0
  }
}

/** Random market adjustments (`abm_vec/essentials/market_adjustments.py`):
    the ranges of the uniform draws for wages, prices and supply, and the
    wage update floored at the minimum wage. The draws are parameters; the
    predicates below say which values NumPy can return. */
module MarketAdjustments {
  import opened Vectors

  const MaxIncreaseWages: real := 0.02
  const MaxIncreasePrices: real := 0.02
  const MaxIncreaseQuantity: real := 0.02

  /** `wages_adj_vectorized`: draws from U(-0.02, 0.02). */
  predicate WageDraws(d: Vector) {
    forall i :: 0 <= i < |d| ==> -MaxIncreaseWages <= d[i] <= MaxIncreaseWages
  }

  /** `price_adj_vectorized`: draws from U(0, 0.02). */
  predicate PriceDraws(d: Vector) {
    forall i :: 0 <= i < |d| ==> 0.0 <= d[i] <= MaxIncreasePrices
  }

  /** `supply_adj_vectorized`: draws from U(0, 0.02). */
  predicate SupplyDraws(d: Vector) {
    forall i :: 0 <= i < |d| ==> 0.0 <= d[i] <= MaxIncreaseQuantity
  }

  /** A wage scaled by one plus its adjustment. */
  function Adjusted(wage: real, draw: real): real {
    wage * (1.0 + draw)
  }

  /** `wages_adj`, with the draws of `wages_adj_vectorized(len(w))` as
      `draws`: each wage scaled by one plus its draw, floored at the minimum
      wage. */
  function WagesAdj(w: Vector, minWage: real, draws: Vector): (r: Vector)
    requires |draws| == |w|
    ensures |r| == |w|
    ensures forall i :: 0 <= i < |w| ==> r[i] >= minWage
    ensures forall i :: 0 <= i < |w| && Adjusted(w[i], draws[i]) >= minWage ==> r[i] == Adjusted(w[i], draws[i])
    ensures forall i :: 0 <= i < |w| && Adjusted(w[i], draws[i]) < minWage ==> r[i] == minWage
  {
    seq(|w|, i requires 0 <= i < |w| => Max(minWage, Adjusted(w[i], draws[i])))
  }

  /** With draws in range, a non-negative wage moves by at most two percent
      before the floor is applied. */
  lemma WageStepBounded(w: Vector, minWage: real, draws: Vector)
    requires |draws| == |w| && WageDraws(draws)
    requires forall i :: 0 <= i < |w| ==> w[i] >= 0.0
    ensures var r := WagesAdj(w, minWage, draws);
            forall i :: 0 <= i < |w| ==>
              Max(minWage, 0.98 * w[i]) <= r[i] <= Max(minWage, 1.02 * w[i])
  {
    var r := WagesAdj(w, minWage, draws);
    forall i | 0 <= i < |w| ensures Max(minWage, 0.98 * w[i]) <= r[i] <= Max(minWage, 1.02 * w[i]) {
      var d := draws[i];
      assert -0.02 <= d <= 0.02;
      WageStep(w[i], d);
      assert r[i] == Max(minWage, Adjusted(w[i], d));
    }
  }

  lemma WageStep(x: real, d: real)
    requires x >= 0.0 && -0.02 <= d <= 0.02
    ensures 0.98 * x <= Adjusted(x, d) <= 1.02 * x
  {
    assert Adjusted(x, d) == x + d * x;
    ScaleMonotone(-0.02, d, x);
    ScaleMonotone(d, 0.02, x);
  }

  /** Scaling by a non-negative amount keeps the order. */
  lemma ScaleMonotone(a: real, b: real, x: real)
    requires a <= b && x >= 0.0
    ensures a * x <= b * x
  {
  }
}

/** The pre-market price and supply update
    (`abm_vec/compute_expected_supply_price.py`). Every firm falls in one of
    four scenarios by its excess supply and its price against the market
    price; the first two adjust the price, the others the supply. Supply is
    then capped by what the firm's leverage allows, and an adjusted price is
    floored at the firm's minimum price. The price and supply draws are
    parameters. */
module SupplyPrice {
  import opened Vectors
  import opened Options
  import opened MarketAdjustments

  /** Scenario 1 lowers the price, 2 raises it, 3 lowers the supply and every
      other firm (scenario 4) raises its supply. */
  datatype Scenario = LowerPrice | RaisePrice | LowerSupply | RaiseSupply

  /** The three scenario masks are tested as written, so a firm is in at most
      one of them and otherwise in scenario 4. */
  function ScenarioOf(exSupply: real, price: real, marketPrice: real): (s: Scenario)
    ensures s == LowerPrice <==> exSupply > 0.0 && price >= marketPrice
    ensures s == RaisePrice <==> exSupply == 0.0 && price < marketPrice
    ensures s == LowerSupply <==> exSupply > 0.0 && price < marketPrice
  {
    if exSupply > 0.0 then
      if price >= marketPrice then LowerPrice else LowerSupply
    else if exSupply == 0.0 && price < marketPrice then RaisePrice
    else RaiseSupply
  }

  /** Scenarios 1 and 2 (`statement_1 | statement_2`). */
  predicate AdjustsPrice(s: Scenario) {
    s == LowerPrice || s == RaisePrice
  }

  /** `-p / (1 - p)`: the factor applied in the lowering scenarios. */
  function ExcessSupplyFactor(p: real): real
    requires p != 1.0
  {
    -p / (1.0 - p)
  }

  /** `x * (1 + adj * factor)`. */
  function Scale(x: real, adj: real, factor: real): real {
    x * (1.0 + adj * factor)
  }

  /** The supply the leverage cap allows. */
  function SupplyThreshold(prod: real, maxLeverage: real, equity: real, wage: real): real
    requires wage > 0.0
  {
    prod * (1.0 + maxLeverage) * equity / wage
  }

  /** One firm's inputs. */
  datatype FirmIn = FirmIn(exSupply: real, supply: real, price: real, wage: real, prod: real,
                           profit: real, maxLeverage: real, equity: real)

  /** One firm's outcome: its scenario, the price after the scenario's
      adjustment, the final price and supply, the wage bill, the minimum price
      and whether the supply broke the leverage cap. */
  datatype FirmOut = FirmOut(scenario: Scenario, adjustedPrice: real, price: real, supply: real,
                             totalWage: real, minPrice: real, overCap: bool)

  /** A firm the caller can hand in: positive wage and productivity. */
  predicate Producing(f: FirmIn) {
    f.wage > 0.0 && f.prod > 0.0
  }

  /** The supply before the leverage cap: the supply grown by last period's
      profit, then lowered by `supplyAdj * p / (1 - p)` of itself when the
      firm has excess supply at a price below the market price, raised by
      `supplyAdj` of itself when it has none at a price at or above it, and
      left alone by the price-adjusting firms. */
  function UncappedSupply(f: FirmIn, marketPrice: real, p: real, supplyAdj: real): (r: real)
    requires p != 1.0
    ensures (f.exSupply > 0.0 && f.price >= marketPrice) || (f.exSupply == 0.0 && f.price < marketPrice) ==>
              r == f.supply * (1.0 + f.profit)
    ensures f.exSupply > 0.0 && f.price < marketPrice ==>
              r == f.supply * (1.0 + f.profit) * (1.0 - supplyAdj * p / (1.0 - p))
    ensures !(f.exSupply > 0.0) && !(f.exSupply == 0.0 && f.price < marketPrice) ==>
              r == f.supply * (1.0 + f.profit) * (1.0 + supplyAdj)
  {
    var s := ScenarioOf(f.exSupply, f.price, marketPrice);
    var grown := f.supply * (1.0 + f.profit);
    if AdjustsPrice(s) then grown
    else Scale(grown, supplyAdj, if s == LowerSupply then ExcessSupplyFactor(p) else 1.0)
  }

  /** The supply after the leverage cap. */
  function FinalSupply(f: FirmIn, marketPrice: real, p: real, supplyAdj: real): real
    requires Producing(f) && p != 1.0
  {
    Min(UncappedSupply(f, marketPrice, p, supplyAdj), SupplyThreshold(f.prod, f.maxLeverage, f.equity, f.wage))
  }

  /** The model has no NaN: a price-adjusting firm whose final supply is zero
      has an undefined minimum price (a division by zero), and so an
      undefined final price. */
  predicate PriceDefined(f: FirmIn, marketPrice: real, p: real, supplyAdj: real)
    requires Producing(f) && p != 1.0
  {
    AdjustsPrice(ScenarioOf(f.exSupply, f.price, marketPrice)) ==> FinalSupply(f, marketPrice, p, supplyAdj) != 0.0
  }

  /** The price after the scenario's adjustment, before the minimum price:
      lowered by `priceAdj * p / (1 - p)` of itself when the firm has excess
      supply at a price at or above the market price, raised by `priceAdj` of
      itself when it has none at a price below it, and otherwise unchanged. */
  function AdjustedPrice(f: FirmIn, marketPrice: real, p: real, priceAdj: real): (r: real)
    requires p != 1.0
    ensures f.exSupply > 0.0 && f.price >= marketPrice ==> r == f.price * (1.0 - priceAdj * p / (1.0 - p))
    ensures f.exSupply == 0.0 && f.price < marketPrice ==> r == f.price * (1.0 + priceAdj)
    ensures !(f.exSupply > 0.0 && f.price >= marketPrice) && !(f.exSupply == 0.0 && f.price < marketPrice) ==>
              r == f.price
  {
    var s := ScenarioOf(f.exSupply, f.price, marketPrice);
    if AdjustsPrice(s)
    then Scale(f.price, priceAdj, if s == LowerPrice then ExcessSupplyFactor(p) else 1.0)
    else f.price
  }

  /** The minimum price: the unit labour cost plus the policy rate on the
      part of the wage bill that equity does not cover, per unit supplied. */
  function MinPrice(wage: real, prod: real, policy: real, totalWage: real, equity: real, supply: real): real
    requires prod != 0.0 && supply != 0.0
  {
    wage / prod + policy * Max(0.0, totalWage - equity) / supply
  }

  /** The update of one firm. */
  function UpdateFirm(f: FirmIn, marketPrice: real, p: real, policy: real, priceAdj: real, supplyAdj: real): (r: FirmOut)
    requires Producing(f) && p != 1.0 && PriceDefined(f, marketPrice, p, supplyAdj)
    ensures r.scenario == ScenarioOf(f.exSupply, f.price, marketPrice)
    ensures r.supply <= SupplyThreshold(f.prod, f.maxLeverage, f.equity, f.wage)
    ensures r.overCap <==> UncappedSupply(f, marketPrice, p, supplyAdj) > SupplyThreshold(f.prod, f.maxLeverage, f.equity, f.wage)
    ensures r.totalWage * f.prod == f.wage * r.supply
    ensures AdjustsPrice(r.scenario) ==> r.price >= r.minPrice && r.price >= r.adjustedPrice
    ensures AdjustsPrice(r.scenario) ==> r.price == r.minPrice || r.price == r.adjustedPrice
    ensures !AdjustsPrice(r.scenario) ==> r.price == f.price
    ensures r.supply == FinalSupply(f, marketPrice, p, supplyAdj)
    ensures r.adjustedPrice == AdjustedPrice(f, marketPrice, p, priceAdj)
    ensures AdjustsPrice(r.scenario) ==>
              r.supply != 0.0 && r.minPrice == MinPrice(f.wage, f.prod, policy, r.totalWage, f.equity, r.supply)
  {
    var s := ScenarioOf(f.exSupply, f.price, marketPrice);
    var threshold := SupplyThreshold(f.prod, f.maxLeverage, f.equity, f.wage);
    var uncapped := UncappedSupply(f, marketPrice, p, supplyAdj);
    var supply := Min(uncapped, threshold);
    var totalWage := f.wage * supply / f.prod;
    var adjusted := AdjustedPrice(f, marketPrice, p, priceAdj);
    var minPrice := if AdjustsPrice(s)
                    then MinPrice(f.wage, f.prod, policy, totalWage, f.equity, supply)
                    else 0.0;
    var price := if AdjustsPrice(s) then Max(adjusted, minPrice) else f.price;
    FirmOut(s, adjusted, price, supply, totalWage, minPrice, uncapped > threshold)
  }

  lemma QuotientNonNegative(a: real, b: real)
    requires a >= 0.0 && b > 0.0
    ensures a / b >= 0.0
  {
    assert (a / b) * b == a;
  }

  /** For a probability in [0, 1) the lowering factor is not positive. */
  lemma LoweringFactor(p: real)
    requires 0.0 <= p < 1.0
    ensures ExcessSupplyFactor(p) <= 0.0
  {
    QuotientNonNegative(p, 1.0 - p);
    assert ExcessSupplyFactor(p) == -(p / (1.0 - p));
  }

  /** A non-negative quantity scaled by `1 + adj * factor` with a draw
      `adj >= 0` grows when the factor is 1 and does not grow when it is not
      positive. */
  lemma ScaleDirection(x: real, adj: real, factor: real)
    requires x >= 0.0 && adj >= 0.0
    ensures factor <= 0.0 ==> Scale(x, adj, factor) <= x
    ensures factor == 1.0 ==> Scale(x, adj, factor) >= x
  {
    assert Scale(x, adj, factor) == x + x * (adj * factor);
    if factor <= 0.0 {
      assert adj * factor <= 0.0;
      assert x * (adj * factor) <= 0.0;
    }
  }

  /** Scenario 1 never raises a non-negative price, scenario 2 never lowers
      one, scenario 3 never raises a non-negative supply and scenario 4 never
      lowers one, for any probability in [0, 1) and non-negative draws. */
  lemma AdjustmentDirections(f: FirmIn, marketPrice: real, p: real, priceAdj: real, supplyAdj: real)
    requires 0.0 <= p < 1.0 && 0.0 <= priceAdj && 0.0 <= supplyAdj && f.price >= 0.0
    ensures var s := ScenarioOf(f.exSupply, f.price, marketPrice);
            var grown := f.supply * (1.0 + f.profit);
            && (s == LowerPrice ==> AdjustedPrice(f, marketPrice, p, priceAdj) <= f.price)
            && (s == RaisePrice ==> AdjustedPrice(f, marketPrice, p, priceAdj) >= f.price)
            && (s == LowerSupply && grown >= 0.0 ==> UncappedSupply(f, marketPrice, p, supplyAdj) <= grown)
            && (s == RaiseSupply && grown >= 0.0 ==> UncappedSupply(f, marketPrice, p, supplyAdj) >= grown)
            && (AdjustsPrice(s) ==> UncappedSupply(f, marketPrice, p, supplyAdj) == grown)
            && (!AdjustsPrice(s) ==> AdjustedPrice(f, marketPrice, p, priceAdj) == f.price)
  {
    LoweringFactor(p);
    var grown := f.supply * (1.0 + f.profit);
    ScaleDirection(f.price, priceAdj, ExcessSupplyFactor(p));
    ScaleDirection(f.price, priceAdj, 1.0);
    if grown >= 0.0 {
      ScaleDirection(grown, supplyAdj, ExcessSupplyFactor(p));
      ScaleDirection(grown, supplyAdj, 1.0);
    }
  }

  /** A raise by a draw in [0, 0.02] grows a non-negative quantity by at
      most two percent. */
  lemma RaiseStep(x: real, adj: real)
    requires x >= 0.0 && 0.0 <= adj <= 0.02
    ensures x <= Scale(x, adj, 1.0) <= 1.02 * x
  {
    assert Scale(x, adj, 1.0) == x + x * adj;
    assert x * adj <= x * 0.02;
  }

  /** With the draws of `price_adj_vectorized` and `supply_adj_vectorized`,
      a firm raising its price (scenario 2) or its supply (scenario 4) moves
      it up by at most two percent before the minimum price and the leverage
      cap apply. */
  lemma RaisesBounded(firms: seq<FirmIn>, marketPrice: real, p: real, priceAdj: Vector, supplyAdj: Vector)
    requires |priceAdj| == |firms| && |supplyAdj| == |firms| && p != 1.0
    requires PriceDraws(priceAdj) && SupplyDraws(supplyAdj)
    ensures forall i :: 0 <= i < |firms| && firms[i].price >= 0.0
                        && ScenarioOf(firms[i].exSupply, firms[i].price, marketPrice) == RaisePrice ==>
              firms[i].price <= AdjustedPrice(firms[i], marketPrice, p, priceAdj[i]) <= 1.02 * firms[i].price
    ensures forall i :: 0 <= i < |firms| && firms[i].supply * (1.0 + firms[i].profit) >= 0.0
                        && ScenarioOf(firms[i].exSupply, firms[i].price, marketPrice) == RaiseSupply ==>
              var grown := firms[i].supply * (1.0 + firms[i].profit);
              grown <= UncappedSupply(firms[i], marketPrice, p, supplyAdj[i]) <= 1.02 * grown
  {
    forall i | 0 <= i < |firms| && firms[i].price >= 0.0
      ensures firms[i].price <= Scale(firms[i].price, priceAdj[i], 1.0) <= 1.02 * firms[i].price
    {
      RaiseStep(firms[i].price, priceAdj[i]);
    }
    forall i | 0 <= i < |firms| && firms[i].supply * (1.0 + firms[i].profit) >= 0.0
      ensures var grown := firms[i].supply * (1.0 + firms[i].profit);
              grown <= Scale(grown, supplyAdj[i], 1.0) <= 1.02 * grown
    {
      RaiseStep(firms[i].supply * (1.0 + firms[i].profit), supplyAdj[i]);
    }
  }

  /** With a non-negative policy rate and a positive final supply, an
      adjusted price covers at least the unit labour cost `wage / prod`. */
  lemma PriceCoversUnitCost(f: FirmIn, marketPrice: real, p: real, policy: real, priceAdj: real, supplyAdj: real)
    requires Producing(f) && p != 1.0 && PriceDefined(f, marketPrice, p, supplyAdj) && policy >= 0.0
    requires AdjustsPrice(ScenarioOf(f.exSupply, f.price, marketPrice))
    requires FinalSupply(f, marketPrice, p, supplyAdj) > 0.0
    ensures UpdateFirm(f, marketPrice, p, policy, priceAdj, supplyAdj).price >= f.wage / f.prod
  {
    var r := UpdateFirm(f, marketPrice, p, policy, priceAdj, supplyAdj);
    MinPriceCoversUnitCost(f.wage, f.prod, policy, r.totalWage, f.equity, r.supply);
  }

  lemma MinPriceCoversUnitCost(wage: real, prod: real, policy: real, totalWage: real, equity: real, supply: real)
    requires prod != 0.0 && supply > 0.0 && policy >= 0.0
    ensures MinPrice(wage, prod, policy, totalWage, equity, supply) >= wage / prod
  {
    var excess := Max(0.0, totalWage - equity);
    assert policy * excess >= 0.0;
    QuotientNonNegative(policy * excess, supply);
  }

  /** Number of true entries. */
  function Count(mask: seq<bool>): (n: nat)
    ensures n <= |mask|
  {
    if |mask| == 0 then 0 else Count(mask[..|mask| - 1]) + if mask[|mask| - 1] then 1 else 0
  }

  /** Every firm can be handed to `UpdateFirm`. */
  predicate AllDefined(firms: seq<FirmIn>, marketPrice: real, p: real, supplyAdj: Vector)
    requires |supplyAdj| == |firms| && p != 1.0
    requires forall i :: 0 <= i < |firms| ==> Producing(firms[i])
  {
    forall i :: 0 <= i < |firms| ==> PriceDefined(firms[i], marketPrice, p, supplyAdj[i])
  }

  /** The per-firm updates, firm by firm. */
  function Outcomes(firms: seq<FirmIn>, marketPrice: real, p: real, policy: real,
                    priceAdj: Vector, supplyAdj: Vector): (out: seq<FirmOut>)
    requires |priceAdj| == |firms| && |supplyAdj| == |firms| && p != 1.0
    requires forall i :: 0 <= i < |firms| ==> Producing(firms[i])
    requires AllDefined(firms, marketPrice, p, supplyAdj)
    ensures |out| == |firms|
    ensures forall i :: 0 <= i < |firms| ==> out[i] == UpdateFirm(firms[i], marketPrice, p, policy, priceAdj[i], supplyAdj[i])
  {
    seq(|firms|, i requires 0 <= i < |firms| => UpdateFirm(firms[i], marketPrice, p, policy, priceAdj[i], supplyAdj[i]))
  }

  /** Firms in scenario 1 or 2. */
  function AdjustingMask(out: seq<FirmOut>): (m: seq<bool>)
    ensures |m| == |out| && forall i :: 0 <= i < |out| ==> (m[i] <==> AdjustsPrice(out[i].scenario))
  {
    seq(|out|, i requires 0 <= i < |out| => AdjustsPrice(out[i].scenario))
  }

  /** Firms in scenario 1 or 2 whose minimum price exceeds their adjusted price. */
  function BreachingMask(out: seq<FirmOut>): (m: seq<bool>)
    ensures |m| == |out|
    ensures forall i :: 0 <= i < |out| ==> (m[i] <==> AdjustsPrice(out[i].scenario) && out[i].minPrice > out[i].adjustedPrice)
  {
    seq(|out|, i requires 0 <= i < |out| => AdjustsPrice(out[i].scenario) && out[i].minPrice > out[i].adjustedPrice)
  }

  /** Firms whose supply was cut to the leverage threshold. */
  function OverCapMask(out: seq<FirmOut>): (m: seq<bool>)
    ensures |m| == |out| && forall i :: 0 <= i < |out| ==> (m[i] <==> out[i].overCap)
  {
    seq(|out|, i requires 0 <= i < |out| => out[i].overCap)
  }

  /** The outputs of `compute_expected_supply_price`. The breach fraction is
      `None` where the source divides zero by zero. */
  datatype Update = Update(price: Vector, supply: Vector, totalWage: Vector, thresholdBreach: nat,
                           minPriceBreach: Option<real>)

  /** `compute_expected_supply_price`, with the draws of
      `price_adj_vectorized` and `supply_adj_vectorized` as parameters. */
  function ComputeExpectedSupplyPrice(firms: seq<FirmIn>, marketPrice: real, p: real, policy: real,
                                      priceAdj: Vector, supplyAdj: Vector): (r: Option<Update>)
    requires |priceAdj| == |firms| && |supplyAdj| == |firms| && p != 1.0
    requires forall i :: 0 <= i < |firms| ==> Producing(firms[i])
    ensures r.Some? <==> AllDefined(firms, marketPrice, p, supplyAdj)
    ensures r.Some? ==>
              var out := Outcomes(firms, marketPrice, p, policy, priceAdj, supplyAdj);
              && |r.value.price| == |firms| && |r.value.supply| == |firms| && |r.value.totalWage| == |firms|
              && (forall i :: 0 <= i < |firms| ==>
                    && r.value.price[i] == out[i].price
                    && r.value.supply[i] == out[i].supply
                    && r.value.totalWage[i] == out[i].totalWage)
              && r.value.thresholdBreach == Count(OverCapMask(out))
              && (r.value.minPriceBreach.None? <==> Count(AdjustingMask(out)) == 0)
              && (r.value.minPriceBreach.Some? ==>
                    r.value.minPriceBreach.value == Count(BreachingMask(out)) as real / Count(AdjustingMask(out)) as real)
  {
    if !AllDefined(firms, marketPrice, p, supplyAdj) then None
    else
      var out := Outcomes(firms, marketPrice, p, policy, priceAdj, supplyAdj);
      var adjusting := Count(AdjustingMask(out));
      Some(Update(
        seq(|out|, i requires 0 <= i < |out| => out[i].price),
        seq(|out|, i requires 0 <= i < |out| => out[i].supply),
        seq(|out|, i requires 0 <= i < |out| => out[i].totalWage),
        Count(OverCapMask(out)),
        if adjusting == 0 then None else Some(Count(BreachingMask(out)) as real / adjusting as real)))
  }

  /** A firm counted in a mask that implies another is counted there too. */
  lemma {:induction false} CountMonotone(a: seq<bool>, b: seq<bool>)
    requires |a| == |b| && forall i :: 0 <= i < |a| && a[i] ==> b[i]
    ensures Count(a) <= Count(b)
  {
    if |a| > 0 {
      CountMonotone(a[..|a| - 1], b[..|b| - 1]);
    }
  }

  lemma Fraction(b: nat, a: nat)
    requires b <= a && a > 0
    ensures 0.0 <= b as real / a as real <= 1.0
  {
    assert (b as real / a as real) * a as real == b as real;
  }

  /** The breach fraction lies in [0, 1]. */
  lemma MinPriceBreachFraction(firms: seq<FirmIn>, marketPrice: real, p: real, policy: real,
                               priceAdj: Vector, supplyAdj: Vector)
    requires |priceAdj| == |firms| && |supplyAdj| == |firms| && p != 1.0
    requires forall i :: 0 <= i < |firms| ==> Producing(firms[i])
    requires ComputeExpectedSupplyPrice(firms, marketPrice, p, policy, priceAdj, supplyAdj).Some?
    ensures var b := ComputeExpectedSupplyPrice(firms, marketPrice, p, policy, priceAdj, supplyAdj).value.minPriceBreach;
            b.Some? ==> 0.0 <= b.value <= 1.0
  {
    var out := Outcomes(firms, marketPrice, p, policy, priceAdj, supplyAdj);
    var breaching := Count(BreachingMask(out));
    var adjusting := Count(AdjustingMask(out));
    CountMonotone(BreachingMask(out), AdjustingMask(out));
    if adjusting > 0 {
      Fraction(breaching, adjusting);
    }
  }
}

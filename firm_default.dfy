/** Firm defaults (`abm_vec/clear_firm_default.py`): production is clamped to
    what the firm's equity can pay for, a bounded share of the supply is sold,
    firms whose equity then falls below what they owe on their loans default,
    and the loans are settled pro rata at each firm's recovery rate. The
    source works on copies of its inputs, so the model is a function. The
    consumption draws of `numpy.random.normal` are the parameter `draws`. */
module FirmDefault {
  import opened Vectors

  /** The wage bill, clamped to the equity that pays it. */
  function WageBill(equity: real, totalWage: real): (w: real)
    ensures w <= totalWage && equity - w >= 0.0
    ensures totalWage > equity ==> w == equity
  {
    if totalWage > equity then equity else totalWage
  }

  /** The supply, cut back to what `equity` buys at `wage` when the wage bill
      exceeds the equity. */
  function ProducedSupply(equity: real, totalWage: real, supply: real, prod: real, wage: real): real
    requires wage > 0.0
  {
    if totalWage > equity then equity * prod / wage else supply
  }

  /** `min(max(min_consumption, draw), max_consumption)`. */
  function Share(minConsumption: real, maxConsumption: real, draw: real): (s: real)
    ensures minConsumption <= maxConsumption ==> minConsumption <= s <= maxConsumption
  {
    Min(Max(minConsumption, draw), maxConsumption)
  }

  /** The firm's domain as its callers supply it. */
  predicate Firm(equity: real, supply: real, prod: real, wage: real, price: real) {
    equity >= 0.0 && supply >= 0.0 && prod >= 0.0 && wage > 0.0 && price >= 0.0
  }

  /** The equity after paying wages and selling `share` of the supply. */
  function AfterSales(equity: real, totalWage: real, supply: real, prod: real, wage: real, price: real, share: real): (e: real)
    requires Firm(equity, supply, prod, wage, price) && share >= 0.0
    ensures e >= 0.0
  {
    var produced := ProducedSupply(equity, totalWage, supply, prod, wage);
    assert produced >= 0.0 by {
      if totalWage > equity {
        assert equity * prod >= 0.0;
      }
    }
    assert price * share * produced >= 0.0 by {
      assert price * share >= 0.0;
    }
    equity - WageBill(equity, totalWage) + price * share * produced
  }

  /** A firm's claim from each bank: (1 + rate) * amount for each of its
      loans. */
  function LoanValue(interest: Vector, amount: Vector): (v: Vector)
    requires |interest| == |amount|
    ensures |v| == |amount|
    ensures forall j :: 0 <= j < |amount| ==> v[j] == (1.0 + interest[j]) * amount[j]
  {
    seq(|amount|, j requires 0 <= j < |amount| => (1.0 + interest[j]) * amount[j])
  }

  /** A firm defaults when its equity is below what it owes. */
  predicate Defaults(equity: real, owed: real) {
    equity < owed
  }

  /** Full repayment for a solvent firm; equity over what is owed otherwise. */
  function Recovery(equity: real, owed: real): (r: real)
    requires equity >= 0.0
    ensures Defaults(equity, owed) ==> 0.0 <= r < 1.0 && r * owed == equity
    ensures !Defaults(equity, owed) ==> r == 1.0
  {
    if Defaults(equity, owed) then equity / owed else 1.0
  }

  /** The equity left after repaying `recovery * owed`. */
  function Remaining(equity: real, owed: real): (e: real)
    requires equity >= 0.0
    ensures Defaults(equity, owed) ==> e == 0.0
    ensures !Defaults(equity, owed) ==> e == equity - owed >= 0.0
  {
    equity - Recovery(equity, owed) * owed
  }

  datatype FirmOutcome = FirmOutcome(
    equity: Vector,
    excessSupply: Vector,
    supply: Vector,
    prevEquity: Vector,
    recovery: Vector,
    loanFirmValue: Matrix,
    defaultingFirms: seq<int>,
    totalWage: Vector)

  predicate Inputs(interest: Matrix, amount: Matrix, numBanks: nat, equity: Vector, totalWage: Vector, supply: Vector,
                   prod: Vector, wage: Vector, price: Vector, minConsumption: real, maxConsumption: real, draws: Vector)
  {
    var n := |equity|;
    && IsMatrix(interest, n, numBanks) && IsMatrix(amount, n, numBanks)
    && |totalWage| == n && |supply| == n && |prod| == n && |wage| == n && |price| == n && |draws| == n
    && (forall i :: 0 <= i < n ==> Firm(equity[i], supply[i], prod[i], wage[i], price[i]))
    && 0.0 <= minConsumption <= maxConsumption
  }

  /** The equity of every firm after wages and sales, before repaying loans. */
  function SalesEquity(equity: Vector, totalWage: Vector, supply: Vector, prod: Vector, wage: Vector, price: Vector,
                       minConsumption: real, maxConsumption: real, draws: Vector): (e: Vector)
    requires |totalWage| == |supply| == |prod| == |wage| == |price| == |draws| == |equity|
    requires forall i :: 0 <= i < |equity| ==> Firm(equity[i], supply[i], prod[i], wage[i], price[i])
    requires 0.0 <= minConsumption <= maxConsumption
    ensures |e| == |equity|
    ensures forall i :: 0 <= i < |e| ==> e[i] >= 0.0
  {
    seq(|equity|, i requires 0 <= i < |equity| =>
          AfterSales(equity[i], totalWage[i], supply[i], prod[i], wage[i], price[i],
                     Share(minConsumption, maxConsumption, draws[i])))
  }

  /** What each firm owes on all its loans. */
  function Owed(interest: Matrix, amount: Matrix, numBanks: nat): (o: Vector)
    requires IsMatrix(interest, |amount|, numBanks) && IsMatrix(amount, |amount|, numBanks)
    ensures |o| == |amount|
  {
    seq(|amount|, i requires 0 <= i < |amount| => Sum(LoanValue(interest[i], amount[i])))
  }

  /** Each firm's recovery rate. */
  function RecoveryRates(sales: Vector, owed: Vector): (r: Vector)
    requires |sales| == |owed| && forall i :: 0 <= i < |sales| ==> sales[i] >= 0.0
    ensures |r| == |sales|
    ensures forall i :: 0 <= i < |sales| ==> r[i] == Recovery(sales[i], owed[i])
  {
    seq(|sales|, i requires 0 <= i < |sales| => Recovery(sales[i], owed[i]))
  }

  /** One firm's loans scaled by its recovery rate `rate`: what each bank
      gets back, pro rata to its claim. */
  function Repayment(interest: Vector, amount: Vector, rate: real): (paid: Vector)
    requires |interest| == |amount|
    ensures |paid| == |amount|
    ensures forall j :: 0 <= j < |amount| ==> paid[j] == rate * LoanValue(interest, amount)[j]
    ensures Sum(paid) == rate * Sum(LoanValue(interest, amount))
  {
    var claims := LoanValue(interest, amount);
    var paid := seq(|claims|, j requires 0 <= j < |claims| => rate * claims[j]);
    SumScale(rate, claims, paid);
    paid
  }

  /** Every firm's repayments. A firm's repayments add up to its recovery
      rate times what it owes. */
  function Repayments(interest: Matrix, amount: Matrix, numBanks: nat, recovery: Vector): (paid: Matrix)
    requires IsMatrix(interest, |amount|, numBanks) && IsMatrix(amount, |amount|, numBanks) && |recovery| == |amount|
    ensures IsMatrix(paid, |amount|, numBanks)
    ensures forall i, j :: 0 <= i < |amount| && 0 <= j < numBanks ==>
              paid[i][j] == recovery[i] * LoanValue(interest[i], amount[i])[j]
    ensures forall i :: 0 <= i < |amount| ==> Sum(paid[i]) == recovery[i] * Owed(interest, amount, numBanks)[i]
  {
    seq(|amount|, i requires 0 <= i < |amount| => Repayment(interest[i], amount[i], recovery[i]))
  }

  /** How one firm with equity `sales` after sales and `owed` on its loans
      comes out of settlement: it defaults exactly when it cannot repay in
      full, a defaulter pays all its equity at a recovery rate below one and
      is left with nothing, a solvent firm repays in full and keeps the rest,
      and the banks receive what the firm's equity lost. */
  predicate SettledFirm(sales: real, owed: real, defaulted: bool, recovery: real, equity: real, repaid: real) {
    && (defaulted <==> Defaults(sales, owed))
    && (defaulted ==> 0.0 <= recovery < 1.0 && recovery * owed == sales && equity == 0.0)
    && (!defaulted ==> recovery == 1.0 && equity == sales - owed >= 0.0)
    && repaid == sales - equity
  }

  /** The loan settlement of all firms: remaining equity, recovery rates,
      repayments per bank and the ascending default set. */
  datatype Settlement = Settlement(equity: Vector, recovery: Vector, repaid: Matrix, defaulting: seq<int>)

  function SettleLoans(interest: Matrix, amount: Matrix, numBanks: nat, sales: Vector): (s: Settlement)
    requires IsMatrix(interest, |sales|, numBanks) && IsMatrix(amount, |sales|, numBanks)
    requires forall i :: 0 <= i < |sales| ==> sales[i] >= 0.0
    ensures |s.equity| == |sales| && |s.recovery| == |sales| && IsMatrix(s.repaid, |sales|, numBanks)
    ensures Increasing(s.defaulting)
    ensures s.repaid == Repayments(interest, amount, numBanks, s.recovery)
    ensures var owed := Owed(interest, amount, numBanks);
            forall i :: 0 <= i < |sales| ==>
              SettledFirm(sales[i], owed[i], i in s.defaulting, s.recovery[i], s.equity[i], Sum(s.repaid[i]))
  {
    var n := |sales|;
    var owed := Owed(interest, amount, numBanks);
    var recovery := RecoveryRates(sales, owed);
    var defaulting := Where(seq(n, i requires 0 <= i < n => Defaults(sales[i], owed[i])));
    var remaining := seq(n, i requires 0 <= i < n => Remaining(sales[i], owed[i]));
    var paid := Repayments(interest, amount, numBanks, recovery);
    assert forall i :: 0 <= i < n ==> SettledFirm(sales[i], owed[i], i in defaulting, recovery[i], remaining[i], Sum(paid[i])) by {
      forall i | 0 <= i < n
        ensures SettledFirm(sales[i], owed[i], i in defaulting, recovery[i], remaining[i], Sum(paid[i]))
      {
        FirmSettled(sales[i], owed[i], Sum(paid[i]));
      }
    }
    Settlement(remaining, recovery, paid, defaulting)
  }

  /** One firm's settlement: paying its recovery rate times what it owes
      settles it as `SettledFirm` says. */
  lemma FirmSettled(sales: real, owed: real, paid: real)
    requires sales >= 0.0 && paid == Recovery(sales, owed) * owed
    ensures SettledFirm(sales, owed, Defaults(sales, owed), Recovery(sales, owed), Remaining(sales, owed), paid)
  {
  }

  /** Every firm's clamped wage bill. */
  function WageBills(equity: Vector, totalWage: Vector): (w: Vector)
    requires |totalWage| == |equity|
    ensures |w| == |equity|
    ensures forall i :: 0 <= i < |equity| ==> w[i] == if totalWage[i] > equity[i] then equity[i] else totalWage[i]
  {
    seq(|equity|, i requires 0 <= i < |equity| => WageBill(equity[i], totalWage[i]))
  }

  /** Every firm's supply after the production clamp. */
  function Production(equity: Vector, totalWage: Vector, supply: Vector, prod: Vector, wage: Vector): (s: Vector)
    requires |totalWage| == |supply| == |prod| == |wage| == |equity|
    requires forall i :: 0 <= i < |wage| ==> wage[i] > 0.0
    ensures |s| == |equity|
    ensures forall i :: 0 <= i < |equity| ==>
              s[i] == if totalWage[i] > equity[i] then equity[i] * prod[i] / wage[i] else supply[i]
  {
    seq(|equity|, i requires 0 <= i < |equity| => ProducedSupply(equity[i], totalWage[i], supply[i], prod[i], wage[i]))
  }

  /** The part of each firm's supply its consumption share leaves unsold. */
  function Unsold(produced: Vector, minConsumption: real, maxConsumption: real, draws: Vector): (x: Vector)
    requires |draws| == |produced|
    ensures |x| == |produced|
    ensures forall i :: 0 <= i < |produced| ==> x[i] == (1.0 - Share(minConsumption, maxConsumption, draws[i])) * produced[i]
  {
    seq(|produced|, i requires 0 <= i < |produced| => (1.0 - Share(minConsumption, maxConsumption, draws[i])) * produced[i])
  }

  /** `clear_firm_default`, with the firms' consumption draws as a parameter. */
  function ClearFirmDefault(interest: Matrix, amount: Matrix, numBanks: nat, equity: Vector, totalWage: Vector,
                            supply: Vector, prod: Vector, wage: Vector, price: Vector,
                            minConsumption: real, maxConsumption: real, draws: Vector): (r: FirmOutcome)
    requires Inputs(interest, amount, numBanks, equity, totalWage, supply, prod, wage, price, minConsumption, maxConsumption, draws)
    ensures var n := |equity|;
            && |r.equity| == n && |r.excessSupply| == n && |r.supply| == n && |r.recovery| == n && |r.totalWage| == n
            && IsMatrix(r.loanFirmValue, n, numBanks)
            && r.prevEquity == equity
    // the production clamp
    ensures forall i :: 0 <= i < |equity| ==>
              if totalWage[i] > equity[i]
              then r.totalWage[i] == equity[i] && r.supply[i] == equity[i] * prod[i] / wage[i]
              else r.totalWage[i] == totalWage[i] && r.supply[i] == supply[i]
    // the default set, the recovery rates and the repayments
    ensures var sales := SalesEquity(equity, totalWage, supply, prod, wage, price, minConsumption, maxConsumption, draws);
            var owed := Owed(interest, amount, numBanks);
            forall i :: 0 <= i < |equity| ==>
              SettledFirm(sales[i], owed[i], i in r.defaultingFirms, r.recovery[i], r.equity[i], Sum(r.loanFirmValue[i]))
    ensures Increasing(r.defaultingFirms)
    // each bank is repaid its claim times the firm's recovery rate
    ensures r.loanFirmValue == Repayments(interest, amount, numBanks, r.recovery)
    // the sales: the unsold part of the supply is the excess supply
    ensures r.excessSupply == Unsold(r.supply, minConsumption, maxConsumption, draws)
  {
    var sales := SalesEquity(equity, totalWage, supply, prod, wage, price, minConsumption, maxConsumption, draws);
    var settled := SettleLoans(interest, amount, numBanks, sales);
    var produced := Production(equity, totalWage, supply, prod, wage);
    FirmOutcome(
      settled.equity,
      Unsold(produced, minConsumption, maxConsumption, draws),
      produced,
      equity,
      settled.recovery,
      settled.repaid,
      settled.defaulting,
      WageBills(equity, totalWage))
  }

  /** Lower equity after sales, with the same loans, never turns a defaulting
      firm into a solvent one. */
  lemma DefaultMonotoneInEquity(lower: real, equity: real, owed: real)
    requires lower <= equity && Defaults(equity, owed)
    ensures Defaults(lower, owed)
  {
  }

  lemma ProductMonotone(a: real, b: real, c: real)
    requires a <= b && c >= 0.0
    ensures a * c <= b * c
  {
  }

  /** When the wage bill is what producing the supply costs, lower equity
      before production never means more supply: in each of the three cases
      of the clamp (both firms cut back, only the lower one, neither) the
      lower firm produces at most as much. */
  lemma ProducedSupplyMonotone(lower: real, equity: real, totalWage: real, supply: real, prod: real, wage: real)
    requires 0.0 <= lower <= equity && prod > 0.0 && wage > 0.0
    requires totalWage == wage * supply / prod
    ensures ProducedSupply(lower, totalWage, supply, prod, wage) <= ProducedSupply(equity, totalWage, supply, prod, wage)
  {
    var k := prod / wage;
    assert k > 0.0;
    assert supply == totalWage * k by {
      assert totalWage * prod == wage * supply;
    }
    if totalWage > equity {
      assert lower * prod / wage == lower * k && equity * prod / wage == equity * k;
      ProductMonotone(lower, equity, k);
    } else if totalWage > lower {
      assert lower * prod / wage == lower * k;
      ProductMonotone(lower, totalWage, k);
    }
  }

  /** When the wage bill is what producing the supply costs (as the supply
      and price update computes it), lower equity before production means
      lower equity after sales. */
  lemma AfterSalesMonotone(lower: real, equity: real, totalWage: real, supply: real, prod: real, wage: real,
                           price: real, share: real)
    requires Firm(lower, supply, prod, wage, price) && Firm(equity, supply, prod, wage, price)
    requires share >= 0.0 && lower <= equity && prod > 0.0
    requires totalWage == wage * supply / prod
    ensures AfterSales(lower, totalWage, supply, prod, wage, price, share)
            <= AfterSales(equity, totalWage, supply, prod, wage, price, share)
  {
    var ps := price * share;
    assert ps >= 0.0;
    var sLow := ProducedSupply(lower, totalWage, supply, prod, wage);
    var sHigh := ProducedSupply(equity, totalWage, supply, prod, wage);
    ProducedSupplyMonotone(lower, equity, totalWage, supply, prod, wage);
    ProductMonotone(sLow, sHigh, ps);
    assert price * share * sLow == sLow * ps && price * share * sHigh == sHigh * ps;
  }

  /** Under that relation, lowering a firm's equity before production, with
      its loans and draws fixed, never removes it from the default set. */
  lemma DefaultSetMonotone(lower: real, equity: real, totalWage: real, supply: real, prod: real, wage: real,
                           price: real, share: real, owed: real)
    requires Firm(lower, supply, prod, wage, price) && Firm(equity, supply, prod, wage, price)
    requires share >= 0.0 && lower <= equity && prod > 0.0
    requires totalWage == wage * supply / prod
    requires Defaults(AfterSales(equity, totalWage, supply, prod, wage, price, share), owed)
    ensures Defaults(AfterSales(lower, totalWage, supply, prod, wage, price, share), owed)
  {
    AfterSalesMonotone(lower, equity, totalWage, supply, prod, wage, price, share);
  }
}

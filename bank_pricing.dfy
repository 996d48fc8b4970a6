/** Bank-side pricing (`abm_vec/banks.py`): which loan requests a bank
    answers and at what rate, interbank rates, the one-period CDS spread and
    the CDS affordability test. The uniform and normal draws are parameters,
    and `tanh` is a parameter constrained to the hyperbolic tangent's range
    and sign. */
module BankPricing {
  import opened Vectors

  /** What the model uses of `numpy.tanh`: it lies strictly between -1 and 1
      and is non-negative on non-negative arguments. */
  ghost predicate TanhLike(tanh: real -> real) {
    forall x :: -1.0 < tanh(x) < 1.0 && (x >= 0.0 ==> tanh(x) >= 0.0)
  }

  /** Firm `i` asked bank `j` for a loan, and its demand is below the bank's
      maximum credit. */
  predicate Offered(indicator: real, demand: real, maxCredit: real) {
    indicator > 0.0 && demand < maxCredit
  }

  /** The default probability and fragility exist at every bank index that
      receives an offer: the source reads them only there, so fewer firms
      than banks are fine until an offer falls beyond the last firm. */
  predicate OffersReadable(indicator: Matrix, demand: Vector, maxCredit: Vector, pd: Vector, fragility: Vector)
    requires IsMatrix(indicator, |demand|, |maxCredit|)
  {
    forall i, j :: 0 <= i < |demand| && 0 <= j < |maxCredit| && Offered(indicator[i][j], demand[i], maxCredit[j])
      ==> j < |pd| && j < |fragility|
  }

  /** The argument of `tanh` in a firm loan rate: the fragility scaled up by
      the drawn multiple of the default probability. */
  function Risk(scale: real, pd: real, fragility: real): real {
    (1.0 + scale * pd) * fragility
  }

  /** `policy * (1 + u * tanh(argument))`: the rate formula shared by firm
      and interbank loans. */
  function Markup(policy: real, u: real, tanh: real -> real, argument: real): real {
    policy * (1.0 + u * tanh(argument))
  }

  /** `asses_loan_requests_firms`. `uniform[i][j]` and `scale[i][j]` are the
      draws from U(0, theta) and U(0.9, 1.1) for the offer of bank `j` to firm
      `i`. The default probability and fragility are read at the bank's index
      `j`, as the source does. */
  function AssessLoanRequests(indicator: Matrix, demand: Vector, maxCredit: Vector, pd: Vector, fragility: Vector,
                              policy: real, uniform: Matrix, scale: Matrix, tanh: real -> real): (r: Matrix)
    requires IsMatrix(indicator, |demand|, |maxCredit|)
    requires IsMatrix(uniform, |demand|, |maxCredit|) && IsMatrix(scale, |demand|, |maxCredit|)
    requires OffersReadable(indicator, demand, maxCredit, pd, fragility)
    ensures IsMatrix(r, |demand|, |maxCredit|)
    ensures forall i, j :: 0 <= i < |demand| && 0 <= j < |maxCredit| && !Offered(indicator[i][j], demand[i], maxCredit[j])
              ==> r[i][j] == 0.0
  {
    seq(|demand|, i requires 0 <= i < |demand| =>
      seq(|maxCredit|, j requires 0 <= j < |maxCredit| =>
        if Offered(indicator[i][j], demand[i], maxCredit[j])
        then Markup(policy, uniform[i][j], tanh, Risk(scale[i][j], pd[j], fragility[j]))
        else 0.0))
  }

  /** The draws as NumPy produces them. */
  predicate OfferDraws(uniform: Matrix, scale: Matrix, theta: real) {
    && (forall i, j :: 0 <= i < |uniform| && 0 <= j < |uniform[i]| ==> 0.0 <= uniform[i][j] <= theta)
    && (forall i, j :: 0 <= i < |scale| && 0 <= j < |scale[i]| ==> 0.9 <= scale[i][j] <= 1.1)
  }

  lemma MarkupBounds(policy: real, u: real, theta: real, tanh: real -> real, argument: real)
    requires TanhLike(tanh) && policy >= 0.0 && 0.0 <= u <= theta
    ensures policy * (1.0 - theta) <= Markup(policy, u, tanh, argument) <= policy * (1.0 + theta)
    ensures argument >= 0.0 ==> policy <= Markup(policy, u, tanh, argument)
  {
    var t := tanh(argument);
    assert -1.0 < t < 1.0;
    assert -u <= u * t <= u;
    assert policy * (1.0 + u * t) <= policy * (1.0 + theta);
    assert policy * (1.0 - theta) <= policy * (1.0 + u * t);
    if argument >= 0.0 {
      assert u * t >= 0.0;
    }
  }

  /** An answered request carries a rate within `theta` of the policy rate,
      and at least the policy rate when the bank's fragility and default
      probability are non-negative. */
  lemma OfferRateBounds(indicator: Matrix, demand: Vector, maxCredit: Vector, pd: Vector, fragility: Vector,
                        policy: real, theta: real, uniform: Matrix, scale: Matrix, tanh: real -> real, i: nat, j: nat)
    requires IsMatrix(indicator, |demand|, |maxCredit|)
    requires IsMatrix(uniform, |demand|, |maxCredit|) && IsMatrix(scale, |demand|, |maxCredit|)
    requires OffersReadable(indicator, demand, maxCredit, pd, fragility)
    requires TanhLike(tanh) && OfferDraws(uniform, scale, theta) && policy >= 0.0
    requires i < |demand| && j < |maxCredit| && Offered(indicator[i][j], demand[i], maxCredit[j])
    ensures var r := AssessLoanRequests(indicator, demand, maxCredit, pd, fragility, policy, uniform, scale, tanh);
            && policy * (1.0 - theta) <= r[i][j] <= policy * (1.0 + theta)
            && (pd[j] >= 0.0 && fragility[j] >= 0.0 ==> policy <= r[i][j])
  {
    var r := AssessLoanRequests(indicator, demand, maxCredit, pd, fragility, policy, uniform, scale, tanh);
    var argument := Risk(scale[i][j], pd[j], fragility[j]);
    assert r[i][j] == Markup(policy, uniform[i][j], tanh, argument);
    MarkupBounds(policy, uniform[i][j], theta, tanh, argument);
    if pd[j] >= 0.0 && fragility[j] >= 0.0 {
      assert scale[i][j] * pd[j] >= 0.0;
      assert argument >= 0.0;
    }
  }

  /** With a positive policy rate and `theta` at most one, the offer matrix
      is non-zero exactly where the request is answered. */
  lemma OffersExactlyWhereAnswered(indicator: Matrix, demand: Vector, maxCredit: Vector, pd: Vector, fragility: Vector,
                                   policy: real, theta: real, uniform: Matrix, scale: Matrix, tanh: real -> real)
    requires IsMatrix(indicator, |demand|, |maxCredit|)
    requires IsMatrix(uniform, |demand|, |maxCredit|) && IsMatrix(scale, |demand|, |maxCredit|)
    requires OffersReadable(indicator, demand, maxCredit, pd, fragility)
    requires TanhLike(tanh) && OfferDraws(uniform, scale, theta) && policy > 0.0 && theta <= 1.0
    ensures var r := AssessLoanRequests(indicator, demand, maxCredit, pd, fragility, policy, uniform, scale, tanh);
            forall i, j :: 0 <= i < |demand| && 0 <= j < |maxCredit| ==>
              (r[i][j] != 0.0 <==> Offered(indicator[i][j], demand[i], maxCredit[j]))
  {
    var r := AssessLoanRequests(indicator, demand, maxCredit, pd, fragility, policy, uniform, scale, tanh);
    forall i, j | 0 <= i < |demand| && 0 <= j < |maxCredit| && Offered(indicator[i][j], demand[i], maxCredit[j])
      ensures r[i][j] != 0.0
    {
      var u := uniform[i][j];
      var argument := Risk(scale[i][j], pd[j], fragility[j]);
      var t := tanh(argument);
      assert -1.0 < t < 1.0;
      assert r[i][j] == Markup(policy, u, tanh, argument);
      assert u * t > -1.0 by {
        if u > 0.0 {
          assert u * t > u * -1.0;
        }
      }
      assert r[i][j] == policy * (1.0 + u * t);
      assert policy * (1.0 + u * t) > 0.0;
    }
  }

  /** The rate depends on the bank only: two firms answered by the same bank
      with the same draws get the same rate, whatever their own default
      probabilities (the source reads `firm_pd` at the bank's index). */
  lemma RateIgnoresBorrower(indicator: Matrix, demand: Vector, maxCredit: Vector, pd: Vector, fragility: Vector,
                            policy: real, uniform: Matrix, scale: Matrix, tanh: real -> real, i1: nat, i2: nat, j: nat)
    requires IsMatrix(indicator, |demand|, |maxCredit|)
    requires IsMatrix(uniform, |demand|, |maxCredit|) && IsMatrix(scale, |demand|, |maxCredit|)
    requires OffersReadable(indicator, demand, maxCredit, pd, fragility)
    requires i1 < |demand| && i2 < |demand| && j < |maxCredit|
    requires Offered(indicator[i1][j], demand[i1], maxCredit[j]) && Offered(indicator[i2][j], demand[i2], maxCredit[j])
    requires uniform[i1][j] == uniform[i2][j] && scale[i1][j] == scale[i2][j]
    ensures var r := AssessLoanRequests(indicator, demand, maxCredit, pd, fragility, policy, uniform, scale, tanh);
            r[i1][j] == r[i2][j]
  {
  }

  /** `asses_interbank_loans`: one rate per draw from U(0, theta), each the
      policy rate marked up by its draw times tanh of the borrower's
      fragility. */
  function AssessInterbankLoans(fragility: real, policy: real, uniform: Vector, tanh: real -> real): (r: Vector)
    ensures |r| == |uniform|
    ensures forall k :: 0 <= k < |r| ==> r[k] == policy * (1.0 + uniform[k] * tanh(fragility))
  {
    seq(|uniform|, k requires 0 <= k < |uniform| => Markup(policy, uniform[k], tanh, fragility))
  }

  /** Every interbank rate lies between the policy rate and `1 + theta` times
      it when the borrower's fragility is non-negative. */
  lemma InterbankRateBounds(fragility: real, policy: real, theta: real, uniform: Vector, tanh: real -> real)
    requires TanhLike(tanh) && policy >= 0.0 && fragility >= 0.0
    requires forall k :: 0 <= k < |uniform| ==> 0.0 <= uniform[k] <= theta
    ensures var r := AssessInterbankLoans(fragility, policy, uniform, tanh);
            forall k :: 0 <= k < |r| ==> policy <= r[k] <= policy * (1.0 + theta)
  {
    var r := AssessInterbankLoans(fragility, policy, uniform, tanh);
    forall k | 0 <= k < |r| ensures policy <= r[k] <= policy * (1.0 + theta) {
      MarkupBounds(policy, uniform[k], theta, tanh, fragility);
    }
  }

  /** The recovery rate the CDS spread assumes. */
  const CdsRecovery: real := 0.3

  /** The default probability the spread uses: `pd + max(noise, 0.01 - pd)`,
      which is the noisy probability floored at 0.01. */
  function SpreadProbability(pd: real, noise: real): (q: real)
    ensures q >= 0.01
    ensures q == Max(pd + noise, 0.01)
  {
    pd + Max(noise, 0.01 - pd)
  }

  /** `provide_cds_spread`, with the normal draw as `noise`: the one-period
      spread `(1 - R - A R) q v / (q (u + e) + (1 - q) u)` with all three
      discount factors `1 / (1 + policy)`. */
  function ProvideCdsSpread(pd: real, policy: real, interest: real, noise: real): (s: real)
    requires policy != -1.0
    ensures var q := SpreadProbability(pd, noise);
            s == (1.0 - CdsRecovery - interest * CdsRecovery) * q / (1.0 + q)
  {
    var q := SpreadProbability(pd, noise);
    var u := 1.0 / (1.0 + policy);
    var v := 1.0 / (1.0 + policy);
    var e := 1.0 / (1.0 + policy);
    var c := 1.0 - CdsRecovery - interest * CdsRecovery;
    assert q * (u + e) + (1.0 - q) * u == u * (1.0 + q);
    assert u != 0.0;
    assert c * q * v / (u * (1.0 + q)) == c * q / (1.0 + q);
    c * q * v / (q * (u + e) + (1.0 - q) * u)
  }

  /** The spread does not depend on the policy rate, and it is positive
      exactly when the loan rate is below 7/3. */
  lemma SpreadSign(pd: real, policy1: real, policy2: real, interest: real, noise: real)
    requires policy1 != -1.0 && policy2 != -1.0
    ensures ProvideCdsSpread(pd, policy1, interest, noise) == ProvideCdsSpread(pd, policy2, interest, noise)
    ensures ProvideCdsSpread(pd, policy1, interest, noise) > 0.0 <==> interest < 7.0 / 3.0
  {
    var q := SpreadProbability(pd, noise);
    var c := 1.0 - CdsRecovery - interest * CdsRecovery;
    var k := q / (1.0 + q);
    assert k > 0.0;
    assert c * q / (1.0 + q) == c * k;
    assert c > 0.0 <==> interest < 7.0 / 3.0;
    if c > 0.0 {
      assert c * k > 0.0;
    } else {
      assert c * k <= 0.0;
    }
  }

  /** `check_cds`: the seller's liquid funds cover the premium. */
  predicate CheckCds(deposit: real, loanLiability: real, loanAsset: real, equity: real, cdsAsset: real, premium: real) {
    deposit + loanLiability + equity - loanAsset + cdsAsset >= premium
  }

  /** A seller that can afford a premium can afford any smaller one. */
  lemma CheckCdsMonotone(deposit: real, loanLiability: real, loanAsset: real, equity: real, cdsAsset: real,
                         premium: real, smaller: real)
    requires smaller <= premium
    requires CheckCds(deposit, loanLiability, loanAsset, equity, cdsAsset, premium)
    ensures CheckCds(deposit, loanLiability, loanAsset, equity, cdsAsset, smaller)
  {
  }
}

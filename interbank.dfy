/** Clearing of the interbank market (`abm_vec/clear_interbank_market.py`):
    the bank-to-bank liability matrix from interbank loans, CDS premia and CDS
    protection payouts on defaulted firms; the fictitious-default clearing
    vector over it; the deposit-run default test; and the in-place settlement
    of every bank's equity, current deposit and deposits. */
module Interbank {
  import opened Vectors
  import opened Clearing
  import opened CdsRecords

  predicate FirmsIn(firms: seq<int>, numFirms: nat) {
    forall k :: 0 <= k < |firms| ==> 0 <= firms[k] < numFirms
  }

  /** The protection payout of one defaulted firm's CDS book: (1 - recovery)
      times the notional, owed by each seller (row) to its paired buyer
      (column). */
  function Payout(n: nat, r: CdsRecord, recovery: real): (m: Matrix)
    requires ValidRecord(r, n)
    ensures IsMatrix(m, n, n)
  {
    seq(n, i requires 0 <= i < n => seq(n, j requires 0 <= j < n =>
      if Pairs(r, i, j) then (1.0 - recovery) * r.notional else 0.0))
  }

  /** Loan repayments and CDS premia: (1 + rate) * amount + spread amount. */
  function LoansAndPremia(n: nat, interest: Matrix, amount: Matrix, spreadAmount: Matrix): (m: Matrix)
    requires IsMatrix(interest, n, n) && IsMatrix(amount, n, n) && IsMatrix(spreadAmount, n, n)
    ensures IsMatrix(m, n, n)
  {
    seq(n, i requires 0 <= i < n => seq(n, j requires 0 <= j < n =>
      0.0 + (1.0 + interest[i][j]) * amount[i][j] + spreadAmount[i][j]))
  }

  /** The liability matrix after adding the payouts of `firms` in order. */
  function Liabilities(n: nat, base: Matrix, firms: seq<int>, recovery: Vector, book: map<int, CdsRecord>): (m: Matrix)
    requires IsMatrix(base, n, n) && ValidBook(book, n) && FirmsIn(firms, |recovery|)
    ensures IsMatrix(m, n, n)
  {
    if |firms| == 0 then base
    else
      var prev := Liabilities(n, base, firms[..|firms| - 1], recovery, book);
      var f := firms[|firms| - 1];
      if f in book then AddMatrix(prev, Payout(n, book[f], recovery[f]), n, n) else prev
  }

  /** What seller `i` owes buyer `j` in CDS protection over the firms of `firms`. */
  function ProtectionOwed(i: int, j: int, firms: seq<int>, recovery: Vector, book: map<int, CdsRecord>): real
    requires FirmsIn(firms, |recovery|)
    requires forall f :: f in book ==> |book[f].buyers| == |book[f].sellers|
  {
    if |firms| == 0 then 0.0
    else
      var f := firms[|firms| - 1];
      ProtectionOwed(i, j, firms[..|firms| - 1], recovery, book)
      + (if f in book && Pairs(book[f], i, j) then (1.0 - recovery[f]) * book[f].notional else 0.0)
  }

  /** `liabilities` as built in the source: zeros, plus loans, plus premia,
      plus each defaulting firm's payout matrix. */
  method BuildLiabilities(n: nat, interest: Matrix, amount: Matrix, spreadAmount: Matrix,
                          firms: seq<int>, recovery: Vector, book: map<int, CdsRecord>)
    returns (liabilities: Matrix)
    requires IsMatrix(interest, n, n) && IsMatrix(amount, n, n) && IsMatrix(spreadAmount, n, n)
    requires ValidBook(book, n) && FirmsIn(firms, |recovery|)
    ensures liabilities == Liabilities(n, LoansAndPremia(n, interest, amount, spreadAmount), firms, recovery, book)
  {
    var base := LoansAndPremia(n, interest, amount, spreadAmount);
    liabilities := base;
    for k := 0 to |firms|
      invariant liabilities == Liabilities(n, base, firms[..k], recovery, book)
    {
      assert firms[..k + 1][..k] == firms[..k];
      var f := firms[k];
      if f in book {
        liabilities := AddMatrix(liabilities, Payout(n, book[f], recovery[f]), n, n);
      }
    }
    assert firms[..|firms|] == firms;
  }

  /** Entry (i, j) of the liability matrix is what bank i owes bank j on
      interbank loans and premia, plus the CDS protection it sold to j on every
      defaulting firm. */
  lemma {:induction false} LiabilityEntry(n: nat, interest: Matrix, amount: Matrix, spreadAmount: Matrix,
                                          firms: seq<int>, recovery: Vector, book: map<int, CdsRecord>, i: nat, j: nat)
    requires IsMatrix(interest, n, n) && IsMatrix(amount, n, n) && IsMatrix(spreadAmount, n, n)
    requires ValidBook(book, n) && FirmsIn(firms, |recovery|) && i < n && j < n
    ensures Liabilities(n, LoansAndPremia(n, interest, amount, spreadAmount), firms, recovery, book)[i][j]
            == (1.0 + interest[i][j]) * amount[i][j] + spreadAmount[i][j] + ProtectionOwed(i, j, firms, recovery, book)
  {
    if |firms| > 0 {
      LiabilityEntry(n, interest, amount, spreadAmount, firms[..|firms| - 1], recovery, book, i, j);
    }
  }

  /** A protection payment runs only from a seller to the buyer it is paired
      with on some defaulting firm's book. */
  lemma {:induction false} ProtectionRunsSellerToBuyer(i: int, j: int, firms: seq<int>, recovery: Vector, book: map<int, CdsRecord>)
    requires FirmsIn(firms, |recovery|)
    requires forall f :: f in book ==> |book[f].buyers| == |book[f].sellers|
    requires ProtectionOwed(i, j, firms, recovery, book) != 0.0
    ensures exists k :: 0 <= k < |firms| && firms[k] in book && Pairs(book[firms[k]], i, j)
  {
    var f := firms[|firms| - 1];
    if f in book && Pairs(book[f], i, j) {
      assert firms[|firms| - 1] == f;
    } else {
      ProtectionRunsSellerToBuyer(i, j, firms[..|firms| - 1], recovery, book);
      var k :| 0 <= k < |firms| - 1 && firms[..|firms| - 1][k] in book && Pairs(book[firms[..|firms| - 1][k]], i, j);
      assert firms[k] == firms[..|firms| - 1][k];
    }
  }

  /** A firm with recovery rate 0.4 and one CDS of notional 1000 makes its
      seller owe its buyer 600 beyond any loan or premium. */
  lemma ProtectionPayoutExample(seller: int, buyer: int)
    ensures ProtectionOwed(seller, buyer, [0], [0.4], map[0 := CdsRecord(1000.0, [buyer], [seller])]) == 600.0
  {
    var r := CdsRecord(1000.0, [buyer], [seller]);
    assert Pairs(r, seller, buyer) by {
      assert r.sellers[0] == seller && r.buyers[0] == buyer;
    }
    assert [0][..0] == [];
  }

  // ---------------------------------------------------------------------------
  // Wealth, earnings and settlement

  /** equity + proceeds of firm loans + the negative part of the deposit change. */
  function InitialWealth(equity: Vector, fromLoans: Vector, depositChange: Vector): (x: Vector)
    requires |equity| == |fromLoans| == |depositChange|
    ensures |x| == |equity|
    ensures forall i :: 0 <= i < |x| ==> x[i] <= equity[i] + fromLoans[i]
    ensures forall i :: 0 <= i < |x| && depositChange[i] >= 0.0 ==> x[i] == equity[i] + fromLoans[i]
    ensures forall i :: 0 <= i < |x| && depositChange[i] < 0.0 ==> x[i] == equity[i] + fromLoans[i] + depositChange[i]
  {
    seq(|equity|, i requires 0 <= i < |equity| =>
      equity[i] + fromLoans[i] + Min(depositChange[i], 0.0))
  }

  /** Initial wealth plus what the bank receives minus what it pays: the
      wealth of the clearing rounds at payments `p`, less the bank's own
      payment. */
  function Earnings(x: Vector, pi: Matrix, p: Vector): (e: Vector)
    requires |x| == |p| && IsMatrix(pi, |p|, |p|)
    ensures |e| == |p|
    ensures forall i :: 0 <= i < |p| ==> e[i] == Wealth(x, pi, p)[i] - p[i]
  {
    seq(|p|, i requires 0 <= i < |p| => x[i] + Received(pi, p, i) - p[i])
  }

  /** deposits - current deposit - max(deposit change, 0): the deposit
      outflow a bank still has to cover. */
  function MoneyForDeposits(deposits: Vector, current: Vector, depositChange: Vector): (m: Vector)
    requires |deposits| == |current| == |depositChange|
    ensures |m| == |deposits|
    ensures forall i :: 0 <= i < |m| ==> m[i] <= deposits[i] - current[i]
    ensures forall i :: 0 <= i < |m| && depositChange[i] <= 0.0 ==> m[i] == deposits[i] - current[i]
    ensures forall i :: 0 <= i < |m| && depositChange[i] > 0.0 ==> m[i] == deposits[i] - current[i] - depositChange[i]
  {
    seq(|deposits|, i requires 0 <= i < |deposits| => deposits[i] - current[i] - Max(depositChange[i], 0.0))
  }

  /** A bank's balance after clearing. */
  datatype BankAfter = BankAfter(equity: real, currentDeposit: real, deposits: real)

  /** Settlement of one bank: a defaulting bank loses its equity and adds its
      earnings to its current deposit; any other bank covers the deposit
      outflow from its earnings. */
  function Settle(defaulted: bool, earnings: real, moneyForDeposits: real, current: real, depositChange: real): (after: BankAfter)
    ensures after.deposits == after.currentDeposit + Max(depositChange, 0.0)
    ensures defaulted ==> after.equity == 0.0 && after.currentDeposit == current + earnings
    ensures !defaulted ==> after.equity + after.currentDeposit == current + earnings
    ensures !defaulted ==> after.currentDeposit == current + moneyForDeposits
  {
    if defaulted then
      BankAfter(0.0, current + earnings, current + earnings + Max(depositChange, 0.0))
    else
      BankAfter(earnings - moneyForDeposits, current + moneyForDeposits, current + moneyForDeposits + Max(depositChange, 0.0))
  }

  /** At a fixed point of the clearing rounds with payments at most the
      obligations, no bank's earnings are negative, and a defaulting bank,
      having paid out its whole wealth, earns nothing. */
  lemma FixedPointEarnings(x: Vector, pi: Matrix, lbar: Vector, p: Vector, i: int)
    requires WellShaped(x, pi, lbar, p) && AtMost(p, lbar) && Round(x, pi, lbar, p) == p && 0 <= i < |p|
    ensures Earnings(x, pi, p)[i] >= 0.0
    ensures i in DefaultSet(x, pi, lbar, p) ==> Earnings(x, pi, p)[i] == 0.0
  {
    RoundReplacesExactlyDefaulters(x, pi, lbar, p, i);
  }

  /** A bank that survives both default tests keeps a non-negative equity and
      ends with exactly the deposits it had. */
  lemma SurvivorKeepsDeposits(earnings: real, deposits: real, current: real, depositChange: real)
    requires earnings >= deposits - current - Max(depositChange, 0.0)
    ensures var after := Settle(false, earnings, deposits - current - Max(depositChange, 0.0), current, depositChange);
            after.equity >= 0.0 && after.deposits == deposits
  {
  }

  /** The final default set: the fixed point's default set united with the
      banks whose earnings cannot cover the deposit outflow, without
      duplicates and in ascending order. */
  method DefaultUnion(n: nat, fixedPoint: set<int>, earnings: Vector, moneyForDeposits: Vector)
    returns (defaultSet: seq<int>)
    requires |earnings| == n && |moneyForDeposits| == n
    ensures Increasing(defaultSet)
    ensures forall i :: i in defaultSet <==> 0 <= i < n && (i in fixedPoint || earnings[i] < moneyForDeposits[i])
  {
    defaultSet := [];
    for i := 0 to n
      invariant Increasing(defaultSet)
      invariant forall k :: 0 <= k < |defaultSet| ==> defaultSet[k] < i
      invariant forall k :: k in defaultSet <==> 0 <= k < i && (k in fixedPoint || earnings[k] < moneyForDeposits[k])
    {
      if i in fixedPoint || earnings[i] < moneyForDeposits[i] {
        defaultSet := defaultSet + [i];
      }
    }
  }

  /** `clear_interbank_market`: builds the liability matrix, runs the clearing
      rounds (at most `fuel` after the first), and, once they settle, settles
      every bank in place. When the budget runs out before the rounds settle
      (the source would keep looping), `ok` is false and no array is touched. */
  method ClearInterbankMarket(n: nat, loanBanksInterest: Matrix, loanBanksAmount: Matrix,
                              recoveryRate: Vector, defaultingFirms: seq<int>, loanFirmValue: Matrix,
                              bankEquity: array<real>, depositChange: Vector, bankDeposits: array<real>,
                              bankCurrentDeposit: array<real>, cdsSpreadAmount: Matrix,
                              cdsDict: map<int, CdsRecord>, fuel: nat)
    returns (ok: bool, defaultSet: seq<int>, liabilities: Matrix)
    requires IsMatrix(loanBanksInterest, n, n) && IsMatrix(loanBanksAmount, n, n) && IsMatrix(cdsSpreadAmount, n, n)
    requires IsMatrix(loanFirmValue, |loanFirmValue|, n)
    requires ValidBook(cdsDict, n) && FirmsIn(defaultingFirms, |recoveryRate|)
    requires bankEquity.Length == n && bankDeposits.Length == n && bankCurrentDeposit.Length == n && |depositChange| == n
    requires bankEquity != bankDeposits && bankEquity != bankCurrentDeposit && bankDeposits != bankCurrentDeposit
    modifies bankEquity, bankDeposits, bankCurrentDeposit
    ensures liabilities == Liabilities(n, LoansAndPremia(n, loanBanksInterest, loanBanksAmount, cdsSpreadAmount),
                                       defaultingFirms, recoveryRate, cdsDict)
    ensures var lbar := RowSums(liabilities);
            var pi := Relative(liabilities, lbar);
            var x := InitialWealth(old(bankEquity[..]), ColSums(loanFirmValue, n), depositChange);
            var o := Iterate(x, pi, lbar, lbar, fuel);
            var earnings := Earnings(x, pi, o.payments);
            var mfd := MoneyForDeposits(old(bankDeposits[..]), old(bankCurrentDeposit[..]), depositChange);
            && ok == o.converged
            && (ok ==> forall i :: i in defaultSet <==>
                         0 <= i < n && (i in DefaultSet(x, pi, lbar, o.previous) || earnings[i] < mfd[i]))
            && (ok ==> forall i :: 0 <= i < n ==>
                         BankAfter(bankEquity[i], bankCurrentDeposit[i], bankDeposits[i])
                         == Settle(i in defaultSet, earnings[i], mfd[i], old(bankCurrentDeposit[i]), depositChange[i]))
    ensures Increasing(defaultSet)
    ensures ok ==> forall i :: 0 <= i < n && i !in defaultSet ==>
                     bankEquity[i] >= 0.0 && bankDeposits[i] == old(bankDeposits[i])
    ensures ok ==> forall i :: i in defaultSet ==> bankEquity[i] == 0.0
    ensures !ok ==> bankEquity[..] == old(bankEquity[..]) && bankDeposits[..] == old(bankDeposits[..])
                    && bankCurrentDeposit[..] == old(bankCurrentDeposit[..])
  {
    liabilities := BuildLiabilities(n, loanBanksInterest, loanBanksAmount, cdsSpreadAmount,
                                    defaultingFirms, recoveryRate, cdsDict);
    var lbar := RowSums(liabilities);
    var pi := Relative(liabilities, lbar);
    var moneyFromLoan := ColSums(loanFirmValue, n);
    var x := InitialWealth(bankEquity[..], moneyFromLoan, depositChange);
    var o := RunClearing(x, pi, lbar, fuel);
    ok := o.converged;
    if !ok {
      defaultSet := [];
      return;
    }
    var earnings := Earnings(x, pi, o.payments);
    var mfd := MoneyForDeposits(bankDeposits[..], bankCurrentDeposit[..], depositChange);
    defaultSet := DefaultUnion(n, DefaultSet(x, pi, lbar, o.previous), earnings, mfd);
    SettleAll(n, defaultSet, earnings, mfd, depositChange, bankEquity, bankDeposits, bankCurrentDeposit);
  }

  /** Lines 97-111 of the source: the masked in-place writes for defaulting and
      non-defaulting banks. */
  method SettleAll(n: nat, defaultSet: seq<int>, earnings: Vector, mfd: Vector, depositChange: Vector,
                   bankEquity: array<real>, bankDeposits: array<real>, bankCurrentDeposit: array<real>)
    requires |earnings| == n && |mfd| == n && |depositChange| == n
    requires bankEquity.Length == n && bankDeposits.Length == n && bankCurrentDeposit.Length == n
    requires bankEquity != bankDeposits && bankEquity != bankCurrentDeposit && bankDeposits != bankCurrentDeposit
    requires forall i :: 0 <= i < n && i !in defaultSet ==> earnings[i] >= mfd[i]
    requires forall i :: 0 <= i < n ==> mfd[i] == bankDeposits[i] - bankCurrentDeposit[i] - Max(depositChange[i], 0.0)
    modifies bankEquity, bankDeposits, bankCurrentDeposit
    ensures forall i :: 0 <= i < n ==>
              BankAfter(bankEquity[i], bankCurrentDeposit[i], bankDeposits[i])
              == Settle(i in defaultSet, earnings[i], mfd[i], old(bankCurrentDeposit[i]), depositChange[i])
    ensures forall i :: 0 <= i < n && i !in defaultSet ==>
              bankEquity[i] >= 0.0 && bankDeposits[i] == old(bankDeposits[i])
    ensures forall i :: 0 <= i < n && i in defaultSet ==> bankEquity[i] == 0.0
  {
    for i := 0 to n
      invariant forall k :: 0 <= k < i ==>
                  BankAfter(bankEquity[k], bankCurrentDeposit[k], bankDeposits[k])
                  == Settle(k in defaultSet, earnings[k], mfd[k], old(bankCurrentDeposit[k]), depositChange[k])
      invariant forall k :: 0 <= k < i && k !in defaultSet ==> bankDeposits[k] == old(bankDeposits[k])
      invariant forall k :: i <= k < n ==>
                  bankEquity[k] == old(bankEquity[k]) && bankDeposits[k] == old(bankDeposits[k])
                  && bankCurrentDeposit[k] == old(bankCurrentDeposit[k])
    {
      var after := Settle(i in defaultSet, earnings[i], mfd[i], bankCurrentDeposit[i], depositChange[i]);
      bankEquity[i] := after.equity;
      bankCurrentDeposit[i] := after.currentDeposit;
      bankDeposits[i] := after.deposits;
    }
  }

  lemma TwoBankSums(L: Matrix)
    requires L == [[0.0, 50.0], [0.0, 0.0]]
    ensures RowSums(L) == [50.0, 0.0]
    ensures Relative(L, RowSums(L)) == [[0.0, 1.0], [0.0, 0.0]]
  {
    assert Sum(L[0]) == 50.0 by {
      assert L[0][..1][..0] == [];
    }
    assert Sum(L[1]) == 0.0 by {
      assert L[1][..1][..0] == [];
    }
    var lbar := RowSums(L);
    assert lbar == [50.0, 0.0];
    MatrixExtensional(Relative(L, lbar), [[0.0, 1.0], [0.0, 0.0]], 2, 2);
  }

  lemma TwoBankWealth(x: Vector, pi: Matrix, p: Vector)
    requires pi == [[0.0, 1.0], [0.0, 0.0]] && |x| == 2 && |p| == 2
    ensures Wealth(x, pi, p) == [x[0], x[1] + p[0]]
  {
    assert ReceivedFrom(pi, p, 0, 1) == 0.0;
    assert ReceivedFrom(pi, p, 1, 1) == p[0];
  }

  /** Bank 0 owes bank 1 an interbank loan of 50 at 0% and has wealth 30:
      bank 0 defaults and pays 30, bank 1 stays solvent and earns 20 less
      than the nominal 50. */
  lemma SingleHopContagion(wealth1: real, fuel: nat)
    requires wealth1 >= 0.0 && fuel >= 1
    ensures var L := [[0.0, 50.0], [0.0, 0.0]];
            var lbar := RowSums(L);
            var pi := Relative(L, lbar);
            var x := [30.0, wealth1];
            var o := Iterate(x, pi, lbar, lbar, fuel);
            && o.converged && o.payments == [30.0, 0.0]
            && DefaultSet(x, pi, lbar, o.previous) == {0}
            && Earnings(x, pi, o.payments)[1] == wealth1 + 50.0 - 20.0
  {
    var L := [[0.0, 50.0], [0.0, 0.0]];
    TwoBankSums(L);
    var lbar := RowSums(L);
    var pi := Relative(L, lbar);
    var x := [30.0, wealth1];
    var q := [30.0, 0.0];
    TwoBankWealth(x, pi, lbar);
    assert Round(x, pi, lbar, lbar) == q;
    TwoBankWealth(x, pi, q);
    assert Round(x, pi, lbar, q) == q;
    SettledReflexive(q);
    assert DefaultSet(x, pi, lbar, q) == {0};
    assert Received(pi, q, 1) == 30.0;
  }
}

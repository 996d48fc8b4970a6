/** `create_network_connections` (`abm_vec/create_network_connections.py`):
    firm by firm, the firm's loan offers are tried in ascending order of
    rate; a bank without the liquidity borrows on the interbank market first;
    the first loan that can be extended is booked, and protection on it may
    be bought by the lender (covered) and by other banks (naked).

    The loan, interbank and CDS tables the function creates are the fields of
    a `Ledger` value; the two arrays the caller passes in and sees updated,
    the banks' current deposits and the firms' equity, are arrays here. The
    random draws are the functions of a `Draws` value. */
module Network {
  import opened Vectors
  import opened Sorting
  import opened BankPricing
  import opened CdsRecords
  import opened CdsOffers

  /** The entries of `calibration_variables` the function reads. */
  datatype Calibration = Calibration(maxInterbankLoan: nat, policyRate: real, coveredCdsProb: real,
                                     nakedCdsProb: real, maxCdsRequests: nat)

  /** The random draws, indexed by where the source makes them: the firm, the
      position of the loan offer being tried, and the request, buyer or bank. */
  datatype Draws = Draws(
    interbankSeller: (int, int, int) -> nat,
    interbankUniform: (int, int, int) -> real,
    covered: int -> bool,
    naked: (int, int) -> bool,
    cdsRank: (int, int, nat) -> nat,
    spreadNoise: (int, int, nat) -> real)

  /** The tables the function builds and returns, with the two running
      vectors it keeps to itself (`bank_loan_liability`, `cds_asset`). */
  datatype Ledger = Ledger(
    firmInterest: Matrix, firmAmount: Matrix,
    bankInterest: Matrix, bankAmount: Matrix,
    loanAsset: Vector, loanLiability: Vector,
    cdsAmount: seq<Matrix>, cdsSpread: seq<Matrix>,
    cdsAsset: Vector, cdsSpreadAmount: Matrix,
    cdsBook: map<int, CdsRecord>)

  /** The tables have the sizes the source allocates: firms by banks for
      the firm loans, banks by banks for the interbank loans and the CDS
      spread amounts, one banks-by-banks matrix per firm for the CDS
      amounts and spreads, one entry per bank for the running vectors.
      (Stated as one fact, `Dimensions`, so that a proof that needs it
      establishes it in one step.) */
  predicate Shaped(L: Ledger, nF: nat, nB: nat) {
    Dimensions(L, nF, nB) == true
  }

  predicate Dimensions(L: Ledger, nF: nat, nB: nat) {
    && IsMatrix(L.firmInterest, nF, nB) && IsMatrix(L.firmAmount, nF, nB)
    && IsMatrix(L.bankInterest, nB, nB) && IsMatrix(L.bankAmount, nB, nB)
    && |L.loanAsset| == nB && |L.loanLiability| == nB && |L.cdsAsset| == nB
    && |L.cdsAmount| == nF && |L.cdsSpread| == nF
    && (forall g :: 0 <= g < nF ==> IsMatrix(L.cdsAmount[g], nB, nB) && IsMatrix(L.cdsSpread[g], nB, nB))
    && IsMatrix(L.cdsSpreadAmount, nB, nB)
  }

  /** The inputs of `create_network_connections` that the firm loop reads and
      never changes: the numbers of firms and banks, each firm's loan offers
      `(bank, rate)` and credit demand, the calibration, the banks' deposits,
      maximum credit and equity, the firms' default probabilities, the
      hyperbolic tangent the interbank rates use, and the random draws. */
  datatype Market = Market(nF: nat, nB: nat, loans: seq<seq<(int, real)>>, demand: Vector,
                           cal: Calibration, deposits: Vector, maxCredit: Vector, pd: Vector,
                           bankEquity: Vector, tanh: real -> real, draws: Draws)

  /** What the function needs of its inputs: aligned vectors, offers naming
      existing banks, non-negative demand, non-zero deposits (the financial
      fragility divides by them) and a policy rate other than -1 (the CDS
      spread divides by one plus it). */
  predicate MarketOk(mk: Market) {
    Requirements(mk) == true
  }

  /** The parts of `MarketOk`, stated as one fact there. */
  predicate Requirements(mk: Market) {
    && |mk.loans| == mk.nF && |mk.demand| == mk.nF && |mk.pd| == mk.nF
    && |mk.deposits| == mk.nB && |mk.maxCredit| == mk.nB && |mk.bankEquity| == mk.nB
    && (forall f, k :: 0 <= f < mk.nF && 0 <= k < |mk.loans[f]| ==> 0 <= mk.loans[f][k].0 < mk.nB)
    && (forall f :: 0 <= f < mk.nF ==> mk.demand[f] >= 0.0)
    && (forall b :: 0 <= b < mk.nB ==> mk.deposits[b] != 0.0)
    && mk.cal.policyRate != -1.0
  }

  /** The all-zero tables and the empty CDS book the function starts from. */
  function EmptyLedger(nF: nat, nB: nat): (L: Ledger)
    ensures Shaped(L, nF, nB)
    ensures forall g, b :: 0 <= g < nF && 0 <= b < nB ==> L.firmAmount[g][b] == 0.0 && L.firmInterest[g][b] == 0.0
    ensures forall b, s :: 0 <= b < nB && 0 <= s < nB ==> L.bankAmount[b][s] == 0.0 && L.bankInterest[b][s] == 0.0
    ensures forall g, b, s :: 0 <= g < nF && 0 <= b < nB && 0 <= s < nB ==> L.cdsAmount[g][b][s] == 0.0
    ensures L.loanAsset == Zeros(nB) && L.loanLiability == Zeros(nB) && L.cdsBook == map[]
  {
    Ledger(ZeroMatrix(nF, nB), ZeroMatrix(nF, nB), ZeroMatrix(nB, nB), ZeroMatrix(nB, nB),
           Zeros(nB), Zeros(nB),
           seq(nF, g => ZeroMatrix(nB, nB)), seq(nF, g => ZeroMatrix(nB, nB)),
           Zeros(nB), ZeroMatrix(nB, nB), map[])
  }

  /** The firm loans: firm `g` borrowed its whole demand from `lenders[g]`,
      or nothing when that is -1, at the rate one of its offers from that
      bank named. */
  ghost predicate FirmRows(L: Ledger, nF: nat, nB: nat, lenders: seq<int>, demand: Vector,
                           loans: seq<seq<(int, real)>>)
    requires Shaped(L, nF, nB) && |demand| == nF && |loans| == nF
  {
    LoanRows(L, nF, nB, lenders, demand, loans) == true
  }

  /** The parts of `FirmRows`, stated as one fact there. */
  ghost predicate LoanRows(L: Ledger, nF: nat, nB: nat, lenders: seq<int>, demand: Vector,
                           loans: seq<seq<(int, real)>>)
    requires Shaped(L, nF, nB) && |demand| == nF && |loans| == nF
  {
    && |lenders| == nF
    && (forall g :: 0 <= g < nF ==> -1 <= lenders[g] < nB)
    && (forall g, b :: 0 <= g < nF && 0 <= b < nB ==> L.firmAmount[g][b] == if b == lenders[g] then demand[g] else 0.0)
    && (forall g, b :: 0 <= g < nF && 0 <= b < nB && b != lenders[g] ==> L.firmInterest[g][b] == 0.0)
    && (forall g :: 0 <= g < nF && lenders[g] >= 0 ==> (lenders[g], L.firmInterest[g][lenders[g]]) in loans[g])
  }

  /** The bank balance sheets. `firmLent[b]` is what bank `b` lent to firms;
      `interbank[b]` says whether it was ever accepted as an interbank
      lender. Firm loans stay within the maximum credit (or zero); loan
      assets are firm loans plus interbank loans, and an interbank lender is
      above its maximum credit, as the acceptance test is written; every
      interbank loan is one bank's asset and another's liability. */
  ghost predicate BankBooks(L: Ledger, nB: nat, firmLent: Vector, interbank: seq<bool>, maxCredit: Vector)
    requires |L.loanAsset| == nB && |L.loanLiability| == nB && IsMatrix(L.bankAmount, nB, nB)
    requires IsMatrix(L.bankInterest, nB, nB) && |maxCredit| == nB
  {
    BalanceSheets(L, nB, firmLent, interbank, maxCredit) == true
  }

  /** The parts of `BankBooks`, stated as one fact there. */
  ghost predicate BalanceSheets(L: Ledger, nB: nat, firmLent: Vector, interbank: seq<bool>, maxCredit: Vector)
    requires |L.loanAsset| == nB && |L.loanLiability| == nB && IsMatrix(L.bankAmount, nB, nB)
    requires IsMatrix(L.bankInterest, nB, nB) && |maxCredit| == nB
  {
    && |firmLent| == nB && |interbank| == nB
    && (forall b :: 0 <= b < nB ==> 0.0 <= firmLent[b] <= Max(0.0, maxCredit[b]))
    && (forall b :: 0 <= b < nB ==> firmLent[b] <= L.loanAsset[b])
    && (forall b :: 0 <= b < nB && interbank[b] ==> L.loanAsset[b] > maxCredit[b])
    && (forall b :: 0 <= b < nB && !interbank[b] ==> L.loanAsset[b] == firmLent[b])
    && Sum(L.loanAsset) == Sum(firmLent) + Sum(L.loanLiability)
    && (forall b, s :: 0 <= b < nB && 0 <= s < nB ==> L.bankAmount[b][s] >= 0.0)
    && (forall b :: 0 <= b < nB ==> L.bankAmount[b][b] == 0.0 && L.bankInterest[b][b] == 0.0)
    && (forall b, s :: 0 <= b < nB && 0 <= s < nB && L.bankAmount[b][s] != 0.0 ==> interbank[s])
  }

  /** The contracts written on firm `g`: each on the firm's whole loan,
      between a buyer and a seller that is not the lender and buys no
      protection on the firm, one per buyer, and entered in `cds_amount`. */
  ghost predicate Contracts(L: Ledger, nF: nat, nB: nat, g: int, lender: int, credit: real)
    requires Shaped(L, nF, nB) && 0 <= g < nF && g in L.cdsBook && ValidRecord(L.cdsBook[g], nB)
  {
    var r := L.cdsBook[g];
    && r.notional == credit
    && (forall k :: 0 <= k < |r.buyers| ==>
          r.buyers[k] != r.sellers[k] && r.sellers[k] != lender && L.cdsAmount[g][r.buyers[k]][r.sellers[k]] == credit)
    && (forall a, c :: 0 <= a < c < |r.buyers| ==> r.buyers[a] != r.buyers[c])
    && (forall k, a :: 0 <= k < |r.sellers| && 0 <= a < |r.buyers| ==> r.sellers[k] != r.buyers[a])
  }

  /** The CDS book: only funded firms have a record, and `cds_amount` is
      non-zero only for a contract the record lists. */
  ghost predicate CdsBooks(L: Ledger, nF: nat, nB: nat, lenders: seq<int>, demand: Vector)
    requires Shaped(L, nF, nB) && |lenders| == nF && |demand| == nF
  {
    CdsEntries(L, nF, nB, lenders, demand) == true
  }

  /** The parts of `CdsBooks`, stated as one fact there. */
  ghost predicate CdsEntries(L: Ledger, nF: nat, nB: nat, lenders: seq<int>, demand: Vector)
    requires Shaped(L, nF, nB) && |lenders| == nF && |demand| == nF
  {
    && ValidBook(L.cdsBook, nB)
    && (forall g :: g in L.cdsBook ==> 0 <= g < nF && lenders[g] >= 0 && Contracts(L, nF, nB, g, lenders[g], demand[g]))
    && (forall g, b, s :: 0 <= g < nF && 0 <= b < nB && 0 <= s < nB && L.cdsAmount[g][b][s] != 0.0 ==>
          g in L.cdsBook && Pairs(L.cdsBook[g], s, b))
  }

  function Rate(o: (int, real)): real {
    o.1
  }

  /** Entry `i` of `[x for x in range(n) if x != bank]`. */
  function OtherBank(bank: int, n: nat, i: int): (x: int)
    requires 0 <= bank < n && 0 <= i < n - 1
    ensures 0 <= x < n && x != bank
  {
    if i < bank then i else i + 1
  }

  /** `random.choices` over the other banks, `m` times with replacement. */
  function InterbankSellers(bank: int, nB: nat, m: nat, draw: nat -> nat): (r: seq<int>)
    requires 0 <= bank < nB && (m == 0 || nB >= 2)
    ensures |r| == m
    ensures forall j :: 0 <= j < m ==> 0 <= r[j] < nB && r[j] != bank
  {
    var r := seq(m, j requires 0 <= j < m => OtherBank(bank, nB, draw(j) % (nB - 1)));
    forall j | 0 <= j < m ensures 0 <= r[j] < nB && r[j] != bank {
      var x := OtherBank(bank, nB, draw(j) % (nB - 1));
      assert r[j] == x;
    }
    r
  }

  /** The interbank offers `(seller, rate)` in ascending order of rate;
      sellers drawn among the banks other than `bank` stay so. */
  function InterbankOffers(sellers: seq<int>, rates: Vector, nB: nat, bank: int): (r: seq<(int, real)>)
    requires |sellers| == |rates|
    requires forall j :: 0 <= j < |sellers| ==> 0 <= sellers[j] < nB && sellers[j] != bank
    ensures SortedBy(r, Rate)
    ensures forall k :: 0 <= k < |r| ==> 0 <= r[k].0 < nB && r[k].0 != bank
  {
    var pairs := seq(|sellers|, j requires 0 <= j < |sellers| => (sellers[j], rates[j]));
    var r := SortByKey(pairs, Rate);
    assert forall k :: 0 <= k < |r| ==> 0 <= r[k].0 < nB && r[k].0 != bank by {
      forall k | 0 <= k < |r| ensures 0 <= r[k].0 < nB && r[k].0 != bank {
        SortByKeyFrom(pairs, Rate, k);
        var j :| 0 <= j < |pairs| && pairs[j] == r[k];
      }
    }
    r
  }

  /** The interbank offers are the drawn sellers paired with their rates,
      each exactly as often as drawn. */
  lemma InterbankOffersPermute(sellers: seq<int>, rates: Vector, nB: nat, bank: int)
    requires |sellers| == |rates|
    requires forall j :: 0 <= j < |sellers| ==> 0 <= sellers[j] < nB && sellers[j] != bank
    ensures multiset(InterbankOffers(sellers, rates, nB, bank))
            == multiset(seq(|sellers|, j requires 0 <= j < |sellers| => (sellers[j], rates[j])))
  {
    var pairs := seq(|sellers|, j requires 0 <= j < |sellers| => (sellers[j], rates[j]));
    SortByKeyPermutes(pairs, Rate);
  }

  /** Only the interbank tables and the loan assets and liabilities change. */
  predicate InterbankOnly(L: Ledger, L0: Ledger) {
    L == L0.(bankInterest := L.bankInterest, bankAmount := L.bankAmount,
             loanAsset := L.loanAsset, loanLiability := L.loanLiability)
  }

  /** `seller` lends `amount` to `bank` at `rate`. */
  function Lend(L: Ledger, nF: nat, nB: nat, bank: int, seller: int, rate: real, amount: real): (L1: Ledger)
    requires Shaped(L, nF, nB) && 0 <= bank < nB && 0 <= seller < nB
    ensures Shaped(L1, nF, nB) && InterbankOnly(L1, L)
  {
    L.(bankInterest := L.bankInterest[bank := L.bankInterest[bank][seller := rate]],
       bankAmount := L.bankAmount[bank := L.bankAmount[bank][seller := amount]],
       loanAsset := L.loanAsset[seller := L.loanAsset[seller] + amount],
       loanLiability := L.loanLiability[bank := L.loanLiability[bank] + amount])
  }

  /** An accepted interbank loan keeps the balance sheets consistent, the
      seller becoming an interbank lender. */
  lemma LendKeepsBooks(L: Ledger, nF: nat, nB: nat, bank: int, seller: int, rate: real, amount: real,
                       firmLent: Vector, interbank: seq<bool>, maxCredit: Vector)
    requires Shaped(L, nF, nB) && |maxCredit| == nB && BankBooks(L, nB, firmLent, interbank, maxCredit)
    requires 0 <= bank < nB && 0 <= seller < nB && bank != seller && amount >= 0.0
    requires amount + L.loanAsset[seller] > maxCredit[seller]
    ensures BankBooks(Lend(L, nF, nB, bank, seller, rate, amount), nB, firmLent, interbank[seller := true], maxCredit)
  {
    LendSums(L, nF, nB, bank, seller, rate, amount);
  }

  /** A loan adds its amount to the total of loan assets and of loan
      liabilities. */
  lemma LendSums(L: Ledger, nF: nat, nB: nat, bank: int, seller: int, rate: real, amount: real)
    requires Shaped(L, nF, nB) && 0 <= bank < nB && 0 <= seller < nB
    ensures Sum(Lend(L, nF, nB, bank, seller, rate, amount).loanAsset) == Sum(L.loanAsset) + amount
    ensures Sum(Lend(L, nF, nB, bank, seller, rate, amount).loanLiability) == Sum(L.loanLiability) + amount
  {
    SumUpdate(L.loanAsset, seller, L.loanAsset[seller] + amount);
    SumUpdate(L.loanLiability, bank, L.loanLiability[bank] + amount);
  }

  /** The acceptance test of lines 112-120: seller `s` has the liquidity for
      `amount` and, as the test is written, lending it would take its loans
      ABOVE its maximum credit. */
  predicate Accepts(L: Ledger, nB: nat, deposits: Vector, maxCredit: Vector, s: int, amount: real)
    requires |L.loanAsset| == nB && |L.loanLiability| == nB && |deposits| == nB && |maxCredit| == nB
    requires 0 <= s < nB
  {
    && deposits[s] + L.loanLiability[s] - (amount + L.loanAsset[s]) > 0.0
    && amount + L.loanAsset[s] > maxCredit[s]
  }

  /** Some interbank offer from the `j`-th on passes the acceptance test
      against the books `L`: the `j`-th does, or a later one. */
  predicate SomeAccepts(L: Ledger, nB: nat, deposits: Vector, maxCredit: Vector, offers: seq<(int, real)>, j: nat,
                        amount: real)
    requires |L.loanAsset| == nB && |L.loanLiability| == nB && |deposits| == nB && |maxCredit| == nB
    requires forall k :: 0 <= k < |offers| ==> 0 <= offers[k].0 < nB
    decreases |offers| - j
  {
    && j < |offers|
    && (Accepts(L, nB, deposits, maxCredit, offers[j].0, amount) || SomeAccepts(L, nB, deposits, maxCredit, offers, j + 1, amount))
  }

  /** `SomeAccepts` holds exactly when some offer from the `j`-th on
      passes the test. */
  lemma {:induction false} SomeAcceptsWitness(L: Ledger, nB: nat, deposits: Vector, maxCredit: Vector,
                                              offers: seq<(int, real)>, j: nat, amount: real)
    requires |L.loanAsset| == nB && |L.loanLiability| == nB && |deposits| == nB && |maxCredit| == nB
    requires forall k :: 0 <= k < |offers| ==> 0 <= offers[k].0 < nB
    ensures SomeAccepts(L, nB, deposits, maxCredit, offers, j, amount)
            <==> exists k :: j <= k < |offers| && Accepts(L, nB, deposits, maxCredit, offers[k].0, amount)
    decreases |offers| - j
  {
    if j < |offers| {
      SomeAcceptsWitness(L, nB, deposits, maxCredit, offers, j + 1, amount);
    }
  }

  /** The books, the current deposits and `loan_extended` after an interbank
      loop. */
  datatype Borrowing = Borrowing(ledger: Ledger, current: Vector, extended: bool)

  /** The interbank loop (lines 110-127) from the `j`-th interbank offer on:
      every seller passing the test against the books as they then stand
      lends `amount` to `bank` at its rate and is charged the firm's whole
      `credit` on its current deposit. */
  function Borrowed(L: Ledger, current: Vector, nF: nat, nB: nat, bank: int, credit: real, amount: real,
                    offers: seq<(int, real)>, j: nat, deposits: Vector, maxCredit: Vector): (r: Borrowing)
    requires Shaped(L, nF, nB) && |current| == nB && |deposits| == nB && |maxCredit| == nB && 0 <= bank < nB
    requires forall k :: 0 <= k < |offers| ==> 0 <= offers[k].0 < nB
    requires j <= |offers|
    ensures Shaped(r.ledger, nF, nB) && |r.current| == nB
    decreases |offers| - j
  {
    if j == |offers| then Borrowing(L, current, false)
    else
      var s := offers[j].0;
      if Accepts(L, nB, deposits, maxCredit, s, amount) then
        var r := Borrowed(Lend(L, nF, nB, bank, s, offers[j].1, amount), Charge(current, s, credit),
                          nF, nB, bank, credit, amount, offers, j + 1, deposits, maxCredit);
        r.(extended := true)
      else
        Borrowed(L, current, nF, nB, bank, credit, amount, offers, j + 1, deposits, maxCredit)
  }

  /** Some interbank loan is made exactly when some offer passes the test
      against the books as they stood before the loop (until the first
      acceptance nothing changes); when none is made, nothing changes. */
  lemma {:induction false} BorrowedExtended(L: Ledger, current: Vector, nF: nat, nB: nat, bank: int, credit: real,
                                            amount: real, offers: seq<(int, real)>, j: nat,
                                            deposits: Vector, maxCredit: Vector)
    requires Shaped(L, nF, nB) && |current| == nB && |deposits| == nB && |maxCredit| == nB && 0 <= bank < nB
    requires forall k :: 0 <= k < |offers| ==> 0 <= offers[k].0 < nB
    requires j <= |offers|
    ensures var r := Borrowed(L, current, nF, nB, bank, credit, amount, offers, j, deposits, maxCredit);
            && (r.extended <==> SomeAccepts(L, nB, deposits, maxCredit, offers, j, amount))
            && (!r.extended ==> r.ledger == L && r.current == current)
    decreases |offers| - j
  {
    if j < |offers| && !Accepts(L, nB, deposits, maxCredit, offers[j].0, amount) {
      BorrowedExtended(L, current, nF, nB, bank, credit, amount, offers, j + 1, deposits, maxCredit);
    }
  }

  /** A later part of the loop's outcome, with `loan_extended` already set
      when `before` is. */
  function Join(r: Borrowing, before: bool): Borrowing {
    r.(extended := r.extended || before)
  }

  /** `current` with `amount` taken from bank `b`'s entry. */
  function Charge(current: Vector, b: int, amount: real): (r: Vector)
    requires 0 <= b < |current|
    ensures |r| == |current| && r[b] == current[b] - amount
    ensures forall c :: 0 <= c < |current| && c != b ==> r[c] == current[c]
  {
    current[b := current[b] - amount]
  }

  /** The interbank lenders after the loop from the `j`-th offer on:
      `interbank` with every seller that lends marked. */
  ghost function Marked(L: Ledger, current: Vector, nF: nat, nB: nat, bank: int, credit: real, amount: real,
                        offers: seq<(int, real)>, j: nat, deposits: Vector, maxCredit: Vector,
                        interbank: seq<bool>): (r: seq<bool>)
    requires Shaped(L, nF, nB) && |current| == nB && |deposits| == nB && |maxCredit| == nB && 0 <= bank < nB
    requires forall k :: 0 <= k < |offers| ==> 0 <= offers[k].0 < nB
    requires j <= |offers| && |interbank| == nB
    ensures |r| == nB
    decreases |offers| - j
  {
    if j == |offers| then interbank
    else
      var s := offers[j].0;
      if Accepts(L, nB, deposits, maxCredit, s, amount) then
        Marked(Lend(L, nF, nB, bank, s, offers[j].1, amount), Charge(current, s, credit),
               nF, nB, bank, credit, amount, offers, j + 1, deposits, maxCredit, interbank[s := true])
      else
        Marked(L, current, nF, nB, bank, credit, amount, offers, j + 1, deposits, maxCredit, interbank)
  }

  /** The interbank loop keeps the balance sheets consistent and changes
      only the interbank tables; the borrowing bank's own loan assets and
      mark stay as they were, marks are only added, a bank that was not
      marked keeps its current deposit, and nothing changes when no loan is
      made. */
  lemma {:induction false} BorrowedKeepsBooks(L: Ledger, current: Vector, nF: nat, nB: nat, bank: int, credit: real,
                                              amount: real, offers: seq<(int, real)>, j: nat,
                                              deposits: Vector, maxCredit: Vector,
                                              firmLent: Vector, interbank: seq<bool>)
    requires Shaped(L, nF, nB) && |current| == nB && |deposits| == nB && |maxCredit| == nB && 0 <= bank < nB
    requires forall k :: 0 <= k < |offers| ==> 0 <= offers[k].0 < nB && offers[k].0 != bank
    requires j <= |offers| && amount >= 0.0
    requires BankBooks(L, nB, firmLent, interbank, maxCredit)
    ensures var r := Borrowed(L, current, nF, nB, bank, credit, amount, offers, j, deposits, maxCredit);
            var marked := Marked(L, current, nF, nB, bank, credit, amount, offers, j, deposits, maxCredit, interbank);
            && Shaped(r.ledger, nF, nB) && BankBooks(r.ledger, nB, firmLent, marked, maxCredit)
            && InterbankOnly(r.ledger, L)
            && r.ledger.loanAsset[bank] == L.loanAsset[bank] && marked[bank] == interbank[bank]
            && (forall b :: 0 <= b < nB && interbank[b] ==> marked[b])
            && (forall b :: 0 <= b < nB && !marked[b] ==> r.current[b] == current[b])
            && (!r.extended ==> marked == interbank)
    decreases |offers| - j
  {
    if j < |offers| {
      var s := offers[j].0;
      if Accepts(L, nB, deposits, maxCredit, s, amount) {
        LendKeepsBooks(L, nF, nB, bank, s, offers[j].1, amount, firmLent, interbank, maxCredit);
        BorrowedKeepsBooks(Lend(L, nF, nB, bank, s, offers[j].1, amount), Charge(current, s, credit), nF, nB, bank,
                           credit, amount, offers, j + 1, deposits, maxCredit, firmLent, interbank[s := true]);
      } else {
        BorrowedKeepsBooks(L, current, nF, nB, bank, credit, amount, offers, j + 1, deposits, maxCredit,
                           firmLent, interbank);
      }
    }
  }

  /** The interbank loop (lines 110-127), run by `Borrowed`. */
  method BorrowInterbank(L0: Ledger, nF: nat, nB: nat, bank: int, credit: real, creditInterbank: real,
                         offers: seq<(int, real)>, deposits: Vector, maxCredit: Vector, currentDeposit: array<real>)
    returns (L: Ledger, extended: bool)
    requires Shaped(L0, nF, nB) && |deposits| == nB && |maxCredit| == nB && currentDeposit.Length == nB
    requires 0 <= bank < nB
    requires forall k :: 0 <= k < |offers| ==> 0 <= offers[k].0 < nB
    modifies currentDeposit
    ensures Borrowing(L, currentDeposit[..], extended) ==
            Borrowed(L0, old(currentDeposit[..]), nF, nB, bank, credit, creditInterbank, offers, 0, deposits, maxCredit)
  {
    L := L0;
    extended := false;
    var j := 0;
    while j < |offers|
      invariant 0 <= j <= |offers| && Shaped(L, nF, nB)
      invariant Borrowed(L0, old(currentDeposit[..]), nF, nB, bank, credit, creditInterbank, offers, 0, deposits, maxCredit)
                == Join(Borrowed(L, currentDeposit[..], nF, nB, bank, credit, creditInterbank, offers, j, deposits, maxCredit), extended)
    {
      ghost var L1, current1 := L, currentDeposit[..];
      var seller := offers[j].0;
      if deposits[seller] + L.loanLiability[seller] - (creditInterbank + L.loanAsset[seller]) > 0.0
         && creditInterbank + L.loanAsset[seller] > maxCredit[seller]
      {
        L := Lend(L, nF, nB, bank, seller, offers[j].1, creditInterbank);
        currentDeposit[seller] := currentDeposit[seller] - credit;
        assert currentDeposit[..] == Charge(current1, seller, credit);
        assert Borrowed(L1, current1, nF, nB, bank, credit, creditInterbank, offers, j, deposits, maxCredit)
               == Join(Borrowed(L, currentDeposit[..], nF, nB, bank, credit, creditInterbank, offers, j + 1,
                                deposits, maxCredit), true);
        extended := true;
      }
      j := j + 1;
    }
  }

  /** Booking a loan of `c` from bank `b` in the empty row of firm `f` adds
      `c` to bank `b`'s column sum and nothing elsewhere. */
  lemma BookColSums(m: Matrix, nF: nat, nB: nat, f: int, b: int, c: real)
    requires IsMatrix(m, nF, nB) && 0 <= f < nF && 0 <= b < nB && m[f][b] == 0.0
    ensures IsMatrix(m[f := m[f][b := c]], nF, nB)
    ensures ColSums(m[f := m[f][b := c]], nB) == ColSums(m, nB)[b := ColSums(m, nB)[b] + c]
  {
    var m1 := m[f := m[f][b := c]];
    var before := ColSums(m, nB);
    var after := ColSums(m1, nB);
    forall j | 0 <= j < nB ensures after[j] == before[b := before[b] + c][j] {
      assert Column(m1, j) == Column(m, j)[f := m1[f][j]];
      SumUpdate(Column(m, j), f, m1[f][j]);
    }
  }

  /** The row sum of firm `g`'s loans is its demand if it borrowed and zero
      otherwise. */
  lemma RowSumsOfLoans(L: Ledger, nF: nat, nB: nat, lenders: seq<int>, demand: Vector,
                       loans: seq<seq<(int, real)>>, g: int)
    requires Shaped(L, nF, nB) && |demand| == nF && |loans| == nF
    requires FirmRows(L, nF, nB, lenders, demand, loans) && 0 <= g < nF
    ensures RowSums(L.firmAmount)[g] == if lenders[g] >= 0 then demand[g] else 0.0
  {
    if lenders[g] >= 0 {
      SumSingle(L.firmAmount[g], lenders[g]);
    } else {
      SumZeros(L.firmAmount[g]);
    }
  }

  /** Only the CDS tables and the CDS book change. */
  predicate CdsOnly(L: Ledger, L0: Ledger) {
    L == L0.(cdsAmount := L.cdsAmount, cdsSpread := L.cdsSpread, cdsAsset := L.cdsAsset,
             cdsSpreadAmount := L.cdsSpreadAmount, cdsBook := L.cdsBook)
  }

  /** One transaction of lines 219-227: the buyer pays `credit * spread`
      and the contract is entered for firm `f`. */
  function Enter(L: Ledger, nF: nat, nB: nat, f: int, d: Deal, credit: real): (L1: Ledger)
    requires Shaped(L, nF, nB) && 0 <= f < nF && 0 <= d.buyer < nB && 0 <= d.seller < nB
    ensures Shaped(L1, nF, nB) && CdsOnly(L1, L) && L1.cdsBook == L.cdsBook
    ensures forall g :: 0 <= g < nF && g != f ==> L1.cdsAmount[g] == L.cdsAmount[g]
    ensures L1.cdsAmount[f][d.buyer][d.seller] == credit
    ensures L1.cdsAsset == L.cdsAsset[d.buyer := L.cdsAsset[d.buyer] + credit * d.spread]
    ensures L1.cdsSpreadAmount[d.buyer][d.seller] == L.cdsSpreadAmount[d.buyer][d.seller] + credit * d.spread
    ensures forall b, s :: 0 <= b < nB && 0 <= s < nB && (b != d.buyer || s != d.seller) ==>
              && L1.cdsAmount[f][b][s] == L.cdsAmount[f][b][s]
              && L1.cdsSpread[f][b][s] == L.cdsSpread[f][b][s]
              && L1.cdsSpreadAmount[b][s] == L.cdsSpreadAmount[b][s]
    ensures L1.cdsSpread[f][d.buyer][d.seller] == d.spread
    ensures forall g :: 0 <= g < nF && g != f ==> L1.cdsSpread[g] == L.cdsSpread[g]
  {
    var total := credit * d.spread;
    L.(cdsAsset := L.cdsAsset[d.buyer := L.cdsAsset[d.buyer] + total],
       cdsAmount := L.cdsAmount[f := L.cdsAmount[f][d.buyer := L.cdsAmount[f][d.buyer][d.seller := credit]]],
       cdsSpread := L.cdsSpread[f := L.cdsSpread[f][d.buyer := L.cdsSpread[f][d.buyer][d.seller := d.spread]]],
       cdsSpreadAmount := L.cdsSpreadAmount[d.buyer := L.cdsSpreadAmount[d.buyer][d.seller :=
                            L.cdsSpreadAmount[d.buyer][d.seller] + total]])
  }

  /** The record of firm `f`'s deals: the firm's loan and the buyers and
      sellers in transaction order. */
  function Record(deals: seq<Deal>, credit: real): (r: CdsRecord)
    ensures r.notional == credit && |r.buyers| == |deals| && |r.sellers| == |deals|
    ensures forall k :: 0 <= k < |deals| ==> r.buyers[k] == deals[k].buyer && r.sellers[k] == deals[k].seller
  {
    CdsRecord(credit, seq(|deals|, a requires 0 <= a < |deals| => deals[a].buyer),
              seq(|deals|, a requires 0 <= a < |deals| => deals[a].seller))
  }

  /** After all transactions of firm `f` are entered, adding its record keeps
      the CDS book consistent. */
  lemma RecordKeepsBooks(L0: Ledger, L: Ledger, nF: nat, nB: nat, f: int, lender: int, credit: real,
                         deals: seq<Deal>, lenders: seq<int>, demand: Vector)
    requires Shaped(L0, nF, nB) && Shaped(L, nF, nB) && |lenders| == nF && |demand| == nF
    requires CdsBooks(L0, nF, nB, lenders, demand) && CdsOnly(L, L0) && L.cdsBook == L0.cdsBook
    requires 0 <= f < nF && f !in L0.cdsBook && lenders[f] == lender && demand[f] == credit
    requires forall g :: 0 <= g < nF && g != f ==> L.cdsAmount[g] == L0.cdsAmount[g]
    requires forall k :: 0 <= k < |deals| ==>
               0 <= deals[k].buyer < nB && 0 <= deals[k].seller < nB
               && deals[k].buyer != deals[k].seller && deals[k].seller != lender
               && L.cdsAmount[f][deals[k].buyer][deals[k].seller] == credit
    requires forall a, c :: 0 <= a < c < |deals| ==> deals[a].buyer != deals[c].buyer
    requires forall k, a :: 0 <= k < |deals| && 0 <= a < |deals| ==> deals[k].seller != deals[a].buyer
    requires forall b, s :: 0 <= b < nB && 0 <= s < nB && L.cdsAmount[f][b][s] != 0.0 ==>
               exists a :: 0 <= a < |deals| && deals[a].buyer == b && deals[a].seller == s
    requires lender >= 0
    ensures CdsBooks(L.(cdsBook := L.cdsBook[f := Record(deals, credit)]), nF, nB, lenders, demand)
  {
    var L1 := L.(cdsBook := L.cdsBook[f := Record(deals, credit)]);
    var r := Record(deals, credit);
    assert ValidRecord(r, nB);
    forall g | g in L1.cdsBook ensures 0 <= g < nF && lenders[g] >= 0 && Contracts(L1, nF, nB, g, lenders[g], demand[g]) {
      if g != f {
        assert L1.cdsBook[g] == L0.cdsBook[g];
        assert Contracts(L0, nF, nB, g, lenders[g], demand[g]);
      }
    }
    forall g, b, s | 0 <= g < nF && 0 <= b < nB && 0 <= s < nB && L1.cdsAmount[g][b][s] != 0.0
      ensures g in L1.cdsBook && Pairs(L1.cdsBook[g], s, b)
    {
      if g == f {
        var a :| 0 <= a < |deals| && deals[a].buyer == b && deals[a].seller == s;
        assert r.sellers[a] == s && r.buyers[a] == b;
      } else {
        assert L0.cdsAmount[g][b][s] != 0.0;
      }
    }
  }

  /** The transaction loop (lines 218-227) from the `k`-th deal of firm `f`
      on. */
  function EnterAll(L: Ledger, nF: nat, nB: nat, f: int, deals: seq<Deal>, k: nat, credit: real): (L1: Ledger)
    requires Shaped(L, nF, nB) && 0 <= f < nF && k <= |deals|
    requires forall a :: 0 <= a < |deals| ==> 0 <= deals[a].buyer < nB && 0 <= deals[a].seller < nB
    ensures Shaped(L1, nF, nB) && CdsOnly(L1, L) && L1.cdsBook == L.cdsBook
    decreases |deals| - k
  {
    if k == |deals| then L
    else EnterAll(Enter(L, nF, nB, f, deals[k], credit), nF, nB, f, deals, k + 1, credit)
  }

  /** Some deal from the `from`-th on has buyer `b`. */
  predicate HasBuyer(deals: seq<Deal>, from: nat, b: int)
    decreases |deals| - from
  {
    from < |deals| && (deals[from].buyer == b || HasBuyer(deals, from + 1, b))
  }

  /** Some deal from the `from`-th on is between buyer `b` and seller `s`. */
  predicate HasPair(deals: seq<Deal>, from: nat, b: int, s: int)
    decreases |deals| - from
  {
    from < |deals| && ((deals[from].buyer == b && deals[from].seller == s) || HasPair(deals, from + 1, b, s))
  }

  /** A bank that is no buyer from the `from`-th deal on is in no pair. */
  lemma {:induction false} NotBuyer(deals: seq<Deal>, from: nat, b: int)
    requires forall a :: from <= a < |deals| ==> deals[a].buyer != b
    ensures !HasBuyer(deals, from, b) && forall s :: !HasPair(deals, from, b, s)
    decreases |deals| - from
  {
    if from < |deals| {
      NotBuyer(deals, from + 1, b);
    }
  }

  /** A pair listed from the `from`-th deal on is some deal's pair. */
  lemma {:induction false} PairWitness(deals: seq<Deal>, from: nat, b: int, s: int)
    requires HasPair(deals, from, b, s)
    ensures exists a :: from <= a < |deals| && deals[a].buyer == b && deals[a].seller == s
    decreases |deals| - from
  {
    if !(deals[from].buyer == b && deals[from].seller == s) {
      PairWitness(deals, from + 1, b, s);
    }
  }

  /** From `L0` to `L`, the deals of firm `f` from the `from`-th on were
      entered: each deal's premium `credit * spread` is added to its buyer's
      CDS asset and to what the buyer owes its seller, its spread and the
      notional `credit` are recorded; no other entry changes. */
  predicate Premia(L0: Ledger, L: Ledger, nF: nat, nB: nat, f: int, deals: seq<Deal>, from: nat, credit: real)
    requires Shaped(L0, nF, nB) && Shaped(L, nF, nB) && 0 <= f < nF
  {
    && (forall a :: from <= a < |deals| ==> 0 <= deals[a].buyer < nB && 0 <= deals[a].seller < nB)
    && DealsEntered(L0, L, nF, nB, f, deals, from, credit)
    && OthersUntouched(L0, L, nF, nB, f, deals, from)
  }

  /** Each deal's premium, spread and notional are entered. */
  predicate DealsEntered(L0: Ledger, L: Ledger, nF: nat, nB: nat, f: int, deals: seq<Deal>, from: nat, credit: real)
    requires Shaped(L0, nF, nB) && Shaped(L, nF, nB) && 0 <= f < nF
    requires forall a :: from <= a < |deals| ==> 0 <= deals[a].buyer < nB && 0 <= deals[a].seller < nB
  {
    forall a :: from <= a < |deals| ==>
      && L.cdsAsset[deals[a].buyer] == L0.cdsAsset[deals[a].buyer] + credit * deals[a].spread
      && L.cdsSpreadAmount[deals[a].buyer][deals[a].seller]
         == L0.cdsSpreadAmount[deals[a].buyer][deals[a].seller] + credit * deals[a].spread
      && L.cdsSpread[f][deals[a].buyer][deals[a].seller] == deals[a].spread
      && L.cdsAmount[f][deals[a].buyer][deals[a].seller] == credit
  }

  /** No entry outside the deals changes. */
  predicate OthersUntouched(L0: Ledger, L: Ledger, nF: nat, nB: nat, f: int, deals: seq<Deal>, from: nat)
    requires Shaped(L0, nF, nB) && Shaped(L, nF, nB) && 0 <= f < nF
  {
    && (forall b :: 0 <= b < nB && !HasBuyer(deals, from, b) ==> L.cdsAsset[b] == L0.cdsAsset[b])
    && (forall b, s :: 0 <= b < nB && 0 <= s < nB && !HasPair(deals, from, b, s) ==>
          && L.cdsSpreadAmount[b][s] == L0.cdsSpreadAmount[b][s]
          && L.cdsSpread[f][b][s] == L0.cdsSpread[f][b][s]
          && L.cdsAmount[f][b][s] == L0.cdsAmount[f][b][s])
    && (forall g :: 0 <= g < nF && g != f ==> L.cdsAmount[g] == L0.cdsAmount[g] && L.cdsSpread[g] == L0.cdsSpread[g])
  }

  /** Entering deals with distinct buyers does what `Premia` says. */
  lemma {:induction false} EnterAllEffects(L: Ledger, nF: nat, nB: nat, f: int, deals: seq<Deal>, k: nat, credit: real)
    requires Shaped(L, nF, nB) && 0 <= f < nF && k <= |deals|
    requires forall a :: 0 <= a < |deals| ==> 0 <= deals[a].buyer < nB && 0 <= deals[a].seller < nB
    requires forall a, c :: 0 <= a < c < |deals| ==> deals[a].buyer != deals[c].buyer
    ensures Premia(L, EnterAll(L, nF, nB, f, deals, k, credit), nF, nB, f, deals, k, credit)
    decreases |deals| - k
  {
    if k < |deals| {
      var L1 := Enter(L, nF, nB, f, deals[k], credit);
      EnterAllEffects(L1, nF, nB, f, deals, k + 1, credit);
      var R := EnterAll(L1, nF, nB, f, deals, k + 1, credit);
      assert R == EnterAll(L, nF, nB, f, deals, k, credit);
      EnteredFirst(L, R, nF, nB, f, deals, k, credit);
      UntouchedFirst(L, R, nF, nB, f, deals, k, credit);
    }
  }

  /** The step of `EnterAllEffects` for the deals: the `k`-th deal's buyer
      buys in no later deal, so its entries are final. */
  lemma EnteredFirst(L: Ledger, R: Ledger, nF: nat, nB: nat, f: int, deals: seq<Deal>, k: nat, credit: real)
    requires Shaped(L, nF, nB) && Shaped(R, nF, nB) && 0 <= f < nF && k < |deals|
    requires forall a :: 0 <= a < |deals| ==> 0 <= deals[a].buyer < nB && 0 <= deals[a].seller < nB
    requires forall a, c :: 0 <= a < c < |deals| ==> deals[a].buyer != deals[c].buyer
    requires Premia(Enter(L, nF, nB, f, deals[k], credit), R, nF, nB, f, deals, k + 1, credit)
    ensures DealsEntered(L, R, nF, nB, f, deals, k, credit)
  {
    var d := deals[k];
    var L1 := Enter(L, nF, nB, f, d, credit);
    NotBuyer(deals, k + 1, d.buyer);
    forall a | k <= a < |deals|
      ensures && R.cdsAsset[deals[a].buyer] == L.cdsAsset[deals[a].buyer] + credit * deals[a].spread
              && R.cdsSpreadAmount[deals[a].buyer][deals[a].seller]
                 == L.cdsSpreadAmount[deals[a].buyer][deals[a].seller] + credit * deals[a].spread
              && R.cdsSpread[f][deals[a].buyer][deals[a].seller] == deals[a].spread
              && R.cdsAmount[f][deals[a].buyer][deals[a].seller] == credit
    {
      if a == k {
        assert !HasBuyer(deals, k + 1, d.buyer) && !HasPair(deals, k + 1, d.buyer, d.seller);
        assert R.cdsAsset[d.buyer] == L1.cdsAsset[d.buyer];
      } else {
        assert deals[a].buyer != d.buyer;
        assert L1.cdsAsset[deals[a].buyer] == L.cdsAsset[deals[a].buyer];
      }
    }
  }

  /** The step of `EnterAllEffects` for the entries outside the deals. */
  lemma UntouchedFirst(L: Ledger, R: Ledger, nF: nat, nB: nat, f: int, deals: seq<Deal>, k: nat, credit: real)
    requires Shaped(L, nF, nB) && Shaped(R, nF, nB) && 0 <= f < nF && k < |deals|
    requires forall a :: 0 <= a < |deals| ==> 0 <= deals[a].buyer < nB && 0 <= deals[a].seller < nB
    requires Premia(Enter(L, nF, nB, f, deals[k], credit), R, nF, nB, f, deals, k + 1, credit)
    ensures OthersUntouched(L, R, nF, nB, f, deals, k)
  {
    var d := deals[k];
    var L1 := Enter(L, nF, nB, f, d, credit);
    forall b | 0 <= b < nB && !HasBuyer(deals, k, b) ensures R.cdsAsset[b] == L.cdsAsset[b] {
      assert d.buyer != b && !HasBuyer(deals, k + 1, b);
      assert L1.cdsAsset[b] == L.cdsAsset[b];
    }
    forall b, s | 0 <= b < nB && 0 <= s < nB && !HasPair(deals, k, b, s)
      ensures && R.cdsSpreadAmount[b][s] == L.cdsSpreadAmount[b][s]
              && R.cdsSpread[f][b][s] == L.cdsSpread[f][b][s]
              && R.cdsAmount[f][b][s] == L.cdsAmount[f][b][s]
    {
      assert !(d.buyer == b && d.seller == s) && !HasPair(deals, k + 1, b, s);
    }
  }

  /** Into a firm's empty CDS table, entering deals leaves non-zero
      amounts only at the deals' pairs. */
  lemma EnteredPairs(L0: Ledger, L: Ledger, nF: nat, nB: nat, f: int, deals: seq<Deal>, credit: real)
    requires Shaped(L0, nF, nB) && Shaped(L, nF, nB) && 0 <= f < nF
    requires Premia(L0, L, nF, nB, f, deals, 0, credit)
    requires forall b, s :: 0 <= b < nB && 0 <= s < nB ==> L0.cdsAmount[f][b][s] == 0.0
    ensures forall b, s :: 0 <= b < nB && 0 <= s < nB && L.cdsAmount[f][b][s] != 0.0 ==>
              exists a :: 0 <= a < |deals| && deals[a].buyer == b && deals[a].seller == s
  {
    forall b, s | 0 <= b < nB && 0 <= s < nB && L.cdsAmount[f][b][s] != 0.0
      ensures exists a :: 0 <= a < |deals| && deals[a].buyer == b && deals[a].seller == s
    {
      if HasPair(deals, 0, b, s) {
        PairWitness(deals, 0, b, s);
      }
    }
  }

  /** The transaction loop (lines 218-227) over the deals of firm `f`, run
      by `EnterAll`. */
  method EnterDeals(L0: Ledger, nF: nat, nB: nat, f: int, deals: seq<Deal>, credit: real) returns (L: Ledger)
    requires Shaped(L0, nF, nB) && 0 <= f < nF
    requires forall k :: 0 <= k < |deals| ==> 0 <= deals[k].buyer < nB && 0 <= deals[k].seller < nB
    ensures L == EnterAll(L0, nF, nB, f, deals, 0, credit)
    ensures Shaped(L, nF, nB) && CdsOnly(L, L0) && L.cdsBook == L0.cdsBook
  {
    L := L0;
    var k := 0;
    while k < |deals|
      invariant 0 <= k <= |deals| && Shaped(L, nF, nB)
      invariant EnterAll(L, nF, nB, f, deals, k, credit) == EnterAll(L0, nF, nB, f, deals, 0, credit)
    {
      L := Enter(L, nF, nB, f, deals[k], credit);
      k := k + 1;
    }
  }

  /** Whether protection is bought at all (line 138). */
  predicate WantsCds(cal: Calibration) {
    cal.coveredCdsProb > 0.0 || cal.nakedCdsProb > 0.0
  }

  /** The banks buying protection on firm `f`'s loan from `lender` (lines
      143-158). */
  function CdsBuyers(mk: Market, f: int, lender: int): seq<int>
    requires 0 <= lender < mk.nB
  {
    Buyers(lender, mk.nB, mk.draws.covered(f), x => mk.draws.naked(f, x))
  }

  /** The round of offers on firm `f`'s loan at `rate` (lines 165-208),
      affordability judged against the books `L`. */
  function CdsRound(mk: Market, L: Ledger, f: int, rate: real, sellers: seq<int>): Round
    requires MarketOk(mk) && 0 <= f < mk.nF
  {
    Round(sellers, mk.cal.maxCdsRequests, mk.pd[f], mk.cal.policyRate, rate,
          (b: int, k: nat) => mk.draws.cdsRank(f, b, k), (b: int, k: nat) => mk.draws.spreadNoise(f, b, k),
          o => Affordable(L, mk.nB, mk.deposits, mk.bankEquity, mk.demand[f], o))
  }

  /** The protection round for firm `f` just funded by `lender` at `rate`
      (lines 138-232): nothing when protection is off or nobody buys; a
      failure (`np.random.choice` raising) when fewer sellers than requests
      remain; otherwise every deal entered and the firm's record written. */
  function Protected(mk: Market, L: Ledger, f: int, lender: int, rate: real): (r: (bool, Ledger))
    requires MarketOk(mk) && Shaped(L, mk.nF, mk.nB) && 0 <= f < mk.nF && 0 <= lender < mk.nB
    ensures Shaped(r.1, mk.nF, mk.nB) && CdsOnly(r.1, L)
  {
    if !WantsCds(mk.cal) then (true, L)
    else
      var buyers := CdsBuyers(mk, f, lender);
      if |buyers| == 0 then (true, L)
      else
        var sellers := Sellers(buyers, lender, mk.nB);
        if mk.cal.maxCdsRequests > |sellers| then (false, L)
        else
          var deals := Deals(CdsRound(mk, L, f, rate, sellers), buyers);
          assert forall a :: 0 <= a < |deals| ==> 0 <= deals[a].buyer < mk.nB && 0 <= deals[a].seller < mk.nB;
          (true, Insured(L, mk.nF, mk.nB, f, deals, mk.demand[f]))
  }

  /** Lines 209-232: every deal of firm `f` entered, and the firm's record
      written. */
  function Insured(L: Ledger, nF: nat, nB: nat, f: int, deals: seq<Deal>, credit: real): (L1: Ledger)
    requires Shaped(L, nF, nB) && 0 <= f < nF
    requires forall a :: 0 <= a < |deals| ==> 0 <= deals[a].buyer < nB && 0 <= deals[a].seller < nB
    ensures Shaped(L1, nF, nB) && CdsOnly(L1, L)
  {
    var entered := EnterAll(L, nF, nB, f, deals, 0, credit);
    entered.(cdsBook := entered.cdsBook[f := Record(deals, credit)])
  }

  /** Entering deals with distinct buyers and writing the record: the
      firm's record lists the deals, and every premium and spread is entered
      as `Premia` says. */
  lemma InsuredEffects(L: Ledger, nF: nat, nB: nat, f: int, deals: seq<Deal>, credit: real)
    requires Shaped(L, nF, nB) && 0 <= f < nF
    requires forall a :: 0 <= a < |deals| ==> 0 <= deals[a].buyer < nB && 0 <= deals[a].seller < nB
    requires forall a, c :: 0 <= a < c < |deals| ==> deals[a].buyer != deals[c].buyer
    ensures Insured(L, nF, nB, f, deals, credit).cdsBook == L.cdsBook[f := Record(deals, credit)]
    ensures Premia(L, Insured(L, nF, nB, f, deals, credit), nF, nB, f, deals, 0, credit)
  {
    var entered := EnterAll(L, nF, nB, f, deals, 0, credit);
    EnterAllEffects(L, nF, nB, f, deals, 0, credit);
    PremiaIgnoresBook(L, entered, nF, nB, f, deals, credit, entered.cdsBook[f := Record(deals, credit)]);
  }

  /** What the protection round does: nothing when protection is off or no
      bank buys; it fails, changing nothing, only when fewer sellers than
      requests remain; otherwise the firm's record lists the deals closed
      (`Deals`) on its whole loan, and every deal's premium and spread are
      entered as `Premia` says. */
  lemma ProtectedEffects(mk: Market, L: Ledger, f: int, lender: int, rate: real)
    requires MarketOk(mk) && Shaped(L, mk.nF, mk.nB) && 0 <= f < mk.nF && 0 <= lender < mk.nB
    ensures var r := Protected(mk, L, f, lender, rate);
            var buyers := CdsBuyers(mk, f, lender);
            var sellers := Sellers(buyers, lender, mk.nB);
            && (!WantsCds(mk.cal) || |buyers| == 0 ==> r == (true, L))
            && (!r.0 ==> r.1 == L && mk.cal.maxCdsRequests > |sellers|)
            && (r.0 && WantsCds(mk.cal) && |buyers| > 0 ==>
                  && mk.cal.maxCdsRequests <= |sellers|
                  && var deals := Deals(CdsRound(mk, L, f, rate, sellers), buyers);
                     && r.1.cdsBook == L.cdsBook[f := Record(deals, mk.demand[f])]
                     && Premia(L, r.1, mk.nF, mk.nB, f, deals, 0, mk.demand[f]))
  {
    var buyers := CdsBuyers(mk, f, lender);
    var sellers := Sellers(buyers, lender, mk.nB);
    if WantsCds(mk.cal) && |buyers| > 0 && mk.cal.maxCdsRequests <= |sellers| {
      var rd := CdsRound(mk, L, f, rate, sellers);
      var deals := Deals(rd, buyers);
      DealsDistinctBuyers(rd, buyers);
      assert forall a :: 0 <= a < |deals| ==> 0 <= deals[a].buyer < mk.nB && 0 <= deals[a].seller < mk.nB;
      InsuredEffects(L, mk.nF, mk.nB, f, deals, mk.demand[f]);
      assert Protected(mk, L, f, lender, rate) == (true, Insured(L, mk.nF, mk.nB, f, deals, mk.demand[f]));
    }
  }

  /** `Premia` does not look at the CDS book. */
  lemma PremiaIgnoresBook(L0: Ledger, L: Ledger, nF: nat, nB: nat, f: int, deals: seq<Deal>, credit: real,
                          book: map<int, CdsRecord>)
    requires Shaped(L0, nF, nB) && Shaped(L, nF, nB) && 0 <= f < nF
    requires Premia(L0, L, nF, nB, f, deals, 0, credit)
    ensures Premia(L0, L.(cdsBook := book), nF, nB, f, deals, 0, credit)
  {
  }

  /** The protection round for firm `f` just funded by `lender` at `rate`
      (lines 138-232), run by `Protected`. */
  method WriteCds(mk: Market, L0: Ledger, f: int, lender: int, rate: real) returns (ok: bool, L: Ledger)
    requires MarketOk(mk) && Shaped(L0, mk.nF, mk.nB) && 0 <= f < mk.nF && 0 <= lender < mk.nB
    ensures (ok, L) == Protected(mk, L0, f, lender, rate)
  {
    L := L0;
    ok := true;
    if !WantsCds(mk.cal) {
      return;
    }
    var buyers := CdsBuyers(mk, f, lender);
    if |buyers| == 0 {
      return;
    }
    var sellers := Sellers(buyers, lender, mk.nB);
    if mk.cal.maxCdsRequests > |sellers| {
      ok := false;
      return;
    }
    var deals := Deals(CdsRound(mk, L0, f, rate, sellers), buyers);
    assert forall k :: 0 <= k < |deals| ==> 0 <= deals[k].buyer < mk.nB && 0 <= deals[k].seller < mk.nB;
    L := EnterDeals(L0, mk.nF, mk.nB, f, deals, mk.demand[f]);
    L := L.(cdsBook := L.cdsBook[f := Record(deals, mk.demand[f])]);
    assert Protected(mk, L0, f, lender, rate) == (true, Insured(L0, mk.nF, mk.nB, f, deals, mk.demand[f]));
  }

  /** The protection round for a firm without protection yet, whose loan
      is from `lender`, keeps the CDS book consistent. */
  lemma ProtectedKeepsBooks(mk: Market, L: Ledger, f: int, lender: int, rate: real, lenders: seq<int>)
    requires MarketOk(mk) && Shaped(L, mk.nF, mk.nB) && 0 <= f < mk.nF && 0 <= lender < mk.nB
    requires |lenders| == mk.nF && CdsBooks(L, mk.nF, mk.nB, lenders, mk.demand)
    requires lenders[f] == lender && f !in L.cdsBook
    ensures CdsBooks(Protected(mk, L, f, lender, rate).1, mk.nF, mk.nB, lenders, mk.demand)
  {
    var buyers := CdsBuyers(mk, f, lender);
    var sellers := Sellers(buyers, lender, mk.nB);
    if WantsCds(mk.cal) && |buyers| > 0 && mk.cal.maxCdsRequests <= |sellers| {
      var rd := CdsRound(mk, L, f, rate, sellers);
      var deals := DealsParties(rd, buyers, lender, mk.nB);
      EnteredKeepsBooks(L, mk.nF, mk.nB, f, lender, mk.demand[f], deals, lenders, mk.demand);
      assert Protected(mk, L, f, lender, rate) == (true, Insured(L, mk.nF, mk.nB, f, deals, mk.demand[f]));
    }
  }

  /** Entering the deals of a firm without protection yet, and adding its
      record, keeps the CDS book consistent. */
  lemma EnteredKeepsBooks(L0: Ledger, nF: nat, nB: nat, f: int, lender: int, credit: real,
                          deals: seq<Deal>, lenders: seq<int>, demand: Vector)
    requires Shaped(L0, nF, nB) && |lenders| == nF && |demand| == nF
    requires CdsBooks(L0, nF, nB, lenders, demand)
    requires 0 <= f < nF && f !in L0.cdsBook && lenders[f] == lender && demand[f] == credit && lender >= 0
    requires forall k :: 0 <= k < |deals| ==>
               0 <= deals[k].buyer < nB && 0 <= deals[k].seller < nB
               && deals[k].buyer != deals[k].seller && deals[k].seller != lender
    requires forall a, c :: 0 <= a < c < |deals| ==> deals[a].buyer != deals[c].buyer
    requires forall k, a :: 0 <= k < |deals| && 0 <= a < |deals| ==> deals[k].seller != deals[a].buyer
    ensures CdsBooks(Insured(L0, nF, nB, f, deals, credit), nF, nB, lenders, demand)
  {
    var L := EnterAll(L0, nF, nB, f, deals, 0, credit);
    EnterAllEffects(L0, nF, nB, f, deals, 0, credit);
    assert forall b, s :: 0 <= b < nB && 0 <= s < nB ==> L0.cdsAmount[f][b][s] == 0.0;
    EnteredPairs(L0, L, nF, nB, f, deals, credit);
    RecordKeepsBooks(L0, L, nF, nB, f, lender, credit, deals, lenders, demand);
  }

  /** Whether the loan from the offer's bank fits under its maximum credit
      (line 73). */
  predicate WithinCapacity(L: Ledger, nB: nat, maxCredit: Vector, bank: int, credit: real)
    requires |L.loanAsset| == nB && |maxCredit| == nB && 0 <= bank < nB
  {
    credit + L.loanAsset[bank] <= maxCredit[bank]
  }

  /** Firm `f`'s loan offers in ascending order of rate (line 66). */
  function Offers(mk: Market, f: int): (r: seq<(int, real)>)
    requires MarketOk(mk) && 0 <= f < mk.nF
    ensures SortedBy(r, Rate) && |r| == |mk.loans[f]|
    ensures forall k :: 0 <= k < |r| ==> r[k] in mk.loans[f] && 0 <= r[k].0 < mk.nB
  {
    var r := SortByKey(mk.loans[f], Rate);
    forall k | 0 <= k < |r| ensures r[k] in mk.loans[f] && 0 <= r[k].0 < mk.nB {
      SortByKeyFrom(mk.loans[f], Rate, k);
    }
    r
  }

  /** `bank_condition` (lines 78-82): what `bank` has left after lending firm
      `f` its demand; positive means it lends directly. */
  function Condition(mk: Market, L: Ledger, f: int, bank: int): real
    requires MarketOk(mk) && Shaped(L, mk.nF, mk.nB) && 0 <= f < mk.nF && 0 <= bank < mk.nB
  {
    mk.deposits[bank] + L.loanLiability[bank] - (mk.demand[f] + L.loanAsset[bank])
  }

  /** The interbank offers `bank` receives when it needs `amount` to fund
      the `k`-th offer of firm `f` (lines 87-108): `max_interbank_loan`
      other banks drawn with replacement, each quoting `asses_interbank_loans`
      at the bank's financial fragility, sorted by rate. */
  function InterbankQuotes(mk: Market, L: Ledger, f: int, k: int, bank: int, amount: real): (r: seq<(int, real)>)
    requires MarketOk(mk) && Shaped(L, mk.nF, mk.nB) && 0 <= bank < mk.nB
    requires mk.cal.maxInterbankLoan == 0 || mk.nB >= 2
    ensures forall j :: 0 <= j < |r| ==> 0 <= r[j].0 < mk.nB && r[j].0 != bank
  {
    var m := mk.cal.maxInterbankLoan;
    var fragility := (amount + L.loanAsset[bank]) / mk.deposits[bank];
    var sellers := InterbankSellers(bank, mk.nB, m, j => mk.draws.interbankSeller(f, k, j));
    var rates := AssessInterbankLoans(fragility, mk.cal.policyRate, seq(m, j => mk.draws.interbankUniform(f, k, j)),
                                      mk.tanh);
    InterbankOffers(sellers, rates, mk.nB, bank)
  }

  /** The books, the current deposits, whether the source went on, and
      `loan_extended` after one loan offer is tried. */
  datatype Attempt = Attempt(ok: bool, ledger: Ledger, current: Vector, extended: bool)

  /** Lines 71-127: the `k`-th offer of firm `f`, from `bank`, is tried. It
      is skipped above the bank's maximum credit; it is extended directly
      when the bank has the liquidity; otherwise the bank borrows the
      shortfall on the interbank market, and the offer is extended when some
      interbank loan is made. `ok` is false where `random.choices` raises: a
      single bank looking for interbank sellers. */
  function TryOffer(mk: Market, L: Ledger, current: Vector, f: int, k: int, bank: int): (a: Attempt)
    requires MarketOk(mk) && Shaped(L, mk.nF, mk.nB) && |current| == mk.nB
    requires 0 <= f < mk.nF && 0 <= bank < mk.nB
    ensures Shaped(a.ledger, mk.nF, mk.nB) && |a.current| == mk.nB
  {
    if !WithinCapacity(L, mk.nB, mk.maxCredit, bank, mk.demand[f]) then Attempt(true, L, current, false)
    else
      var condition := Condition(mk, L, f, bank);
      if condition > 0.0 then Attempt(true, L, current, true)
      else if mk.cal.maxInterbankLoan > 0 && mk.nB < 2 then Attempt(false, L, current, false)
      else
        var b := Borrowed(L, current, mk.nF, mk.nB, bank, mk.demand[f], -condition,
                          InterbankQuotes(mk, L, f, k, bank, -condition), 0, mk.deposits, mk.maxCredit);
        Attempt(true, b.ledger, b.current, b.extended)
  }

  /** An offer the bank can fund only by borrowing is the interbank loop's
      outcome. */
  lemma TryOfferBorrows(mk: Market, L: Ledger, current: Vector, f: int, k: int, bank: int)
    returns (quotes: seq<(int, real)>)
    requires MarketOk(mk) && Shaped(L, mk.nF, mk.nB) && |current| == mk.nB
    requires 0 <= f < mk.nF && 0 <= bank < mk.nB
    requires WithinCapacity(L, mk.nB, mk.maxCredit, bank, mk.demand[f]) && Condition(mk, L, f, bank) <= 0.0
    requires mk.cal.maxInterbankLoan == 0 || mk.nB >= 2
    ensures quotes == InterbankQuotes(mk, L, f, k, bank, -Condition(mk, L, f, bank))
    ensures forall j :: 0 <= j < |quotes| ==> 0 <= quotes[j].0 < mk.nB
    ensures var b := Borrowed(L, current, mk.nF, mk.nB, bank, mk.demand[f], -Condition(mk, L, f, bank),
                              quotes, 0, mk.deposits, mk.maxCredit);
            TryOffer(mk, L, current, f, k, bank) == Attempt(true, b.ledger, b.current, b.extended)
  {
    quotes := InterbankQuotes(mk, L, f, k, bank, -Condition(mk, L, f, bank));
  }

  /** The `k`-th offer of firm `f`, from `bank`, can be extended against the
      books `L`: it fits under the bank's maximum credit, and the bank either
      has the liquidity or receives an interbank offer that passes the
      acceptance test. */
  predicate Extendable(mk: Market, L: Ledger, f: int, k: int, bank: int)
    requires MarketOk(mk) && Shaped(L, mk.nF, mk.nB) && 0 <= f < mk.nF && 0 <= bank < mk.nB
  {
    var condition := Condition(mk, L, f, bank);
    && WithinCapacity(L, mk.nB, mk.maxCredit, bank, mk.demand[f])
    && (|| condition > 0.0
        || (&& (mk.cal.maxInterbankLoan == 0 || mk.nB >= 2)
            && SomeAccepts(L, mk.nB, mk.deposits, mk.maxCredit, InterbankQuotes(mk, L, f, k, bank, -condition), 0,
                           -condition)))
  }

  /** An offer the bank can fund only by borrowing is extendable exactly
      when some interbank offer passes the acceptance test. */
  lemma ExtendableBorrows(mk: Market, L: Ledger, f: int, k: int, bank: int)
    requires MarketOk(mk) && Shaped(L, mk.nF, mk.nB) && 0 <= f < mk.nF && 0 <= bank < mk.nB
    requires WithinCapacity(L, mk.nB, mk.maxCredit, bank, mk.demand[f]) && Condition(mk, L, f, bank) <= 0.0
    requires mk.cal.maxInterbankLoan == 0 || mk.nB >= 2
    ensures var condition := Condition(mk, L, f, bank);
            Extendable(mk, L, f, k, bank)
            == SomeAccepts(L, mk.nB, mk.deposits, mk.maxCredit, InterbankQuotes(mk, L, f, k, bank, -condition), 0, -condition)
  {
  }

  /** Trying an offer from `bank` makes `random.choices` raise: the bank
      needs interbank funds and is the only bank. */
  predicate Raises(mk: Market, L: Ledger, f: int, bank: int)
    requires MarketOk(mk) && Shaped(L, mk.nF, mk.nB) && 0 <= f < mk.nF && 0 <= bank < mk.nB
  {
    && WithinCapacity(L, mk.nB, mk.maxCredit, bank, mk.demand[f])
    && Condition(mk, L, f, bank) <= 0.0
    && mk.cal.maxInterbankLoan > 0 && mk.nB < 2
  }

  /** An offer is extended exactly when it is extendable, the source raises
      exactly when `Raises` says so, and an offer that is not extended
      changes nothing. */
  lemma TryOfferMeaning(mk: Market, L: Ledger, current: Vector, f: int, k: int, bank: int)
    requires MarketOk(mk) && Shaped(L, mk.nF, mk.nB) && |current| == mk.nB
    requires 0 <= f < mk.nF && 0 <= bank < mk.nB
    ensures var a := TryOffer(mk, L, current, f, k, bank);
            && (a.extended <==> Extendable(mk, L, f, k, bank))
            && (a.ok <==> !Raises(mk, L, f, bank))
            && (!a.extended ==> a.ledger == L && a.current == current)
  {
    var condition := Condition(mk, L, f, bank);
    if !WithinCapacity(L, mk.nB, mk.maxCredit, bank, mk.demand[f]) {
      OfferBeyondCapacity(mk, L, current, f, k, bank);
    } else if condition > 0.0 {
      OfferDirect(mk, L, current, f, k, bank);
    } else if mk.cal.maxInterbankLoan > 0 && mk.nB < 2 {
      OfferRaises(mk, L, current, f, k, bank);
    } else {
      OfferBorrows(mk, L, current, f, k, bank);
    }
  }

  /** `TryOfferMeaning` for an offer beyond the bank's maximum credit. */
  lemma OfferBeyondCapacity(mk: Market, L: Ledger, current: Vector, f: int, k: int, bank: int)
    requires MarketOk(mk) && Shaped(L, mk.nF, mk.nB) && |current| == mk.nB
    requires 0 <= f < mk.nF && 0 <= bank < mk.nB
    requires !WithinCapacity(L, mk.nB, mk.maxCredit, bank, mk.demand[f])
    ensures var a := TryOffer(mk, L, current, f, k, bank);
            && (a.extended <==> Extendable(mk, L, f, k, bank))
            && (a.ok <==> !Raises(mk, L, f, bank))
            && (!a.extended ==> a.ledger == L && a.current == current)
  {
    assert TryOffer(mk, L, current, f, k, bank) == Attempt(true, L, current, false);
  }

  /** `TryOfferMeaning` for an offer the bank funds from its own liquidity. */
  lemma OfferDirect(mk: Market, L: Ledger, current: Vector, f: int, k: int, bank: int)
    requires MarketOk(mk) && Shaped(L, mk.nF, mk.nB) && |current| == mk.nB
    requires 0 <= f < mk.nF && 0 <= bank < mk.nB
    requires WithinCapacity(L, mk.nB, mk.maxCredit, bank, mk.demand[f]) && Condition(mk, L, f, bank) > 0.0
    ensures var a := TryOffer(mk, L, current, f, k, bank);
            && (a.extended <==> Extendable(mk, L, f, k, bank))
            && (a.ok <==> !Raises(mk, L, f, bank))
            && (!a.extended ==> a.ledger == L && a.current == current)
  {
    assert TryOffer(mk, L, current, f, k, bank) == Attempt(true, L, current, true);
  }

  /** `TryOfferMeaning` for an offer that needs interbank funds when the
      bank is the only one. */
  lemma OfferRaises(mk: Market, L: Ledger, current: Vector, f: int, k: int, bank: int)
    requires MarketOk(mk) && Shaped(L, mk.nF, mk.nB) && |current| == mk.nB
    requires 0 <= f < mk.nF && 0 <= bank < mk.nB
    requires WithinCapacity(L, mk.nB, mk.maxCredit, bank, mk.demand[f]) && Condition(mk, L, f, bank) <= 0.0
    requires mk.cal.maxInterbankLoan > 0 && mk.nB < 2
    ensures var a := TryOffer(mk, L, current, f, k, bank);
            && (a.extended <==> Extendable(mk, L, f, k, bank))
            && (a.ok <==> !Raises(mk, L, f, bank))
            && (!a.extended ==> a.ledger == L && a.current == current)
  {
    assert TryOffer(mk, L, current, f, k, bank) == Attempt(false, L, current, false);
  }

  /** `TryOfferMeaning` for an offer funded on the interbank market. */
  lemma OfferBorrows(mk: Market, L: Ledger, current: Vector, f: int, k: int, bank: int)
    requires MarketOk(mk) && Shaped(L, mk.nF, mk.nB) && |current| == mk.nB
    requires 0 <= f < mk.nF && 0 <= bank < mk.nB
    requires WithinCapacity(L, mk.nB, mk.maxCredit, bank, mk.demand[f]) && Condition(mk, L, f, bank) <= 0.0
    requires mk.cal.maxInterbankLoan == 0 || mk.nB >= 2
    ensures var a := TryOffer(mk, L, current, f, k, bank);
            && (a.extended <==> Extendable(mk, L, f, k, bank))
            && (a.ok <==> !Raises(mk, L, f, bank))
            && (!a.extended ==> a.ledger == L && a.current == current)
  {
    var quotes := BorrowOutcome(mk, L, current, f, k, bank);
    ExtendableBorrows(mk, L, f, k, bank);
  }

  /** An offer funded on the interbank market is extended exactly when
      some quote passes the acceptance test, and changes nothing otherwise. */
  lemma BorrowOutcome(mk: Market, L: Ledger, current: Vector, f: int, k: int, bank: int)
    returns (quotes: seq<(int, real)>)
    requires MarketOk(mk) && Shaped(L, mk.nF, mk.nB) && |current| == mk.nB
    requires 0 <= f < mk.nF && 0 <= bank < mk.nB
    requires WithinCapacity(L, mk.nB, mk.maxCredit, bank, mk.demand[f]) && Condition(mk, L, f, bank) <= 0.0
    requires mk.cal.maxInterbankLoan == 0 || mk.nB >= 2
    ensures quotes == InterbankQuotes(mk, L, f, k, bank, -Condition(mk, L, f, bank))
    ensures var a := TryOffer(mk, L, current, f, k, bank);
            && a.ok
            && (a.extended <==> SomeAccepts(L, mk.nB, mk.deposits, mk.maxCredit, quotes, 0, -Condition(mk, L, f, bank)))
            && (!a.extended ==> a.ledger == L && a.current == current)
  {
    var condition := Condition(mk, L, f, bank);
    quotes := TryOfferBorrows(mk, L, current, f, k, bank);
    AttemptMeaning(mk, TryOffer(mk, L, current, f, k, bank), L, current, bank, mk.demand[f], -condition,
                   quotes, SomeAccepts(L, mk.nB, mk.deposits, mk.maxCredit, quotes, 0, -condition));
  }

  /** `BorrowedExtended`, stated of an attempt built from the loop's
      outcome. */
  lemma AttemptMeaning(mk: Market, a: Attempt, L: Ledger, current: Vector, bank: int, credit: real,
                       amount: real, offers: seq<(int, real)>, extendable: bool)
    requires MarketOk(mk) && Shaped(L, mk.nF, mk.nB) && |current| == mk.nB && 0 <= bank < mk.nB
    requires forall k :: 0 <= k < |offers| ==> 0 <= offers[k].0 < mk.nB
    requires var b := Borrowed(L, current, mk.nF, mk.nB, bank, credit, amount, offers, 0, mk.deposits, mk.maxCredit);
             a == Attempt(true, b.ledger, b.current, b.extended)
    requires extendable == SomeAccepts(L, mk.nB, mk.deposits, mk.maxCredit, offers, 0, amount)
    ensures a.ok && (a.extended <==> extendable) && (!a.extended ==> a.ledger == L && a.current == current)
  {
    BorrowedExtended(L, current, mk.nF, mk.nB, bank, credit, amount, offers, 0, mk.deposits, mk.maxCredit);
  }

  /** Where the search over a firm's offers stopped: whether the source went
      on, the books and current deposits, and the lender and its rate
      (-1 and 0 for none). */
  datatype Search = Search(ok: bool, ledger: Ledger, current: Vector, lender: int, rate: real)

  /** The loop over firm `f`'s offers (lines 70-127) from the `k`-th on,
      stopping at the first offer extended. */
  function SearchFrom(mk: Market, L: Ledger, current: Vector, f: int, k: nat): (s: Search)
    requires MarketOk(mk) && Shaped(L, mk.nF, mk.nB) && |current| == mk.nB
    requires 0 <= f < mk.nF && k <= |mk.loans[f]|
    ensures Shaped(s.ledger, mk.nF, mk.nB) && |s.current| == mk.nB && -1 <= s.lender < mk.nB
    decreases |mk.loans[f]| - k
  {
    var offers := Offers(mk, f);
    if k == |offers| then Search(true, L, current, -1, 0.0)
    else
      var a := TryOffer(mk, L, current, f, k, offers[k].0);
      if !a.ok then Search(false, a.ledger, a.current, -1, 0.0)
      else if a.extended then Search(true, a.ledger, a.current, offers[k].0, offers[k].1)
      else SearchFrom(mk, a.ledger, a.current, f, k + 1)
  }

  /** None of firm `f`'s offers from the `k`-th up to the `i`-th (excluded)
      can be extended against `L`, and none makes the source raise. */
  predicate Declined(mk: Market, L: Ledger, f: int, k: int, i: int)
    requires MarketOk(mk) && Shaped(L, mk.nF, mk.nB) && 0 <= f < mk.nF && i <= |mk.loans[f]|
  {
    forall j :: k <= j < i && 0 <= j ==>
      && !Extendable(mk, L, f, j, Offers(mk, f)[j].0)
      && !Raises(mk, L, f, Offers(mk, f)[j].0)
  }

  /** An offer declined in front of a declined run extends the run. */
  lemma DeclinedStep(mk: Market, L: Ledger, f: int, k: nat, i: int)
    requires MarketOk(mk) && Shaped(L, mk.nF, mk.nB) && 0 <= f < mk.nF && k < |mk.loans[f]| && i <= |mk.loans[f]|
    requires !Extendable(mk, L, f, k, Offers(mk, f)[k].0) && !Raises(mk, L, f, Offers(mk, f)[k].0)
    requires Declined(mk, L, f, k + 1, i)
    ensures Declined(mk, L, f, k, i)
  {
  }

  /** The search takes the first offer, in order of rate, that can be
      extended against the books it started from (offers that are not
      extended change nothing); it finds no lender only when no offer can be
      extended, and then nothing has changed; it stops early only at an offer
      that makes the source raise. */
  lemma {:induction false} SearchFirst(mk: Market, L: Ledger, current: Vector, f: int, k: nat)
    requires MarketOk(mk) && Shaped(L, mk.nF, mk.nB) && |current| == mk.nB
    requires 0 <= f < mk.nF && k <= |mk.loans[f]|
    ensures var s := SearchFrom(mk, L, current, f, k);
            var offers := Offers(mk, f);
            && (s.lender >= 0 ==> s.ok && exists i :: k <= i < |offers| && offers[i] == (s.lender, s.rate)
                                           && Declined(mk, L, f, k, i) && Extendable(mk, L, f, i, offers[i].0))
            && (s.ok && s.lender < 0 ==> s.ledger == L && s.current == current && Declined(mk, L, f, k, |offers|))
            && (!s.ok ==> s.lender < 0 && exists i :: k <= i < |offers| && Declined(mk, L, f, k, i)
                                                       && Raises(mk, L, f, offers[i].0))
    decreases |mk.loans[f]| - k
  {
    var offers := Offers(mk, f);
    if k < |offers| {
      var a := TryOffer(mk, L, current, f, k, offers[k].0);
      TryOfferMeaning(mk, L, current, f, k, offers[k].0);
      assert Declined(mk, L, f, k, k);
      if a.ok && !a.extended {
        SearchFirst(mk, L, current, f, k + 1);
        var s := SearchFrom(mk, L, current, f, k + 1);
        assert SearchFrom(mk, L, current, f, k) == s;
        if s.lender >= 0 {
          var i :| k + 1 <= i < |offers| && offers[i] == (s.lender, s.rate)
                   && Declined(mk, L, f, k + 1, i) && Extendable(mk, L, f, i, offers[i].0);
          DeclinedStep(mk, L, f, k, i);
        } else if s.ok {
          DeclinedStep(mk, L, f, k, |offers|);
        } else {
          var i :| k + 1 <= i < |offers| && Declined(mk, L, f, k + 1, i) && Raises(mk, L, f, offers[i].0);
          DeclinedStep(mk, L, f, k, i);
        }
      }
    }
  }

  /** When the `i`-th offer is the first extendable one from the `k`-th on,
      the search from the `k`-th takes it. */
  lemma {:induction false} SearchTakes(mk: Market, L: Ledger, current: Vector, f: int, k: nat, i: int)
    requires MarketOk(mk) && Shaped(L, mk.nF, mk.nB) && |current| == mk.nB
    requires 0 <= f < mk.nF && k <= i < |mk.loans[f]|
    requires Declined(mk, L, f, k, i) && Extendable(mk, L, f, i, Offers(mk, f)[i].0)
    ensures var s := SearchFrom(mk, L, current, f, k);
            s.ok && s.lender == Offers(mk, f)[i].0 && s.rate == Offers(mk, f)[i].1
    decreases i - k
  {
    var offers := Offers(mk, f);
    TryOfferMeaning(mk, L, current, f, k, offers[k].0);
    if k < i {
      SearchTakes(mk, L, current, f, k + 1, i);
    }
  }

  /** When no offer from the `k`-th on is extendable, the search from the
      `k`-th finds no lender and changes nothing. */
  lemma {:induction false} SearchNone(mk: Market, L: Ledger, current: Vector, f: int, k: nat)
    requires MarketOk(mk) && Shaped(L, mk.nF, mk.nB) && |current| == mk.nB
    requires 0 <= f < mk.nF && k <= |mk.loans[f]|
    requires Declined(mk, L, f, k, |mk.loans[f]|)
    ensures SearchFrom(mk, L, current, f, k) == Search(true, L, current, -1, 0.0)
    decreases |mk.loans[f]| - k
  {
    var offers := Offers(mk, f);
    if k < |offers| {
      TryOfferMeaning(mk, L, current, f, k, offers[k].0);
      SearchNone(mk, L, current, f, k + 1);
    }
  }

  /** `SearchFirst` for the whole search, stated of its outcome `s`. */
  lemma FoundFirst(mk: Market, L: Ledger, current: Vector, f: int, s: Search)
    requires MarketOk(mk) && Shaped(L, mk.nF, mk.nB) && |current| == mk.nB && 0 <= f < mk.nF
    requires s == SearchFrom(mk, L, current, f, 0)
    ensures s.lender >= 0 ==> s.ok && exists i :: 0 <= i < |Offers(mk, f)| && Offers(mk, f)[i] == (s.lender, s.rate)
                                                  && Declined(mk, L, f, 0, i) && Extendable(mk, L, f, i, s.lender)
    ensures s.ok && s.lender < 0 ==> s.ledger == L && s.current == current && Declined(mk, L, f, 0, |Offers(mk, f)|)
    ensures !s.ok ==> s.lender < 0 && exists i :: 0 <= i < |Offers(mk, f)| && Declined(mk, L, f, 0, i)
                                                  && Raises(mk, L, f, Offers(mk, f)[i].0)
  {
    SearchFirst(mk, L, current, f, 0);
  }

  /** Lines 71-127 for the `k`-th offer of firm `f`, from `bank`, run by
      `TryOffer`. */
  method TryLoanOffer(mk: Market, L0: Ledger, f: int, k: int, bank: int, currentDeposit: array<real>)
    returns (ok: bool, L: Ledger, extended: bool)
    requires MarketOk(mk) && Shaped(L0, mk.nF, mk.nB) && currentDeposit.Length == mk.nB
    requires 0 <= f < mk.nF && 0 <= bank < mk.nB
    modifies currentDeposit
    ensures Attempt(ok, L, currentDeposit[..], extended) == TryOffer(mk, L0, old(currentDeposit[..]), f, k, bank)
  {
    L := L0;
    ok := true;
    extended := false;
    if !WithinCapacity(L, mk.nB, mk.maxCredit, bank, mk.demand[f]) {
      return;
    }
    var condition := Condition(mk, L, f, bank);
    if condition > 0.0 {
      extended := true;
      return;
    }
    if mk.cal.maxInterbankLoan > 0 && mk.nB < 2 {
      ok := false;
      return;
    }
    L, extended := BorrowForOffer(mk, L, f, k, bank, currentDeposit);
  }

  /** Lines 87-127: the `k`-th offer of firm `f` is within `bank`'s maximum
      credit but beyond its liquidity, so the bank asks for interbank
      quotes and runs the interbank loop. */
  method BorrowForOffer(mk: Market, L0: Ledger, f: int, k: int, bank: int, currentDeposit: array<real>)
    returns (L: Ledger, extended: bool)
    requires MarketOk(mk) && Shaped(L0, mk.nF, mk.nB) && currentDeposit.Length == mk.nB
    requires 0 <= f < mk.nF && 0 <= bank < mk.nB
    requires WithinCapacity(L0, mk.nB, mk.maxCredit, bank, mk.demand[f]) && Condition(mk, L0, f, bank) <= 0.0
    requires mk.cal.maxInterbankLoan == 0 || mk.nB >= 2
    modifies currentDeposit
    ensures Attempt(true, L, currentDeposit[..], extended) == TryOffer(mk, L0, old(currentDeposit[..]), f, k, bank)
  {
    ghost var current0 := currentDeposit[..];
    var condition := Condition(mk, L0, f, bank);
    var quotes := InterbankQuotes(mk, L0, f, k, bank, -condition);
    L, extended := BorrowInterbank(L0, mk.nF, mk.nB, bank, mk.demand[f], -condition, quotes,
                                   mk.deposits, mk.maxCredit, currentDeposit);
    AttemptOfBorrowing(mk, L0, current0, f, k, bank, Borrowing(L, currentDeposit[..], extended));
  }

  /** The interbank loop's outcome on the quotes `bank` receives is the
      outcome of trying the offer. */
  lemma AttemptOfBorrowing(mk: Market, L: Ledger, current: Vector, f: int, k: int, bank: int,
                           r: Borrowing)
    requires MarketOk(mk) && Shaped(L, mk.nF, mk.nB) && |current| == mk.nB
    requires 0 <= f < mk.nF && 0 <= bank < mk.nB
    requires WithinCapacity(L, mk.nB, mk.maxCredit, bank, mk.demand[f]) && Condition(mk, L, f, bank) <= 0.0
    requires mk.cal.maxInterbankLoan == 0 || mk.nB >= 2
    requires r == Borrowed(L, current, mk.nF, mk.nB, bank, mk.demand[f], -Condition(mk, L, f, bank),
                           InterbankQuotes(mk, L, f, k, bank, -Condition(mk, L, f, bank)), 0, mk.deposits, mk.maxCredit)
    ensures Attempt(true, r.ledger, r.current, r.extended) == TryOffer(mk, L, current, f, k, bank)
  {
    var quoted := TryOfferBorrows(mk, L, current, f, k, bank);
  }

  /** Lines 66-127 for firm `f`, run by `SearchFrom`: the offers are tried
      in ascending order of rate until one bank can lend, directly or after
      borrowing on the interbank market; `lender` is that bank and `rate` its
      offer, or `lender` is -1. */
  method FindLender(mk: Market, L0: Ledger, f: int, currentDeposit: array<real>)
    returns (ok: bool, L: Ledger, lender: int, rate: real)
    requires MarketOk(mk) && Shaped(L0, mk.nF, mk.nB) && currentDeposit.Length == mk.nB && 0 <= f < mk.nF
    modifies currentDeposit
    ensures Search(ok, L, currentDeposit[..], lender, rate) == SearchFrom(mk, L0, old(currentDeposit[..]), f, 0)
    ensures lender >= 0 ==> ok && exists i :: 0 <= i < |Offers(mk, f)| && Offers(mk, f)[i] == (lender, rate)
                                              && Declined(mk, L0, f, 0, i) && Extendable(mk, L0, f, i, lender)
    ensures ok && lender < 0 ==> L == L0 && currentDeposit[..] == old(currentDeposit[..])
                                 && Declined(mk, L0, f, 0, |Offers(mk, f)|)
    ensures !ok ==> lender < 0 && exists i :: 0 <= i < |Offers(mk, f)| && Declined(mk, L0, f, 0, i)
                                              && Raises(mk, L0, f, Offers(mk, f)[i].0)
  {
    L := L0;
    ok := true;
    lender := -1;
    rate := 0.0;
    var offers := Offers(mk, f);
    var k := 0;
    while k < |offers| && lender < 0
      invariant 0 <= k <= |offers| && -1 <= lender < mk.nB && (lender < 0 ==> rate == 0.0) && Shaped(L, mk.nF, mk.nB)
      invariant SearchFrom(mk, L0, old(currentDeposit[..]), f, 0) ==
                if lender >= 0 then Search(true, L, currentDeposit[..], lender, rate)
                else SearchFrom(mk, L, currentDeposit[..], f, k)
    {
      var extended;
      ghost var L1, current1 := L, currentDeposit[..];
      ok, L, extended := TryLoanOffer(mk, L, f, k, offers[k].0, currentDeposit);
      if !ok {
        assert SearchFrom(mk, L1, current1, f, k) == Search(false, L, currentDeposit[..], -1, 0.0);
        FoundFirst(mk, L0, old(currentDeposit[..]), f, Search(ok, L, currentDeposit[..], lender, rate));
        return;
      }
      if extended {
        lender, rate := offers[k].0, offers[k].1;
      }
      k := k + 1;
    }
    FoundFirst(mk, L0, old(currentDeposit[..]), f, Search(ok, L, currentDeposit[..], lender, rate));
  }

  /** Lines 130-136: the firm's whole demand is booked as a loan from
      `lender` at `rate`. */
  function BookLoan(L: Ledger, nF: nat, nB: nat, f: int, lender: int, rate: real, credit: real): (L1: Ledger)
    requires Shaped(L, nF, nB) && 0 <= f < nF && 0 <= lender < nB
    ensures Shaped(L1, nF, nB)
  {
    L.(firmInterest := L.firmInterest[f := L.firmInterest[f][lender := rate]],
       firmAmount := L.firmAmount[f := L.firmAmount[f][lender := credit]],
       loanAsset := L.loanAsset[lender := L.loanAsset[lender] + credit])
  }

  /** Booking the loan keeps the balance sheets consistent, the loan going
      into the lender's firm lending. */
  lemma BookLoanKeepsBankBooks(L: Ledger, nF: nat, nB: nat, f: int, lender: int, rate: real, credit: real,
                               firmLent: Vector, interbank: seq<bool>, maxCredit: Vector)
    requires Shaped(L, nF, nB) && |maxCredit| == nB && BankBooks(L, nB, firmLent, interbank, maxCredit)
    requires 0 <= f < nF && 0 <= lender < nB && !interbank[lender]
    requires credit >= 0.0 && WithinCapacity(L, nB, maxCredit, lender, credit)
    ensures BankBooks(BookLoan(L, nF, nB, f, lender, rate, credit), nB,
                      firmLent[lender := firmLent[lender] + credit], interbank, maxCredit)
  {
    BookLoanSums(L, nF, nB, f, lender, rate, credit, firmLent);
  }

  /** The booked loan is added to its lender's column sum of firm loans. */
  lemma BookLoanColSums(L: Ledger, nF: nat, nB: nat, f: int, lender: int, rate: real, credit: real, firmLent: Vector)
    requires Shaped(L, nF, nB) && 0 <= f < nF && 0 <= lender < nB
    requires firmLent == ColSums(L.firmAmount, nB) && L.firmAmount[f][lender] == 0.0
    ensures firmLent[lender := firmLent[lender] + credit] == ColSums(BookLoan(L, nF, nB, f, lender, rate, credit).firmAmount, nB)
  {
    BookColSums(L.firmAmount, nF, nB, f, lender, credit);
  }

  /** Booking a loan adds it to the total of loan assets and to the total
      lent to firms. */
  lemma BookLoanSums(L: Ledger, nF: nat, nB: nat, f: int, lender: int, rate: real, credit: real, firmLent: Vector)
    requires Shaped(L, nF, nB) && 0 <= f < nF && 0 <= lender < nB && |firmLent| == nB
    ensures Sum(BookLoan(L, nF, nB, f, lender, rate, credit).loanAsset) == Sum(L.loanAsset) + credit
    ensures Sum(firmLent[lender := firmLent[lender] + credit]) == Sum(firmLent) + credit
  {
    SumUpdate(L.loanAsset, lender, L.loanAsset[lender] + credit);
    SumUpdate(firmLent, lender, firmLent[lender] + credit);
  }

  /** Booking the loan of a firm without one gives it its lender. */
  lemma BookLoanKeepsFirmRows(L: Ledger, nF: nat, nB: nat, f: int, lender: int, rate: real, credit: real,
                              lenders: seq<int>, demand: Vector, loans: seq<seq<(int, real)>>)
    requires Shaped(L, nF, nB) && |demand| == nF && |loans| == nF
    requires FirmRows(L, nF, nB, lenders, demand, loans)
    requires 0 <= f < nF && lenders[f] == -1 && 0 <= lender < nB
    requires credit == demand[f] && (lender, rate) in loans[f]
    ensures FirmRows(BookLoan(L, nF, nB, f, lender, rate, credit), nF, nB, lenders[f := lender], demand, loans)
  {
  }

  /** Booking a loan leaves the CDS book consistent. */
  lemma BookLoanKeepsCdsBooks(L: Ledger, nF: nat, nB: nat, f: int, lender: int, rate: real, credit: real,
                              lenders: seq<int>, demand: Vector)
    requires Shaped(L, nF, nB) && |demand| == nF && |lenders| == nF
    requires CdsBooks(L, nF, nB, lenders, demand)
    requires 0 <= f < nF && lenders[f] == -1 && 0 <= lender < nB
    ensures CdsBooks(BookLoan(L, nF, nB, f, lender, rate, credit), nF, nB, lenders[f := lender], demand)
    ensures f !in L.cdsBook
  {
    var L1 := BookLoan(L, nF, nB, f, lender, rate, credit);
    var lenders1 := lenders[f := lender];
    forall g | g in L1.cdsBook ensures 0 <= g < nF && lenders1[g] >= 0 && Contracts(L1, nF, nB, g, lenders1[g], demand[g]) {
      assert Contracts(L, nF, nB, g, lenders[g], demand[g]);
    }
  }

  /** The empty ledger satisfies every invariant, with no lender and no
      interbank lending. */
  lemma EmptyLedgerBooks(nF: nat, nB: nat, maxCredit: Vector, demand: Vector, loans: seq<seq<(int, real)>>)
    requires |maxCredit| == nB && |demand| == nF && |loans| == nF
    ensures var L := EmptyLedger(nF, nB);
            && BankBooks(L, nB, Zeros(nB), seq(nB, b => false), maxCredit)
            && Zeros(nB) == ColSums(L.firmAmount, nB)
            && FirmRows(L, nF, nB, seq(nF, g => -1), demand, loans)
            && CdsBooks(L, nF, nB, seq(nF, g => -1), demand)
  {
    var L := EmptyLedger(nF, nB);
    forall j | 0 <= j < nB ensures ColSums(L.firmAmount, nB)[j] == 0.0 {
      SumZeros(Column(L.firmAmount, j));
    }
    SumZeros(Zeros(nB));
  }

  /** What one pass of the firm loop leaves: whether the source went on, the
      books, the banks' current deposits and the firms' equity. */
  datatype Step = Step(ok: bool, ledger: Ledger, current: Vector, equity: Vector)

  /** Lines 128-233 for firm `f`, after the search `s` over its offers:
      when a lender was found, the loan booked at its offered rate, the
      lender's current deposit charged and the firm's equity credited, and
      the protection round run. */
  function Funded(mk: Market, s: Search, equity: Vector, f: int): (st: Step)
    requires MarketOk(mk) && Shaped(s.ledger, mk.nF, mk.nB) && |s.current| == mk.nB && |equity| == mk.nF
    requires 0 <= f < mk.nF && s.lender < mk.nB
    ensures Shaped(st.ledger, mk.nF, mk.nB) && |st.current| == mk.nB && |st.equity| == mk.nF
  {
    if s.lender < 0 then Step(s.ok, s.ledger, s.current, equity)
    else
      var credit := mk.demand[f];
      Lent(s, equity, f, credit, Protected(mk, BookLoan(s.ledger, mk.nF, mk.nB, f, s.lender, s.rate, credit), f, s.lender, s.rate))
  }

  /** The step after the search found a lender: the loan of `credit`
      charged to the lender's current deposit and credited to the firm's
      equity, with the protection round's outcome `p`. */
  function Lent(s: Search, equity: Vector, f: int, credit: real, p: (bool, Ledger)): (st: Step)
    requires 0 <= s.lender < |s.current| && 0 <= f < |equity|
    ensures |st.current| == |s.current| && |st.equity| == |equity|
  {
    Step(p.0, p.1, Charge(s.current, s.lender, credit), equity[f := equity[f] + credit])
  }

  /** One pass of the firm loop (lines 66-233) for firm `f`: the search for
      a lender, then `Funded`. */
  function FundStep(mk: Market, L: Ledger, current: Vector, equity: Vector, f: int): (st: Step)
    requires MarketOk(mk) && Shaped(L, mk.nF, mk.nB) && |current| == mk.nB && |equity| == mk.nF
    requires 0 <= f < mk.nF
    ensures Shaped(st.ledger, mk.nF, mk.nB) && |st.current| == mk.nB && |st.equity| == mk.nF
  {
    Funded(mk, SearchFrom(mk, L, current, f, 0), equity, f)
  }

  /** The firm loop (lines 65-233) from firm `f` on, stopping where the
      source raises. */
  function FundFrom(mk: Market, L: Ledger, current: Vector, equity: Vector, f: nat): (st: Step)
    requires MarketOk(mk) && Shaped(L, mk.nF, mk.nB) && |current| == mk.nB && |equity| == mk.nF
    requires f <= mk.nF
    decreases mk.nF - f
  {
    if f == mk.nF then Step(true, L, current, equity)
    else
      var st := FundStep(mk, L, current, equity, f);
      if !st.ok then st else FundFrom(mk, st.ledger, st.current, st.equity, f + 1)
  }

  /** A firm is lent its whole demand, at the offered rate, by the bank of
      the first of its offers (in order of rate) that can be extended against
      the books as they stand, and its equity grows by that demand; when no
      offer can be extended, nothing changes. */
  lemma FundStepLends(mk: Market, L: Ledger, current: Vector, equity: Vector, f: int)
    requires MarketOk(mk) && Shaped(L, mk.nF, mk.nB) && |current| == mk.nB && |equity| == mk.nF
    requires 0 <= f < mk.nF
    ensures var st := FundStep(mk, L, current, equity, f);
            var offers := Offers(mk, f);
            && (forall i :: 0 <= i < |offers| && Declined(mk, L, f, 0, i) && Extendable(mk, L, f, i, offers[i].0) ==>
                  && st.ledger.firmAmount[f][offers[i].0] == mk.demand[f]
                  && st.ledger.firmInterest[f][offers[i].0] == offers[i].1
                  && st.equity == equity[f := equity[f] + mk.demand[f]])
            && (Declined(mk, L, f, 0, |offers|) ==> st == Step(true, L, current, equity))
  {
    var offers := Offers(mk, f);
    forall i | 0 <= i < |offers| && Declined(mk, L, f, 0, i) && Extendable(mk, L, f, i, offers[i].0)
      ensures var st := FundStep(mk, L, current, equity, f);
              && st.ledger.firmAmount[f][offers[i].0] == mk.demand[f]
              && st.ledger.firmInterest[f][offers[i].0] == offers[i].1
              && st.equity == equity[f := equity[f] + mk.demand[f]]
    {
      SearchTakes(mk, L, current, f, 0, i);
    }
    if Declined(mk, L, f, 0, |offers|) {
      SearchNone(mk, L, current, f, 0);
    }
  }

  /** One pass of the firm loop (lines 66-233) for firm `f`, run by
      `FundStep`. */
  method FundFirm(mk: Market, L0: Ledger, f: int, currentDeposit: array<real>, firmEquity: array<real>)
    returns (ok: bool, L: Ledger)
    requires MarketOk(mk) && Shaped(L0, mk.nF, mk.nB) && 0 <= f < mk.nF
    requires currentDeposit.Length == mk.nB && firmEquity.Length == mk.nF && currentDeposit != firmEquity
    modifies currentDeposit, firmEquity
    ensures Step(ok, L, currentDeposit[..], firmEquity[..]) ==
            FundStep(mk, L0, old(currentDeposit[..]), old(firmEquity[..]), f)
  {
    var lender, rate;
    ok, L, lender, rate := FindLender(mk, L0, f, currentDeposit);
    FundStepFunds(mk, L0, old(currentDeposit[..]), old(firmEquity[..]), f, Search(ok, L, currentDeposit[..], lender, rate));
    if lender >= 0 {
      ok, L := BookAndInsure(mk, L, f, lender, rate, currentDeposit, firmEquity);
    }
  }

  /** `FundStep` is `Funded` after the search's outcome `s`. */
  lemma FundStepFunds(mk: Market, L: Ledger, current: Vector, equity: Vector, f: int, s: Search)
    requires MarketOk(mk) && Shaped(L, mk.nF, mk.nB) && |current| == mk.nB && |equity| == mk.nF
    requires 0 <= f < mk.nF
    requires s == SearchFrom(mk, L, current, f, 0)
    ensures Shaped(s.ledger, mk.nF, mk.nB) && |s.current| == mk.nB && s.lender < mk.nB
    ensures FundStep(mk, L, current, equity, f) == Funded(mk, s, equity, f)
  {
  }

  /** Interbank lending touches neither the firm loans nor the CDS book. */
  lemma InterbankOnlyKeepsRows(L0: Ledger, L: Ledger, nF: nat, nB: nat, lenders: seq<int>, demand: Vector,
                               loans: seq<seq<(int, real)>>)
    requires Shaped(L0, nF, nB) && Shaped(L, nF, nB) && InterbankOnly(L, L0) && |demand| == nF && |loans| == nF
    requires |lenders| == nF
    requires FirmRows(L0, nF, nB, lenders, demand, loans) && CdsBooks(L0, nF, nB, lenders, demand)
    ensures FirmRows(L, nF, nB, lenders, demand, loans) && CdsBooks(L, nF, nB, lenders, demand)
  {
    assert L.firmAmount == L0.firmAmount && L.firmInterest == L0.firmInterest;
    assert L.cdsAmount == L0.cdsAmount && L.cdsBook == L0.cdsBook;
  }

  /** Lines 128-232: the loan from `lender` is booked, the lender's current
      deposit charged and the firm's equity credited, and the protection
      round on the loan run. */
  method BookAndInsure(mk: Market, L0: Ledger, f: int, lender: int, rate: real,
                       currentDeposit: array<real>, firmEquity: array<real>)
    returns (ok: bool, L: Ledger)
    requires MarketOk(mk) && Shaped(L0, mk.nF, mk.nB) && 0 <= f < mk.nF && 0 <= lender < mk.nB
    requires currentDeposit.Length == mk.nB && firmEquity.Length == mk.nF && currentDeposit != firmEquity
    modifies currentDeposit, firmEquity
    ensures Step(ok, L, currentDeposit[..], firmEquity[..])
            == Funded(mk, Search(true, L0, old(currentDeposit[..]), lender, rate), old(firmEquity[..]), f)
  {
    ghost var s := Search(true, L0, currentDeposit[..], lender, rate);
    ghost var equity0 := firmEquity[..];
    var credit := mk.demand[f];
    L := BookLoan(L0, mk.nF, mk.nB, f, lender, rate, credit);
    ghost var booked := L;
    currentDeposit[lender] := currentDeposit[lender] - credit;
    firmEquity[f] := firmEquity[f] + credit;
    assert currentDeposit[..] == Charge(s.current, lender, credit);
    assert firmEquity[..] == equity0[f := equity0[f] + credit];
    ok, L := WriteCds(mk, L, f, lender, rate);
    FundedIsLent(mk, s, equity0, f, Protected(mk, booked, f, lender, rate));
  }

  /** A search that found a lender funds the firm as `Lent` says, with the
      protection round `p` run on the ledger with the loan booked. */
  lemma FundedIsLent(mk: Market, s: Search, equity: Vector, f: int, p: (bool, Ledger))
    requires MarketOk(mk) && Shaped(s.ledger, mk.nF, mk.nB) && |s.current| == mk.nB && |equity| == mk.nF
    requires 0 <= f < mk.nF && 0 <= s.lender < mk.nB
    requires p == Protected(mk, BookLoan(s.ledger, mk.nF, mk.nB, f, s.lender, s.rate, mk.demand[f]), f, s.lender, s.rate)
    ensures Funded(mk, s, equity, f) == Lent(s, equity, f, mk.demand[f], p)
  {
  }

  /** Writing protection touches neither the loans nor the balance sheets. */
  lemma CdsOnlyKeepsBooks(L0: Ledger, L: Ledger, nF: nat, nB: nat, firmLent: Vector, interbank: seq<bool>,
                          maxCredit: Vector, lenders: seq<int>, demand: Vector, loans: seq<seq<(int, real)>>)
    requires Shaped(L0, nF, nB) && Shaped(L, nF, nB) && CdsOnly(L, L0) && |maxCredit| == nB
    requires |demand| == nF && |loans| == nF
    requires BankBooks(L0, nB, firmLent, interbank, maxCredit) && FirmRows(L0, nF, nB, lenders, demand, loans)
    requires firmLent == ColSums(L0.firmAmount, nB)
    ensures BankBooks(L, nB, firmLent, interbank, maxCredit) && FirmRows(L, nF, nB, lenders, demand, loans)
    ensures firmLent == ColSums(L.firmAmount, nB)
  {
    assert L.firmAmount == L0.firmAmount && L.firmInterest == L0.firmInterest;
    assert L.bankAmount == L0.bankAmount && L.bankInterest == L0.bankInterest;
    assert L.loanAsset == L0.loanAsset && L.loanLiability == L0.loanLiability;
  }

  /** What the firm loop keeps track of only implicitly: what each bank lent
      to firms, which banks lent on the interbank market, and each firm's
      lender (-1 for none). */
  datatype Books = Books(firmLent: Vector, interbank: seq<bool>, lenders: seq<int>)

  /** The tables, the current deposits and the firms' equity agree with the
      bookkeeping `bk`, against the current deposits `current0` and equity
      `equity0` the firm loop started from: the balance sheets, the firm
      loans and the CDS book are consistent, a bank that never lent on the
      interbank market has lost from its current deposit exactly what it lent
      to firms, and every funded firm has gained its demand in equity. */
  ghost predicate Kept(mk: Market, L: Ledger, current: Vector, equity: Vector, bk: Books,
                       current0: Vector, equity0: Vector)
    requires MarketOk(mk)
  {
    KeptParts(mk, L, current, equity, bk, current0, equity0) == true
  }

  /** The parts of `Kept`, stated as one fact there. */
  ghost predicate KeptParts(mk: Market, L: Ledger, current: Vector, equity: Vector, bk: Books,
                            current0: Vector, equity0: Vector)
    requires MarketOk(mk)
  {
    && Shaped(L, mk.nF, mk.nB) && |current| == mk.nB && |equity| == mk.nF
    && |current0| == mk.nB && |equity0| == mk.nF
    && BankBooks(L, mk.nB, bk.firmLent, bk.interbank, mk.maxCredit) && bk.firmLent == ColSums(L.firmAmount, mk.nB)
    && FirmRows(L, mk.nF, mk.nB, bk.lenders, mk.demand, mk.loans) && CdsBooks(L, mk.nF, mk.nB, bk.lenders, mk.demand)
    && (forall b :: 0 <= b < mk.nB && !bk.interbank[b] ==> current[b] == current0[b] - bk.firmLent[b])
    && (forall g :: 0 <= g < mk.nF ==> equity[g] == equity0[g] + if bk.lenders[g] >= 0 then mk.demand[g] else 0.0)
  }

  /** The interbank lenders after the `k`-th offer of firm `f`, from `bank`,
      is tried: `interbank` with every seller that lent marked. */
  ghost function TryMarks(mk: Market, L: Ledger, current: Vector, f: int, k: int, bank: int,
                          interbank: seq<bool>): (r: seq<bool>)
    requires MarketOk(mk) && Shaped(L, mk.nF, mk.nB) && |current| == mk.nB
    requires 0 <= f < mk.nF && 0 <= bank < mk.nB && |interbank| == mk.nB
    ensures |r| == mk.nB
  {
    var condition := Condition(mk, L, f, bank);
    if WithinCapacity(L, mk.nB, mk.maxCredit, bank, mk.demand[f]) && condition <= 0.0
       && (mk.cal.maxInterbankLoan == 0 || mk.nB >= 2)
    then Marked(L, current, mk.nF, mk.nB, bank, mk.demand[f], -condition,
                InterbankQuotes(mk, L, f, k, bank, -condition), 0, mk.deposits, mk.maxCredit, interbank)
    else interbank
  }

  /** Trying an offer keeps the balance sheets consistent and changes only
      the interbank tables; marks are only added, an unmarked bank keeps its
      current deposit, and the bank of an extended offer is no interbank
      lender and still has room for the loan. */
  lemma TryKeepsBooks(mk: Market, L: Ledger, current: Vector, f: int, k: int, bank: int,
                      firmLent: Vector, interbank: seq<bool>)
    requires MarketOk(mk) && Shaped(L, mk.nF, mk.nB) && |current| == mk.nB && 0 <= f < mk.nF && 0 <= bank < mk.nB
    requires BankBooks(L, mk.nB, firmLent, interbank, mk.maxCredit)
    ensures var a := TryOffer(mk, L, current, f, k, bank);
            var marked := TryMarks(mk, L, current, f, k, bank, interbank);
            && BankBooks(a.ledger, mk.nB, firmLent, marked, mk.maxCredit) && InterbankOnly(a.ledger, L)
            && (forall b :: 0 <= b < mk.nB && interbank[b] ==> marked[b])
            && (forall b :: 0 <= b < mk.nB && !marked[b] ==> a.current[b] == current[b])
            && (a.extended ==> !marked[bank] && WithinCapacity(a.ledger, mk.nB, mk.maxCredit, bank, mk.demand[f]))
  {
    var condition := Condition(mk, L, f, bank);
    if WithinCapacity(L, mk.nB, mk.maxCredit, bank, mk.demand[f]) && condition <= 0.0
       && (mk.cal.maxInterbankLoan == 0 || mk.nB >= 2)
    {
      BorrowedKeepsBooks(L, current, mk.nF, mk.nB, bank, mk.demand[f], -condition,
                         InterbankQuotes(mk, L, f, k, bank, -condition), 0, mk.deposits, mk.maxCredit,
                         firmLent, interbank);
    }
  }

  /** The interbank lenders after the search over firm `f`'s offers from the
      `k`-th on, as `SearchFrom` runs it. */
  ghost function SearchMarks(mk: Market, L: Ledger, current: Vector, f: int, k: nat,
                             interbank: seq<bool>): (r: seq<bool>)
    requires MarketOk(mk) && Shaped(L, mk.nF, mk.nB) && |current| == mk.nB
    requires 0 <= f < mk.nF && k <= |mk.loans[f]| && |interbank| == mk.nB
    ensures |r| == mk.nB
    decreases |mk.loans[f]| - k
  {
    var offers := Offers(mk, f);
    if k == |offers| then interbank
    else
      var a := TryOffer(mk, L, current, f, k, offers[k].0);
      var marked := TryMarks(mk, L, current, f, k, offers[k].0, interbank);
      if !a.ok || a.extended then marked
      else SearchMarks(mk, a.ledger, a.current, f, k + 1, marked)
  }

  /** The search keeps the balance sheets consistent and changes only the
      interbank tables; marks are only added, an unmarked bank keeps its
      current deposit, and the lender found is one of the firm's offers, no
      interbank lender, and still has room for the loan. */
  lemma {:induction false} SearchKeepsBooks(mk: Market, L: Ledger, current: Vector, f: int, k: nat,
                                            firmLent: Vector, interbank: seq<bool>)
    requires MarketOk(mk) && Shaped(L, mk.nF, mk.nB) && |current| == mk.nB
    requires 0 <= f < mk.nF && k <= |mk.loans[f]|
    requires BankBooks(L, mk.nB, firmLent, interbank, mk.maxCredit)
    ensures var s := SearchFrom(mk, L, current, f, k);
            var marked := SearchMarks(mk, L, current, f, k, interbank);
            && BankBooks(s.ledger, mk.nB, firmLent, marked, mk.maxCredit) && InterbankOnly(s.ledger, L)
            && (forall b :: 0 <= b < mk.nB && interbank[b] ==> marked[b])
            && (forall b :: 0 <= b < mk.nB && !marked[b] ==> s.current[b] == current[b])
            && (s.lender >= 0 ==> && (s.lender, s.rate) in mk.loans[f] && !marked[s.lender]
                                  && WithinCapacity(s.ledger, mk.nB, mk.maxCredit, s.lender, mk.demand[f]))
    decreases |mk.loans[f]| - k
  {
    var offers := Offers(mk, f);
    if k < |offers| {
      var a := TryOffer(mk, L, current, f, k, offers[k].0);
      var marked := TryMarks(mk, L, current, f, k, offers[k].0, interbank);
      TryKeepsBooks(mk, L, current, f, k, offers[k].0, firmLent, interbank);
      if a.ok && !a.extended {
        SearchKeepsBooks(mk, a.ledger, a.current, f, k + 1, firmLent, marked);
      }
    }
  }

  /** The bookkeeping after `Funded`: the lender found, if any, recorded
      and the loan added to what it lent to firms. */
  ghost function Booked(mk: Market, s: Search, bk: Books, f: int): (r: Books)
    requires MarketOk(mk) && 0 <= f < mk.nF && s.lender < mk.nB
    requires |bk.firmLent| == mk.nB && |bk.interbank| == mk.nB && |bk.lenders| == mk.nF
    ensures |r.firmLent| == mk.nB && |r.interbank| == mk.nB && |r.lenders| == mk.nF
    ensures forall g :: 0 <= g < mk.nF && g != f ==> r.lenders[g] == bk.lenders[g]
  {
    if s.lender < 0 then bk
    else Books(bk.firmLent[s.lender := bk.firmLent[s.lender] + mk.demand[f]], bk.interbank, bk.lenders[f := s.lender])
  }

  /** The bookkeeping after one pass of the firm loop for firm `f`. */
  ghost function StepBooks(mk: Market, L: Ledger, current: Vector, equity: Vector, f: int, bk: Books): (r: Books)
    requires MarketOk(mk) && Shaped(L, mk.nF, mk.nB) && |current| == mk.nB && |equity| == mk.nF
    requires 0 <= f < mk.nF && |bk.firmLent| == mk.nB && |bk.interbank| == mk.nB && |bk.lenders| == mk.nF
    ensures |r.firmLent| == mk.nB && |r.interbank| == mk.nB && |r.lenders| == mk.nF
    ensures forall g :: 0 <= g < mk.nF && g != f ==> r.lenders[g] == bk.lenders[g]
  {
    Booked(mk, SearchFrom(mk, L, current, f, 0), bk.(interbank := SearchMarks(mk, L, current, f, 0, bk.interbank)), f)
  }

  /** The search keeps the bookkeeping, with the interbank lenders it marks. */
  lemma SearchKept(mk: Market, L: Ledger, current: Vector, equity: Vector, f: int, bk: Books,
                   current0: Vector, equity0: Vector)
    requires MarketOk(mk) && 0 <= f < mk.nF
    requires Kept(mk, L, current, equity, bk, current0, equity0)
    ensures var s := SearchFrom(mk, L, current, f, 0);
            var marked := SearchMarks(mk, L, current, f, 0, bk.interbank);
            && Kept(mk, s.ledger, s.current, equity, bk.(interbank := marked), current0, equity0)
            && (s.lender >= 0 ==> && (s.lender, s.rate) in mk.loans[f] && !marked[s.lender]
                                  && WithinCapacity(s.ledger, mk.nB, mk.maxCredit, s.lender, mk.demand[f]))
  {
    var s := SearchFrom(mk, L, current, f, 0);
    SearchKeepsBooks(mk, L, current, f, 0, bk.firmLent, bk.interbank);
    InterbankKept(mk, L, current, equity, bk, current0, equity0,
                  s.ledger, s.current, SearchMarks(mk, L, current, f, 0, bk.interbank));
  }

  /** Interbank lending that keeps the balance sheets consistent, with the
      interbank lenders `marked`, and leaves the current deposits of the
      banks it does not mark alone, keeps the bookkeeping. */
  lemma InterbankKept(mk: Market, L: Ledger, current: Vector, equity: Vector, bk: Books,
                      current0: Vector, equity0: Vector, L2: Ledger, current2: Vector, marked: seq<bool>)
    requires MarketOk(mk) && Kept(mk, L, current, equity, bk, current0, equity0)
    requires Shaped(L2, mk.nF, mk.nB) && |current2| == mk.nB && |marked| == mk.nB && InterbankOnly(L2, L)
    requires BankBooks(L2, mk.nB, bk.firmLent, marked, mk.maxCredit)
    requires forall b :: 0 <= b < mk.nB && bk.interbank[b] ==> marked[b]
    requires forall b :: 0 <= b < mk.nB && !marked[b] ==> current2[b] == current[b]
    ensures Kept(mk, L2, current2, equity, bk.(interbank := marked), current0, equity0)
  {
    InterbankOnlyKeepsRows(L, L2, mk.nF, mk.nB, bk.lenders, mk.demand, mk.loans);
    assert L2.firmAmount == L.firmAmount;
  }

  /** Booking the loan of a firm without one from the lender the search
      found, with any change to the CDS tables alone that keeps the CDS book
      consistent (the protection round, whose outcome is `p`), keeps the
      bookkeeping, with the firm's lender recorded and the loan added to
      what the lender lent to firms. */
  lemma LoanKept(mk: Market, s: Search, equity: Vector, f: int, bk: Books, current0: Vector, equity0: Vector,
                 p: (bool, Ledger))
    requires MarketOk(mk) && 0 <= f < mk.nF && 0 <= s.lender < mk.nB
    requires Kept(mk, s.ledger, s.current, equity, bk, current0, equity0) && bk.lenders[f] == -1
    requires (s.lender, s.rate) in mk.loans[f] && !bk.interbank[s.lender]
    requires WithinCapacity(s.ledger, mk.nB, mk.maxCredit, s.lender, mk.demand[f])
    requires Shaped(p.1, mk.nF, mk.nB) && CdsOnly(p.1, BookLoan(s.ledger, mk.nF, mk.nB, f, s.lender, s.rate, mk.demand[f]))
    requires CdsBooks(p.1, mk.nF, mk.nB, bk.lenders[f := s.lender], mk.demand)
    ensures var st := Lent(s, equity, f, mk.demand[f], p);
            Kept(mk, st.ledger, st.current, st.equity, Booked(mk, s, bk, f), current0, equity0)
  {
    var lender, credit := s.lender, mk.demand[f];
    ChargeKept(mk, s.ledger, s.current, equity, f, lender, s.rate, bk, current0, equity0, p.1);
    assert Lent(s, equity, f, credit, p) == Step(p.0, p.1, Charge(s.current, lender, credit), equity[f := equity[f] + credit]);
    assert Booked(mk, s, bk, f)
           == Books(bk.firmLent[lender := bk.firmLent[lender] + credit], bk.interbank, bk.lenders[f := lender]);
  }

  /** `LoanKept` for the loan of firm `f` from `lender` at `rate`, with the
      lender's current deposit charged, the firm's equity credited and the
      tables after the protection round `L2`. */
  lemma ChargeKept(mk: Market, L: Ledger, current: Vector, equity: Vector, f: int, lender: int, rate: real,
                   bk: Books, current0: Vector, equity0: Vector, L2: Ledger)
    requires MarketOk(mk) && 0 <= f < mk.nF && 0 <= lender < mk.nB
    requires Kept(mk, L, current, equity, bk, current0, equity0) && bk.lenders[f] == -1
    requires (lender, rate) in mk.loans[f] && !bk.interbank[lender]
    requires WithinCapacity(L, mk.nB, mk.maxCredit, lender, mk.demand[f])
    requires Shaped(L2, mk.nF, mk.nB) && CdsOnly(L2, BookLoan(L, mk.nF, mk.nB, f, lender, rate, mk.demand[f]))
    requires CdsBooks(L2, mk.nF, mk.nB, bk.lenders[f := lender], mk.demand)
    ensures var credit := mk.demand[f];
            Kept(mk, L2, Charge(current, lender, credit), equity[f := equity[f] + credit],
                 Books(bk.firmLent[lender := bk.firmLent[lender] + credit], bk.interbank, bk.lenders[f := lender]),
                 current0, equity0)
  {
    LoanKeepsTables(L, mk.nF, mk.nB, f, lender, rate, mk.demand[f], bk, mk.maxCredit, mk.demand, mk.loans, L2);
  }

  /** Booking the loan, and then changing the CDS tables alone, keeps the
      balance sheets and the firm loans consistent with the loan recorded. */
  lemma LoanKeepsTables(L: Ledger, nF: nat, nB: nat, f: int, lender: int, rate: real, credit: real, bk: Books,
                        maxCredit: Vector, demand: Vector, loans: seq<seq<(int, real)>>, L2: Ledger)
    requires Shaped(L, nF, nB) && |maxCredit| == nB && |demand| == nF && |loans| == nF
    requires |bk.lenders| == nF && |bk.interbank| == nB
    requires 0 <= f < nF && 0 <= lender < nB && bk.lenders[f] == -1 && !bk.interbank[lender]
    requires BankBooks(L, nB, bk.firmLent, bk.interbank, maxCredit) && bk.firmLent == ColSums(L.firmAmount, nB)
    requires FirmRows(L, nF, nB, bk.lenders, demand, loans)
    requires credit == demand[f] && credit >= 0.0 && (lender, rate) in loans[f]
    requires WithinCapacity(L, nB, maxCredit, lender, credit)
    requires Shaped(L2, nF, nB) && CdsOnly(L2, BookLoan(L, nF, nB, f, lender, rate, credit))
    ensures var firmLent := bk.firmLent[lender := bk.firmLent[lender] + credit];
            && BankBooks(L2, nB, firmLent, bk.interbank, maxCredit) && firmLent == ColSums(L2.firmAmount, nB)
            && FirmRows(L2, nF, nB, bk.lenders[f := lender], demand, loans)
  {
    var booked := BookLoan(L, nF, nB, f, lender, rate, credit);
    var firmLent := bk.firmLent[lender := bk.firmLent[lender] + credit];
    BookLoanKeepsBankBooks(L, nF, nB, f, lender, rate, credit, bk.firmLent, bk.interbank, maxCredit);
    BookLoanColSums(L, nF, nB, f, lender, rate, credit, bk.firmLent);
    BookLoanKeepsFirmRows(L, nF, nB, f, lender, rate, credit, bk.lenders, demand, loans);
    CdsOnlyKeepsBooks(booked, L2, nF, nB, firmLent, bk.interbank, maxCredit, bk.lenders[f := lender], demand, loans);
  }

  /** The protection round after the search's lender is booked keeps the
      CDS book consistent, with that lender recorded for the firm. */
  lemma ProtectedAfterSearch(mk: Market, s: Search, f: int, lenders: seq<int>) returns (p: (bool, Ledger))
    requires MarketOk(mk) && Shaped(s.ledger, mk.nF, mk.nB) && 0 <= f < mk.nF && 0 <= s.lender < mk.nB
    requires |lenders| == mk.nF && CdsBooks(s.ledger, mk.nF, mk.nB, lenders, mk.demand) && lenders[f] == -1
    ensures p == Protected(mk, BookLoan(s.ledger, mk.nF, mk.nB, f, s.lender, s.rate, mk.demand[f]), f, s.lender, s.rate)
    ensures Shaped(p.1, mk.nF, mk.nB) && CdsOnly(p.1, BookLoan(s.ledger, mk.nF, mk.nB, f, s.lender, s.rate, mk.demand[f]))
    ensures CdsBooks(p.1, mk.nF, mk.nB, lenders[f := s.lender], mk.demand)
  {
    var credit := mk.demand[f];
    var booked := BookLoan(s.ledger, mk.nF, mk.nB, f, s.lender, s.rate, credit);
    BookLoanKeepsCdsBooks(s.ledger, mk.nF, mk.nB, f, s.lender, s.rate, credit, lenders, mk.demand);
    ProtectedKeepsBooks(mk, booked, f, s.lender, s.rate, lenders[f := s.lender]);
    p := Protected(mk, booked, f, s.lender, s.rate);
  }

  /** One pass of the firm loop keeps the bookkeeping. */
  lemma StepKept(mk: Market, L: Ledger, current: Vector, equity: Vector, f: int, bk: Books,
                 current0: Vector, equity0: Vector)
    requires MarketOk(mk) && 0 <= f < mk.nF
    requires Kept(mk, L, current, equity, bk, current0, equity0) && bk.lenders[f] == -1
    ensures var st := FundStep(mk, L, current, equity, f);
            Kept(mk, st.ledger, st.current, st.equity, StepBooks(mk, L, current, equity, f, bk), current0, equity0)
  {
    SearchKept(mk, L, current, equity, f, bk, current0, equity0);
    var s := SearchFrom(mk, L, current, f, 0);
    var marked := bk.(interbank := SearchMarks(mk, L, current, f, 0, bk.interbank));
    assert FundStep(mk, L, current, equity, f) == Funded(mk, s, equity, f);
    assert StepBooks(mk, L, current, equity, f, bk) == Booked(mk, s, marked, f);
    if s.lender >= 0 {
      var p := ProtectedAfterSearch(mk, s, f, bk.lenders);
      FundedIsLent(mk, s, equity, f, p);
      LoanKept(mk, s, equity, f, marked, current0, equity0, p);
    } else {
      assert Booked(mk, s, marked, f) == marked;
    }
  }

  /** The bookkeeping after the firm loop from firm `f` on, as `FundFrom`
      runs it. */
  ghost function FromBooks(mk: Market, L: Ledger, current: Vector, equity: Vector, f: nat, bk: Books): Books
    requires MarketOk(mk) && Shaped(L, mk.nF, mk.nB) && |current| == mk.nB && |equity| == mk.nF && f <= mk.nF
    requires |bk.firmLent| == mk.nB && |bk.interbank| == mk.nB && |bk.lenders| == mk.nF
    decreases mk.nF - f
  {
    if f == mk.nF then bk
    else
      var st := FundStep(mk, L, current, equity, f);
      var bk1 := StepBooks(mk, L, current, equity, f, bk);
      if !st.ok then bk1 else FromBooks(mk, st.ledger, st.current, st.equity, f + 1, bk1)
  }

  /** One pass of `FundFrom`: the step for firm `f`, then the rest of the
      loop if it did not raise. */
  lemma FundFromStep(mk: Market, L: Ledger, current: Vector, equity: Vector, f: nat)
    requires MarketOk(mk) && Shaped(L, mk.nF, mk.nB) && |current| == mk.nB && |equity| == mk.nF && f < mk.nF
    ensures var st := FundStep(mk, L, current, equity, f);
            FundFrom(mk, L, current, equity, f) == if !st.ok then st else FundFrom(mk, st.ledger, st.current, st.equity, f + 1)
  {}

  /** One pass of `FromBooks`, in step with `FundFromStep`. */
  lemma FromBooksStep(mk: Market, L: Ledger, current: Vector, equity: Vector, f: nat, bk: Books)
    requires MarketOk(mk) && Shaped(L, mk.nF, mk.nB) && |current| == mk.nB && |equity| == mk.nF && f < mk.nF
    requires |bk.firmLent| == mk.nB && |bk.interbank| == mk.nB && |bk.lenders| == mk.nF
    ensures var st := FundStep(mk, L, current, equity, f);
            var bk1 := StepBooks(mk, L, current, equity, f, bk);
            FromBooks(mk, L, current, equity, f, bk) == if !st.ok then bk1 else FromBooks(mk, st.ledger, st.current, st.equity, f + 1, bk1)
  {}

  /** The state of the firm loop at firm `f`, no firm from `f` on funded
      yet, with the bookkeeping kept: `done` is the state `FundFrom` reaches
      from there and `booked` the bookkeeping `FromBooks` gives. The last two
      are stated for every firm index equal to `f`, so that they are used
      only where a term of `FundFrom` or `FromBooks` at that state is
      already present. */
  ghost predicate Ongoing(mk: Market, L: Ledger, current: Vector, equity: Vector, f: nat, bk: Books,
                          current0: Vector, equity0: Vector, done: Step, booked: Books)
  {
    && MarketOk(mk) && f <= mk.nF && Kept(mk, L, current, equity, bk, current0, equity0)
    && (forall g :: f <= g < mk.nF ==> bk.lenders[g] == -1)
    && (forall n :: n == f ==> done == FundFrom(mk, L, current, equity, n))
    && (forall n :: n == f ==> booked == FromBooks(mk, L, current, equity, n, bk))
  }

  /** From an `Ongoing` state at firm `f`, the loop reaches what it
      reaches after the pass for firm `f`, or that pass if it raised. */
  lemma OngoingFrom(mk: Market, L: Ledger, current: Vector, equity: Vector, f: nat, bk: Books,
                    current0: Vector, equity0: Vector, done: Step, booked: Books)
    returns (st: Step, bk1: Books)
    requires Ongoing(mk, L, current, equity, f, bk, current0, equity0, done, booked) == true && f < mk.nF
    ensures st == FundStep(mk, L, current, equity, f) && bk1 == StepBooks(mk, L, current, equity, f, bk)
    ensures && done == (if !st.ok then st else FundFrom(mk, st.ledger, st.current, st.equity, f + 1))
            && booked == (if !st.ok then bk1 else FromBooks(mk, st.ledger, st.current, st.equity, f + 1, bk1))
  {
    assert done == FundFrom(mk, L, current, equity, f) && booked == FromBooks(mk, L, current, equity, f, bk);
    st := FundStep(mk, L, current, equity, f);
    bk1 := StepBooks(mk, L, current, equity, f, bk);
    FundFromStep(mk, L, current, equity, f);
    FromBooksStep(mk, L, current, equity, f, bk);
  }

  /** The pass for firm `f` from an `Ongoing` state keeps the bookkeeping,
      and funds no later firm. */
  lemma OngoingKept(mk: Market, L: Ledger, current: Vector, equity: Vector, f: nat, bk: Books,
                    current0: Vector, equity0: Vector, done: Step, booked: Books)
    requires Ongoing(mk, L, current, equity, f, bk, current0, equity0, done, booked) == true && f < mk.nF
    ensures var st := FundStep(mk, L, current, equity, f);
            var bk1 := StepBooks(mk, L, current, equity, f, bk);
            && Kept(mk, st.ledger, st.current, st.equity, bk1, current0, equity0) == true
            && (forall g :: f + 1 <= g < mk.nF ==> bk1.lenders[g] == -1)
  {
    StepKept(mk, L, current, equity, f, bk, current0, equity0);
  }

  /** The state after a pass that did not raise is again `Ongoing`, at the
      next firm. */
  lemma OngoingNext(mk: Market, L: Ledger, current: Vector, equity: Vector, f: nat, bk: Books,
                    current0: Vector, equity0: Vector, done: Step, booked: Books, st: Step, bk1: Books)
    requires Ongoing(mk, L, current, equity, f, bk, current0, equity0, done, booked) == true && f < mk.nF
    requires Shaped(st.ledger, mk.nF, mk.nB) && |st.current| == mk.nB && |st.equity| == mk.nF
    requires |bk1.firmLent| == mk.nB && |bk1.interbank| == mk.nB && |bk1.lenders| == mk.nF
    requires Kept(mk, st.ledger, st.current, st.equity, bk1, current0, equity0) == true
    requires forall g :: f + 1 <= g < mk.nF ==> bk1.lenders[g] == -1
    requires forall n :: n == f + 1 ==> done == FundFrom(mk, st.ledger, st.current, st.equity, n)
    requires forall n :: n == f + 1 ==> booked == FromBooks(mk, st.ledger, st.current, st.equity, n, bk1)
    ensures Ongoing(mk, st.ledger, st.current, st.equity, f + 1, bk1, current0, equity0, done, booked) == true
  {}

  /** One pass of the firm loop from an `Ongoing` state at firm `f < nF`:
      either the pass raised and the bookkeeping is kept, or the loop goes
      on from firm `f + 1` with the state `st` and bookkeeping `bk1` of the
      pass. */
  lemma StepFacts(mk: Market, L: Ledger, current: Vector, equity: Vector, f: nat, bk: Books,
                  current0: Vector, equity0: Vector, done: Step, booked: Books)
    returns (go: bool, st: Step, bk1: Books)
    requires Ongoing(mk, L, current, equity, f, bk, current0, equity0, done, booked) == true && f < mk.nF
    ensures !go ==> Kept(mk, done.ledger, done.current, done.equity, booked, current0, equity0) == true
    ensures go ==> Ongoing(mk, st.ledger, st.current, st.equity, f + 1, bk1, current0, equity0, done, booked) == true
  {
    st, bk1 := OngoingFrom(mk, L, current, equity, f, bk, current0, equity0, done, booked);
    OngoingKept(mk, L, current, equity, f, bk, current0, equity0, done, booked);
    go := st.ok;
    if go {
      HideFrom(mk, st.ledger, st.current, st.equity, f + 1, bk1, done, booked);
      OngoingNext(mk, L, current, equity, f, bk, current0, equity0, done, booked, st, bk1);
    }
  }

  /** The equations `done == FundFrom(..)` and `booked == FromBooks(..)` at
      firm `f`, stated for every firm index equal to `f` (the form `Ongoing`
      keeps them in, where they are used only where a term of the same
      function at the same state is already present). */
  lemma HideFrom(mk: Market, L: Ledger, current: Vector, equity: Vector, f: nat, bk: Books, done: Step, booked: Books)
    requires MarketOk(mk) && Shaped(L, mk.nF, mk.nB) && |current| == mk.nB && |equity| == mk.nF && f <= mk.nF
    requires |bk.firmLent| == mk.nB && |bk.interbank| == mk.nB && |bk.lenders| == mk.nF
    requires done == FundFrom(mk, L, current, equity, f) && booked == FromBooks(mk, L, current, equity, f, bk)
    ensures forall n :: n == f ==> done == FundFrom(mk, L, current, equity, n)
    ensures forall n :: n == f ==> booked == FromBooks(mk, L, current, equity, n, bk)
  {}

  /** The firm loop is over at the last firm: the bookkeeping is kept. */
  lemma OngoingEnd(mk: Market, L: Ledger, current: Vector, equity: Vector, f: nat, bk: Books,
                   current0: Vector, equity0: Vector, done: Step, booked: Books)
    requires Ongoing(mk, L, current, equity, f, bk, current0, equity0, done, booked) == true && f == mk.nF
    ensures Kept(mk, done.ledger, done.current, done.equity, booked, current0, equity0) == true
  {
    assert done == FundFrom(mk, L, current, equity, f) && booked == FromBooks(mk, L, current, equity, f, bk);
  }

  /** One pass of the firm loop from firm `f`: either the loop is over (no
      firm left, or the pass raised) and the bookkeeping is kept, or it goes
      on from firm `f + 1` with the state `st` and bookkeeping `bk1` of the
      pass. */
  lemma FromCases(mk: Market, L: Ledger, current: Vector, equity: Vector, f: nat, bk: Books,
                  current0: Vector, equity0: Vector, done: Step, booked: Books)
    returns (go: bool, st: Step, bk1: Books)
    requires Ongoing(mk, L, current, equity, f, bk, current0, equity0, done, booked) == true
    ensures !go ==> Kept(mk, done.ledger, done.current, done.equity, booked, current0, equity0) == true
    ensures go ==> f < mk.nF && Ongoing(mk, st.ledger, st.current, st.equity, f + 1, bk1, current0, equity0, done, booked) == true
  {
    if f == mk.nF {
      go, st, bk1 := false, done, booked;
      OngoingEnd(mk, L, current, equity, f, bk, current0, equity0, done, booked);
    } else {
      go, st, bk1 := StepFacts(mk, L, current, equity, f, bk, current0, equity0, done, booked);
    }
  }

  /** The firm loop from an `Ongoing` state keeps the bookkeeping. */
  lemma {:induction false} FromKept(mk: Market, L: Ledger, current: Vector, equity: Vector, f: nat, bk: Books,
                                    current0: Vector, equity0: Vector, done: Step, booked: Books)
    requires Ongoing(mk, L, current, equity, f, bk, current0, equity0, done, booked) == true
    ensures Kept(mk, done.ledger, done.current, done.equity, booked, current0, equity0) == true
    decreases mk.nF - f
  {
    var go, st, bk1 := FromCases(mk, L, current, equity, f, bk, current0, equity0, done, booked);
    if go {
      FromKept(mk, st.ledger, st.current, st.equity, f + 1, bk1, current0, equity0, done, booked);
    }
  }

  /** The bookkeeping before any firm is funded. */
  function StartBooks(nF: nat, nB: nat): (bk: Books)
    ensures |bk.firmLent| == nB && |bk.interbank| == nB && |bk.lenders| == nF
    ensures forall b :: 0 <= b < nB ==> bk.firmLent[b] == 0.0 && !bk.interbank[b]
    ensures forall g :: 0 <= g < nF ==> bk.lenders[g] == -1
  {
    Books(Zeros(nB), seq(nB, b => false), seq(nF, g => -1))
  }

  /** The firm loop is in an `Ongoing` state at firm `f` when the books
      keep the bookkeeping, no firm from `f` on is funded yet, and `done` and
      `booked` are what the loop reaches from there. */
  lemma MakeOngoing(mk: Market, L: Ledger, current: Vector, equity: Vector, f: nat, bk: Books,
                    current0: Vector, equity0: Vector, done: Step, booked: Books)
    requires MarketOk(mk) && f <= mk.nF && Kept(mk, L, current, equity, bk, current0, equity0) == true
    requires forall g :: f <= g < mk.nF ==> bk.lenders[g] == -1
    requires forall n :: n == f ==> done == FundFrom(mk, L, current, equity, n)
    requires forall n :: n == f ==> booked == FromBooks(mk, L, current, equity, n, bk)
    ensures Ongoing(mk, L, current, equity, f, bk, current0, equity0, done, booked) == true
  {}

  /** The empty ledger keeps the bookkeeping. */
  lemma EmptyKept(mk: Market, current0: Vector, equity0: Vector)
    requires MarketOk(mk) && |current0| == mk.nB && |equity0| == mk.nF
    ensures Kept(mk, EmptyLedger(mk.nF, mk.nB), current0, equity0, StartBooks(mk.nF, mk.nB), current0, equity0) == true
  {
    EmptyLedgerBooks(mk.nF, mk.nB, mk.maxCredit, mk.demand, mk.loans);
  }

  /** What the bookkeeping says about the tables once the firm loop is
      over: the firm loans, the firms' equity, the balance sheets, the
      current deposits of the banks that never lent on the interbank market,
      and the CDS book. */
  lemma KeptBooks(mk: Market, L: Ledger, current: Vector, equity: Vector, bk: Books, current0: Vector, equity0: Vector)
    requires MarketOk(mk) && Kept(mk, L, current, equity, bk, current0, equity0) == true
    ensures FirmRows(L, mk.nF, mk.nB, bk.lenders, mk.demand, mk.loans)
    ensures forall g :: 0 <= g < mk.nF ==> equity[g] == equity0[g] + RowSums(L.firmAmount)[g]
    ensures BankBooks(L, mk.nB, ColSums(L.firmAmount, mk.nB), bk.interbank, mk.maxCredit)
    ensures forall b :: 0 <= b < mk.nB && !bk.interbank[b] ==> current[b] == current0[b] - ColSums(L.firmAmount, mk.nB)[b]
    ensures CdsBooks(L, mk.nF, mk.nB, bk.lenders, mk.demand)
  {
    forall g | 0 <= g < mk.nF ensures equity[g] == equity0[g] + RowSums(L.firmAmount)[g] {
      RowSumsOfLoans(L, mk.nF, mk.nB, bk.lenders, mk.demand, mk.loans, g);
    }
  }

  /** The books the firm loop leaves from the empty ledger, `done`: the firm
      loans as `lenders` names them, the firms' equity, the balance sheets
      with the banks in `interbank` the interbank lenders, the current
      deposits of the other banks, and the CDS book. */
  lemma NetworkBooks(mk: Market, current0: Vector, equity0: Vector, done: Step)
    returns (lenders: seq<int>, interbank: seq<bool>)
    requires MarketOk(mk) && |current0| == mk.nB && |equity0| == mk.nF
    requires done == FundFrom(mk, EmptyLedger(mk.nF, mk.nB), current0, equity0, 0)
    ensures Shaped(done.ledger, mk.nF, mk.nB) && |done.current| == mk.nB && |done.equity| == mk.nF
    ensures FirmRows(done.ledger, mk.nF, mk.nB, lenders, mk.demand, mk.loans)
    ensures forall g :: 0 <= g < mk.nF ==> done.equity[g] == equity0[g] + RowSums(done.ledger.firmAmount)[g]
    ensures BankBooks(done.ledger, mk.nB, ColSums(done.ledger.firmAmount, mk.nB), interbank, mk.maxCredit)
    ensures forall b :: 0 <= b < mk.nB && !interbank[b] ==>
              done.current[b] == current0[b] - ColSums(done.ledger.firmAmount, mk.nB)[b]
    ensures CdsBooks(done.ledger, mk.nF, mk.nB, lenders, mk.demand)
  {
    var booked := FromBooks(mk, EmptyLedger(mk.nF, mk.nB), current0, equity0, 0, StartBooks(mk.nF, mk.nB));
    EmptyKept(mk, current0, equity0);
    HideFrom(mk, EmptyLedger(mk.nF, mk.nB), current0, equity0, 0, StartBooks(mk.nF, mk.nB), done, booked);
    MakeOngoing(mk, EmptyLedger(mk.nF, mk.nB), current0, equity0, 0, StartBooks(mk.nF, mk.nB), current0, equity0,
                done, booked);
    FromKept(mk, EmptyLedger(mk.nF, mk.nB), current0, equity0, 0, StartBooks(mk.nF, mk.nB), current0, equity0,
             done, booked);
    KeptBooks(mk, done.ledger, done.current, done.equity, booked, current0, equity0);
    lenders, interbank := booked.lenders, booked.interbank;
  }

  /** `create_network_connections`, run by `FundFrom` from the empty ledger.
      `ok` is false where the source raises (`random.choices` with no other
      bank, `np.random.choice` with more requests than sellers); the arrays
      then hold what was done up to that point. The ghost `lenders` names
      each firm's lender (-1 for none) and `interbank` the banks that lent on
      the interbank market. */
  method CreateNetworkConnections(loansByFirm: seq<seq<(int, real)>>, cal: Calibration, numFirms: nat, numBanks: nat,
                                  creditDemand: Vector, maxCredit: Vector, deposits: Vector,
                                  currentDeposit: array<real>, firmEquity: array<real>, pd: Vector,
                                  bankEquity: Vector, tanh: real -> real, draws: Draws)
    returns (ok: bool, L: Ledger, ghost lenders: seq<int>, ghost interbank: seq<bool>)
    requires |loansByFirm| == numFirms && |creditDemand| == numFirms && |pd| == numFirms
    requires |maxCredit| == numBanks && |deposits| == numBanks && |bankEquity| == numBanks
    requires currentDeposit.Length == numBanks && firmEquity.Length == numFirms && currentDeposit != firmEquity
    requires forall f, k :: 0 <= f < numFirms && 0 <= k < |loansByFirm[f]| ==> 0 <= loansByFirm[f][k].0 < numBanks
    requires forall f :: 0 <= f < numFirms ==> creditDemand[f] >= 0.0
    requires forall b :: 0 <= b < numBanks ==> deposits[b] != 0.0
    requires cal.policyRate != -1.0
    modifies currentDeposit, firmEquity
    ensures var mk := Market(numFirms, numBanks, loansByFirm, creditDemand, cal, deposits, maxCredit, pd,
                             bankEquity, tanh, draws);
            Step(ok, L, currentDeposit[..], firmEquity[..]) ==
            FundFrom(mk, EmptyLedger(numFirms, numBanks), old(currentDeposit[..]), old(firmEquity[..]), 0)
    ensures Shaped(L, numFirms, numBanks)
    ensures FirmRows(L, numFirms, numBanks, lenders, creditDemand, loansByFirm)
    ensures forall f :: 0 <= f < numFirms ==> firmEquity[f] == old(firmEquity[f]) + RowSums(L.firmAmount)[f]
    ensures BankBooks(L, numBanks, ColSums(L.firmAmount, numBanks), interbank, maxCredit)
    ensures forall b :: 0 <= b < numBanks && !interbank[b] ==>
              currentDeposit[b] == old(currentDeposit[b]) - ColSums(L.firmAmount, numBanks)[b]
    ensures CdsBooks(L, numFirms, numBanks, lenders, creditDemand)
  {
    var mk := Market(numFirms, numBanks, loansByFirm, creditDemand, cal, deposits, maxCredit, pd,
                     bankEquity, tanh, draws);
    L := EmptyLedger(numFirms, numBanks);
    ok := true;
    var f := 0;
    while f < numFirms && ok
      invariant 0 <= f <= numFirms && Shaped(L, numFirms, numBanks)
      invariant FundFrom(mk, EmptyLedger(numFirms, numBanks), old(currentDeposit[..]), old(firmEquity[..]), 0) ==
                if ok then FundFrom(mk, L, currentDeposit[..], firmEquity[..], f)
                else Step(false, L, currentDeposit[..], firmEquity[..])
    {
      ok, L := FundFirm(mk, L, f, currentDeposit, firmEquity);
      f := f + 1;
    }
    lenders, interbank := NetworkBooks(mk, old(currentDeposit[..]), old(firmEquity[..]),
                                       Step(ok, L, currentDeposit[..], firmEquity[..]));
  }

  /** `check_cds` for the seller of an offer, against the balance sheets as
      they stand before the firm's contracts are entered. */
  predicate Affordable(L: Ledger, nB: nat, deposits: Vector, bankEquity: Vector, credit: real, o: (int, real)) {
    && 0 <= o.0 < nB && |L.loanLiability| == nB && |L.loanAsset| == nB && |L.cdsAsset| == nB
    && |deposits| == nB && |bankEquity| == nB
    && CheckCds(deposits[o.0], L.loanLiability[o.0], L.loanAsset[o.0], bankEquity[o.0], L.cdsAsset[o.0], o.1 * credit)
  }

  /** A seller that can afford to write protection at one spread can afford
      it at any lower spread. */
  lemma AffordableCheaper(L: Ledger, nB: nat, deposits: Vector, bankEquity: Vector, credit: real,
                          o: (int, real), spread: real)
    requires Affordable(L, nB, deposits, bankEquity, credit, o) && credit >= 0.0 && spread <= o.1
    ensures Affordable(L, nB, deposits, bankEquity, credit, (o.0, spread))
  {
    assert spread * credit <= o.1 * credit;
    CheckCdsMonotone(deposits[o.0], L.loanLiability[o.0], L.loanAsset[o.0], bankEquity[o.0], L.cdsAsset[o.0],
                     o.1 * credit, spread * credit);
  }
}

# Credit network and default clearing of an agent-based banking model

This project is a Dafny model of the one-period engine of an agent-based
model of firms and banks. The engine has four parts:

- Loan matching. Firms pick banks to ask for credit, and banks price the
  requests. Each firm takes the cheapest loan a bank can extend. If the bank
  lacks liquidity, it first borrows on the interbank market.
- CDS matching. Protection on a new loan may be bought by the lender
  (covered) and by other banks (naked). Each buyer asks some randomly
  chosen sellers and takes the cheapest offer the seller can afford.
- Firm default resolution. Production is clamped to what equity pays for
  and a random share of the supply is sold. Firms that cannot repay
  default, and their loans are settled at a recovery rate.
- Interbank clearing. The liability matrix is built from interbank loans,
  CDS premia and CDS payouts on defaulted firms. The Eisenberg–Noe
  fictitious-default iteration decides which banks default, and equity and
  deposits are updated.

Alongside these the model covers the supply and price update of the firms,
the wage adjustment, the firm shuffle, loan priorities, sparse row
extraction and `merge_dict`.

Modules, one per source concern:

- `Vectors`: vectors and matrices of reals (`numpy` arrays), with sums and
  `numpy.maximum`/`numpy.minimum` on one entry.
- `Clearing`: `helpers.fictitious_default`. The clearing loop is a `while`
  loop over an array, proved against the recursive function `Iterate`.
- `Interbank`: `clear_interbank_market`. The liability matrix, the clearing,
  the default set and the in-place update of the three bank arrays.
- `FirmDefault`: `clear_firm_default`.
- `BankPricing`: `asses_loan_requests_firms`, `asses_interbank_loans`,
  `provide_cds_spread`, `check_cds`.
- `FirmSelection`: `check_loan_desire_and_choose_loans`,
  `get_loan_priority`, `shuffle_firms`, `get_non_zero_values_from_matrix`.
- `CdsOffers`, `CdsRecords`, `Network`: `create_network_connections`. The
  tables it builds are the fields of a `Ledger`. The two vectors the caller
  sees updated, current deposits and firm equity, are arrays.
- `SupplyPrice`: `compute_expected_supply_price`.
- `MarketAdjustments`: the ranges of the uniform draws and `wages_adj`.
- `MergeDict`: `merge_dict`.
- `Sorting`, `Permutations`, `Options`: stable sorting by a key,
  permutations of `0..n-1`, and an option type.

Every random draw of the source (`numpy.random.*`, `random.choices`) is a
parameter: a function or sequence of draws. Where the source's draws fall in
a known range, a predicate states that range and the lemmas assume it.
`tanh` is a function parameter. The lemmas that need it assume `TanhLike`:
values in (-1, 1), and non-negative for non-negative arguments.

The model follows the code as written in four places where the code and
its comments or documentation disagree:

- The interbank acceptance test (`create_network_connections.py:112-120`)
  accepts a lender only when the loan would take it ABOVE its maximum
  credit. `Network.BankBooks` states this as an invariant: every interbank
  lender's loan assets exceed its maximum credit.
- There is no `break` in the interbank loop. Every acceptable interbank
  offer is taken, and each lender's current deposit is charged the firm's
  credit, not the interbank amount (line 126).
- `asses_loan_requests_firms` reads the default probability and fragility at
  the bank's index (`banks.py:38-39`).
  `BankPricing.RateIgnoresBorrower` proves that two firms asking the same
  bank with the same draws get the same rate.
- `get_loan_priority` writes `argsort + 1` into the non-zero positions, not
  the rank of each entry. `FirmSelection.PriorityIsArgsortNotRank` shows
  the difference on `[30, 10, 20]`: the result is `[2, 3, 1]`, while the
  ranks would be `[3, 1, 2]`.

## Model

| member | source | states |
|---|---|---|
| Clearing.Relative | helpers.py:14-16 | each row of the relative-liability matrix times the bank's total obligations gives back its liabilities, and a bank that owes nothing has a zero row |
| Clearing.RelativeRowSum | helpers.py:14-16 | each row of the relative-liability matrix sums to 1, or to 0 where the bank owes nothing |
| Clearing.RelativeNonNegative | helpers.py:14-16 | non-negative liabilities give a non-negative relative-liability matrix |
| Clearing.Iterate | helpers.py:20-26 | the clearing outcome's payments are one round after its previous vector, and it is converged exactly when that round moved every payment by less than 1e-6 |
| Clearing.ApplyRound | helpers.py:21-24 | the in-place round turns the payment array into the round of its old contents |
| Clearing.RunClearing | helpers.py:19-26 | the `while` loop starting from the row sums returns exactly the outcome of `Iterate` with the same budget |
| Clearing.FictitiousDefault | helpers.py:6-27 | the returned payments are the clearing outcome for the row sums and relative liabilities of `L`, and no bank pays more than its row sum |
| Clearing.RoundReplacesExactlyDefaulters | helpers.py:21-24 | a bank whose wealth is below its obligations pays that wealth, and every other bank's payment is unchanged |
| Clearing.RoundBounded | helpers.py:21-24 | a round keeps payments at most the obligations |
| Clearing.IterateBounded | helpers.py:19-26 | every payment vector the iteration produces is at most the obligations |
| Clearing.WealthMonotone | helpers.py:21 | with non-negative relative liabilities, lower payments never raise any bank's wealth |
| Clearing.DescendingInitially | helpers.py:19 | the starting vector, the obligations themselves, satisfies the descent invariant |
| Clearing.RoundDescends | helpers.py:21-24 | a round lowers no payment, never shrinks the default set, and keeps the descent invariant |
| Clearing.IterateDescends | helpers.py:19-26 | over the whole iteration, payments only fall and the default set only grows |
| Clearing.ZeroLiabilities | helpers.py:14-26 | with no liabilities the iteration converges and each bank pays its negative initial wealth, or 0 |
| Clearing.Conservation | helpers.py:14-21 | the total received through the relative-liability matrix equals the total paid by banks that owe something |
| Interbank.BuildLiabilities | abm_vec/clear_interbank_market.py:42-55 | the loop over defaulted firms builds the liability matrix of loans, premia and protection payouts |
| Interbank.LiabilityEntry | abm_vec/clear_interbank_market.py:43-55 | entry (i, j) is loan principal with interest, plus CDS premia, plus the protection that seller i owes buyer j |
| Interbank.ProtectionRunsSellerToBuyer | abm_vec/clear_interbank_market.py:49-55 | a non-zero protection payout from i to j exists only where some defaulted firm's record pairs seller i with buyer j |
| Interbank.ProtectionPayoutExample | abm_vec/clear_interbank_market.py:49-55 | a seller owes its buyer 600 on a 1000 contract on a firm that recovered 40% |
| Interbank.InitialWealth | abm_vec/clear_interbank_market.py:66-67 | a bank's initial wealth is its equity plus its firm-loan proceeds, lowered by its deposit change only when that change is negative |
| Interbank.Earnings | abm_vec/clear_interbank_market.py:80-86 | a bank's earnings are the clearing wealth at the final payments less its own payment |
| Interbank.FixedPointEarnings | abm_vec/clear_interbank_market.py:68-86 | at a fixed point of the rounds with payments at most the obligations, no bank's earnings are negative, and a defaulter's are zero |
| Interbank.MoneyForDeposits | abm_vec/clear_interbank_market.py:88-90 | the deposit outflow a bank must cover is its deposits less its current deposit, lowered by its deposit change only when that change is positive |
| Interbank.Settle | abm_vec/clear_interbank_market.py:97-111 | after settlement a bank's deposits are its current deposit plus any deposit inflow; a defaulter has zero equity and its earnings added to its current deposit; for a survivor, the new equity plus the new current deposit equal the old current deposit plus its earnings (the earnings already hold the old equity), and the current deposit takes the outflow |
| Interbank.SurvivorKeepsDeposits | abm_vec/clear_interbank_market.py:104-111 | a surviving bank ends with non-negative equity and its deposits restored |
| Interbank.DefaultUnion | abm_vec/clear_interbank_market.py:91-95 | the default set is the ascending union of the fixed-point defaulters and the banks whose earnings fall short of their deposit needs |
| Interbank.SettleAll | abm_vec/clear_interbank_market.py:97-111 | every bank is settled in place: defaulters get zero equity and their earnings go to deposits, and survivors keep their deposits |
| Interbank.ClearInterbankMarket | abm_vec/clear_interbank_market.py:5-118 | the liabilities, the clearing, the default set and the new equity and deposits of every bank; nothing changes if the clearing does not converge within the budget |
| Interbank.SingleHopContagion | abm_vec/clear_interbank_market.py:57-86 | bank A owes B 50 but has 30: A defaults, pays 30, and B's earnings fall 20 short of the nominal claim |
| FirmDefault.WageBill | abm_vec/clear_firm_default.py:38-43 | the wage bill never exceeds equity or the planned wages, and equals equity when the planned wages exceed it |
| FirmDefault.Share | abm_vec/clear_firm_default.py:44-54 | the consumption share lies between the minimum and maximum consumption |
| FirmDefault.AfterSales | abm_vec/clear_firm_default.py:42-55 | the equity after wages and sales is non-negative |
| FirmDefault.Recovery | abm_vec/clear_firm_default.py:61-65 | a defaulter's recovery rate is in [0, 1) and repays exactly its equity; a solvent firm's rate is 1 |
| FirmDefault.Remaining | abm_vec/clear_firm_default.py:67 | a defaulter is left with nothing, and a solvent firm keeps its equity minus what it owed |
| FirmDefault.Repayment | abm_vec/clear_firm_default.py:59-66 | one firm pays each bank its recovery rate times that bank's claim (1 + r)·a, and the payments add up to the rate times its whole debt |
| FirmDefault.Repayments | abm_vec/clear_firm_default.py:59-66 | bank j gets back from firm i the firm's recovery rate times its own claim (1 + r_ij)·a_ij, so the repayments are pro rata; a firm's repayments add up to its recovery rate times what it owes |
| FirmDefault.WageBills | abm_vec/clear_firm_default.py:38-39 | each firm's wage bill is clamped to its equity |
| FirmDefault.Production | abm_vec/clear_firm_default.py:38-40 | a firm that cannot pay its wages produces what its equity buys; otherwise it keeps its supply |
| FirmDefault.Unsold | abm_vec/clear_firm_default.py:56 | the excess supply is the share of the supply that is not consumed |
| FirmDefault.SettleLoans | abm_vec/clear_firm_default.py:58-67 | the ascending default set holds exactly the firms that cannot repay; recovery and remaining equity match, and the repayment matrix is `Repayments` of the recovery rates: each bank is repaid pro rata to its claim |
| FirmDefault.ClearFirmDefault | abm_vec/clear_firm_default.py:5-78 | the production clamp, the excess supply, the default set, the recovery rates and the remaining equity of every firm; `loan_firm_value` is `Repayments` of the recovery rates, so each bank gets back the firm's recovery rate times its own claim |
| FirmDefault.AfterSalesMonotone | abm_vec/clear_firm_default.py:38-55 | when wages are what producing the supply costs, lower starting equity gives lower equity after sales |
| FirmDefault.ProducedSupplyMonotone | abm_vec/clear_firm_default.py:38-40 | when wages are what producing the supply costs, lower equity never gives a larger production |
| FirmDefault.DefaultSetMonotone | abm_vec/clear_firm_default.py:38-61 | lowering a firm's starting equity never takes it out of the default set |
| BankPricing.AssessLoanRequests | abm_vec/banks.py:4-42 | a firm that did not ask the bank, or whose demand reaches the bank's maximum credit, gets rate 0; the default probability and fragility need to exist only at the bank indices that receive an offer |
| BankPricing.MarkupBounds | abm_vec/banks.py:41 | the rate formula lies within policy·(1 ± theta), and is at least the policy rate for a non-negative argument |
| BankPricing.OfferRateBounds | abm_vec/banks.py:34-41 | every offered rate lies within those bounds |
| BankPricing.OffersExactlyWhereAnswered | abm_vec/banks.py:25-41 | with a positive policy rate and theta at most 1, a rate is non-zero exactly where the firm asked and its demand is below the bank's maximum credit |
| BankPricing.RateIgnoresBorrower | abm_vec/banks.py:36-39 | two firms asking the same bank with the same draws get the same rate, whatever their own default probability |
| BankPricing.AssessInterbankLoans | abm_vec/banks.py:45-60 | one rate per draw, each the policy rate marked up by the draw times tanh of the borrower's fragility |
| BankPricing.InterbankRateBounds | abm_vec/banks.py:59-60 | for non-negative fragility, every interbank rate lies between the policy rate and policy·(1 + theta) |
| BankPricing.SpreadProbability | abm_vec/banks.py:77 | the default probability used for the spread is at least 0.01 |
| BankPricing.ProvideCdsSpread | abm_vec/banks.py:63-83 | the spread depends only on that probability, the loan rate and the fixed 0.3 recovery |
| BankPricing.SpreadSign | abm_vec/banks.py:76-83 | the spread does not depend on the policy rate, and is positive exactly when the loan rate is below 7/3 |
| BankPricing.CheckCdsMonotone | abm_vec/banks.py:86-103 | a seller that can afford a premium can afford any smaller one |
| FirmSelection.CheckLoanDesire | abm_vec/firms.py:4-36 | the result exists exactly when the call does not raise; firm i asks bank j exactly when it needs a loan and j is among the first `max_bank_loan` banks of its permutation |
| FirmSelection.IndicatorSum | abm_vec/firms.py:35 | a 0/1 row with ones at a set of banks sums to the size of the set |
| FirmSelection.ChosenBanks | abm_vec/firms.py:18-35 | each row is 0/1 and asks min(max_bank_loan, num_banks) banks, or none when the firm needs no loan |
| FirmSelection.ArgSort | abm_vec/firms.py:41 | argsort is a permutation of the positions that lists the entries in ascending order |
| FirmSelection.ScatterGather | abm_vec/firms.py:42-43 | writing values into the non-zero positions and reading them back gives the same values |
| FirmSelection.GetLoanPriority | abm_vec/firms.py:39-44 | priorities are zero exactly at the zero entries, and the non-zero positions hold argsort + 1, a permutation of 1..k |
| FirmSelection.PriorityIsArgsortNotRank | abm_vec/firms.py:39-44 | on `[30, 10, 20]` the priorities are `[2, 3, 1]` |
| FirmSelection.ShuffleFirms | abm_vec/firms.py:47-86 | every firm vector is permuted by the same permutation, so each shuffled firm is one original firm and every vector keeps its multiset |
| FirmSelection.NonZeroEntriesSorted | abm_vec/firms.py:99-104 | every extracted entry is a non-zero entry of the row at its column, every non-zero column of the row is extracted, and the columns ascend |
| FirmSelection.GetNonZeroValues | abm_vec/firms.py:89-105 | one key per row index, mapped to that row's non-zero entries |
| FirmSelection.GetNonZeroRoundTrip | abm_vec/firms.py:89-105 | writing each row's entries back into zeros rebuilds the matrix |
| Permutations.PermutePreservesMultiset | abm_vec/firms.py:75-86 | indexing a vector by a permutation keeps its multiset |
| Sorting.SortByKey | abm_vec/create_network_connections.py:66 | the result is in ascending order of the key and as long as the input |
| Sorting.SortByKeyPermutes | abm_vec/create_network_connections.py:66 | the result is a permutation of the input |
| Sorting.SortByKeyStable | abm_vec/create_network_connections.py:66 | elements with equal keys keep their input order, as Python's `sorted` does |
| CdsOffers.NakedBuyers | abm_vec/create_network_connections.py:150-157 | the naked buyers are, in ascending order, the banks other than the lender whose draw came up |
| CdsOffers.Buyers | abm_vec/create_network_connections.py:143-158 | the buyers are the lender if its covered draw came up, plus the naked buyers, with no bank twice |
| CdsOffers.Sellers | abm_vec/create_network_connections.py:160-164 | the sellers are, in ascending order, the banks that neither buy nor lent |
| CdsOffers.Choose | abm_vec/create_network_connections.py:166-173 | a draw without replacement takes the requested number of distinct pool entries |
| CdsOffers.Quotes | abm_vec/create_network_connections.py:174-187 | each asked seller quotes `provide_cds_spread` with its own draw |
| CdsOffers.FirstAffordable | abm_vec/create_network_connections.py:193-214 | the chosen offer is affordable and every earlier one is not; there is none exactly when nothing is affordable |
| CdsOffers.SortedQuotes | abm_vec/create_network_connections.py:166-191 | a buyer's quotes come sorted by spread, from sellers in the pool |
| CdsOffers.FirstAffordableIsCheapest | abm_vec/create_network_connections.py:188-214 | among offers sorted by spread, the first affordable one is the cheapest affordable one |
| CdsOffers.DealFor | abm_vec/create_network_connections.py:193-220 | a buyer's deal is with a seller from the pool at an affordable spread |
| CdsOffers.Deals | abm_vec/create_network_connections.py:193-214 | at most one deal per buyer, each between a buyer and a seller of the round |
| CdsOffers.DealListed | abm_vec/create_network_connections.py:193-214 | every listed deal is the one its buyer closes: the first affordable offer among its quotes sorted by spread |
| CdsOffers.DealsComplete | abm_vec/create_network_connections.py:208-214 | every buyer that has an affordable offer has its deal listed |
| CdsOffers.DealsParties | abm_vec/create_network_connections.py:158-214 | for distinct buyers, every deal is between a buyer and a different bank that is neither a buyer nor the lender, and no buyer closes two deals |
| CdsOffers.DealsDistinctBuyers | abm_vec/create_network_connections.py:209-227 | distinct buyers close at most one deal each |
| CdsOffers.DealIsCheapestAffordable | abm_vec/create_network_connections.py:188-214 | no affordable offer a buyer received is cheaper than its deal |
| Network.EmptyLedger | abm_vec/create_network_connections.py:52-63 | all tables start at zero and the CDS book starts empty |
| Network.OtherBank | abm_vec/create_network_connections.py:95 | an entry of the list of other banks is a bank different from the borrower |
| Network.InterbankSellers | abm_vec/create_network_connections.py:93-98 | `max_interbank_loan` sellers are drawn with replacement, none of them the borrowing bank |
| Network.InterbankOffers | abm_vec/create_network_connections.py:105-108 | the interbank offers come sorted by rate, from the drawn sellers |
| Network.InterbankOffersPermute | abm_vec/create_network_connections.py:105-108 | the sorted offers hold each drawn seller with its rate exactly as often as it was drawn |
| Network.Lend | abm_vec/create_network_connections.py:122-125 | an interbank loan changes only the interbank rate and amount tables and the loan assets and liabilities |
| Network.LendKeepsBooks | abm_vec/create_network_connections.py:110-125 | an accepted interbank loan keeps the balance-sheet invariant, with the lender marked as an interbank lender |
| Network.LendSums | abm_vec/create_network_connections.py:124-125 | an interbank loan adds its amount to total loan assets and to total loan liabilities |
| Network.SomeAcceptsWitness | abm_vec/create_network_connections.py:110-120 | some offer from the j-th on is accepted exactly when one of them passes the liquidity and capacity test |
| Network.BorrowedExtended | abm_vec/create_network_connections.py:110-127 | an interbank loan is made exactly when some offer passes the test against the books as they stood before the loop; when none is, nothing changes |
| Network.BorrowedKeepsBooks | abm_vec/create_network_connections.py:110-127 | the interbank loop changes only the interbank tables, keeps the balance-sheet invariant with every accepting seller marked as an interbank lender, leaves the borrower's loan assets and unmarked banks' current deposits alone, and marks no one when no loan is made |
| Network.BorrowInterbank | abm_vec/create_network_connections.py:110-127 | the loop leaves the books, the current deposits and `loan_extended` exactly as `Borrowed` describes: each accepting seller lends at its rate and is charged the firm's whole credit on its current deposit |
| Network.Offers | abm_vec/create_network_connections.py:66 | a firm's loan offers, sorted by rate, are the offers it received |
| Network.InterbankQuotes | abm_vec/create_network_connections.py:87-108 | every interbank quote comes from a bank other than the borrower |
| Network.TryOfferMeaning | abm_vec/create_network_connections.py:70-127 | one offer: a loan is extended exactly when the bank has room and either has the liquidity or finds an interbank lender; the attempt raises exactly when interbank sellers must be drawn from a single bank; with no loan nothing changes |
| Network.OfferBeyondCapacity | abm_vec/create_network_connections.py:72-75 | an offer beyond the bank's maximum credit is skipped and changes nothing |
| Network.OfferDirect | abm_vec/create_network_connections.py:77-85 | a bank with a positive balance-sheet condition lends directly and changes nothing else |
| Network.OfferRaises | abm_vec/create_network_connections.py:93-98 | drawing interbank sellers with a single bank raises |
| Network.OfferBorrows | abm_vec/create_network_connections.py:87-127 | otherwise the offer is extended exactly when the interbank loop accepts some quote |
| Network.TryOfferBorrows | abm_vec/create_network_connections.py:87-127 | the attempt is exactly the interbank loop over the quotes for the missing amount `-bank_condition` |
| Network.ExtendableBorrows | abm_vec/create_network_connections.py:87-127 | the offer is extendable exactly when some quote passes the test |
| Network.BorrowOutcome | abm_vec/create_network_connections.py:87-127 | an attempt that must borrow does not raise, and is extended exactly when some quote passes the test |
| Network.TryKeepsBooks | abm_vec/create_network_connections.py:70-127 | one attempt changes only interbank tables, keeps the balance-sheet invariant, only charges banks it marks as interbank lenders, and leaves a bank that extends the loan unmarked and within capacity |
| Network.SearchFrom | abm_vec/create_network_connections.py:70-127 | the search over the offers ends with a lender that is a bank, or -1 |
| Network.SearchFirst | abm_vec/create_network_connections.py:70-127 | the lender found is the first extendable offer after offers that were all declined; with none found and no raise nothing changes; a raise comes after declined offers |
| Network.SearchTakes | abm_vec/create_network_connections.py:70-128 | the search takes the first extendable offer after declined ones |
| Network.SearchNone | abm_vec/create_network_connections.py:70-128 | when every offer is declined the search ends with no lender and nothing changed |
| Network.SearchKeepsBooks | abm_vec/create_network_connections.py:70-127 | the search keeps the balance-sheet invariant; its lender is one of the firm's offers, not an interbank lender, and has room for the whole credit |
| Network.TryLoanOffer | abm_vec/create_network_connections.py:70-127 | the loop body for one offer leaves the books, the current deposits and `loan_extended` as `TryOffer` describes |
| Network.BorrowForOffer | abm_vec/create_network_connections.py:87-127 | the interbank branch leaves the books and current deposits as `TryOffer` describes, without raising |
| Network.FindLender | abm_vec/create_network_connections.py:66-128 | the lender is the first offer that could be extended, in rate order, after offers that were all declined; with no lender found nothing changed; a raise comes after declined offers |
| Network.BookLoanKeepsBankBooks | abm_vec/create_network_connections.py:128-136 | booking a firm loan within capacity keeps the balance-sheet invariant |
| Network.BookLoanColSums | abm_vec/create_network_connections.py:131-134 | booking a firm loan adds the credit to the lender's column of firm loans |
| Network.BookLoanSums | abm_vec/create_network_connections.py:134 | booking a firm loan adds the credit to total loan assets |
| Network.BookLoanKeepsFirmRows | abm_vec/create_network_connections.py:128-132 | after booking, the firm borrowed its whole demand from its lender at one of that lender's offered rates |
| Network.BookLoanKeepsCdsBooks | abm_vec/create_network_connections.py:128-134 | booking a loan keeps the CDS book invariant |
| Network.RowSumsOfLoans | abm_vec/create_network_connections.py:132 | a firm's row of loans sums to its demand if it was funded, or 0 |
| Network.Charge | abm_vec/create_network_connections.py:126 | charging a bank lowers its current deposit by the amount and leaves every other bank's alone |
| Network.Enter | abm_vec/create_network_connections.py:219-227 | one CDS transaction sets the notional and adds the premium to the buyer's CDS asset and to the spread amount owed to the seller |
| Network.EnterAll | abm_vec/create_network_connections.py:216-227 | entering deals changes only the CDS tables |
| Network.EnterAllEffects | abm_vec/create_network_connections.py:216-227 | after entering deals with distinct buyers, each deal's notional and spread are set, the premium is added to the buyer's asset and to the amount owed to the seller, and nothing else in the firm's CDS tables changes |
| Network.EnteredPairs | abm_vec/create_network_connections.py:216-227 | starting from an empty CDS table for the firm, every non-zero entry after the deals are entered is one of the deals |
| Network.EnterDeals | abm_vec/create_network_connections.py:216-227 | the loop enters the deals exactly as `EnterAll` does, changing only the CDS tables |
| Network.Record | abm_vec/create_network_connections.py:228-232 | the firm's CDS record lists the notional and the deals' buyers and sellers, in order |
| Network.RecordKeepsBooks | abm_vec/create_network_connections.py:216-232 | recording a firm's deals keeps the CDS book invariant |
| Network.Protected | abm_vec/create_network_connections.py:138-232 | buying protection changes only the CDS tables |
| Network.ProtectedEffects | abm_vec/create_network_connections.py:138-232 | no CDS wanted or no buyer: nothing changes; a raise leaves the books and happens only when more sellers are asked than exist; otherwise the firm's record lists the round's deals and their premia are entered |
| Network.ProtectedKeepsBooks | abm_vec/create_network_connections.py:138-232 | buying protection keeps the CDS book invariant |
| Network.Insured | abm_vec/create_network_connections.py:216-232 | entering the deals and recording them changes only the CDS tables |
| Network.InsuredEffects | abm_vec/create_network_connections.py:216-232 | the firm's CDS record lists the deals, and every deal is entered |
| Network.EnteredKeepsBooks | abm_vec/create_network_connections.py:216-232 | entering and recording deals between distinct buyers and other sellers keeps the CDS book invariant |
| Network.WriteCds | abm_vec/create_network_connections.py:138-232 | the method buys protection exactly as `Protected` describes |
| Network.AffordableCheaper | abm_vec/create_network_connections.py:193-205 | a seller that can afford to sell protection at one spread can afford any lower spread |
| Network.EmptyLedgerBooks | abm_vec/create_network_connections.py:52-63 | the empty ledger satisfies every invariant with no firm funded |
| Network.BookAndInsure | abm_vec/create_network_connections.py:128-232 | booking the loan, charging the lender, crediting the firm and buying protection give exactly the state `Funded` describes |
| Network.FundedIsLent | abm_vec/create_network_connections.py:128-232 | funding from a found lender books the demand at the lender's rate, charges its current deposit and adds the credit to the firm's equity, then buys protection |
| Network.FundStepFunds | abm_vec/create_network_connections.py:65-233 | one pass of the firm loop is the search followed by funding from the lender found |
| Network.FundStepLends | abm_vec/create_network_connections.py:65-233 | when the firm's first extendable offer comes after declined ones, it borrows its whole demand from that bank at its rate and its equity grows by the demand; when every offer is declined nothing changes |
| Network.LoanKeepsTables | abm_vec/create_network_connections.py:128-136 | booking a firm loan within capacity keeps the balance-sheet invariant with the lender's firm loans raised by the credit, and records the lender in the firm's row |
| Network.ChargeKept | abm_vec/create_network_connections.py:128-136 | booking and charging a firm loan keeps every invariant of the firm loop |
| Network.LoanKept | abm_vec/create_network_connections.py:128-232 | booking, charging and protecting a firm loan keeps every invariant of the firm loop |
| Network.InterbankKept | abm_vec/create_network_connections.py:110-127 | interbank lending that only marks and charges interbank lenders keeps every invariant of the firm loop |
| Network.SearchKept | abm_vec/create_network_connections.py:70-127 | the search keeps every invariant of the firm loop and its lender has room for the credit |
| Network.StepKept | abm_vec/create_network_connections.py:65-233 | one pass of the firm loop keeps every invariant |
| Network.FromKept | abm_vec/create_network_connections.py:65-233 | the rest of the firm loop keeps every invariant |
| Network.KeptBooks | abm_vec/create_network_connections.py:65-233 | the loop invariant gives the firm rows, the firm equity, the balance sheets, the current deposits of non-interbank lenders and the CDS book |
| Network.NetworkBooks | abm_vec/create_network_connections.py:52-233 | the firm loop from the empty ledger ends with every invariant stated for `CreateNetworkConnections` |
| Network.FundFirm | abm_vec/create_network_connections.py:65-233 | one pass of the firm loop leaves the books, current deposits and firm equity as `FundStep` describes |
| Network.CreateNetworkConnections | abm_vec/create_network_connections.py:9-246 | the final books, current deposits and firm equity are those of `FundFrom` from the empty ledger, the firm loop whose passes `FundStepLends` describes; every firm borrows its whole demand from one bank at an offered rate, or nothing; its equity grows by what it borrowed; each bank's firm loans stay within its maximum credit; a bank that never lent on the interbank market loses from its current deposit exactly what it lent to firms; each firm's CDS contracts have distinct buyers, on the firm's whole loan, with sellers that are neither the buyer nor the lender |
| SupplyPrice.ScenarioOf | abm_vec/compute_expected_supply_price.py:62-66 | each of the three scenarios holds exactly under its condition on excess supply and price |
| SupplyPrice.LoweringFactor | abm_vec/compute_expected_supply_price.py:69-78 | for a probability in [0, 1) the lowering factor is not positive |
| SupplyPrice.ScaleDirection | abm_vec/compute_expected_supply_price.py:83-92 | a non-positive factor never raises a value, and factor 1 never lowers it |
| SupplyPrice.AdjustmentDirections | abm_vec/compute_expected_supply_price.py:60-92 | price falls in scenario 1 and rises in 2; supply falls in 3 and rises in 4; the other quantity is untouched |
| SupplyPrice.RaisesBounded | abm_vec/compute_expected_supply_price.py:80-92 | with draws in range, a raised price or supply grows by at most 2% |
| SupplyPrice.UncappedSupply | abm_vec/compute_expected_supply_price.py:60-92 | the planned supply is the supply with the profit margin, lowered by the excess-supply factor when supply is in excess and the price below the market, kept when the price is adjusted instead (scenarios 1 and 2), and raised by the draw in every other case |
| SupplyPrice.AdjustedPrice | abm_vec/compute_expected_supply_price.py:60-92 | the price is lowered by the excess-supply factor in scenario 1, raised by the draw in scenario 2, and kept otherwise |
| SupplyPrice.UpdateFirm | abm_vec/compute_expected_supply_price.py:60-112 | the final supply and adjusted price are those of the adjustments; supply stays under the leverage cap and wages pay for it; a price-adjusting firm has a non-zero supply, a minimum price of unit wage cost plus the policy share of the wage excess over equity per unit, and a price that is the larger of its adjusted and minimum prices |
| SupplyPrice.MinPriceCoversUnitCost | abm_vec/compute_expected_supply_price.py:100-104 | with a positive supply and a non-negative policy share, the minimum price is at least the unit wage cost |
| SupplyPrice.PriceCoversUnitCost | abm_vec/compute_expected_supply_price.py:100-112 | an adjusted price covers at least the unit wage cost |
| SupplyPrice.BreachingMask | abm_vec/compute_expected_supply_price.py:106-107 | a firm breaches exactly when it adjusts its price and its minimum price is above its adjusted price |
| SupplyPrice.ComputeExpectedSupplyPrice | abm_vec/compute_expected_supply_price.py:10-114 | the per-firm update, the count of cap breaches, and the fraction of price-adjusting firms below their minimum price |
| SupplyPrice.MinPriceBreachFraction | abm_vec/compute_expected_supply_price.py:105-108 | the breach fraction lies in [0, 1] |
| MarketAdjustments.WagesAdj | abm_vec/essentials/market_adjustments.py:39-50 | every wage is scaled by its draw and floored at the minimum wage |
| MarketAdjustments.WageStepBounded | abm_vec/essentials/market_adjustments.py:28-50 | with draws in range, a wage moves by at most 2% before the floor |
| MergeDict.KeysOfMembership | abm_model/essentials.py:13-15 | a key is collected exactly when some dictionary holds it |
| MergeDict.Absorb | abm_model/essentials.py:14-15 | the inner loop appends each value of one dictionary to its key's list |
| MergeDict.Merge | abm_model/essentials.py:10-16 | the merged keys are those of some dictionary, each mapped to its values in list order |
| MergeDict.CollectLength | abm_model/essentials.py:12-15 | a key's list has one value per dictionary that holds it |
| MergeDict.CollectConcat | abm_model/essentials.py:13-15 | merging two lists of dictionaries concatenates each key's values |
| MergeDict.CollectSound | abm_model/essentials.py:12-15 | every value in a key's list is that key's value in some dictionary |
| MergeDict.MergedTotal | abm_model/essentials.py:10-16 | the merged lists together hold as many values as the dictionaries hold entries |

## Left out

- Random draws are parameters, indexed by firm, bank, offer or request.
  They are not consumed in NumPy's order, so the model covers every
  outcome of the draws but not their distribution.
- `tanh` is a parameter. Lemmas about rates assume `TanhLike`, and the
  functions themselves assume nothing about it.
- Floating point is modelled as exact reals: no rounding, NaN or infinity.
  The source divides by zero, yielding NaN or infinity, in a few places.
  The model requires those divisors to be non-zero, and the wage and
  productivity to be positive:
  - a bank's deposits (non-zero), in the interbank fragility;
  - the firm's wage (positive), in the production clamp;
  - the firm's productivity (positive), in the supply update;
  - `probability_excess_supply_zero != 1`;
  - `policy_rate != -1`.
- BankPricing.AssessLoanRequests: the source reads `firm_pd` and
  `firm_financial_fragility` at the bank index of each offer. An offer at a
  bank index past the last firm raises `IndexError` in the source. The
  model excludes that input by its precondition (`OffersReadable`) and does
  not represent the error.
- FirmDefault.ClearFirmDefault: requires non-negative equity, supply,
  productivity and price, a positive wage, and `0 <= min_consumption <=
  max_consumption`. These keep the equity after sales non-negative, so a
  defaulting firm owes a positive amount and the recovery division is
  defined.
- SupplyPrice.ComputeExpectedSupplyPrice: returns `None` when a firm's
  minimum price would divide by a zero supply. `minPriceBreach` is `None`
  when no firm adjusts its price, where the source computes 0/0.
- Clearing.RunClearing: the source loop has no bound. The model's loop runs
  for a budget of rounds and reports `converged == false` when the budget
  is exhausted. Convergence itself is not proved. With negative initial
  wealth on a cycle of obligations, the source loop need not end.
- Interbank.ClearInterbankMarket: when the clearing does not converge
  within the budget, the bank arrays are left unchanged and `ok` is false.
- Network.CreateNetworkConnections: the source raises in two places:
  - `random.choices` with a single bank;
  - `np.random.choice` when more CDS sellers are requested than exist.

  On these paths the model returns `ok == false` with the work done so
  far.
- FirmSelection.CheckLoanDesire: requires exact positive weights summing to
  1, where NumPy allows a rounding tolerance. When no firm needs a loan,
  `apply_along_axis` raises, and the model returns `None`.
- FirmSelection.ArgSort and Network.InterbankOffers: stable sorts. NumPy's
  default `argsort` is not stable, so the order of equal entries may differ
  (equal interbank rates arise, for example, with a zero policy rate).
- MergeDict.Merge: the result is a Dafny `map`, so the key order of the
  Python dictionary is not modelled.
- Network.CreateNetworkConnections: the ghost outputs `lenders` and
  `interbank` exist only to state the invariants. The source's
  `bank_loan_asset` is the `loanAsset` field of the returned ledger, and
  `cds_dict` is its `cdsBook`.
- The orchestration of a period is not part of this model:
  - `abm_vec/one_period_sim.py`;
  - `abm_vec/abm_simulation.py`.
- The object-based prototype under `abm_model/` is not part of this model,
  except for `merge_dict`.
- Also not part of this model: the calibration tables, the default
  probability estimation, logging and `generate_bank_portfolios`.

/** Firm-side helpers of the network formation (`abm_vec/firms.py`): which
    banks a firm asks for a loan, the priority order of a row of offers, the
    shuffling of the firm population and the extraction of a firm's offers
    from the offer matrix. The random permutations are parameters. */
module FirmSelection {
  import opened Vectors
  import opened Options
  import opened Sorting
  import opened Permutations

  function MinNat(a: nat, b: nat): (m: nat)
    ensures m <= a && m <= b
  {
    if a < b then a else b
  }

  /** What `numpy.random.choice(banks, size=num_banks, replace=False, p=w)`
      accepts: one positive weight per bank, summing to one. */
  predicate ValidWeights(weights: Vector, numBanks: nat) {
    && |weights| == numBanks
    && (forall b :: 0 <= b < numBanks ==> weights[b] > 0.0)
    && Sum(weights) == 1.0
  }

  /** The conditions under which `check_loan_desire_and_choose_loans` returns
      instead of raising: some firm needs a loan (`apply_along_axis` refuses
      an empty stack of rows), the weights are valid, and the chosen-bank
      columns broadcast against `max_bank_loan` columns of firm indices. */
  predicate LoanDesireRuns(demand: Vector, numBanks: nat, maxBankLoan: nat, weights: Vector) {
    && (exists i :: 0 <= i < |demand| && demand[i] > 0.0)
    && ValidWeights(weights, numBanks)
    && (maxBankLoan <= numBanks || numBanks == 1)
  }

  /** Bank `j` is among the first `count` entries of `perm`. */
  predicate Asks(perm: seq<int>, count: nat, j: int) {
    j in perm[..MinNat(count, |perm|)]
  }

  /** `check_loan_desire_and_choose_loans`. `perms[i]` is the weighted
      permutation of the banks drawn for firm `i`; firm `i` asks the first
      `max_bank_loan` banks of it when its demand is positive. */
  function CheckLoanDesire(demand: Vector, numBanks: nat, maxBankLoan: nat, weights: Vector,
                           perms: seq<seq<int>>): (r: Option<Matrix>)
    requires |perms| == |demand|
    requires forall i :: 0 <= i < |perms| ==> IsPermutation(perms[i], numBanks)
    ensures r.Some? <==> LoanDesireRuns(demand, numBanks, maxBankLoan, weights)
    ensures r.Some? ==> IsMatrix(r.value, |demand|, numBanks)
    ensures r.Some? ==>
              forall i, j :: 0 <= i < |demand| && 0 <= j < numBanks ==>
                r.value[i][j] == if demand[i] > 0.0 && Asks(perms[i], maxBankLoan, j) then 1.0 else 0.0
  {
    if !LoanDesireRuns(demand, numBanks, maxBankLoan, weights) then None
    else
      Some(seq(|demand|, i requires 0 <= i < |demand| =>
             seq(numBanks, j requires 0 <= j < numBanks =>
               if demand[i] > 0.0 && Asks(perms[i], maxBankLoan, j) then 1.0 else 0.0)))
  }

  /** A row with a one at every bank in `chosen` and zeros elsewhere. */
  function Indicator(n: nat, chosen: set<int>): (r: Vector)
    ensures |r| == n
  {
    seq(n, j requires 0 <= j < n => if j in chosen then 1.0 else 0.0)
  }

  lemma {:induction false} IndicatorSum(n: nat, chosen: set<int>)
    requires forall j :: j in chosen ==> 0 <= j < n
    ensures Sum(Indicator(n, chosen)) == |chosen| as real
  {
    if n == 0 {
      assert forall j :: j !in chosen;
      assert chosen == {};
    } else {
      var m := n - 1;
      var rest := chosen - {m};
      var v := Indicator(n, chosen);
      IndicatorSum(m, rest);
      assert v[..m] == Indicator(m, rest);
      assert Sum(v) == Sum(Indicator(m, rest)) + v[m];
      if m in chosen {
        assert chosen == rest + {m};
        assert |chosen| == |rest| + 1;
      } else {
        assert rest == chosen;
      }
    }
  }

  lemma {:induction false} DistinctCardinality(s: seq<int>)
    requires Distinct(s)
    ensures |set x | x in s| == |s|
  {
    if |s| > 0 {
      var n := |s| - 1;
      DistinctCardinality(s[..n]);
      assert (set x | x in s) == (set x | x in s[..n]) + {s[n]} by {
        assert s == s[..n] + [s[n]];
      }
      assert s[n] !in s[..n];
    }
  }

  /** A firm with positive demand asks exactly `min(max_bank_loan,
      num_banks)` distinct banks; every other firm asks none, and every
      entry is 0 or 1. */
  lemma ChosenBanks(demand: Vector, numBanks: nat, maxBankLoan: nat, weights: Vector, perms: seq<seq<int>>, i: nat)
    requires |perms| == |demand| && i < |demand|
    requires forall k :: 0 <= k < |perms| ==> IsPermutation(perms[k], numBanks)
    requires LoanDesireRuns(demand, numBanks, maxBankLoan, weights)
    ensures var row := CheckLoanDesire(demand, numBanks, maxBankLoan, weights, perms).value[i];
            && (forall j :: 0 <= j < numBanks ==> row[j] == 0.0 || row[j] == 1.0)
            && Sum(row) == if demand[i] > 0.0 then MinNat(maxBankLoan, numBanks) as real else 0.0
  {
    var row := CheckLoanDesire(demand, numBanks, maxBankLoan, weights, perms).value[i];
    PermutationFacts(perms[i], numBanks);
    var prefix := perms[i][..MinNat(maxBankLoan, numBanks)];
    if demand[i] > 0.0 {
      var chosen := set x | x in prefix;
      assert row == Indicator(numBanks, chosen);
      assert Distinct(prefix);
      DistinctCardinality(prefix);
      IndicatorSum(numBanks, chosen);
    } else {
      SumZeros(row);
    }
  }

  /** How many entries of `row` before position `p` are non-zero. */
  function Rank(row: Vector, p: nat): (k: nat)
    requires p <= |row|
    ensures k <= p
  {
    if p == 0 then 0 else Rank(row, p - 1) + if row[p - 1] != 0.0 then 1 else 0
  }

  /** A non-zero entry counts towards every later rank. */
  lemma {:induction false} RankStrict(row: Vector, q: nat, p: nat)
    requires q < p <= |row| && row[q] != 0.0
    ensures Rank(row, q) < Rank(row, p)
  {
    if q < p - 1 {
      RankStrict(row, q, p - 1);
    }
  }

  /** The entries of `r` at the positions before `p` where `row` is non-zero,
      in order. */
  function GatherUpTo<T>(row: Vector, r: seq<T>, p: nat): (g: seq<T>)
    requires |r| == |row| && p <= |row|
    ensures |g| == Rank(row, p)
  {
    if p == 0 then []
    else GatherUpTo(row, r, p - 1) + if row[p - 1] != 0.0 then [r[p - 1]] else []
  }

  /** `r[row != 0]`. */
  function Gather<T>(row: Vector, r: seq<T>): (g: seq<T>)
    requires |r| == |row|
    ensures |g| == Rank(row, |row|)
  {
    GatherUpTo(row, r, |row|)
  }

  /** `final[row != 0] = vals` on a zero vector: the non-zero position of
      rank `k` receives `vals[k]`, every other position stays zero. */
  function Scatter(row: Vector, vals: seq<int>): (r: seq<int>)
    requires |vals| == Rank(row, |row|)
    ensures |r| == |row|
  {
    seq(|row|, p requires 0 <= p < |row| =>
      if row[p] == 0.0 then 0 else RankStrict(row, p, |row|); vals[Rank(row, p)])
  }

  lemma {:induction false} ScatterGatherUpTo(row: Vector, vals: seq<int>, p: nat)
    requires |vals| == Rank(row, |row|) && p <= |row| && Rank(row, p) <= |vals|
    ensures GatherUpTo(row, Scatter(row, vals), p) == vals[..Rank(row, p)]
  {
    if p > 0 {
      ScatterGatherUpTo(row, vals, p - 1);
      if row[p - 1] != 0.0 {
        RankStrict(row, p - 1, |row|);
        assert vals[..Rank(row, p)] == vals[..Rank(row, p - 1)] + [vals[Rank(row, p - 1)]];
      }
    }
  }

  /** `Scatter` is the inverse of `Gather`: reading the non-zero positions
      back gives the scattered values. */
  lemma ScatterGather(row: Vector, vals: seq<int>)
    requires |vals| == Rank(row, |row|)
    ensures Gather(row, Scatter(row, vals)) == vals
  {
    ScatterGatherUpTo(row, vals, |row|);
    assert vals[..|vals|] == vals;
  }

  /** A position of `v` sorts by the entry it holds. */
  function PositionKey(v: Vector): int -> real {
    k => if 0 <= k < |v| then v[k] else 0.0
  }

  /** `numpy.argsort`: a permutation of the positions of `v` that lists its
      entries in ascending order. */
  function ArgSort(v: Vector): (a: seq<int>)
    ensures IsPermutation(a, |v|)
    ensures forall k :: 0 <= k < |a| ==> 0 <= a[k] < |v|
    ensures forall s, t :: 0 <= s < t < |a| ==> v[a[s]] <= v[a[t]]
  {
    var a := SortByKey(Range(|v|), PositionKey(v));
    SortByKeyPermutes(Range(|v|), PositionKey(v));
    PermutationFacts(a, |v|);
    a
  }

  /** `get_loan_priority`: the argsort (plus one) of the non-zero entries,
      written back at their positions. */
  function GetLoanPriority(row: Vector): (r: seq<int>)
    ensures |r| == |row|
    ensures forall p :: 0 <= p < |row| ==> (r[p] == 0 <==> row[p] == 0.0)
    ensures var values := Gather(row, row);
            var a := ArgSort(values);
            Gather(row, r) == seq(|values|, t requires 0 <= t < |values| => a[t] + 1)
    ensures var k := |Gather(row, row)|;
            multiset(Gather(row, r)) == multiset(seq(k, t => t + 1))
  {
    var values := Gather(row, row);
    var k := |values|;
    var a := ArgSort(values);
    var shifted := seq(k, t requires 0 <= t < k => a[t] + 1);
    var oneToK := seq(k, t => t + 1);
    assert shifted == Permute(oneToK, a);
    PermutePreservesMultiset(oneToK, a);
    ScatterGather(row, shifted);
    var r := Scatter(row, shifted);
    forall p | 0 <= p < |row| && row[p] != 0.0 ensures r[p] != 0 {
      RankStrict(row, p, |row|);
      assert r[p] == shifted[Rank(row, p)] == a[Rank(row, p)] + 1;
    }
    r
  }

  lemma SortExampleTail()
    ensures SortByKey([1, 2], PositionKey([30.0, 10.0, 20.0])) == [1, 2]
  {
    var key := PositionKey([30.0, 10.0, 20.0]);
    assert [1, 2][1..] == [2] && [2][1..] == [];
    assert SortByKey([2], key) == [2];
    assert Insert(1, [2], key) == [1, 2];
  }

  lemma InsertExample()
    ensures Insert(0, [1, 2], PositionKey([30.0, 10.0, 20.0])) == [1, 2, 0]
  {
    var key := PositionKey([30.0, 10.0, 20.0]);
    assert key(0) == 30.0 && key(1) == 10.0 && key(2) == 20.0;
    assert Insert(0, [], key) == [0];
    assert [2][1..] == [];
    assert Insert(0, [2], key) == [2] + Insert(0, [], key);
    assert [1, 2][1..] == [2];
    assert Insert(0, [1, 2], key) == [1] + Insert(0, [2], key);
  }

  lemma ArgSortExample()
    ensures ArgSort([30.0, 10.0, 20.0]) == [1, 2, 0]
  {
    var v := [30.0, 10.0, 20.0];
    assert Range(3) == [0, 1, 2];
    assert [0, 1, 2][1..] == [1, 2];
    SortExampleTail();
    InsertExample();
    assert SortByKey([0, 1, 2], PositionKey(v)) == Insert(0, [1, 2], PositionKey(v));
  }

  lemma GatherExample()
    ensures Gather([30.0, 10.0, 20.0], [30.0, 10.0, 20.0]) == [30.0, 10.0, 20.0]
  {
    var row := [30.0, 10.0, 20.0];
    assert GatherUpTo(row, row, 1) == [30.0];
    assert GatherUpTo(row, row, 2) == [30.0, 10.0];
  }

  lemma ScatterExample()
    ensures Rank([30.0, 10.0, 20.0], 3) == 3
    ensures Scatter([30.0, 10.0, 20.0], [2, 3, 1]) == [2, 3, 1]
  {
    var row := [30.0, 10.0, 20.0];
    assert Rank(row, 1) == 1 && Rank(row, 2) == 2;
  }

  lemma PriorityExample()
    ensures GetLoanPriority([30.0, 10.0, 20.0]) == Scatter([30.0, 10.0, 20.0], [2, 3, 1])
  {
    var row := [30.0, 10.0, 20.0];
    GatherExample();
    ArgSortExample();
    var values := Gather(row, row);
    var a := ArgSort(values);
    assert a == [1, 2, 0];
    var shifted := seq(3, t requires 0 <= t < 3 => a[t] + 1);
    assert shifted == [2, 3, 1];
  }

  /** On the row (30, 10, 20) the priorities are (2, 3, 1), the argsort plus
      one, and not the ranks (3, 1, 2): position 0 holds the position of the
      smallest offer, not the rank of its own offer. */
  lemma PriorityIsArgsortNotRank()
    ensures GetLoanPriority([30.0, 10.0, 20.0]) == [2, 3, 1]
  {
    PriorityExample();
    ScatterExample();
  }

  /** The nine firm vectors that `shuffle_firms` reorders together. */
  datatype FirmVectors = FirmVectors(
    equity: Vector, prod: Vector, exSupply: Vector, wage: Vector, pd: Vector,
    supply: Vector, profit: Vector, price: Vector, maxLeverage: Vector)

  /** One firm's entry in each of the nine vectors. */
  datatype FirmRecord = FirmRecord(
    equity: real, prod: real, exSupply: real, wage: real, pd: real,
    supply: real, profit: real, price: real, maxLeverage: real)

  predicate HasFirms(f: FirmVectors, n: nat) {
    && |f.equity| == n && |f.prod| == n && |f.exSupply| == n && |f.wage| == n && |f.pd| == n
    && |f.supply| == n && |f.profit| == n && |f.price| == n && |f.maxLeverage| == n
  }

  function FirmAt(f: FirmVectors, i: nat): FirmRecord
    requires i < |f.equity| && i < |f.prod| && i < |f.exSupply| && i < |f.wage| && i < |f.pd|
    requires i < |f.supply| && i < |f.profit| && i < |f.price| && i < |f.maxLeverage|
  {
    FirmRecord(f.equity[i], f.prod[i], f.exSupply[i], f.wage[i], f.pd[i],
               f.supply[i], f.profit[i], f.price[i], f.maxLeverage[i])
  }

  /** `shuffle_firms`, with the drawn permutation `perm`: every vector is
      reordered by the same permutation, so each position holds one whole
      firm, and every vector keeps its values. */
  function ShuffleFirms(numFirms: nat, perm: seq<int>, f: FirmVectors): (r: FirmVectors)
    requires IsPermutation(perm, numFirms) && HasFirms(f, numFirms)
    ensures HasFirms(r, numFirms)
    ensures forall k :: 0 <= k < numFirms ==> 0 <= perm[k] < numFirms && FirmAt(r, k) == FirmAt(f, perm[k])
    ensures && multiset(r.equity) == multiset(f.equity) && multiset(r.prod) == multiset(f.prod)
            && multiset(r.exSupply) == multiset(f.exSupply) && multiset(r.wage) == multiset(f.wage)
            && multiset(r.pd) == multiset(f.pd) && multiset(r.supply) == multiset(f.supply)
            && multiset(r.profit) == multiset(f.profit) && multiset(r.price) == multiset(f.price)
            && multiset(r.maxLeverage) == multiset(f.maxLeverage)
  {
    PermutePreservesMultiset(f.equity, perm);
    PermutePreservesMultiset(f.prod, perm);
    PermutePreservesMultiset(f.exSupply, perm);
    PermutePreservesMultiset(f.wage, perm);
    PermutePreservesMultiset(f.pd, perm);
    PermutePreservesMultiset(f.supply, perm);
    PermutePreservesMultiset(f.profit, perm);
    PermutePreservesMultiset(f.price, perm);
    PermutePreservesMultiset(f.maxLeverage, perm);
    FirmVectors(
      Permute(f.equity, perm), Permute(f.prod, perm), Permute(f.exSupply, perm), Permute(f.wage, perm),
      Permute(f.pd, perm), Permute(f.supply, perm), Permute(f.profit, perm), Permute(f.price, perm),
      Permute(f.maxLeverage, perm))
  }

  /** The (column, value) pairs of the non-zero entries of `row`, by column. */
  function NonZeroEntries(row: Vector): (e: seq<(int, real)>)
    ensures |e| <= |row|
  {
    if |row| == 0 then []
    else
      var n := |row| - 1;
      NonZeroEntries(row[..n]) + if row[n] != 0.0 then [(n, row[n])] else []
  }

  /** Every entry names a column of `row` holding that non-zero value, and
      the columns ascend. */
  lemma {:induction false} NonZeroEntriesSorted(row: Vector)
    ensures forall k :: 0 <= k < |NonZeroEntries(row)| ==>
              0 <= NonZeroEntries(row)[k].0 < |row| && NonZeroEntries(row)[k].1 == row[NonZeroEntries(row)[k].0] != 0.0
    ensures forall a, b :: 0 <= a < b < |NonZeroEntries(row)| ==> NonZeroEntries(row)[a].0 < NonZeroEntries(row)[b].0
    ensures forall c :: 0 <= c < |row| && row[c] != 0.0 ==>
              exists k :: 0 <= k < |NonZeroEntries(row)| && NonZeroEntries(row)[k].0 == c
  {
    if |row| > 0 {
      var n := |row| - 1;
      NonZeroEntriesSorted(row[..n]);
      var front := NonZeroEntries(row[..n]);
      var e := NonZeroEntries(row);
      assert e == front + if row[n] != 0.0 then [(n, row[n])] else [];
      forall k | 0 <= k < |e| ensures 0 <= e[k].0 < |row| && e[k].1 == row[e[k].0] != 0.0 {
        if k < |front| {
          assert e[k] == front[k];
          assert row[..n][front[k].0] == row[front[k].0];
        }
      }
      forall c | 0 <= c < |row| && row[c] != 0.0
        ensures exists k :: 0 <= k < |e| && e[k].0 == c
      {
        if c < n {
          assert row[..n][c] == row[c];
          var k :| 0 <= k < |front| && front[k].0 == c;
          assert e[k] == front[k];
        } else {
          assert e[|front|].0 == c;
        }
      }
    }
  }

  /** `get_non_zero_values_from_matrix`: every row index is a key, mapped to
      that row's non-zero entries. */
  function GetNonZeroValues(m: Matrix): (d: map<int, seq<(int, real)>>)
    ensures forall i :: i in d <==> 0 <= i < |m|
    ensures forall i :: 0 <= i < |m| ==> d[i] == NonZeroEntries(m[i])
  {
    map i | 0 <= i < |m| :: NonZeroEntries(m[i])
  }

  /** The value the last entry for column `c` gives, or zero without one. */
  function Lookup(e: seq<(int, real)>, c: int): real {
    if |e| == 0 then 0.0
    else if e[|e| - 1].0 == c then e[|e| - 1].1
    else Lookup(e[..|e| - 1], c)
  }

  /** A row of `n` zeros with the given entries written in. */
  function Densify(e: seq<(int, real)>, n: nat): (r: Vector)
    ensures |r| == n
  {
    seq(n, c => Lookup(e, c))
  }

  lemma {:induction false} LookupAbsent(e: seq<(int, real)>, c: int)
    requires forall k :: 0 <= k < |e| ==> e[k].0 != c
    ensures Lookup(e, c) == 0.0
  {
    if |e| > 0 {
      LookupAbsent(e[..|e| - 1], c);
    }
  }

  lemma {:induction false} LookupNonZeroEntries(row: Vector, c: nat)
    requires c < |row|
    ensures Lookup(NonZeroEntries(row), c) == row[c]
  {
    var n := |row| - 1;
    var front := NonZeroEntries(row[..n]);
    var e := NonZeroEntries(row);
    if row[n] != 0.0 {
      assert e == front + [(n, row[n])];
      assert e[..|e| - 1] == front;
      if c < n {
        assert Lookup(e, c) == Lookup(front, c);
        LookupNonZeroEntries(row[..n], c);
        assert row[..n][c] == row[c];
      }
    } else {
      assert e == front;
      if c < n {
        LookupNonZeroEntries(row[..n], c);
        assert row[..n][c] == row[c];
      } else {
        NonZeroEntriesSorted(row[..n]);
        LookupAbsent(front, c);
      }
    }
  }

  /** Writing every row's entries back into a zero matrix gives the matrix. */
  lemma GetNonZeroRoundTrip(m: Matrix, cols: nat)
    requires IsMatrix(m, |m|, cols)
    ensures var d := GetNonZeroValues(m);
            forall i :: 0 <= i < |m| ==> Densify(d[i], cols) == m[i]
  {
    forall i | 0 <= i < |m|
      ensures Densify(NonZeroEntries(m[i]), cols) == m[i]
    {
      forall c | 0 <= c < cols ensures Lookup(NonZeroEntries(m[i]), c) == m[i][c] {
        LookupNonZeroEntries(m[i], c);
      }
    }
  }
}

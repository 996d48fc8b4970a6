/** The Eisenberg-Noe clearing vector as the simulation computes it by
    "fictitious default" (Eisenberg and Noe, 2001): every bank starts by paying
    its total obligations; each round, a bank whose wealth falls short pays its
    wealth instead; the rounds stop when no payment moved by 1e-6 or more.
    `helpers.py` has the loop as a bare function and
    `abm_vec/clear_interbank_market.py` repeats it inline; both are modelled by
    `RunClearing` over the specification `Iterate`. The source loop has no
    iteration cap; the model takes a round budget (`fuel`) and reports whether
    the rounds settled within it. */
module Clearing {
  import opened Vectors

  /** The stopping tolerance of the source, 10**-6. */
  const Tolerance: real := 0.000001

  /** Π: row i of the liability matrix divided by bank i's total obligations,
      and a zero row where those are zero. */
  function Relative(L: Matrix, lbar: Vector): (pi: Matrix)
    requires IsMatrix(L, |lbar|, |lbar|)
    ensures IsMatrix(pi, |lbar|, |lbar|)
    ensures forall i, j :: 0 <= i < |lbar| && 0 <= j < |lbar| && lbar[i] != 0.0 ==> pi[i][j] * lbar[i] == L[i][j]
    ensures forall i, j :: 0 <= i < |lbar| && 0 <= j < |lbar| && lbar[i] == 0.0 ==> pi[i][j] == 0.0
  {
    seq(|lbar|, i requires 0 <= i < |lbar| =>
      seq(|lbar|, j requires 0 <= j < |lbar| => if lbar[i] == 0.0 then 0.0 else L[i][j] / lbar[i]))
  }

  /** (Πᵀ p)_j: what bank j receives when every bank i pays p_i pro rata. */
  function Received(pi: Matrix, p: Vector, j: nat): real
    requires IsMatrix(pi, |p|, |p|) && j < |p|
  {
    ReceivedFrom(pi, p, j, |p|)
  }

  /** What bank j receives from banks 0 .. n-1. */
  function ReceivedFrom(pi: Matrix, p: Vector, j: nat, n: nat): real
    requires IsMatrix(pi, |p|, |p|) && j < |p| && n <= |p|
  {
    if n == 0 then 0.0 else ReceivedFrom(pi, p, j, n - 1) + pi[n - 1][j] * p[n - 1]
  }

  /** The contributions of banks 0 .. n-1 to what bank j receives. */
  function Contributions(pi: Matrix, p: Vector, j: nat, n: nat): (c: Vector)
    requires IsMatrix(pi, |p|, |p|) && j < |p| && n <= |p|
    ensures |c| == n
  {
    seq(n, i requires 0 <= i < n => pi[i][j] * p[i])
  }

  lemma {:induction false} ReceivedFromIsSum(pi: Matrix, p: Vector, j: nat, n: nat)
    requires IsMatrix(pi, |p|, |p|) && j < |p| && n <= |p|
    ensures ReceivedFrom(pi, p, j, n) == Sum(Contributions(pi, p, j, n))
  {
    if n > 0 {
      ReceivedFromIsSum(pi, p, j, n - 1);
      assert Contributions(pi, p, j, n)[..n - 1] == Contributions(pi, p, j, n - 1);
    }
  }

  /** What bank j receives is the sum of every bank's contribution. */
  lemma ReceivedIsSum(pi: Matrix, p: Vector, j: nat)
    requires IsMatrix(pi, |p|, |p|) && j < |p|
    ensures Received(pi, p, j) == Sum(Contributions(pi, p, j, |p|))
  {
    ReceivedFromIsSum(pi, p, j, |p|);
  }

  /** x + Πᵀ p. */
  function Wealth(x: Vector, pi: Matrix, p: Vector): (w: Vector)
    requires |x| == |p| && IsMatrix(pi, |p|, |p|)
    ensures |w| == |p|
  {
    seq(|p|, i requires 0 <= i < |p| => x[i] + Received(pi, p, i))
  }

  predicate WellShaped(x: Vector, pi: Matrix, lbar: Vector, p: Vector) {
    |x| == |p| && |lbar| == |p| && IsMatrix(pi, |p|, |p|)
  }

  /** One round: the banks whose wealth is below their obligations pay their
      wealth; every other bank keeps its payment. */
  function Round(x: Vector, pi: Matrix, lbar: Vector, p: Vector): (q: Vector)
    requires WellShaped(x, pi, lbar, p)
    ensures |q| == |p|
  {
    var w := Wealth(x, pi, p);
    seq(|p|, i requires 0 <= i < |p| => if w[i] < lbar[i] then w[i] else p[i])
  }

  /** The default set a round computes from payments `p`. */
  function DefaultSet(x: Vector, pi: Matrix, lbar: Vector, p: Vector): set<int>
    requires WellShaped(x, pi, lbar, p)
  {
    set i | 0 <= i < |p| && Wealth(x, pi, p)[i] < lbar[i]
  }

  /** Every payment moved by less than the tolerance: |next_i - prev_i| < 1e-6. */
  predicate Settled(prev: Vector, next: Vector)
    requires |prev| == |next|
  {
    forall i :: 0 <= i < |prev| ==> -Tolerance < next[i] - prev[i] < Tolerance
  }

  lemma SettledReflexive(v: Vector)
    ensures Settled(v, v)
  {
  }

  /** The result of the rounds: the last payment vector, the vector the last
      round started from (its default set is the one the source keeps), and
      whether the last round settled. */
  datatype Outcome = Outcome(payments: Vector, previous: Vector, converged: bool)

  /** The loop from payments `p`, with `fuel` rounds allowed after the first. */
  function Iterate(x: Vector, pi: Matrix, lbar: Vector, p: Vector, fuel: nat): (o: Outcome)
    requires WellShaped(x, pi, lbar, p)
    ensures |o.payments| == |p| && |o.previous| == |p|
    ensures o.payments == Round(x, pi, lbar, o.previous)
    ensures o.converged <==> Settled(o.previous, o.payments)
    decreases fuel
  {
    var q := Round(x, pi, lbar, p);
    if Settled(p, q) then Outcome(q, p, true)
    else if fuel == 0 then Outcome(q, p, false)
    else Iterate(x, pi, lbar, q, fuel - 1)
  }

  /** `payments[default_set] = wealth[default_set]`: one round, in place. */
  method ApplyRound(p: array<real>, x: Vector, pi: Matrix, lbar: Vector)
    requires WellShaped(x, pi, lbar, p[..])
    modifies p
    ensures p[..] == Round(x, pi, lbar, old(p[..]))
  {
    ghost var prev := p[..];
    ghost var q := Round(x, pi, lbar, prev);
    var w := Wealth(x, pi, p[..]);
    var n := p.Length;
    for i := 0 to n
      invariant forall k :: 0 <= k < i ==> p[k] == q[k]
      invariant forall k :: i <= k < n ==> p[k] == prev[k]
    {
      if w[i] < lbar[i] {
        p[i] := w[i];
      }
    }
    assert p[..] == q;
  }

  /** The fixed-point loop of both sources: payments start at the total
      obligations and rounds repeat until one settles (or the budget is spent). */
  method RunClearing(x: Vector, pi: Matrix, lbar: Vector, fuel: nat) returns (o: Outcome)
    requires WellShaped(x, pi, lbar, lbar)
    ensures o == Iterate(x, pi, lbar, lbar, fuel)
  {
    var n := |lbar|;
    var p := new real[n];
    forall i | 0 <= i < n {
      p[i] := lbar[i];
    }
    var prev := p[..];
    assert prev == lbar;
    ApplyRound(p, x, pi, lbar);
    var budget := fuel;
    while !Settled(prev, p[..]) && budget > 0
      invariant |prev| == n && p.Length == n
      invariant p[..] == Round(x, pi, lbar, prev)
      invariant Iterate(x, pi, lbar, lbar, fuel) == Iterate(x, pi, lbar, prev, budget)
      decreases budget
    {
      IterateUnfolds(x, pi, lbar, prev, budget);
      prev := p[..];
      ApplyRound(p, x, pi, lbar);
      budget := budget - 1;
    }
    IterateUnfolds(x, pi, lbar, prev, budget);
    o := Outcome(p[..], prev, Settled(prev, p[..]));
  }

  /** One step of the loop: a round that did not settle, with budget left,
      is followed by the next; otherwise the loop stops after it. */
  lemma IterateUnfolds(x: Vector, pi: Matrix, lbar: Vector, p: Vector, fuel: nat)
    requires WellShaped(x, pi, lbar, p)
    ensures var q := Round(x, pi, lbar, p);
            Iterate(x, pi, lbar, p, fuel) ==
              if !Settled(p, q) && fuel > 0 then Iterate(x, pi, lbar, q, fuel - 1)
              else Outcome(q, p, Settled(p, q))
  {
  }

  /** `helpers.fictitious_default(x, L)`: the clearing vector for external
      wealth `x` and liability matrix `L`. */
  method FictitiousDefault(x: Vector, L: Matrix, fuel: nat) returns (payments: Vector, converged: bool)
    requires IsMatrix(L, |x|, |x|)
    ensures |payments| == |x|
    ensures var lbar := RowSums(L);
            var o := Iterate(x, Relative(L, lbar), lbar, lbar, fuel);
            payments == o.payments && converged == o.converged
    ensures forall i :: 0 <= i < |x| ==> payments[i] <= Sum(L[i])
  {
    var lbar := RowSums(L);
    var pi := Relative(L, lbar);
    var o := RunClearing(x, pi, lbar, fuel);
    IterateBounded(x, pi, lbar, lbar, fuel);
    payments, converged := o.payments, o.converged;
  }

  // ---------------------------------------------------------------------------
  // Properties of the rounds

  predicate AtMost(p: Vector, q: Vector)
    requires |p| == |q|
  {
    forall i :: 0 <= i < |p| ==> p[i] <= q[i]
  }

  /** Only defaulting banks change payment, and they pay exactly their wealth. */
  lemma RoundReplacesExactlyDefaulters(x: Vector, pi: Matrix, lbar: Vector, p: Vector, i: nat)
    requires WellShaped(x, pi, lbar, p) && i < |p|
    ensures i in DefaultSet(x, pi, lbar, p) ==> Round(x, pi, lbar, p)[i] == Wealth(x, pi, p)[i] < lbar[i]
    ensures i !in DefaultSet(x, pi, lbar, p) ==> Round(x, pi, lbar, p)[i] == p[i]
  {
  }

  /** A round never lets a payment exceed the obligations it started below. */
  lemma RoundBounded(x: Vector, pi: Matrix, lbar: Vector, p: Vector)
    requires WellShaped(x, pi, lbar, p) && AtMost(p, lbar)
    ensures AtMost(Round(x, pi, lbar, p), lbar)
  {
  }

  /** Starting at or below the obligations, no payment ever exceeds them. */
  lemma {:induction false} IterateBounded(x: Vector, pi: Matrix, lbar: Vector, p: Vector, fuel: nat)
    requires WellShaped(x, pi, lbar, p) && AtMost(p, lbar)
    ensures AtMost(Iterate(x, pi, lbar, p, fuel).payments, lbar)
    ensures AtMost(Iterate(x, pi, lbar, p, fuel).previous, lbar)
    decreases fuel
  {
    RoundBounded(x, pi, lbar, p);
    var q := Round(x, pi, lbar, p);
    if !Settled(p, q) && fuel > 0 {
      IterateBounded(x, pi, lbar, q, fuel - 1);
    }
  }

  predicate NonNegative(m: Matrix) {
    forall i, j :: 0 <= i < |m| && 0 <= j < |m[i]| ==> m[i][j] >= 0.0
  }

  lemma RelativeNonNegative(L: Matrix, lbar: Vector)
    requires IsMatrix(L, |lbar|, |lbar|) && NonNegative(L) && lbar == RowSums(L)
    ensures NonNegative(Relative(L, lbar))
  {
    forall i | 0 <= i < |lbar|
      ensures lbar[i] >= 0.0
    {
      SumNonNegative(L[i]);
    }
  }

  /** Less paid in means less received, when Π is non-negative. */
  lemma WealthMonotone(x: Vector, pi: Matrix, p: Vector, q: Vector)
    requires |x| == |p| == |q| && IsMatrix(pi, |p|, |p|) && NonNegative(pi) && AtMost(q, p)
    ensures AtMost(Wealth(x, pi, q), Wealth(x, pi, p))
  {
    forall j | 0 <= j < |p|
      ensures Received(pi, q, j) <= Received(pi, p, j)
    {
      ReceivedFromMonotone(pi, p, q, j, |p|);
    }
  }

  lemma {:induction false} ReceivedFromMonotone(pi: Matrix, p: Vector, q: Vector, j: nat, n: nat)
    requires |p| == |q| && IsMatrix(pi, |p|, |p|) && NonNegative(pi) && AtMost(q, p) && j < |p| && n <= |p|
    ensures ReceivedFrom(pi, q, j, n) <= ReceivedFrom(pi, p, j, n)
  {
    if n > 0 {
      ReceivedFromMonotone(pi, p, q, j, n - 1);
      ScaleMonotone(pi[n - 1][j], q[n - 1], p[n - 1]);
    }
  }

  lemma ScaleMonotone(c: real, a: real, b: real)
    requires c >= 0.0 && a <= b
    ensures c * a <= c * b
  {
    assert c * b - c * a == c * (b - a);
  }

  /** What makes the fictitious-default sequence monotone: payments at most the
      obligations, the next round pays no more, and a bank that pays less than
      its obligations has wealth below them. */
  predicate Descending(x: Vector, pi: Matrix, lbar: Vector, p: Vector)
    requires WellShaped(x, pi, lbar, p)
  {
    && AtMost(p, lbar)
    && AtMost(Round(x, pi, lbar, p), p)
    && ShortfallBelow(x, pi, lbar, p)
  }

  /** A bank that pays less than its obligations has wealth below them. */
  predicate ShortfallBelow(x: Vector, pi: Matrix, lbar: Vector, p: Vector)
    requires WellShaped(x, pi, lbar, p)
  {
    forall i :: 0 <= i < |p| && p[i] < lbar[i] ==> Wealth(x, pi, p)[i] < lbar[i]
  }

  /** The rounds start in a descending state: payments equal to obligations. */
  lemma DescendingInitially(x: Vector, pi: Matrix, lbar: Vector)
    requires WellShaped(x, pi, lbar, lbar)
    ensures Descending(x, pi, lbar, lbar)
  {
  }

  /** For non-negative Π, a round from a descending state pays no more than the
      last, keeps every defaulting bank in default, and is descending again. */
  lemma RoundDescends(x: Vector, pi: Matrix, lbar: Vector, p: Vector)
    requires WellShaped(x, pi, lbar, p) && NonNegative(pi) && Descending(x, pi, lbar, p)
    ensures AtMost(Round(x, pi, lbar, p), p)
    ensures DefaultSet(x, pi, lbar, p) <= DefaultSet(x, pi, lbar, Round(x, pi, lbar, p))
    ensures Descending(x, pi, lbar, Round(x, pi, lbar, p))
  {
    var n := |p|;
    var q := Round(x, pi, lbar, p);
    var wp := Wealth(x, pi, p);
    WealthMonotone(x, pi, p, q);
    var wq := Wealth(x, pi, q);
    var r := Round(x, pi, lbar, q);
    forall i | 0 <= i < n
      ensures r[i] <= q[i]
    {
      if wq[i] < lbar[i] {
        if wp[i] >= lbar[i] {
          assert q[i] == p[i];
          assert p[i] == lbar[i];
        }
      }
    }
  }

  /** For a non-negative liability matrix the rounds from Lbar form a
      non-increasing sequence of payments and default sets only grow: every
      state the loop reaches is descending, the last round paid no more than
      the one before, and each bank in default at the start is in the final
      default set. */
  lemma {:induction false} IterateDescends(x: Vector, pi: Matrix, lbar: Vector, p: Vector, fuel: nat)
    requires WellShaped(x, pi, lbar, p) && NonNegative(pi) && Descending(x, pi, lbar, p)
    ensures Descending(x, pi, lbar, Iterate(x, pi, lbar, p, fuel).previous)
    ensures AtMost(Iterate(x, pi, lbar, p, fuel).payments, Iterate(x, pi, lbar, p, fuel).previous)
    ensures AtMost(Iterate(x, pi, lbar, p, fuel).previous, p)
    ensures DefaultSet(x, pi, lbar, p) <= DefaultSet(x, pi, lbar, Iterate(x, pi, lbar, p, fuel).previous)
    decreases fuel
  {
    var q := Round(x, pi, lbar, p);
    RoundDescends(x, pi, lbar, p);
    if !Settled(p, q) && fuel > 0 {
      IterateDescends(x, pi, lbar, q, fuel - 1);
      var o := Iterate(x, pi, lbar, q, fuel - 1);
      AtMostTransitive(o.previous, q, p);
    }
  }

  lemma AtMostTransitive(a: Vector, b: Vector, c: Vector)
    requires |a| == |b| == |c| && AtMost(a, b) && AtMost(b, c)
    ensures AtMost(a, c)
  {
  }

  /** With no obligations at all, a bank with non-negative wealth pays 0 and a
      bank with negative wealth pays that (negative) wealth: payments are not
      guaranteed to be non-negative. Two rounds suffice to settle. */
  lemma ZeroLiabilities(x: Vector, L: Matrix, fuel: nat)
    requires IsMatrix(L, |x|, |x|) && fuel >= 1
    requires forall i, j :: 0 <= i < |x| && 0 <= j < |x| ==> L[i][j] == 0.0
    ensures var lbar := RowSums(L);
            var o := Iterate(x, Relative(L, lbar), lbar, lbar, fuel);
            && o.converged
            && forall i :: 0 <= i < |x| ==> o.payments[i] == (if x[i] >= 0.0 then 0.0 else x[i])
  {
    var n := |x|;
    var lbar := RowSums(L);
    forall i | 0 <= i < n ensures lbar[i] == 0.0 {
      SumZeros(L[i]);
    }
    var pi := Relative(L, lbar);
    var expected := seq(n, i requires 0 <= i < n => if x[i] >= 0.0 then 0.0 else x[i]);
    forall p: Vector | |p| == n
      ensures Wealth(x, pi, p) == x
    {
      forall j | 0 <= j < n ensures Received(pi, p, j) == 0.0 {
        ReceivedIsSum(pi, p, j);
        SumZeros(Contributions(pi, p, j, n));
      }
    }
    assert Round(x, pi, lbar, lbar) == expected;
    assert Round(x, pi, lbar, expected) == expected;
    SettledReflexive(expected);
  }

  /** A row of Π sums to 1 where the bank owes something and to 0 otherwise. */
  lemma RelativeRowSum(L: Matrix, lbar: Vector, i: nat)
    requires IsMatrix(L, |lbar|, |lbar|) && lbar == RowSums(L) && i < |lbar|
    ensures Sum(Relative(L, lbar)[i]) == if lbar[i] == 0.0 then 0.0 else 1.0
  {
    var row := Relative(L, lbar)[i];
    if lbar[i] == 0.0 {
      SumZeros(row);
    } else {
      SumScale(1.0 / lbar[i], L[i], row);
    }
  }

  /** The payment matrix: entry (i, j) is what bank i pays bank j. */
  function Flows(pi: Matrix, p: Vector): (f: Matrix)
    requires IsMatrix(pi, |p|, |p|)
    ensures IsMatrix(f, |p|, |p|)
  {
    seq(|p|, i requires 0 <= i < |p| => seq(|p|, j requires 0 <= j < |p| => pi[i][j] * p[i]))
  }

  /** Πᵀ p as a vector. */
  function ReceivedAll(pi: Matrix, p: Vector): (r: Vector)
    requires IsMatrix(pi, |p|, |p|)
    ensures |r| == |p|
  {
    seq(|p|, j requires 0 <= j < |p| => Received(pi, p, j))
  }

  /** What each bank pays out in total: its payment if it owes anything, else 0. */
  function PaidOut(lbar: Vector, p: Vector): (r: Vector)
    requires |lbar| == |p|
    ensures |r| == |p|
  {
    seq(|p|, i requires 0 <= i < |p| => if lbar[i] == 0.0 then 0.0 else p[i])
  }

  lemma FlowsColumns(pi: Matrix, p: Vector)
    requires IsMatrix(pi, |p|, |p|)
    ensures ColSums(Flows(pi, p), |p|) == ReceivedAll(pi, p)
  {
    var n := |p|;
    var m := Flows(pi, p);
    forall j | 0 <= j < n
      ensures Sum(Column(m, j)) == Received(pi, p, j)
    {
      var c := Contributions(pi, p, j, n);
      ReceivedIsSum(pi, p, j);
      forall i | 0 <= i < n ensures Column(m, j)[i] == c[i] {
        assert m[i][j] == pi[i][j] * p[i];
      }
      assert Column(m, j) == c;
    }
  }

  lemma FlowsRows(L: Matrix, lbar: Vector, p: Vector)
    requires IsMatrix(L, |p|, |p|) && lbar == RowSums(L)
    ensures RowSums(Flows(Relative(L, lbar), p)) == PaidOut(lbar, p)
  {
    var n := |p|;
    var pi := Relative(L, lbar);
    var m := Flows(pi, p);
    forall i | 0 <= i < n
      ensures Sum(m[i]) == if lbar[i] == 0.0 then 0.0 else p[i]
    {
      SumScale(p[i], pi[i], m[i]);
      RelativeRowSum(L, lbar, i);
    }
  }

  /** No money is created or destroyed by Πᵀ: what all banks receive together
      equals what the banks that owe something pay. */
  lemma Conservation(L: Matrix, lbar: Vector, p: Vector)
    requires IsMatrix(L, |p|, |p|) && lbar == RowSums(L)
    ensures Sum(ReceivedAll(Relative(L, lbar), p)) == Sum(PaidOut(lbar, p))
  {
    var pi := Relative(L, lbar);
    SumExchange(Flows(pi, p), |p|);
    FlowsColumns(pi, p);
    FlowsRows(L, lbar, p);
  }
}

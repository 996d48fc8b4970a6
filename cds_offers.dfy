/** How protection on a newly funded firm is bought
    (`abm_vec/create_network_connections.py`, lines 138-214): who buys, who
    may sell, which sellers each buyer asks, and which offer each buyer
    takes. The binomial, choice and normal draws are parameters. */
module CdsOffers {
  import opened Vectors
  import opened Options
  import opened Sorting
  import opened BankPricing
  import opened Permutations

  /** The naked buyers: every bank below `n` other than the lender whose
      draw came up, in bank order. */
  function NakedBuyers(lender: int, n: nat, naked: int -> bool): (r: seq<int>)
    ensures Increasing(r)
    ensures forall k :: 0 <= k < |r| ==> 0 <= r[k] < n
    ensures forall x :: x in r <==> 0 <= x < n && x != lender && naked(x)
  {
    if n == 0 then []
    else NakedBuyers(lender, n - 1, naked) + if naked(n - 1) && n - 1 != lender then [n - 1] else []
  }

  /** `cds_buyers`: the lender first when its covered draw came up, then the
      naked buyers. No bank appears twice. */
  function Buyers(lender: int, n: nat, covered: bool, naked: int -> bool): (r: seq<int>)
    requires 0 <= lender < n
    ensures Distinct(r)
    ensures forall k :: 0 <= k < |r| ==> 0 <= r[k] < n
    ensures forall x :: x in r <==> (x == lender && covered) || (0 <= x < n && x != lender && naked(x))
  {
    var nakedOnes := NakedBuyers(lender, n, naked);
    var r := (if covered then [lender] else []) + nakedOnes;
    assert forall a, b :: 0 <= a < b < |nakedOnes| ==> nakedOnes[a] != nakedOnes[b] by {
      forall a, b | 0 <= a < b < |nakedOnes| ensures nakedOnes[a] != nakedOnes[b] {
        IncreasingStrict(nakedOnes, a, b);
      }
    }
    assert Distinct(r) by {
      var c := if covered then 1 else 0;
      forall a, b | 0 <= a < b < |r| ensures r[a] != r[b] {
        if a >= c {
          assert r[a] == nakedOnes[a - c] && r[b] == nakedOnes[b - c];
        } else {
          assert r[b] == nakedOnes[b - 1] && r[b] in nakedOnes;
        }
      }
    }
    r
  }

  lemma {:induction false} IncreasingStrict(s: seq<int>, a: int, b: int)
    requires Increasing(s) && 0 <= a < b < |s|
    ensures s[a] < s[b]
  {
    if b > a + 1 {
      IncreasingStrict(s, a, b - 1);
    }
  }

  /** `cds_sellers`: every bank below `n` that neither buys nor lent to the
      firm, in bank order. */
  function Sellers(buyers: seq<int>, lender: int, n: nat): (r: seq<int>)
    ensures Increasing(r)
    ensures forall k :: 0 <= k < |r| ==> 0 <= r[k] < n
    ensures forall x :: x in r <==> 0 <= x < n && x !in buyers && x != lender
  {
    if n == 0 then []
    else Sellers(buyers, lender, n - 1) + if n - 1 !in buyers && n - 1 != lender then [n - 1] else []
  }

  /** `np.random.choice(pool, m, replace=False)`: draw `k` takes the entry of
      rank `rank(k)` (modulo what is left) out of the remaining pool, so every
      draw without replacement is some `rank`. */
  function Choose(pool: seq<int>, m: nat, rank: nat -> nat): (r: seq<int>)
    requires m <= |pool|
    ensures |r| == m
    ensures multiset(r) <= multiset(pool)
    decreases m
  {
    if m == 0 then []
    else
      var i := rank(0) % |pool|;
      var rest := pool[..i] + pool[i + 1..];
      assert pool == pool[..i] + [pool[i]] + pool[i + 1..];
      [pool[i]] + Choose(rest, m - 1, k => rank(k + 1))
  }

  /** What is drawn from a pool is in the pool. */
  lemma ChooseInPool(pool: seq<int>, m: nat, rank: nat -> nat, k: int)
    requires m <= |pool| && 0 <= k < m
    ensures Choose(pool, m, rank)[k] in pool
  {
    var r := Choose(pool, m, rank);
    assert r[k] in multiset(r);
  }

  /** An offer: the selling bank and its spread. */
  type Offer = (int, real)

  function Spread(o: Offer): real {
    o.1
  }

  /** The asked sellers, each quoting `provide_cds_spread` with its own
      normal draw. */
  function Quotes(asked: seq<int>, pd: real, policy: real, rate: real, noise: nat -> real): (r: seq<Offer>)
    requires policy != -1.0
    ensures |r| == |asked|
    ensures forall k :: 0 <= k < |r| ==> r[k].0 == asked[k] && r[k].1 == ProvideCdsSpread(pd, policy, rate, noise(k))
  {
    seq(|asked|, k requires 0 <= k < |asked| => (asked[k], ProvideCdsSpread(pd, policy, rate, noise(k))))
  }

  /** The first offer, in order, that `affordable` accepts. */
  function FirstAffordable(offers: seq<Offer>, affordable: Offer -> bool): (r: Option<nat>)
    ensures r.Some? ==> r.value < |offers| && affordable(offers[r.value])
    ensures r.Some? ==> forall k :: 0 <= k < r.value ==> !affordable(offers[k])
    ensures r.None? <==> forall k :: 0 <= k < |offers| ==> !affordable(offers[k])
  {
    if |offers| == 0 then None
    else if affordable(offers[0]) then Some(0)
    else
      var rest := FirstAffordable(offers[1..], affordable);
      if rest.None? then
        assert forall k :: 0 <= k < |offers| ==> !affordable(offers[k]) by {
          forall k | 0 <= k < |offers| ensures !affordable(offers[k]) {
            if k > 0 {
              assert offers[k] == offers[1..][k - 1];
            }
          }
        }
        None
      else
        Some(rest.value + 1)
  }

  /** Taken from offers sorted by spread, the first affordable offer is the
      cheapest affordable one. */
  lemma FirstAffordableIsCheapest(offers: seq<Offer>, affordable: Offer -> bool, k: int)
    requires SortedBy(offers, Spread)
    requires FirstAffordable(offers, affordable).Some?
    requires 0 <= k < |offers| && affordable(offers[k])
    ensures offers[FirstAffordable(offers, affordable).value].1 <= offers[k].1
  {
    var i := FirstAffordable(offers, affordable).value;
    assert i <= k;
    if i < k {
      assert Spread(offers[i]) <= Spread(offers[k]);
    }
  }

  /** A concluded contract: buyer, seller and spread. */
  datatype Deal = Deal(buyer: int, seller: int, spread: real)

  /** Everything one firm's protection round depends on beyond the buyers. */
  datatype Round = Round(sellers: seq<int>, requests: nat, pd: real, policy: real, rate: real,
                         rank: (int, nat) -> nat, noise: (int, nat) -> real, affordable: Offer -> bool)

  predicate RoundOk(rd: Round) {
    rd.requests <= |rd.sellers| && rd.policy != -1.0
  }

  /** The offers buyer `b` receives, sorted by spread. */
  function SortedQuotes(rd: Round, b: int): (r: seq<Offer>)
    requires RoundOk(rd)
    ensures SortedBy(r, Spread) && |r| == rd.requests
    ensures forall k :: 0 <= k < |r| ==> r[k].0 in rd.sellers
  {
    var asked := Choose(rd.sellers, rd.requests, k => rd.rank(b, k));
    var quotes := Quotes(asked, rd.pd, rd.policy, rd.rate, (k: nat) => rd.noise(b, k));
    var r := SortByKey(quotes, Spread);
    assert forall k :: 0 <= k < |r| ==> r[k].0 in rd.sellers by {
      forall k | 0 <= k < |r| ensures r[k].0 in rd.sellers {
        SortByKeyFrom(quotes, Spread, k);
        var j :| 0 <= j < |quotes| && quotes[j] == r[k];
        ChooseInPool(rd.sellers, rd.requests, k => rd.rank(b, k), j);
      }
    }
    r
  }

  /** The deal buyer `b` closes, if any offer is affordable. */
  function DealFor(rd: Round, b: int): (r: Option<Deal>)
    requires RoundOk(rd)
    ensures r.Some? ==> r.value.buyer == b && r.value.seller in rd.sellers && rd.affordable((r.value.seller, r.value.spread))
  {
    var offers := SortedQuotes(rd, b);
    var first := FirstAffordable(offers, rd.affordable);
    if first.None? then None else Some(Deal(b, offers[first.value].0, offers[first.value].1))
  }

  /** The deals of all buyers, in buyer order; buyers without an affordable
      offer are dropped. */
  function Deals(rd: Round, buyers: seq<int>): (r: seq<Deal>)
    requires RoundOk(rd)
    ensures |r| <= |buyers|
    ensures forall k :: 0 <= k < |r| ==> r[k].buyer in buyers && r[k].seller in rd.sellers
  {
    if |buyers| == 0 then []
    else
      var n := |buyers| - 1;
      var d := DealFor(rd, buyers[n]);
      Deals(rd, buyers[..n]) + if d.Some? then [d.value] else []
  }

  /** Every listed deal is the one its buyer closes. */
  lemma {:induction false} DealListed(rd: Round, buyers: seq<int>, k: int)
    requires RoundOk(rd) && 0 <= k < |Deals(rd, buyers)|
    ensures DealFor(rd, Deals(rd, buyers)[k].buyer) == Some(Deals(rd, buyers)[k])
  {
    var n := |buyers| - 1;
    var front := Deals(rd, buyers[..n]);
    if k < |front| {
      DealListed(rd, buyers[..n], k);
      assert Deals(rd, buyers)[k] == front[k];
    }
  }

  /** Every buyer that closes a deal has it listed. */
  lemma DealsComplete(rd: Round, buyers: seq<int>, j: int)
    requires RoundOk(rd) && 0 <= j < |buyers| && DealFor(rd, buyers[j]).Some?
    ensures DealFor(rd, buyers[j]).value in Deals(rd, buyers)
  {
    var os := DealOptions(rd, buyers);
    DealsAreListed(rd, buyers);
    ListedComplete(os, j);
  }

  /** Each buyer's deal, if any, in buyer order. */
  function DealOptions(rd: Round, buyers: seq<int>): (os: seq<Option<Deal>>)
    requires RoundOk(rd)
    ensures |os| == |buyers|
  {
    seq(|buyers|, i requires 0 <= i < |buyers| => DealFor(rd, buyers[i]))
  }

  /** The present values of a sequence of options, in order. */
  function Listed(os: seq<Option<Deal>>): seq<Deal> {
    if |os| == 0 then []
    else Listed(os[..|os| - 1]) + if os[|os| - 1].Some? then [os[|os| - 1].value] else []
  }

  lemma {:induction false} DealsAreListed(rd: Round, buyers: seq<int>)
    requires RoundOk(rd)
    ensures Deals(rd, buyers) == Listed(DealOptions(rd, buyers))
  {
    if |buyers| > 0 {
      var n := |buyers| - 1;
      DealsAreListed(rd, buyers[..n]);
      var os := DealOptions(rd, buyers);
      assert os[..n] == DealOptions(rd, buyers[..n]);
      assert os[n] == DealFor(rd, buyers[n]);
      assert Listed(os) == Listed(os[..n]) + if os[n].Some? then [os[n].value] else [];
    }
  }

  lemma {:induction false} ListedComplete(os: seq<Option<Deal>>, j: int)
    requires 0 <= j < |os| && os[j].Some?
    ensures os[j].value in Listed(os)
  {
    var n := |os| - 1;
    if j < n {
      assert os[..n][j] == os[j];
      ListedComplete(os[..n], j);
    }
  }

  /** Distinct buyers close at most one deal each. */
  lemma {:induction false} DealsDistinctBuyers(rd: Round, buyers: seq<int>)
    requires RoundOk(rd) && Distinct(buyers)
    ensures forall a, c :: 0 <= a < c < |Deals(rd, buyers)| ==> Deals(rd, buyers)[a].buyer != Deals(rd, buyers)[c].buyer
  {
    if |buyers| > 0 {
      var n := |buyers| - 1;
      assert Distinct(buyers[..n]);
      DealsDistinctBuyers(rd, buyers[..n]);
      var front := Deals(rd, buyers[..n]);
      var r := Deals(rd, buyers);
      if DealFor(rd, buyers[n]).Some? {
        assert buyers[n] !in buyers[..n];
        forall a, c | 0 <= a < c < |r| ensures r[a].buyer != r[c].buyer {
          if c == |front| {
            assert r[a] == front[a];
            assert r[a].buyer in buyers[..n];
          } else {
            assert r[a] == front[a] && r[c] == front[c];
          }
        }
      } else {
        assert r == front;
      }
    }
  }

  /** In a round among the sellers `Sellers` leaves for distinct buyers,
      every deal is between a buyer and a seller that is neither a buyer nor
      the lender, and no buyer closes two deals. */
  lemma DealsParties(rd: Round, buyers: seq<int>, lender: int, n: nat) returns (deals: seq<Deal>)
    requires RoundOk(rd) && Distinct(buyers) && rd.sellers == Sellers(buyers, lender, n)
    requires forall k :: 0 <= k < |buyers| ==> 0 <= buyers[k] < n
    ensures deals == Deals(rd, buyers)
    ensures forall k :: 0 <= k < |deals| ==>
              && 0 <= deals[k].buyer < n && 0 <= deals[k].seller < n
              && deals[k].buyer != deals[k].seller && deals[k].seller != lender
    ensures forall k, a :: 0 <= k < |deals| && 0 <= a < |deals| ==> deals[k].seller != deals[a].buyer
    ensures forall a, c :: 0 <= a < c < |deals| ==> deals[a].buyer != deals[c].buyer
  {
    deals := Deals(rd, buyers);
    DealsDistinctBuyers(rd, buyers);
  }

  /** The buyer a deal is listed for received an offer it could afford, and
      none cheaper that it could afford. */
  lemma DealIsCheapestAffordable(rd: Round, b: int, k: int)
    requires RoundOk(rd) && DealFor(rd, b).Some?
    requires 0 <= k < rd.requests && rd.affordable(SortedQuotes(rd, b)[k])
    ensures DealFor(rd, b).value.spread <= SortedQuotes(rd, b)[k].1
  {
    FirstAffordableIsCheapest(SortedQuotes(rd, b), rd.affordable, k);
  }
}

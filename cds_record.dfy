/** The CDS book kept per reference firm: `cds_dict[firm] = [credit, buyers,
    sellers]` in `abm_vec/create_network_connections.py`, read back when the
    interbank market is cleared. */
module CdsRecords {

  /** The notional (the firm's loan) and the buyer and seller banks of every
      contract written on one firm, paired by position. */
  datatype CdsRecord = CdsRecord(notional: real, buyers: seq<int>, sellers: seq<int>)

  /** Buyer and seller lists pair up and name banks below `numBanks`. */
  predicate ValidRecord(r: CdsRecord, numBanks: nat) {
    && |r.buyers| == |r.sellers|
    && (forall k :: 0 <= k < |r.buyers| ==> 0 <= r.buyers[k] < numBanks)
    && (forall k :: 0 <= k < |r.sellers| ==> 0 <= r.sellers[k] < numBanks)
  }

  predicate ValidBook(book: map<int, CdsRecord>, numBanks: nat) {
    forall f :: f in book ==> ValidRecord(book[f], numBanks)
  }

  /** Some contract of `r` has seller `i` and buyer `j`. */
  predicate Pairs(r: CdsRecord, i: int, j: int)
    requires |r.buyers| == |r.sellers|
  {
    exists k :: 0 <= k < |r.sellers| && r.sellers[k] == i && r.buyers[k] == j
  }
}

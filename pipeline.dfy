// The page's load-and-process step: detection, then the PnL of every
// confirmed wallet.

module Pipeline {
  import opened Records
  import opened Selection
  import opened Qualification
  import opened Pnl

  /** The wallets of the rows returned by detection are the wallets with a
      potential sniper buy. */
  lemma PotentialMakers(data: Dataset, launch: map<string, int>, potential: seq<SwapRecord>)
    requires forall r :: r in potential <==> IsPotentialSniper(data, launch, r)
    ensures Makers(potential) == set r | r in data.records && IsPotentialSniper(data, launch, r) :: r.maker
  {
  }

  /** `process_sniper_data` followed by `calculate_pnl` on its result: one row
      per wallet with a potential sniper buy, and no other row; each row is
      the PnL of its wallet. */
  method SniperPnl(data: Dataset, launch: map<string, int>) returns (rows: seq<PnLResult>)
    requires PositiveBuys(data.records)
    ensures Wallets(rows) == set r | r in data.records && IsPotentialSniper(data, launch, r) :: r.maker
    ensures forall i, j :: 0 <= i < j < |rows| ==> rows[i].wallet != rows[j].wallet
    ensures forall i :: 0 <= i < |rows| ==> data.records != [] && rows[i] == PairResult(data, rows[i].wallet)
  {
    var potential := ProcessSniperData(data, launch);
    rows := CalculatePnl(potential, data);
    RowsArePairResults(data, potential, rows);
    PotentialMakers(data, launch, potential);
  }
}

// The qualification gates of `process_sniper_data`: priority fee, genesis
// proximity and a quick exit by the same wallet.

module Qualification {
  import opened Records
  import opened Selection
  import opened Grouping

  /** Smallest fee (ETH) that passes the fee gate, strictly above. */
  const MinFee: real := 0.000002

  /** A buy is a genesis buy when its block is at most this far past launch. */
  const GenesisSlack: int := 100

  /** `20 * 60` seconds: the longest buy-to-sell gap that confirms a sniper. */
  const ExitWindow: int := 1200

  /** The fee gate; it is skipped when the fee column is absent. */
  predicate PassesFeeGate(hasFeeColumn: bool, r: SwapRecord)
  {
    !hasFeeColumn || r.fee > MinFee
  }

  /** `is_sniper_buy`: the token has a launch block and the buy is within
      `GenesisSlack` blocks of it. */
  predicate PassesGenesisGate(token: string, launch: map<string, int>, r: SwapRecord)
  {
    token in launch && r.blockNumber <= launch[token] + GenesisSlack
  }

  /** A sell by the buy's wallet at most `ExitWindow` seconds after it, and not
      before it (`time_diff.between(0, 1200)`, both ends inclusive). */
  predicate QuickExit(buy: SwapRecord, sell: SwapRecord)
  {
    sell.swapType == Sell && sell.maker == buy.maker && 0 <= sell.time - buy.time <= ExitWindow
  }

  /** A row of `df_sniper_buys`: a buy of a large burst that passes both gates. */
  predicate IsSniperBuy(data: Dataset, launch: map<string, int>, r: SwapRecord)
  {
    && r in data.records
    && r.swapType == Buy
    && InLargeBurst(data.records, r)
    && PassesFeeGate(data.hasFeeColumn, r)
    && PassesGenesisGate(data.token, launch, r)
  }

  /** A row of `potential_sniper_df`: a sniper buy whose wallet sold quickly
      after one of its sniper buys (not necessarily this one). */
  ghost predicate IsPotentialSniper(data: Dataset, launch: map<string, int>, r: SwapRecord)
  {
    && IsSniperBuy(data, launch, r)
    && exists b, s :: IsSniperBuy(data, launch, b) && s in data.records && QuickExit(b, s) && b.maker == r.maker
  }

  /** `quick_sells["maker"]`: the wallets with a sniper buy followed by a quick sell. */
  function QuickSellMakers(buys: seq<SwapRecord>, sells: seq<SwapRecord>): set<string>
  {
    set b, s | b in buys && s in sells && QuickExit(b, s) :: b.maker
  }

  /** `process_sniper_data`: the burst stage, then the fee and genesis gates,
      then the exit correlation by wallet. */
  method ProcessSniperData(data: Dataset, launch: map<string, int>) returns (potential: seq<SwapRecord>)
    ensures forall r :: r in potential <==> IsPotentialSniper(data, launch, r)
  {
    var chunked := ChunkLargeBuys(data.records);
    var highGas := Filter(chunked, (r: SwapRecord) => PassesFeeGate(data.hasFeeColumn, r));
    var sniperBuys := Filter(highGas, (r: SwapRecord) => PassesGenesisGate(data.token, launch, r));
    var sells := Filter(data.records, (r: SwapRecord) => r.swapType == Sell);
    var quickMakers := QuickSellMakers(sniperBuys, sells);
    potential := Filter(sniperBuys, (r: SwapRecord) => r.maker in quickMakers);
    assert forall r :: r in sniperBuys <==> IsSniperBuy(data, launch, r);
    forall r ensures r in potential <==> IsPotentialSniper(data, launch, r) {
      if r in potential {
        var b, s :| b in sniperBuys && s in sells && QuickExit(b, s) && b.maker == r.maker;
      }
      if IsPotentialSniper(data, launch, r) {
        var b, s :| IsSniperBuy(data, launch, b) && s in data.records && QuickExit(b, s) && b.maker == r.maker;
        assert b in sniperBuys && s in sells;
      }
    }
  }

  /** A token without a launch block yields no sniper at all. */
  lemma NoLaunchNoSniper(data: Dataset, launch: map<string, int>, r: SwapRecord)
    requires data.token !in launch
    ensures !IsPotentialSniper(data, launch, r)
  {
  }

  /** With the fee column present, a buy whose fee is not above `MinFee` is
      never a sniper buy. */
  lemma LowFeeNoSniper(data: Dataset, launch: map<string, int>, r: SwapRecord)
    requires data.hasFeeColumn && r.fee <= MinFee
    ensures !IsSniperBuy(data, launch, r)
  {
  }

  /** A buy more than `GenesisSlack` blocks after launch is never a sniper buy. */
  lemma LateBuyNoSniper(data: Dataset, launch: map<string, int>, r: SwapRecord)
    requires data.token in launch && r.blockNumber > launch[data.token] + GenesisSlack
    ensures !IsSniperBuy(data, launch, r)
  {
  }

  /** A wallet that never sells is never a sniper. */
  lemma NoSellNoSniper(data: Dataset, launch: map<string, int>, r: SwapRecord)
    requires forall s :: s in data.records && s.maker == r.maker ==> s.swapType != Sell
    ensures !IsPotentialSniper(data, launch, r)
  {
  }

  /** Only sells that come at or after a sniper buy, within the exit window,
      confirm a wallet: if every sell of the wallet precedes all its sniper
      buys or comes too late, none of its buys is a potential sniper. */
  lemma NoQuickExitNoSniper(data: Dataset, launch: map<string, int>, r: SwapRecord)
    requires forall b, s ::
               (IsSniperBuy(data, launch, b) && b.maker == r.maker && s in data.records && s.swapType == Sell && s.maker == r.maker)
               ==> s.time < b.time || s.time - b.time > ExitWindow
    ensures !IsPotentialSniper(data, launch, r)
  {
  }

  /** Confirmation is per wallet: once one sniper buy of a wallet is a
      potential sniper, so is every other sniper buy of that wallet. */
  lemma WalletConfirmed(data: Dataset, launch: map<string, int>, r: SwapRecord, r': SwapRecord)
    requires IsPotentialSniper(data, launch, r)
    requires IsSniperBuy(data, launch, r') && r'.maker == r.maker
    ensures IsPotentialSniper(data, launch, r')
  {
  }
}

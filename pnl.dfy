// `calculate_pnl`: one row per confirmed wallet, replaying the wallet's whole
// history of the token in time order.

module Pnl {
  import opened Records
  import opened Selection
  import opened Sorting
  import opened Stats
  import opened Fifo
  import opened Replay

  /** One row of the PnL table, before the 4-decimal rounding. `firstBuy` and
      `lastSell` are None where pandas gives NaT; `feesPaid` is None when the
      dataset has no fee column. */
  datatype PnLResult = PnLResult(
    wallet: string,
    realized: real,
    unrealized: real,
    remaining: real,
    buyCount: nat,
    sellCount: nat,
    firstBuy: Option<int>,
    lastSell: Option<int>,
    taxPaid: real,
    feesPaid: Option<real>)

  /** The rows of one wallet (every row carries the dataset's one token). */
  function PairRows(data: Dataset, maker: string): (s: seq<SwapRecord>)
    ensures forall r :: r in s <==> r in data.records && r.maker == maker
  {
    Filter(data.records, (r: SwapRecord) => r.maker == maker)
  }

  /** The wallet's rows keep every copy of a repeated row, so each copy is
      counted and replayed. */
  lemma PairRowsMultiset(data: Dataset, maker: string)
    ensures forall r :: multiset(PairRows(data, maker))[r] == if r.maker == maker then multiset(data.records)[r] else 0
  {
    FilterMultiset(data.records, (r: SwapRecord) => r.maker == maker);
  }

  /** The wallet's history sorted by time (`df.sort_values(by="timestamp")`). */
  function History(data: Dataset, maker: string): seq<SwapRecord>
  {
    SortByTime(PairRows(data, maker))
  }

  /** The history is in time order and holds exactly the wallet's rows. */
  lemma HistoryMembers(data: Dataset, maker: string)
    ensures SortedByTime(History(data, maker))
    ensures multiset(History(data, maker)) == multiset(PairRows(data, maker))
    ensures forall r :: r in History(data, maker) <==> r in data.records && r.maker == maker
  {
    var h, p := History(data, maker), PairRows(data, maker);
    SortByTimeCorrect(p);
    forall r ensures r in h <==> r in p {
      assert r in h <==> r in multiset(h);
      assert r in p <==> r in multiset(p);
    }
  }

  lemma HistoryPositive(data: Dataset, maker: string)
    requires PositiveBuys(data.records)
    ensures PositiveBuys(History(data, maker))
  {
    HistoryMembers(data, maker);
    var h := History(data, maker);
    forall i | 0 <= i < |h| && h[i].swapType == Buy ensures h[i].outAfterTax > 0.0 {
      assert h[i] in data.records;
    }
  }

  /** The row with the latest time, the earliest such row on a tie. */
  function Latest(s: seq<SwapRecord>): (r: SwapRecord)
    requires s != []
    ensures r in s
    ensures forall x :: x in s ==> x.time <= r.time
  {
    if |s| == 1 then s[0]
    else
      var rest := Latest(s[1..]);
      assert forall x :: x in s ==> x == s[0] || x in s[1..];
      if s[0].time >= rest.time then s[0] else rest
  }

  /** The price of the token's latest row, across all wallets
      (`sort_values(by="timestamp", ascending=False).head(1)`). */
  function LatestPrice(data: Dataset): real
    requires data.records != []
  {
    Latest(data.records).price
  }

  /** What `amount` tokens are worth at `price` (`remaining * latest_price`). */
  function Value(amount: real, price: real): real
  {
    amount * price
  }

  /** The rows of `s` of type `t`. */
  function OfType(s: seq<SwapRecord>, t: SwapType): seq<SwapRecord>
  {
    Filter(s, (r: SwapRecord) => r.swapType == t)
  }

  /** `total_tx_fees`, as `calculate_pnl` reads it: present when the dataset
      has the fee column, otherwise reported as missing. */
  function FeesPaid(data: Dataset, h: seq<SwapRecord>): Option<real>
  {
    if data.hasFeeColumn then Some(SumOf(h, Fee)) else None
  }

  /** The wallet's trade list (`trades[maker]`). */
  function PairTrades(data: Dataset, maker: string): (ts: seq<Trade>)
    requires PositiveBuys(data.records)
    ensures PositiveLots(ts)
  {
    HistoryPositive(data, maker);
    TradesPositive(History(data, maker));
    Trades(History(data, maker))
  }

  /** The lot queue and realized PnL after the wallet's whole history. */
  function PairBook(data: Dataset, maker: string): Book
    requires PositiveBuys(data.records)
  {
    ReplayBook(PairTrades(data, maker), |PairTrades(data, maker)|)
  }

  /** The row `calculate_pnl` produces for a wallet. */
  function PairResult(data: Dataset, maker: string): (row: PnLResult)
    requires PositiveBuys(data.records) && data.records != []
    ensures row.wallet == maker
  {
    var h := History(data, maker);
    var book := PairBook(data, maker);
    var remaining := Total(book.queue);
    PnLResult(
      maker,
      book.realized,
      Value(remaining, LatestPrice(data)),
      remaining,
      CountType(h, Buy),
      CountType(h, Sell),
      MinTime(OfType(h, Buy)),
      MaxTime(OfType(h, Sell)),
      SumOf(h, Tax),
      FeesPaid(data, h))
  }

  /** The remaining tokens are the wallet's holdings (never negative), the sum
      of the amounts of the lots left, and the unrealized PnL values them at
      the price of the token's latest row. */
  lemma PairRemaining(data: Dataset, maker: string)
    requires PositiveBuys(data.records) && data.records != []
    ensures var row, ts := PairResult(data, maker), PairTrades(data, maker);
      && row.remaining >= 0.0
      && row.remaining == Holdings(ts, |ts|)
      && row.unrealized == Value(row.remaining, LatestPrice(data))
    ensures exists r :: r in data.records && r.price == LatestPrice(data)
                        && forall x :: x in data.records ==> x.time <= r.time
  {
    var ts := PairTrades(data, maker);
    RemainingIsHoldings(ts, |ts|);
    var r := Latest(data.records);
    assert r in data.records && r.price == LatestPrice(data);
  }

  /** When the wallet never sells more than it holds, its realized PnL is its
      sales proceeds minus the cost basis of the lots those sales consumed. */
  lemma PairRealized(data: Dataset, maker: string)
    requires PositiveBuys(data.records) && data.records != []
    requires var ts := PairTrades(data, maker); Covered(ts, |ts|)
    ensures var row, ts := PairResult(data, maker), PairTrades(data, maker);
      && row.remaining == BoughtAmount(ts, |ts|) - SoldAmount(ts, |ts|)
      && row.realized == Proceeds(ts, |ts|) - (BoughtBasis(ts, |ts|) - Basis(PairBook(data, maker).queue))
  {
    var ts := PairTrades(data, maker);
    RemainingIsHoldings(ts, |ts|);
    CoveredAccounted(ts, |ts|);
  }

  /** The buy and sell counts are the numbers of the wallet's rows of each
      type, whatever their order. */
  lemma PairCounts(data: Dataset, maker: string)
    requires PositiveBuys(data.records) && data.records != []
    ensures PairResult(data, maker).buyCount == CountType(PairRows(data, maker), Buy)
    ensures PairResult(data, maker).sellCount == CountType(PairRows(data, maker), Sell)
  {
    CountSorted(PairRows(data, maker), Buy);
    CountSorted(PairRows(data, maker), Sell);
  }

  /** The tax total is the sum of the tax of the wallet's rows, and the fee
      total the sum of their fees when the fee column exists; the order of
      the rows does not matter. */
  lemma PairSums(data: Dataset, maker: string)
    requires PositiveBuys(data.records) && data.records != []
    ensures PairResult(data, maker).taxPaid == SumOf(PairRows(data, maker), Tax)
    ensures PairResult(data, maker).feesPaid
         == if data.hasFeeColumn then Some(SumOf(PairRows(data, maker), Fee)) else None
  {
    SumSorted(PairRows(data, maker), Tax);
    SumSorted(PairRows(data, maker), Fee);
  }

  /** The first buy time is the time of the wallet's earliest buy, and None
      exactly when it has no buy; the last sell time likewise. */
  lemma PairTimes(data: Dataset, maker: string)
    requires PositiveBuys(data.records) && data.records != []
    ensures var row := PairResult(data, maker);
      && (row.firstBuy.None? <==> forall r :: r in data.records && r.maker == maker ==> r.swapType != Buy)
      && (row.firstBuy.Some? ==>
            (exists r :: r in data.records && r.maker == maker && r.swapType == Buy && r.time == row.firstBuy.value)
            && forall r :: r in data.records && r.maker == maker && r.swapType == Buy ==> row.firstBuy.value <= r.time)
    ensures var row := PairResult(data, maker);
      && (row.lastSell.None? <==> forall r :: r in data.records && r.maker == maker ==> r.swapType != Sell)
      && (row.lastSell.Some? ==>
            (exists r :: r in data.records && r.maker == maker && r.swapType == Sell && r.time == row.lastSell.value)
            && forall r :: r in data.records && r.maker == maker && r.swapType == Sell ==> r.time <= row.lastSell.value)
  {
    HistoryMembers(data, maker);
    var h := History(data, maker);
    var buys, sells := OfType(h, Buy), OfType(h, Sell);
    MinTimeLeast(buys);
    MaxTimeGreatest(sells);
    assert forall r :: r in buys <==> r in data.records && r.maker == maker && r.swapType == Buy;
    assert forall r :: r in sells <==> r in data.records && r.maker == maker && r.swapType == Sell;
    if buys != [] {
      assert buys[0] in buys;
    }
    if sells != [] {
      assert sells[0] in sells;
    }
  }

  /** The per-wallet body of `calculate_pnl`: sort the wallet's rows, take the
      counts, times and sums, build the trade list, replay it, and value what
      is left at the latest price. */
  method CalculatePair(data: Dataset, maker: string) returns (row: PnLResult)
    requires PositiveBuys(data.records) && data.records != []
    ensures row == PairResult(data, maker)
  {
    var df := History(data, maker);
    var buyCount := CountType(df, Buy);
    var sellCount := CountType(df, Sell);
    var firstBuy := MinTime(OfType(df, Buy));
    var lastSell := MaxTime(OfType(df, Sell));
    var taxPaid := SumOf(df, Tax);
    var feesPaid := FeesPaid(data, df);
    var trades := BuildTrades(df);
    HistoryPositive(data, maker);
    TradesPositive(df);
    var queue, realized := ReplayTrades(trades);
    var remaining := Total(queue);
    var latestPrice := LatestPrice(data);
    var unrealized := Value(remaining, latestPrice);
    row := PnLResult(maker, realized, unrealized, remaining, buyCount, sellCount,
                     firstBuy, lastSell, taxPaid, feesPaid);
  }

  /** `PairResult` for the dataset `data`, as a function of the wallet. */
  function PairRow(data: Dataset): string --> PnLResult
  {
    m requires PositiveBuys(data.records) && data.records != [] => PairResult(data, m)
  }

  /** Row `i` belongs to wallet `ms[i]`. */
  lemma RowsWallets(data: Dataset, ms: seq<string>)
    requires PositiveBuys(data.records) && (ms != [] ==> data.records != [])
    ensures forall i :: 0 <= i < |ms| ==> MapSeq(ms, PairRow(data))[i].wallet == ms[i]
  {
    MapSeqIndex(ms, PairRow(data));
    forall i | 0 <= i < |ms| ensures MapSeq(ms, PairRow(data))[i].wallet == ms[i] {
      assert PairRow(data)(ms[i]).wallet == ms[i];
    }
  }

  /** The wallets the rows belong to. */
  function Wallets(rows: seq<PnLResult>): set<string>
  {
    set i | 0 <= i < |rows| :: rows[i].wallet
  }

  /** The rows for the distinct wallets of `potential` give every such
      wallet one row and no other wallet any. */
  lemma RowPerWallet(data: Dataset, potential: seq<SwapRecord>, rows: seq<PnLResult>)
    requires PositiveBuys(data.records) && (potential != [] ==> data.records != [])
    requires rows == MapSeq(DistinctMakers(potential), PairRow(data))
    ensures Wallets(rows) == Makers(potential)
    ensures forall i, j :: 0 <= i < j < |rows| ==> rows[i].wallet != rows[j].wallet
  {
    var pairs := DistinctMakers(potential);
    if pairs != [] {
      assert pairs[0] in pairs;
    }
    RowsWallets(data, pairs);
    WalletPerRow(pairs, rows);
    DistinctMakersSet(potential);
  }

  /** Each row for the distinct wallets of `potential` is its wallet's PnL. */
  lemma RowsArePairResults(data: Dataset, potential: seq<SwapRecord>, rows: seq<PnLResult>)
    requires PositiveBuys(data.records) && (potential != [] ==> data.records != [])
    requires rows == MapSeq(DistinctMakers(potential), PairRow(data))
    ensures forall i :: 0 <= i < |rows| ==> data.records != [] && rows[i] == PairResult(data, rows[i].wallet)
  {
    var pairs := DistinctMakers(potential);
    if pairs != [] {
      assert pairs[0] in pairs;
    }
    MapSeqIndex(pairs, PairRow(data));
    RowsWallets(data, pairs);
  }

  /** Rows that follow a list of distinct wallets one to one. */
  lemma WalletPerRow(pairs: seq<string>, rows: seq<PnLResult>)
    requires |rows| == |pairs|
    requires forall i, j :: 0 <= i < j < |pairs| ==> pairs[i] != pairs[j]
    requires forall i :: 0 <= i < |rows| ==> rows[i].wallet == pairs[i]
    ensures Wallets(rows) == set i | 0 <= i < |pairs| :: pairs[i]
    ensures forall i, j :: 0 <= i < j < |rows| ==> rows[i].wallet != rows[j].wallet
  {
    forall i, j | 0 <= i < j < |rows| ensures rows[i].wallet != rows[j].wallet {
      assert pairs[i] != pairs[j];
    }
  }

  /** The loop of `calculate_pnl` over the wallets `ms`: one row each, in order. */
  method CalculateRows(data: Dataset, ms: seq<string>) returns (results: seq<PnLResult>)
    requires PositiveBuys(data.records) && (ms != [] ==> data.records != [])
    ensures results == MapSeq(ms, PairRow(data))
  {
    results := [];
    for i := 0 to |ms|
      invariant results == MapSeq(ms[..i], PairRow(data))
    {
      var row := CalculatePair(data, ms[i]);
      MapSeqSnoc(ms, i, PairRow(data));
      results := results + [row];
    }
    assert ms[..|ms|] == ms;
  }

  /** `calculate_pnl`: one row per distinct wallet of the confirmed rows
      (`drop_duplicates` on maker and token), in order of first appearance. */
  method CalculatePnl(potential: seq<SwapRecord>, data: Dataset) returns (results: seq<PnLResult>)
    requires PositiveBuys(data.records)
    requires forall r :: r in potential ==> r in data.records
    ensures |results| == |DistinctMakers(potential)|
    ensures results != [] ==> data.records != []
    ensures results == MapSeq(DistinctMakers(potential), PairRow(data))
    ensures Wallets(results) == Makers(potential)
    ensures forall i, j :: 0 <= i < j < |results| ==> results[i].wallet != results[j].wallet
  {
    var pairs := DistinctMakers(potential);
    if pairs != [] {
      assert pairs[0] in pairs;
    }
    results := CalculateRows(data, pairs);
    RowPerWallet(data, potential, results);
  }
}

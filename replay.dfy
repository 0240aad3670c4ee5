// The replay of one wallet's history in `calculate_pnl`: its rows become a
// trade list, buys open lots, sells consume them oldest first.

module Replay {
  import opened Records
  import opened Stats
  import opened Fifo

  /** An entry of `trades[maker]`: a buy carries the lot it opens, a sell the
      tokens received after tax (`amount`), those taken from the wallet before
      tax (`from_wallet`) and the price. */
  datatype Trade =
    | BuyTrade(lot: Lot)
    | SellTrade(amount: real, fromWallet: real, price: real)

  /** The trade a row contributes; rows that are neither buys nor sells
      contribute none. */
  function TradeOf(r: SwapRecord): (t: Option<Trade>)
    ensures t.Some? <==> r.swapType != Other
    ensures t.Some? && t.value.BuyTrade? <==> r.swapType == Buy
    ensures r.swapType == Buy ==> t.value.lot == Lot(r.outAfterTax, r.outBeforeTax, r.price)
    ensures r.swapType == Sell ==> t.value == SellTrade(r.inAfterTax, r.inBeforeTax, r.price)
  {
    match r.swapType
    case Buy => Some(BuyTrade(Lot(r.outAfterTax, r.outBeforeTax, r.price)))
    case Sell => Some(SellTrade(r.inAfterTax, r.inBeforeTax, r.price))
    case Other => None
  }

  /** The trade list of a history, in the history's order. */
  function Trades(s: seq<SwapRecord>): seq<Trade>
  {
    if s == [] then []
    else
      var init := Trades(s[..|s| - 1]);
      match TradeOf(s[|s| - 1])
      case Some(t) => init + [t]
      case None => init
  }

  /** The trade list has one entry per buy row and one per sell row. */
  lemma {:induction false} TradesLength(s: seq<SwapRecord>)
    ensures |Trades(s)| == CountType(s, Buy) + CountType(s, Sell)
  {
    if s != [] {
      TradesLength(s[..|s| - 1]);
    }
  }

  /** Every buy in the list opens a lot of positive amount. */
  predicate PositiveLots(ts: seq<Trade>)
  {
    forall i :: 0 <= i < |ts| && ts[i].BuyTrade? ==> ts[i].lot.amount > 0.0
  }

  lemma {:induction false} TradesPositive(s: seq<SwapRecord>)
    requires PositiveBuys(s)
    ensures PositiveLots(Trades(s))
  {
    if s != [] {
      TradesPositive(s[..|s| - 1]);
    }
  }

  /** The state of the replay: the lot queue (`buy_queue`) and `realized`. */
  datatype Book = Book(queue: seq<Lot>, realized: real)

  /** One trade applied to the book: a buy appends its lot, a sell consumes
      lots oldest first and adds its gain to the realized PnL. */
  function Apply(b: Book, t: Trade): (b': Book)
    requires AllPositive(b.queue)
    requires t.BuyTrade? ==> t.lot.amount > 0.0
    ensures AllPositive(b'.queue)
  {
    match t
    case BuyTrade(lot) => Book(b.queue + [lot], b.realized)
    case SellTrade(amount, fromWallet, price) =>
      var m := Consume(b.queue, fromWallet);
      Book(m.rest, b.realized + SellGain(amount * price, fromWallet, m))
  }

  /** The book after replaying the first `n` trades from an empty queue. */
  function ReplayBook(ts: seq<Trade>, n: nat): (b: Book)
    requires n <= |ts| && PositiveLots(ts)
    ensures AllPositive(b.queue)
  {
    if n == 0 then Book([], 0.0) else Apply(ReplayBook(ts, n - 1), ts[n - 1])
  }

  /** The tokens the wallet holds after the first `n` trades, computed without
      lots: buys add, a sell takes what it asks for, or everything when it
      asks for more. */
  function Holdings(ts: seq<Trade>, n: nat): real
    requires n <= |ts|
  {
    if n == 0 then 0.0
    else
      var h := Holdings(ts, n - 1);
      match ts[n - 1]
      case BuyTrade(lot) => h + lot.amount
      case SellTrade(_, fromWallet, _) => if fromWallet <= 0.0 then h else if fromWallet <= h then h - fromWallet else 0.0
  }

  /** The amount left in the lots is the wallet's holdings, which are never
      negative: no sell consumes more than is held. */
  lemma {:induction false} RemainingIsHoldings(ts: seq<Trade>, n: nat)
    requires n <= |ts| && PositiveLots(ts)
    ensures Total(ReplayBook(ts, n).queue) == Holdings(ts, n)
    ensures Holdings(ts, n) >= 0.0
  {
    if n > 0 {
      RemainingIsHoldings(ts, n - 1);
      var q := ReplayBook(ts, n - 1).queue;
      match ts[n - 1]
      case BuyTrade(lot) =>
        TotalAppend(q, lot);
      case SellTrade(_, fromWallet, _) =>
        ConsumeAmount(q, fromWallet);
    }
  }

  /** Tokens sold (before tax) over the first `n` trades. */
  function SoldAmount(ts: seq<Trade>, n: nat): real
    requires n <= |ts|
  {
    if n == 0 then 0.0
    else SoldAmount(ts, n - 1) + (if ts[n - 1].SellTrade? then ts[n - 1].fromWallet else 0.0)
  }

  /** Tokens bought (after tax) over the first `n` trades. */
  function BoughtAmount(ts: seq<Trade>, n: nat): real
    requires n <= |ts|
  {
    if n == 0 then 0.0
    else BoughtAmount(ts, n - 1) + (if ts[n - 1].BuyTrade? then ts[n - 1].lot.amount else 0.0)
  }

  /** Sales proceeds (`amount * price`) over the first `n` trades. */
  function Proceeds(ts: seq<Trade>, n: nat): real
    requires n <= |ts|
  {
    if n == 0 then 0.0
    else Proceeds(ts, n - 1) + (if ts[n - 1].SellTrade? then ts[n - 1].amount * ts[n - 1].price else 0.0)
  }

  /** The cost basis (`cost * price`) of every lot bought in the first `n` trades. */
  function BoughtBasis(ts: seq<Trade>, n: nat): real
    requires n <= |ts|
  {
    if n == 0 then 0.0
    else BoughtBasis(ts, n - 1) + (if ts[n - 1].BuyTrade? then ts[n - 1].lot.cost * ts[n - 1].lot.price else 0.0)
  }

  /** Each of the first `n` sells asks for a positive amount and no more than
      is held at that point: the data holds no unmatched sale. */
  predicate Covered(ts: seq<Trade>, n: nat)
    requires n <= |ts|
  {
    forall k :: 0 <= k < n && ts[k].SellTrade? ==> 0.0 < ts[k].fromWallet <= Holdings(ts, k)
  }

  /** A covered sell matches all it asks for, so its proceeds shares add up
      to its whole proceeds, and it moves the basis of what it consumes from
      the open lots into the realized PnL. */
  lemma CoveredSell(q: seq<Lot>, amount: real, fromWallet: real, price: real, realized: real, proceeds: real, bought: real)
    requires AllPositive(q) && 0.0 < fromWallet <= Total(q)
    requires realized == proceeds - (bought - Basis(q))
    ensures Consume(q, fromWallet).matched == fromWallet
    ensures realized + SellGain(amount * price, fromWallet, Consume(q, fromWallet))
         == (proceeds + amount * price) - (bought - Basis(Consume(q, fromWallet).rest))
  {
    var m := Consume(q, fromWallet);
    ConsumeAmount(q, fromWallet);
    ConsumeBasis(q, fromWallet);
    ShareWhole(amount * price, fromWallet);
  }

  /** Replaying a buy: its lot joins the back of the queue. */
  lemma BuyStep(ts: seq<Trade>, n: nat, lot: Lot)
    requires 0 < n <= |ts| && PositiveLots(ts) && ts[n - 1] == BuyTrade(lot)
    ensures ReplayBook(ts, n) == Book(ReplayBook(ts, n - 1).queue + [lot], ReplayBook(ts, n - 1).realized)
    ensures Holdings(ts, n) == Holdings(ts, n - 1) + lot.amount
    ensures BoughtAmount(ts, n) == BoughtAmount(ts, n - 1) + lot.amount
    ensures SoldAmount(ts, n) == SoldAmount(ts, n - 1)
    ensures Proceeds(ts, n) == Proceeds(ts, n - 1)
    ensures BoughtBasis(ts, n) == BoughtBasis(ts, n - 1) + lot.cost * lot.price
  {
  }

  /** Replaying a sell: it consumes lots and adds its gain. */
  lemma SellStep(ts: seq<Trade>, n: nat, amount: real, fromWallet: real, price: real)
    requires 0 < n <= |ts| && PositiveLots(ts) && ts[n - 1] == SellTrade(amount, fromWallet, price)
    ensures var b, m := ReplayBook(ts, n - 1), Consume(ReplayBook(ts, n - 1).queue, fromWallet);
      ReplayBook(ts, n) == Book(m.rest, b.realized + SellGain(amount * price, fromWallet, m))
  {
  }

  /** The running sums over a sell: it adds to what is sold and to the
      proceeds, and a covered sell takes what it asks for from the holdings. */
  lemma SellSums(ts: seq<Trade>, n: nat, amount: real, fromWallet: real, price: real)
    requires 0 < n <= |ts| && ts[n - 1] == SellTrade(amount, fromWallet, price)
    ensures fromWallet > 0.0 && fromWallet <= Holdings(ts, n - 1) ==> Holdings(ts, n) == Holdings(ts, n - 1) - fromWallet
    ensures BoughtAmount(ts, n) == BoughtAmount(ts, n - 1)
    ensures SoldAmount(ts, n) == SoldAmount(ts, n - 1) + fromWallet
    ensures Proceeds(ts, n) == Proceeds(ts, n - 1) + amount * price
    ensures BoughtBasis(ts, n) == BoughtBasis(ts, n - 1)
  {
  }

  /** The holdings and the realized PnL after `n` trades, in terms of the
      running sums. */
  ghost predicate Accounted(ts: seq<Trade>, n: nat)
    requires n <= |ts| && PositiveLots(ts)
  {
    && Holdings(ts, n) == BoughtAmount(ts, n) - SoldAmount(ts, n)
    && ReplayBook(ts, n).realized == Proceeds(ts, n) - (BoughtBasis(ts, n) - Basis(ReplayBook(ts, n).queue))
  }

  lemma BuyAccounted(ts: seq<Trade>, n: nat, lot: Lot)
    requires 0 < n <= |ts| && PositiveLots(ts) && ts[n - 1] == BuyTrade(lot)
    requires Accounted(ts, n - 1)
    ensures Accounted(ts, n)
  {
    BuyStep(ts, n, lot);
    BasisAppend(ReplayBook(ts, n - 1).queue, lot);
  }

  lemma SellAccounted(ts: seq<Trade>, n: nat, amount: real, fromWallet: real, price: real)
    requires 0 < n <= |ts| && PositiveLots(ts) && ts[n - 1] == SellTrade(amount, fromWallet, price)
    requires Accounted(ts, n - 1) && 0.0 < fromWallet <= Holdings(ts, n - 1)
    ensures Accounted(ts, n)
  {
    var b := ReplayBook(ts, n - 1);
    RemainingIsHoldings(ts, n - 1);
    SellStep(ts, n, amount, fromWallet, price);
    SellSums(ts, n, amount, fromWallet, price);
    CoveredSell(b.queue, amount, fromWallet, price, b.realized, Proceeds(ts, n - 1), BoughtBasis(ts, n - 1));
  }

  lemma CoveredPrefix(ts: seq<Trade>, n: nat)
    requires 0 < n <= |ts| && Covered(ts, n)
    ensures Covered(ts, n - 1)
    ensures ts[n - 1].SellTrade? ==> 0.0 < ts[n - 1].fromWallet <= Holdings(ts, n - 1)
  {
  }

  /** When every sell is covered, the holdings are what was bought minus what
      was sold, and the realized PnL is the proceeds minus the cost basis of
      the lots consumed (bought basis minus the basis still open). */
  lemma {:induction false} CoveredAccounted(ts: seq<Trade>, n: nat)
    requires n <= |ts| && PositiveLots(ts) && Covered(ts, n)
    ensures Accounted(ts, n)
  {
    if n > 0 {
      CoveredPrefix(ts, n);
      CoveredAccounted(ts, n - 1);
      var t := ts[n - 1];
      if t.BuyTrade? {
        BuyAccounted(ts, n, t.lot);
      } else {
        SellAccounted(ts, n, t.amount, t.fromWallet, t.price);
      }
    }
  }

  /** The trade list is built by appending one entry per buy or sell row
      (`trades[maker].append`), in history order. */
  method BuildTrades(history: seq<SwapRecord>) returns (trades: seq<Trade>)
    ensures trades == Trades(history)
  {
    trades := [];
    for i := 0 to |history|
      invariant trades == Trades(history[..i])
    {
      assert history[..i + 1][..i] == history[..i];
      var tx := history[i];
      if tx.swapType == Buy {
        trades := trades + [BuyTrade(Lot(tx.outAfterTax, tx.outBeforeTax, tx.price))];
      } else if tx.swapType == Sell {
        trades := trades + [SellTrade(tx.inAfterTax, tx.inBeforeTax, tx.price)];
      }
    }
    assert history[..|history|] == history;
  }

  /** The replay loop over `trades[maker]`: buys are appended to `buy_queue`,
      sells matched against it, their gains added to `realized`. */
  method ReplayTrades(trades: seq<Trade>) returns (queue: seq<Lot>, realized: real)
    requires PositiveLots(trades)
    ensures Book(queue, realized) == ReplayBook(trades, |trades|)
  {
    queue := [];
    realized := 0.0;
    for i := 0 to |trades|
      invariant Book(queue, realized) == ReplayBook(trades, i)
    {
      match trades[i]
      case BuyTrade(lot) =>
        queue := queue + [lot];
      case SellTrade(amount, fromWallet, price) =>
        var gain;
        queue, gain := MatchSell(queue, amount, fromWallet, price);
        realized := realized + gain;
    }
  }
}

// The fee column in `calculate_pnl`: the detection stage tolerates a dataset
// without `transactionFee`, the PnL stage does not.

module Findings {
  import opened Records
  import opened Selection
  import opened Sorting
  import opened Stats
  import opened Chunking
  import opened Grouping
  import opened Qualification
  import opened Pnl

  /** `calculate_pnl` as written: the fee total reads the `transactionFee`
      column of the wallet's rows unconditionally, so the first confirmed
      wallet of a dataset without that column raises a KeyError; with no
      confirmed wallet the loop body never runs. */
  function CalculatePnlAsWritten(potential: seq<SwapRecord>, data: Dataset): (r: Result<seq<PnLResult>>)
    requires PositiveBuys(data.records)
    requires forall x :: x in potential ==> x in data.records
    ensures r.Err? <==> potential != [] && !data.hasFeeColumn
    ensures r.Ok? ==> |r.value| == |DistinctMakers(potential)|
  {
    var pairs := DistinctMakers(potential);
    assert potential != [] ==> potential[0] in potential;
    if pairs != [] && !data.hasFeeColumn then Err("KeyError: 'transactionFee'")
    else Ok(MapSeq(pairs, PairRow(data)))
  }

  /** A dataset without the fee column: one wallet buys 200,000 tokens (before
      tax) one block after launch and sells a minute later. */
  function ExampleBuy(): SwapRecord
  {
    SwapRecord(11, "0xb1", "0xw", Buy, 0, 200000.0, 198000.0, 0.0, 0.0, 0.5, 2000.0, 0.0)
  }

  function ExampleSell(): SwapRecord
  {
    SwapRecord(15, "0xs1", "0xw", Sell, 60, 0.0, 0.0, 1000.0, 990.0, 0.6, 10.0, 0.0)
  }

  function ExampleData(): Dataset
  {
    Dataset("TKN", [ExampleBuy(), ExampleSell()], false)
  }

  function ExampleLaunch(): map<string, int>
  {
    map["TKN" := 10]
  }

  /** The example's buy passes every gate: the fee gate is skipped, as the
      detection stage does when the column is missing. */
  lemma ExampleIsSniper()
    ensures IsPotentialSniper(ExampleData(), ExampleLaunch(), ExampleBuy())
  {
    var data, b, s := ExampleData(), ExampleBuy(), ExampleSell();
    var buys := Filter(data.records, (r: SwapRecord) => r.swapType == Buy && r.maker == b.maker);
    assert buys == [b];
    assert WalletBuys(data.records, b.maker) == [b];
    BurstsSplit([b], 1);
    assert Volume([b]) == 200000.0;
    assert LargeBuys([b]) == [b];
    assert InLargeBurst(data.records, b);
    assert IsSniperBuy(data, ExampleLaunch(), b);
    assert QuickExit(b, s) && s in data.records;
  }

  /** Counterexample: on the example, `process_sniper_data` confirms exactly
      the one buy, and `calculate_pnl` as written then fails. */
  lemma FeeColumnKeyError()
    ensures forall r :: r in [ExampleBuy()] <==> IsPotentialSniper(ExampleData(), ExampleLaunch(), r)
    ensures CalculatePnlAsWritten([ExampleBuy()], ExampleData()).Err?
  {
    ExampleIsSniper();
    forall r | IsPotentialSniper(ExampleData(), ExampleLaunch(), r) ensures r == ExampleBuy() {
      assert r in ExampleData().records;
    }
  }

  /** The corrected stage on the same input: the example wallet gets its row,
      with the fee total reported as missing and the tax total present. */
  lemma FeeColumnCorrected()
    ensures var rows := MapSeq(DistinctMakers([ExampleBuy()]), PairRow(ExampleData()));
      && |rows| == 1
      && rows[0].wallet == "0xw"
      && rows[0].feesPaid == None
      && rows[0].taxPaid == 2010.0
  {
    assert DistinctMakers([ExampleBuy()]) == ["0xw"];
    MapSeqIndex(["0xw"], PairRow(ExampleData()));
    ExampleRow();
  }

  /** The example wallet's row: no fee total, and the tax of both its rows. */
  lemma ExampleRow()
    ensures PairResult(ExampleData(), "0xw").feesPaid == None
    ensures PairResult(ExampleData(), "0xw").taxPaid == 2010.0
  {
    ExampleHistory();
    assert SumOf([ExampleBuy(), ExampleSell()], Tax) == 2010.0;
  }

  /** The example wallet's history is its two rows, buy first. */
  lemma ExampleHistory()
    ensures History(ExampleData(), "0xw") == [ExampleBuy(), ExampleSell()]
  {
    var b, s := ExampleBuy(), ExampleSell();
    assert PairRows(ExampleData(), "0xw") == [b, s];
    assert [b, s][..1] == [b];
    assert SortByTime([b]) == [b];
    assert InsertByTime(s, [b]) == [b, s];
  }

  /** No buy of the dataset lies in a large burst: `chunked_buys` is empty. */
  predicate NoLargeBurst(records: seq<SwapRecord>)
  {
    forall r :: r in records && r.swapType == Buy ==> !InLargeBurst(records, r)
  }

  /** No buy of a large burst passes the fee gate: `df_high_gas` is empty.
      This holds when no burst is large, and, with the fee column, also when
      every large-burst buy pays at most `MinFee`. */
  predicate NoHighGasRow(data: Dataset)
  {
    forall r :: r in data.records && r.swapType == Buy && InLargeBurst(data.records, r) ==>
      !PassesFeeGate(data.hasFeeColumn, r)
  }

  /** `process_sniper_data` as written, given the rows it would return. When
      `df_high_gas` is empty, the genesis selection yields a frame without
      columns: from an empty list `pd.DataFrame([])` has none, and `apply` on
      an empty frame with columns gives an empty float mask, which selects no
      column. The column selection of the exit join then raises a KeyError. */
  function ProcessSniperDataAsWritten(data: Dataset, launch: map<string, int>, potential: seq<SwapRecord>)
    : (r: Result<seq<SwapRecord>>)
    requires forall x :: x in potential <==> IsPotentialSniper(data, launch, x)
    ensures r.Err? <==> NoHighGasRow(data)
    ensures NoLargeBurst(data.records) ==> r.Err?
    ensures r.Ok? ==> r.value == potential
  {
    var chunked := Filter(data.records, (x: SwapRecord) => x.swapType == Buy && InLargeBurst(data.records, x));
    var highGas := Filter(chunked, (x: SwapRecord) => PassesFeeGate(data.hasFeeColumn, x));
    assert highGas != [] ==> highGas[0] in highGas;
    if highGas == [] then Err("KeyError: ['maker', 'timestampReadable', 'token_name']") else Ok(potential)
  }

  /** A token whose only buy is 50,000 tokens: no burst is large. */
  function QuietBuy(): SwapRecord
  {
    SwapRecord(11, "0xq1", "0xq", Buy, 0, 50000.0, 49500.0, 0.0, 0.0, 0.5, 500.0, 0.00001)
  }

  function QuietData(): Dataset
  {
    Dataset("TKN", [QuietBuy()], true)
  }

  /** Counterexample: the quiet token has no sniper, yet detection as written
      fails on it instead of returning no rows. */
  lemma QuietTokenKeyError()
    ensures forall x :: !IsPotentialSniper(QuietData(), ExampleLaunch(), x)
    ensures ProcessSniperDataAsWritten(QuietData(), ExampleLaunch(), []).Err?
  {
    QuietNoLargeBurst();
  }

  lemma QuietNoLargeBurst()
    ensures NoLargeBurst(QuietData().records)
  {
    var data, b := QuietData(), QuietBuy();
    var buys := Filter(data.records, (r: SwapRecord) => r.swapType == Buy && r.maker == b.maker);
    assert buys == [b];
    assert WalletBuys(data.records, b.maker) == [b];
    BurstsSplit([b], 1);
    assert Volume([b]) == 50000.0;
    assert LargeBuys([b]) == [];
  }

  /** A 200,000-token buy paying a fee of 0.000001. */
  function LowFeeBuy(): SwapRecord
  {
    SwapRecord(11, "0xl1", "0xl", Buy, 0, 200000.0, 198000.0, 0.0, 0.0, 0.5, 2000.0, 0.000001)
  }

  /** A token whose only buy forms a large burst but fails the fee gate. */
  function LowFeeData(): Dataset
  {
    Dataset("TKN", [LowFeeBuy()], true)
  }

  /** Counterexample: the low-fee token has a large burst and no sniper, yet
      detection as written fails on it too, since its fee gate empties
      `df_high_gas`. */
  lemma LowFeeTokenKeyError()
    ensures !NoLargeBurst(LowFeeData().records)
    ensures forall x :: !IsPotentialSniper(LowFeeData(), ExampleLaunch(), x)
    ensures ProcessSniperDataAsWritten(LowFeeData(), ExampleLaunch(), []).Err?
  {
    var data, b := LowFeeData(), LowFeeBuy();
    var buys := Filter(data.records, (r: SwapRecord) => r.swapType == Buy && r.maker == b.maker);
    assert buys == [b];
    assert WalletBuys(data.records, b.maker) == [b];
    BurstsSplit([b], 1);
    assert Volume([b]) == 200000.0;
    assert LargeBuys([b]) == [b];
    assert InLargeBurst(data.records, b);
    assert NoHighGasRow(data);
  }

  /** A dataset whose large-burst buys all fail the fee gate (in particular
      one without a large burst) has no potential sniper, so the corrected
      pipeline gives an empty PnL table rather than failing. */
  lemma QuietTokenNoRows(data: Dataset, launch: map<string, int>, rows: seq<PnLResult>)
    requires NoHighGasRow(data)
    requires Wallets(rows) == set r | r in data.records && IsPotentialSniper(data, launch, r) :: r.maker
    ensures forall x :: !IsPotentialSniper(data, launch, x)
    ensures rows == []
  {
    assert Wallets(rows) == {};
    FirstWallet(rows);
  }

  lemma FirstWallet(rows: seq<PnLResult>)
    ensures rows != [] ==> rows[0].wallet in Wallets(rows)
  {
  }
}

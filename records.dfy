// Canonical swap records as the pipeline receives them from the loader.

module Records {

  datatype Option<T> = None | Some(value: T)

  datatype Result<T> = Ok(value: T) | Err(error: string)

  /** The `swapType` column: "buy", "sell" or anything else. */
  datatype SwapType = Buy | Sell | Other

  /** One row of a token's swap collection, with the per-token amount columns
      (`{TOKEN}_OUT_BeforeTax`, ...) under fixed names. `time` is in seconds. */
  datatype SwapRecord = SwapRecord(
    blockNumber: int,
    txHash: string,
    maker: string,
    swapType: SwapType,
    time: int,
    outBeforeTax: real,
    outAfterTax: real,
    inBeforeTax: real,
    inAfterTax: real,
    price: real,
    tax: real,
    fee: real)

  /** Everything loaded for one token: its symbol, its rows, and whether the
      `transactionFee` column exists at all. */
  datatype Dataset = Dataset(token: string, records: seq<SwapRecord>, hasFeeColumn: bool)

  /** Buys hand the wallet a positive amount after tax (lot amounts are divisors). */
  predicate PositiveBuys(records: seq<SwapRecord>)
  {
    forall i :: 0 <= i < |records| && records[i].swapType == Buy ==> records[i].outAfterTax > 0.0
  }
}

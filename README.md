# Sniper detection and FIFO PnL

A model of the analytics engine of the sniper dashboard (`pages/tokendatatestcopy.py`).
It takes one token's swap records, flags "sniper" wallets, and computes each flagged wallet's profit and loss.

Sniper detection (`process_sniper_data`) has four stages:
- **Bursts.** Each wallet's buys, in time order, are cut into non-sliding 10-minute bursts, each measured from its first buy.
- **Volume.** Only the rows of bursts whose summed pre-tax volume is strictly above 100,000 are kept. This includes the last burst, which no later buy closes.
- **Gates.** A kept row must pay a transaction fee above 0.000002. That gate is skipped when the dataset has no fee column. The row's block must also be at most 100 past the token's launch block, and a token without a known launch block yields nothing.
- **Exit.** A flagged buy is confirmed when its wallet sold between 0 and 1200 seconds, inclusive, after one of its flagged buys.

The PnL stage (`calculate_pnl`) produces one row per confirmed wallet:
- It sorts the wallet's whole history by time.
- It counts buys and sells, takes the first buy and last sell times, and sums tax and fees.
- It replays the trades through a FIFO queue of buy lots. A sell consumes the oldest lots first, and a partly consumed lot goes back to the front with its cost scaled down.
- It values what is left at the price of the token's latest row.

The model is split into these modules:
- `Records`: rows, datasets, `Option`/`Result`.
- `Selection`: row filtering and distinct wallets.
- `Sorting`: the time sort.
- `Stats`: counts, sums, earliest and latest times.
- `BurstWindows`: the burst partition and its uniqueness.
- `Chunking`: large bursts.
- `WalletLoop`: the imperative burst loop of one wallet.
- `Grouping`: the loop over wallets.
- `Qualification`: the gates, the exit join and `process_sniper_data`.
- `Fifo`: lots and the matching loop of one sell.
- `Replay`: trade list, replay loop and accounting identities.
- `Pnl`: the per-wallet row and `calculate_pnl`.
- `Pipeline`: detection followed by PnL.
- `Findings`: the two crashes recorded under Findings.

The loops of the source are methods with invariants. Each but one is proved equal to a function that specifies it, and the properties are lemmas about those functions:
- the burst loop: `WalletLoop.ChunkWallet`;
- the loop over wallets: `Grouping.ChunkLargeBuys`. Its contract is about membership only: a row is kept iff it is a buy in a large burst of its own wallet. Row order and copies are not stated;
- the trade-list build: `Replay.BuildTrades`;
- the replay loop: `Replay.ReplayTrades`;
- the matching loop: `Fifo.MatchSell`;
- the loop over wallets in `calculate_pnl`: `Pnl.CalculateRows`.

`Qualification.ProcessSniperData`, `Pnl.CalculatePnl` and `Pipeline.SniperPnl` model the corrected behaviour of the two crashes recorded under Findings: a token without snipers yields no rows, and a dataset without the fee column reports the fee total as missing. The code as written is modelled separately, in `Findings.ProcessSniperDataAsWritten` and `Findings.CalculatePnlAsWritten`.

Three details of the code decide which wallets are flagged, and the model keeps them:
- Bursts compare each buy with the burst's start, not with the previous buy (line 424).
- The exit window includes a sell at the same second as the buy (line 461).
- Any sell of the wallet in the window counts, not only its first sell after the buy (lines 454-462).

## Model

| member | source | states |
|---|---|---|
| Selection.Filter | pages/tokendatatestcopy.py:407 | a boolean-mask selection keeps exactly the rows satisfying the mask, and never more rows than it was given |
| Selection.FilterMultiset | pages/tokendatatestcopy.py:407 | a boolean-mask selection keeps every copy of each accepted row and no copy of any other row |
| Selection.DistinctMakers | pages/tokendatatestcopy.py:470 | `drop_duplicates` on the wallet column lists exactly the wallets of the rows, each once |
| Selection.DistinctMakersSet | pages/tokendatatestcopy.py:470 | the distinct wallets, as a set, are the set of wallets of the rows |
| Sorting.SortByTimeCorrect | pages/tokendatatestcopy.py:475 | sorting a history by time yields an ascending sequence that is a permutation of the input |
| Stats.SumSorted | pages/tokendatatestcopy.py:475-491 | sorting the history does not change a column total |
| Stats.CountType | pages/tokendatatestcopy.py:484-485 | a count of rows of one type never exceeds the number of rows |
| Stats.CountTypePositions | pages/tokendatatestcopy.py:484-485 | the buy (sell) count is the number of positions holding a buy (sell) |
| Stats.CountSorted | pages/tokendatatestcopy.py:475-485 | sorting the history does not change the count of any type |
| Stats.MinTime | pages/tokendatatestcopy.py:486 | the first buy time is missing (NaT) exactly when there is no buy |
| Stats.MaxTime | pages/tokendatatestcopy.py:487 | the last sell time is missing (NaT) exactly when there is no sell |
| Stats.MinTimeLeast | pages/tokendatatestcopy.py:486 | a present minimum is the time of one of the rows and no row is earlier |
| Stats.MaxTimeGreatest | pages/tokendatatestcopy.py:487 | a present maximum is the time of one of the rows and no row is later |
| BurstWindows.JoinCount | pages/tokendatatestcopy.py:424-425 | the number of buys that join an open burst is at most the number of buys left |
| BurstWindows.JoinCountWindow | pages/tokendatatestcopy.py:424-431 | the buys that join are exactly those within 600 s of the burst's start time; the first one that does not join lies more than 600 s after that start |
| BurstWindows.FirstLen | pages/tokendatatestcopy.py:417-425 | the burst opened by a buy holds that buy and at most all the buys left |
| BurstWindows.FirstBurst | pages/tokendatatestcopy.py:417-431 | the first burst lies within the window of its first buy, and the buy after it lies outside that window |
| BurstWindows.BurstsFlatten | pages/tokendatatestcopy.py:412-437 | the bursts, concatenated in order, are the wallet's time-sorted buy list |
| BurstWindows.BurstsWindowed | pages/tokendatatestcopy.py:416-434 | every burst lies within 600 s of its own first buy, and the first burst starts with the first buy |
| BurstWindows.BurstsSpaced | pages/tokendatatestcopy.py:427-431 | bursts are nonempty and each starts more than 600 s after the previous burst's start |
| BurstWindows.BurstsPartition | pages/tokendatatestcopy.py:412-437 | the bursts form a windowed partition of the buys |
| BurstWindows.BurstsUnique | pages/tokendatatestcopy.py:416-434 | any windowed partition of the buys is the bursts: a buy joins iff it is within 600 s of the burst start, never compared with the previous buy |
| Chunking.BurstsSplit | pages/tokendatatestcopy.py:424-437 | when a prefix is one window and the next buy falls outside it, the kept rows are that prefix if its volume exceeds 100,000, followed by the kept rows of the rest |
| Chunking.KeepLargeMembers | pages/tokendatatestcopy.py:428-437 | a row is kept iff it belongs to a burst whose pre-tax volume is strictly greater than 100,000 |
| Chunking.KeepLargeAllMembers | pages/tokendatatestcopy.py:428-437 | the kept rows of a wallet are exactly the rows of its large bursts |
| Chunking.LargeBuysSubset | pages/tokendatatestcopy.py:429-437 | every kept row is one of the wallet's buys |
| WalletLoop.BurstAt | pages/tokendatatestcopy.py:427-431 | a burst cut off by an out-of-window buy contributes its rows iff it is large, and chunking continues from that buy |
| WalletLoop.Restart | pages/tokendatatestcopy.py:430-434 | a buy that opens a burst sets the start time to its own time and the running sum to its pre-tax amount |
| WalletLoop.OpenStep | pages/tokendatatestcopy.py:417-422 | the first buy of a wallet opens the first burst |
| WalletLoop.JoinStep | pages/tokendatatestcopy.py:424-426 | a buy within 600 s of the start joins the open burst and adds its pre-tax amount to the sum |
| WalletLoop.CloseStep | pages/tokendatatestcopy.py:427-434 | a buy outside the window closes the burst, which is appended iff its sum exceeds 100,000, and opens the next |
| WalletLoop.FinishStep | pages/tokendatatestcopy.py:436-437 | after the last buy the open burst is evaluated the same way, not dropped |
| WalletLoop.ChunkWallet | pages/tokendatatestcopy.py:413-437 | the burst loop of one wallet appends exactly the rows of its large bursts, in order |
| Grouping.WalletBuys | pages/tokendatatestcopy.py:407-412 | a wallet's group is sorted by time and holds exactly that wallet's buys |
| Grouping.WalletBuysMultiset | pages/tokendatatestcopy.py:407-412 | a wallet's group holds every copy of each of its buys, so a repeated buy adds twice to its burst's volume |
| Grouping.ChunkLargeBuys | pages/tokendatatestcopy.py:407-439 | `chunked_buys` holds exactly the buys that belong to a large burst of their own wallet |
| Qualification.ProcessSniperData | pages/tokendatatestcopy.py:406-464 | a row is returned iff it is a large-burst buy that passes the fee gate (skipped without the fee column) and the genesis gate, and its wallet has a sell within 0..1200 s after one of its sniper buys |
| Qualification.LowFeeNoSniper | pages/tokendatatestcopy.py:440-441 | with the fee column present, a buy paying at most 0.000002 never passes |
| Qualification.LateBuyNoSniper | pages/tokendatatestcopy.py:447-451 | a buy more than 100 blocks after the launch block never passes |
| Qualification.NoLaunchNoSniper | pages/tokendatatestcopy.py:447-451 | a token with no launch block yields no sniper |
| Qualification.NoSellNoSniper | pages/tokendatatestcopy.py:453-462 | a wallet with no sells is never confirmed |
| Qualification.NoQuickExitNoSniper | pages/tokendatatestcopy.py:460-462 | a wallet whose sells all come before its sniper buys or more than 1200 s after them is never confirmed |
| Qualification.WalletConfirmed | pages/tokendatatestcopy.py:462 | confirmation is by wallet: once one sniper buy of a wallet is confirmed, all its sniper buys are |
| Fifo.Consume | pages/tokendatatestcopy.py:529-541 | matching a sell against positive lots leaves only positive lots |
| Fifo.TotalNonnegative | pages/tokendatatestcopy.py:543 | the held amount of positive lots is nonnegative and at least the front lot's amount |
| Fifo.ConsumeAmount | pages/tokendatatestcopy.py:527-543 | a sell matches exactly min(from_wallet, sum of lot amounts), or nothing when it asks for nothing; the queue loses exactly that amount and never goes negative |
| Fifo.CostSplit | pages/tokendatatestcopy.py:532-539 | the matched cost and the leftover cost of a split lot add up to the lot's cost |
| Fifo.RemainderBasis | pages/tokendatatestcopy.py:532-541 | splitting the front lot moves the matched part of its basis out of the queue and keeps the rest |
| Fifo.ConsumeBasis | pages/tokendatatestcopy.py:529-541 | the basis of the queue before a sell equals the basis left plus the basis matched: matching creates and loses no cost |
| Fifo.ConsumeFront | pages/tokendatatestcopy.py:529-541 | the first lot left is the lot `q[k]` less what the sell took from it (all it matched beyond the lots before `q[k]`), carrying `q[k].cost × leftover / q[k].amount` and `q[k]`'s price |
| Fifo.ConsumeOrder | pages/tokendatatestcopy.py:529-541 | the lots left are a suffix of the queue, except that the front one may be the remainder of a split lot, at its price and with no more than its amount; later lots keep amounts and order; fully consumed lots are gone |
| Fifo.PartialStep | pages/tokendatatestcopy.py:530-541 | a lot larger than what is left is split, its remainder pushed back to the front, and nothing is left to match |
| Fifo.FullStep | pages/tokendatatestcopy.py:530-535 | a lot no larger than what is left is consumed in full and removed |
| Fifo.MatchSell | pages/tokendatatestcopy.py:527-541 | the matching loop terminates and leaves the queue and gain that FIFO matching of the whole sell gives |
| Fifo.ConsumeExample | pages/tokendatatestcopy.py:529-541 | selling 120 against lots of 100 and 50 empties the first lot and leaves 30 of the second with 30 of its cost |
| Fifo.SplitExample | pages/tokendatatestcopy.py:535-541 | a partly matched lot keeps its price and the matching part of its cost |
| Fifo.OversellExample | pages/tokendatatestcopy.py:529-535 | a sell larger than the holdings matches only what is held and empties the queue |
| Replay.TradeOf | pages/tokendatatestcopy.py:496-514 | a buy row gives a lot of its after-tax amount, pre-tax cost and price; a sell row gives its after-tax amount, pre-tax `from_wallet` and price; other rows give nothing |
| Replay.TradesLength | pages/tokendatatestcopy.py:493-514 | the trade list has one entry per buy row and one per sell row of the history |
| Replay.TradesPositive | pages/tokendatatestcopy.py:499-504 | when every buy receives a positive amount, every lot is positive |
| Replay.Apply | pages/tokendatatestcopy.py:520-541 | replaying one trade keeps every lot positive |
| Replay.ReplayBook | pages/tokendatatestcopy.py:517-541 | the replay of a trade list keeps every lot positive |
| Replay.RemainingIsHoldings | pages/tokendatatestcopy.py:517-543 | `remaining` equals the wallet's holdings computed without lots (buys add, a sell removes what it asks for or everything held), which are never negative |
| Replay.CoveredSell | pages/tokendatatestcopy.py:527-534 | a sell of no more than is held matches all it asks for and adds its proceeds minus the basis it consumed to realized |
| Replay.BuyAccounted | pages/tokendatatestcopy.py:520-525 | a buy preserves the holdings and realized identities |
| Replay.SellAccounted | pages/tokendatatestcopy.py:526-541 | a covered sell preserves the holdings and realized identities |
| Replay.CoveredAccounted | pages/tokendatatestcopy.py:517-543 | with every sell covered, holdings = bought - sold and realized = proceeds - (bought basis - open basis) |
| Replay.BuildTrades | pages/tokendatatestcopy.py:493-514 | the loop appends one trade per buy or sell row, in history order |
| Replay.ReplayTrades | pages/tokendatatestcopy.py:517-541 | the replay loop leaves exactly the queue and realized PnL of the replay function |
| Pnl.PairRows | pages/tokendatatestcopy.py:474 | a wallet's rows are exactly the dataset rows of that wallet |
| Pnl.PairRowsMultiset | pages/tokendatatestcopy.py:474 | a wallet's rows keep every copy of a repeated row of that wallet, so each copy is counted and replayed |
| Pnl.HistoryMembers | pages/tokendatatestcopy.py:474-475 | the history is sorted by time and is a permutation of the wallet's rows |
| Pnl.HistoryPositive | pages/tokendatatestcopy.py:475 | sorting keeps every buy positive |
| Pnl.Latest | pages/tokendatatestcopy.py:544 | the latest row is a row of the token and no row is later |
| Pnl.PairTrades | pages/tokendatatestcopy.py:493-514 | the wallet's trade list opens only positive lots |
| Pnl.PairResult | pages/tokendatatestcopy.py:471-560 | the row computed for a wallet is that wallet's row |
| Pnl.PairRemaining | pages/tokendatatestcopy.py:543-545 | remaining is never negative and is the wallet's holdings; unrealized is remaining times the price of a row of the token that no row follows in time |
| Pnl.PairRealized | pages/tokendatatestcopy.py:517-543 | when no sell exceeds the holdings, remaining is bought minus sold, and realized is proceeds minus the basis the sells consumed |
| Pnl.PairSums | pages/tokendatatestcopy.py:490-491 | the tax total is the sum of the tax of the wallet's rows, and the fee total the sum of their fees when the fee column exists (missing otherwise), whatever the rows' order |
| Pnl.PairCounts | pages/tokendatatestcopy.py:484-485 | the buy and sell counts are the numbers of the wallet's rows of each type |
| Pnl.PairTimes | pages/tokendatatestcopy.py:486-487 | the first buy time is the earliest buy of the wallet and missing iff it has no buy; the last sell time likewise |
| Pnl.CalculatePair | pages/tokendatatestcopy.py:472-560 | the per-wallet body computes exactly the wallet's row |
| Pnl.RowsWallets | pages/tokendatatestcopy.py:471-548 | row `i` belongs to the `i`-th distinct wallet |
| Pnl.RowsArePairResults | pages/tokendatatestcopy.py:471-560 | every row produced for the distinct wallets is its own wallet's PnL row |
| Pnl.RowPerWallet | pages/tokendatatestcopy.py:470-548 | the rows for the distinct wallets give each confirmed wallet one row and no other wallet any |
| Pnl.CalculateRows | pages/tokendatatestcopy.py:471-560 | the loop over wallets yields their rows in order |
| Pnl.CalculatePnl | pages/tokendatatestcopy.py:468-564 | one row per distinct confirmed wallet, each that wallet's row, no wallet twice, no other wallet |
| Pipeline.PotentialMakers | pages/tokendatatestcopy.py:462-470 | the wallets of the rows detection returns are exactly the wallets with a potential sniper buy |
| Pipeline.SniperPnl | pages/tokendatatestcopy.py:575-577 | the PnL table has exactly one row for each wallet that has a potential sniper buy, and each row is that wallet's PnL |
| Findings.CalculatePnlAsWritten | pages/tokendatatestcopy.py:491 | as written, `calculate_pnl` fails iff some wallet is confirmed and the dataset lacks the fee column |
| Findings.ExampleIsSniper | pages/tokendatatestcopy.py:440-462 | a dataset without the fee column still yields a potential sniper, since the fee gate is skipped |
| Findings.FeeColumnKeyError | pages/tokendatatestcopy.py:491 | on that dataset detection confirms exactly the one buy, and `calculate_pnl` as written then fails |
| Findings.FeeColumnCorrected | pages/tokendatatestcopy.py:490-491 | the corrected stage gives the wallet its row, with the tax total present and the fee total reported missing |
| Findings.ExampleRow | pages/tokendatatestcopy.py:490-491 | the example wallet's tax total is the tax of both its rows, and its fee total is missing |
| Findings.ExampleHistory | pages/tokendatatestcopy.py:474-475 | the example wallet's history is its buy then its sell |
| Findings.ProcessSniperDataAsWritten | pages/tokendatatestcopy.py:439-455 | as written, detection fails iff no large-burst buy passes the fee gate (in particular whenever no buy lies in a large burst), and otherwise returns the potential sniper rows |
| Findings.LowFeeTokenKeyError | pages/tokendatatestcopy.py:439-455 | a token whose one 200,000-token buy pays a fee of 0.000001 has a large burst and no sniper, yet detection as written fails on it |
| Findings.QuietNoLargeBurst | pages/tokendatatestcopy.py:416-437 | a token whose only buy is 50,000 tokens has no large burst |
| Findings.QuietTokenKeyError | pages/tokendatatestcopy.py:439-455 | that token has no sniper, yet detection as written fails on it |
| Findings.QuietTokenNoRows | pages/tokendatatestcopy.py:439-462 | when no large-burst buy passes the fee gate (in particular without a large burst) there is no potential sniper, and the PnL table is empty |

## Left out

- The Streamlit page, the sidebar, the tabs, the HTML tables, the charts and the KPI tiles are UI.
- The MongoDB queries, the `.env` loading and the cache TTLs are I/O. The records and the launch-block map are parameters.
- The 4-decimal rounding, the average buy and sell prices, and the success-rate and held-percentage KPIs are floating-point presentation. Amounts and prices are exact reals.
- Lot amounts of 0 give NaN in the source's division (lines 532 and 539). The PnL members instead require that every buy row of the dataset has a positive after-tax amount (`PositiveBuys`). This covers the buys of every wallet, although the source divides only by the lots of confirmed wallets.
- `extract_amount` only feeds the transaction display table.
- `drop_duplicates` on the chunked buys changes nothing, because every row carries its own index. It is not modelled.
- Rows are sorted by one `time` in seconds. It stands for both `timestampReadable` (bursts, exit join, first and last times) and `timestamp` (history order, latest price).
- pandas `sort_values` does not guarantee the order of rows with equal times. The model sorts stably, and `Pnl.Latest` takes the earliest of several rows with the latest time.
- Row order across wallets differs. `groupby("maker")` visits wallets in sorted address order, so `chunked_buys`, `potential_sniper_df` and, through `drop_duplicates`, the PnL rows come out ordered by wallet address. The model visits wallets in order of their first buy in the records, and `Pnl.CalculatePnl` fixes its rows in order of first appearance in the potential rows. The contracts of detection are about membership only. The page re-sorts the PnL table by net PnL before showing it (line 595).
- Rows have no token field. The loader stamps one token on every row, so grouping and joining by wallet equals grouping by wallet and token.
- Every row carries every amount field. The source reads a missing amount column as 0 (`getattr(..., 0)`, `get(..., 0.0)`), and a value missing from some rows as NaN. Neither case is modelled.
- Timestamps that pandas cannot parse (NaT) are not modelled.
- An empty collection stops the page before detection. The model yields no rows for it.
- Pnl.PairRealized: the realized identity is stated only for histories where no sell asks for more than is held. For other histories the lemma says nothing; what the replay does then is stated by `Replay.RemainingIsHoldings` and `Fifo.ConsumeAmount`.
- Pnl.PairResult: its own contract states only the wallet. The other fields are stated by `Pnl.PairRemaining`, `Pnl.PairRealized`, `Pnl.PairCounts`, `Pnl.PairTimes` and `Pnl.PairSums`.

## Findings

| source | as written | input that shows it | evidently intended | confidence | as-written member | corrected member |
|---|---|---|---|---|---|---|
| pages/tokendatatestcopy.py:491 | the detection stage skips the fee gate when the `transactionFee` column is missing (lines 440-444), but `calculate_pnl` reads `df["transactionFee"]` unconditionally, so a KeyError ends the page as soon as one wallet is confirmed | a dataset without the fee column in which one wallet buys 200,000 tokens one block after launch and sells 60 s later | the PnL row is still produced, with the fee total reported as missing | not executed | Findings.FeeColumnKeyError | Findings.FeeColumnCorrected |
| pages/tokendatatestcopy.py:455 | when no large-burst buy passes the fee gate, `df_high_gas` is empty and the genesis selection yields a frame without columns: from an empty `chunked_buys`, `pd.DataFrame([])` has none, and with the fee column present but every large-burst buy paying at most 0.000002, `apply` on the empty frame gives an empty float mask that selects no column; selecting `["maker", "timestampReadable", "token_name"]` for the merge then raises a KeyError | a token whose only buy is 50,000 tokens (pre-tax), with the fee column present; or a token whose only buy is 200,000 tokens paying a fee of 0.000001 | a token without snipers gives an empty sniper set and an empty PnL table | not executed (relies on how pandas builds and masks empty frames; the low-fee case depends on the pandas version's `apply` on an empty frame) | Findings.QuietTokenKeyError, Findings.LowFeeTokenKeyError | Findings.QuietTokenNoRows |

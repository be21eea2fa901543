# Crypto arbitrage monitor: ticker publishing and dashboard cycle

This project is a Dafny model of the two computational parts of a
cross-exchange arbitrage monitor.

- **Ingestion** (`Ticker`, for backend/main.py). One connector runs per
  (exchange, symbol) pair: 2 exchanges × 5 symbols. Each connector turns every
  order-book snapshot into a ticker record:
  - best bid and best ask;
  - depth of the first five levels on each side;
  - latency, meaning local receive time minus the exchange timestamp;
  - the identity fields and the timestamp, passed through unchanged.

  The record is written to the store under `ticker:{exchange}:{symbol}`,
  overwriting the previous value.
- **Dashboard** (`Dashboard`, for frontend/app.py). Each polling cycle reads the
  Binance and Kraken records of every symbol and computes the following:
  - spread: Kraken bid minus Binance ask;
  - profit percentage;
  - net profit after the fee threshold;
  - liquidity and order-book imbalance;
  - mean latency.

  It then updates two bounded buffers:
  - an alert log, newest first, capped at 20 entries;
  - a history, appended at the end, keeping the last 500 rows.

  The trend computation gives one trend per configured symbol, in the order of
  `SYMBOLS`: ▲, ▼ or 〓, from the symbol's last two spreads in the history.

Prices, sizes and latencies are `real`, so every property is exact. The
cycle's clock reading is an `int`, and the exchange timestamp is an
`Option<int>`. The store is a
`map` from key to record. The connector's endless receive loop is modelled as a
finite trace of events. Each event is either a snapshot received at a given
local time, or an exception. The dashboard's session state is a class that
holds two `seq` fields.

A snapshot with an empty side is published, with price 0 and depth 0 on that
side (`Ticker.EmptySideStillPublished`). Latency is not clamped
(`Ticker.LatencyCanBeNegative`).

An empty side has a consequence on the dashboard. A Binance snapshot with no
asks is published with ask 0. The dashboard divides by the Binance ask only
when the Kraken record for the same symbol is present too (frontend/app.py:58).
In that case the unguarded division raises an error, and the error stops the
cycle (`Dashboard.EmptyBinanceAsksStopCycle`, `Dashboard.ScanFailsIffZeroAsk`,
`Dashboard.Session.Cycle`).

## Model

| member | source | states |
|---|---|---|
| `Ticker.SumSizes` | backend/main.py:21-22 | the `sum` over level sizes is never negative when no size is negative |
| `Ticker.Depth` | backend/main.py:21-22 | a side with at most five levels has depth equal to its whole size; an empty side has depth 0; depth is never negative for non-negative sizes |
| `Ticker.DepthIgnoresDeeperLevels` | backend/main.py:21-22 | levels past the fifth never change the depth, whatever they hold |
| `Ticker.DepthAtMostWholeSide` | backend/main.py:21-22 | for non-negative sizes the depth lies between 0 and the size of the whole side |
| `Ticker.SumSizesAppend` | backend/main.py:21-22 | the size sum of two runs of levels is the sum of their size sums |
| `Ticker.FalsyTimestampsGiveZeroLatency` | backend/main.py:25 | the timestamp is tested for truthiness: a missing timestamp and a zero timestamp both give latency 0, and any other timestamp is subtracted from the local time |
| `Ticker.Latency` | backend/main.py:24-25 | with a truthy timestamp, latency plus timestamp is the local time, and latency is negative exactly when the exchange clock is ahead; with `None` or 0 it is 0 |
| `Ticker.LatencyCanBeNegative` | backend/main.py:25 | no clamping: timestamp 2000 received at local time 1000 gives latency -1000 |
| `Ticker.BestPrice` | backend/main.py:30-31 | an empty side gives 0; otherwise the first level's price, which is the highest bid when bids are listed highest first and the lowest ask when asks are listed lowest first |
| `Ticker.Derive` | backend/main.py:21-36 | exchange, symbol and timestamp are passed through; bid and ask are the first level's price, or 0 for an empty side; depths are the five-level depths; latency as above |
| `Ticker.EmptySideStillPublished` | backend/main.py:30-31 | a snapshot with an empty side still yields a record, with price 0 and depth 0 on that side |
| `Ticker.WorkedExample` | backend/main.py:21-36 | bids [[100,1],[99.5,2]], asks [[100.5,1.5]], timestamp T, local time T+50 give bid 100, ask 100.5, depths 3 and 1.5, latency 50, timestamp T |
| `Ticker.Key` | backend/main.py:38 | the key is `ticker:`, then the exchange name, then `:`, then the symbol, with nothing else |
| `Ticker.KeyInjective` | backend/main.py:38 | for exchange names without ':', equal keys `ticker:{exchange}:{symbol}` mean equal exchange and equal symbol |
| `Ticker.Replay` | backend/main.py:17-41 | a connector's run keeps every key already in the store and adds at most its own key |
| `Ticker.ReplayLastWriteWins` | backend/main.py:17-41 | after any run of a connector, the store equals the old store with only the connector's key overwritten by the latest snapshot's record; a run with no snapshot leaves it as it was |
| `Ticker.ReplayIsolated` | backend/main.py:38 | a connector never adds, removes or changes any key but its own |
| `Ticker.ReplayIdempotent` | backend/main.py:38 | handling the same snapshot twice leaves the store as handling it once does |
| `Ticker.Store.Set` | backend/main.py:38 | `set` overwrites the key's value and leaves every other entry as it was |
| `Ticker.Publish` | backend/main.py:21-38 | one loop iteration writes the derived record under the pair's key and changes nothing else |
| `Ticker.FetchOrderBook` | backend/main.py:13-41 | the receive loop leaves the store as `Replay` of its events: each snapshot is published in order, and an exception writes nothing |
| `Ticker.Pairs` | backend/main.py:44 | every task pairs a configured exchange with a configured symbol |
| `Ticker.PairsLength` | backend/main.py:44 | the task list has (number of symbols) × (number of exchanges) entries |
| `Ticker.PairAt` | backend/main.py:44 | symbol-major order: the pair of symbol i and exchange j is entry i × (number of exchanges) + j |
| `Ticker.PairsMembership` | backend/main.py:44 | a pair is in the task list exactly when its exchange and its symbol are configured |
| `Ticker.PairsNoDuplicates` | backend/main.py:44 | with no repeated names, no pair gets two tasks |
| `Ticker.ConfiguredTasks` | backend/main.py:10-11 | the configured lists give 10 tasks, each configured pair exactly once, and no two tasks write the same key |
| `Dashboard.PublishedRecordHasAllFields` | frontend/app.py:59-65 | for records the ingestion side wrote, no default is used: the liquidity is the two published Binance depths, the imbalance times that liquidity is the Binance bid depth when it is positive, and the row latency is the mean of the two published latencies |
| `Dashboard.MissingFieldsCountAsZero` | frontend/app.py:63-65 | a missing depth or latency counts as 0: the liquidity is then the other depth, an imbalance with no depths at all is 0.5, one with only an ask depth is 0, and twice the mean latency is the other latency |
| `Dashboard.ProfitPct` | frontend/app.py:61 | the percentage times the ask is 100 × spread; with a positive ask it is positive exactly when the spread is |
| `Dashboard.NetProfit` | frontend/app.py:62 | net profit is investment × (profit % − fee threshold) / 100: for a positive investment it is positive exactly when the profit beats the threshold; for a negative one exactly when it falls short; for zero it is 0 |
| `Dashboard.Liquidity` | frontend/app.py:63 | missing depths count as 0; with non-negative depths the total is at least each side |
| `Dashboard.Imbalance` | frontend/app.py:64 | with positive liquidity, imbalance × liquidity is the bid depth; otherwise it is 0.5; with non-negative depths it lies in [0, 1] |
| `Dashboard.MeanLatency` | frontend/app.py:65 | the row latency is equally far from both latencies (a missing one counts as 0), so it lies between them |
| `Dashboard.Evaluate` | frontend/app.py:56-76 | a symbol is skipped exactly when a record is missing; it fails exactly when both records are present and the Binance ask is 0; otherwise the row is stamped with the cycle's time and symbol and holds the metrics above |
| `Dashboard.AlertIffAboveFees` | frontend/app.py:62-78 | with a positive investment, a row raises an alert exactly when its profit % beats the fee threshold; with a non-negative threshold and a positive ask, an alert needs the Kraken bid above the Binance ask |
| `Dashboard.EmptyBinanceAsksStopCycle` | frontend/app.py:58-61 | a published Binance snapshot with no asks, together with a Kraken record, makes the symbol's evaluation fail on the division; for a configured symbol the whole symbol loop then stops |
| `Dashboard.ScanSymbols` | frontend/app.py:56-85 | the symbol loop gives no more rows than symbols and no more alerts than rows; every row is stamped with the cycle's time and carries one of the scanned symbols |
| `Dashboard.ScanFailsIffZeroAsk` | frontend/app.py:56-61 | the symbol loop stops on an exception exactly when some symbol has both records and a Binance ask of 0 |
| `Dashboard.ScanRowsAreEvaluated` | frontend/app.py:56-76 | every row the symbol loop builds is the priced row its own symbol evaluates to, so it holds that symbol's spread, profit, liquidity, imbalance and latency |
| `Dashboard.ScanRowsFollowSymbols` | frontend/app.py:56-76 | a cycle that is not stopped gives one row per symbol with both records, in symbol order |
| `Dashboard.ScanAlertsFollowRows` | frontend/app.py:67-85 | the cycle raises one alert per row with positive net profit, in row order |
| `Dashboard.ScanStaysFailed` | frontend/app.py:56-85 | once the symbol loop has raised, the later symbols change neither rows nor alerts |
| `Dashboard.PushFront` | frontend/app.py:85 | the new alert is first; the log holds min(20, old length + 1) entries; the surviving old entries keep their order and the oldest drop out |
| `Dashboard.PushAll` | frontend/app.py:78-85 | pushing keeps a log of at most 20 entries within 20, and after a non-empty run of pushes the last alert pushed is first |
| `Dashboard.PushAllNewestFirst` | frontend/app.py:78-85 | after a run of pushes, the log is the new alerts latest first, then the old entries, cut to 20 |
| `Dashboard.Appended` | frontend/app.py:87-91 | the history holds min(500, old + new) rows; it ends with the new rows in order, preceded by the newest old rows that still fit |
| `Dashboard.Session.constructor` | frontend/app.py:14-32 | alert log and history both start empty |
| `Dashboard.Session.ClearAlertLog` | frontend/app.py:46-47 | "Clear Alert Log" empties the log and leaves the history alone |
| `Dashboard.Session.PrependAlert` | frontend/app.py:85 | the log becomes `PushFront` of the old log, stays within 20, and the history is unchanged |
| `Dashboard.Session.AppendRows` | frontend/app.py:88-91 | the history becomes `Appended` of the old one, stays within 500, and the log is unchanged |
| `Dashboard.Session.Cycle` | frontend/app.py:51-91 | one polling cycle: the log gets the cycle's alerts in symbol order, each pushed to the front; the history gets the rows only when the cycle finished and produced some, and is otherwise unchanged; `completed` is false exactly when some configured symbol has both records and a Binance ask of 0; both size bounds are kept |
| `Dashboard.Classify` | frontend/app.py:193-199 | ▲ exactly when both spreads are present and the current one is larger; ▼ exactly when it is smaller; 〓 when they are equal or either is missing |
| `Dashboard.TrendOf` | frontend/app.py:189-199 | with fewer than two spreads for the symbol the trend is 〓; otherwise it is ▲ exactly when the last spread is above the one before, and ▼ exactly when it is below |
| `Dashboard.TrendAfterRow` | frontend/app.py:189-197 | a new row for a symbol sets its trend by comparing its spread with the symbol's previous latest spread; rows of other symbols leave the trend alone; a symbol without rows shows 〓 |
| `Dashboard.Trends` | frontend/app.py:192-199 | one trend per configured symbol, in order, each comparing the symbol's last and second-to-last spread in the history |

## Left out

- The asyncio concurrency (`asyncio.gather`, `asyncio.run`, backend/main.py:43-49) is not modelled. Each connector is modelled alone. Isolation between connectors is stated through keys (`Ticker.ReplayIsolated`, `Ticker.ConfiguredTasks`).
- The exchange library is a foreign call: `getattr(ccxt, …)()` and `watch_order_book` (backend/main.py:14-19). The snapshot it returns is an input. The model assumes every snapshot is well formed.
- The 5-second sleep after an exception and the 5-second startup sleep are timing only (backend/main.py:41, 48). An exception is a `Failed` event that writes nothing.
- The Redis client and its network calls (backend/main.py:8, frontend/app.py:11) are not modelled. The store is a map.
- The dashboard reads the store as one map per cycle. Its ten `get` calls happen at different instants, and writes that land between them are not modelled.
- JSON encoding and decoding (backend/main.py:38, frontend/app.py:59) are not modelled. Records are passed as values.
- Dashboard.Decode stands for the JSON round trip (`json.dumps` on the ingestion side, then `json.loads` on the dashboard). It copies each field and marks the optional ones present. What it means for the metrics is stated by `Dashboard.PublishedRecordHasAllFields`.
- A stored object without `bid` or `ask` is not modelled. In the code it would raise `KeyError`. The ingestion side always writes both fields.
- `time.time()` and `datetime.now()` are parameters (`localTs`, `now`). The `%H:%M:%S` formatting of the alert time is not modelled: an alert holds the clock reading.
- The percent and dollar string formatting of alerts (frontend/app.py:82-83) is not modelled. An alert holds the numbers.
- IEEE float rounding, NaN and infinities are not modelled. All numbers are exact reals.
- Streamlit page setup, sidebar widgets, containers, insight boxes and Altair charts (frontend/app.py:9, 34-45, 48-49, 93-186, 201) are UI and are not modelled. The "Clear Alert Log" button (frontend/app.py:46-47) is modelled as `Session.ClearAlertLog`. The same goes for pandas `groupby` statistics, `pivot_table` and `corr` (frontend/app.py:96-136).
- The guard `len(history) > len(SYMBOLS)` (frontend/app.py:188) decides only whether the summary table is drawn. It is left out.
- The summary table's trend column (frontend/app.py:200) is not modelled. The code assigns the five trends by position to the rows of `latest`. Those rows are in history order: each symbol sits where its last row is, not in `SYMBOLS` order. When the last cycle skipped a symbol, a trend can therefore be shown against the wrong symbol. When the history holds more than 5 rows but fewer than 5 distinct symbols, the lengths differ and the assignment raises `ValueError`, which stops the script run. `Dashboard.Trends` gives the trends in `SYMBOLS` order, as the loop at frontend/app.py:192-199 computes them.
- The slider bounds on the fee threshold (0 to 1) and the investment minimum (1000) (frontend/app.py:43-44) are not used as preconditions. The lemmas hold for any values.
- `dropna(how='all')` (frontend/app.py:89) is not modelled. It only removes rows whose every column is empty, and no row the model builds is like that.
- The outer `while True` with `time.sleep(1)` (frontend/app.py:51, 203) is not modelled. One iteration is `Session.Cycle`. When the division raises, the script run stops; Streamlit's rerun after that is not modelled.
- The connectors keep no run status, failure counter or cancellation flag; there is nothing to model.

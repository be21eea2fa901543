/** The consumer side (frontend/app.py): one polling cycle reads the Binance
    and Kraken records of every symbol, derives the arbitrage metrics, pushes
    alerts onto a 20-entry log (newest first) and appends the cycle's rows to
    a 500-row history; the trends are those computed by the loop at
    frontend/app.py:192-199, in `SYMBOLS` order. */
module Dashboard {
  import opened Wrappers
  import opened Sequences
  import Ticker

  const SYMBOLS: seq<string> := ["BTC/USDT", "ETH/USDT", "SOL/USDT", "BNB/USDT", "XRP/USDT"]
  const ALERT_LOG_SIZE: nat := 20
  const HISTORY_SIZE: nat := 500
  /** The imbalance reported when there is no depth at all. */
  const NEUTRAL_IMBALANCE: real := 0.5

  /** A record as the dashboard decodes it from the store. `bid` and `ask`
      are read with `[...]`; the other three with `.get(field, 0)`, so they
      may be missing. */
  datatype Fields = Fields(
    bid: real,
    ask: real,
    bidDepth: Option<real>,
    askDepth: Option<real>,
    latency: Option<real>)

  /** The decoding of a record the ingestion side wrote: every field present. */
  function Decode(r: Ticker.Record): Fields
  {
    Fields(r.bid, r.ask, Some(r.bidDepth), Some(r.askDepth), Some(r.latency))
  }

  /** `dict.get(field, 0)`. */
  function OrZero(v: Option<real>): real
  {
    if v.Some? then v.value else 0.0
  }

  /** The sidebar's two inputs. */
  datatype Settings = Settings(feesThreshold: real, investment: real)

  /** One row of the history. `time` is the cycle's clock reading. */
  datatype Row = Row(
    time: int,
    symbol: string,
    spread: real,
    liquidity: real,
    latency: real,
    imbalance: real,
    profitPct: real,
    netProfit: real)

  /** One entry of the alert log (the numbers before they are formatted). */
  datatype Alert = Alert(time: int, symbol: string, profitPct: real, netProfit: real)

  function BinanceKey(symbol: string): string
  {
    Ticker.Key("binance", symbol)
  }

  function KrakenKey(symbol: string): string
  {
    Ticker.Key("kraken", symbol)
  }

  predicate NonNegativeDepths(b: Fields)
  {
    OrZero(b.bidDepth) >= 0.0 && OrZero(b.askDepth) >= 0.0
  }

  // ------------------------------------------------------------ the metrics

  /** The spread as a percentage of the Binance ask. */
  function ProfitPct(spread: real, ask: real): (r: real)
    requires ask != 0.0
    ensures r * ask == spread * 100.0
    ensures ask > 0.0 ==> (r > 0.0 <==> spread > 0.0)
  {
    (spread / ask) * 100.0
  }

  /** The profit on `investment` once the fee threshold is taken off. */
  function NetProfit(investment: real, profitPct: real, feesThreshold: real): (r: real)
    ensures r == investment * (profitPct - feesThreshold) / 100.0
    ensures investment > 0.0 ==> (r > 0.0 <==> profitPct > feesThreshold)
    ensures investment < 0.0 ==> (r > 0.0 <==> profitPct < feesThreshold)
    ensures investment == 0.0 ==> r == 0.0
  {
    var margin := (profitPct / 100.0) - (feesThreshold / 100.0);
    ProductSign(investment, margin);
    investment * margin
  }

  /** The sign of a product, from the signs of its factors. */
  lemma ProductSign(a: real, d: real)
    ensures a > 0.0 ==> (a * d > 0.0 <==> d > 0.0)
    ensures a < 0.0 ==> (a * d > 0.0 <==> d < 0.0)
  {
  }

  /** Total depth of the Binance book, a missing side counting as 0. */
  function Liquidity(b: Fields): (r: real)
    ensures NonNegativeDepths(b) ==> r >= OrZero(b.bidDepth) && r >= OrZero(b.askDepth)
    ensures b.bidDepth.None? && b.askDepth.None? ==> r == 0.0
  {
    OrZero(b.bidDepth) + OrZero(b.askDepth)
  }

  /** Share of the Binance depth on the bid side, 0.5 when there is no depth. */
  function Imbalance(b: Fields): (r: real)
    ensures Liquidity(b) > 0.0 ==> r * Liquidity(b) == OrZero(b.bidDepth)
    ensures Liquidity(b) <= 0.0 ==> r == NEUTRAL_IMBALANCE
    ensures NonNegativeDepths(b) ==> 0.0 <= r <= 1.0
  {
    var total := Liquidity(b);
    if total > 0.0 then OrZero(b.bidDepth) / total else NEUTRAL_IMBALANCE
  }

  /** Mean of the two records' latencies, a missing one counting as 0: it lies
      between them, at the same distance from each. */
  function MeanLatency(b: Fields, k: Fields): (r: real)
    ensures r - OrZero(b.latency) == OrZero(k.latency) - r
    ensures OrZero(b.latency) <= OrZero(k.latency) ==> OrZero(b.latency) <= r <= OrZero(k.latency)
    ensures OrZero(k.latency) <= OrZero(b.latency) ==> OrZero(k.latency) <= r <= OrZero(b.latency)
  {
    (OrZero(b.latency) + OrZero(k.latency)) / 2.0
  }

  /** What the loop body does for one symbol: skip it when a record is
      missing, fail on a zero Binance ask (the unguarded division raises), or
      price it. */
  datatype Evaluation = Missing | ZeroAsk | Priced(row: Row)

  function Evaluate(store: map<string, Fields>, symbol: string, settings: Settings, now: int): (e: Evaluation)
    ensures e.Missing? <==> BinanceKey(symbol) !in store || KrakenKey(symbol) !in store
    ensures e.ZeroAsk? <==>
      BinanceKey(symbol) in store && KrakenKey(symbol) in store && store[BinanceKey(symbol)].ask == 0.0
    ensures e.Priced? ==>
      var b, k := store[BinanceKey(symbol)], store[KrakenKey(symbol)];
      e.row.time == now && e.row.symbol == symbol &&
      e.row.spread == k.bid - b.ask &&
      e.row.profitPct * b.ask == e.row.spread * 100.0 &&
      e.row.netProfit == settings.investment * (e.row.profitPct - settings.feesThreshold) / 100.0 &&
      e.row.liquidity == Liquidity(b) && e.row.imbalance == Imbalance(b) &&
      e.row.latency == MeanLatency(b, k)
  {
    if BinanceKey(symbol) !in store || KrakenKey(symbol) !in store then Missing
    else
      var b, k := store[BinanceKey(symbol)], store[KrakenKey(symbol)];
      if b.ask == 0.0 then ZeroAsk
      else
        var spread := k.bid - b.ask;
        var profitPct := ProfitPct(spread, b.ask);
        Priced(Row(now, symbol, spread, Liquidity(b), MeanLatency(b, k), Imbalance(b),
                   profitPct, NetProfit(settings.investment, profitPct, settings.feesThreshold)))
  }

  /** A priced row raises an alert when its net profit is positive. */
  predicate RaisesAlert(row: Row)
  {
    row.netProfit > 0.0
  }

  function AlertOf(row: Row): Alert
  {
    Alert(row.time, row.symbol, row.profitPct, row.netProfit)
  }

  /** With a positive investment, a symbol raises an alert exactly when its
      spread, as a percentage of the Binance ask, beats the fee threshold; with
      a positive ask, that needs the Kraken bid above the Binance ask. */
  lemma AlertIffAboveFees(store: map<string, Fields>, symbol: string, settings: Settings, now: int)
    requires settings.investment > 0.0
    requires Evaluate(store, symbol, settings, now).Priced?
    ensures var row := Evaluate(store, symbol, settings, now).row;
      RaisesAlert(row) <==> row.profitPct > settings.feesThreshold
    ensures var row := Evaluate(store, symbol, settings, now).row;
      settings.feesThreshold >= 0.0 && store[BinanceKey(symbol)].ask > 0.0 && RaisesAlert(row) ==>
        store[KrakenKey(symbol)].bid > store[BinanceKey(symbol)].ask
  {
  }

  /** Records the ingestion side wrote never fall back on a default: the
      liquidity is the two published Binance depths, the imbalance their bid
      share, and the row latency the mean of the two published latencies. */
  lemma PublishedRecordHasAllFields(rb: Ticker.Record, rk: Ticker.Record)
    ensures Liquidity(Decode(rb)) == rb.bidDepth + rb.askDepth
    ensures rb.bidDepth + rb.askDepth > 0.0 ==>
      Imbalance(Decode(rb)) * (rb.bidDepth + rb.askDepth) == rb.bidDepth
    ensures MeanLatency(Decode(rb), Decode(rk)) == (rb.latency + rk.latency) / 2.0
  {
  }

  /** A field missing from a stored record counts as 0 in every metric that
      reads it with `.get(field, 0)`. */
  lemma MissingFieldsCountAsZero(b: Fields, k: Fields)
    ensures b.bidDepth.None? ==> Liquidity(b) == OrZero(b.askDepth)
    ensures b.askDepth.None? ==> Liquidity(b) == OrZero(b.bidDepth)
    ensures b.bidDepth.None? && b.askDepth.None? ==> Imbalance(b) == NEUTRAL_IMBALANCE
    ensures b.bidDepth.None? && OrZero(b.askDepth) > 0.0 ==> Imbalance(b) == 0.0
    ensures b.latency.None? ==> MeanLatency(b, k) * 2.0 == OrZero(k.latency)
    ensures k.latency.None? ==> MeanLatency(b, k) * 2.0 == OrZero(b.latency)
  {
  }

  /** The ingestion side publishes a Binance snapshot with no asks as ask 0;
      once the Kraken record of the symbol is there too, the dashboard's
      division by the Binance ask fails for that symbol, and for a configured
      symbol that stops the cycle. */
  lemma EmptyBinanceAsksStopCycle(store: map<string, Fields>, symbol: string, book: Ticker.Snapshot,
                                  localTs: real, settings: Settings, now: int)
    requires book.asks == []
    requires KrakenKey(symbol) in store
    ensures Evaluate(store[BinanceKey(symbol) := Decode(Ticker.Derive("binance", symbol, book, localTs))],
                     symbol, settings, now) == ZeroAsk
    ensures symbol in SYMBOLS ==>
      ScanSymbols(store[BinanceKey(symbol) := Decode(Ticker.Derive("binance", symbol, book, localTs))],
                  SYMBOLS, settings, now).failed
  {
    var published := store[BinanceKey(symbol) := Decode(Ticker.Derive("binance", symbol, book, localTs))];
    if symbol in SYMBOLS {
      var i :| 0 <= i < |SYMBOLS| && SYMBOLS[i] == symbol;
      assert Evaluate(published, SYMBOLS[i], settings, now).ZeroAsk?;
      ScanFailsIffZeroAsk(published, SYMBOLS, settings, now);
    }
  }

  // ------------------------------------------------------------ one cycle

  /** The outcome of the symbol loop over `symbols`: the rows built, the
      alerts raised, in order, and whether an exception stopped the loop. */
  datatype Scan = Scan(rows: seq<Row>, alerts: seq<Alert>, failed: bool)

  function ScanSymbols(store: map<string, Fields>, symbols: seq<string>, settings: Settings, now: int): (r: Scan)
    ensures |r.alerts| <= |r.rows| <= |symbols|
    ensures forall i :: 0 <= i < |r.rows| ==> r.rows[i].time == now && r.rows[i].symbol in symbols
  {
    if symbols == [] then Scan([], [], false)
    else
      var before := ScanSymbols(store, symbols[..|symbols| - 1], settings, now);
      if before.failed then before
      else match Evaluate(store, symbols[|symbols| - 1], settings, now)
        case Missing => before
        case ZeroAsk => before.(failed := true)
        case Priced(row) =>
          Scan(before.rows + [row],
               if RaisesAlert(row) then before.alerts + [AlertOf(row)] else before.alerts,
               false)
  }

  /** Some symbol's evaluation divides by a zero Binance ask. */
  predicate SomeAskIsZero(store: map<string, Fields>, symbols: seq<string>, settings: Settings, now: int)
  {
    exists i :: 0 <= i < |symbols| && Evaluate(store, symbols[i], settings, now).ZeroAsk?
  }

  /** The loop stops on an exception exactly when some symbol's evaluation
      divides by a zero Binance ask. */
  lemma {:induction false} ScanFailsIffZeroAsk(store: map<string, Fields>, symbols: seq<string>, settings: Settings, now: int)
    ensures ScanSymbols(store, symbols, settings, now).failed <==> SomeAskIsZero(store, symbols, settings, now)
  {
    if symbols != [] {
      var init, last := symbols[..|symbols| - 1], symbols[|symbols| - 1];
      ScanFailsIffZeroAsk(store, init, settings, now);
      var before := ScanSymbols(store, init, settings, now);
      if ScanSymbols(store, symbols, settings, now).failed {
        if before.failed {
          var i :| 0 <= i < |init| && Evaluate(store, init[i], settings, now).ZeroAsk?;
          assert symbols[i] == init[i];
        } else {
          assert Evaluate(store, symbols[|symbols| - 1], settings, now).ZeroAsk?;
        }
      }
      if exists i :: 0 <= i < |symbols| && Evaluate(store, symbols[i], settings, now).ZeroAsk? {
        var i :| 0 <= i < |symbols| && Evaluate(store, symbols[i], settings, now).ZeroAsk?;
        if i < |init| {
          assert init[i] == symbols[i];
        }
      }
    }
  }

  /** Every row the loop builds is the row its symbol evaluates to. */
  predicate RowsEvaluated(store: map<string, Fields>, rows: seq<Row>, settings: Settings, now: int)
  {
    forall i :: 0 <= i < |rows| ==> Evaluate(store, rows[i].symbol, settings, now) == Priced(rows[i])
  }

  lemma {:induction false} ScanRowsAreEvaluated(store: map<string, Fields>, symbols: seq<string>, settings: Settings, now: int)
    ensures RowsEvaluated(store, ScanSymbols(store, symbols, settings, now).rows, settings, now)
  {
    if symbols != [] {
      var init := symbols[..|symbols| - 1];
      ScanRowsAreEvaluated(store, init, settings, now);
      var before := ScanSymbols(store, init, settings, now);
      if !before.failed {
        match Evaluate(store, symbols[|symbols| - 1], settings, now)
        case Priced(row) =>
          var rows := before.rows + [row];
          forall i | 0 <= i < |rows|
            ensures Evaluate(store, rows[i].symbol, settings, now) == Priced(rows[i])
          {
            if i < |before.rows| {
              assert rows[i] == before.rows[i];
            }
          }
        case Missing =>
        case ZeroAsk =>
      }
    }
  }

  /** The symbols that have both records, in the given order. */
  function Quoted(store: map<string, Fields>, symbols: seq<string>): seq<string>
  {
    if symbols == [] then []
    else
      var s := symbols[|symbols| - 1];
      Quoted(store, symbols[..|symbols| - 1]) + (if BinanceKey(s) in store && KrakenKey(s) in store then [s] else [])
  }

  function RowSymbols(rows: seq<Row>): seq<string>
  {
    seq(|rows|, i requires 0 <= i < |rows| => rows[i].symbol)
  }

  /** The alerts of a run of rows: one per row with a positive net profit, in
      row order. */
  function AlertsOf(rows: seq<Row>): seq<Alert>
  {
    if rows == [] then []
    else
      var last := rows[|rows| - 1];
      AlertsOf(rows[..|rows| - 1]) + (if RaisesAlert(last) then [AlertOf(last)] else [])
  }

  /** The cycle raises one alert per row with a positive net profit, in row
      order. */
  lemma {:induction false} ScanAlertsFollowRows(store: map<string, Fields>, symbols: seq<string>, settings: Settings, now: int)
    ensures var scan := ScanSymbols(store, symbols, settings, now);
      scan.alerts == AlertsOf(scan.rows)
  {
    if symbols != [] {
      var init := symbols[..|symbols| - 1];
      ScanAlertsFollowRows(store, init, settings, now);
      var before := ScanSymbols(store, init, settings, now);
      if !before.failed {
        match Evaluate(store, symbols[|symbols| - 1], settings, now)
        case Priced(row) =>
          var rows := before.rows + [row];
          assert rows[..|rows| - 1] == before.rows;
          assert AlertsOf(rows) == AlertsOf(before.rows) + (if RaisesAlert(row) then [AlertOf(row)] else []);
        case Missing =>
        case ZeroAsk =>
      }
    }
  }

  /** A cycle that is not stopped gives one row per symbol that has both
      records, in symbol order. */
  lemma {:induction false} ScanRowsFollowSymbols(store: map<string, Fields>, symbols: seq<string>, settings: Settings, now: int)
    ensures var scan := ScanSymbols(store, symbols, settings, now);
      !scan.failed ==> RowSymbols(scan.rows) == Quoted(store, symbols)
  {
    if symbols != [] {
      var init, last := symbols[..|symbols| - 1], symbols[|symbols| - 1];
      ScanRowsFollowSymbols(store, init, settings, now);
      var before := ScanSymbols(store, init, settings, now);
      if !before.failed {
        match Evaluate(store, last, settings, now)
        case Priced(row) =>
          assert RowSymbols(before.rows + [row]) == RowSymbols(before.rows) + [last];
        case Missing =>
        case ZeroAsk =>
      }
    }
  }

  /** Once the loop has stopped on an exception, later symbols change nothing. */
  lemma {:induction false} ScanStaysFailed(store: map<string, Fields>, symbols: seq<string>, n: nat, settings: Settings, now: int)
    requires n <= |symbols|
    requires ScanSymbols(store, symbols[..n], settings, now).failed
    ensures ScanSymbols(store, symbols, settings, now) == ScanSymbols(store, symbols[..n], settings, now)
    decreases |symbols| - n
  {
    if n < |symbols| {
      assert symbols[..n + 1][..n] == symbols[..n];
      ScanStaysFailed(store, symbols, n + 1, settings, now);
    } else {
      assert symbols[..n] == symbols;
    }
  }

  // ------------------------------------------------------------ the buffers

  /** `pd.concat([entry, log]).head(20)`: the new entry in front, the oldest
      entries beyond 20 dropped, the others in their order. */
  function PushFront(log: seq<Alert>, entry: Alert): (r: seq<Alert>)
    ensures |r| == Min(ALERT_LOG_SIZE, |log| + 1)
    ensures r[0] == entry
    ensures r[1..] == log[..|r| - 1]
  {
    Take([entry] + log, ALERT_LOG_SIZE)
  }

  /** The log after pushing `alerts` in order, each to the front. */
  function PushAll(log: seq<Alert>, alerts: seq<Alert>): (r: seq<Alert>)
    ensures |log| <= ALERT_LOG_SIZE ==> |r| <= ALERT_LOG_SIZE
    ensures alerts != [] ==> r != [] && r[0] == alerts[|alerts| - 1]
  {
    if alerts == [] then log else PushFront(PushAll(log, alerts[..|alerts| - 1]), alerts[|alerts| - 1])
  }

  /** The log after a run of pushes holds the newest 20 of the new alerts,
      latest first, followed by as many of the old entries as still fit. */
  lemma {:induction false} PushAllNewestFirst(log: seq<Alert>, alerts: seq<Alert>)
    requires |log| <= ALERT_LOG_SIZE
    ensures PushAll(log, alerts) == Take(Reverse(alerts) + log, ALERT_LOG_SIZE)
  {
    if alerts == [] {
      assert Reverse(alerts) + log == log;
    } else {
      var init, last := alerts[..|alerts| - 1], alerts[|alerts| - 1];
      PushAllNewestFirst(log, init);
      assert Reverse(alerts) == [last] + Reverse(init);
      TakeCons(last, Reverse(init) + log, ALERT_LOG_SIZE);
      assert [last] + Reverse(init) + log == [last] + (Reverse(init) + log);
    }
  }

  /** `pd.concat([history, rows]).tail(500)`: the new rows at the end, the
      oldest rows beyond 500 dropped. */
  function Appended(history: seq<Row>, rows: seq<Row>): (r: seq<Row>)
    ensures |r| == Min(HISTORY_SIZE, |history| + |rows|)
    ensures |rows| <= HISTORY_SIZE ==> r[|r| - |rows|..] == rows
    ensures |rows| <= HISTORY_SIZE ==> r[..|r| - |rows|] == history[|history| + |rows| - |r|..]
  {
    var all := history + rows;
    var r := TakeLast(all, HISTORY_SIZE);
    assert |rows| <= HISTORY_SIZE ==> r[|r| - |rows|..] == all[|all| - |rows|..] == rows;
    r
  }

  /** The dashboard's session state: the alert log and the history. */
  class Session {
    var alertLog: seq<Alert>
    var history: seq<Row>

    ghost predicate Valid()
      reads this
    {
      |alertLog| <= ALERT_LOG_SIZE && |history| <= HISTORY_SIZE
    }

    /** Both frames start empty. */
    constructor ()
      ensures Valid() && alertLog == [] && history == []
    {
      alertLog := [];
      history := [];
    }

    /** The "Clear Alert Log" button. */
    method ClearAlertLog()
      requires Valid()
      modifies this
      ensures Valid()
      ensures alertLog == [] && history == old(history)
    {
      alertLog := [];
    }

    method PrependAlert(entry: Alert)
      requires Valid()
      modifies this
      ensures Valid()
      ensures alertLog == PushFront(old(alertLog), entry) && history == old(history)
    {
      alertLog := Take([entry] + alertLog, ALERT_LOG_SIZE);
    }

    method AppendRows(rows: seq<Row>)
      requires Valid()
      modifies this
      ensures Valid()
      ensures history == Appended(old(history), rows) && alertLog == old(alertLog)
    {
      history := TakeLast(history + rows, HISTORY_SIZE);
    }

    /** One pass of the polling loop over a snapshot of the store taken at
        clock reading `now`. When a Binance ask of 0 stops the pass
        (`completed` false), the alerts of the symbols before it stay in the
        log and the history is untouched; a pass that prices nothing leaves
        the history unchanged as well. */
    method Cycle(store: map<string, Fields>, settings: Settings, now: int) returns (completed: bool)
      requires Valid()
      modifies this
      ensures Valid()
      ensures var scan := ScanSymbols(store, SYMBOLS, settings, now);
        completed == !scan.failed &&
        alertLog == PushAll(old(alertLog), scan.alerts) &&
        history == (if scan.failed || scan.rows == [] then old(history) else Appended(old(history), scan.rows))
      ensures !completed <==> SomeAskIsZero(store, SYMBOLS, settings, now)
    {
      var newRows: seq<Row> := [];
      for i := 0 to |SYMBOLS|
        invariant Valid()
        invariant var scan := ScanSymbols(store, SYMBOLS[..i], settings, now);
          !scan.failed && newRows == scan.rows &&
          alertLog == PushAll(old(alertLog), scan.alerts)
        invariant history == old(history)
      {
        ghost var before := ScanSymbols(store, SYMBOLS[..i], settings, now);
        assert SYMBOLS[..i + 1][..i] == SYMBOLS[..i];
        match Evaluate(store, SYMBOLS[i], settings, now)
        case Missing =>
          assert ScanSymbols(store, SYMBOLS[..i + 1], settings, now) == before;
        case ZeroAsk =>
          assert ScanSymbols(store, SYMBOLS[..i + 1], settings, now).failed;
          ScanStaysFailed(store, SYMBOLS, i + 1, settings, now);
          ScanFailsIffZeroAsk(store, SYMBOLS, settings, now);
          return false;
        case Priced(row) =>
          assert ScanSymbols(store, SYMBOLS[..i + 1], settings, now) ==
            Scan(before.rows + [row],
                 if RaisesAlert(row) then before.alerts + [AlertOf(row)] else before.alerts,
                 false);
          newRows := newRows + [row];
          if RaisesAlert(row) {
            PrependAlert(AlertOf(row));
            assert (before.alerts + [AlertOf(row)])[..|before.alerts|] == before.alerts;
          }
      }
      assert SYMBOLS[..|SYMBOLS|] == SYMBOLS;
      ScanFailsIffZeroAsk(store, SYMBOLS, settings, now);
      if newRows != [] {
        AppendRows(newRows);
      }
      completed := true;
    }
  }

  // ------------------------------------------------------------ the trend

  /** ▲, ▼ and 〓. */
  datatype Trend = Rising | Falling | Unchanged

  /** The trend of a spread against the previous one; 〓 when either is
      missing (the lookup raises and the handler picks 〓). */
  function Classify(current: Option<real>, previous: Option<real>): (t: Trend)
    ensures t == Rising <==> current.Some? && previous.Some? && current.value > previous.value
    ensures t == Falling <==> current.Some? && previous.Some? && current.value < previous.value
    ensures t == Unchanged <==> current.None? || previous.None? || current.value == previous.value
  {
    if current.None? || previous.None? then Unchanged
    else if current.value > previous.value then Rising
    else if current.value < previous.value then Falling
    else Unchanged
  }

  /** The spreads of a symbol's rows in the history, oldest first. */
  function SpreadsOf(history: seq<Row>, symbol: string): seq<real>
  {
    if history == [] then []
    else
      var last := history[|history| - 1];
      SpreadsOf(history[..|history| - 1], symbol) + (if last.symbol == symbol then [last.spread] else [])
  }

  /** `groupby('symbol').tail(1)` and `groupby('symbol').nth(-2)` for one
      symbol, classified. */
  function TrendOf(history: seq<Row>, symbol: string): (t: Trend)
    ensures |SpreadsOf(history, symbol)| < 2 ==> t == Unchanged
    ensures var spreads := SpreadsOf(history, symbol); |spreads| >= 2 ==>
      (t == Rising <==> spreads[|spreads| - 1] > spreads[|spreads| - 2]) &&
      (t == Falling <==> spreads[|spreads| - 1] < spreads[|spreads| - 2])
  {
    var spreads := SpreadsOf(history, symbol);
    var n := |spreads|;
    Classify(if n >= 1 then Some(spreads[n - 1]) else None,
             if n >= 2 then Some(spreads[n - 2]) else None)
  }

  /** A new row for a symbol that already had one sets the symbol's trend by
      comparing the two spreads; rows of other symbols do not change it. */
  lemma TrendAfterRow(history: seq<Row>, row: Row, symbol: string)
    ensures symbol != row.symbol ==> TrendOf(history + [row], symbol) == TrendOf(history, symbol)
    ensures symbol == row.symbol && SpreadsOf(history, symbol) != [] ==>
      var latest := SpreadsOf(history, symbol)[|SpreadsOf(history, symbol)| - 1];
      TrendOf(history + [row], symbol) ==
        (if row.spread > latest then Rising else if row.spread < latest then Falling else Unchanged)
    ensures SpreadsOf(history, symbol) == [] ==> TrendOf(history, symbol) == Unchanged
  {
    var extended := history + [row];
    assert extended[..|extended| - 1] == history;
    assert SpreadsOf(extended, symbol) ==
      SpreadsOf(history, symbol) + (if row.symbol == symbol then [row.spread] else []);
  }

  /** The trends computed by the loop at frontend/app.py:192-199: one
      classification per configured symbol, in `SYMBOLS` order. */
  method Trends(history: seq<Row>) returns (trends: seq<Trend>)
    ensures |trends| == |SYMBOLS|
    ensures forall i :: 0 <= i < |SYMBOLS| ==> trends[i] == TrendOf(history, SYMBOLS[i])
  {
    trends := [];
    for i := 0 to |SYMBOLS|
      invariant |trends| == i
      invariant forall j :: 0 <= j < i ==> trends[j] == TrendOf(history, SYMBOLS[j])
    {
      var spreads := SpreadsOf(history, SYMBOLS[i]);
      var current := if |spreads| >= 1 then Some(spreads[|spreads| - 1]) else None;
      var previous := if |spreads| >= 2 then Some(spreads[|spreads| - 2]) else None;
      trends := trends + [Classify(current, previous)];
    }
  }
}

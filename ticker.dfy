/** The ingestion side (backend/main.py): one order-book snapshot becomes one
    ticker record, written to the store under `ticker:{exchange}:{symbol}`,
    overwriting whatever was there; one connector runs per configured
    (exchange, symbol) pair. */
module Ticker {
  import opened Wrappers
  import opened Sequences

  const SYMBOLS: seq<string> := ["BTC/USDT", "ETH/USDT", "SOL/USDT", "BNB/USDT", "XRP/USDT"]
  const EXCHANGES: seq<string> := ["binance", "kraken"]

  /** Number of price levels per side that count towards the depth. */
  const DEPTH_LEVELS: nat := 5

  /** One `[price, size]` entry of an order book side. */
  datatype Level = Level(price: real, size: real)

  /** What `watch_order_book` returns: bids best first, asks best first, and
      the exchange's millisecond timestamp, which may be `None`. */
  datatype Snapshot = Snapshot(bids: seq<Level>, asks: seq<Level>, timestamp: Option<int>)

  /** The record written to the store. */
  datatype Record = Record(
    exchange: string,
    symbol: string,
    bid: real,
    ask: real,
    bidDepth: real,
    askDepth: real,
    latency: real,
    timestamp: Option<int>)

  /** Python truthiness of the timestamp: `None` and `0` are both false. */
  predicate Truthy(timestamp: Option<int>)
  {
    timestamp.Some? && timestamp.value != 0
  }

  predicate NonNegativeSizes(levels: seq<Level>)
  {
    forall i :: 0 <= i < |levels| ==> levels[i].size >= 0.0
  }

  /** `sum(l[1] for l in levels)`, added left to right. */
  function SumSizes(levels: seq<Level>): (r: real)
    ensures NonNegativeSizes(levels) ==> r >= 0.0
  {
    if levels == [] then 0.0 else SumSizes(levels[..|levels| - 1]) + levels[|levels| - 1].size
  }

  /** The depth of one side: the sizes of its first five levels. */
  function Depth(levels: seq<Level>): (r: real)
    ensures |levels| <= DEPTH_LEVELS ==> r == SumSizes(levels)
    ensures levels == [] ==> r == 0.0
    ensures NonNegativeSizes(levels) ==> r >= 0.0
  {
    SumSizes(Take(levels, DEPTH_LEVELS))
  }

  /** Bids as the exchange library lists them: highest price first. */
  predicate HighestFirst(levels: seq<Level>)
  {
    forall i, j :: 0 <= i < j < |levels| ==> levels[i].price >= levels[j].price
  }

  /** Asks as the exchange library lists them: lowest price first. */
  predicate LowestFirst(levels: seq<Level>)
  {
    forall i, j :: 0 <= i < j < |levels| ==> levels[i].price <= levels[j].price
  }

  /** Top-of-book price, or 0 for an empty side. The code trusts the feed's
      order: on bids listed highest first it is the highest bid, on asks
      listed lowest first the lowest ask. */
  function BestPrice(levels: seq<Level>): (r: real)
    ensures levels == [] ==> r == 0.0
    ensures levels != [] ==> r == levels[0].price
    ensures HighestFirst(levels) ==> forall i :: 0 <= i < |levels| ==> levels[i].price <= r
    ensures LowestFirst(levels) && levels != [] ==> forall i :: 0 <= i < |levels| ==> r <= levels[i].price
  {
    if levels == [] then 0.0 else levels[0].price
  }

  /** Local receive time minus the exchange's time, or 0 when the exchange
      gave no (or a zero) timestamp. Not clamped: negative under clock skew. */
  function Latency(localTs: real, timestamp: Option<int>): (r: real)
    ensures Truthy(timestamp) ==> r + timestamp.value as real == localTs
    ensures Truthy(timestamp) ==> (r < 0.0 <==> timestamp.value as real > localTs)
    ensures !Truthy(timestamp) ==> r == 0.0
  {
    if Truthy(timestamp) then localTs - timestamp.value as real else 0.0
  }

  /** The record `fetch_order_book` builds from one snapshot, `localTs` being
      the local clock in milliseconds when the snapshot was handled. */
  function Derive(exchange: string, symbol: string, book: Snapshot, localTs: real): (r: Record)
    ensures r.exchange == exchange && r.symbol == symbol && r.timestamp == book.timestamp
    ensures book.bids != [] ==> r.bid == book.bids[0].price
    ensures book.asks != [] ==> r.ask == book.asks[0].price
    ensures book.bids == [] ==> r.bid == 0.0 && r.bidDepth == 0.0
    ensures book.asks == [] ==> r.ask == 0.0 && r.askDepth == 0.0
    ensures r.bidDepth == Depth(book.bids) && r.askDepth == Depth(book.asks)
    ensures r.latency == Latency(localTs, book.timestamp)
  {
    Record(exchange, symbol, BestPrice(book.bids), BestPrice(book.asks),
           Depth(book.bids), Depth(book.asks), Latency(localTs, book.timestamp), book.timestamp)
  }

  lemma {:induction false} SumSizesAppend(a: seq<Level>, b: seq<Level>)
    ensures SumSizes(a + b) == SumSizes(a) + SumSizes(b)
    decreases |b|
  {
    if b != [] {
      assert (a + b)[..|a + b| - 1] == a + b[..|b| - 1];
      SumSizesAppend(a, b[..|b| - 1]);
    } else {
      assert a + b == a;
    }
  }

  /** Levels past the fifth never affect the depth. */
  lemma DepthIgnoresDeeperLevels(top: seq<Level>, deeper: seq<Level>)
    requires |top| >= DEPTH_LEVELS
    ensures Depth(top + deeper) == Depth(top)
  {
    assert Take(top + deeper, DEPTH_LEVELS) == Take(top, DEPTH_LEVELS);
  }

  /** With sizes that are never negative, the depth is at most the size of the
      whole side. */
  lemma DepthAtMostWholeSide(levels: seq<Level>)
    requires NonNegativeSizes(levels)
    ensures 0.0 <= Depth(levels) <= SumSizes(levels)
  {
    if |levels| > DEPTH_LEVELS {
      var top, rest := levels[..DEPTH_LEVELS], levels[DEPTH_LEVELS..];
      assert levels == top + rest;
      SumSizesAppend(top, rest);
      assert NonNegativeSizes(rest) by {
        forall i | 0 <= i < |rest| ensures rest[i].size >= 0.0 {
          assert rest[i] == levels[DEPTH_LEVELS + i];
        }
      }
    }
  }

  /** A snapshot with an empty side is still turned into a record: price 0,
      depth 0 on that side. */
  lemma EmptySideStillPublished(exchange: string, symbol: string, book: Snapshot, localTs: real)
    requires book.bids == [] || book.asks == []
    ensures var r := Derive(exchange, symbol, book, localTs);
      (book.bids == [] ==> r.bid == 0.0 && r.bidDepth == 0.0) &&
      (book.asks == [] ==> r.ask == 0.0 && r.askDepth == 0.0)
  {
  }

  /** Python truthiness decides the latency: a missing timestamp and a zero
      timestamp both give 0, any other timestamp is subtracted. */
  lemma FalsyTimestampsGiveZeroLatency(localTs: real, t: int)
    ensures Latency(localTs, None) == 0.0
    ensures Latency(localTs, Some(0)) == 0.0
    ensures t != 0 ==> Latency(localTs, Some(t)) == localTs - t as real
  {
  }

  /** Latency is not clamped: an exchange clock ahead of the local one gives a
      negative latency. */
  lemma LatencyCanBeNegative()
    ensures Latency(1000.0, Some(2000)) == -1000.0
  {
  }

  /** The end-to-end example: two bid levels and one ask level, handled 50 ms
      after the exchange's timestamp. */
  lemma WorkedExample(t: int)
    requires t != 0
    ensures Derive("binance", "BTC/USDT",
                   Snapshot([Level(100.0, 1.0), Level(99.5, 2.0)], [Level(100.5, 1.5)], Some(t)),
                   t as real + 50.0)
         == Record("binance", "BTC/USDT", 100.0, 100.5, 3.0, 1.5, 50.0, Some(t))
  {
    var bids := [Level(100.0, 1.0), Level(99.5, 2.0)];
    assert bids[..1] == [Level(100.0, 1.0)];
    assert [Level(100.0, 1.0)][..0] == [];
  }

  // ---------------------------------------------------------------- the store

  /** The store key of a pair. */
  function Key(exchange: string, symbol: string): (k: string)
    ensures |k| == 8 + |exchange| + |symbol|
    ensures k[..7] == "ticker:" && k[7..7 + |exchange|] == exchange
    ensures k[7 + |exchange|] == ':' && k[8 + |exchange|..] == symbol
  {
    "ticker:" + exchange + ":" + symbol
  }

  /** Two pairs whose exchange names hold no ':' share a key only when they are
      the same pair (symbols may hold anything, '/' included). */
  lemma KeyInjective(e1: string, s1: string, e2: string, s2: string)
    requires ':' !in e1 && ':' !in e2
    requires Key(e1, s1) == Key(e2, s2)
    ensures e1 == e2 && s1 == s2
  {
    var k := Key(e1, s1);
    assert k == Key(e2, s2);
    assert forall i :: 0 <= i < |e1| ==> k[7 + i] == e1[i];
    assert forall i :: 0 <= i < |e2| ==> k[7 + i] == e2[i];
    assert k[7 + |e1|] == ':' && Key(e2, s2)[7 + |e2|] == ':';
    assert e1 == k[7..7 + |e1|] == e2;
    assert s1 == k[8 + |e1|..] == s2;
  }

  /** What a connector's receive loop sees in one iteration: a snapshot,
      handled at local time `localTs`, or an exception (from the exchange
      stream or the store write), after which it sleeps and retries. */
  datatype Event = Received(book: Snapshot, localTs: real) | Failed

  /** The store after a connector for (exchange, symbol) has gone through
      `events` in order. */
  function Replay(entries: map<string, Record>, exchange: string, symbol: string, events: seq<Event>): (r: map<string, Record>)
    ensures entries.Keys <= r.Keys <= entries.Keys + {Key(exchange, symbol)}
  {
    if events == [] then entries
    else
      var before := Replay(entries, exchange, symbol, events[..|events| - 1]);
      match events[|events| - 1]
      case Failed => before
      case Received(book, localTs) => before[Key(exchange, symbol) := Derive(exchange, symbol, book, localTs)]
  }

  /** The record of the last snapshot among `events`, if any. */
  function LastRecord(exchange: string, symbol: string, events: seq<Event>): Option<Record>
  {
    if events == [] then None
    else match events[|events| - 1]
      case Failed => LastRecord(exchange, symbol, events[..|events| - 1])
      case Received(book, localTs) => Some(Derive(exchange, symbol, book, localTs))
  }

  /** Last write wins: after any run of a connector the store differs from the
      one before only at its own key, which holds the record of the latest
      snapshot; a run with no snapshot leaves the store as it was. */
  lemma {:induction false} ReplayLastWriteWins(entries: map<string, Record>, exchange: string, symbol: string, events: seq<Event>)
    ensures Replay(entries, exchange, symbol, events) ==
      match LastRecord(exchange, symbol, events)
      case None => entries
      case Some(r) => entries[Key(exchange, symbol) := r]
  {
    if events != [] {
      ReplayLastWriteWins(entries, exchange, symbol, events[..|events| - 1]);
    }
  }

  /** A connector never touches any key but its own. */
  lemma ReplayIsolated(entries: map<string, Record>, exchange: string, symbol: string, events: seq<Event>, other: string)
    requires other != Key(exchange, symbol)
    ensures var after := Replay(entries, exchange, symbol, events);
      (other in after <==> other in entries) && (other in entries ==> after[other] == entries[other])
  {
    ReplayLastWriteWins(entries, exchange, symbol, events);
  }

  /** Pure overwrite: handling the same snapshot twice leaves the store as
      handling it once does. */
  lemma {:induction false} ReplayIdempotent(entries: map<string, Record>, exchange: string, symbol: string, book: Snapshot, localTs: real)
    ensures Replay(entries, exchange, symbol, [Received(book, localTs), Received(book, localTs)])
         == Replay(entries, exchange, symbol, [Received(book, localTs)])
  {
    var e := Received(book, localTs);
    assert [e, e][..1] == [e];
    assert [e][..0] == [];
  }

  /** The store: a key-value map where `set` overwrites. */
  class Store {
    var entries: map<string, Record>

    constructor ()
      ensures entries == map[]
    {
      entries := map[];
    }

    /** `r.set(key, value)`. */
    method Set(key: string, value: Record)
      modifies this
      ensures entries == old(entries)[key := value]
    {
      entries := entries[key := value];
    }
  }

  /** The body of one iteration of the loop in `fetch_order_book`: derive the
      record and overwrite the pair's key. */
  method Publish(store: Store, exchange: string, symbol: string, book: Snapshot, localTs: real)
    modifies store
    ensures store.entries == old(store.entries)[Key(exchange, symbol) := Derive(exchange, symbol, book, localTs)]
  {
    var data := Derive(exchange, symbol, book, localTs);
    store.Set(Key(exchange, symbol), data);
  }

  /** The loop of `fetch_order_book`, over a finite run of iterations: every
      snapshot is published, every failure writes nothing. */
  method FetchOrderBook(store: Store, exchange: string, symbol: string, events: seq<Event>)
    modifies store
    ensures store.entries == Replay(old(store.entries), exchange, symbol, events)
  {
    for i := 0 to |events|
      invariant store.entries == Replay(old(store.entries), exchange, symbol, events[..i])
    {
      assert events[..i + 1][..i] == events[..i];
      match events[i]
      case Failed =>
      case Received(book, localTs) =>
        Publish(store, exchange, symbol, book, localTs);
    }
    assert events[..|events|] == events;
  }

  // ---------------------------------------------------------------- the tasks

  datatype Pair = Pair(exchange: string, symbol: string)

  /** The pairs of one symbol, in exchange order. */
  function PairsOf(symbol: string, exchanges: seq<string>): seq<Pair>
  {
    seq(|exchanges|, j requires 0 <= j < |exchanges| => Pair(exchanges[j], symbol))
  }

  /** `[(ex, sym) for sym in symbols for ex in exchanges]`: one task per pair. */
  function Pairs(symbols: seq<string>, exchanges: seq<string>): (r: seq<Pair>)
    ensures forall k :: 0 <= k < |r| ==> r[k].exchange in exchanges && r[k].symbol in symbols
  {
    if symbols == [] then []
    else Pairs(symbols[..|symbols| - 1], exchanges) + PairsOf(symbols[|symbols| - 1], exchanges)
  }

  /** The enumeration has |symbols| * |exchanges| entries, symbol-major: the
      pair of symbol i and exchange j sits at i * |exchanges| + j. */
  lemma {:induction false} PairAt(symbols: seq<string>, exchanges: seq<string>, i: nat, j: nat)
    requires i < |symbols| && j < |exchanges|
    ensures |Pairs(symbols, exchanges)| == |symbols| * |exchanges|
    ensures i * |exchanges| + j < |Pairs(symbols, exchanges)|
    ensures Pairs(symbols, exchanges)[i * |exchanges| + j] == Pair(exchanges[j], symbols[i])
  {
    var n, m := |symbols|, |exchanges|;
    var init := symbols[..n - 1];
    PairsLength(symbols, exchanges);
    PairsLength(init, exchanges);
    var front := Pairs(init, exchanges);
    if i < n - 1 {
      PairAt(init, exchanges, i, j);
      RowMajorBound(i, j, n - 1, m);
      assert Pairs(symbols, exchanges)[i * m + j] == front[i * m + j];
    } else {
      assert Pairs(symbols, exchanges)[i * m + j] == PairsOf(symbols[n - 1], exchanges)[j];
    }
  }

  /** Row i of width m ends before row k starts when i < k. */
  lemma RowMajorBound(i: nat, j: nat, k: nat, m: nat)
    requires i < k && j < m
    ensures i * m + j < k * m
  {
    assert (i + 1) * m <= k * m;
  }

  lemma {:induction false} PairsLength(symbols: seq<string>, exchanges: seq<string>)
    ensures |Pairs(symbols, exchanges)| == |symbols| * |exchanges|
  {
    if symbols != [] {
      PairsLength(symbols[..|symbols| - 1], exchanges);
      assert |symbols| * |exchanges| == (|symbols| - 1) * |exchanges| + |exchanges|;
    }
  }

  /** A pair is enumerated exactly when its exchange and its symbol are
      configured. */
  lemma {:induction false} PairsMembership(symbols: seq<string>, exchanges: seq<string>, p: Pair)
    ensures p in Pairs(symbols, exchanges) <==> p.exchange in exchanges && p.symbol in symbols
  {
    if symbols != [] {
      var init, last := symbols[..|symbols| - 1], symbols[|symbols| - 1];
      PairsMembership(init, exchanges, p);
      assert symbols == init + [last];
      if p in PairsOf(last, exchanges) {
        var j :| 0 <= j < |exchanges| && PairsOf(last, exchanges)[j] == p;
        assert exchanges[j] == p.exchange;
      }
      if p.exchange in exchanges && p.symbol == last {
        var j :| 0 <= j < |exchanges| && exchanges[j] == p.exchange;
        assert PairsOf(last, exchanges)[j] == p;
      }
    }
  }

  /** Without repeated names in either list, no pair is enumerated twice. */
  lemma {:induction false} PairsNoDuplicates(symbols: seq<string>, exchanges: seq<string>)
    requires NoDuplicates(symbols) && NoDuplicates(exchanges)
    ensures NoDuplicates(Pairs(symbols, exchanges))
  {
    if symbols != [] {
      var init, last := symbols[..|symbols| - 1], symbols[|symbols| - 1];
      PairsNoDuplicates(init, exchanges);
      var front, row := Pairs(init, exchanges), PairsOf(last, exchanges);
      forall i, j | 0 <= i < j < |front + row| ensures (front + row)[i] != (front + row)[j] {
        if j >= |front| && i < |front| {
          PairsMembership(init, exchanges, front[i]);
          assert front[i].symbol in init;
          assert (front + row)[j].symbol == last;
          assert last !in init by {
            forall k | 0 <= k < |init| ensures init[k] != last {
              assert symbols[k] == init[k];
            }
          }
        } else if i >= |front| {
          assert (front + row)[i] == row[i - |front|];
          assert (front + row)[j] == row[j - |front|];
        } else {
          assert (front + row)[i] == front[i] && (front + row)[j] == front[j];
        }
      }
    }
  }

  /** When no exchange name holds ':' and neither list repeats a name, no
      two tasks write the same key. */
  lemma {:induction false} TaskKeysDistinct(symbols: seq<string>, exchanges: seq<string>)
    requires NoDuplicates(symbols) && NoDuplicates(exchanges)
    requires forall e :: e in exchanges ==> ':' !in e
    ensures forall i, j :: 0 <= i < j < |Pairs(symbols, exchanges)| ==>
      Key(Pairs(symbols, exchanges)[i].exchange, Pairs(symbols, exchanges)[i].symbol) !=
      Key(Pairs(symbols, exchanges)[j].exchange, Pairs(symbols, exchanges)[j].symbol)
  {
    var tasks := Pairs(symbols, exchanges);
    PairsNoDuplicates(symbols, exchanges);
    forall i, j | 0 <= i < j < |tasks|
      ensures Key(tasks[i].exchange, tasks[i].symbol) != Key(tasks[j].exchange, tasks[j].symbol)
    {
      PairsMembership(symbols, exchanges, tasks[i]);
      PairsMembership(symbols, exchanges, tasks[j]);
      if Key(tasks[i].exchange, tasks[i].symbol) == Key(tasks[j].exchange, tasks[j].symbol) {
        KeyInjective(tasks[i].exchange, tasks[i].symbol, tasks[j].exchange, tasks[j].symbol);
      }
    }
  }

  /** `main` starts ten tasks, one per configured pair, each pair once, and
      no two of them write the same key. */
  lemma ConfiguredTasks()
    ensures |Pairs(SYMBOLS, EXCHANGES)| == 10
    ensures NoDuplicates(Pairs(SYMBOLS, EXCHANGES))
    ensures forall p :: p in Pairs(SYMBOLS, EXCHANGES) <==> p.exchange in EXCHANGES && p.symbol in SYMBOLS
    ensures forall i, j :: 0 <= i < j < |Pairs(SYMBOLS, EXCHANGES)| ==>
      Key(Pairs(SYMBOLS, EXCHANGES)[i].exchange, Pairs(SYMBOLS, EXCHANGES)[i].symbol) !=
      Key(Pairs(SYMBOLS, EXCHANGES)[j].exchange, Pairs(SYMBOLS, EXCHANGES)[j].symbol)
  {
    PairsLength(SYMBOLS, EXCHANGES);
    PairsNoDuplicates(SYMBOLS, EXCHANGES);
    TaskKeysDistinct(SYMBOLS, EXCHANGES);
    forall p ensures p in Pairs(SYMBOLS, EXCHANGES) <==> p.exchange in EXCHANGES && p.symbol in SYMBOLS {
      PairsMembership(SYMBOLS, EXCHANGES, p);
    }
  }
}

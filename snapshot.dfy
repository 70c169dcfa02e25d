/**
 * `get_market_data`: one record per tracked symbol, keyed by the record's own symbol.
 * The concurrent gather is modelled as a sequential, order-preserving map.
 */
module Snapshot {
  import opened Wrappers
  import opened Yahoo
  import opened Quotes

  /** The tracked symbols, the S&P 500 index last. */
  const SYMBOLS: seq<string> := ["AAPL", "GOOGL", "MSFT", "AMZN", "META", "^GSPC"]

  predicate Distinct(symbols: seq<string>) {
    forall i, j :: 0 <= i < j < |symbols| ==> symbols[i] != symbols[j]
  }

  /** `[fetch_stock_history(symbol) for symbol in symbols]`, each symbol with its own reply. */
  function FetchAll(symbols: seq<string>, replies: string -> Reply, dateOf: int -> Option<string>)
    : (records: seq<StockRecord>)
    ensures |records| == |symbols|
    ensures forall i :: 0 <= i < |symbols| ==> records[i].symbol == symbols[i]
  {
    seq(|symbols|, i requires 0 <= i < |symbols| => StockRecordFor(symbols[i], replies(symbols[i]), dateOf))
  }

  /** `{result["symbol"]: result for result in results}`: later records overwrite earlier ones. */
  function KeyBySymbol(records: seq<StockRecord>): (m: map<string, StockRecord>)
    ensures m.Keys == set r | r in records :: r.symbol
  {
    if records == [] then map[]
    else
      var last := records[|records| - 1];
      assert records == records[..|records| - 1] + [last];
      KeyBySymbol(records[..|records| - 1])[last.symbol := last]
  }

  /** The snapshot served to the dashboard. */
  function MarketData(replies: string -> Reply, dateOf: int -> Option<string>): map<string, StockRecord> {
    KeyBySymbol(FetchAll(SYMBOLS, replies, dateOf))
  }

  /** A record no later record shares a symbol with is the one stored under its symbol. */
  lemma {:induction false} KeyBySymbolLastWins(records: seq<StockRecord>, j: nat)
    requires j < |records|
    requires forall k :: j < k < |records| ==> records[k].symbol != records[j].symbol
    ensures records[j].symbol in KeyBySymbol(records)
    ensures KeyBySymbol(records)[records[j].symbol] == records[j]
  {
    if j < |records| - 1 {
      KeyBySymbolLastWins(records[..|records| - 1], j);
    }
  }

  /** With distinct symbols, the map has one entry per record. */
  lemma {:induction false} KeyBySymbolSize(records: seq<StockRecord>)
    requires forall i, j :: 0 <= i < j < |records| ==> records[i].symbol != records[j].symbol
    ensures |KeyBySymbol(records)| == |records|
  {
    if records != [] {
      var prefix := records[..|records| - 1];
      var last := records[|records| - 1];
      KeyBySymbolSize(prefix);
      assert last.symbol !in KeyBySymbol(prefix);
    }
  }

  /**
   * For any list of distinct symbols, the keyed results hold exactly those symbols,
   * each mapped to its own record, whether its fetch succeeded or not.
   */
  lemma KeyedResults(symbols: seq<string>, replies: string -> Reply, dateOf: int -> Option<string>)
    requires Distinct(symbols)
    ensures var m := KeyBySymbol(FetchAll(symbols, replies, dateOf));
            && m.Keys == set s | s in symbols
            && |m| == |symbols|
            && forall i :: 0 <= i < |symbols| ==>
                 m[symbols[i]] == StockRecordFor(symbols[i], replies(symbols[i]), dateOf)
  {
    var records := FetchAll(symbols, replies, dateOf);
    SymbolsOfRecords(symbols, records);
    KeyBySymbolSize(records);
    forall i | 0 <= i < |symbols|
      ensures KeyBySymbol(records)[symbols[i]] == StockRecordFor(symbols[i], replies(symbols[i]), dateOf)
    {
      KeyBySymbolLastWins(records, i);
    }
  }

  /** Records carrying distinct symbols in order have those symbols as their key set. */
  lemma SymbolsOfRecords(symbols: seq<string>, records: seq<StockRecord>)
    requires Distinct(symbols)
    requires |records| == |symbols|
    requires forall i :: 0 <= i < |symbols| ==> records[i].symbol == symbols[i]
    ensures (set r | r in records :: r.symbol) == set s | s in symbols
    ensures forall i, j :: 0 <= i < j < |records| ==> records[i].symbol != records[j].symbol
  {
    forall s | s in symbols ensures s in set r | r in records :: r.symbol {
      var i :| 0 <= i < |symbols| && symbols[i] == s;
      assert records[i] in records;
    }
    forall r | r in records ensures r.symbol in symbols {
      var i :| 0 <= i < |records| && records[i] == r;
    }
  }

  /**
   * The snapshot has exactly the six tracked symbols as keys, each mapped to the record
   * fetched for it (the error record when that fetch failed).
   */
  lemma MarketDataCoversSymbols(replies: string -> Reply, dateOf: int -> Option<string>)
    ensures MarketData(replies, dateOf).Keys == set s | s in SYMBOLS
    ensures |MarketData(replies, dateOf)| == 6
    ensures forall s :: s in SYMBOLS ==>
              MarketData(replies, dateOf)[s] == StockRecordFor(s, replies(s), dateOf)
  {
    assert Distinct(SYMBOLS);
    KeyedResults(SYMBOLS, replies, dateOf);
    forall s | s in SYMBOLS
      ensures MarketData(replies, dateOf)[s] == StockRecordFor(s, replies(s), dateOf)
    {
      var i :| 0 <= i < |SYMBOLS| && SYMBOLS[i] == s;
    }
  }
}

/**
 * `fetch_stock_history` without the network: turn one symbol's chart reply into the
 * record the dashboard receives, or into the fixed error record when any step raises.
 */
module Quotes {
  import opened Wrappers
  import opened Yahoo
  import opened History

  /** The per-symbol dict; every metric may be JSON null. */
  datatype StockRecord = StockRecord(
    symbol: string,
    name: Option<string>,
    currentPrice: Option<real>,
    change: Option<real>,
    changePercent: Option<real>,
    volume: Option<int>,
    history: seq<HistoryEntry>)

  /** The record returned by the `except` branch. */
  function ErrorRecord(symbol: string): StockRecord {
    StockRecord(symbol, Some(symbol), None, None, None, None, [])
  }

  /** What the lookups before the loop produce. */
  datatype Located = Located(timestamps: seq<int>, quote: Quote, meta: Meta, price: real)

  /**
   * The status check and the lookups `data["chart"]["result"][0]`, `["timestamp"]`,
   * `["indicators"]["quote"][0]`, `["meta"]` and `meta["regularMarketPrice"]`.
   */
  function Locate(reply: Reply): Result<Located, Failure> {
    match reply
    case ConnectionFailed => Failure(NetworkError)
    case Response(status, body) =>
      if status != 200 then Failure(BadStatus(status))
      else if body.None? then Failure(InvalidJson)
      else if body.value.chart.None? then Failure(MissingKey("chart"))
      else if body.value.chart.value.result.None? then Failure(MissingKey("result"))
      else
        var results := body.value.chart.value.result.value;
        if |results| == 0 then Failure(IndexOutOfRange("result"))
        else if results[0].timestamp.None? then Failure(MissingKey("timestamp"))
        else if results[0].indicators.None? then Failure(MissingKey("indicators"))
        else if results[0].indicators.value.quote.None? then Failure(MissingKey("quote"))
        else
          var quotes := results[0].indicators.value.quote.value;
          if |quotes| == 0 then Failure(IndexOutOfRange("quote"))
          else if results[0].meta.None? then Failure(MissingKey("meta"))
          else if results[0].meta.value.regularMarketPrice.None? then Failure(MissingKey("regularMarketPrice"))
          else Success(Located(results[0].timestamp.value, quotes[0], results[0].meta.value,
                               results[0].meta.value.regularMarketPrice.value))
  }

  /** The second-to-last history price, or the current price when there are fewer than two entries. */
  function PreviousClose(history: seq<HistoryEntry>, currentPrice: real): real {
    if |history| >= 2 then history[|history| - 2].price else currentPrice
  }

  /** The success record, or a division by zero when the previous close is 0. */
  function Summarize(symbol: string, located: Located, history: seq<HistoryEntry>): Result<StockRecord, Failure> {
    var price := located.price;
    var previousClose := PreviousClose(history, price);
    if previousClose == 0.0 then Failure(ZeroDivision)
    else Success(StockRecord(
      symbol,
      located.meta.shortName.Get(symbol),
      Some(price),
      Some(price - previousClose),
      Some((price - previousClose) / previousClose * 100.0),
      located.meta.regularMarketVolume.Get(0),
      history))
  }

  /** The body of the `try` block: the record, or the first exception raised. */
  function Convert(symbol: string, reply: Reply, dateOf: int -> Option<string>): Result<StockRecord, Failure> {
    match Locate(reply)
    case Failure(e) => Failure(e)
    case Success(located) =>
      match BuildHistory(located.timestamps, located.quote, dateOf)
      case Failure(e) => Failure(e)
      case Success(history) => Summarize(symbol, located, history)
  }

  /**
   * What `fetch_stock_history` returns. The record always carries the requested symbol;
   * its current price is null exactly when the conversion raised, and then the record
   * is the error record.
   */
  function StockRecordFor(symbol: string, reply: Reply, dateOf: int -> Option<string>): (r: StockRecord)
    ensures r.symbol == symbol
    ensures r.currentPrice.Some? <==> Convert(symbol, reply, dateOf).Success?
    ensures r.currentPrice.None? ==> r == ErrorRecord(symbol)
    ensures r.currentPrice.Some? ==> r.change.Some? && r.changePercent.Some?
  {
    match Convert(symbol, reply, dateOf)
    case Success(record) => record
    case Failure(_) => ErrorRecord(symbol)
  }

  /** `fetch_stock_history` as the backend runs it, with the history loop as a method. */
  method FetchStockHistory(symbol: string, reply: Reply, dateOf: int -> Option<string>)
    returns (record: StockRecord)
    ensures record == StockRecordFor(symbol, reply, dateOf)
  {
    var located := Locate(reply);
    if located.Failure? {
      return ErrorRecord(symbol);
    }
    var history := CollectHistory(located.value.timestamps, located.value.quote, dateOf);
    if history.Failure? {
      return ErrorRecord(symbol);
    }
    var summary := Summarize(symbol, located.value, history.value);
    if summary.Failure? {
      return ErrorRecord(symbol);
    }
    return summary.value;
  }

  /** The error record keeps the symbol as its name and nulls every metric. */
  lemma ErrorRecordShape(symbol: string, reply: Reply, dateOf: int -> Option<string>)
    requires Convert(symbol, reply, dateOf).Failure?
    ensures var r := StockRecordFor(symbol, reply, dateOf);
            && r.symbol == symbol && r.name == Some(symbol)
            && r.currentPrice.None? && r.change.None? && r.changePercent.None? && r.volume.None?
            && r.history == []
  {
  }

  /**
   * No connection, a non-200 status, an undecodable body, a missing `chart`, `result`,
   * `timestamp`, `indicators`, `quote`, `meta` or `regularMarketPrice`, or an empty
   * `result` or `quote` list all give the error record.
   */
  lemma MalformedReplyYieldsErrorRecord(symbol: string, reply: Reply, dateOf: int -> Option<string>)
    requires
      || reply.ConnectionFailed?
      || reply.status != 200
      || reply.body.None?
      || reply.body.value.chart.None?
      || reply.body.value.chart.value.result.None?
      || |reply.body.value.chart.value.result.value| == 0
      || reply.body.value.chart.value.result.value[0].timestamp.None?
      || reply.body.value.chart.value.result.value[0].indicators.None?
      || reply.body.value.chart.value.result.value[0].indicators.value.quote.None?
      || |reply.body.value.chart.value.result.value[0].indicators.value.quote.value| == 0
      || reply.body.value.chart.value.result.value[0].meta.None?
      || reply.body.value.chart.value.result.value[0].meta.value.regularMarketPrice.None?
    ensures StockRecordFor(symbol, reply, dateOf) == ErrorRecord(symbol)
  {
  }

  /**
   * The conversion succeeds exactly when the lookups succeed, no read in the loop goes
   * wrong, and the divisor is non-zero: the second-to-last non-null close when there
   * are at least two, otherwise the current price.
   */
  lemma ConvertSucceedsIff(symbol: string, reply: Reply, dateOf: int -> Option<string>)
    ensures Convert(symbol, reply, dateOf).Success? <==>
            && Locate(reply).Success?
            && var located := Locate(reply).value;
            && LoopSucceeds(located.timestamps, located.quote, dateOf, |located.timestamps|)
            && |located.timestamps| <= |Closes(located.quote)|
            && var kept := KeptIndices(Closes(located.quote), |located.timestamps|);
            if |kept| >= 2 then Closes(located.quote)[kept[|kept| - 2]] != Some(0.0)
            else located.price != 0.0
  {
    if Locate(reply).Success? {
      var located := Locate(reply).value;
      PrefixShape(located.timestamps, located.quote, dateOf, |located.timestamps|);
      if BuildHistory(located.timestamps, located.quote, dateOf).Success? {
        HistoryFromKeptIndices(located.timestamps, located.quote, dateOf);
        var history := BuildHistory(located.timestamps, located.quote, dateOf).value;
        var kept := KeptIndices(Closes(located.quote), |located.timestamps|);
        if |kept| >= 2 {
          assert ComesFrom(history[|history| - 2], located.timestamps, located.quote, dateOf, kept[|kept| - 2]);
        }
      }
    }
  }

  /**
   * On success: the requested symbol, `shortName` or else the symbol as name (JSON null
   * kept as null), the market price, `regularMarketVolume` or else 0 as volume, and the
   * history of the kept days.
   */
  lemma SuccessRecordFields(symbol: string, reply: Reply, dateOf: int -> Option<string>)
    requires Convert(symbol, reply, dateOf).Success?
    ensures var located := Locate(reply).value;
            var meta := located.meta;
            var r := StockRecordFor(symbol, reply, dateOf);
            && r.symbol == symbol
            && r.currentPrice == Some(located.price)
            && (meta.shortName.Absent? ==> r.name == Some(symbol))
            && (meta.shortName.Null? ==> r.name.None?)
            && (meta.shortName.Found? ==> r.name == Some(meta.shortName.value))
            && (meta.regularMarketVolume.Absent? ==> r.volume == Some(0))
            && (meta.regularMarketVolume.Null? ==> r.volume.None?)
            && (meta.regularMarketVolume.Found? ==> r.volume == Some(meta.regularMarketVolume.value))
            && r.history == BuildHistory(located.timestamps, located.quote, dateOf).value
  {
  }

  /**
   * On success the history holds one entry per non-null close, in timestamp order,
   * each with that day's close and volume as given.
   */
  lemma SuccessRecordHistory(symbol: string, reply: Reply, dateOf: int -> Option<string>)
    requires Convert(symbol, reply, dateOf).Success?
    ensures var located := Locate(reply).value;
            var r := StockRecordFor(symbol, reply, dateOf);
            && |located.timestamps| <= |Closes(located.quote)|
            && var kept := KeptIndices(Closes(located.quote), |located.timestamps|);
            && |r.history| == |kept| <= |located.timestamps|
            && (forall k :: 0 <= k < |r.history| ==>
                  ComesFrom(r.history[k], located.timestamps, located.quote, dateOf, kept[k]))
  {
    var located := Locate(reply).value;
    HistoryFromKeptIndices(located.timestamps, located.quote, dateOf);
  }

  /**
   * The previous close is the close of the second-to-last kept day; with fewer than two
   * kept days it is the current price, so the change and the percent change are 0.
   */
  lemma PreviousCloseRule(symbol: string, reply: Reply, dateOf: int -> Option<string>)
    requires Convert(symbol, reply, dateOf).Success?
    ensures var located := Locate(reply).value;
            var price := located.price;
            var r := StockRecordFor(symbol, reply, dateOf);
            && |located.timestamps| <= |Closes(located.quote)|
            && var kept := KeptIndices(Closes(located.quote), |located.timestamps|);
            && (|kept| >= 2 ==>
                  var previous := Closes(located.quote)[kept[|kept| - 2]];
                  && previous.Some? && previous.value != 0.0
                  && r.change == Some(price - previous.value)
                  && r.changePercent == Some((price - previous.value) / previous.value * 100.0))
            && (|kept| < 2 ==> price != 0.0 && r.change == Some(0.0) && r.changePercent == Some(0.0))
  {
    var located := Locate(reply).value;
    HistoryFromKeptIndices(located.timestamps, located.quote, dateOf);
    KeptIndicesSpec(Closes(located.quote), |located.timestamps|);
  }

  /**
   * A previous close of 0 raises in the percent computation: a second-to-last kept close
   * of 0, or, with fewer than two kept days, a current price of 0.
   */
  lemma ZeroPreviousCloseFails(symbol: string, reply: Reply, dateOf: int -> Option<string>)
    requires Locate(reply).Success?
    requires var located := Locate(reply).value;
             && BuildHistory(located.timestamps, located.quote, dateOf).Success?
             && |located.timestamps| <= |Closes(located.quote)|
             && var kept := KeptIndices(Closes(located.quote), |located.timestamps|);
             if |kept| >= 2 then Closes(located.quote)[kept[|kept| - 2]] == Some(0.0)
             else located.price == 0.0
    ensures Convert(symbol, reply, dateOf) == Failure(ZeroDivision)
    ensures StockRecordFor(symbol, reply, dateOf) == ErrorRecord(symbol)
  {
    var located := Locate(reply).value;
    HistoryFromKeptIndices(located.timestamps, located.quote, dateOf);
  }

  /**
   * Three days whose middle close is null: the history keeps the first and the third day
   * (the third with a null volume), and the previous close is the first day's close.
   */
  lemma ThreeDayExample(dateOf: int -> Option<string>)
    requires dateOf(1700000000) == Some("2023-11-14") && dateOf(1700172800) == Some("2023-11-16")
    ensures var quote := Quote(Some([Some(10.0), None, Some(12.0)]), Some([Some(500), Some(600), None]));
            var meta := Meta(Some(12.5), Absent, Found(900));
            var result := ChartResult(Some(meta), Some([1700000000, 1700086400, 1700172800]),
                                      Some(Indicators(Some([quote]))));
            var reply := Response(200, Some(ChartBody(Some(Chart(Some([result]))))));
            StockRecordFor("AAPL", reply, dateOf) ==
              StockRecord("AAPL", Some("AAPL"), Some(12.5), Some(2.5), Some(25.0), Some(900),
                          [HistoryEntry("2023-11-14", 10.0, Some(500)),
                           HistoryEntry("2023-11-16", 12.0, None)])
  {
    var quote := Quote(Some([Some(10.0), None, Some(12.0)]), Some([Some(500), Some(600), None]));
    var timestamps := [1700000000, 1700086400, 1700172800];
    var first := HistoryEntry("2023-11-14", 10.0, Some(500));
    assert HistoryPrefix(timestamps, quote, dateOf, 0) == Success([]);
    assert Step([], timestamps, quote, dateOf, 0) == Success([] + [first]);
    assert [] + [first] == [first];
    assert HistoryPrefix(timestamps, quote, dateOf, 1) == Success([HistoryEntry("2023-11-14", 10.0, Some(500))]);
    assert HistoryPrefix(timestamps, quote, dateOf, 2) == Success([HistoryEntry("2023-11-14", 10.0, Some(500))]);
  }
}

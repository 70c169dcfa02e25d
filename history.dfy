/**
 * The daily price history built by the loop over `timestamps` in
 * `fetch_stock_history`: only the days whose close is non-null are kept, in order,
 * each with its rendered date, its close and its volume as given.
 */
module History {
  import opened Wrappers
  import opened Yahoo

  datatype HistoryEntry = HistoryEntry(date: string, price: real, volume: Option<int>)

  /** The close array, or the empty array when the key is missing. */
  function Closes(quote: Quote): seq<Option<real>> {
    if quote.close.Some? then quote.close.value else []
  }

  /**
   * One iteration of the loop, at index `i`, applied to the history built so far.
   * `dateOf` renders a timestamp as a calendar date, or fails (`None`) on a
   * timestamp the platform's local-time conversion rejects.
   */
  function Step(history: seq<HistoryEntry>, timestamps: seq<int>, quote: Quote,
                dateOf: int -> Option<string>, i: nat): Result<seq<HistoryEntry>, Failure>
    requires i < |timestamps|
  {
    if quote.close.None? then Failure(MissingKey("close"))
    else if i >= |quote.close.value| then Failure(IndexOutOfRange("close"))
    else if quote.close.value[i].None? then Success(history)
    else if dateOf(timestamps[i]).None? then Failure(BadTimestamp(timestamps[i]))
    else if quote.volume.None? then Failure(MissingKey("volume"))
    else if i >= |quote.volume.value| then Failure(IndexOutOfRange("volume"))
    else Success(history + [HistoryEntry(dateOf(timestamps[i]).value,
                                         quote.close.value[i].value,
                                         quote.volume.value[i])])
  }

  /** The outcome of the first `n` iterations: the first failure raised, or the history so far. */
  function HistoryPrefix(timestamps: seq<int>, quote: Quote, dateOf: int -> Option<string>, n: nat)
    : Result<seq<HistoryEntry>, Failure>
    requires n <= |timestamps|
  {
    if n == 0 then Success([])
    else match HistoryPrefix(timestamps, quote, dateOf, n - 1)
      case Failure(e) => Failure(e)
      case Success(h) => Step(h, timestamps, quote, dateOf, n - 1)
  }

  /** The outcome of the whole loop. */
  function BuildHistory(timestamps: seq<int>, quote: Quote, dateOf: int -> Option<string>)
    : Result<seq<HistoryEntry>, Failure>
  {
    HistoryPrefix(timestamps, quote, dateOf, |timestamps|)
  }

  /** The indices below `n` whose close is non-null, in increasing order. */
  function KeptIndices(closes: seq<Option<real>>, n: nat): (kept: seq<nat>)
    requires n <= |closes|
    ensures |kept| <= n
    ensures forall k :: 0 <= k < |kept| ==> kept[k] < n && closes[kept[k]].Some?
  {
    if n == 0 then []
    else KeptIndices(closes, n - 1) + (if closes[n - 1].Some? then [n - 1] else [])
  }

  /** The indices below `n` whose close is non-null, as a set. */
  ghost function NonNullCloses(closes: seq<Option<real>>, n: nat): set<nat>
    requires n <= |closes|
  {
    set i: nat | i < n && closes[i].Some?
  }

  /** The loop raises nothing in its first `n` iterations. */
  predicate LoopSucceeds(timestamps: seq<int>, quote: Quote, dateOf: int -> Option<string>, n: nat)
    requires n <= |timestamps|
  {
    n == 0 ||
    (quote.close.Some? && n <= |quote.close.value| &&
     forall i :: 0 <= i < n && quote.close.value[i].Some? ==>
       dateOf(timestamps[i]).Some? && quote.volume.Some? && i < |quote.volume.value|)
  }

  /** Entry `e` is the one the loop appends at index `i`. */
  predicate ComesFrom(e: HistoryEntry, timestamps: seq<int>, quote: Quote,
                      dateOf: int -> Option<string>, i: nat)
  {
    && i < |timestamps|
    && i < |Closes(quote)|
    && Closes(quote)[i] == Some(e.price)
    && dateOf(timestamps[i]) == Some(e.date)
    && quote.volume.Some? && i < |quote.volume.value|
    && quote.volume.value[i] == e.volume
  }

  /** `history` holds, one per kept index below `n` and in the same order, the entries built there. */
  predicate MatchesKept(history: seq<HistoryEntry>, timestamps: seq<int>, quote: Quote,
                        dateOf: int -> Option<string>, n: nat)
    requires n <= |Closes(quote)|
  {
    var kept := KeptIndices(Closes(quote), n);
    |history| == |kept| &&
    forall k :: 0 <= k < |history| ==> ComesFrom(history[k], timestamps, quote, dateOf, kept[k])
  }

  /** The kept indices are strictly increasing and include every non-null index below `n`. */
  lemma {:induction false} KeptIndicesSpec(closes: seq<Option<real>>, n: nat)
    requires n <= |closes|
    ensures forall j, k :: 0 <= j < k < |KeptIndices(closes, n)| ==>
      KeptIndices(closes, n)[j] < KeptIndices(closes, n)[k]
    ensures forall i :: 0 <= i < n && closes[i].Some? ==> i in KeptIndices(closes, n)
  {
    if n > 0 {
      KeptIndicesSpec(closes, n - 1);
    }
  }

  /** There are as many kept indices as non-null closes below `n`. */
  lemma {:induction false} KeptCount(closes: seq<Option<real>>, n: nat)
    requires n <= |closes|
    ensures |KeptIndices(closes, n)| == |NonNullCloses(closes, n)|
  {
    if n == 0 {
      assert NonNullCloses(closes, 0) == {};
    } else {
      KeptCount(closes, n - 1);
      if closes[n - 1].Some? {
        assert NonNullCloses(closes, n) == NonNullCloses(closes, n - 1) + {n - 1};
      } else {
        assert NonNullCloses(closes, n) == NonNullCloses(closes, n - 1);
      }
    }
  }

  /** Once an iteration has raised, the loop's outcome is that failure. */
  lemma {:induction false} FailureSticks(timestamps: seq<int>, quote: Quote,
                                         dateOf: int -> Option<string>, m: nat, n: nat)
    requires m <= n <= |timestamps|
    requires HistoryPrefix(timestamps, quote, dateOf, m).Failure?
    ensures HistoryPrefix(timestamps, quote, dateOf, n) == HistoryPrefix(timestamps, quote, dateOf, m)
  {
    if n > m {
      FailureSticks(timestamps, quote, dateOf, m, n - 1);
    }
  }

  /**
   * The first `n` iterations raise nothing exactly when `LoopSucceeds`, and then the
   * history holds the entries of the kept indices below `n`.
   */
  lemma {:induction false} PrefixShape(timestamps: seq<int>, quote: Quote,
                                       dateOf: int -> Option<string>, n: nat)
    requires n <= |timestamps|
    ensures HistoryPrefix(timestamps, quote, dateOf, n).Success? <==>
            LoopSucceeds(timestamps, quote, dateOf, n)
    ensures HistoryPrefix(timestamps, quote, dateOf, n).Success? ==>
            n <= |Closes(quote)| &&
            MatchesKept(HistoryPrefix(timestamps, quote, dateOf, n).value, timestamps, quote, dateOf, n)
  {
    if n > 0 {
      PrefixShape(timestamps, quote, dateOf, n - 1);
      var prev := HistoryPrefix(timestamps, quote, dateOf, n - 1);
      if prev.Success? && quote.close.Some? && n <= |quote.close.value| {
        var h := prev.value;
        var kept := KeptIndices(Closes(quote), n - 1);
        if quote.close.value[n - 1].Some? && dateOf(timestamps[n - 1]).Some? &&
           quote.volume.Some? && n - 1 < |quote.volume.value|
        {
          var e := HistoryEntry(dateOf(timestamps[n - 1]).value, quote.close.value[n - 1].value,
                                quote.volume.value[n - 1]);
          assert HistoryPrefix(timestamps, quote, dateOf, n) == Success(h + [e]);
          assert KeptIndices(Closes(quote), n) == kept + [n - 1];
          assert ComesFrom(e, timestamps, quote, dateOf, n - 1);
        }
      }
    }
  }

  /** The loop succeeds exactly when no read at a visited index goes wrong. */
  lemma HistorySucceedsIff(timestamps: seq<int>, quote: Quote, dateOf: int -> Option<string>)
    ensures BuildHistory(timestamps, quote, dateOf).Success? <==>
            (|timestamps| == 0 ||
             (quote.close.Some? && |timestamps| <= |quote.close.value| &&
              forall i :: 0 <= i < |timestamps| && quote.close.value[i].Some? ==>
                dateOf(timestamps[i]).Some? && quote.volume.Some? && i < |quote.volume.value|))
  {
    PrefixShape(timestamps, quote, dateOf, |timestamps|);
  }

  /** A close array shorter than the timestamps always makes the loop raise. */
  lemma ShortClosesFail(timestamps: seq<int>, quote: Quote, dateOf: int -> Option<string>)
    requires |Closes(quote)| < |timestamps|
    ensures BuildHistory(timestamps, quote, dateOf).Failure?
  {
    PrefixShape(timestamps, quote, dateOf, |timestamps|);
  }

  /**
   * On success, the history holds one entry per non-null close, in timestamp order;
   * entry `k` carries the date, close and (possibly null) volume of the `k`-th kept index.
   */
  lemma HistoryFromKeptIndices(timestamps: seq<int>, quote: Quote, dateOf: int -> Option<string>)
    requires BuildHistory(timestamps, quote, dateOf).Success?
    ensures |timestamps| <= |Closes(quote)|
    ensures var history := BuildHistory(timestamps, quote, dateOf).value;
            var kept := KeptIndices(Closes(quote), |timestamps|);
            && |history| == |kept| == |NonNullCloses(Closes(quote), |timestamps|)|
            && |history| <= |timestamps|
            && (forall k :: 0 <= k < |history| ==>
                  ComesFrom(history[k], timestamps, quote, dateOf, kept[k]))
            && (forall j, k :: 0 <= j < k < |kept| ==> kept[j] < kept[k])
            && (forall i :: 0 <= i < |timestamps| && Closes(quote)[i].Some? ==> i in kept)
  {
    PrefixShape(timestamps, quote, dateOf, |timestamps|);
    KeptIndicesSpec(Closes(quote), |timestamps|);
    KeptCount(Closes(quote), |timestamps|);
  }

  /** The loop as the backend runs it: append a dict per non-null close, raising on a bad read. */
  method CollectHistory(timestamps: seq<int>, quote: Quote, dateOf: int -> Option<string>)
    returns (r: Result<seq<HistoryEntry>, Failure>)
    ensures r == BuildHistory(timestamps, quote, dateOf)
  {
    var history: seq<HistoryEntry> := [];
    for i := 0 to |timestamps|
      invariant HistoryPrefix(timestamps, quote, dateOf, i) == Success(history)
    {
      var failure: Failure;
      if quote.close.None? {
        failure := MissingKey("close");
      } else if i >= |quote.close.value| {
        failure := IndexOutOfRange("close");
      } else {
        var closePrice := quote.close.value[i];
        if closePrice.None? {
          continue;
        }
        var date := dateOf(timestamps[i]);
        if date.None? {
          failure := BadTimestamp(timestamps[i]);
        } else if quote.volume.None? {
          failure := MissingKey("volume");
        } else if i >= |quote.volume.value| {
          failure := IndexOutOfRange("volume");
        } else {
          history := history + [HistoryEntry(date.value, closePrice.value, quote.volume.value[i])];
          continue;
        }
      }
      FailureSticks(timestamps, quote, dateOf, i + 1, |timestamps|);
      return Failure(failure);
    }
    return Success(history);
  }
}

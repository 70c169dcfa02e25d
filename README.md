# Market-data backend: Yahoo chart-response normaliser

This project models the backend of a market dashboard. For each of six tracked
symbols, the backend asks the Yahoo Finance chart endpoint for one year of daily
data. It turns the reply into a record holding the symbol, name, current price,
daily change, percent change, volume and a daily price history. Any exception
along the way yields a fixed error record. The records are then keyed by symbol
into the snapshot served to the dashboard.

Modules:

- `Wrappers`: `Option` and `Result`.
- `Yahoo`: the decoded reply, restricted to the fields the backend reads, and the
  exceptions reading them can raise. A field read with `obj["key"]` ends in the
  error record whether the key is absent or holds JSON null, so it is an `Option`
  (`None` covers both cases). An absent key raises at the read; a null one raises
  later, for example a null `timestamp` at `len` (line 61) or a null
  `regularMarketPrice` at the subtraction (line 80). A field read with `obj.get("key", default)` tells
  the two apart, so it is a three-state `Lookup` (`Absent`, `Null`, `Found`). The
  HTTP outcome is a `Reply`: either no connection, or a status and a body that did
  or did not decode.
- `History`: the loop that builds the daily history. `CollectHistory` is that loop
  as a method. It is proved equal to the specification function `BuildHistory`,
  and the lemmas characterise `BuildHistory` in terms of the indices whose close is
  non-null (`KeptIndices`).
- `Quotes`: the whole per-symbol conversion (`Convert`, `StockRecordFor`), the
  method `FetchStockHistory` and the error record.
- `Snapshot`: the `SYMBOLS` list and the snapshot keyed by each record's own symbol.

Rendering a timestamp as a date uses the platform's local-time conversion and
timezone, so the model takes it as a parameter `dateOf: int -> Option<string>`. `None`
stands for a timestamp that `datetime.fromtimestamp` rejects. Prices are exact
`real` numbers.

Details of the code's behaviour that are easy to miss:

- The close array is read only inside the loop. With no timestamps, a missing
  `close` key does not raise.
- The volume array is read only at indices whose close is non-null. A short
  volume array raises only when some non-null close lies past its end.
- A null volume is copied into the history as null.
- A `shortName` or `regularMarketVolume` that is present but null becomes a null
  `name` or `volume` in the success record. Only an absent key gets the default
  (the symbol, or 0). So a success record's `name` is not always a string.

## Model

| member | source | states |
|---|---|---|
| `History.KeptIndices` | backend/app/main.py:61-63 | every kept index is below the loop bound and has a non-null close; there are at most as many kept indices as iterations |
| `History.KeptIndicesSpec` | backend/app/main.py:61-63 | kept indices are strictly increasing (timestamp order), and every index with a non-null close is kept |
| `History.KeptCount` | backend/app/main.py:61-63 | the number of kept indices equals the number of non-null closes below the bound |
| `History.FailureSticks` | backend/app/main.py:60-68 | once an iteration raises, the loop's outcome is that failure, whatever later indices hold |
| `History.PrefixShape` | backend/app/main.py:60-68 | the first n iterations succeed exactly when every read they make succeeds; the history they build then has one entry per kept index, in order |
| `History.HistorySucceedsIff` | backend/app/main.py:61-67 | the loop succeeds iff there are no timestamps, or the close array exists and covers every timestamp and, at each non-null close, the date renders and the volume array exists and reaches that index |
| `History.ShortClosesFail` | backend/app/main.py:61-62 | a close array (or a missing one) shorter than the timestamps always makes the loop raise |
| `History.HistoryFromKeptIndices` | backend/app/main.py:60-68 | on success the history has one entry per non-null close, at most one per timestamp, in timestamp order; each entry has that day's date, its close as price and its volume verbatim (null included) |
| `History.CollectHistory` | backend/app/main.py:60-68 | the loop as a method returns exactly `BuildHistory`: the history, or the first failure raised |
| `Quotes.StockRecordFor` | backend/app/main.py:39-96 | the record always carries the requested symbol; its current price is null exactly when the conversion raised, and then it is the error record; on success the change and percent change are present |
| `Quotes.FetchStockHistory` | backend/app/main.py:39-96 | the function as the backend runs it, with the loop as a method, returns exactly `StockRecordFor` |
| `Quotes.ErrorRecordShape` | backend/app/main.py:86-96 | on any failure: the symbol kept, the name equal to the symbol, all four metrics null, the history empty |
| `Quotes.MalformedReplyYieldsErrorRecord` | backend/app/main.py:44-57 | no connection, a non-200 status, an undecodable body, a missing chart, result, timestamp, indicators, quote, meta or regularMarketPrice, or an empty result or quote list all give the error record |
| `Quotes.ConvertSucceedsIff` | backend/app/main.py:41-96 | the conversion succeeds iff the lookups succeed, no read in the loop goes wrong, and the divisor is non-zero: the second-to-last non-null close of the input when there are at least two, otherwise the current price |
| `Quotes.SuccessRecordFields` | backend/app/main.py:76-84 | on success: the input symbol; the market price; `shortName`, otherwise the symbol (null stays null); `regularMarketVolume`, otherwise 0 (null stays null); the built history |
| `Quotes.SuccessRecordHistory` | backend/app/main.py:60-83 | on success the record's history has one entry per non-null close in timestamp order, each entry carrying that day's close and volume |
| `Quotes.PreviousCloseRule` | backend/app/main.py:70-81 | with at least two kept days, change and percent change are measured against the second-to-last kept close, which is non-zero; with fewer, the current price is non-zero and both are 0 |
| `Quotes.ZeroPreviousCloseFails` | backend/app/main.py:71-96 | a zero second-to-last kept close, or a zero current price with fewer than two kept days, raises a division by zero and gives the error record |
| `Quotes.ThreeDayExample` | backend/app/main.py:60-84 | on three days with a null middle close, the first and third days are kept (the third with a null volume); the change is 2.5 against the first close and the percent change is 25 |
| `Snapshot.FetchAll` | backend/app/main.py:100 | one record per symbol, in the symbols' order, each carrying its own symbol |
| `Snapshot.KeyBySymbol` | backend/app/main.py:102 | the keys are exactly the symbols of the records |
| `Snapshot.KeyBySymbolLastWins` | backend/app/main.py:102 | a record that no later record shares a symbol with is the value stored under its symbol |
| `Snapshot.KeyBySymbolSize` | backend/app/main.py:102 | with distinct symbols, the map has as many entries as records |
| `Snapshot.SymbolsOfRecords` | backend/app/main.py:100-102 | records that carry distinct symbols in order have exactly those symbols as keys, with no two records sharing one |
| `Snapshot.KeyedResults` | backend/app/main.py:98-102 | for any distinct symbol list, the snapshot has exactly those keys, one entry per symbol, each mapped to that symbol's own record, whether its fetch succeeded or failed |
| `Snapshot.MarketDataCoversSymbols` | backend/app/main.py:98-102 | the snapshot over the six `SYMBOLS` (line 26) has exactly those six keys, each mapped to the record fetched for it |

## Left out

- Network I/O: the HTTP session, URL and headers (lines 28-31, 44-46). The response is an input `Reply`.
- `get_unix_timestamp` (lines 33-37): it reads the clock and only shapes the URL.
- JSON decoding (line 50) is a library call. The model starts from the decoded value, and a body that does not decode is `None`.
- JSON values of a type other than the one Yahoo sends are not modelled, for example a string where a number belongs. Neither is Python's treatment of booleans as numbers.
- `datetime.fromtimestamp(...).strftime` (line 65) depends on the local timezone. It is the parameter `dateOf`.
- Concurrency: `asyncio.gather` (line 101) keeps the order of its results, so it is modelled as a sequential map over `SYMBOLS`.
- The WebSocket push loop with its 5-second sleep (lines 104-115), the REST wrapper (lines 117-120), the FastAPI/CORS setup and the uvicorn launch: I/O, timing and framework glue.
- Floating point: `change_percent` (line 81) is computed exactly over `real`. IEEE rounding is not modelled; only the zero-divisor failure is.
- The `print` of the error (line 87). The model records which exception was raised (`Failure`), but nothing outside the log can observe it. Where several reads would fail, the model may report a different one than Python would, and the resulting record is the same.
- The key order of the snapshot. The dict comprehension (line 102) keeps insertion order, which is the `SYMBOLS` order, and that order shows in the JSON served. A Dafny `map` has no order, so the model states only which keys are present and what each maps to.
- The front-end dashboard (formatters, selection and loading state) is not part of this model.

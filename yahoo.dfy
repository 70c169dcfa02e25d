/**
 * The already-decoded reply of the Yahoo Finance chart endpoint, restricted to the
 * fields the backend reads, together with what reading them can raise.
 *
 * A field read with `obj["key"]` ends in the error record whether the key is absent
 * (a KeyError at the read) or holds JSON null (a TypeError at the read or at a later
 * use of the value), so such a field is an `Option` whose `None` stands for both. A field read with `obj.get("key", default)` distinguishes the
 * two, so it is a three-state `Lookup`.
 */
module Yahoo {
  import opened Wrappers

  /** A key of a JSON object read with `dict.get`. */
  datatype Lookup<+T> = Absent | Null | Found(value: T) {

    /** `obj.get(key, default)`: the default when the key is absent, JSON null as `None`. */
    function Get(default: T): Option<T> {
      match this
      case Absent => Some(default)
      case Null => None
      case Found(v) => Some(v)
    }
  }

  /** `result["meta"]`. */
  datatype Meta = Meta(
    regularMarketPrice: Option<real>,
    shortName: Lookup<string>,
    regularMarketVolume: Lookup<int>)

  /** `result["indicators"]["quote"][0]`: parallel daily arrays, each entry a number or null. */
  datatype Quote = Quote(close: Option<seq<Option<real>>>, volume: Option<seq<Option<int>>>)

  /** `result["indicators"]`. */
  datatype Indicators = Indicators(quote: Option<seq<Quote>>)

  /** One element of `data["chart"]["result"]`. */
  datatype ChartResult = ChartResult(
    meta: Option<Meta>,
    timestamp: Option<seq<int>>,
    indicators: Option<Indicators>)

  /** `data["chart"]`. */
  datatype Chart = Chart(result: Option<seq<ChartResult>>)

  /** The decoded JSON body `data`. */
  datatype ChartBody = ChartBody(chart: Option<Chart>)

  /**
   * What the HTTP GET produced: no response at all, or a status code and a body
   * that either decodes to a chart body or does not (`None`).
   */
  datatype Reply = ConnectionFailed | Response(status: int, body: Option<ChartBody>)

  /** The exceptions the conversion can raise; all of them end in the error record. */
  datatype Failure =
    | NetworkError
    | BadStatus(status: int)
    | InvalidJson
    | MissingKey(key: string)
    | IndexOutOfRange(key: string)
    | BadTimestamp(timestamp: int)
    | ZeroDivision
}

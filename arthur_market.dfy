/** The naming and shaping logic of the Arthur `MarketApi`
    (arthur-api/MarketApi.ts): REST kline requests with their interval maps
    and defaults, stream topic names, the per-message filters of the two
    streams, and the spot/futures routing by `strId`. The HTTP client is an
    axios instance here, so a history call is given `response.data`, the body. */
module ArthurMarket {
  import opened Js
  import opened Wire
  import StrId
  import ArthurAdapter

  /** The spot `intervalMap`: "1h" is spelled "60m", the rest name themselves. */
  const SpotIntervals: map<string, string> :=
    map["1m" := "1m", "5m" := "5m", "15m" := "15m", "1h" := "60m", "4h" := "4h",
        "1d" := "1d", "1w" := "1w", "1M" := "1M"]

  /** The futures `intervalMap`. */
  const FuturesIntervals: map<string, string> :=
    map["1m" := "1", "5m" := "5", "15m" := "15", "1h" := "60", "4h" := "4h",
        "1d" := "1D", "1w" := "1W", "1M" := "1M"]

  /** `intervalMap[key] ?? default`. */
  function LookupOr(m: map<string, string>, key: string, default: string): string
  {
    if key in m then m[key] else default
  }

  /** `${base}/${quote}`.toUpperCase() of `const [base, quote] = symbol.split('-')`. */
  function Pair(symbol: string): string
  {
    Upper(StrId.Base(symbol) + "/" + StrId.Quote(symbol))
  }

  /** The query of a history request: the path, the pair under `pair` (spot)
      or `symbol` (futures), the interval under `type`, and the window. */
  datatype KlineRequest = KlineRequest(path: string, pair: string, kind: string,
                                       start: Option<int>, end: Option<int>)

  function HistoryRequest(market: StrId.Market, symbol: string, interval: string,
                          startTime: Option<int>, endTime: Option<int>): (r: KlineRequest)
    ensures r.path == if market.Spot? then "/exchange/api/v1/kline" else "/swap/history"
    ensures r.pair == Pair(symbol) && r.start == startTime && r.end == endTime
    ensures market.Spot? ==> r.kind == if interval in SpotIntervals then SpotIntervals[interval] else "5m"
    ensures market.Futures? ==> r.kind == if interval in FuturesIntervals then FuturesIntervals[interval] else "5"
  {
    match market
    case Spot => KlineRequest("/exchange/api/v1/kline", Pair(symbol), LookupOr(SpotIntervals, interval, "5m"), startTime, endTime)
    case Futures => KlineRequest("/swap/history", Pair(symbol), LookupOr(FuturesIntervals, interval, "5"), startTime, endTime)
  }

  /** The two maps agree only on "4h" and "1M"; everywhere else they differ. */
  lemma IntervalMapsAgreeOnlyOn4hAnd1M(interval: string)
    requires interval in SpotIntervals
    ensures interval in FuturesIntervals
    ensures SpotIntervals[interval] == FuturesIntervals[interval] <==> interval == "4h" || interval == "1M"
  {
  }

  /** `subscribeSpotKline`: the one-minute stream, whatever interval was asked for. */
  function SpotTopic(symbol: string): string
  {
    "kline_" + Pair(symbol) + "_1m"
  }

  /** `subscribeFuturesKline`, given `${base}-${quote}` by `subscribeKline`. */
  function FuturesTopic(symbol: string): string
  {
    "contract-kline/" + Upper(symbol)
  }

  /** The topic `subscribeKline(strId)` subscribes. */
  function SubscribeTopic(strId: string): string
  {
    var symbol := StrId.Symbol(strId);
    match StrId.Route(strId)
    case Spot => SpotTopic(symbol)
    case Futures => FuturesTopic(symbol)
  }

  /** For a well-formed identifier, spot subscribes `kline_BASE/QUOTE_1m` and
      futures `contract-kline/BASE-QUOTE`, upper-cased. */
  lemma SubscribeTopicOfParts(base: string, quote: string, kind: string)
    requires '-' !in base && '-' !in quote && '-' !in kind
    ensures SubscribeTopic(base + "-" + quote + "-" + kind) ==
      if kind == "spot" then "kline_" + Upper(base + "/" + quote) + "_1m"
      else "contract-kline/" + Upper(base + "-" + quote)
  {
    StrId.OfParts(base, quote, kind);
    StrId.SymbolParts(base, quote);
  }

  /** The spot `transform`: forwards `data` when it is an array, drops the message otherwise. */
  function SpotTransform(item: Json): (r: Option<seq<Json>>)
    ensures r.Some? <==> Field(item, "data").Some? && Field(item, "data").value.JArr?
    ensures r.Some? ==> r.value == Field(item, "data").value.items
  {
    match Field(item, "data")
    case Some(JArr(rows)) => Some(rows)
    case _ => None
  }

  /** The futures `transform`: forwards a message only when it is itself an array. */
  function FuturesTransform(item: Json): (r: Option<seq<Json>>)
    ensures r.Some? <==> item.JArr?
    ensures r.Some? ==> r.value == item.items
  {
    if item.JArr? then Some(item.items) else None
  }

  /** The Arthur dispatcher only ever hands a topic an object, so the futures
      stream forwards nothing it receives through it. */
  lemma {:induction false} FuturesStreamGetsNoArrays(items: seq<Json>, last: Option<seq<string>>, name: string)
    ensures forall j :: 0 <= j < |DataFor(ArthurAdapter.Items(items, last), name)| ==>
      FuturesTransform(DataFor(ArthurAdapter.Items(items, last), name)[j]).None?
    decreases |items|
  {
    if |items| > 0 {
      FuturesStreamGetsNoArrays(items[1..], last, name);
      var rest := ArthurAdapter.Items(items[1..], last);
      match items[0]
      case JObj(f) =>
        if "topic" in f && f["topic"].JStr? {
          var t := f["topic"].s;
          if t == "subscribe" {
            if last.Some? {
              DataForConcat(CompleteAll(last.value), rest, name);
              DataForCompleteAll(last.value, name);
            }
          } else {
            DataForConcat([AddData(t, items[0])], rest, name);
          }
        }
      case JArr(_) =>
      case _ =>
    }
  }

  /** `getSpotKline`: `response.data?.data || []`, kept only when it is an array. */
  function SpotHistory(body: Option<Json>): (r: seq<Json>)
    ensures body.Some? && Field(body.value, "data").Some? && Field(body.value, "data").value.JArr? ==>
      r == Field(body.value, "data").value.items
    ensures !(body.Some? && Field(body.value, "data").Some? && Field(body.value, "data").value.JArr?) ==> r == []
    ensures r != [] ==> body.Some? && body.value.JObj?
  {
    if body.None? then [] else ArrayOrEmpty(Field(body.value, "data"))
  }

  /** `getFuturesKline`: `response.data || []`, kept only when it is an
      array. Here `response` is axios's response object, so the rows are the
      body itself. */
  function FuturesHistory(body: Option<Json>): (r: seq<Json>)
    ensures body.Some? && body.value.JArr? ==> r == body.value.items
    ensures !(body.Some? && body.value.JArr?) ==> r == []
  {
    ArrayOrEmpty(body)
  }

  /** The two endpoints expect differently shaped bodies: the spot rows sit
      under the body's `data`, the futures rows are the body, and a body of
      the other endpoint's shape gives no rows. */
  lemma HistoryBodies(rows: seq<Json>)
    requires rows != []
    ensures SpotHistory(Some(JObj(map["data" := JArr(rows)]))) == rows
    ensures FuturesHistory(Some(JArr(rows))) == rows
    ensures SpotHistory(Some(JArr(rows))) == []
    ensures FuturesHistory(Some(JObj(map["data" := JArr(rows)]))) == []
  {
  }
}

/** The naming and shaping logic of the Binance `MarketApi`
    (binance-api/MarketApi.ts): REST kline requests, stream topic names, the
    per-message map of the kline streams, the spot/futures routing by
    `strId`, and the handling of history responses. The HTTP and WebSocket
    calls themselves are parameters: a history call is given the body the
    HTTP client resolved with, and a subscription is described by the topic
    it subscribes. */
module BinanceMarket {
  import opened Js
  import opened Wire
  import StrId
  import BinanceAdapter

  /** `intervalMap`: every supported interval names itself. */
  const Intervals: map<string, string> :=
    map["1m" := "1m", "5m" := "5m", "15m" := "15m", "1h" := "1h", "4h" := "4h",
        "1d" := "1d", "1w" := "1w", "1M" := "1M"]

  /** `intervalMap[key]`: undefined for a key it does not hold. */
  function Lookup(key: string): Option<string>
  {
    if key in Intervals then Some(Intervals[key]) else None
  }

  /** `${base}${quote}` of `const [base, quote] = symbol.split('-')`. */
  function Pair(symbol: string): string
  {
    StrId.Base(symbol) + StrId.Quote(symbol)
  }

  /** The query of a kline history request. `interval` is None when the map
      has no entry (axios then leaves the parameter out). */
  datatype KlineRequest = KlineRequest(path: string, symbol: string, interval: Option<string>,
                                       limit: int, startTime: Option<int>, endTime: Option<int>)

  /** `options.limit || 500`: an absent or zero limit becomes 500. */
  function Limit(limit: Option<int>): (r: int)
    ensures r == 500 <==> limit.None? || limit.value == 0 || limit.value == 500
    ensures limit.Some? && limit.value != 0 ==> r == limit.value
  {
    if limit.None? || limit.value == 0 then 500 else limit.value
  }

  /** `getSpotKline` / `getFuturesKline`: the same query against two paths. */
  function HistoryRequest(market: StrId.Market, symbol: string, interval: string, limit: Option<int>,
                          startTime: Option<int>, endTime: Option<int>): (r: KlineRequest)
    ensures r.path == if market.Spot? then "/api/v3/klines" else "/fapi/v1/klines"
    ensures r.symbol == Upper(StrId.Base(symbol) + StrId.Quote(symbol))
    ensures r.interval.Some? <==> interval in Intervals
    ensures r.interval.Some? ==> r.interval.value == interval
    ensures r.limit == Limit(limit) && r.startTime == startTime && r.endTime == endTime
  {
    KlineRequest(if market.Spot? then "/api/v3/klines" else "/fapi/v1/klines",
                 Upper(Pair(symbol)), Lookup(interval), Limit(limit), startTime, endTime)
  }

  /** `subscribeSpotKline`: an unmapped interval falls back to "1m". */
  function SpotTopic(symbol: string, interval: string): (t: string)
    ensures t == Lower(Pair(symbol)) + "@kline_" + (if interval in Intervals then interval else "1m")
  {
    Lower(Pair(symbol)) + "@kline_" + OrElse(Lookup(interval), "1m")
  }

  /** `subscribeFuturesKline`: no fallback, so an unmapped interval renders as "undefined". */
  function FuturesTopic(symbol: string, interval: string): (t: string)
    ensures t == Lower(Pair(symbol)) + "@kline_" + (if interval in Intervals then interval else "undefined")
  {
    Lower(Pair(symbol)) + "@kline_" + Render(Lookup(interval))
  }

  /** `{interval: '5m', ...options}`: None when the caller gave no `interval`
      key, Some(None) when the key is present but undefined. */
  function SubscribeInterval(interval: Option<Option<string>>): Option<string>
  {
    match interval
    case None => Some("5m")
    case Some(v) => v
  }

  /** The topic `subscribeKline(strId, options)` subscribes. A property key
      is a string, so an undefined interval is looked up as "undefined". */
  function SubscribeTopic(strId: string, interval: Option<Option<string>>): string
  {
    var symbol := StrId.Symbol(strId);
    var key := Render(SubscribeInterval(interval));
    match StrId.Route(strId)
    case Spot => SpotTopic(symbol, key)
    case Futures => FuturesTopic(symbol, key)
  }

  /** Without an interval, either market subscribes the 5-minute stream. */
  lemma DefaultSubscription(base: string, quote: string, kind: string)
    requires '-' !in base && '-' !in quote && '-' !in kind
    ensures SubscribeTopic(base + "-" + quote + "-" + kind, None) == Lower(base + quote) + "@kline_5m"
  {
    StrId.OfParts(base, quote, kind);
    StrId.SymbolParts(base, quote);
  }

  /** Spot and futures agree on every mapped interval and differ on every other one. */
  lemma TopicsAgreeOnMappedIntervals(symbol: string, interval: string)
    ensures SpotTopic(symbol, interval) == FuturesTopic(symbol, interval) <==> interval in Intervals
  {
    if interval !in Intervals {
      var prefix := Lower(Pair(symbol)) + "@kline_";
      assert SpotTopic(symbol, interval)[|prefix|..] == "1m";
      assert FuturesTopic(symbol, interval)[|prefix|..] == "undefined";
    }
  }

  /** The topic a kline event is delivered to equals the topic subscribed
      for that pair and interval: the event names the pair upper-cased in
      `s` and the interval in `k.i`, and the dispatcher lower-cases `s`. */
  lemma {:induction false} KlineTopicRoundTrip(symbol: string, interval: string, msg: Json)
    requires interval in Intervals && Pair(symbol) != ""
    requires Field(msg, "s") == Some(JStr(Upper(Pair(symbol))))
    requires Truthy(Field(msg, "k")) && Field(Field(msg, "k").value, "i") == Some(JStr(interval))
    ensures BinanceAdapter.KlineTopic(msg) == Some(SpotTopic(symbol, interval))
    ensures BinanceAdapter.KlineTopic(msg) == Some(FuturesTopic(symbol, interval))
  {
    LowerOfUpper(Pair(symbol));
    assert |Lower(Upper(Pair(symbol)))| == |Pair(symbol)|;
  }

  /** A kline event that is neither an acknowledgement nor a `stream`
      message reaches exactly the topic that subscribed to it, whole. */
  lemma KlineEventDelivered(symbol: string, interval: string, msg: Json, last: Option<seq<string>>)
    requires interval in Intervals && Pair(symbol) != ""
    requires Field(msg, "e") == Some(JStr("kline")) && Field(msg, "stream").None?
    requires !BinanceAdapter.IsAck(msg)
    requires Field(msg, "s") == Some(JStr(Upper(Pair(symbol))))
    requires Truthy(Field(msg, "k")) && Field(Field(msg, "k").value, "i") == Some(JStr(interval))
    ensures BinanceAdapter.Dispatch(msg, last) == [AddData(SpotTopic(symbol, interval), msg)]
  {
    KlineTopicRoundTrip(symbol, interval, msg);
  }

  /** One row of a forwarded batch: `[k.t, k.o, k.h, k.l, k.c, k.v]`, each possibly undefined. */
  function Row(k: Json): (row: seq<Option<Json>>)
    ensures |row| == 6
    ensures row[0] == Field(k, "t") && row[1] == Field(k, "o") && row[2] == Field(k, "h")
    ensures row[3] == Field(k, "l") && row[4] == Field(k, "c") && row[5] == Field(k, "v")
  {
    [Field(k, "t"), Field(k, "o"), Field(k, "h"), Field(k, "l"), Field(k, "c"), Field(k, "v")]
  }

  /** The `transform` of both kline streams: a message with a truthy `k`
      becomes the one-row batch `[[t, o, h, l, c, v]]`; any other is dropped. */
  function Transform(msg: Json): Option<seq<seq<Option<Json>>>>
  {
    if Truthy(Field(msg, "k")) then Some([Row(Field(msg, "k").value)]) else None
  }

  /** The stream a subscriber reads: the transform applied to each enqueued message, in order. */
  function Forward(items: seq<Json>): seq<seq<seq<Option<Json>>>>
    decreases |items|
  {
    if |items| == 0 then []
    else
      var rest := Forward(items[1..]);
      match Transform(items[0])
      case None => rest
      case Some(batch) => [batch] + rest
  }

  /** The kline messages among `items`, those with a truthy `k`, in order. */
  function Klines(items: seq<Json>): (r: seq<Json>)
    ensures |r| <= |items|
    ensures forall j :: 0 <= j < |r| ==> Truthy(Field(r[j], "k")) && r[j] in items
    decreases |items|
  {
    if |items| == 0 then []
    else (if Truthy(Field(items[0], "k")) then [items[0]] else []) + Klines(items[1..])
  }

  /** One message is forwarded as its own one-row batch, or not at all. */
  lemma ForwardOne(m: Json)
    ensures Forward([m]) == if Truthy(Field(m, "k")) then [[Row(Field(m, "k").value)]] else []
  {
    assert [m][1..] == [];
  }

  /** The stream of two runs of messages is the stream of the first, then of the second. */
  lemma {:induction false} ForwardConcat(a: seq<Json>, b: seq<Json>)
    ensures Forward(a + b) == Forward(a) + Forward(b)
    decreases |a|
  {
    if |a| > 0 {
      assert (a + b)[0] == a[0] && (a + b)[1..] == a[1..] + b;
      ForwardConcat(a[1..], b);
    } else {
      assert a + b == b;
    }
  }

  /** Batch j of the stream is the one row `[t, o, h, l, c, v]` of the j-th
      kline message, and there is one batch per kline message. */
  lemma {:induction false} ForwardRows(items: seq<Json>)
    ensures |Forward(items)| == |Klines(items)|
    ensures forall j :: 0 <= j < |Forward(items)| ==> Forward(items)[j] == [Row(Field(Klines(items)[j], "k").value)]
    decreases |items|
  {
    if |items| > 0 {
      var rest := items[1..];
      ForwardRows(rest);
      if Truthy(Field(items[0], "k")) {
        assert Forward(items) == [[Row(Field(items[0], "k").value)]] + Forward(rest);
        assert Klines(items) == [items[0]] + Klines(rest);
        forall j | 1 <= j < |Forward(items)|
          ensures Forward(items)[j] == [Row(Field(Klines(items)[j], "k").value)]
        {
          assert Forward(items)[j] == Forward(rest)[j - 1] && Klines(items)[j] == Klines(rest)[j - 1];
        }
      } else {
        assert Forward(items) == Forward(rest);
        assert Klines(items) == Klines(rest);
      }
    }
  }

  /** `getSpotKline`: `response || []`, kept only when it is an array. The
      HTTP client resolves with the body, so the rows are the body itself. */
  function SpotHistory(body: Option<Json>): (r: seq<Json>)
    ensures body.Some? && body.value.JArr? ==> r == body.value.items
    ensures !(body.Some? && body.value.JArr?) ==> r == []
  {
    ArrayOrEmpty(body)
  }

  /** `getFuturesKline` as written: `response.data || []`, although the HTTP
      client already resolves with the body. None when reading `.data`
      throws (an undefined or null body). */
  function FuturesHistoryAsWritten(body: Option<Json>): (r: Option<seq<Json>>)
    ensures r.None? <==> body.None? || body.value.JNull?
  {
    match body
    case None => None
    case Some(JNull) => None
    case Some(b) =>
      match Field(b, "data")
      case Some(JArr(items)) => Some(items)
      case _ => Some([])
  }

  /** Whatever kline rows the futures endpoint returns as its array body,
      the history as written is empty. */
  lemma FuturesHistoryDropsRows(rows: seq<Json>)
    requires |rows| > 0
    ensures FuturesHistoryAsWritten(Some(JArr(rows))) == Some([])
    ensures FuturesHistory(Some(JArr(rows))) == rows
  {
  }

  /** `getFuturesKline` reading the body itself, as `getSpotKline` does. */
  function FuturesHistory(body: Option<Json>): (r: seq<Json>)
    ensures body.Some? && body.value.JArr? ==> r == body.value.items
    ensures !(body.Some? && body.value.JArr?) ==> r == []
  {
    SpotHistory(body)
  }
}

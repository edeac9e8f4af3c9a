/** The Binance endpoint adapter (`BinanceApi` in binance-api/index.ts): the
    subscribe / unsubscribe payload builders and the `recvHandle` dispatcher.
    The spot and futures builders are identical. The builders also record the
    names as `lastTopicNames`; because they are passed unbound and called with
    the client as `this`, that field lives on the client, which does the
    recording (WsClient.WsApiClient.CallBuilder). */
module BinanceAdapter {
  import opened Js
  import opened Wire

  /** `{method, params: names, id: Date.now()}`. */
  function Request(verb: string, names: seq<string>, now: int): Json
  {
    JObj(map["method" := JStr(verb), "params" := JArr(NamesJson(names)), "id" := JNum(now)])
  }

  function BuildSubscribe(names: seq<string>, now: int): Json
  {
    Request("SUBSCRIBE", names, now)
  }

  function BuildUnsubscribe(names: seq<string>, now: int): Json
  {
    Request("UNSUBSCRIBE", names, now)
  }

  /** What a Binance server reads from a request: its method and the topic names in `params`. */
  function ReadRequest(msg: Json): Option<(string, seq<string>)>
  {
    match (Field(msg, "method"), Field(msg, "params"))
    case (Some(JStr(m)), Some(JArr(ps))) =>
      if forall i :: 0 <= i < |ps| ==> ps[i].JStr? then Some((m, seq(|ps|, i requires 0 <= i < |ps| => ps[i].s)))
      else None
    case _ => None
  }

  /** The builders lose nothing: the server reads back the method and exactly the names, in order. */
  lemma BuildersRoundTrip(names: seq<string>, now: int)
    ensures ReadRequest(BuildSubscribe(names, now)) == Some(("SUBSCRIBE", names))
    ensures ReadRequest(BuildUnsubscribe(names, now)) == Some(("UNSUBSCRIBE", names))
  {
    var ps := NamesJson(names);
    assert seq(|ps|, i requires 0 <= i < |ps| => ps[i].s) == names;
  }

  /** `jsonData.e == 'kline'`: loose equality with a word that does not read as a number. */
  predicate LooselyEqualsWord(v: Option<Json>, word: string)
  {
    match v
    case Some(JStr(s)) => s == word
    case Some(JArr(_)) => ToJsString(v.value) == word
    case Some(JObj(_)) => "[object Object]" == word
    case _ => false
  }

  /** `if (jsonData.stream)`: a truthy `stream` is looked up as a topic name; only a string can name one. */
  function StreamDelivery(msg: Json): seq<Action>
  {
    match Field(msg, "stream")
    case Some(JStr(s)) => if s != "" then [AddData(s, msg)] else []
    case _ => []
  }

  /** The topic a kline event names: lower-cased `s`, "@kline_", then `k.i`
      (the empty string when it is undefined or null). None when `s` is
      missing, null or empty; when `s` is not a string `toLowerCase` throws,
      which ends the handler with the same effect. */
  function KlineTopic(msg: Json): Option<string>
    requires Truthy(Field(msg, "k"))
  {
    match Field(msg, "s")
    case Some(JStr(sym)) =>
      if Lower(sym) == "" then None
      else
        var k := Field(msg, "k").value;
        var interval := match Field(k, "i") case None => "" case Some(JNull) => "" case Some(v) => ToJsString(v);
        Some(Lower(sym) + "@kline_" + interval)
    case _ => None
  }

  function KlineDelivery(msg: Json): seq<Action>
  {
    if !msg.JNull? && LooselyEqualsWord(Field(msg, "e"), "kline") && Truthy(Field(msg, "k")) then
      match KlineTopic(msg)
      case None => []
      case Some(topic) => [AddData(topic, msg)]
    else []
  }

  /** A subscription acknowledgement: both `result` and `id` are present (null counts). */
  predicate IsAck(msg: Json)
  {
    Field(msg, "result").Some? && Field(msg, "id").Some?
  }

  /** `recvHandle`. Reading a field of `null` throws at once; an ack before
      any builder ran finds `lastTopicNames` undefined and throws as well. */
  function Dispatch(msg: Json, last: Option<seq<string>>): seq<Action>
  {
    if msg.JNull? then []
    else if IsAck(msg) then
      match last
      case None => []
      case Some(names) => CompleteAll(names)
    else StreamDelivery(msg) + KlineDelivery(msg)
  }

  /** An ack completes every name of the latest batch, in order, and does nothing else. */
  lemma AckCompletesLastBatch(msg: Json, names: seq<string>)
    requires IsAck(msg)
    ensures Dispatch(msg, Some(names)) == CompleteAll(names)
    ensures forall name :: DataFor(Dispatch(msg, Some(names)), name) == []
  {
    forall name ensures DataFor(CompleteAll(names), name) == [] {
      DataForCompleteAll(names, name);
    }
  }

  /** Anything that is not an ack completes nothing, whatever the latest batch was. */
  lemma NonAckCompletesNothing(msg: Json, last: Option<seq<string>>, name: string)
    requires !IsAck(msg)
    ensures !Completes(Dispatch(msg, last), name)
  {
  }

  /** A message with a string `stream` that is not an ack is delivered whole to that topic, first. */
  lemma StreamMessageDelivered(msg: Json, s: string, last: Option<seq<string>>)
    requires !IsAck(msg) && Field(msg, "stream") == Some(JStr(s)) && s != ""
    ensures |Dispatch(msg, last)| >= 1 && Dispatch(msg, last)[0] == AddData(s, msg)
  {
  }
}

/** The Arthur endpoint adapter (`ArthurApi` in arthur-api/index.ts): payload
    builders and the `recvHandle` dispatcher, which only handles arrays of
    items. As for Binance, the builders' `lastTopicNames` is a field of the
    client, recorded by WsClient.WsApiClient.CallBuilder. */
module ArthurAdapter {
  import opened Js
  import opened Wire

  /** `{type: "subscribe", subscribe: names}`. */
  function BuildSubscribe(names: seq<string>): Json
  {
    JObj(map["type" := JStr("subscribe"), "subscribe" := JArr(NamesJson(names))])
  }

  /** `{type: "unsubscribe", subscribe: names}`: the names travel under the key `subscribe` here too. */
  function BuildUnsubscribe(names: seq<string>): Json
  {
    JObj(map["type" := JStr("unsubscribe"), "subscribe" := JArr(NamesJson(names))])
  }

  /** What the Arthur server reads from a request: its type and the names under `subscribe`. */
  function ReadRequest(msg: Json): Option<(string, seq<string>)>
  {
    match (Field(msg, "type"), Field(msg, "subscribe"))
    case (Some(JStr(t)), Some(JArr(ps))) =>
      if forall i :: 0 <= i < |ps| ==> ps[i].JStr? then Some((t, seq(|ps|, i requires 0 <= i < |ps| => ps[i].s)))
      else None
    case _ => None
  }

  lemma BuildersRoundTrip(names: seq<string>)
    ensures ReadRequest(BuildSubscribe(names)) == Some(("subscribe", names))
    ensures ReadRequest(BuildUnsubscribe(names)) == Some(("unsubscribe", names))
  {
    var ps := NamesJson(names);
    assert seq(|ps|, i requires 0 <= i < |ps| => ps[i].s) == names;
  }

  /** `recvHandle`: anything but an array is ignored. */
  function Dispatch(msg: Json, last: Option<seq<string>>): seq<Action>
  {
    if msg.JArr? then Items(msg.items, last) else []
  }

  /** The `for (const item of jsonData)` loop. An object with a string `topic`
      is an ack (`'subscribe'`, completing the latest batch) or data for that
      topic; other objects and arrays are skipped. `'topic' in item` throws on
      a primitive or null item, and an ack before any builder ran finds
      `lastTopicNames` undefined: either ends the loop. */
  function Items(items: seq<Json>, last: Option<seq<string>>): seq<Action>
    decreases |items|
  {
    if |items| == 0 then []
    else
      match items[0]
      case JObj(f) =>
        if "topic" in f && f["topic"].JStr? then
          var t := f["topic"].s;
          if t == "subscribe" then
            match last
            case None => []
            case Some(names) => CompleteAll(names) + Items(items[1..], last)
          else [AddData(t, items[0])] + Items(items[1..], last)
        else Items(items[1..], last)
      case JArr(_) => Items(items[1..], last)
      case _ => []
  }

  /** The topic an item is addressed to, if it is a data item. */
  function DataTopic(item: Json): Option<string>
  {
    match Field(item, "topic")
    case Some(JStr(t)) => if t == "subscribe" then None else Some(t)
    case _ => None
  }

  /** The loop runs to the end: every item is an object or an array, and
      when acks occur a batch has been recorded. */
  predicate RunsToEnd(items: seq<Json>, last: Option<seq<string>>)
  {
    forall i :: 0 <= i < |items| ==>
      (items[i].JObj? || items[i].JArr?) &&
      (last.None? ==> Field(items[i], "topic") != Some(JStr("subscribe")))
  }

  /** The items of `items` addressed to `name`, in array order. */
  function ItemsFor(items: seq<Json>, name: string): seq<Json>
    decreases |items|
  {
    if |items| == 0 then []
    else (if DataTopic(items[0]) == Some(name) then [items[0]] else []) + ItemsFor(items[1..], name)
  }

  /** When the loop runs to the end, each topic receives exactly the items
      addressed to it, in array order. */
  lemma {:induction false} DeliversInArrayOrder(items: seq<Json>, last: Option<seq<string>>, name: string)
    requires RunsToEnd(items, last)
    ensures DataFor(Items(items, last), name) == ItemsFor(items, name)
    decreases |items|
  {
    if |items| > 0 {
      assert RunsToEnd(items[1..], last) by {
        forall i | 0 <= i < |items[1..]| ensures (items[1..][i].JObj? || items[1..][i].JArr?) {
          assert items[1..][i] == items[i + 1];
        }
        forall i | 0 <= i < |items[1..]| && last.None?
          ensures Field(items[1..][i], "topic") != Some(JStr("subscribe"))
        {
          assert items[1..][i] == items[i + 1];
        }
      }
      DeliversInArrayOrder(items[1..], last, name);
      var rest := Items(items[1..], last);
      match items[0]
      case JObj(f) =>
        if "topic" in f && f["topic"].JStr? {
          var t := f["topic"].s;
          if t == "subscribe" {
            DataForConcat(CompleteAll(last.value), rest, name);
            DataForCompleteAll(last.value, name);
          } else {
            DataForConcat([AddData(t, items[0])], rest, name);
          }
        }
      case JArr(_) =>
    }
  }

  /** An ack item completes the whole latest batch. */
  lemma AckItemCompletesBatch(item: Json, names: seq<string>, n: string)
    requires item.JObj? && Field(item, "topic") == Some(JStr("subscribe")) && n in names
    ensures Completes(Dispatch(JArr([item]), Some(names)), n)
  {
    var i :| 0 <= i < |names| && names[i] == n;
    var f := item.fields;
    assert "topic" in f && f["topic"] == JStr("subscribe");
    assert [item][0] == item && [item][1..] == [];
    assert Items([item], Some(names)) == CompleteAll(names) + Items([], Some(names));
    assert Dispatch(JArr([item]), Some(names))[i] == Complete(n);
  }
}

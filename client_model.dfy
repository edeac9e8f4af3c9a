/** The value-level part of the WebSocket client: the records of calls in
    progress, the reconnect backoff, the payloads and dispatchers of the two
    endpoints, and the functions that specify the client's loops. */
module ClientModel {
  import opened Js
  import opened Topic
  import opened Wire
  import BinanceAdapter
  import ArthurAdapter

  /** The two endpoint adapters; Binance spot and futures behave alike. */
  datatype Adapter = Binance | Arthur

  /** `_socket`: none, or a socket whose `readyState` is CONNECTING, OPEN or
      CLOSING (in a closing handshake, until its `close` event). */
  datatype Socket = NoSocket | Connecting(id: nat) | Open(id: nat) | Closing(id: nat)

  datatype Settlement = Pending | Resolved | Rejected

  datatype ClientError = UrlNotSet | NoBuilder | ConnectFailed | NotConnected | TopicNotFound | StreamClosed

  datatype Result<T> = Ok(value: T) | Err(error: ClientError)

  /** A name that `subscribe` registered, the index of its result slot, and its topic. */
  datatype NewTopic = NewTopic(name: string, index: nat, topic: WsApiTopic)

  /** A `subscribe` call in progress, or its outcome. */
  datatype SubscribeCall =
    | SubscribeFailed(error: ClientError)
    | AwaitingConnection(promise: nat, names: seq<string>)
    | AwaitingAcks(slots: seq<Option<Stream>>, added: seq<NewTopic>, waiters: seq<Waiter>)
    | Subscribed(slots: seq<Option<Stream>>)

  /** A `_scheduleReconnect` call in progress, or its outcome. */
  datatype ReconnectStep =
    | NoReconnect
    | Backoff(attempt: nat, delay: nat)
    | ReconnectConnecting(promise: nat)
    | ReconnectFailed
    | Reconnected(resubscribed: seq<string>)

  const BaseDelayMs: nat := 3000
  const MaxDelayMs: nat := 30000

  function Pow2(n: nat): (r: nat)
    ensures r >= 1
  {
    if n == 0 then 1 else 2 * Pow2(n - 1)
  }

  /** `Math.min(3000 * Math.pow(2, attempt - 1), 30000)`. */
  function BackoffDelay(attempt: nat): nat
    requires attempt >= 1
  {
    var d := BaseDelayMs * Pow2(attempt - 1);
    if d < MaxDelayMs then d else MaxDelayMs
  }

  /** The first five delays are 3000, 6000, 12000, 24000 and 30000 ms. */
  lemma BackoffSequence()
    ensures [BackoffDelay(1), BackoffDelay(2), BackoffDelay(3), BackoffDelay(4), BackoffDelay(5)]
         == [3000, 6000, 12000, 24000, 30000]
  {
    assert Pow2(4) == 16;
  }

  lemma {:induction false} Pow2Monotone(m: nat, n: nat)
    requires m <= n
    ensures Pow2(m) <= Pow2(n)
    decreases n
  {
    if m < n {
      Pow2Monotone(m, n - 1);
    }
  }

  /** Delays never shrink from one attempt to the next, start at the base
      delay, never exceed the cap, and sit at the cap from the fifth attempt on. */
  lemma BackoffBounds(m: nat, n: nat)
    requires 1 <= m <= n
    ensures BaseDelayMs <= BackoffDelay(m) <= BackoffDelay(n) <= MaxDelayMs
    ensures n >= 5 ==> BackoffDelay(n) == MaxDelayMs
  {
    Pow2Monotone(m - 1, n - 1);
    if n >= 5 {
      Pow2Monotone(4, n - 1);
      assert Pow2(4) == 16;
    }
  }

  /** The guard of `_scheduleReconnect`: the attempt number it schedules, or
      None when reconnecting is disabled or the budget is spent. */
  function NextAttempt(retryCount: int, reconnectCount: nat): (r: Option<nat>)
    ensures r.Some? <==> 0 < retryCount && reconnectCount < retryCount
  {
    if retryCount <= 0 then None
    else if reconnectCount >= retryCount then None
    else Some(reconnectCount + 1)
  }

  /** The payload a builder returns. */
  function Request(adapter: Adapter, subscribe: bool, names: seq<string>, now: int): Json
  {
    match adapter
    case Binance =>
      if subscribe then BinanceAdapter.BuildSubscribe(names, now) else BinanceAdapter.BuildUnsubscribe(names, now)
    case Arthur =>
      if subscribe then ArthurAdapter.BuildSubscribe(names) else ArthurAdapter.BuildUnsubscribe(names)
  }

  /** The calls `recvHandle` makes for one parsed message. */
  function Dispatch(adapter: Adapter, msg: Json, last: Option<seq<string>>): seq<Action>
  {
    match adapter
    case Binance => BinanceAdapter.Dispatch(msg, last)
    case Arthur => ArthurAdapter.Dispatch(msg, last)
  }

  /** How the promise of attempt `id` has settled, if it is recorded. */
  function Lookup(promises: map<nat, Settlement>, id: nat): (r: Option<Settlement>)
    ensures r.Some? <==> id in promises
  {
    if id in promises then Some(promises[id]) else None
  }

  /** The names of `names` not in `known`, each once, in order of first occurrence. */
  function NewNames(names: seq<string>, known: set<string>): seq<string>
    decreases |names|
  {
    if |names| == 0 then []
    else
      var prefix := NewNames(names[..|names| - 1], known);
      var last := names[|names| - 1];
      if last in known || last in prefix then prefix else prefix + [last]
  }

  lemma {:induction false} NewNamesSpec(names: seq<string>, known: set<string>)
    ensures Distinct(NewNames(names, known))
    ensures forall x :: x in NewNames(names, known) <==> x in names && x !in known
    decreases |names|
  {
    if |names| > 0 {
      var init := names[..|names| - 1];
      NewNamesSpec(init, known);
      assert names == init + [names[|names| - 1]];
    }
  }

  /** `topics.filter(t => this._topics.has(t))`: repeats are kept. */
  function Registered(names: seq<string>, keys: set<string>): (r: seq<string>)
    ensures forall x :: x in r <==> x in names && x in keys
    decreases |names|
  {
    if |names| == 0 then []
    else (if names[0] in keys then [names[0]] else []) + Registered(names[1..], keys)
  }

  function FreshNames(added: seq<NewTopic>): (r: seq<string>)
    ensures |r| == |added|
    ensures forall j :: 0 <= j < |added| ==> r[j] == added[j].name
  {
    seq(|added|, j requires 0 <= j < |added| => added[j].name)
  }

  lemma FreshNamesSnoc(added: seq<NewTopic>, nt: NewTopic)
    ensures FreshNames(added + [nt]) == FreshNames(added) + [nt.name]
  {
  }

  function Without(s: seq<string>, x: string): (r: seq<string>)
    ensures forall y :: y in r <==> y in s && y != x
    decreases |s|
  {
    if |s| == 0 then []
    else
      var last := s[|s| - 1];
      Without(s[..|s| - 1], x) + (if last == x then [] else [last])
  }

  lemma {:induction false} WithoutKeepsDistinct(s: seq<string>, x: string)
    requires Distinct(s)
    ensures Distinct(Without(s, x))
    decreases |s|
  {
    if |s| > 0 {
      var init := s[..|s| - 1];
      WithoutKeepsDistinct(init, x);
      var w := Without(init, x);
      if s[|s| - 1] != x {
        assert s[|s| - 1] !in w;
        assert (w + [s[|s| - 1]])[..|w|] == w;
      } else {
        assert Without(s, x) == w + [];
        assert w + [] == w;
      }
    }
  }

  /** The objects of a registered batch. */
  function Objects(added: seq<NewTopic>): set<WsApiTopic>
  {
    set nt | nt in added :: nt.topic
  }

  function WaiterObjects(ws: seq<Waiter>): set<WsApiTopic>
  {
    set w | w in ws :: w.topic
  }

  /** Every waiter of a batch has been released: `Promise.all` resolves. */
  predicate AllReleased(ws: seq<Waiter>)
    reads WaiterObjects(ws)
  {
    forall w :: w in ws ==> w.topic.Released(w.generation)
  }

  /** The result slots of a registered batch are distinct and in range. */
  predicate SlotsFit(slots: seq<Option<Stream>>, added: seq<NewTopic>)
  {
    (forall j :: 0 <= j < |added| ==> added[j].index < |slots|) &&
    (forall j, k :: 0 <= j < k < |added| ==> added[j].index != added[k].index)
  }

  /** What the result loop of `subscribe` reads of one new topic. */
  datatype Probe = Probe(name: string, index: nat, ready: bool, closed: bool, stream: Stream)

  function Probes(added: seq<NewTopic>): (ps: seq<Probe>)
    reads Objects(added)
    ensures |ps| == |added|
    ensures forall j :: 0 <= j < |added| ==>
      ps[j] == Probe(added[j].name, added[j].index, added[j].topic.isReady, added[j].topic.isClosed,
                     Stream(added[j].topic, added[j].topic.generation))
    decreases |added|
  {
    if |added| == 0 then []
    else
      var t := added[0].topic;
      [Probe(added[0].name, added[0].index, t.isReady, t.isClosed, Stream(t, t.generation))] + Probes(added[1..])
  }

  /** Up to the stop, an entry is ready and closed exactly at the stop. */
  lemma StopAt(ps: seq<Probe>, j: nat)
    requires j <= Stop(ps) && j < |ps|
    ensures ps[j].ready && ps[j].closed <==> j == Stop(ps)
  { }

  /** How many entries the loop gets through: `getStream` throws at the
      first topic that is ready but already closed. */
  function Stop(ps: seq<Probe>): (k: nat)
    ensures k <= |ps|
    ensures forall j :: 0 <= j < k ==> !(ps[j].ready && ps[j].closed)
    ensures k < |ps| ==> ps[k].ready && ps[k].closed
    decreases |ps|
  {
    if |ps| == 0 then 0
    else if ps[0].ready && ps[0].closed then 0
    else 1 + Stop(ps[1..])
  }

  /** The result slots once the loop has gone through `ps`: each ready
      topic's stream is written into its slot. */
  function Filled(slots: seq<Option<Stream>>, ps: seq<Probe>): (r: seq<Option<Stream>>)
    ensures |r| == |slots|
    decreases |ps|
  {
    if |ps| == 0 then slots
    else
      var next := if ps[0].ready && ps[0].index < |slots| then slots[ps[0].index := Some(ps[0].stream)] else slots;
      Filled(next, ps[1..])
  }

  /** The names the loop deletes from the registry: those of the topics that were not ready. */
  function Dropped(ps: seq<Probe>): set<string>
    decreases |ps|
  {
    if |ps| == 0 then {}
    else (if ps[0].ready then {} else {ps[0].name}) + Dropped(ps[1..])
  }

  lemma {:induction false} DroppedSpec(ps: seq<Probe>, n: string)
    ensures n in Dropped(ps) <==> exists j :: 0 <= j < |ps| && !ps[j].ready && ps[j].name == n
    decreases |ps|
  {
    if |ps| > 0 {
      DroppedSpec(ps[1..], n);
      if n in Dropped(ps[1..]) {
        var j :| 0 <= j < |ps[1..]| && !ps[1..][j].ready && ps[1..][j].name == n;
        assert ps[j + 1] == ps[1..][j];
      }
      if exists j :: 0 <= j < |ps| && !ps[j].ready && ps[j].name == n {
        var j :| 0 <= j < |ps| && !ps[j].ready && ps[j].name == n;
        if j > 0 {
          assert ps[1..][j - 1] == ps[j];
        }
      }
    }
  }

  lemma FilledStep(slots: seq<Option<Stream>>, ps: seq<Probe>, j: nat, k: nat)
    requires j < k <= |ps|
    ensures Filled(slots, ps[j..k]) ==
      Filled(if ps[j].ready && ps[j].index < |slots| then slots[ps[j].index := Some(ps[j].stream)] else slots, ps[j + 1..k])
  {
    assert ps[j..k][0] == ps[j] && ps[j..k][1..] == ps[j + 1..k];
  }

  lemma DroppedStep<V>(m: map<string, V>, ps: seq<Probe>, j: nat, k: nat)
    requires j < k <= |ps|
    ensures m - Dropped(ps[j..k]) == (if ps[j].ready then m else m - {ps[j].name}) - Dropped(ps[j + 1..k])
  {
    assert ps[j..k][0] == ps[j] && ps[j..k][1..] == ps[j + 1..k];
  }

  /** The slots of a batch are in range and pairwise distinct. */
  predicate IndicesFit(slots: seq<Option<Stream>>, ps: seq<Probe>)
  {
    (forall j :: 0 <= j < |ps| ==> ps[j].index < |slots|) &&
    (forall j, k :: 0 <= j < k < |ps| ==> ps[j].index != ps[k].index)
  }

  /** Every ready topic's slot receives its stream, and every other slot is
      left as registration set it. */
  lemma {:induction false} FilledSpec(slots: seq<Option<Stream>>, ps: seq<Probe>)
    requires IndicesFit(slots, ps)
    ensures forall j :: 0 <= j < |ps| && ps[j].ready ==> Filled(slots, ps)[ps[j].index] == Some(ps[j].stream)
    ensures forall i :: 0 <= i < |slots| && (forall j :: 0 <= j < |ps| && ps[j].ready ==> ps[j].index != i) ==>
      Filled(slots, ps)[i] == slots[i]
    decreases |ps|
  {
    if |ps| > 0 {
      var next := if ps[0].ready then slots[ps[0].index := Some(ps[0].stream)] else slots;
      var rest := ps[1..];
      assert IndicesFit(next, rest) by {
        forall j, k | 0 <= j < k < |rest| ensures rest[j].index != rest[k].index {
          assert rest[j] == ps[j + 1] && rest[k] == ps[k + 1];
        }
      }
      FilledSpec(next, rest);
      forall j | 0 <= j < |ps| && ps[j].ready ensures Filled(slots, ps)[ps[j].index] == Some(ps[j].stream) {
        if j == 0 {
          forall m | 0 <= m < |rest| && rest[m].ready ensures rest[m].index != ps[0].index {
            assert rest[m] == ps[m + 1];
          }
        } else {
          assert rest[j - 1] == ps[j];
        }
      }
      forall i | 0 <= i < |slots| && (forall j :: 0 <= j < |ps| && ps[j].ready ==> ps[j].index != i)
        ensures Filled(slots, ps)[i] == slots[i]
      {
        forall m | 0 <= m < |rest| && rest[m].ready ensures rest[m].index != i {
          assert rest[m] == ps[m + 1];
        }
      }
    }
  }

  function SetOf(names: seq<string>): set<string>
  {
    set n | n in names
  }

  /** The index of the first name in `s`, or the length when there is none. */
  /** Up to the stop, a name is in the set exactly at the stop. */
  lemma FirstInAt(names: seq<string>, s: set<string>, i: nat)
    requires i <= FirstIn(names, s) && i < |names|
    ensures names[i] in s <==> i == FirstIn(names, s)
  {
  }

  function FirstIn(names: seq<string>, s: set<string>): (k: nat)
    ensures k <= |names|
    ensures forall i :: 0 <= i < k ==> names[i] !in s
    ensures k < |names| ==> names[k] in s
    decreases |names|
  {
    if |names| == 0 then 0
    else if names[0] in s then 0
    else 1 + FirstIn(names[1..], s)
  }

  /** One call a dispatcher makes, on the registry's topic states:
      `complete` and `addData` on a name that is not registered do nothing. */
  function Step(m: map<string, TopicState>, a: Action): (r: map<string, TopicState>)
  {
    match a
    case Complete(n) =>
      if n in m then m[n := m[n].(isReady := m[n].isReady || !m[n].isClosed)] else m
    case AddData(n, item) =>
      if n in m then m[n := m[n].(queue := if m[n].isClosed then m[n].queue else m[n].queue + [item])] else m
  }

  /** The calls made for one message, in order. */
  function ApplyAll(m: map<string, TopicState>, acts: seq<Action>): map<string, TopicState>
    decreases |acts|
  {
    if |acts| == 0 then m else ApplyAll(Step(m, acts[0]), acts[1..])
  }

  /** The registry keeps its names; an open topic becomes ready exactly when
      it was or the message completes it, and its stream grows by exactly the
      items addressed to it, in order; a closed topic is left as it was. */
  lemma {:induction false} ApplyAllSpec(m: map<string, TopicState>, acts: seq<Action>)
    ensures ApplyAll(m, acts).Keys == m.Keys
    ensures forall n :: n in m && !m[n].isClosed ==>
      ApplyAll(m, acts)[n] == m[n].(isReady := m[n].isReady || Completes(acts, n), queue := m[n].queue + DataFor(acts, n))
    ensures forall n :: n in m && m[n].isClosed ==> ApplyAll(m, acts)[n] == m[n]
    decreases |acts|
  {
    if |acts| > 0 {
      var next := Step(m, acts[0]);
      ApplyAllSpec(next, acts[1..]);
      forall n | n in m && !m[n].isClosed
        ensures ApplyAll(m, acts)[n] == m[n].(isReady := m[n].isReady || Completes(acts, n), queue := m[n].queue + DataFor(acts, n))
      {
        CompletesCons(acts, n);
      }
    }
  }

  /** A new topic of a batch: its slot is the first occurrence of its name. */
  predicate Placed(nt: NewTopic, names: seq<string>)
  {
    nt.index < |names| && names[nt.index] == nt.name && nt.name !in names[..nt.index] &&
    nt.topic.name == nt.name
  }

  /** A topic the registration loop created before step `i`, filed under its name. */
  predicate Entry(nt: NewTopic, names: seq<string>, i: nat, reg: map<string, WsApiTopic>)
  {
    nt.name in reg && reg[nt.name] == nt.topic && Placed(nt, names) && nt.index < i
  }

  /** The slot of `names[m]`: the current stream of the topic registered
      under the name (`gens0` holds the generations of the topics registered
      before), except at the first occurrence of a name that was new. */
  predicate Slot(names: seq<string>, m: nat, gens0: map<string, nat>, reg: map<string, WsApiTopic>,
                 slots: seq<Option<Stream>>)
  {
    m < |names| && m < |slots| && names[m] in reg &&
    slots[m] == if names[m] in gens0 then Some(Stream(reg[names[m]], gens0[names[m]]))
      else if names[m] in names[..m] then Some(Stream(reg[names[m]], 0))
      else None
  }

  /** Where the registration loop of `subscribe` stands after `names[..i]`,
      having started from registry `reg0` in order `ord0`, whose topics were
      at generations `gens0`: the new names so far are filed, once each and
      in order of first occurrence, behind the old ones, the old entries are
      untouched, and every slot so far is filled. */
  predicate Registering(names: seq<string>, i: nat, reg0: map<string, WsApiTopic>, gens0: map<string, nat>,
                        ord0: seq<string>, reg: map<string, WsApiTopic>, ord: seq<string>,
                        slots: seq<Option<Stream>>, added: seq<NewTopic>)
  {
    i <= |names| && |slots| == i && gens0.Keys == reg0.Keys &&
    FreshNames(added) == NewNames(names[..i], reg0.Keys) &&
    ord == ord0 + FreshNames(added) &&
    (forall n :: n in reg0 ==> n in reg && reg[n] == reg0[n]) &&
    (forall n :: n in reg ==> n in reg0 || n in FreshNames(added)) &&
    (forall j :: 0 <= j < |added| ==> Entry(added[j], names, i, reg)) &&
    (forall m :: 0 <= m < i ==> Slot(names, m, gens0, reg, slots))
  }

  lemma RegisteringStart(names: seq<string>, reg0: map<string, WsApiTopic>, gens0: map<string, nat>, ord0: seq<string>)
    requires gens0.Keys == reg0.Keys
    ensures Registering(names, 0, reg0, gens0, ord0, reg0, ord0, [], [])
  {
    assert names[..0] == [];
    assert ord0 + [] == ord0;
  }

  /** A registered name: its slot gets the current stream of its topic. */
  lemma {:induction false} RegisteringKeep(names: seq<string>, i: nat, reg0: map<string, WsApiTopic>, gens0: map<string, nat>,
                                           ord0: seq<string>, reg: map<string, WsApiTopic>, ord: seq<string>,
                                           slots: seq<Option<Stream>>, added: seq<NewTopic>, s: Stream)
    requires Registering(names, i, reg0, gens0, ord0, reg, ord, slots, added)
    requires i < |names| && names[i] in reg
    requires s == Stream(reg[names[i]], if names[i] in reg0 then gens0[names[i]] else 0)
    ensures Registering(names, i + 1, reg0, gens0, ord0, reg, ord, slots + [Some(s)], added)
  {
    var known := reg0.Keys;
    NewNamesSpec(names[..i], known);
    var name := names[i];
    assert names[..i + 1][..i] == names[..i];
    if name !in known {
      assert name in FreshNames(added);
      var j :| 0 <= j < |added| && FreshNames(added)[j] == name;
      assert Entry(added[j], names, i, reg);
      assert name in names[..i];
    }
    assert NewNames(names[..i + 1], known) == NewNames(names[..i], known);
    var slots' := slots + [Some(s)];
    forall j | 0 <= j < |added| ensures Entry(added[j], names, i + 1, reg) {
      assert Entry(added[j], names, i, reg);
    }
    forall m | 0 <= m < i + 1 ensures Slot(names, m, gens0, reg, slots') {
      if m < i {
        assert Slot(names, m, gens0, reg, slots);
      }
    }
  }

  /** A name not registered yet: a new topic is filed under it at the end of
      the order, and its slot stays empty. */
  lemma {:induction false} RegisteringEnrol(names: seq<string>, i: nat, reg0: map<string, WsApiTopic>, gens0: map<string, nat>,
                                            ord0: seq<string>, reg: map<string, WsApiTopic>, ord: seq<string>,
                                            slots: seq<Option<Stream>>, added: seq<NewTopic>, t: WsApiTopic)
    requires Registering(names, i, reg0, gens0, ord0, reg, ord, slots, added)
    requires i < |names| && names[i] !in reg && t.name == names[i]
    ensures Registering(names, i + 1, reg0, gens0, ord0, reg[names[i] := t], ord + [names[i]],
                        slots + [None], added + [NewTopic(names[i], i, t)])
  {
    var known := reg0.Keys;
    NewNamesSpec(names[..i], known);
    var name := names[i];
    assert names[..i + 1][..i] == names[..i];
    assert name !in names[..i] by {
      forall m | 0 <= m < i ensures names[..i][m] != name {
        assert Slot(names, m, gens0, reg, slots);
      }
    }
    var nt := NewTopic(name, i, t);
    var reg', added', slots' := reg[name := t], added + [nt], slots + [None];
    FreshNamesSnoc(added, nt);
    assert NewNames(names[..i + 1], known) == NewNames(names[..i], known) + [name];
    EnrolEntries(names, i, reg, added, t, reg', added');
    EnrolSlots(names, i, gens0, reg, slots, t, reg', slots');
  }

  /** Filing a new topic keeps the earlier entries and adds its own. */
  lemma EnrolEntries(names: seq<string>, i: nat, reg: map<string, WsApiTopic>, added: seq<NewTopic>, t: WsApiTopic,
                      reg': map<string, WsApiTopic>, added': seq<NewTopic>)
    requires forall j :: 0 <= j < |added| ==> Entry(added[j], names, i, reg)
    requires i < |names| && names[i] !in reg && names[i] !in names[..i] && t.name == names[i]
    requires reg' == reg[names[i] := t] && added' == added + [NewTopic(names[i], i, t)]
    ensures forall j :: 0 <= j < |added'| ==> Entry(added'[j], names, i + 1, reg')
  {
    forall j | 0 <= j < |added'| ensures Entry(added'[j], names, i + 1, reg') {
      if j < |added| {
        assert Entry(added[j], names, i, reg);
      }
    }
  }

  /** Filing a new topic keeps the earlier slots and leaves its own empty. */
  lemma EnrolSlots(names: seq<string>, i: nat, gens0: map<string, nat>, reg: map<string, WsApiTopic>,
                   slots: seq<Option<Stream>>, t: WsApiTopic, reg': map<string, WsApiTopic>, slots': seq<Option<Stream>>)
    requires forall m :: 0 <= m < i ==> Slot(names, m, gens0, reg, slots)
    requires i < |names| && |slots| == i && names[i] !in reg && names[i] !in gens0 && names[i] !in names[..i]
    requires reg' == reg[names[i] := t] && slots' == slots + [None]
    ensures forall m :: 0 <= m < i + 1 ==> Slot(names, m, gens0, reg', slots')
  {
    forall m | 0 <= m < i + 1 ensures Slot(names, m, gens0, reg', slots') {
      if m < i {
        assert Slot(names, m, gens0, reg, slots);
      }
    }
  }

  /** At the end of a complete registration pass the new topics are exactly
      the new names, in order, and their slots are distinct slots of the list. */
  lemma RegisteredFit(names: seq<string>, reg0: map<string, WsApiTopic>, gens0: map<string, nat>, ord0: seq<string>,
                      reg: map<string, WsApiTopic>, ord: seq<string>, slots: seq<Option<Stream>>, added: seq<NewTopic>)
    requires Registering(names, |names|, reg0, gens0, ord0, reg, ord, slots, added)
    ensures FreshNames(added) == NewNames(names, reg0.Keys)
    ensures SlotsFit(slots, added)
    ensures forall j :: 0 <= j < |added| ==> added[j].name in reg && reg[added[j].name] == added[j].topic
  {
    assert names[..|names|] == names;
    NewNamesSpec(names, reg0.Keys);
    var newNames := FreshNames(added);
    forall j, m | 0 <= j < m < |added| ensures added[j].index != added[m].index {
      DistinctIndices(newNames, j, m);
      assert Entry(added[j], names, |names|, reg) && Entry(added[m], names, |names|, reg);
    }
    forall j | 0 <= j < |added| ensures added[j].index < |slots| && added[j].name in reg && reg[added[j].name] == added[j].topic {
      assert Entry(added[j], names, |names|, reg);
    }
  }
}

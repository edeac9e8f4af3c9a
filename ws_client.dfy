/** The topic-multiplexing WebSocket client (`WsApiClient`). It keeps a
    registry of topics by name, one socket, the shared connection promise,
    the manual-close flag and the reconnect counter.

    Asynchrony is modelled explicitly. The awaits of `subscribe` on the
    connection and on the acknowledgements, and the backoff sleep of
    `_scheduleReconnect`, each end one method, which returns a record of the
    suspended call (ClientModel.SubscribeCall, ClientModel.ReconnectStep),
    and a further method resumes it; the awaits of `sendMessage` and `reset`
    are part of the method that makes them. Whatever the browser does on its
    own is an event method: the socket opens, errors or closes, the 10000 ms
    connect timer fires, a frame arrives, a Blob read loads, the backoff
    sleep ends, and the 5000 ms acknowledgement timers fire (`timerFired` of
    FinishSubscribe). Each
    connect attempt's promise is recorded by id, so a suspended call can see
    how its promise settled. */
module WsClient {
  import opened Js
  import opened Frames
  import opened Topic
  import opened Wire
  import opened ClientModel

  class WsApiClient {
    const url: Option<string>
    /** Whether `new WebSocket(url)` accepts the URL (it throws on a malformed one). */
    const urlAccepted: bool
    const retryCount: int
    /** The builders and `recvHandle` supplied together, or none of them. */
    const adapter: Option<Adapter>

    var socket: Socket
    var topics: map<string, WsApiTopic>
    /** The registry's keys in insertion order, the order a `Map` iterates in. */
    var order: seq<string>
    var manuallyClosed: bool
    var reconnectCount: nat
    var connectionPromise: Option<nat>
    /** How each connect attempt's promise has settled, by attempt id. */
    var promises: map<nat, Settlement>
    var nextId: nat
    /** The adapter's `lastTopicNames`, written on the client by the builders; undefined at first. */
    var lastTopicNames: Option<seq<string>>
    /** The frames written to the socket, oldest first. */
    var sent: seq<Json>

    /** Topics are filed under their own names, `order` lists the keys once
        each, and every connect attempt so far has a recorded promise. A
        registered topic may be closed: its consumer can cancel its stream. */
    ghost predicate Valid()
      reads this
    {
      Registry() && Attempts()
    }

    ghost predicate Registry()
      reads this
    {
      (forall n :: n in topics ==> topics[n].name == n) &&
      Distinct(order) && (forall n :: n in order <==> n in topics)
    }

    ghost predicate Attempts()
      reads this
    {
      (forall id: nat :: id in promises <==> id < nextId) &&
      (!socket.NoSocket? ==> socket.id < nextId) &&
      (connectionPromise.Some? ==> connectionPromise.value < nextId)
    }

    /** The states of the registered topics, by name. */
    ghost function States(): map<string, TopicState>
      reads this, topics.Values
    {
      map n | n in topics :: topics[n].State()
    }

    /** The registered names whose topic is closed. */
    ghost function ClosedNames(): set<string>
      reads this, topics.Values
    {
      set n | n in topics && topics[n].isClosed
    }

    constructor (url: Option<string>, urlAccepted: bool, retryCount: Option<int>, adapter: Option<Adapter>)
      ensures Valid()
      ensures this.url == url && this.urlAccepted == urlAccepted && this.adapter == adapter
      ensures this.retryCount == (match retryCount case None => 0 case Some(n) => n)
      ensures socket == NoSocket && topics == map[] && order == [] && !manuallyClosed
      ensures reconnectCount == 0 && connectionPromise == None && promises == map[] && nextId == 0
      ensures lastTopicNames == None && sent == []
    {
      this.url := url;
      this.urlAccepted := urlAccepted;
      this.retryCount := match retryCount case None => 0 case Some(n) => n;
      this.adapter := adapter;
      socket := NoSocket;
      topics := map[];
      order := [];
      manuallyClosed := false;
      reconnectCount := 0;
      connectionPromise := None;
      promises := map[];
      nextId := 0;
      lastTopicNames := None;
      sent := [];
    }

    /** The URL passes the `!this.url` guards: it is present and not the
        empty string, which JavaScript treats as false. */
    predicate HasUrl()
    {
      url.Some? && url.value != ""
    }

    /** `isConnected`: there is a socket and it is open. */
    predicate IsConnected()
      reads this
    {
      socket.Open?
    }

    /** `sendMessage`: fails at once when not connected and never queues. */
    method SendMessage(msg: Json) returns (r: Result<()>)
      modifies this`sent
      ensures r.Err? <==> !IsConnected()
      ensures r.Err? ==> r.error == NotConnected
      ensures sent == if r.Ok? then old(sent) + [msg] else old(sent)
    {
      if !IsConnected() {
        return Err(NotConnected);
      }
      sent := sent + [msg];
      r := Ok(());
    }

    /** `this.buildSubscribe(this, names)` / `this.buildUnsubscribe(this, names)`:
        the payload, and `lastTopicNames` overwritten with the names. */
    method CallBuilder(names: seq<string>, subscribe: bool, now: int) returns (msg: Json)
      requires adapter.Some?
      modifies this`lastTopicNames
      ensures msg == Request(adapter.value, subscribe, names, now)
      ensures lastTopicNames == Some(names)
    {
      msg := Request(adapter.value, subscribe, names, now);
      lastTopicNames := Some(names);
    }

    /** Settles a connect promise unless it has settled already. */
    method Settle(id: nat, outcome: Settlement)
      modifies this`promises
      ensures promises == if id in old(promises) && old(promises)[id] == Pending
                          then old(promises)[id := outcome] else old(promises)
    {
      if id in promises && promises[id] == Pending {
        promises := promises[id := outcome];
      }
    }

    /** `_connect`: calls share the promise in flight; otherwise a new socket
        is opened, which clears the manual-close flag and the reconnect
        counter. When the WebSocket constructor throws, the `catch` clears
        the shared promise before the promise is stored, so the rejected
        promise stays shared. */
    method Connect() returns (r: Result<nat>)
      requires Valid()
      modifies this`socket, this`manuallyClosed, this`reconnectCount, this`connectionPromise, this`promises, this`nextId
      ensures Valid()
      ensures old(connectionPromise).Some? ==>
        r == Ok(old(connectionPromise).value) &&
        socket == old(socket) && manuallyClosed == old(manuallyClosed) && reconnectCount == old(reconnectCount) &&
        connectionPromise == old(connectionPromise) && promises == old(promises) && nextId == old(nextId)
      ensures old(connectionPromise).None? && !HasUrl() ==>
        r == Err(UrlNotSet) &&
        socket == old(socket) && manuallyClosed == old(manuallyClosed) && reconnectCount == old(reconnectCount) &&
        connectionPromise == None && promises == old(promises) && nextId == old(nextId)
      ensures old(connectionPromise).None? && HasUrl() ==>
        r == Ok(old(nextId)) && connectionPromise == Some(old(nextId)) && nextId == old(nextId) + 1 &&
        old(nextId) !in old(promises) &&
        (urlAccepted ==>
          socket == Connecting(old(nextId)) && !manuallyClosed && reconnectCount == 0 &&
          promises == old(promises)[old(nextId) := Pending]) &&
        (!urlAccepted ==>
          socket == old(socket) && manuallyClosed == old(manuallyClosed) && reconnectCount == old(reconnectCount) &&
          promises == old(promises)[old(nextId) := Rejected])
    {
      if connectionPromise.Some? {
        return Ok(connectionPromise.value);
      }
      if !HasUrl() {
        return Err(UrlNotSet);
      }
      var id := nextId;
      nextId := nextId + 1;
      if urlAccepted {
        socket := Connecting(id);
        manuallyClosed := false;
        reconnectCount := 0;
        promises := promises[id := Pending];
      } else {
        promises := promises[id := Rejected];
      }
      connectionPromise := Some(id);
      r := Ok(id);
    }

    /** `subscribe`, up to its first suspension. With no connection it
        awaits `_connect`; otherwise it registers the names at once. */
    method Subscribe(names: seq<string>, now: int) returns (call: SubscribeCall)
      requires Valid()
      modifies this`socket, this`manuallyClosed, this`reconnectCount, this`connectionPromise, this`promises, this`nextId
      modifies this`topics, this`order, this`lastTopicNames, this`sent
      ensures Valid()
      ensures !HasUrl() ==> call == SubscribeFailed(UrlNotSet)
      ensures HasUrl() && adapter.None? ==> call == SubscribeFailed(NoBuilder)
      ensures HasUrl() && adapter.Some? && !old(IsConnected()) ==>
        call.AwaitingConnection? && call.names == names && topics == old(topics) && sent == old(sent)
      ensures HasUrl() && adapter.Some? && old(IsConnected()) ==> !call.AwaitingConnection?
      ensures call.AwaitingAcks? ==> SlotsFit(call.slots, call.added)
    {
      if !HasUrl() {
        return SubscribeFailed(UrlNotSet);
      }
      if adapter.None? {
        return SubscribeFailed(NoBuilder);
      }
      if !IsConnected() {
        var p := Connect();
        return AwaitingConnection(p.value, names);
      }
      call := Register(names, now);
    }

    /** Resumes a `subscribe` suspended on the connection promise: a
        rejection rejects the whole call, a resolution goes on to register. */
    method ResumeSubscribe(call: SubscribeCall, now: int) returns (next: SubscribeCall)
      requires Valid() && adapter.Some?
      modifies this`topics, this`order, this`lastTopicNames, this`sent
      ensures Valid()
      ensures !call.AwaitingConnection? ==> next == call
      ensures call.AwaitingConnection? && Lookup(old(promises), call.promise) != Some(Resolved) && Lookup(old(promises), call.promise) != Some(Rejected) ==> next == call
      ensures call.AwaitingConnection? && call.promise in old(promises) && old(promises)[call.promise] == Rejected ==>
        next == SubscribeFailed(ConnectFailed) && topics == old(topics) && sent == old(sent)
      ensures call.AwaitingConnection? && next.AwaitingAcks? ==> SlotsFit(next.slots, next.added)
    {
      next := call;
      if !call.AwaitingConnection? || call.promise !in promises {
        return;
      }
      match promises[call.promise]
      case Pending =>
      case Rejected =>
        next := SubscribeFailed(ConnectFailed);
      case Resolved =>
        next := Register(call.names, now);
    }

    /** The registration loop of `subscribe`. A registered name yields its
        topic's stream, and `getStream` throws on a closed topic, which ends
        the whole call (ok is false) with the names before it registered.
        Any other name gets a new topic, registered once at the end of the
        registry, whose slot stays empty; a repeat of that name later in the
        list gets the new topic's stream. */
    method RegisterTopics(names: seq<string>) returns (slots: seq<Option<Stream>>, added: seq<NewTopic>, ok: bool)
      requires Valid()
      modifies this`topics, this`order
      ensures Valid()
      ensures var k := FirstIn(names, old(ClosedNames()));
        ok == (k == |names|) &&
        Registering(names, k, old(topics), old(Generations()), old(order), topics, order, slots, added)
      ensures forall j :: 0 <= j < |added| ==> added[j].topic.State() == Initial()
    {
      ghost var topics0, order0, closed0, gens := topics, order, ClosedNames(), Generations();
      ghost var k := FirstIn(names, closed0);
      slots, added, ok := [], [], true;
      RegisteringStart(names, topics, gens, order);
      var i := 0;
      while ok && i < |names|
        invariant 0 <= i <= k && Valid()
        invariant !ok ==> i == k < |names|
        invariant Registering(names, i, topics0, gens, order0, topics, order, slots, added)
        invariant forall j :: 0 <= j < |added| ==> added[j].topic.State() == Initial()
      {
        var name := names[i];
        if name in topics {
          var slot, closed := KeepName(names, i, topics0, gens, order0, slots, added);
          assert closed <==> name in closed0;
          FirstInAt(names, closed0, i);
          if closed {
            ok := false;
          } else {
            slots := slots + [slot];
            i := i + 1;
          }
        } else {
          var nt := EnrolName(names, i, topics0, gens, order0, slots, added);
          slots, added := slots + [None], added + [nt];
          i := i + 1;
        }
      }
    }

    /** A pass of the registration loop on a registered name: its topic's
        stream, or a throw from `getStream` when the topic is closed. */
    method KeepName(names: seq<string>, i: nat, ghost reg0: map<string, WsApiTopic>, ghost gens0: map<string, nat>,
                    ghost ord0: seq<string>, ghost slots: seq<Option<Stream>>, ghost added: seq<NewTopic>)
      returns (slot: Option<Stream>, closed: bool)
      requires i < |names| && names[i] in topics && Registering(names, i, reg0, gens0, ord0, topics, order, slots, added)
      requires forall n :: n in reg0 ==> reg0[n].generation == gens0[n]
      requires forall j :: 0 <= j < |added| ==> added[j].topic.State() == Initial()
      ensures closed <==> names[i] in reg0 && reg0[names[i]].isClosed
      ensures !closed ==> Registering(names, i + 1, reg0, gens0, ord0, topics, order, slots + [slot], added)
    {
      var name := names[i];
      if name !in reg0 {
        assert name in FreshNames(added);
        var j :| 0 <= j < |added| && FreshNames(added)[j] == name;
        assert Entry(added[j], names, i, topics);
      }
      slot := topics[name].GetStream();
      closed := slot.None?;
      if !closed {
        RegisteringKeep(names, i, reg0, gens0, ord0, topics, order, slots, added, slot.value);
      }
    }

    /** A pass of the registration loop on a name not registered yet: a new
        topic filed under it, with an empty slot. */
    method EnrolName(names: seq<string>, i: nat, ghost reg0: map<string, WsApiTopic>, ghost gens0: map<string, nat>,
                     ghost ord0: seq<string>, ghost slots: seq<Option<Stream>>, ghost added: seq<NewTopic>)
      returns (nt: NewTopic)
      requires Valid() && i < |names| && names[i] !in topics
      requires Registering(names, i, reg0, gens0, ord0, topics, order, slots, added)
      requires forall j :: 0 <= j < |added| ==> added[j].topic.State() == Initial()
      modifies this`topics, this`order
      ensures Valid()
      ensures Registering(names, i + 1, reg0, gens0, ord0, topics, order, slots + [None], added + [nt])
      ensures forall j :: 0 <= j < |added + [nt]| ==> (added + [nt])[j].topic.State() == Initial()
    {
      ghost var reg, ord := topics, order;
      var t := EnrolNew(names[i]);
      RegisteringEnrol(names, i, reg0, gens0, ord0, reg, ord, slots, added, t);
      nt := NewTopic(names[i], i, t);
    }

    /** The generations of the registered topics, by name. */
    ghost function Generations(): (g: map<string, nat>)
      reads this, topics.Values
      ensures g.Keys == topics.Keys
    {
      map n | n in topics :: topics[n].generation
    }

    /** One new name: a new topic under it, at the end of the registry. */
    method EnrolNew(name: string) returns (t: WsApiTopic)
      requires Valid() && name !in topics
      modifies this`topics, this`order
      ensures Valid()
      ensures fresh(t) && t.name == name && t.State() == Initial()
      ensures topics == old(topics)[name := t] && order == old(order) + [name]
    {
      t := new WsApiTopic(name);
      assert (order + [name])[..|order|] == order;
      topics := topics[name := t];
      order := order + [name];
    }

    /** `_waitForSubscriptionConfirmation`, up to its suspension: it throws
        when a named topic is not registered, and `Promise.all` rejects at
        once when one is closed; otherwise it waits on every topic's
        current readiness promise. */
    method WaitForConfirmation(names: seq<string>) returns (r: Result<seq<Waiter>>)
      ensures r.Err? <==> exists i :: 0 <= i < |names| && (names[i] !in topics || topics[names[i]].isClosed)
      ensures r.Ok? ==> |r.value| == |names|
      ensures r.Ok? ==> forall i :: 0 <= i < |names| ==> r.value[i] == Waiter(topics[names[i]], topics[names[i]].generation)
    {
      var ws: seq<Waiter> := [];
      var i := 0;
      while i < |names|
        invariant 0 <= i <= |names| && |ws| == i
        invariant forall k :: 0 <= k < i ==>
          names[k] in topics && !topics[names[k]].isClosed && ws[k] == Waiter(topics[names[k]], topics[names[k]].generation)
      {
        if names[i] !in topics {
          return Err(TopicNotFound);
        }
        var w := topics[names[i]].WaitForReady();
        if w.None? {
          return Err(TopicNotFound);
        }
        ws := ws + [w.value];
        i := i + 1;
      }
      r := Ok(ws);
    }

    /** The part of `subscribe` that runs once connected: register, and if
        there are new names, send one subscribe frame naming exactly them and
        start waiting for their acknowledgement. */
    method Register(names: seq<string>, now: int) returns (call: SubscribeCall)
      requires Valid() && adapter.Some?
      modifies this`topics, this`order, this`lastTopicNames, this`sent
      ensures Valid()
      ensures var k := FirstIn(names, old(ClosedNames()));
        (call.SubscribeFailed? <==> k < |names|) &&
        order == old(order) + NewNames(names[..k], old(topics).Keys)
      ensures forall n :: n in old(topics) ==> n in topics && topics[n] == old(topics)[n]
      ensures call.SubscribeFailed? ==>
        call.error == StreamClosed && sent == old(sent) && lastTopicNames == old(lastTopicNames)
      ensures !call.SubscribeFailed? ==>
        (call.Subscribed? || call.AwaitingAcks?) && |call.slots| == |names| &&
        forall m :: 0 <= m < |names| ==> Slot(names, m, old(Generations()), topics, call.slots)
      ensures !call.SubscribeFailed? && NewNames(names, old(topics).Keys) == [] ==>
        call.Subscribed? && sent == old(sent) && lastTopicNames == old(lastTopicNames)
      ensures !call.SubscribeFailed? && NewNames(names, old(topics).Keys) != [] ==>
        lastTopicNames == Some(NewNames(names, old(topics).Keys)) &&
        sent == old(sent) + (if IsConnected() then [Request(adapter.value, true, NewNames(names, old(topics).Keys), now)] else [])
      ensures !IsConnected() ==> !call.AwaitingAcks?
      ensures call.AwaitingAcks? ==>
        SlotsFit(call.slots, call.added) && FreshNames(call.added) == NewNames(names, old(topics).Keys) &&
        |call.waiters| == |call.added| &&
        forall j :: 0 <= j < |call.added| ==> call.waiters[j] == Waiter(call.added[j].topic, 0)
    {
      var slots, added, ok := RegisterTopics(names);
      if !ok {
        return SubscribeFailed(StreamClosed);
      }
      RegisteredFit(names, old(topics), old(Generations()), old(order), topics, order, slots, added);
      call := Announce(slots, added, now);
    }

    /** The end of `subscribe` once every name is registered: nothing more
        when no name was new; otherwise one subscribe frame naming the new
        names, and when it went out, a wait on their readiness. A failed send
        leaves the new topics registered and their slots empty. */
    method Announce(slots: seq<Option<Stream>>, added: seq<NewTopic>, now: int) returns (call: SubscribeCall)
      requires Valid() && adapter.Some? && SlotsFit(slots, added)
      requires forall j :: 0 <= j < |added| ==>
        added[j].name in topics && topics[added[j].name] == added[j].topic && added[j].topic.State() == Initial()
      modifies this`lastTopicNames, this`sent
      ensures call.Subscribed? || call.AwaitingAcks?
      ensures call.slots == slots
      ensures |added| == 0 ==> call.Subscribed? && sent == old(sent) && lastTopicNames == old(lastTopicNames)
      ensures |added| != 0 ==>
        lastTopicNames == Some(FreshNames(added)) &&
        sent == old(sent) + (if IsConnected() then [Request(adapter.value, true, FreshNames(added), now)] else [])
      ensures !IsConnected() ==> !call.AwaitingAcks?
      ensures call.AwaitingAcks? ==>
        call.added == added && |call.waiters| == |added| &&
        forall j :: 0 <= j < |added| ==> call.waiters[j] == Waiter(added[j].topic, 0)
    {
      if |added| == 0 {
        return Subscribed(slots);
      }
      var newNames := FreshNames(added);
      var msg := CallBuilder(newNames, true, now);
      var sendResult := SendMessage(msg);
      if sendResult.Err? {
        return Subscribed(slots);
      }
      var waiting := WaitForConfirmation(newNames);
      if waiting.Err? {
        forall i | 0 <= i < |newNames| ensures newNames[i] in topics && !topics[newNames[i]].isClosed {
          assert topics[added[i].name] == added[i].topic;
        }
        assert false;
        return Subscribed(slots);
      }
      call := AwaitingAcks(slots, added, waiting.value);
    }

    /** Removes one name from the registry (`this._topics.delete(name)`). */
    method Delete(name: string)
      requires Valid()
      modifies this`topics, this`order
      ensures Valid()
      ensures topics == old(topics) - {name} && order == Without(old(order), name)
    {
      topics := topics - {name};
      WithoutKeepsDistinct(order, name);
      order := Without(order, name);
    }

    /** Resumes a `subscribe` waiting for acknowledgements. Once every waiter
        is released, each new topic's slot is filled when it is ready and it
        is deleted from the registry (by name) when it is not; `getStream`
        throws on a ready topic that was closed meanwhile, which ends the
        loop with the remaining slots as they were. If the 5000 ms timers
        fire first, `Promise.all` rejects: no slot is filled and the new
        topics stay registered. */
    method FinishSubscribe(call: SubscribeCall, timerFired: bool) returns (next: SubscribeCall)
      requires Valid()
      requires call.AwaitingAcks? ==> SlotsFit(call.slots, call.added)
      modifies this`topics, this`order
      ensures Valid()
      ensures !call.AwaitingAcks? ==> next == call && topics == old(topics)
      ensures call.AwaitingAcks? && !AllReleased(call.waiters) && !timerFired ==> next == call && topics == old(topics)
      ensures call.AwaitingAcks? && !AllReleased(call.waiters) && timerFired ==> next == Subscribed(call.slots) && topics == old(topics)
      ensures call.AwaitingAcks? && AllReleased(call.waiters) ==>
        var ps := old(Probes(call.added));
        IndicesFit(call.slots, ps) &&
        next == Subscribed(Filled(call.slots, ps[..Stop(ps)])) && topics == old(topics) - Dropped(ps[..Stop(ps)])
    {
      next := call;
      if !call.AwaitingAcks? {
        return;
      }
      if !(forall w :: w in call.waiters ==> w.topic.Released(w.generation)) {
        if timerFired {
          next := Subscribed(call.slots);
        }
        return;
      }
      var slots := FillSlots(call.added, call.slots);
      next := Subscribed(slots);
    }

    /** The result loop of `subscribe`, proved against Filled, Dropped and Stop. */
    method FillSlots(added: seq<NewTopic>, initial: seq<Option<Stream>>) returns (slots: seq<Option<Stream>>)
      requires Valid() && SlotsFit(initial, added)
      modifies this`topics, this`order
      ensures Valid()
      ensures var ps := old(Probes(added));
        slots == Filled(initial, ps[..Stop(ps)]) && topics == old(topics) - Dropped(ps[..Stop(ps)])
    {
      var ps := Probes(added);
      ghost var k := Stop(ps);
      slots := initial;
      var j := 0;
      while j < |added|
        invariant 0 <= j <= k
        invariant Valid() && |slots| == |initial|
        invariant Filled(slots, ps[j..k]) == Filled(initial, ps[..k])
        invariant topics - Dropped(ps[j..k]) == old(topics) - Dropped(ps[..k])
      {
        var nt := added[j];
        StopAt(ps, j);
        if nt.topic.isReady {
          var s := nt.topic.GetStream();
          if s.None? {
            break;
          }
          FilledStep(slots, ps, j, k);
          DroppedStep(topics, ps, j, k);
          slots := slots[nt.index := s];
        } else {
          FilledStep(slots, ps, j, k);
          DroppedStep(topics, ps, j, k);
          Delete(nt.name);
        }
        j := j + 1;
      }
      assert ps[j..k] == [];
    }

    /** `reset`: marks the client manually closed, drops the socket and the
        shared connection promise, closes every registered topic and empties
        the registry. */
    method Reset()
      requires Valid()
      modifies this`manuallyClosed, this`socket, this`topics, this`order, this`connectionPromise, topics.Values
      ensures Valid()
      ensures manuallyClosed && socket == NoSocket && connectionPromise == None
      ensures topics == map[] && order == []
      ensures forall n :: n in old(topics) ==> old(topics)[n].State() == Closed(old(topics[n].State()))
    {
      manuallyClosed := true;
      socket := NoSocket;
      CloseAll();
      topics := map[];
      order := [];
      connectionPromise := None;
    }

    /** `this._topics.forEach(topic => topic.close())`. */
    method CloseAll()
      requires Valid()
      modifies topics.Values
      ensures forall n :: n in topics ==> topics[n].State() == Closed(old(topics[n].State()))
    {
      var keys := order;
      var i := 0;
      while i < |keys|
        invariant 0 <= i <= |keys|
        invariant forall n :: n in topics ==>
          topics[n].State() == if n in keys[..i] then Closed(old(topics[n].State())) else old(topics[n].State())
      {
        assert keys[..i + 1] == keys[..i] + [keys[i]];
        topics[keys[i]].Close();
        i := i + 1;
      }
      assert keys[..i] == keys;
    }

    /** One step of the loop of `unsubscribe`: close the topic, then delete it. */
    method Retire(name: string)
      requires Valid() && name in topics
      modifies this`topics, this`order, topics[name]
      ensures Valid()
      ensures topics == old(topics) - {name}
      ensures old(topics)[name].State() == Closed(old(topics[name].State()))
    {
      topics[name].Close();
      Delete(name);
    }

    /** `unsubscribe`. Disconnected, it does nothing at all. Otherwise it
        sends one unsubscribe frame naming the registered names among
        `names` (repeats kept), closes and deletes each of those topics, and
        resets the client when the registry becomes empty. */
    method Unsubscribe(names: seq<string>, now: int) returns (r: Result<()>)
      requires Valid()
      modifies this`lastTopicNames, this`sent, this`manuallyClosed, this`socket, this`topics, this`order
      modifies this`connectionPromise, topics.Values
      ensures Valid()
      ensures !HasUrl() ==> r == Err(UrlNotSet)
      ensures HasUrl() && adapter.None? ==> r == Err(NoBuilder)
      ensures r.Ok? <==> HasUrl() && adapter.Some?
      ensures r.Err? || !old(IsConnected()) || Registered(names, old(topics).Keys) == [] ==>
        topics == old(topics) && order == old(order) && sent == old(sent) && socket == old(socket) &&
        manuallyClosed == old(manuallyClosed) && connectionPromise == old(connectionPromise) &&
        lastTopicNames == old(lastTopicNames) && States() == old(States())
      ensures r.Ok? && old(IsConnected()) && Registered(names, old(topics).Keys) != [] ==>
        lastTopicNames == Some(Registered(names, old(topics).Keys)) &&
        sent == old(sent) + [Request(adapter.value, false, Registered(names, old(topics).Keys), now)] &&
        topics == old(topics) - SetOf(names) &&
        (forall n :: n in old(topics) ==>
          old(topics)[n].State() == if n in names then Closed(old(topics[n].State())) else old(topics[n].State())) &&
        (topics == map[] ==> manuallyClosed && socket == NoSocket && connectionPromise == None) &&
        (topics != map[] ==>
          manuallyClosed == old(manuallyClosed) && socket == old(socket) && connectionPromise == old(connectionPromise))
    {
      if !HasUrl() {
        r := Err(UrlNotSet);
      } else if adapter.None? {
        r := Err(NoBuilder);
      } else {
        r := Ok(());
        var valid := Registered(names, topics.Keys);
        if IsConnected() && |valid| != 0 {
          Withdraw(names, valid, now);
        }
      }
    }

    /** The connected part of `unsubscribe`, once some of `names` are registered. */
    method Withdraw(names: seq<string>, valid: seq<string>, now: int)
      requires Valid() && adapter.Some? && IsConnected()
      requires valid == Registered(names, topics.Keys) && valid != []
      modifies this`lastTopicNames, this`sent, this`manuallyClosed, this`socket, this`topics, this`order
      modifies this`connectionPromise, topics.Values
      ensures Valid()
      ensures lastTopicNames == Some(valid) && sent == old(sent) + [Request(adapter.value, false, valid, now)]
      ensures topics == old(topics) - SetOf(names)
      ensures forall n :: n in old(topics) ==>
        old(topics)[n].State() == if n in names then Closed(old(topics[n].State())) else old(topics[n].State())
      ensures topics == map[] ==> manuallyClosed && socket == NoSocket && connectionPromise == None
      ensures topics != map[] ==>
        manuallyClosed == old(manuallyClosed) && socket == old(socket) && connectionPromise == old(connectionPromise)
    {
      var msg := CallBuilder(valid, false, now);
      var sendResult := SendMessage(msg);
      Drop(names, valid);
    }

    /** Closes and deletes the topics of `valid`, then resets the client
        when no topic is left. */
    method Drop(names: seq<string>, valid: seq<string>)
      requires Valid() && valid == Registered(names, topics.Keys)
      modifies this`manuallyClosed, this`socket, this`topics, this`order, this`connectionPromise, topics.Values
      ensures Valid()
      ensures topics == old(topics) - SetOf(names)
      ensures forall n :: n in old(topics) ==>
        old(topics)[n].State() == if n in names then Closed(old(topics[n].State())) else old(topics[n].State())
      ensures topics == map[] ==> manuallyClosed && socket == NoSocket && connectionPromise == None
      ensures topics != map[] ==>
        manuallyClosed == old(manuallyClosed) && socket == old(socket) && connectionPromise == old(connectionPromise)
    {
      RetireAll(valid);
      assert topics == old(topics) - SetOf(names);
      if topics == map[] {
        Reset();
      }
    }

    /** The loop of `unsubscribe`: retires each name in turn; a repeated name
        finds its topic already gone and is skipped. */
    method RetireAll(valid: seq<string>)
      requires Valid()
      modifies this`topics, this`order, topics.Values
      ensures Valid()
      ensures topics == old(topics) - SetOf(valid)
      ensures forall n :: n in old(topics) ==>
        old(topics)[n].State() == if n in valid then Closed(old(topics[n].State())) else old(topics[n].State())
    {
      var i := 0;
      while i < |valid|
        invariant 0 <= i <= |valid|
        invariant Valid()
        invariant topics == old(topics) - SetOf(valid[..i])
        invariant forall n :: n in old(topics) ==>
          old(topics)[n].State() == if n in valid[..i] then Closed(old(topics[n].State())) else old(topics[n].State())
      {
        var t := valid[i];
        assert valid[..i + 1] == valid[..i] + [t];
        if t in topics {
          assert topics[t] == old(topics)[t] && old(topics)[t] in old(topics).Values;
          Retire(t);
        }
        i := i + 1;
      }
      assert valid[..i] == valid;
    }

    /** One call a dispatcher makes, carried out on the registered topics. */
    method Apply(a: Action)
      requires Valid()
      modifies topics.Values
      ensures States() == Step(old(States()), a)
    {
      match a {
        case Complete(n) =>
          if n in topics {
            topics[n].Complete();
          }
        case AddData(n, item) =>
          if n in topics {
            topics[n].AddData(item);
          }
      }
    }

    /** Carries out the calls a dispatcher made for one message, in order. */
    method ApplyActions(acts: seq<Action>)
      requires Valid()
      modifies topics.Values
      ensures States() == ApplyAll(old(States()), acts)
    {
      var i := 0;
      while i < |acts|
        invariant 0 <= i <= |acts|
        invariant ApplyAll(States(), acts[i..]) == ApplyAll(old(States()), acts)
      {
        assert acts[i..][0] == acts[i] && acts[i..][1..] == acts[i + 1..];
        Apply(acts[i]);
        i := i + 1;
      }
    }

    /** The part of `_onMessage` after the frame's data is at hand: a frame
        that fails to inflate or parse is dropped without calling
        `recvHandle`; otherwise the adapter's dispatcher runs. The connection
        state is never touched. */
    method Receive(data: WsData, codec: Codec)
      requires Valid()
      modifies topics.Values
      ensures DecodeFrame(data, codec).None? || adapter.None? ==> States() == old(States())
      ensures DecodeFrame(data, codec).Some? && adapter.Some? ==>
        States() == ApplyAll(old(States()), Dispatch(adapter.value, DecodeFrame(data, codec).value, lastTopicNames))
    {
      match DecodeFrame(data, codec) {
        case None =>
        case Some(msg) =>
          if adapter.Some? {
            ApplyActions(Dispatch(adapter.value, msg, lastTopicNames));
          }
      }
    }

    /** A frame arrives (`_onMessage`). Text and an `ArrayBuffer` are handled
        at once. A `Blob` is only handed to a `FileReader`: `_onMessage`
        suspends until the read's `load` event (OnBlobLoaded), so frames
        arriving meanwhile are dispatched first. A read that fails rejects
        inside the `try` and the frame is dropped: its `load` never comes. */
    method OnMessage(arrival: Arrival, codec: Codec) returns (reading: Option<seq<byte>>)
      requires Valid()
      modifies topics.Values
      ensures arrival.Blob? ==> reading == Some(arrival.bytes) && States() == old(States())
      ensures arrival.AtHand? ==> reading == None
      ensures arrival.AtHand? && (DecodeFrame(arrival.data, codec).None? || adapter.None?) ==> States() == old(States())
      ensures arrival.AtHand? && DecodeFrame(arrival.data, codec).Some? && adapter.Some? ==>
        States() == ApplyAll(old(States()), Dispatch(adapter.value, DecodeFrame(arrival.data, codec).value, lastTopicNames))
    {
      match arrival {
        case AtHand(data) =>
          reading := None;
          Receive(data, codec);
        case Blob(bytes) =>
          reading := Some(bytes);
      }
    }

    /** The `load` event of a Blob read: `_onMessage` resumes with the bytes
        read and handles them as a binary frame. */
    method OnBlobLoaded(bytes: seq<byte>, codec: Codec)
      requires Valid()
      modifies topics.Values
      ensures DecodeFrame(Binary(bytes), codec).None? || adapter.None? ==> States() == old(States())
      ensures DecodeFrame(Binary(bytes), codec).Some? && adapter.Some? ==>
        States() == ApplyAll(old(States()), Dispatch(adapter.value, DecodeFrame(Binary(bytes), codec).value, lastTopicNames))
    {
      Receive(Binary(bytes), codec);
    }

    /** The synchronous part of `_scheduleReconnect`: nothing when reconnecting
        is disabled or the budget is spent; otherwise the counter goes up and
        the backoff sleep for that attempt begins. */
    method ScheduleReconnect() returns (step: ReconnectStep)
      modifies this`reconnectCount
      ensures NextAttempt(retryCount, old(reconnectCount)).None? ==> step == NoReconnect && reconnectCount == old(reconnectCount)
      ensures NextAttempt(retryCount, old(reconnectCount)).Some? ==>
        reconnectCount == old(reconnectCount) + 1 && step == Backoff(reconnectCount, BackoffDelay(reconnectCount))
    {
      match NextAttempt(retryCount, reconnectCount)
      case None =>
        step := NoReconnect;
      case Some(attempt) =>
        reconnectCount := attempt;
        step := Backoff(attempt, BackoffDelay(attempt));
    }

    /** The socket's `open` event: the socket is open and its connect promise resolves. */
    method OnSocketOpen(id: nat)
      modifies this`socket, this`promises
      ensures socket == if old(socket) == Connecting(id) then Open(id) else old(socket)
      ensures promises == if id in old(promises) && old(promises)[id] == Pending
                          then old(promises)[id := Resolved] else old(promises)
    {
      if socket == Connecting(id) {
        socket := Open(id);
      }
      Settle(id, Resolved);
    }

    /** Socket `id` starts its closing handshake (the server sent a close
        frame): its `readyState` becomes CLOSING, so the client is no longer
        connected, although `_socket` still holds it until its `close` event.
        Meanwhile `sendMessage` throws and `unsubscribe` returns early. */
    method OnSocketClosing(id: nat)
      requires Valid()
      modifies this`socket
      ensures Valid()
      ensures socket == if old(socket) == Open(id) then Closing(id) else old(socket)
      ensures old(socket) == Open(id) ==> !IsConnected()
    {
      if socket == Open(id) {
        socket := Closing(id);
      }
    }

    /** A socket's `error` event (`_onError`, then the attempt's promise
        rejects): the socket and the shared promise are dropped and, unless
        the client was closed by hand, a reconnect is scheduled. */
    method OnSocketError(id: nat) returns (step: ReconnectStep)
      requires Valid()
      modifies this`socket, this`connectionPromise, this`reconnectCount, this`promises
      ensures Valid()
      ensures socket == NoSocket && connectionPromise == None
      ensures manuallyClosed ==> step == NoReconnect && reconnectCount == old(reconnectCount)
      ensures !manuallyClosed && NextAttempt(retryCount, old(reconnectCount)).Some? ==>
        reconnectCount == old(reconnectCount) + 1 && step == Backoff(reconnectCount, BackoffDelay(reconnectCount))
      ensures !manuallyClosed && NextAttempt(retryCount, old(reconnectCount)).None? ==>
        step == NoReconnect && reconnectCount == old(reconnectCount)
      ensures promises == if id in old(promises) && old(promises)[id] == Pending
                          then old(promises)[id := Rejected] else old(promises)
    {
      socket := NoSocket;
      connectionPromise := None;
      step := NoReconnect;
      if !manuallyClosed {
        step := ScheduleReconnect();
      }
      Settle(id, Rejected);
    }

    /** Whether `isConnected` holds while socket `id` fires its `close`
        event: by then that socket's `readyState` is already CLOSED, so only a
        newer socket of the client can be the open one. */
    predicate ConnectedBesides(id: nat)
      reads this
    {
      IsConnected() && socket.id != id
    }

    /** The `close` event of socket `id` (`_onDone`): the client's current
        socket and promise are dropped, whichever socket closed, and a
        reconnect is scheduled only when another socket was open and the
        client was not closed by hand. So the close of the client's own live
        socket never reconnects. */
    method OnSocketClose(id: nat) returns (step: ReconnectStep)
      requires Valid()
      modifies this`socket, this`connectionPromise, this`reconnectCount
      ensures Valid()
      ensures socket == NoSocket && connectionPromise == None
      ensures old(socket) == Open(id) ==> step == NoReconnect && reconnectCount == old(reconnectCount)
      ensures manuallyClosed || !old(ConnectedBesides(id)) ==> step == NoReconnect && reconnectCount == old(reconnectCount)
      ensures !manuallyClosed && old(ConnectedBesides(id)) && NextAttempt(retryCount, old(reconnectCount)).Some? ==>
        reconnectCount == old(reconnectCount) + 1 && step == Backoff(reconnectCount, BackoffDelay(reconnectCount))
      ensures !manuallyClosed && old(ConnectedBesides(id)) && NextAttempt(retryCount, old(reconnectCount)).None? ==>
        step == NoReconnect && reconnectCount == old(reconnectCount)
    {
      var wasConnected := ConnectedBesides(id);
      socket := NoSocket;
      connectionPromise := None;
      step := NoReconnect;
      if !manuallyClosed && wasConnected {
        step := ScheduleReconnect();
      }
    }

    /** The 10000 ms timer of connect attempt `id`: it rejects that attempt's
        promise unless the client's current socket is open. */
    method OnConnectTimeout(id: nat)
      modifies this`promises
      ensures promises == if !IsConnected() && id in old(promises) && old(promises)[id] == Pending
                          then old(promises)[id := Rejected] else old(promises)
    {
      if !IsConnected() {
        Settle(id, Rejected);
      }
    }

    /** The backoff sleep ends: `_connect` is awaited (shared if one is in flight). */
    method OnBackoffExpired(step: ReconnectStep) returns (next: ReconnectStep)
      requires Valid()
      modifies this`socket, this`manuallyClosed, this`reconnectCount, this`connectionPromise, this`promises, this`nextId
      ensures Valid()
      ensures !step.Backoff? ==> next == step
      ensures step.Backoff? && !HasUrl() && old(connectionPromise).None? ==> next == ReconnectFailed
      ensures step.Backoff? && old(connectionPromise).Some? ==> next == ReconnectConnecting(old(connectionPromise).value)
      ensures step.Backoff? && HasUrl() && old(connectionPromise).None? ==> next == ReconnectConnecting(old(nextId))
      ensures !step.Backoff? || old(connectionPromise).Some? || !HasUrl() ==>
        socket == old(socket) && manuallyClosed == old(manuallyClosed) && reconnectCount == old(reconnectCount) &&
        connectionPromise == old(connectionPromise) && promises == old(promises) && nextId == old(nextId)
      ensures step.Backoff? && HasUrl() && old(connectionPromise).None? ==>
        connectionPromise == Some(old(nextId)) && nextId == old(nextId) + 1 &&
        (urlAccepted ==>
          socket == Connecting(old(nextId)) && !manuallyClosed && reconnectCount == 0 &&
          promises == old(promises)[old(nextId) := Pending]) &&
        (!urlAccepted ==>
          socket == old(socket) && manuallyClosed == old(manuallyClosed) && reconnectCount == old(reconnectCount) &&
          promises == old(promises)[old(nextId) := Rejected])
    {
      next := step;
      if !step.Backoff? {
        return;
      }
      var p := Connect();
      if p.Err? {
        next := ReconnectFailed;
      } else {
        next := ReconnectConnecting(p.value);
      }
    }

    /** Resets every registered topic, in registry order. */
    method ResetAll()
      requires Valid()
      modifies topics.Values
      ensures forall n :: n in topics ==> topics[n].State() == Reopened(old(topics[n].State()))
    {
      var keys := order;
      var i := 0;
      while i < |keys|
        invariant 0 <= i <= |keys|
        invariant forall n :: n in topics ==>
          topics[n].State() == if n in keys[..i] then Reopened(old(topics[n].State())) else old(topics[n].State())
      {
        assert keys[..i + 1] == keys[..i] + [keys[i]];
        assert keys[i] !in keys[..i] by {
          forall j | 0 <= j < i ensures keys[j] != keys[i] {
            DistinctIndices(keys, j, i);
          }
        }
        topics[keys[i]].Reset();
        i := i + 1;
      }
      assert keys[..i] == keys;
    }

    /** The resubscription once reconnected: every registered topic is reset,
        then one subscribe frame names all of them, in registry order. The
        acknowledgement wait that follows only logs its outcome. */
    method Resubscribe(now: int) returns (names: seq<string>)
      requires Valid() && adapter.Some? && IsConnected()
      modifies this`lastTopicNames, this`sent, topics.Values
      ensures names == order && Distinct(names) && SetOf(names) == topics.Keys
      ensures forall n :: n in topics ==> topics[n].State() == Reopened(old(topics[n].State()))
      ensures lastTopicNames == Some(names) && sent == old(sent) + [Request(adapter.value, true, names, now)]
    {
      names := order;
      ResetAll();
      var msg := CallBuilder(names, true, now);
      var sendResult := SendMessage(msg);
      var waiting := WaitForConfirmation(names);
    }

    /** Resumes `_scheduleReconnect` after `_connect` settled: when connected
        with topics registered, it resubscribes them all; a missing builder
        throws after the topics were reset. */
    method ResumeReconnect(step: ReconnectStep, now: int) returns (next: ReconnectStep)
      requires Valid()
      modifies this`lastTopicNames, this`sent, topics.Values
      ensures Valid()
      ensures topics == old(topics) && order == old(order)
      ensures !step.ReconnectConnecting? || Lookup(old(promises), step.promise) in {None, Some(Pending)} ==>
        next == step && sent == old(sent) && States() == old(States())
      ensures step.ReconnectConnecting? && Lookup(old(promises), step.promise) == Some(Rejected) ==>
        next == ReconnectFailed && sent == old(sent) && States() == old(States())
      ensures step.ReconnectConnecting? && Lookup(old(promises), step.promise) == Some(Resolved) ==>
        if old(IsConnected()) && old(topics) != map[] then
          (forall n :: n in topics ==> topics[n].State() == Reopened(old(topics[n].State()))) &&
          (adapter.None? ==> next == ReconnectFailed && sent == old(sent)) &&
          (adapter.Some? ==>
            next == Reconnected(old(order)) && lastTopicNames == Some(old(order)) &&
            sent == old(sent) + [Request(adapter.value, true, old(order), now)])
        else next == Reconnected([]) && sent == old(sent) && States() == old(States())
    {
      next := step;
      if !step.ReconnectConnecting? || step.promise !in promises {
        return;
      }
      match promises[step.promise] {
        case Pending =>
        case Rejected =>
          next := ReconnectFailed;
        case Resolved =>
          if IsConnected() && |topics| > 0 {
            if adapter.None? {
              ResetAll();
              next := ReconnectFailed;
            } else {
              var names := Resubscribe(now);
              next := Reconnected(names);
            }
          } else {
            next := Reconnected([]);
          }
      }
    }
  }
}

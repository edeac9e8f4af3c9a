/** One subscribed topic of the WebSocket client (`WsApiTopic`): the flags
    `_isReady` / `_isClosed`, a readiness signal, and a FIFO stream fed by
    `addData`. The stream controller, the stream and the readiness promise are
    created together by `_createStream` and dropped together by `close`, so
    they are present exactly while the topic is not closed; `generation`
    counts how often they were recreated, and `queue` is what has been
    enqueued into the current stream. */
module Topic {
  import opened Js

  /** What `getStream` hands out: the stream of one generation of a topic. */
  datatype Stream = Stream(topic: WsApiTopic, generation: nat)

  /** One caller of `waitForReady`, attached to the readiness promise of one generation. */
  datatype Waiter = Waiter(topic: WsApiTopic, generation: nat)

  /** The observable state of a topic, as a value. */
  datatype TopicState = TopicState(isReady: bool, isClosed: bool, generation: nat, queue: seq<Json>)

  /** A topic just built by the constructor. */
  function Initial(): TopicState
  {
    TopicState(false, false, 0, [])
  }

  /** The state `close` leaves: only the flag changes. */
  function Closed(s: TopicState): TopicState
  {
    s.(isClosed := true)
  }

  /** The state `reset` leaves: not ready, open, a new empty stream. */
  function Reopened(s: TopicState): TopicState
  {
    TopicState(false, false, s.generation + 1, [])
  }

  class WsApiTopic {
    const name: string
    var isReady: bool
    var isClosed: bool
    var generation: nat
    var queue: seq<Json>

    constructor (name: string)
      ensures this.name == name
      ensures State() == Initial()
    {
      this.name := name;
      isReady, isClosed := false, false;
      generation, queue := 0, [];
    }

    function State(): TopicState
      reads this
    {
      TopicState(isReady, isClosed, generation, queue)
    }

    /** The readiness promise of generation g is settled. `complete` resolves
        the current one; `close` resolves it too (it never rejects); `reset`
        goes through `close` before it makes a fresh pending one. */
    predicate Released(g: nat)
      reads this
    {
      generation != g || isReady || isClosed
    }

    /** `getStream`: throws (None) once the topic is closed. */
    method GetStream() returns (r: Option<Stream>)
      ensures r.None? <==> isClosed
      ensures r.Some? ==> r.value == Stream(this, generation)
    {
      if isClosed {
        r := None;
      } else {
        r := Some(Stream(this, generation));
      }
    }

    /** `waitForReady`: a closed topic has no readiness promise and rejects at
        once (None); otherwise the caller waits on the current generation's
        promise, which is pending exactly when the topic is neither ready nor closed. */
    method WaitForReady() returns (r: Option<Waiter>)
      ensures r.None? <==> isClosed
      ensures r.Some? ==> r.value == Waiter(this, generation)
      ensures r.Some? ==> (Released(generation) <==> isReady)
    {
      if isClosed {
        r := None;
      } else {
        r := Some(Waiter(this, generation));
      }
    }

    /** `complete`: sets ready at most once, and never on a closed topic. */
    method Complete()
      modifies this
      ensures isReady == (old(isReady) || !old(isClosed))
      ensures isClosed == old(isClosed) && generation == old(generation) && queue == old(queue)
    {
      if isClosed || isReady {
        return;
      }
      isReady := true;
    }

    /** `close`: idempotent; releases any waiter of the current generation and
        drops the stream, keeping what was already enqueued in it. */
    method Close()
      modifies this
      ensures State() == Closed(old(State()))
      ensures forall g :: old(Released(g)) ==> Released(g)
      ensures Released(generation)
    {
      if isClosed {
        return;
      }
      isClosed := true;
    }

    /** `reset`: clears ready, closes the current stream (releasing its
        waiters), then reopens with a fresh empty stream and a fresh pending
        readiness promise. */
    method Reset()
      modifies this
      ensures State() == Reopened(old(State()))
      ensures Released(old(generation)) && !Released(generation)
    {
      isReady := false;
      Close();
      isClosed := false;
      generation := generation + 1;
      queue := [];
    }

    /** `addData`: appends to the current stream unless the topic is closed,
        ready or not; on a closed topic the item is dropped. */
    method AddData(item: Json)
      modifies this
      ensures queue == if old(isClosed) then old(queue) else old(queue) + [item]
      ensures isReady == old(isReady) && isClosed == old(isClosed) && generation == old(generation)
    {
      if isClosed {
        return;
      }
      queue := queue + [item];
    }

    /** The consumer cancels the stream of generation `g`. A readable stream
        is closed and its `cancel` callback runs `close`, which closes the
        topic's current generation whichever stream was cancelled. The
        current stream is readable until `close`. The `close` that `reset`
        makes on an earlier stream only requests closing: that stream stays
        readable while it still holds unread items (`unread`, which depends
        on the consumer's reads, outside this model), and once they are read
        it is closed and cancelling it does nothing. */
    method Cancel(g: nat, unread: bool)
      requires g <= generation
      modifies this
      ensures State() == if g == old(generation) || unread then Closed(old(State())) else old(State())
    {
      if g == generation || unread {
        Close();
      }
    }
  }
}

/** What an endpoint's `recvHandle` does to the client's topics. A dispatcher
    only ever looks a topic up by name (`ws.getTopic(name)`) and calls
    `complete()` or `addData(item)` on it, and none of its decisions depends
    on the topics' state, so one inbound message is described by the list of
    those calls in the order they are made; the client carries them out. */
module Wire {
  import opened Js

  datatype Action = Complete(name: string) | AddData(name: string, item: Json)

  /** `names.forEach(n => ws.getTopic(n)?.complete())`. */
  function CompleteAll(names: seq<string>): (acts: seq<Action>)
    ensures |acts| == |names|
    ensures forall i :: 0 <= i < |names| ==> acts[i] == Complete(names[i])
  {
    seq(|names|, i requires 0 <= i < |names| => Complete(names[i]))
  }

  /** The items the actions enqueue for `name`, in order. */
  function DataFor(acts: seq<Action>, name: string): seq<Json>
    decreases |acts|
  {
    if |acts| == 0 then []
    else
      var rest := DataFor(acts[1..], name);
      match acts[0]
      case AddData(n, item) => if n == name then [item] + rest else rest
      case Complete(_) => rest
  }

  /** Whether the actions complete `name`. */
  predicate Completes(acts: seq<Action>, name: string)
  {
    exists i :: 0 <= i < |acts| && acts[i] == Complete(name)
  }

  lemma CompletesSnoc(acts: seq<Action>, a: Action, name: string)
    ensures Completes(acts + [a], name) <==> Completes(acts, name) || a == Complete(name)
  {
    if Completes(acts, name) {
      var i :| 0 <= i < |acts| && acts[i] == Complete(name);
      assert (acts + [a])[i] == Complete(name);
    }
    if a == Complete(name) {
      assert (acts + [a])[|acts|] == Complete(name);
    }
    if Completes(acts + [a], name) && a != Complete(name) {
      var i :| 0 <= i < |acts + [a]| && (acts + [a])[i] == Complete(name);
      assert acts[i] == Complete(name);
    }
  }

  lemma CompletesCons(acts: seq<Action>, name: string)
    requires |acts| > 0
    ensures Completes(acts, name) <==> acts[0] == Complete(name) || Completes(acts[1..], name)
  {
    if Completes(acts[1..], name) {
      var i :| 0 <= i < |acts[1..]| && acts[1..][i] == Complete(name);
      assert acts[i + 1] == Complete(name);
    }
    if Completes(acts, name) && acts[0] != Complete(name) {
      var i :| 0 <= i < |acts| && acts[i] == Complete(name);
      assert acts[1..][i - 1] == Complete(name);
    }
  }

  lemma {:induction false} DataForConcat(a: seq<Action>, b: seq<Action>, name: string)
    ensures DataFor(a + b, name) == DataFor(a, name) + DataFor(b, name)
    decreases |a|
  {
    if |a| == 0 {
      assert a + b == b;
    } else {
      assert (a + b)[0] == a[0] && (a + b)[1..] == a[1..] + b;
      DataForConcat(a[1..], b, name);
    }
  }

  lemma {:induction false} DataForCompleteAll(names: seq<string>, name: string)
    ensures DataFor(CompleteAll(names), name) == []
    decreases |names|
  {
    if |names| > 0 {
      assert CompleteAll(names)[1..] == CompleteAll(names[1..]);
      DataForCompleteAll(names[1..], name);
    }
  }
}

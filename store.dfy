/**
 * The Store: it owns the current state, the reducer, the continuation chain built
 * from its middlewares, and the subscriber registry. What the middlewares and
 * subscribers would observe is kept in the ghost field `trace`.
 */
module Stores {
  import opened Chain
  import opened Pipeline
  import opened Registry

  /** The handle `subscribe` returns; running it unregisters `subscriber` from the store it came from. */
  datatype Unsubscriber = Unsubscriber(subscriber: SubscriberId)

  class Store<A, S> {
    var currentState: S
    const reducer: Reducer<A, S>
    const middlewares: seq<Middleware<A>>
    var subscribers: seq<SubscriberId>
    /** The continuations; `next[0]` is the head that `Dispatch` runs. */
    const next: seq<Link>
    /** Every middleware call, reduction and notification so far, in order. */
    ghost var trace: seq<Event<A>>

    /** The chain fixed at construction. It is made of constants, so it never changes. */
    ghost predicate Valid()
    {
      ChainShape(next, |middlewares|) && LinkOk(next[0], |middlewares|)
    }

    constructor (reducer: Reducer<A, S>, state: S, middlewares: seq<Middleware<A>>)
      ensures Valid()
      ensures this.reducer == reducer && this.middlewares == middlewares
      ensures currentState == state
      ensures subscribers == [] && trace == []
    {
      this.reducer := reducer;
      this.currentState := state;
      this.middlewares := middlewares;
      this.subscribers := [];
      this.trace := [];
      var links := BuildChain(|middlewares|);
      this.next := links;
      ChainLinksOk(links, |middlewares|, 0);
    }

    /** The terminal continuation: replace the state, then run every subscriber in registration order. */
    method TerminalDispatch(a: A)
      modifies this`currentState, this`trace
      ensures var o := TerminalStep(reducer, subscribers, a, old(currentState));
        currentState == o.state && trace == old(trace) + o.events
    {
      currentState := reducer(a, currentState);
      trace := trace + [Reduced(a)];
      var i := 0;
      while i < |subscribers|
        invariant 0 <= i <= |subscribers|
        invariant currentState == reducer(a, old(currentState))
        invariant trace == old(trace) + [Reduced(a)] + Notifications(subscribers[..i])
      {
        assert subscribers[..i + 1][..i] == subscribers[..i];
        trace := trace + [Notified(subscribers[i])];
        i := i + 1;
      }
      assert subscribers[..i] == subscribers;
    }

    /** Runs continuation `link` on `a`: a middleware step runs its middleware, then `next` on each forwarded action. */
    method Invoke(link: Link, a: A)
      requires LinkOk(link, |middlewares|)
      modifies this`currentState, this`trace
      ensures var o := RunLink(middlewares, reducer, subscribers, link, a, old(currentState));
        currentState == o.state && trace == old(trace) + o.events
      decreases link
    {
      match link
      case Terminal =>
        TerminalDispatch(a);
      case Step(i, n) =>
        trace := trace + [Intercepted(i, a)];
        var forwarded := middlewares[i](a);
        ghost var s0 := currentState;
        ghost var t0 := trace;
        var j := 0;
        while j < |forwarded|
          invariant 0 <= j <= |forwarded|
          invariant var o := RunAll(middlewares, reducer, subscribers, n, forwarded[..j], s0);
            currentState == o.state && trace == t0 + o.events
        {
          assert forwarded[..j + 1][..j] == forwarded[..j];
          Invoke(n, forwarded[j]);
          j := j + 1;
        }
        assert forwarded[..j] == forwarded;
    }

    /** Runs the head of the chain on `a` and returns the state that results. */
    method Dispatch(a: A) returns (r: S)
      requires Valid()
      modifies this`currentState, this`trace
      ensures var o := RunLink(middlewares, reducer, subscribers, next[0], a, old(currentState));
        currentState == o.state && trace == old(trace) + o.events
      ensures r == currentState
    {
      Invoke(next[0], a);
      r := GetState();
    }

    method GetState() returns (s: S)
      ensures s == currentState
    {
      s := currentState;
    }

    /** Registers `r` at the end of the registry and returns its handle. */
    method Subscribe(r: SubscriberId) returns (handle: Unsubscriber)
      modifies this`subscribers
      ensures subscribers == old(subscribers) + [r]
      ensures handle.subscriber == r
    {
      subscribers := subscribers + [r];
      handle := Unsubscriber(r);
    }

    /** Runs a handle: the first registration of its subscriber is removed. */
    method Unsubscribe(handle: Unsubscriber)
      modifies this`subscribers
      ensures subscribers == RemoveFirst(old(subscribers), handle.subscriber)
    {
      subscribers := RemoveFirst(subscribers, handle.subscriber);
    }
  }
}

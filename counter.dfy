/**
 * A client of the store: the counter application with no middleware and one
 * subscriber, dispatching an increment, a "plus 10" and an action the reducer
 * does not recognise.
 */
module Counter {
  import opened Options
  import opened Actions
  import opened Pipeline
  import opened Stores
  import Registry
  datatype CounterAction = Increment | Plus | Unknown
  /** The counter's reducer: increment, add the payload, or leave the count as it is. */
  function CountReducer(a: Action<CounterAction, int>, count: int): int
  {
    match a.kind
    case Increment => count + 1
    case Plus => if a.value.Some? then count + a.value.value else count
    case Unknown => count
  }

  /**
   * The three dispatches return 1, 11 and 11, and the subscriber is notified
   * once by each of them, the unrecognised one included. Once its handle has
   * run, a fourth dispatch changes the state and notifies nobody. `nk` records
   * the subscribers the k-th dispatch ran.
   */
  method Scenario() returns (first: int, second: int, third: int, fourth: int,
                             ghost n1: seq<SubscriberId>, ghost n2: seq<SubscriberId>,
                             ghost n3: seq<SubscriberId>, ghost n4: seq<SubscriberId>)
    ensures first == 1 && second == 11 && third == 11 && fourth == 12
    ensures n1 == [7] && n2 == [7] && n3 == [7] && n4 == []
  {
    var store := new Store<Action<CounterAction, int>, int>(CountReducer, 0, []);
    var handle := store.Subscribe(7);
    assert store.next[0] == Chain.Terminal;
    assert store.subscribers == [7];
    ghost var t0 := store.trace;
    first := store.Dispatch(Plain(Increment));
    n1 := DispatchNotified(store.reducer, [7], Plain(Increment), 0, t0, store.trace);
    assert first == 1;
    ghost var t1 := store.trace;
    second := store.Dispatch(Action(Plus, Some(10)));
    n2 := DispatchNotified(store.reducer, [7], Action(Plus, Some(10)), 1, t1, store.trace);
    assert second == 11;
    ghost var t2 := store.trace;
    third := store.Dispatch(Plain(Unknown));
    n3 := DispatchNotified(store.reducer, [7], Plain(Unknown), 11, t2, store.trace);
    assert third == 11;
    Registry.SubscribeThenUnsubscribe([], 7);
    assert [] + [7] == [7];
    store.Unsubscribe(handle);
    assert store.subscribers == [];
    ghost var t3 := store.trace;
    fourth := store.Dispatch(Plain(Increment));
    n4 := DispatchNotified(store.reducer, [], Plain(Increment), 11, t3, store.trace);
  }

  /** The subscribers run by one terminal step, read off the part of the trace it added. */
  lemma DispatchNotified(reduce: Reducer<Action<CounterAction, int>, int>, subs: seq<SubscriberId>,
                         a: Action<CounterAction, int>, s: int,
                         before: seq<Event<Action<CounterAction, int>>>,
                         after: seq<Event<Action<CounterAction, int>>>)
    returns (notified: seq<SubscriberId>)
    requires after == before + TerminalStep(reduce, subs, a, s).events
    ensures |before| <= |after| && notified == NotifiedIds(after[|before|..])
    ensures notified == subs
  {
    assert after[|before|..] == TerminalStep(reduce, subs, a, s).events;
    TerminalNotifiesAll(reduce, subs, a, s);
    notified := NotifiedIds(after[|before|..]);
  }
}

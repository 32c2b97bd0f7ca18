# jedux Store, modelled in Dafny

jedux is a small Redux-style state container for Java. A `Store` holds the
current application state. Callers send it actions with `dispatch`. Each action
passes through a chain of middlewares and then reaches the terminal step. The
terminal step replaces the state with `reducer.reduce(action, state)` and then
runs every subscriber in registration order. `subscribe` appends a subscriber
and returns a handle that unregisters it. `Action` is the library's immutable
value type: a type tag plus an optional payload.

The model has seven modules:

- `Options`: the `Option` type, used where Java has a reference that may be `null`.
- `Actions`: `Action.java`. The action is a datatype, so its two fields cannot
  change after construction. The datatype constructor `Action(kind, value)` is
  the two-argument Java constructor, and `Plain` is the one-argument one. Its
  text form is a function whose tag and payload formatting are parameters.
  `ReadBack` is its inverse.
- `Chain`: the continuation list (`next`) that the constructor links. A link is
  either the terminal one or a step that calls one middleware, identified by its
  position, and passes the link after it as `next`. `BuildChain` is the
  constructor's reverse loop.
- `Pipeline`: what one dispatch does, as functions, with the properties proved
  about them. A middleware is modelled by the actions it forwards to `next`:
  none swallows the action, one passes or transforms it, several split it. The
  reducer is a function-valued parameter. The side effects of middlewares and
  subscribers are recorded as a trace of events: `Intercepted(i, a)`,
  `Reduced(a)` and `Notified(id)`.
- `Registry`: the subscriber list operations. A subscriber is an opaque id
  compared by equality, so unsubscribing removes the first equal occurrence, as
  `List.remove(Object)` does.
- `Stores`: the `Store` class. It has the mutable fields `currentState` and
  `subscribers`, the constants `reducer`, `middlewares` and `next`, and a ghost
  `trace`. Each method is proved against the functions in `Pipeline` and
  `Registry`.
- `Counter`: a client of the store. It is the counter application: increment,
  plus 10, an unrecognised action, then an unsubscribe.

Where the code and its documentation disagree, the model follows the code:

- The reducer's doc comment (`Store.java:31-32`) says an unchanged state "will
  not trigger store subscribers". The terminal step (`Store.java:93-97`) has no
  such check, so subscribers are always run. `UnchangedStateStillNotifies`
  states this.
- The documentation of `subscribe` (`Store.java:149`) says the handle "will
  unsubscribe Runnable r from this store's state changes". The handle calls
  `subscribers.remove(r)`, which removes only the first equal registration each
  time it runs. When `r` was registered at most once, one run unsubscribes it
  and a second run changes nothing (`UnsubscribeTwice`). When `r` was registered
  exactly twice, the first run leaves it registered and the second run removes
  the other registration (`UnsubscribeDuplicate`). The model proves the
  exactly-twice case only; it does not state the general case of more
  registrations.

## Model

| member | source | states |
|---|---|---|
| `Actions.Plain` | library/src/main/java/trikita/jedux/Action.java:31-33 | the one-argument constructor keeps the given type and leaves the value absent |
| `Actions.ToString` | library/src/main/java/trikita/jedux/Action.java:44-50 | the text always begins with the type text; it is exactly that long without a value, and 2 plus the value text longer with one |
| `Actions.ReadBackToString` | library/src/main/java/trikita/jedux/Action.java:44-50 | when the type text has no ':', the text of an action gives back its type text and whether a value is present, and the value text if so |
| `Chain.BuildChain` | library/src/main/java/trikita/jedux/Store.java:113-126 | the list holds one continuation per middleware plus the terminal one last; continuation j calls middleware j with continuation j + 1 as `next`, so the head calls the first-supplied middleware |
| `Chain.ChainLinksOk` | library/src/main/java/trikita/jedux/Store.java:118-126 | every continuation of the built list only reaches middlewares the store holds |
| `Pipeline.TerminalStep` | library/src/main/java/trikita/jedux/Store.java:89-99 | the reference definition of the terminal dispatcher that `Store.TerminalDispatch` is proved against: the new state is `reduce(a, s)`, and the events are the reduction followed by one notification round |
| `Pipeline.RunLink` | library/src/main/java/trikita/jedux/Store.java:113-124 | the reference definition of one continuation that `Store.Invoke` and `Store.Dispatch` are proved against: the terminal one is `TerminalStep`; a middleware step records the call, then runs `next` on each action the middleware forwards |
| `Pipeline.RunAll` | library/src/main/java/trikita/jedux/Store.java:121-124 | the reference definition of a middleware calling `next` on several actions in turn, each run starting from the state the previous one left |
| `Pipeline.Notifications` | library/src/main/java/trikita/jedux/Store.java:95-97 | one notification round runs each registered subscriber exactly once, at its registration position |
| `Pipeline.TerminalNotifiesAll` | library/src/main/java/trikita/jedux/Store.java:89-99 | the terminal step sets the state to `reduce(a, s)`, records the reduction first, then notifies each subscriber once in registration order, and reduces nothing else |
| `Pipeline.NotifiedRound` | library/src/main/java/trikita/jedux/Store.java:93-97 | each terminal step adds exactly the registered subscribers to the notification record |
| `Pipeline.UnchangedStateStillNotifies` | library/src/main/java/trikita/jedux/Store.java:93-97 | a reducer that returns the state unchanged still triggers a full notification round |
| `Pipeline.RunLinkFolds` | library/src/main/java/trikita/jedux/Store.java:89-126 | whatever the middlewares forward, the final state is the left fold of the reducer over the actions that reached the terminal step, and there is exactly one notification round per such action |
| `Pipeline.RunAllFolds` | library/src/main/java/trikita/jedux/Store.java:121-124 | the same, for a middleware that calls `next` on several actions in turn |
| `Pipeline.NoNotificationUnlessRegistered` | library/src/main/java/trikita/jedux/Store.java:95-97 | a subscriber that is not registered is never notified by a dispatch |
| `Pipeline.PassThroughOrder` | library/src/main/java/trikita/jedux/Store.java:118-126 | if every middleware forwards its action unchanged, the chain runs the middlewares in supplied order, then reduces once, then notifies |
| `Pipeline.ForwardOne` | library/src/main/java/trikita/jedux/Store.java:121-124 | a middleware that forwards exactly its own action leads to the outcome of `next` on that action, after its own step |
| `Pipeline.PassThroughReducesOne` | library/src/main/java/trikita/jedux/Store.java:118-126 | with pass-through middlewares, the action given to a continuation is the only one reduced |
| `Pipeline.PassThroughReduces` | library/src/main/java/trikita/jedux/Store.java:121-124 | with pass-through middlewares, the actions given to a continuation in turn are exactly the ones reduced, in order |
| `Pipeline.Swallowed` | library/src/main/java/trikita/jedux/Store.java:121-124 | a middleware that never calls `next` leaves the state unchanged and causes no notification |
| `Pipeline.ForwardedFold` | library/src/main/java/trikita/jedux/Store.java:121-124 | a middleware that forwards a1..ak to pass-through downstream middlewares leaves the left fold of the reducer over a1..ak, with one notification round per forwarded action |
| `Registry.IndexOf` | library/src/main/java/trikita/jedux/Store.java:155 | the position found is the first that holds the subscriber, or the list length when none does |
| `Registry.RemoveFirst` | library/src/main/java/trikita/jedux/Store.java:155 | an absent subscriber leaves the list unchanged, so running the handle of a subscriber already removed changes nothing; otherwise exactly its first occurrence is removed and the others keep their order |
| `Registry.SubscribeThenUnsubscribe` | library/src/main/java/trikita/jedux/Store.java:151-158 | subscribing a new subscriber and running its handle gives back the previous list |
| `Registry.UnsubscribeTwice` | library/src/main/java/trikita/jedux/Store.java:153-157 | for a subscriber registered at most once, the handle removes it entirely and a second run changes nothing |
| `Registry.UnsubscribeDuplicate` | library/src/main/java/trikita/jedux/Store.java:151-158 | in any registry holding a subscriber twice, one run of its handle leaves it registered and a second run removes it entirely |
| `Stores.Store.constructor` | library/src/main/java/trikita/jedux/Store.java:109-127 | the state is the initial state, there are no subscribers, and the chain has the shape `BuildChain` promises |
| `Stores.Store.TerminalDispatch` | library/src/main/java/trikita/jedux/Store.java:89-99 | the state becomes `reduce(a, old state)`, then the trace gets the reduction followed by one notification per subscriber in order |
| `Stores.Store.Invoke` | library/src/main/java/trikita/jedux/Store.java:113-126 | running a continuation changes the state and the trace exactly as `RunLink` says |
| `Stores.Store.Dispatch` | library/src/main/java/trikita/jedux/Store.java:134-137 | the head of the chain is run, and the returned value is the state `GetState` reads afterwards |
| `Stores.Store.GetState` | library/src/main/java/trikita/jedux/Store.java:142-144 | returns the current state and changes nothing |
| `Stores.Store.Subscribe` | library/src/main/java/trikita/jedux/Store.java:151-158 | appends the subscriber at the end, keeps the earlier ones, and returns its handle |
| `Stores.Store.Unsubscribe` | library/src/main/java/trikita/jedux/Store.java:153-157 | the registry loses the first registration of the handle's subscriber and nothing else |
| `Counter.Scenario` | library/src/main/java/trikita/jedux/Store.java:134-137 | the counter's dispatches give 1, 11 and 11, and each of the three, the unrecognised one included, notifies the subscriber exactly once; after its handle runs, a fourth dispatch gives 12 and notifies nobody |
| `Counter.DispatchNotified` | library/src/main/java/trikita/jedux/Store.java:93-97 | the part of the trace one terminal step adds notifies exactly the registered subscribers |

## Left out

- The `synchronized` block around the state swap (`Store.java:92`) and concurrent dispatch. The model is sequential.
- Reentrancy. Middlewares and subscribers are pure in the model, so none of them can call `Dispatch`, `Subscribe` or a handle during a dispatch. The notification loop therefore runs over the registry as it stands when the loop starts. The Java loop rereads `subscribers.size()` on each pass (`Store.java:95`), which only matters under reentrancy.
- Arbitrary middleware and subscriber code. A middleware is the list of actions it forwards. The store argument it receives is not modelled, and neither is work it does before or after `next`, such as the wrap-style logging that would see the state before and after. Subscriber side effects appear only as `Notified` events in the trace.
- Identity of `Runnable` values. Subscribers are ids compared by equality. A handle is a value carrying its subscriber id, passed to `Store.Unsubscribe`, rather than a closure bound to its store.
- The `null` passed as `next` to the terminal step (`Store.java:115`), and exceptions thrown by the reducer, by middlewares or by subscribers.
- The `toString` of the enum and of the payload (`Action.java:46,48`). These are the parameters `showType` and `showValue`.
- The Logger middleware that the `Middleware` documentation mentions is not part of this model.
- `Actions.ReadBackToString` assumes type texts without ':', which holds when the enum keeps the default `toString`, which returns the constant's name; an enum that overrides `toString` with text containing ':' is not covered.
- The `NullPointerException` that `toString` throws when the type tag is `null` (`Action.java:46,48`). An action's `kind` cannot be null in the model.

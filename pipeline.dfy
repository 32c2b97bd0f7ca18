/**
 * What one dispatch does, as functions of the store's parts. A middleware is
 * modelled by the actions it passes to `next`, in order: none swallows the
 * action, one passes or transforms it, several split it. What the Java callbacks
 * would observe is recorded as a trace of events.
 */
module Pipeline {
  import opened Chain

  /** A subscriber, identified by an opaque id compared by equality. */
  type SubscriberId = nat

  type Middleware<!A> = A -> seq<A>

  type Reducer<!A, !S> = (A, S) -> S

  datatype Event<A> =
    | Intercepted(index: nat, action: A)    // middleware `index` received `action`
    | Reduced(action: A)                    // the terminal step applied the reducer to `action`
    | Notified(subscriber: SubscriberId)    // the terminal step ran `subscriber`

  /** The state after a run and the events it produced, in order. */
  datatype Outcome<A, S> = Outcome(state: S, events: seq<Event<A>>)

  /** One notification per subscriber, in registration order. */
  function Notifications<A>(subs: seq<SubscriberId>): (e: seq<Event<A>>)
    ensures |e| == |subs|
    ensures forall k :: 0 <= k < |subs| ==> e[k] == Notified(subs[k])
  {
    if subs == [] then [] else Notifications(subs[..|subs| - 1]) + [Notified(subs[|subs| - 1])]
  }

  /** The terminal continuation: replace the state by the reducer's result, then notify. */
  function TerminalStep<A, S>(reduce: Reducer<A, S>, subs: seq<SubscriberId>, a: A, s: S): Outcome<A, S>
  {
    Outcome(reduce(a, s), [Reduced(a)] + Notifications(subs))
  }

  /** Running continuation `link` on action `a` from state `s`. */
  function RunLink<A, S>(mws: seq<Middleware<A>>, reduce: Reducer<A, S>, subs: seq<SubscriberId>,
                         link: Link, a: A, s: S): Outcome<A, S>
    requires LinkOk(link, |mws|)
    decreases link, 0
  {
    match link
    case Terminal => TerminalStep(reduce, subs, a, s)
    case Step(i, n) =>
      var o := RunAll(mws, reduce, subs, n, mws[i](a), s);
      Outcome(o.state, [Intercepted(i, a)] + o.events)
  }

  /** Running continuation `link` on each of `acts` in turn, as a middleware calling `next` repeatedly does. */
  function RunAll<A, S>(mws: seq<Middleware<A>>, reduce: Reducer<A, S>, subs: seq<SubscriberId>,
                        link: Link, acts: seq<A>, s: S): Outcome<A, S>
    requires LinkOk(link, |mws|)
    decreases link, |acts| + 1
  {
    if acts == [] then Outcome(s, [])
    else
      var front := RunAll(mws, reduce, subs, link, acts[..|acts| - 1], s);
      var last := RunLink(mws, reduce, subs, link, acts[|acts| - 1], front.state);
      Outcome(last.state, front.events + last.events)
  }

  // ---------------------------------------------------------------- reference definitions

  /** Left fold of the reducer over `acts`, starting from `s`. */
  function FoldReduce<A, S>(reduce: Reducer<A, S>, acts: seq<A>, s: S): S
  {
    if acts == [] then s else reduce(acts[|acts| - 1], FoldReduce(reduce, acts[..|acts| - 1], s))
  }

  /** The actions that reached the reducer, in order. */
  function ReducedActions<A>(events: seq<Event<A>>): seq<A>
  {
    if events == [] then []
    else (if events[0].Reduced? then [events[0].action] else []) + ReducedActions(events[1..])
  }

  /** The subscribers that were run, in order. */
  function NotifiedIds<A>(events: seq<Event<A>>): seq<SubscriberId>
  {
    if events == [] then []
    else (if events[0].Notified? then [events[0].subscriber] else []) + NotifiedIds(events[1..])
  }

  /** `n` full rounds of notification over `subs`. */
  function Repeat(subs: seq<SubscriberId>, n: nat): seq<SubscriberId>
  {
    if n == 0 then [] else Repeat(subs, n - 1) + subs
  }

  /** The middlewares from position `from` on forward every action unchanged. */
  ghost predicate ForwardsFrom<A(!new)>(mws: seq<Middleware<A>>, from: nat)
  {
    forall i, x :: from <= i < |mws| ==> mws[i](x) == [x]
  }

  /** Middlewares `from` .. `to - 1`, each receiving `a`, in that order. */
  function Intercepts<A>(from: nat, to: nat, a: A): seq<Event<A>>
    decreases if from < to then to - from else 0
  {
    if from >= to then [] else [Intercepted(from, a)] + Intercepts(from + 1, to, a)
  }

  // ---------------------------------------------------------------- helper lemmas

  lemma {:induction false} ReducedActionsAppend<A>(e1: seq<Event<A>>, e2: seq<Event<A>>)
    ensures ReducedActions(e1 + e2) == ReducedActions(e1) + ReducedActions(e2)
    ensures NotifiedIds(e1 + e2) == NotifiedIds(e1) + NotifiedIds(e2)
  {
    if e1 != [] {
      assert (e1 + e2)[1..] == e1[1..] + e2;
      ReducedActionsAppend(e1[1..], e2);
    } else {
      assert e1 + e2 == e2;
    }
  }

  lemma {:induction false} FoldReduceAppend<A, S>(reduce: Reducer<A, S>, xs: seq<A>, ys: seq<A>, s: S)
    ensures FoldReduce(reduce, xs + ys, s) == FoldReduce(reduce, ys, FoldReduce(reduce, xs, s))
  {
    if ys == [] {
      assert xs + ys == xs;
    } else {
      var ys' := ys[..|ys| - 1];
      assert (xs + ys)[..|xs + ys| - 1] == xs + ys';
      FoldReduceAppend(reduce, xs, ys', s);
    }
  }

  lemma {:induction false} RepeatAdd(subs: seq<SubscriberId>, m: nat, n: nat)
    ensures Repeat(subs, m + n) == Repeat(subs, m) + Repeat(subs, n)
  {
    if n > 0 {
      RepeatAdd(subs, m, n - 1);
    }
  }

  lemma {:induction false} RepeatMembers(subs: seq<SubscriberId>, n: nat, r: SubscriberId)
    ensures r in Repeat(subs, n) ==> r in subs
  {
    if n > 0 {
      RepeatMembers(subs, n - 1, r);
    }
  }

  /** One round of notification runs exactly the registered subscribers and reduces nothing. */
  lemma {:induction false} NotificationsProject<A>(subs: seq<SubscriberId>)
    ensures NotifiedIds(Notifications<A>(subs)) == subs
    ensures ReducedActions(Notifications<A>(subs)) == []
  {
    if subs != [] {
      var front := subs[..|subs| - 1];
      NotificationsProject<A>(front);
      ReducedActionsAppend(Notifications<A>(front), [Notified(subs[|subs| - 1])]);
      assert subs == front + [subs[|subs| - 1]];
    }
  }

  // ---------------------------------------------------------------- properties

  /**
   * The terminal step reduces once and only then runs every registered subscriber
   * exactly once, in registration order, whatever the reducer returns: there is
   * no check whether the state changed.
   */
  lemma TerminalNotifiesAll<A, S>(reduce: Reducer<A, S>, subs: seq<SubscriberId>, a: A, s: S)
    ensures var o := TerminalStep(reduce, subs, a, s);
      o.state == reduce(a, s) &&
      o.events[0] == Reduced(a) &&
      |o.events| == 1 + |subs| &&
      (forall k :: 0 <= k < |subs| ==> o.events[k + 1] == Notified(subs[k])) &&
      ReducedActions(o.events) == [a] &&
      NotifiedIds(o.events) == subs
  {
    NotificationsProject<A>(subs);
    ReducedActionsAppend([Reduced(a)], Notifications<A>(subs));
  }

  /** One terminal step adds exactly the registered subscribers to the record of notifications. */
  lemma NotifiedRound<A, S>(reduce: Reducer<A, S>, subs: seq<SubscriberId>, a: A, s: S,
                            before: seq<Event<A>>, after: seq<Event<A>>)
    requires after == before + TerminalStep(reduce, subs, a, s).events
    ensures NotifiedIds(after) == NotifiedIds(before) + subs
  {
    TerminalNotifiesAll(reduce, subs, a, s);
    ReducedActionsAppend(before, TerminalStep(reduce, subs, a, s).events);
  }

  /** Even a reducer that returns the state unchanged triggers a full round of notification. */
  lemma UnchangedStateStillNotifies<A, S>(reduce: Reducer<A, S>, subs: seq<SubscriberId>, a: A, s: S)
    requires reduce(a, s) == s
    ensures TerminalStep(reduce, subs, a, s).state == s
    ensures NotifiedIds(TerminalStep(reduce, subs, a, s).events) == subs
  {
    TerminalNotifiesAll(reduce, subs, a, s);
  }

  /**
   * Whatever the middlewares do, the resulting state is the left fold of the
   * reducer over the actions that reached the terminal step, and the
   * notifications are exactly one full round per reduction.
   */
  lemma {:induction false} RunLinkFolds<A, S>(mws: seq<Middleware<A>>, reduce: Reducer<A, S>,
                                             subs: seq<SubscriberId>, link: Link, a: A, s: S)
    requires LinkOk(link, |mws|)
    ensures var o := RunLink(mws, reduce, subs, link, a, s);
      o.state == FoldReduce(reduce, ReducedActions(o.events), s) &&
      NotifiedIds(o.events) == Repeat(subs, |ReducedActions(o.events)|)
    decreases link, 0
  {
    match link
    case Terminal =>
      TerminalNotifiesAll(reduce, subs, a, s);
      assert [a][..0] == [];
    case Step(i, n) =>
      var o := RunAll(mws, reduce, subs, n, mws[i](a), s);
      RunAllFolds(mws, reduce, subs, n, mws[i](a), s);
      ReducedActionsAppend([Intercepted(i, a)], o.events);
      assert ReducedActions([Intercepted(i, a)]) == [] && NotifiedIds([Intercepted(i, a)]) == [];
      var e := [Intercepted(i, a)] + o.events;
      assert RunLink(mws, reduce, subs, link, a, s) == Outcome(o.state, e);
      assert ReducedActions(e) == ReducedActions(o.events);
      assert NotifiedIds(e) == NotifiedIds(o.events);
  }

  lemma {:induction false} RunAllFolds<A, S>(mws: seq<Middleware<A>>, reduce: Reducer<A, S>,
                                            subs: seq<SubscriberId>, link: Link, acts: seq<A>, s: S)
    requires LinkOk(link, |mws|)
    ensures var o := RunAll(mws, reduce, subs, link, acts, s);
      o.state == FoldReduce(reduce, ReducedActions(o.events), s) &&
      NotifiedIds(o.events) == Repeat(subs, |ReducedActions(o.events)|)
    decreases link, |acts| + 1
  {
    if acts != [] {
      var front := RunAll(mws, reduce, subs, link, acts[..|acts| - 1], s);
      var last := RunLink(mws, reduce, subs, link, acts[|acts| - 1], front.state);
      RunAllFolds(mws, reduce, subs, link, acts[..|acts| - 1], s);
      RunLinkFolds(mws, reduce, subs, link, acts[|acts| - 1], front.state);
      ReducedActionsAppend(front.events, last.events);
      FoldReduceAppend(reduce, ReducedActions(front.events), ReducedActions(last.events), s);
      RepeatAdd(subs, |ReducedActions(front.events)|, |ReducedActions(last.events)|);
    }
  }

  /** Once a subscriber is no longer registered, no dispatch notifies it. */
  lemma NoNotificationUnlessRegistered<A, S>(mws: seq<Middleware<A>>, reduce: Reducer<A, S>,
                                             subs: seq<SubscriberId>, link: Link, a: A, s: S,
                                             r: SubscriberId)
    requires LinkOk(link, |mws|)
    requires r !in subs
    ensures r !in NotifiedIds(RunLink(mws, reduce, subs, link, a, s).events)
  {
    var o := RunLink(mws, reduce, subs, link, a, s);
    RunLinkFolds(mws, reduce, subs, link, a, s);
    RepeatMembers(subs, |ReducedActions(o.events)|, r);
  }

  /**
   * When every middleware forwards its action unchanged, continuation `j` runs
   * middlewares `j`, `j + 1`, ... in supplied order, and only then the terminal
   * step, once.
   */
  lemma {:induction false} PassThroughOrder<A(!new), S>(mws: seq<Middleware<A>>, reduce: Reducer<A, S>,
                                                 subs: seq<SubscriberId>, chain: seq<Link>, j: nat, a: A, s: S)
    requires ChainShape(chain, |mws|) && j <= |mws|
    requires ForwardsFrom(mws, j)
    ensures LinkOk(chain[j], |mws|)
    ensures RunLink(mws, reduce, subs, chain[j], a, s)
         == Outcome(reduce(a, s), Intercepts(j, |mws|, a) + TerminalStep(reduce, subs, a, s).events)
    decreases |mws| - j
  {
    ChainLinksOk(chain, |mws|, j);
    var tail := TerminalStep(reduce, subs, a, s).events;
    if j < |mws| {
      PassThroughOrder(mws, reduce, subs, chain, j + 1, a, s);
      assert chain[j] == Step(j, chain[j + 1]);
      ForwardOne(mws, reduce, subs, j, chain[j + 1], a, s);
      assert Intercepts(j, |mws|, a) == [Intercepted(j, a)] + Intercepts(j + 1, |mws|, a);
      assert [Intercepted(j, a)] + (Intercepts(j + 1, |mws|, a) + tail)
          == Intercepts(j, |mws|, a) + tail;
    } else {
      assert Intercepts(j, |mws|, a) + tail == tail;
    }
  }

  /** A middleware that forwards exactly its own action hands it on to `next` unchanged. */
  lemma ForwardOne<A, S>(mws: seq<Middleware<A>>, reduce: Reducer<A, S>, subs: seq<SubscriberId>,
                         j: nat, n: Link, a: A, s: S)
    requires j < |mws| && LinkOk(n, |mws|)
    requires mws[j](a) == [a]
    ensures var inner := RunLink(mws, reduce, subs, n, a, s);
      RunLink(mws, reduce, subs, Step(j, n), a, s) == Outcome(inner.state, [Intercepted(j, a)] + inner.events)
  {
    var inner := RunLink(mws, reduce, subs, n, a, s);
    assert [a][..0] == [];
    assert RunAll(mws, reduce, subs, n, [a], s) == Outcome(inner.state, [] + inner.events);
    assert [] + inner.events == inner.events;
  }

  /** With pass-through middlewares from `j` on, the actions given to continuation `j` are the ones reduced. */
  lemma {:induction false} PassThroughReduces<A(!new), S>(mws: seq<Middleware<A>>, reduce: Reducer<A, S>,
                                                   subs: seq<SubscriberId>, chain: seq<Link>, j: nat,
                                                   acts: seq<A>, s: S)
    requires ChainShape(chain, |mws|) && j <= |mws|
    requires ForwardsFrom(mws, j)
    ensures LinkOk(chain[j], |mws|)
    ensures ReducedActions(RunAll(mws, reduce, subs, chain[j], acts, s).events) == acts
  {
    ChainLinksOk(chain, |mws|, j);
    if acts != [] {
      var init := acts[..|acts| - 1];
      var x := acts[|acts| - 1];
      var front := RunAll(mws, reduce, subs, chain[j], init, s);
      var last := RunLink(mws, reduce, subs, chain[j], x, front.state);
      assert RunAll(mws, reduce, subs, chain[j], acts, s) == Outcome(last.state, front.events + last.events);
      PassThroughReduces(mws, reduce, subs, chain, j, init, s);
      PassThroughReducesOne(mws, reduce, subs, chain, j, x, front.state);
      ReducedActionsAppend(front.events, last.events);
      assert acts == init + [x];
    }
  }

  lemma PassThroughReducesOne<A(!new), S>(mws: seq<Middleware<A>>, reduce: Reducer<A, S>,
                                          subs: seq<SubscriberId>, chain: seq<Link>, j: nat, x: A, s: S)
    requires ChainShape(chain, |mws|) && j <= |mws|
    requires ForwardsFrom(mws, j)
    ensures LinkOk(chain[j], |mws|)
    ensures ReducedActions(RunLink(mws, reduce, subs, chain[j], x, s).events) == [x]
  {
    PassThroughOrder(mws, reduce, subs, chain, j, x, s);
    InterceptsReduceNothing(j, |mws|, x);
    TerminalNotifiesAll(reduce, subs, x, s);
    ReducedActionsAppend(Intercepts(j, |mws|, x), TerminalStep(reduce, subs, x, s).events);
  }

  lemma {:induction false} InterceptsReduceNothing<A>(from: nat, to: nat, a: A)
    ensures ReducedActions(Intercepts(from, to, a)) == []
    decreases if from < to then to - from else 0
  {
    if from < to {
      InterceptsReduceNothing(from + 1, to, a);
      ReducedActionsAppend([Intercepted(from, a)], Intercepts(from + 1, to, a));
    }
  }

  /** A middleware that never calls `next` leaves the state as it was and notifies nobody. */
  lemma Swallowed<A, S>(mws: seq<Middleware<A>>, reduce: Reducer<A, S>,
                        subs: seq<SubscriberId>, chain: seq<Link>, j: nat, a: A, s: S)
    requires ChainShape(chain, |mws|) && j < |mws|
    requires mws[j](a) == []
    ensures LinkOk(chain[j], |mws|)
    ensures RunLink(mws, reduce, subs, chain[j], a, s) == Outcome(s, [Intercepted(j, a)])
    ensures NotifiedIds(RunLink(mws, reduce, subs, chain[j], a, s).events) == []
  {
    ChainLinksOk(chain, |mws|, j);
    assert chain[j] == Step(j, chain[j + 1]);
    assert RunAll(mws, reduce, subs, chain[j + 1], [], s) == Outcome(s, []);
    assert [Intercepted(j, a)] + [] == [Intercepted(j, a)];
  }

  /**
   * A middleware whose downstream middlewares all pass actions through, and which
   * forwards a1 .. ak, leaves the left fold of the reducer over a1 .. ak, with one
   * round of notification per forwarded action.
   */
  lemma ForwardedFold<A(!new), S>(mws: seq<Middleware<A>>, reduce: Reducer<A, S>,
                            subs: seq<SubscriberId>, chain: seq<Link>, j: nat, a: A, s: S)
    requires ChainShape(chain, |mws|) && j < |mws|
    requires ForwardsFrom(mws, j + 1)
    ensures LinkOk(chain[j], |mws|)
    ensures var o := RunLink(mws, reduce, subs, chain[j], a, s);
      ReducedActions(o.events) == mws[j](a) &&
      o.state == FoldReduce(reduce, mws[j](a), s) &&
      NotifiedIds(o.events) == Repeat(subs, |mws[j](a)|)
  {
    ChainLinksOk(chain, |mws|, j);
    var o := RunAll(mws, reduce, subs, chain[j + 1], mws[j](a), s);
    PassThroughReduces(mws, reduce, subs, chain, j + 1, mws[j](a), s);
    RunLinkFolds(mws, reduce, subs, chain[j], a, s);
    ReducedActionsAppend([Intercepted(j, a)], o.events);
  }
}

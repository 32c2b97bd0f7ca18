/**
 * The list of continuations (`NextDispatcher`s) that the Store constructor links
 * together. A continuation either wraps a middleware, identified by its position
 * in the list the store was given, together with the continuation it passes on
 * as `next`, or is the terminal one that reaches the reducer.
 */
module Chain {

  datatype Link = Terminal | Step(middleware: nat, next: Link)

  /** Every middleware a link reaches is one of the `count` the store holds. */
  predicate LinkOk(link: Link, count: nat)
  {
    match link
    case Terminal => true
    case Step(i, n) => i < count && LinkOk(n, count)
  }

  /**
   * The shape the constructor leaves: one continuation per middleware and the
   * terminal one last; continuation `j` runs middleware `j` with continuation
   * `j + 1` as its `next`, so the head runs the first-supplied middleware.
   */
  predicate ChainShape(chain: seq<Link>, count: nat)
  {
    |chain| == count + 1 &&
    chain[count] == Terminal &&
    forall j :: 0 <= j < count ==> chain[j] == Step(j, chain[j + 1])
  }

  lemma {:induction false} ChainLinksOk(chain: seq<Link>, count: nat, j: nat)
    requires ChainShape(chain, count) && j <= count
    ensures LinkOk(chain[j], count)
    decreases count - j
  {
    if j < count {
      ChainLinksOk(chain, count, j + 1);
    }
  }

  /**
   * The constructor's loop: start from the terminal continuation, then walk the
   * middlewares from last to first, inserting at the head a continuation that
   * calls the middleware with the current head as its `next`.
   */
  method BuildChain(count: nat) returns (links: seq<Link>)
    ensures ChainShape(links, count)
  {
    links := [Terminal];
    var i: int := count - 1;
    while i >= 0
      invariant -1 <= i < count
      invariant |links| == count - i
      invariant links[|links| - 1] == Terminal
      invariant forall j :: 0 <= j < |links| - 1 ==> links[j] == Step(i + 1 + j, links[j + 1])
    {
      var n := links[0];
      links := [Step(i, n)] + links;
      i := i - 1;
    }
  }
}

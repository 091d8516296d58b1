/**
 Replaying a chain page by page, as `mapOverBlocks` does, while the chain may grow between pages.
 */
module Paging {
  import opened Wrappers
  import opened Types

  // Reading a chain page by page

  /** The blocks after height `from`, `limit` at most; None while nothing is loaded. */
  function PageOf(chain: seq<Block>, from: nat, limit: nat): (page: Option<seq<Block>>)
    ensures page.None? <==> chain == []
  {
    if chain == [] then None
    else
      var to := if from + limit >= |chain| - 1 then |chain| - 1 else from + limit;
      Some(if from < to then chain[from + 1..to + 1] else [])
  }

  /** What a client sees of a chain that may grow between its requests: the chain at the k-th one. */
  type Views = nat -> seq<Block>

  ghost predicate Bounded(views: Views, bound: nat) {
    forall k: nat :: |views(k)| <= bound
  }

  datatype Visit = Visit(blocks: seq<Block>, referenceError: bool)

  /** The blocks a paging client is handed from its k-th request on. */
  ghost function Visited(views: Views, k: nat, from: nat, limit: nat, bound: nat): Visit
    requires limit > 0 && Bounded(views, bound)
    decreases if from <= bound then bound - from + 1 else 0
  {
    match PageOf(views(k), from, limit)
    case None => Visit([], true)
    case Some(page) =>
      if page == [] then Visit([], false)
      else
        var rest := Visited(views, k + 1, from + limit, limit, bound);
        Visit(page + rest.blocks, rest.referenceError)
  }

  /** A page and what follows its full limit are all that follows its start. */
  lemma PageAndRest(chain: seq<Block>, from: nat, limit: nat)
    requires limit > 0 && chain != []
    ensures var page := PageOf(chain, from, limit).value;
            && (page == [] <==> from >= |chain| - 1)
            && page + BlocksAfter(chain, from + limit) == BlocksAfter(chain, from)
  {
    var page := PageOf(chain, from, limit).value;
    if from + limit < |chain| - 1 {
      assert page == chain[from + 1..from + limit + 1];
      assert chain[from + 1..] == page + chain[from + limit + 1..];
    } else if from < |chain| - 1 {
      assert page == chain[from + 1..];
    }
  }

  /** The blocks of a chain after a height. */
  function BlocksAfter(chain: seq<Block>, height: nat): seq<Block> {
    if height < |chain| then chain[height + 1..] else []
  }

  /** One request: an error, nothing more, or a page and whatever the later requests are handed. */
  lemma VisitedPage(views: Views, k: nat, from: nat, limit: nat, bound: nat)
    requires limit > 0 && Bounded(views, bound)
    ensures match PageOf(views(k), from, limit)
            case None => Visited(views, k, from, limit, bound) == Visit([], true)
            case Some(page) =>
              if page == [] then Visited(views, k, from, limit, bound) == Visit([], false)
              else
                var rest := Visited(views, k + 1, from + limit, limit, bound);
                && from < bound
                && Visited(views, k, from, limit, bound) == Visit(page + rest.blocks, rest.referenceError)
  {
    assert |views(k)| <= bound;
  }

  lemma PageGoesOn(views: Views, k: nat, from: nat, limit: nat, bound: nat)
    requires limit > 0 && Bounded(views, bound)
    requires PageOf(views(k), from, limit).Some? && PageOf(views(k), from, limit).value != []
    ensures from < bound
  {
    assert |views(k)| <= bound;
  }

  lemma CompleteFrom(views: Views, chain: seq<Block>, k: nat, from: nat, limit: nat, bound: nat)
    requires limit > 0 && Bounded(views, bound) && views(k) == chain != []
    requires from < |chain| - 1 ==>
               Visited(views, k + 1, from + limit, limit, bound) == Visit(BlocksAfter(chain, from + limit), false)
    ensures Visited(views, k, from, limit, bound) == Visit(BlocksAfter(chain, from), false)
  {
    VisitedPage(views, k, from, limit, bound);
    PageAndRest(chain, from, limit);
  }

  /**
   On a chain that does not grow meanwhile, paging hands over each block after the starting height
   exactly once and in order, whatever the limit.
   */
  lemma {:induction false} PagingIsComplete(views: Views, chain: seq<Block>, k: nat, from: nat, limit: nat, bound: nat)
    requires limit > 0 && Bounded(views, bound)
    requires chain != [] && forall j: nat :: views(j) == chain
    ensures Visited(views, k, from, limit, bound) == Visit(BlocksAfter(chain, from), false)
    decreases if from <= bound then bound - from + 1 else 0
  {
    assert views(k) == chain;
    if from < |chain| - 1 {
      assert from < bound by {
        PageAndRest(chain, from, limit);
        PageGoesOn(views, k, from, limit, bound);
      }
      PagingIsComplete(views, chain, k + 1, from + limit, limit, bound);
      CompleteFrom(views, chain, k, from, limit, bound);
    } else {
      CompleteFrom(views, chain, k, from, limit, bound);
    }
  }

  lemma PageIsOnChain(view: seq<Block>, from: nat, limit: nat, chain: seq<Block>)
    requires view <= chain && PageOf(view, from, limit).Some?
    ensures forall b :: b in PageOf(view, from, limit).value ==> b in chain
  {
    var page := PageOf(view, from, limit).value;
    forall i | 0 <= i < |page|
      ensures page[i] in chain
    {
      assert page[i] == view[from + 1 + i] == chain[from + 1 + i];
    }
  }

  /** All blocks of a page have a property. */
  ghost predicate PageHas(view: seq<Block>, from: nat, limit: nat, P: Block -> bool) {
    var page := PageOf(view, from, limit);
    page.Some? ==> AllHave(page.value, P)
  }

  ghost predicate AllHave(blocks: seq<Block>, P: Block -> bool) {
    forall i :: 0 <= i < |blocks| ==> P(blocks[i])
  }

  lemma BothHave(a: seq<Block>, b: seq<Block>, P: Block -> bool)
    requires AllHave(a, P) && AllHave(b, P)
    ensures AllHave(a + b, P)
  {
  }

  lemma VisitedPageHas(views: Views, k: nat, from: nat, limit: nat, bound: nat, P: Block -> bool)
    requires limit > 0 && Bounded(views, bound) && PageHas(views(k), from, limit, P)
    requires PageOf(views(k), from, limit).Some? && PageOf(views(k), from, limit).value != []
    requires AllHave(Visited(views, k + 1, from + limit, limit, bound).blocks, P)
    ensures AllHave(Visited(views, k, from, limit, bound).blocks, P)
  {
    VisitedPage(views, k, from, limit, bound);
    BothHave(PageOf(views(k), from, limit).value, Visited(views, k + 1, from + limit, limit, bound).blocks, P);
  }

  /** What all blocks of all pages have, all blocks handed over have. */
  lemma {:induction false} VisitedHave(views: Views, k: nat, from: nat, limit: nat, bound: nat, P: Block -> bool)
    requires limit > 0 && Bounded(views, bound)
    requires forall j: nat, f: nat :: PageHas(views(j), f, limit, P)
    ensures AllHave(Visited(views, k, from, limit, bound).blocks, P)
    decreases if from <= bound then bound - from + 1 else 0
  {
    assert PageHas(views(k), from, limit, P);
    var page := PageOf(views(k), from, limit);
    if page.Some? && page.value != [] {
      PageGoesOn(views, k, from, limit, bound);
      VisitedHave(views, k + 1, from + limit, limit, bound, P);
      VisitedPageHas(views, k, from, limit, bound, P);
    }
  }

  /** Every block handed over is a block of the chain as it is in the end. */
  lemma VisitedAreOnChain(views: Views, k: nat, from: nat, limit: nat, bound: nat, chain: seq<Block>)
    requires limit > 0 && Bounded(views, bound)
    requires forall j: nat :: views(j) <= chain
    ensures forall b :: b in Visited(views, k, from, limit, bound).blocks ==> b in chain
  {
    ghost var P := (b: Block) => b in chain;
    forall j: nat, f: nat
      ensures PageHas(views(j), f, limit, P)
    {
      assert views(j) <= chain;
      if PageOf(views(j), f, limit).Some? {
        PageIsOnChain(views(j), f, limit, chain);
      }
    }
    VisitedHave(views, k, from, limit, bound, P);
  }

  // Folding over the blocks visited

  /** Feeding blocks to a function that may refuse one, which ends the feeding. */
  ghost function FoldUntil<S>(f: (S, Block) -> (S, bool), s: S, blocks: seq<Block>): (S, bool) {
    if blocks == [] then (s, true)
    else
      var (s', ok) := f(s, blocks[0]);
      if ok then FoldUntil(f, s', blocks[1..]) else (s', false)
  }

  lemma {:induction false} FoldUntilAppend<S>(f: (S, Block) -> (S, bool), s: S, a: seq<Block>, b: seq<Block>)
    ensures FoldUntil(f, s, a + b) ==
            var (s', ok) := FoldUntil(f, s, a); if ok then FoldUntil(f, s', b) else (s', false)
  {
    if a == [] {
      assert a + b == b;
    } else {
      assert (a + b)[1..] == a[1..] + b;
      FoldUntilAppend(f, f(s, a[0]).0, a[1..], b);
    }
  }

  datatype MapOutcome = Done | Refused | ReferenceError

  const DEFAULT_SCROLL_LIMIT: nat := 5000

  /** How `mapOverBlocks` ends, in terms of the blocks visited. */
  ghost function Mapped<S>(f: (S, Block) -> (S, bool), s: S, visit: Visit): (S, MapOutcome) {
    var (s', ok) := FoldUntil(f, s, visit.blocks);
    (s', if !ok then Refused else if visit.referenceError then ReferenceError else Done)
  }

  /** Feeding page after page, from the k-th request on. */
  ghost function MapFrom<S>(f: (S, Block) -> (S, bool), s: S, views: Views, k: nat, from: nat, limit: nat,
                            bound: nat): (S, MapOutcome)
    requires limit > 0 && Bounded(views, bound)
    decreases if from <= bound then bound - from + 1 else 0
  {
    match PageOf(views(k), from, limit)
    case None => (s, ReferenceError)
    case Some(page) =>
      if page == [] then (s, Done)
      else
        var (s', ok) := FoldUntil(f, s, page);
        if ok then MapFrom(f, s', views, k + 1, from + limit, limit, bound) else (s', Refused)
  }

  lemma MappedPage<S>(f: (S, Block) -> (S, bool), s: S, page: seq<Block>, rest: Visit)
    ensures Mapped(f, s, Visit(page + rest.blocks, rest.referenceError)) ==
            var (s', ok) := FoldUntil(f, s, page); if ok then Mapped(f, s', rest) else (s', Refused)
  {
    FoldUntilAppend(f, s, page, rest.blocks);
  }

  /** Feeding page after page is feeding all blocks visited. */
  lemma {:induction false} MapFromIsMapped<S>(f: (S, Block) -> (S, bool), s: S, views: Views, k: nat, from: nat,
                                              limit: nat, bound: nat)
    requires limit > 0 && Bounded(views, bound)
    ensures MapFrom(f, s, views, k, from, limit, bound) == Mapped(f, s, Visited(views, k, from, limit, bound))
    decreases if from <= bound then bound - from + 1 else 0
  {
    assert |views(k)| <= bound;
    var page := PageOf(views(k), from, limit);
    if page.Some? && page.value != [] {
      MappedPage(f, s, page.value, Visited(views, k + 1, from + limit, limit, bound));
      var (s', ok) := FoldUntil(f, s, page.value);
      if ok {
        MapFromIsMapped(f, s', views, k + 1, from + limit, limit, bound);
      }
    }
  }

  /** The inner loop: one page, block by block. */
  method MapPage<S>(start: S, mapFunction: (S, Block) -> (S, bool), blocks: seq<Block>) returns (state: S, ok: bool)
    ensures (state, ok) == FoldUntil(mapFunction, start, blocks)
  {
    state := start;
    for i := 0 to |blocks|
      invariant FoldUntil(mapFunction, start, blocks) == FoldUntil(mapFunction, state, blocks[i..])
    {
      var (next, accepted) := mapFunction(state, blocks[i]);
      assert blocks[i..][1..] == blocks[i + 1..];
      state := next;
      if !accepted {
        return state, false;
      }
    }
    return state, true;
  }

  /** The paging loop.  The height advances by the full limit even past a page that was shorter. */
  method MapPages<S>(views: Views, lastBlockHeight: nat, start: S, mapFunction: (S, Block) -> (S, bool), limit: nat,
                     ghost bound: nat)
    returns (state: S, outcome: MapOutcome)
    requires limit > 0 && Bounded(views, bound)
    ensures (state, outcome) == MapFrom(mapFunction, start, views, 0, lastBlockHeight, limit, bound)
  {
    var blockHeight, k := lastBlockHeight, 0;
    state := start;
    ghost var result := MapFrom(mapFunction, start, views, 0, lastBlockHeight, limit, bound);
    while true
      invariant result == MapFrom(mapFunction, state, views, k, blockHeight, limit, bound)
      decreases bound - blockHeight
    {
      assert |views(k)| <= bound;
      var page := PageOf(views(k), blockHeight, limit);
      if page.None? {
        return state, ReferenceError;
      }
      var blocks := page.value;
      if blocks == [] {
        return state, Done;
      }
      var ok;
      state, ok := MapPage(state, mapFunction, blocks);
      if !ok {
        return state, Refused;
      }
      blockHeight, k := blockHeight + limit, k + 1;
    }
  }

  method MapOverBlocks<S>(views: Views, lastBlockHeight: nat, start: S, mapFunction: (S, Block) -> (S, bool),
                          limit: nat, ghost bound: nat)
    returns (state: S, outcome: MapOutcome)
    requires Bounded(views, bound)
    ensures var scrollLimit := if limit == 0 then 5000 else limit;
            (state, outcome) == Mapped(mapFunction, start, Visited(views, 0, lastBlockHeight, scrollLimit, bound))
  {
    var scrollLimit := if limit == 0 then DEFAULT_SCROLL_LIMIT else limit;
    MapFromIsMapped(mapFunction, start, views, 0, lastBlockHeight, scrollLimit, bound);
    state, outcome := MapPages(views, lastBlockHeight, start, mapFunction, scrollLimit, bound);
  }
}

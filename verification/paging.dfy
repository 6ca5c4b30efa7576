/** Streaming a partition page by page through the repository's continuation-token paging. */
module Paging {
  import opened Wrappers
  import opened EventModel

  /** One page from the repository: its items and the continuation token (`None` on the last page). */
  datatype Page = Page(items: seq<EventItem>, continuation: Option<string>)

  /** The repository's `PageAsync(predicate, pageSize, continuationToken)`. */
  type PageFetch = (EventItem -> bool, int, Option<string>) -> Page

  /**
   * Following continuations from `token`, a page without a continuation is reached
   * within `fuel` fetches: the assumption that the repository's paging ends.
   */
  predicate EndsWithin(fetch: PageFetch, filter: EventItem -> bool, pageSize: int, token: Option<string>, fuel: nat)
    decreases fuel
  {
    fuel > 0 &&
    (fetch(filter, pageSize, token).continuation.None? ||
     EndsWithin(fetch, filter, pageSize, fetch(filter, pageSize, token).continuation, fuel - 1))
  }

  /**
   * What a paging loop yields from `token` on: the page's items, then, if the page has
   * a continuation, what it yields from that continuation.
   */
  function StreamFrom(fetch: PageFetch, filter: EventItem -> bool, pageSize: int, token: Option<string>, fuel: nat): seq<EventItem>
    requires EndsWithin(fetch, filter, pageSize, token, fuel)
    decreases fuel
  {
    var page := fetch(filter, pageSize, token);
    page.items +
      if page.continuation.None? then [] else StreamFrom(fetch, filter, pageSize, page.continuation, fuel - 1)
  }

  /** The tokens a paging loop fetches with from `token` on. */
  function FetchTokens(fetch: PageFetch, filter: EventItem -> bool, pageSize: int, token: Option<string>, fuel: nat): seq<Option<string>>
    requires EndsWithin(fetch, filter, pageSize, token, fuel)
    decreases fuel
  {
    var page := fetch(filter, pageSize, token);
    [token] +
      if page.continuation.None? then [] else FetchTokens(fetch, filter, pageSize, page.continuation, fuel - 1)
  }

  /**
   * One step of the paging loop, for its output: when the `done` items followed by what
   * is left from `token` make the whole stream, so do the `done` items and the fetched
   * page's items followed by what is left from its continuation.
   */
  lemma StreamStep(fetch: PageFetch, filter: EventItem -> bool, pageSize: int, token: Option<string>, fuel: nat,
                   done: seq<EventItem>, whole: seq<EventItem>)
    requires EndsWithin(fetch, filter, pageSize, token, fuel)
    requires done + StreamFrom(fetch, filter, pageSize, token, fuel) == whole
    ensures var page := fetch(filter, pageSize, token);
            fuel > 0 &&
            (page.continuation.None? ==> done + page.items == whole) &&
            (page.continuation.Some? ==>
               EndsWithin(fetch, filter, pageSize, page.continuation, fuel - 1) &&
               (done + page.items) + StreamFrom(fetch, filter, pageSize, page.continuation, fuel - 1) == whole)
  {
  }

  /** One step of the paging loop, for the tokens it fetches with (as StreamStep is for its output). */
  lemma TokenStep(fetch: PageFetch, filter: EventItem -> bool, pageSize: int, token: Option<string>, fuel: nat,
                  used: seq<Option<string>>, allTokens: seq<Option<string>>)
    requires EndsWithin(fetch, filter, pageSize, token, fuel)
    requires used + FetchTokens(fetch, filter, pageSize, token, fuel) == allTokens
    ensures var page := fetch(filter, pageSize, token);
            (page.continuation.None? ==> used + [token] == allTokens) &&
            (page.continuation.Some? ==>
               (used + [token]) + FetchTokens(fetch, filter, pageSize, page.continuation, fuel - 1) == allTokens)
  {
  }

  /** The items of the pages fetched with `tokens`, page by page. */
  function PageItems(fetch: PageFetch, filter: EventItem -> bool, pageSize: int, tokens: seq<Option<string>>): (r: seq<seq<EventItem>>)
    ensures |r| == |tokens|
    ensures forall k :: 0 <= k < |tokens| ==> r[k] == fetch(filter, pageSize, tokens[k]).items
  {
    seq(|tokens|, k requires 0 <= k < |tokens| => fetch(filter, pageSize, tokens[k]).items)
  }

  /**
   * `tokens` is the sequence of tokens of a do-while paging loop started at `start`:
   * each later token is the previous page's continuation, and only the last page has
   * no continuation.
   */
  predicate FetchTraceFrom(fetch: PageFetch, filter: EventItem -> bool, pageSize: int, start: Option<string>, tokens: seq<Option<string>>) {
    |tokens| >= 1 && tokens[0] == start &&
    (forall k :: 0 <= k < |tokens| - 1 ==>
       fetch(filter, pageSize, tokens[k]).continuation.Some? &&
       tokens[k + 1] == fetch(filter, pageSize, tokens[k]).continuation) &&
    fetch(filter, pageSize, tokens[|tokens| - 1]).continuation.None?
  }

  /** The trace of a paging loop started, as StreamAsync starts it, from a null token. */
  predicate FetchTrace(fetch: PageFetch, filter: EventItem -> bool, pageSize: int, tokens: seq<Option<string>>) {
    FetchTraceFrom(fetch, filter, pageSize, None, tokens)
  }

  /** The tokens FetchTokens lists form a trace from `token`, of at most `fuel` fetches. */
  lemma {:induction false} FetchTokensTrace(fetch: PageFetch, filter: EventItem -> bool, pageSize: int, token: Option<string>, fuel: nat)
    requires EndsWithin(fetch, filter, pageSize, token, fuel)
    ensures FetchTraceFrom(fetch, filter, pageSize, token, FetchTokens(fetch, filter, pageSize, token, fuel))
    ensures |FetchTokens(fetch, filter, pageSize, token, fuel)| <= fuel
    decreases fuel
  {
    var next := fetch(filter, pageSize, token).continuation;
    if next.Some? {
      FetchTokensTrace(fetch, filter, pageSize, next, fuel - 1);
      var rest := FetchTokens(fetch, filter, pageSize, next, fuel - 1);
      var tokens := FetchTokens(fetch, filter, pageSize, token, fuel);
      assert tokens == [token] + rest;
      assert forall k :: 1 <= k < |tokens| ==> tokens[k] == rest[k - 1];
    }
  }

  /** Flattening a sequence of pages that starts with `p` yields `p`'s items first. */
  lemma {:induction false} FlattenCons(p: seq<EventItem>, ps: seq<seq<EventItem>>)
    ensures Flatten([p] + ps) == p + Flatten(ps)
    decreases |ps|
  {
    if ps != [] {
      var init := ps[..|ps| - 1];
      assert ([p] + ps)[..|ps|] == [p] + init;
      FlattenCons(p, init);
    } else {
      assert Flatten([p]) == Flatten([]) + p;
    }
  }

  /** What the loop yields is the concatenation, in fetch order, of the items of the pages it fetches. */
  lemma {:induction false} StreamFromPages(fetch: PageFetch, filter: EventItem -> bool, pageSize: int, token: Option<string>, fuel: nat)
    requires EndsWithin(fetch, filter, pageSize, token, fuel)
    ensures StreamFrom(fetch, filter, pageSize, token, fuel) ==
              Flatten(PageItems(fetch, filter, pageSize, FetchTokens(fetch, filter, pageSize, token, fuel)))
    decreases fuel
  {
    var page := fetch(filter, pageSize, token);
    if page.continuation.None? {
      PageItemsCons(fetch, filter, pageSize, token, []);
      FlattenCons(page.items, []);
    } else {
      var rest := FetchTokens(fetch, filter, pageSize, page.continuation, fuel - 1);
      StreamFromPages(fetch, filter, pageSize, page.continuation, fuel - 1);
      PageItemsCons(fetch, filter, pageSize, token, rest);
      FlattenCons(page.items, PageItems(fetch, filter, pageSize, rest));
    }
  }

  /** The pages fetched with a token list that starts with `token` start with the page fetched with `token`. */
  lemma PageItemsCons(fetch: PageFetch, filter: EventItem -> bool, pageSize: int, token: Option<string>, rest: seq<Option<string>>)
    ensures PageItems(fetch, filter, pageSize, [token] + rest) ==
              [fetch(filter, pageSize, token).items] + PageItems(fetch, filter, pageSize, rest)
  {
  }

  /** Two loops that page the same source fetch with the same tokens: the trace is determined by the source. */
  lemma {:induction false} FetchTraceUnique(fetch: PageFetch, filter: EventItem -> bool, pageSize: int,
                                            s: seq<Option<string>>, t: seq<Option<string>>)
    requires FetchTrace(fetch, filter, pageSize, s) && FetchTrace(fetch, filter, pageSize, t)
    ensures s == t
  {
    var k := 0;
    while k < |s| - 1 && k < |t| - 1
      invariant 0 <= k < |s| && k < |t|
      invariant s[..k + 1] == t[..k + 1]
    {
      assert s[k] == s[..k + 1][k] == t[..k + 1][k] == t[k];
      assert s[k + 1] == t[k + 1];
      assert s[..k + 2] == s[..k + 1] + [s[k + 1]] && t[..k + 2] == t[..k + 1] + [t[k + 1]];
      k := k + 1;
    }
    assert s[k] == s[..k + 1][k] == t[..k + 1][k] == t[k];
    assert s == s[..k + 1] && t == t[..k + 1];
  }
}

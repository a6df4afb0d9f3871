/**
  getAllPlaylistItems: page through a playlist, threading `nextPageToken` from each
  response into the next request and concatenating the pages' items.

  The source loop has no bound of its own. Its meaning is given here by `Drain`,
  the loop unrolled at most `fuel` times, and the loop runs only on a playlist whose
  page chain ends (`Terminates`): some fuel suffices, and then every larger fuel
  gives the same answer.
 */
module Pagination {
  import opened Wrappers
  import opened YouTubeTypes
  import opened ApiErrors
  import opened Lookups

  type Page = Listing<PlaylistItem>

  /** One playlistItems request for `playlistId`, with `pageToken` when there is one. */
  function ReadPage(server: PlaylistItemsEndpoint, playlistId: string, pageToken: Option<string>): Result<Page, Thrown>
  {
    ReadListing(server(playlistId, pageToken), PlaylistItemsFailed)
  }

  /** Puts `items` in front of the outcome of the remaining pages. */
  function Prepend(items: seq<PlaylistItem>, rest: Option<Result<seq<PlaylistItem>, Thrown>>): Option<Result<seq<PlaylistItem>, Thrown>>
  {
    match rest
    case None => None
    case Some(Failure(e)) => Some(Failure(e))
    case Some(Success(more)) => Some(Success(items + more))
  }

  /**
    The do-while loop starting with request token `pageToken`, unrolled at most
    `fuel` times: None when the fuel runs out before the loop ends.
   */
  function Drain(server: PlaylistItemsEndpoint, playlistId: string, pageToken: Option<string>, fuel: nat)
    : Option<Result<seq<PlaylistItem>, Thrown>>
    decreases fuel
  {
    if fuel == 0 then None
    else match ReadPage(server, playlistId, pageToken)
      case Failure(e) => Some(Failure(e))
      case Success(page) =>
        if !Truthy(page.nextPageToken) then Some(Success(page.items))
        else Prepend(page.items, Drain(server, playlistId, page.nextPageToken, fuel - 1))
  }

  /** More fuel changes nothing once the loop has ended. */
  lemma {:induction false} DrainMonotone(server: PlaylistItemsEndpoint, playlistId: string, pageToken: Option<string>, fuel: nat, more: nat)
    requires Drain(server, playlistId, pageToken, fuel).Some? && fuel <= more
    ensures Drain(server, playlistId, pageToken, more) == Drain(server, playlistId, pageToken, fuel)
    decreases fuel
  {
    match ReadPage(server, playlistId, pageToken)
    case Failure(_) =>
    case Success(page) =>
      if Truthy(page.nextPageToken) {
        DrainMonotone(server, playlistId, page.nextPageToken, fuel - 1, more - 1);
      }
  }

  /** The page chain of `playlistId` ends: some number of requests completes the loop. */
  ghost predicate Terminates(server: PlaylistItemsEndpoint, playlistId: string)
  {
    exists fuel: nat :: Drain(server, playlistId, None, fuel).Some?
  }

  /** What getAllPlaylistItems resolves to, or throws, on a playlist whose chain ends. */
  ghost function AllPlaylistItems(server: PlaylistItemsEndpoint, playlistId: string): Result<seq<PlaylistItem>, Thrown>
    requires Terminates(server, playlistId)
  {
    var fuel: nat :| Drain(server, playlistId, None, fuel).Some?;
    Drain(server, playlistId, None, fuel).value
  }

  /** Any fuel that completes the loop gives AllPlaylistItems. */
  lemma AllPlaylistItemsByFuel(server: PlaylistItemsEndpoint, playlistId: string, fuel: nat)
    requires Drain(server, playlistId, None, fuel).Some?
    ensures Terminates(server, playlistId)
    ensures AllPlaylistItems(server, playlistId) == Drain(server, playlistId, None, fuel).value
  {
    forall other: nat | Drain(server, playlistId, None, other).Some?
      ensures Drain(server, playlistId, None, other) == Drain(server, playlistId, None, fuel)
    {
      if other <= fuel {
        DrainMonotone(server, playlistId, None, other, fuel);
      } else {
        DrainMonotone(server, playlistId, None, fuel, other);
      }
    }
  }

  /** Nothing in front changes nothing. */
  lemma PrependNothing(rest: Option<Result<seq<PlaylistItem>, Thrown>>)
    ensures Prepend([], rest) == rest
  {
    if rest.Some? && rest.value.Success? {
      assert [] + rest.value.value == rest.value.value;
    }
  }

  /** Prepending twice prepends the concatenation. */
  lemma PrependTwice(a: seq<PlaylistItem>, b: seq<PlaylistItem>, rest: Option<Result<seq<PlaylistItem>, Thrown>>)
    ensures Prepend(a, Prepend(b, rest)) == Prepend(a + b, rest)
  {
    if rest.Some? && rest.value.Success? {
      assert a + (b + rest.value.value) == (a + b) + rest.value.value;
    }
  }

  /** The token request `k` of a chain starting with `first` carries. */
  function RequestToken(first: Option<string>, pages: seq<Page>, k: nat): Option<string>
    requires k <= |pages|
  {
    if k == 0 then first else pages[k - 1].nextPageToken
  }

  /** Request `k` (first with `first`, then each with the previous page's token) returned `pages[k]`. */
  ghost predicate Received(server: PlaylistItemsEndpoint, playlistId: string, first: Option<string>, pages: seq<Page>)
  {
    forall k :: 0 <= k < |pages| ==> ReadPage(server, playlistId, RequestToken(first, pages, k)) == Success(pages[k])
  }

  /** Every page of `pages` carries a truthy continuation token. */
  ghost predicate Continue(pages: seq<Page>)
  {
    forall k :: 0 <= k < |pages| ==> Truthy(pages[k].nextPageToken)
  }

  /** A complete run: pages received in order, each but the last continuing, the last ending the loop. */
  ghost predicate CompleteChain(server: PlaylistItemsEndpoint, playlistId: string, first: Option<string>, pages: seq<Page>)
  {
    && |pages| >= 1
    && Received(server, playlistId, first, pages)
    && Continue(pages[..|pages| - 1])
    && !Truthy(pages[|pages| - 1].nextPageToken)
  }

  /** A failed run: pages received in order, all continuing, then a request that throws `e`. */
  ghost predicate FailedChain(server: PlaylistItemsEndpoint, playlistId: string, first: Option<string>, pages: seq<Page>, e: Thrown)
  {
    && Received(server, playlistId, first, pages)
    && Continue(pages)
    && ReadPage(server, playlistId, RequestToken(first, pages, |pages|)) == Failure(e)
  }

  /** The items of `pages`, page after page. */
  function Concat(pages: seq<Page>): seq<PlaylistItem>
  {
    if pages == [] then [] else pages[0].items + Concat(pages[1..])
  }

  /** The number of items over all of `pages`. */
  function TotalSize(pages: seq<Page>): nat
  {
    if pages == [] then 0 else |pages[0].items| + TotalSize(pages[1..])
  }

  /** A chain extended at the front by the page its first request returned. */
  lemma ReceivedCons(server: PlaylistItemsEndpoint, playlistId: string, first: Option<string>, page: Page, pages: seq<Page>)
    requires ReadPage(server, playlistId, first) == Success(page)
    requires Received(server, playlistId, page.nextPageToken, pages)
    ensures Received(server, playlistId, first, [page] + pages)
  {
  }

  /** The run Drain performs, as a chain of received pages. */
  lemma {:induction false} DrainChain(server: PlaylistItemsEndpoint, playlistId: string, first: Option<string>, fuel: nat)
    returns (pages: seq<Page>)
    requires Drain(server, playlistId, first, fuel).Some?
    ensures Drain(server, playlistId, first, fuel).value.Success? ==>
              CompleteChain(server, playlistId, first, pages) && Concat(pages) == Drain(server, playlistId, first, fuel).value.value
    ensures Drain(server, playlistId, first, fuel).value.Failure? ==>
              FailedChain(server, playlistId, first, pages, Drain(server, playlistId, first, fuel).value.error)
    decreases fuel
  {
    match ReadPage(server, playlistId, first)
    case Failure(e) =>
      assert Drain(server, playlistId, first, fuel) == Some(Failure(e));
      pages := [];
    case Success(page) =>
      if !Truthy(page.nextPageToken) {
        assert Drain(server, playlistId, first, fuel) == Some(Success(page.items));
        pages := [page];
        assert Concat(pages) == page.items + Concat([]);
      } else {
        assert Drain(server, playlistId, first, fuel) == Prepend(page.items, Drain(server, playlistId, page.nextPageToken, fuel - 1));
        var rest := DrainChain(server, playlistId, page.nextPageToken, fuel - 1);
        ReceivedCons(server, playlistId, first, page, rest);
        pages := [page] + rest;
        assert pages[1..] == rest;
        assert RequestToken(first, pages, |pages|) == RequestToken(page.nextPageToken, rest, |rest|);
        if rest != [] {
          assert pages[..|pages| - 1] == [page] + rest[..|rest| - 1];
        }
      }
  }

  /** A complete chain is what Drain computes, given one unit of fuel per page. */
  lemma {:induction false} CompleteChainDrains(server: PlaylistItemsEndpoint, playlistId: string, first: Option<string>, pages: seq<Page>)
    requires CompleteChain(server, playlistId, first, pages)
    ensures Drain(server, playlistId, first, |pages|) == Some(Success(Concat(pages)))
    decreases |pages|
  {
    assert ReadPage(server, playlistId, RequestToken(first, pages, 0)) == Success(pages[0]);
    if |pages| == 1 {
      assert !Truthy(pages[0].nextPageToken);
      assert Concat(pages) == pages[0].items + Concat(pages[1..]);
      assert pages[1..] == [];
      assert Concat(pages) == pages[0].items;
    } else {
      var rest := pages[1..];
      assert Truthy(pages[..|pages| - 1][0].nextPageToken);
      forall k | 0 <= k < |rest|
        ensures ReadPage(server, playlistId, RequestToken(pages[0].nextPageToken, rest, k)) == Success(rest[k])
      {
        assert RequestToken(pages[0].nextPageToken, rest, k) == RequestToken(first, pages, k + 1);
      }
      assert rest[..|rest| - 1] == pages[..|pages| - 1][1..];
      CompleteChainDrains(server, playlistId, pages[0].nextPageToken, rest);
      assert |rest| == |pages| - 1;
      assert Concat(pages) == pages[0].items + Concat(rest);
    }
  }

  /** A failed chain is what Drain computes, given one unit of fuel per request. */
  lemma {:induction false} FailedChainDrains(server: PlaylistItemsEndpoint, playlistId: string, first: Option<string>, pages: seq<Page>, e: Thrown)
    requires FailedChain(server, playlistId, first, pages, e)
    ensures Drain(server, playlistId, first, |pages| + 1) == Some(Failure(e))
    decreases |pages|
  {
    if pages != [] {
      var rest := pages[1..];
      assert ReadPage(server, playlistId, RequestToken(first, pages, 0)) == Success(pages[0]);
      assert Truthy(pages[0].nextPageToken);
      forall k | 0 <= k < |rest|
        ensures ReadPage(server, playlistId, RequestToken(pages[0].nextPageToken, rest, k)) == Success(rest[k])
      {
        assert RequestToken(pages[0].nextPageToken, rest, k) == RequestToken(first, pages, k + 1);
      }
      assert RequestToken(pages[0].nextPageToken, rest, |rest|) == RequestToken(first, pages, |pages|);
      FailedChainDrains(server, playlistId, pages[0].nextPageToken, rest, e);
    }
  }

  /**
    getAllPlaylistItems resolves to `items` exactly when some complete run of
    requests, the first without a page token and each later one with the previous
    response's token, ends on a falsy token and has `items` as its pages' items in
    the order received.
   */
  lemma AllPlaylistItemsIsChain(server: PlaylistItemsEndpoint, playlistId: string, items: seq<PlaylistItem>)
    requires Terminates(server, playlistId)
    ensures AllPlaylistItems(server, playlistId) == Success(items) <==>
              exists pages :: CompleteChain(server, playlistId, None, pages) && Concat(pages) == items
  {
    var fuel: nat :| Drain(server, playlistId, None, fuel).Some?;
    AllPlaylistItemsByFuel(server, playlistId, fuel);
    if AllPlaylistItems(server, playlistId) == Success(items) {
      var pages := DrainChain(server, playlistId, None, fuel);
      assert CompleteChain(server, playlistId, None, pages) && Concat(pages) == items;
    }
    if exists pages :: CompleteChain(server, playlistId, None, pages) && Concat(pages) == items {
      var pages :| CompleteChain(server, playlistId, None, pages) && Concat(pages) == items;
      CompleteChainDrains(server, playlistId, None, pages);
      AllPlaylistItemsByFuel(server, playlistId, |pages|);
    }
  }

  /** getAllPlaylistItems throws `e` exactly when a run of continuing pages is followed by a request throwing `e`. */
  lemma AllPlaylistItemsFails(server: PlaylistItemsEndpoint, playlistId: string, e: Thrown)
    requires Terminates(server, playlistId)
    ensures AllPlaylistItems(server, playlistId) == Failure(e) <==>
              exists pages :: FailedChain(server, playlistId, None, pages, e)
  {
    var fuel: nat :| Drain(server, playlistId, None, fuel).Some?;
    AllPlaylistItemsByFuel(server, playlistId, fuel);
    if AllPlaylistItems(server, playlistId) == Failure(e) {
      var pages := DrainChain(server, playlistId, None, fuel);
      assert FailedChain(server, playlistId, None, pages, e);
    }
    if exists pages :: FailedChain(server, playlistId, None, pages, e) {
      var pages :| FailedChain(server, playlistId, None, pages, e);
      FailedChainDrains(server, playlistId, None, pages, e);
      AllPlaylistItemsByFuel(server, playlistId, |pages| + 1);
    }
  }

  /** The accumulated list is as long as all pages together. */
  lemma {:induction false} ConcatSize(pages: seq<Page>)
    ensures |Concat(pages)| == TotalSize(pages)
  {
    if pages != [] {
      ConcatSize(pages[1..]);
    }
  }

  /** Item `i` of page `k` sits right after the items of the pages before it: nothing is dropped, repeated or reordered. */
  lemma {:induction false} ConcatOrder(pages: seq<Page>, k: nat, i: nat)
    requires k < |pages| && i < |pages[k].items|
    ensures TotalSize(pages[..k]) + i < |Concat(pages)|
    ensures Concat(pages)[TotalSize(pages[..k]) + i] == pages[k].items[i]
    decreases k
  {
    ConcatSize(pages);
    ConcatSize(pages[1..]);
    if k > 0 {
      ConcatOrder(pages[1..], k - 1, i);
      assert pages[..k][1..] == pages[1..][..k - 1];
      assert TotalSize(pages[..k]) == |pages[0].items| + TotalSize(pages[1..][..k - 1]);
    } else {
      assert pages[..0] == [];
    }
  }

  /**
    getAllPlaylistItems. The do-while starts without a page token, requests one page
    per pass with the token the previous page returned, appends the page's items,
    and stops at the first falsy token; any failing call ends it with what that call
    throws.
   */
  method GetAllPlaylistItems(server: PlaylistItemsEndpoint, playlistId: string) returns (r: Result<seq<PlaylistItem>, Thrown>)
    requires Terminates(server, playlistId)
    ensures r == AllPlaylistItems(server, playlistId)
    ensures r.Success? ==> exists pages :: CompleteChain(server, playlistId, None, pages) && Concat(pages) == r.value
    ensures r.Failure? ==> exists pages :: FailedChain(server, playlistId, None, pages, r.error)
  {
    ghost var total: nat :| Drain(server, playlistId, None, total).Some?;
    ghost var fuel := total;
    var allItems: seq<PlaylistItem> := [];
    var nextPageToken: Option<string> := None;
    var more := true;
    PrependNothing(Drain(server, playlistId, None, total));
    while more
      invariant more ==> nextPageToken.None? || Truthy(nextPageToken)
      invariant more ==> Drain(server, playlistId, nextPageToken, fuel).Some?
      invariant more ==> Drain(server, playlistId, None, total) == Prepend(allItems, Drain(server, playlistId, nextPageToken, fuel))
      invariant !more ==> Drain(server, playlistId, None, total) == Some(Success(allItems))
      decreases fuel, more
    {
      var pageToken := if Truthy(nextPageToken) then nextPageToken else None;
      var exchange := server(playlistId, pageToken);
      if exchange.Rejected? {
        r := Failure(exchange.reason);
        ChainOutcome(server, playlistId, total, r);
        return;
      }
      var response := exchange.response;
      var failure := HandleApiError(response, PlaylistItemsFailed);
      if failure.Some? {
        r := Failure(ErrorObject(failure.value));
        ChainOutcome(server, playlistId, total, r);
        return;
      }
      if response.body.Unparseable? {
        r := Failure(ErrorObject(response.body.syntaxError));
        ChainOutcome(server, playlistId, total, r);
        return;
      }
      assert ReadPage(server, playlistId, nextPageToken) == Success(Listing(response.body.items, response.body.nextPageToken));
      PrependTwice(allItems, response.body.items, Drain(server, playlistId, response.body.nextPageToken, fuel - 1));
      allItems := allItems + response.body.items;
      nextPageToken := response.body.nextPageToken;
      more := Truthy(nextPageToken);
      fuel := fuel - 1;
    }
    r := Success(allItems);
    ChainOutcome(server, playlistId, total, r);
  }

  /** The facts about a finished loop that GetAllPlaylistItems promises. */
  lemma ChainOutcome(server: PlaylistItemsEndpoint, playlistId: string, total: nat, r: Result<seq<PlaylistItem>, Thrown>)
    requires Drain(server, playlistId, None, total) == Some(r)
    ensures Terminates(server, playlistId) && r == AllPlaylistItems(server, playlistId)
    ensures r.Success? ==> exists pages :: CompleteChain(server, playlistId, None, pages) && Concat(pages) == r.value
    ensures r.Failure? ==> exists pages :: FailedChain(server, playlistId, None, pages, r.error)
  {
    AllPlaylistItemsByFuel(server, playlistId, total);
    var pages := DrainChain(server, playlistId, None, total);
  }
}

/**
 * What `get_content_items` does against a server whose pages link to one another:
 * it requests each page once, in link order, and returns their items concatenated.
 */
module PagingProperties {
  import opened Wrappers
  import opened Json
  import opened HttpClient
  import opened Migrator

  /** One page of a content-item listing: its items and its `nextLink` field (`Null` when absent). */
  datatype Page = Page(items: seq<Value>, nextLink: Value)

  /** `resp` is a success response whose body lists `page.items` and links on to `page.nextLink`. */
  predicate Serves(resp: Response, page: Page)
  {
    && Classify(resp).Parsed?
    && ValueList(Classify(resp).body) == Some(page.items)
    && Get(Classify(resp).body, "nextLink") == Some(page.nextLink)
  }

  /** The page names a further page: its `nextLink` is a non-empty string. */
  predicate LinksOn(page: Page)
  {
    page.nextLink.Str? && page.nextLink.s != ""
  }

  function LinkText(v: Value): string
  {
    if v.Str? then v.s else ""
  }

  function Flatten(pages: seq<Page>): seq<Value>
  {
    if pages == [] then [] else pages[0].items + Flatten(pages[1..])
  }

  lemma {:induction false} FlattenSnoc(pages: seq<Page>, n: nat)
    requires n < |pages|
    ensures Flatten(pages[..n + 1]) == Flatten(pages[..n]) + pages[n].items
  {
    if n > 0 {
      PrefixTail(pages, n + 1);
      PrefixTail(pages, n);
      FlattenSnoc(pages[1..], n - 1);
      assert pages[1..][n - 1] == pages[n];
      AppendAssoc(pages[0].items, Flatten(pages[1..][..n - 1]), pages[n].items);
    } else {
      assert pages[..1][1..] == [];
    }
  }

  /** The URL the k-th request goes to: the first URL, then each page's `nextLink` in turn. */
  function PageUrl(first: string, pages: seq<Page>, k: nat): string
    requires k <= |pages|
  {
    if k == 0 then first else LinkText(pages[k - 1].nextLink)
  }

  /** The GET requests for `pages`, one per page. */
  function PageRequests(baseUrl: string, first: string, pages: seq<Page>): (rs: seq<Request>)
    ensures |rs| == |pages|
    ensures forall k :: 0 <= k < |pages| ==> rs[k] == Request(GET, ResolveUrl(baseUrl, PageUrl(first, pages, k)), None)
  {
    seq(|pages|, k requires 0 <= k < |pages| => Request(GET, ResolveUrl(baseUrl, PageUrl(first, pages, k)), None))
  }

  lemma PageRequestsCons(baseUrl: string, first: string, pages: seq<Page>)
    requires pages != []
    ensures PageRequests(baseUrl, first, pages)
         == [Request(GET, ResolveUrl(baseUrl, first), None)] + PageRequests(baseUrl, LinkText(pages[0].nextLink), pages[1..])
  {
    var l := LinkText(pages[0].nextLink);
    forall k | 1 <= k < |pages|
      ensures PageUrl(first, pages, k) == PageUrl(l, pages[1..], k - 1)
    {
      if k > 1 {
        assert pages[1..][k - 2] == pages[k - 1];
      }
    }
  }

  lemma PageRequestsSnoc(baseUrl: string, first: string, pages: seq<Page>, n: nat)
    requires n < |pages|
    ensures PageRequests(baseUrl, first, pages[..n + 1])
         == PageRequests(baseUrl, first, pages[..n]) + [Request(GET, ResolveUrl(baseUrl, PageUrl(first, pages, n)), None)]
  {
    forall k | 0 <= k <= n
      ensures PageUrl(first, pages[..n + 1], k) == PageUrl(first, pages, k)
    {
    }
    forall k | 0 <= k < n
      ensures PageUrl(first, pages[..n], k) == PageUrl(first, pages, k)
    {
    }
  }

  /** One page served: its items, then whatever the listing yields from its link. */
  lemma PaginateStep(baseUrl: string, net: Network, url: string, page: Page)
    requires url != "" && net.replies != [] && Serves(net.replies[0], page)
    ensures Paginate(baseUrl, net, Str(url))
         == Prepend(page.items, Paginate(baseUrl, Network(net.sent + [Request(GET, ResolveUrl(baseUrl, url), None)], net.replies[1..]), page.nextLink))
  {
  }

  /** The network once the requests for `pages` have been sent and their replies consumed. */
  function After(baseUrl: string, net: Network, first: string, pages: seq<Page>): Network
    requires |pages| <= |net.replies|
  {
    Network(net.sent + PageRequests(baseUrl, first, pages), net.replies[|pages|..])
  }

  /** The network after the first page, then the rest, is the network after all of them. */
  lemma AfterCons(baseUrl: string, net: Network, first: string, pages: seq<Page>)
    requires pages != [] && |pages| <= |net.replies|
    ensures var net1 := Network(net.sent + [Request(GET, ResolveUrl(baseUrl, first), None)], net.replies[1..]);
      && After(baseUrl, net1, LinkText(pages[0].nextLink), pages[1..]) == After(baseUrl, net, first, pages)
      && PageUrl(LinkText(pages[0].nextLink), pages[1..], |pages| - 1) == PageUrl(first, pages, |pages|)
  {
    PageRequestsCons(baseUrl, first, pages);
    if |pages| > 1 {
      assert pages[1..][|pages| - 2] == pages[|pages| - 1];
    }
  }

  /** The network after all of `pages` but the last, then the last. */
  lemma AfterSnoc(baseUrl: string, net: Network, first: string, pages: seq<Page>)
    requires pages != [] && |pages| <= |net.replies|
    ensures var n := |pages| - 1;
            var mid := After(baseUrl, net, first, pages[..n]);
      && mid.replies != [] && mid.replies[0] == net.replies[n]
      && PageUrl(first, pages[..n], n) == PageUrl(first, pages, n)
      && Network(mid.sent + [Request(GET, ResolveUrl(baseUrl, PageUrl(first, pages, n)), None)], mid.replies[1..])
         == After(baseUrl, net, first, pages)
  {
    var n := |pages| - 1;
    PageRequestsSnoc(baseUrl, first, pages, n);
    assert pages[..n + 1] == pages;
  }

  /** Pages served from the second reply on are the tail's pages served from the tail's replies. */
  lemma ServedTail(replies: seq<Response>, pages: seq<Page>)
    requires pages != [] && |pages| <= |replies|
    requires forall k :: 0 <= k < |pages| ==> Serves(replies[k], pages[k]) && LinksOn(pages[k])
    ensures forall k :: 0 <= k < |pages| - 1 ==> Serves(replies[1..][k], pages[1..][k]) && LinksOn(pages[1..][k])
  {
    forall k | 0 <= k < |pages| - 1
      ensures Serves(replies[1..][k], pages[1..][k]) && LinksOn(pages[1..][k])
    {
      assert replies[1..][k] == replies[k + 1];
    }
  }

  /** The URL requested after a run of linking pages is never empty. */
  lemma NextUrlNonEmpty(first: string, pages: seq<Page>, n: nat)
    requires first != "" && n <= |pages|
    requires forall k :: 0 <= k < n ==> LinksOn(pages[k])
    ensures PageUrl(first, pages, n) != ""
  {
    if n > 0 {
      assert LinksOn(pages[n - 1]);
    }
  }

  /**
   * Following `|pages|` pages that each link on: their items come first, then whatever the
   * listing yields from the link of the last of them; one GET per page has been sent.
   */
  lemma {:induction false} PaginateFollowsLinks(baseUrl: string, net: Network, first: string, pages: seq<Page>)
    requires first != ""
    requires |pages| <= |net.replies|
    requires forall k :: 0 <= k < |pages| ==> Serves(net.replies[k], pages[k]) && LinksOn(pages[k])
    decreases |pages|
    ensures Paginate(baseUrl, net, Str(first))
         == Prepend(Flatten(pages), Paginate(baseUrl, After(baseUrl, net, first, pages), Str(PageUrl(first, pages, |pages|))))
  {
    if pages == [] {
      assert net.sent + [] == net.sent;
      assert net.replies[0..] == net.replies;
      PrependNothing(Paginate(baseUrl, net, Str(first)));
    } else {
      var l := LinkText(pages[0].nextLink);
      var net1 := Network(net.sent + [Request(GET, ResolveUrl(baseUrl, first), None)], net.replies[1..]);
      PaginateStep(baseUrl, net, first, pages[0]);
      assert pages[0].nextLink == Str(l);
      ServedTail(net.replies, pages);
      PaginateFollowsLinks(baseUrl, net1, l, pages[1..]);
      AfterCons(baseUrl, net, first, pages);
      PrependTwice(pages[0].items, Flatten(pages[1..]),
                   Paginate(baseUrl, After(baseUrl, net, first, pages), Str(PageUrl(first, pages, |pages|))));
    }
  }

  /**
   * A chain of N pages, each linking to the next and the last linking nowhere: the listing
   * returns all their items in order, after exactly N requests that consumed N replies.
   */
  lemma PaginateChain(baseUrl: string, net: Network, first: string, pages: seq<Page>)
    requires first != "" && pages != [] && |pages| <= |net.replies|
    requires forall k :: 0 <= k < |pages| ==> Serves(net.replies[k], pages[k])
    requires forall k :: 0 <= k < |pages| - 1 ==> LinksOn(pages[k])
    requires !Truthy(pages[|pages| - 1].nextLink)
    ensures Paginate(baseUrl, net, Str(first)) == (Ok(Flatten(pages)), After(baseUrl, net, first, pages))
  {
    var n := |pages| - 1;
    var front := pages[..n];
    PaginateFollowsLinks(baseUrl, net, first, front);
    AfterSnoc(baseUrl, net, first, pages);
    NextUrlNonEmpty(first, pages, n);
    var url := PageUrl(first, pages, n);
    var mid := After(baseUrl, net, first, front);
    var last := After(baseUrl, net, first, pages);
    PaginateStep(baseUrl, mid, url, pages[n]);
    assert Paginate(baseUrl, last, pages[n].nextLink) == (Ok([]), last);
    assert pages[n].items + [] == pages[n].items;
    FlattenSnoc(pages, n);
    assert pages[..n + 1] == pages;
  }

  /** A page answered with an HTTP error ends the listing with that error, after one more request. */
  lemma PaginateHttpErrorStep(baseUrl: string, net: Network, url: string)
    requires url != "" && net.replies != [] && 400 <= net.replies[0].status < 600
    ensures Paginate(baseUrl, net, Str(url))
         == (Err(HttpFailure(net.replies[0].status)),
             Network(net.sent + [Request(GET, ResolveUrl(baseUrl, url), None)], net.replies[1..]))
  {
  }

  /**
   * An HTTP error on any page aborts the whole listing: no items are returned, and the
   * requests sent are those of the pages before it and the one that failed.
   */
  lemma PaginateAbortsOnHttpError(baseUrl: string, net: Network, first: string, pages: seq<Page>)
    requires first != "" && |pages| < |net.replies|
    requires forall k :: 0 <= k < |pages| ==> Serves(net.replies[k], pages[k]) && LinksOn(pages[k])
    requires 400 <= net.replies[|pages|].status < 600
    ensures var mid := After(baseUrl, net, first, pages);
      Paginate(baseUrl, net, Str(first))
      == (Err(HttpFailure(net.replies[|pages|].status)),
          Network(mid.sent + [Request(GET, ResolveUrl(baseUrl, PageUrl(first, pages, |pages|)), None)],
                  net.replies[|pages| + 1..]))
  {
    PaginateFollowsLinks(baseUrl, net, first, pages);
    NextUrlNonEmpty(first, pages, |pages|);
    var mid := After(baseUrl, net, first, pages);
    var url := PageUrl(first, pages, |pages|);
    assert mid.replies[0] == net.replies[|pages|] && mid.replies[1..] == net.replies[|pages| + 1..];
    PaginateHttpErrorStep(baseUrl, mid, url);
  }
}

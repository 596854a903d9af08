/** A worked example of build_tree run a second time on the same crawler:
    the URLs visited by the first run stay visited. */
module CrawlExamples {
  import opened Links
  import opened Crawler

  /** The start page s links only to p, which an earlier run visited; with a
      depth limit of 2, p is not fetched again, so whatever p links to is
      never found and the tree is s alone. */
  lemma RecrawlStopsAtVisited(c: Ctx, s: State)
    requires c.start == "s" && c.maxDepth == 2
    requires |c.links("s")| == 1 && c.links("s")[0].url == "p"
    requires Crawled(c, {"p"}, s) && Wellformed(s)
    ensures s.tree.Keys == {"s"}
  {
    RecrawlOrder(c, s);
    forall u ensures u in s.tree <==> u == "s" {
      assert u in s.order <==> u == "s";
    }
  }

  /** The discovery order of that crawl is the start URL alone. */
  lemma RecrawlOrder(c: Ctx, s: State)
    requires c.start == "s" && c.maxDepth == 2
    requires |c.links("s")| == 1 && c.links("s")[0].url == "p"
    requires Follows(c, {"p"}, s, [])
    ensures s.order == ["s"]
  {
    var visited0 := {"p"};
    var h := Discovery(c, visited0, 0);
    assert h == [Item("s", 0)];
    assert UrlsOf(h) == {"s"} by {
      assert UrlsOf(h) == UrlsOf(h[..0]) + {"s"};
    }
    var links := c.links("s");
    assert links[..0] == [];
    assert NewUrls(links, visited0 + UrlsOf(h)) == [];
    DiscoveryNext(c, visited0, 1);
    assert Discovery(c, visited0, 1) == h;
    DiscoveryStops(c, visited0, 1, |s.order|);
  }

  /** The start page s links to a and then to b; with a depth limit of 1
      the tree lists s, then a, then b, in link order. */
  lemma LinkOrderKept(c: Ctx, s: State)
    requires c.start == "s" && c.maxDepth == 1
    requires |c.links("s")| == 2 && c.links("s")[0].url == "a" && c.links("s")[1].url == "b"
    requires Crawled(c, {}, s)
    ensures s.order == ["s", "a", "b"]
  {
    var none: seq<Item> := [];
    var h := Discovery(c, {}, |s.order| - |none|);
    assert Follows(c, {}, s, none);
    assert Lists(h, s);
    LinkOrderDiscovery(c, |s.order|);
    assert |s.order| == 3;
    assert s.order[0] == h[0].url && s.order[1] == h[1].url && s.order[2] == h[2].url;
  }

  /** The discovery order of that crawl: s alone before its entry is taken
      off, s, a, b ever after. */
  lemma LinkOrderDiscovery(c: Ctx, n: nat)
    requires c.start == "s" && c.maxDepth == 1
    requires |c.links("s")| == 2 && c.links("s")[0].url == "a" && c.links("s")[1].url == "b"
    ensures Discovery(c, {}, n) == if n == 0 then [Item("s", 0)] else [Item("s", 0), Item("a", 1), Item("b", 1)]
  {
    LinkOrderFirst(c);
    LinkOrderStays(c);
    if n >= 3 {
      DiscoveryStops(c, {}, 3, n);
    }
  }

  /** Taking s off finds a and then b. */
  lemma LinkOrderFirst(c: Ctx)
    requires c.start == "s" && c.maxDepth == 1
    requires |c.links("s")| == 2 && c.links("s")[0].url == "a" && c.links("s")[1].url == "b"
    ensures Discovery(c, {}, 0) == [Item("s", 0)]
    ensures Discovery(c, {}, 1) == [Item("s", 0), Item("a", 1), Item("b", 1)]
  {
    var d0 := [Item("s", 0)];
    assert Discovery(c, {}, 0) == d0;
    assert UrlsOf(d0) == {"s"} by {
      assert UrlsOf(d0) == UrlsOf(d0[..0]) + {"s"};
    }
    TwoNew(c.links("s"));
    assert Enqueued(["a", "b"], 1) == [Item("a", 1), Item("b", 1)];
    assert Found(c, {}, d0, 0) == [Item("a", 1), Item("b", 1)];
    DiscoveryNext(c, {}, 1);
  }

  /** The loop over the links to a and b, with only s seen, adds both. */
  lemma TwoNew(links: seq<Link>)
    requires |links| == 2 && links[0].url == "a" && links[1].url == "b"
    ensures NewUrls(links, {"s"}) == ["a", "b"]
  {
    assert links[..1][..0] == [] && links[..|links| - 1] == links[..1];
    assert NewUrls(links[..1], {"s"}) == ["a"];
  }

  /** Taking a and b off, at the depth limit, finds nothing. */
  lemma LinkOrderStays(c: Ctx)
    requires c.maxDepth == 1 && Discovery(c, {}, 1) == [Item("s", 0), Item("a", 1), Item("b", 1)]
    ensures Discovery(c, {}, 2) == Discovery(c, {}, 1) && Discovery(c, {}, 3) == Discovery(c, {}, 1)
  {
    var d1 := Discovery(c, {}, 1);
    DiscoveryNext(c, {}, 2);
    assert Found(c, {}, d1, 1) == [];
    DiscoveryNext(c, {}, 3);
    assert Found(c, {}, d1, 2) == [];
  }
}

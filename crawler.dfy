/** The crawler: a breadth-first walk of one site from a start URL down to
    a maximum depth, recording every page it finds with its classification
    and its links, and the security report over what it found. */
module Crawler {
  import opened Wrappers
  import opened Classifier
  import opened Links
  import opened Report

  /** One tree entry: the page's classification and its links (empty until
      the page is expanded, and for pages at the depth limit). */
  datatype Node = Node(classification: Classification, children: seq<Link>)

  /** A queue entry: a URL waiting to be expanded and its depth. */
  datatype Item = Item(url: string, depth: nat)

  /** What one crawl is run with: the links get_links returns for each
      page, the classification classify_url gives each URL, the start URL
      and the depth limit. */
  datatype Ctx = Ctx(
    links: string -> seq<Link>,
    classify: string -> Classification,
    start: string,
    maxDepth: int)

  /** The crawl's classifications are classify_url's, and its links are
      those get_links finds with them on the start URL's network
      location. */
  ghost predicate Faithful(c: Ctx, web: Web) {
    Classifies(web, c.classify)
    && forall u {:trigger LinksWith(web, c.classify, u, web.parse(c.start).netloc)} ::
         c.links(u) == LinksWith(web, c.classify, u, web.parse(c.start).netloc)
  }

  /** The crawl build_tree runs from startUrl on the web.  The crawl is
      picked as any context with the start, the limit and Faithful, not
      returned as the candidate itself: the proofs about the loop then see
      the crawl's links and classifications as plain function values, and
      only FaithfulLinks relates them to get_links and classify_url. */
  ghost function CrawlOf(web: Web, startUrl: string, maxDepth: int): (c: Ctx)
    ensures c.start == startUrl && c.maxDepth == maxDepth && Faithful(c, web)
  {
    var baseDomain := web.parse(startUrl).netloc;
    var candidate := Ctx(u => LinksOf(web, u, baseDomain), ClassifierOf(web), startUrl, maxDepth);
    assert Faithful(candidate, web);
    var crawl: Ctx :| crawl.start == startUrl && crawl.maxDepth == maxDepth && Faithful(crawl, web);
    crawl
  }

  /** A faithful crawl's links and classifications are get_links's and
      classify_url's. */
  lemma FaithfulLinks(c: Ctx, web: Web, u: string)
    requires Faithful(c, web)
    ensures c.classify(u) == ClassifyUrl(web, u)
    ensures c.links(u) == LinksOf(web, u, web.parse(c.start).netloc)
  {
    var baseDomain := web.parse(c.start).netloc;
    assert c.links(u) == LinksWith(web, c.classify, u, baseDomain);
    forall v ensures c.classify(v) == ClassifierOf(web)(v) {
      assert c.classify(v) == ClassifyUrl(web, v);
    }
    LinksWithAgree(web, c.classify, ClassifierOf(web), u, baseDomain);
  }

  /** The crawler's fields as values, with the depth each tree key was
      found at. */
  datatype State = State(visited: set<string>, tree: map<string, Node>, order: seq<string>, depth: map<string, nat>)

  predicate Distinct(s: seq<string>) {
    forall i, j :: 0 <= i < j < |s| ==> s[i] != s[j]
  }

  function Elems(s: seq<string>): set<string> {
    set x | x in s
  }

  /** The deepest level a crawl expands into: pages found there are
      recorded but not fetched. */
  function Bound(c: Ctx): nat {
    if c.maxDepth > 0 then c.maxDepth else 0
  }

  // ---------------------------------------------------------------------
  // Reachability
  // ---------------------------------------------------------------------

  /** The URLs the links of the pages in `pages` lead to. */
  ghost function Step(c: Ctx, pages: set<string>): set<string> {
    set u, l | u in pages && l in c.links(u) :: l.url
  }

  /** The URLs at most k links away from the start URL. */
  ghost function Level(c: Ctx, k: nat): set<string> {
    if k == 0 then {c.start} else Level(c, k - 1) + Step(c, Level(c, k - 1))
  }

  lemma {:induction false} LevelMono(c: Ctx, i: nat, j: nat)
    requires i <= j
    ensures Level(c, i) <= Level(c, j)
    decreases j - i
  {
    if i < j {
      LevelMono(c, i, j - 1);
    }
  }

  /** A link of a page within k links of the start leads to a page within
      k + 1. */
  lemma LevelStep(c: Ctx, k: nat, u: string, l: Link)
    requires u in Level(c, k) && l in c.links(u)
    ensures l.url in Level(c, k + 1)
  {
    assert l.url in Step(c, Level(c, k));
  }

  // ---------------------------------------------------------------------
  // The loop over one page's links
  // ---------------------------------------------------------------------

  /** The URLs of the links, in order, that are neither in `seen` nor the
      URL of an earlier link: the ones the loop over a page's links adds. */
  function NewUrls(links: seq<Link>, seen: set<string>): seq<string> {
    if links == [] then []
    else
      var prev := NewUrls(links[..|links| - 1], seen);
      var u := links[|links| - 1].url;
      if u in seen || u in prev then prev else prev + [u]
  }

  /** The added URLs are fresh, pairwise distinct link URLs, and after the
      loop every link URL has been seen. */
  lemma {:induction false} NewUrlsFresh(links: seq<Link>, seen: set<string>)
    ensures Distinct(NewUrls(links, seen))
    ensures forall u :: u in NewUrls(links, seen) ==> u !in seen && exists l :: l in links && l.url == u
    ensures forall l :: l in links ==> l.url in seen || l.url in NewUrls(links, seen)
    decreases |links|
  {
    if links != [] {
      var init := links[..|links| - 1];
      NewUrlsFresh(init, seen);
      assert forall l :: l in init ==> l in links;
      assert forall l :: l in links ==> l in init || l == links[|links| - 1];
    }
  }

  /** Queue entries for the URLs, all at one depth. */
  function Enqueued(urls: seq<string>, depth: nat): (r: seq<Item>)
    ensures |r| == |urls|
    ensures forall i :: 0 <= i < |urls| ==> r[i] == Item(urls[i], depth)
  {
    if urls == [] then [] else Enqueued(urls[..|urls| - 1], depth) + [Item(urls[|urls| - 1], depth)]
  }

  /** How the loop over a page's links changes the crawler's fields: each
      new URL is appended to the insertion order, marked visited and given
      a childless node with its classification, one level deeper; nothing
      else changes. */
  ghost predicate Added(c: Ctx, s0: State, s1: State, links: seq<Link>, childDepth: nat) {
    var added := NewUrls(links, s0.visited);
    s1.order == s0.order + added
    && s1.visited == s0.visited + Elems(added)
    && (forall u :: u in s1.tree <==> u in s0.tree || u in added)
    && (forall u :: u in s1.depth <==> u in s0.depth || u in added)
    && (forall u :: u in s0.tree ==> s1.tree[u] == s0.tree[u])
    && (forall u :: u in s0.depth ==> s1.depth[u] == s0.depth[u])
    && (forall u :: u in added ==> s1.tree[u] == Node(c.classify(u), []) && s1.depth[u] == childDepth)
  }

  /** One turn of the loop over a page's links: a link to a URL not yet
      visited is recorded; any other link changes nothing. */
  function Visit(s: State, l: Link, childDepth: nat): State {
    if l.url in s.visited then s
    else State(s.visited + {l.url}, s.tree[l.url := Node(l.classification, [])], s.order + [l.url], s.depth[l.url := childDepth])
  }

  /** The queue after one link of a page: the link's URL is queued one
      level down unless it was visited. */
  function QueueVisit(s: State, l: Link, childDepth: nat, queue: seq<Item>): seq<Item> {
    if l.url in s.visited then queue else queue + [Item(l.url, childDepth)]
  }

  /** Each turn of the loop over a page's links extends Added by one
      link. */
  lemma AddedStep(c: Ctx, s0: State, s: State, links: seq<Link>, i: nat, childDepth: nat)
    requires i < |links| && s0.tree.Keys <= s0.visited && s0.depth.Keys <= s0.visited
    requires links[i].classification == c.classify(links[i].url)
    requires Added(c, s0, s, links[..i], childDepth)
    ensures Added(c, s0, Visit(s, links[i], childDepth), links[..i + 1], childDepth)
  {
    assert links[..i + 1][..i] == links[..i];
    var prev := NewUrls(links[..i], s0.visited);
    var u := links[i].url;
    assert u in s.visited <==> u in s0.visited || u in prev;
  }

  /** ... and queues the link's URL exactly when it is recorded. */
  lemma QueuedStep(s0: State, s: State, links: seq<Link>, i: nat, childDepth: nat, queue: seq<Item>, queue': seq<Item>)
    requires i < |links|
    requires s.visited == s0.visited + Elems(NewUrls(links[..i], s0.visited))
    requires queue' == queue + Enqueued(NewUrls(links[..i], s0.visited), childDepth)
    ensures QueueVisit(s, links[i], childDepth, queue') == queue + Enqueued(NewUrls(links[..i + 1], s0.visited), childDepth)
  {
    assert links[..i + 1][..i] == links[..i];
    var prev := NewUrls(links[..i], s0.visited);
    var u := links[i].url;
    if u !in s.visited {
      assert NewUrls(links[..i + 1], s0.visited) == prev + [u];
      assert Enqueued(prev + [u], childDepth) == Enqueued(prev, childDepth) + [Item(u, childDepth)] by {
        assert (prev + [u])[..|prev|] == prev;
      }
    }
  }

  // ---------------------------------------------------------------------
  // The invariant of the breadth-first loop
  // ---------------------------------------------------------------------

  /** The tree's keys: listed once each in insertion order, starting with
      the start URL at depth 0, all visited, and, the start URL aside, new
      to this crawl. */
  ghost predicate Keys(c: Ctx, visited0: set<string>, s: State) {
    Distinct(s.order)
    && (forall u :: u in s.tree <==> u in s.order)
    && (forall u :: u in s.depth <==> u in s.tree)
    && |s.order| > 0 && s.order[0] == c.start && s.depth[c.start] == 0
    && s.visited == visited0 + s.tree.Keys
    && (forall u :: u in s.tree && u != c.start ==> u !in visited0)
  }

  /** Every node carries classify_url's classification of its URL. */
  ghost predicate Classified(c: Ctx, s: State) {
    forall u :: u in s.tree ==> s.tree[u].classification == c.classify(u)
  }

  /** Every key is within its depth of the start, and no deeper than the
      depth limit. */
  ghost predicate Reached(c: Ctx, s: State) {
    forall u :: u in s.tree && u in s.depth ==> s.depth[u] <= Bound(c) && u in Level(c, s.depth[u])
  }

  /** Keys are inserted in order of depth. */
  ghost predicate Sorted(s: State) {
    forall i, j :: 0 <= i < j < |s.order| && s.order[i] in s.depth && s.order[j] in s.depth ==>
      s.depth[s.order[i]] <= s.depth[s.order[j]]
  }

  /** The queue is the tail of the insertion order, each entry with its
      key's depth. */
  ghost predicate Tail(s: State, queue: seq<Item>) {
    |queue| <= |s.order|
    && forall k :: 0 <= k < |queue| ==>
         queue[k].url == s.order[|s.order| - |queue| + k]
         && queue[k].url in s.depth && queue[k].depth == s.depth[queue[k].url]
  }

  /** The last key inserted is at most one level below the queue's head. */
  ghost predicate Span(s: State, queue: seq<Item>) {
    queue != [] ==>
      |s.order| > 0 && s.order[|s.order| - 1] in s.depth
      && s.depth[s.order[|s.order| - 1]] <= queue[0].depth + 1
  }

  /** A node whose children are the links get_links returns for it when it
      is above the depth limit, and none otherwise. */
  ghost predicate Expanded(c: Ctx, s: State, u: string) {
    u in s.tree && u in s.depth
    && s.tree[u].children == (if s.depth[u] < c.maxDepth then c.links(u) else [])
  }

  /** Every child of the node has been visited, and a child in the tree is
      at most one level below it. */
  ghost predicate Closed(s: State, u: string) {
    u in s.tree && u in s.depth
    && forall l :: l in s.tree[u].children ==>
         l.url in s.visited && (l.url in s.tree ==> l.url in s.depth && s.depth[l.url] <= s.depth[u] + 1)
  }

  /** The first n keys have been taken off the queue: expanded and
      closed. */
  ghost predicate Done(c: Ctx, s: State, n: int) {
    forall k :: 0 <= k < n && k < |s.order| ==> Expanded(c, s, s.order[k]) && Closed(s, s.order[k])
  }

  /** The keys from n on are still waiting in the queue, childless. */
  ghost predicate Pending(s: State, n: int) {
    forall k :: 0 <= n <= k < |s.order| ==> s.order[k] in s.tree && s.tree[s.order[k]].children == []
  }

  /** Every key of the tree is within the depth limit of the start. */
  lemma KeysReachable(c: Ctx, s: State)
    requires forall u :: u in s.tree ==> u in s.depth
    requires Reached(c, s)
    ensures s.tree.Keys <= Level(c, Bound(c))
  {
    forall u | u in s.tree
      ensures u in Level(c, Bound(c))
    {
      LevelMono(c, s.depth[u], Bound(c));
    }
  }

  // ---------------------------------------------------------------------
  // One turn of the breadth-first loop
  // ---------------------------------------------------------------------

  /** Taking the head off the queue keeps the queue the tail of the
      insertion order. */
  lemma SkipQueue(s: State, queue: seq<Item>)
    requires Tail(s, queue) && Span(s, queue) && Sorted(s) && queue != []
    ensures Tail(s, queue[1..]) && Span(s, queue[1..])
  {
    var rest := queue[1..];
    forall k | 0 <= k < |rest|
      ensures rest[k].url == s.order[|s.order| - |rest| + k]
    {
      assert rest[k] == queue[k + 1];
    }
    if rest != [] {
      var p := |s.order| - |queue|;
      assert queue[0].url == s.order[p] && queue[1].url == s.order[p + 1];
    }
  }

  /** A queue entry at the depth limit is dropped unexpanded: its node is
      already childless, as an expanded node at that depth must be. */
  lemma SkipDone(c: Ctx, s: State, queue: seq<Item>)
    requires Tail(s, queue) && queue != [] && queue[0].depth >= c.maxDepth
    requires Done(c, s, |s.order| - |queue|) && Pending(s, |s.order| - |queue|)
    ensures Done(c, s, |s.order| - |queue| + 1) && Pending(s, |s.order| - |queue| + 1)
  {
    var p := |s.order| - |queue|;
    assert s.order[p] == queue[0].url;
    forall k | 0 <= k < p + 1 && k < |s.order|
      ensures Expanded(c, s, s.order[k]) && Closed(s, s.order[k])
    {
      if k == p {
        assert s.tree[s.order[p]].children == [];
      }
    }
  }
  /** The state after the node of u gets u's links as children. */
  ghost function Expand(c: Ctx, s: State, u: string): State {
    if u in s.tree then s.(tree := s.tree[u := s.tree[u].(children := c.links(u))]) else s
  }

  /** One expansion: the head of the queue, above the depth limit, gets its
      links as children, and the loop over them leads to s2. */
  ghost predicate Turn(c: Ctx, s: State, queue: seq<Item>, s2: State) {
    queue != [] && queue[0].url in s.tree && queue[0].depth < c.maxDepth
    && Added(c, Expand(c, s, queue[0].url), s2, c.links(queue[0].url), queue[0].depth + 1)
  }

  /** The queue after one expansion. */
  function NextQueue(c: Ctx, s: State, queue: seq<Item>): seq<Item>
    requires queue != []
  {
    queue[1..] + Enqueued(NewUrls(c.links(queue[0].url), s.visited), queue[0].depth + 1)
  }

  lemma ExpandKeys(c: Ctx, visited0: set<string>, s: State, queue: seq<Item>, s2: State)
    requires Keys(c, visited0, s) && Turn(c, s, queue, s2)
    ensures Keys(c, visited0, s2)
  {
    var links := c.links(queue[0].url);
    var added := NewUrls(links, s.visited);
    NewUrlsFresh(links, s.visited);
    forall i, j | 0 <= i < j < |s2.order|
      ensures s2.order[i] != s2.order[j]
    {
      if j >= |s.order| && i < |s.order| {
        assert s2.order[i] in s.tree;
      }
    }
    assert s2.visited == visited0 + s2.tree.Keys;
  }

  lemma ExpandClassified(c: Ctx, s: State, queue: seq<Item>, s2: State)
    requires Classified(c, s) && Turn(c, s, queue, s2)
    ensures Classified(c, s2)
  {
  }

  lemma ExpandReached(c: Ctx, s: State, queue: seq<Item>, s2: State)
    requires Reached(c, s) && Tail(s, queue) && Turn(c, s, queue, s2)
    ensures Reached(c, s2)
  {
    var w := queue[0].url;
    var d := queue[0].depth;
    var links := c.links(w);
    var e := Expand(c, s, w);
    assert e.tree.Keys == s.tree.Keys && e.depth == s.depth;
    NewUrlsFresh(links, s.visited);
    forall u | u in s2.tree && u in s2.depth
      ensures s2.depth[u] <= Bound(c) && u in Level(c, s2.depth[u])
    {
      if u !in s.tree {
        var l :| l in links && l.url == u;
        LevelStep(c, d, w, l);
      }
    }
  }


  lemma ExpandSorted(c: Ctx, s: State, queue: seq<Item>, s2: State)
    requires Sorted(s) && Span(s, queue) && Turn(c, s, queue, s2)
    requires forall u :: u in s.order ==> u in s.depth
    ensures Sorted(s2)
  {
    var last := |s.order| - 1;
    forall i, j | 0 <= i < j < |s2.order| && s2.order[i] in s2.depth && s2.order[j] in s2.depth
      ensures s2.depth[s2.order[i]] <= s2.depth[s2.order[j]]
    {
      if i < |s.order| <= j {
        assert s.depth[s.order[i]] <= s.depth[s.order[last]] by {
          if i < last {
            assert s.order[last] in s.depth;
          }
        }
      }
    }
  }
  /** A key in the tree is at most one level below the last key
      inserted. */
  lemma NotBelowLast(c: Ctx, visited0: set<string>, s: State, u: string)
    requires Keys(c, visited0, s) && Sorted(s) && u in s.tree
    ensures s.depth[u] <= s.depth[s.order[|s.order| - 1]]
  {
    var i :| 0 <= i < |s.order| && s.order[i] == u;
    if i < |s.order| - 1 {
      assert s.order[|s.order| - 1] in s.depth;
    }
  }

  lemma ExpandTail(c: Ctx, s: State, queue: seq<Item>, s2: State)
    requires Tail(s, queue) && Turn(c, s, queue, s2)
    ensures Tail(s2, NextQueue(c, s, queue))
  {
    var added := NewUrls(c.links(queue[0].url), s.visited);
    var q2 := NextQueue(c, s, queue);
    var p := |s.order| - |queue|;
    forall k | 0 <= k < |q2|
      ensures q2[k].url == s2.order[|s2.order| - |q2| + k]
      ensures q2[k].url in s2.depth && q2[k].depth == s2.depth[q2[k].url]
    {
      if k < |queue| - 1 {
        assert q2[k] == queue[k + 1];
        assert s2.order[p + 1 + k] == s.order[p + 1 + k];
      } else {
        assert q2[k] == Item(added[k - |queue| + 1], queue[0].depth + 1);
        assert s2.order[p + 1 + k] == added[k - |queue| + 1];
      }
    }
  }

  lemma ExpandSpan(c: Ctx, s: State, queue: seq<Item>, s2: State)
    requires Tail(s, queue) && Span(s, queue) && Sorted(s) && Turn(c, s, queue, s2)
    ensures Span(s2, NextQueue(c, s, queue))
  {
    var q2 := NextQueue(c, s, queue);
    var p := |s.order| - |queue|;
    if |queue| > 1 {
      assert queue[0].url == s.order[p] && queue[1].url == s.order[p + 1];
      assert q2[0] == queue[1];
    }
  }

  /** The keys expanded before keep their children, which stay closed: a
      URL new to the tree was not visited, so it is none of theirs. */
  lemma ExpandDoneBefore(c: Ctx, s: State, queue: seq<Item>, s2: State)
    requires Distinct(s.order) && s.tree.Keys <= s.visited && Tail(s, queue) && Turn(c, s, queue, s2)
    requires Done(c, s, |s.order| - |queue|)
    ensures Done(c, s2, |s.order| - |queue|)
  {
    var w := queue[0].url;
    var p := |s.order| - |queue|;
    NewUrlsFresh(c.links(w), s.visited);
    assert s.order[p] == w;
    forall k | 0 <= k < p && k < |s2.order|
      ensures Expanded(c, s2, s2.order[k]) && Closed(s2, s2.order[k])
    {
      var u := s.order[k];
      assert s2.order[k] == u;
      assert u != w;
      assert Closed(s, u);
    }
  }

  /** The expanded key gets its links as children, and they are closed. */
  lemma ExpandDoneHead(c: Ctx, visited0: set<string>, s: State, queue: seq<Item>, s2: State)
    requires Keys(c, visited0, s) && Sorted(s) && Tail(s, queue) && Span(s, queue) && Turn(c, s, queue, s2)
    ensures Expanded(c, s2, queue[0].url) && Closed(s2, queue[0].url)
  {
    var w := queue[0].url;
    var d := queue[0].depth;
    var links := c.links(w);
    var added := NewUrls(links, s.visited);
    NewUrlsFresh(links, s.visited);
    forall l | l in links && l.url in s2.tree && l.url !in added
      ensures s2.depth[l.url] <= d + 1
    {
      NotBelowLast(c, visited0, s, l.url);
    }
  }

  lemma ExpandPending(c: Ctx, s: State, queue: seq<Item>, s2: State)
    requires Distinct(s.order) && Tail(s, queue) && Turn(c, s, queue, s2)
    requires Pending(s, |s.order| - |queue|)
    ensures Pending(s2, |s.order| - |queue| + 1)
  {
    var w := queue[0].url;
    var p := |s.order| - |queue|;
    assert s.order[p] == w;
    forall k | 0 <= p + 1 <= k < |s2.order|
      ensures s2.order[k] in s2.tree && s2.tree[s2.order[k]].children == []
    {
      if k < |s.order| {
        assert s.order[k] != w;
      }
    }
  }

  lemma ExpandDone(c: Ctx, visited0: set<string>, s: State, queue: seq<Item>, s2: State)
    requires Keys(c, visited0, s) && Sorted(s) && Tail(s, queue) && Span(s, queue) && Turn(c, s, queue, s2)
    requires Done(c, s, |s.order| - |queue|)
    ensures Done(c, s2, |s.order| - |queue| + 1)
  {
    var p := |s.order| - |queue|;
    ExpandDoneBefore(c, s, queue, s2);
    ExpandDoneHead(c, visited0, s, queue, s2);
    assert s2.order[p] == queue[0].url;
    forall k | 0 <= k < p + 1 && k < |s2.order|
      ensures Expanded(c, s2, s2.order[k]) && Closed(s2, s2.order[k])
    {
      if k < p {
        assert Expanded(c, s2, s2.order[k]);
      }
    }
  }

  // ---------------------------------------------------------------------
  // Breadth-first discovery order
  // ---------------------------------------------------------------------

  /** The URLs of a sequence of queue entries. */
  function UrlsOf(items: seq<Item>): set<string> {
    if items == [] then {} else UrlsOf(items[..|items| - 1]) + {items[|items| - 1].url}
  }

  lemma {:induction false} UrlsOfMember(items: seq<Item>, u: string)
    ensures u in UrlsOf(items) <==> exists i :: 0 <= i < |items| && items[i].url == u
  {
    if items != [] {
      var init := items[..|items| - 1];
      UrlsOfMember(init, u);
      if exists i :: 0 <= i < |init| && init[i].url == u {
        var i :| 0 <= i < |init| && init[i].url == u;
        assert items[i].url == u;
      }
    }
  }

  /** Reference definition of the order in which a crawl finds URLs: the
      entries recorded once the first k of them have been taken off the
      queue.  The first entry is the start URL at depth 0.  Taking off the
      entry at index k - 1, when it is above the depth limit, appends one
      level down the URLs its page links to that were neither visited
      before the crawl nor found yet, in link order. */
  ghost function Discovery(c: Ctx, visited0: set<string>, k: nat): seq<Item>
    decreases k
  {
    if k == 0 then [Item(c.start, 0)]
    else
      var h := Discovery(c, visited0, k - 1);
      if k - 1 < |h| then h + StepOf(c, visited0)(h, k - 1) else h
  }

  /** The entries found by taking entry k of h off the queue. */
  ghost function Found(c: Ctx, visited0: set<string>, h: seq<Item>, k: nat): seq<Item> {
    if k < |h| && h[k].depth < c.maxDepth then
      Enqueued(NewUrls(c.links(h[k].url), visited0 + UrlsOf(h)), h[k].depth + 1)
    else []
  }

  /** `step` computes Found. */
  ghost predicate Steps(c: Ctx, visited0: set<string>, step: (seq<Item>, nat) -> seq<Item>) {
    forall h, k {:trigger Found(c, visited0, h, k)} :: step(h, k) == Found(c, visited0, h, k)
  }

  /** Found as a function value.  It is picked by its property rather than
      written as a lambda, so that a proof about Discovery sees what a turn
      finds only where it names Found. */
  ghost function StepOf(c: Ctx, visited0: set<string>): (step: (seq<Item>, nat) -> seq<Item>)
    ensures Steps(c, visited0, step)
  {
    var candidate := (h: seq<Item>, k: nat) => Found(c, visited0, h, k);
    assert Steps(c, visited0, candidate);
    var step :| Steps(c, visited0, step);
    step
  }

  /** The insertion order and the depths are the entries found so far,
      the queue being the ones not yet taken off. */
  ghost predicate Follows(c: Ctx, visited0: set<string>, s: State, queue: seq<Item>) {
    |queue| <= |s.order| && Lists(Discovery(c, visited0, |s.order| - |queue|), s)
  }

  /** Follows, as a value: the proofs about the loop carry it beside the
      invariant without unfolding it; only the lemmas about one step of
      the discovery order look inside. */
  ghost function Tracker(c: Ctx, visited0: set<string>): (t: (State, seq<Item>) -> bool)
    ensures forall s, queue {:trigger Follows(c, visited0, s, queue)} :: t(s, queue) == Follows(c, visited0, s, queue)
  {
    var candidate := (s: State, queue: seq<Item>) => Follows(c, visited0, s, queue);
    assert forall s, queue {:trigger Follows(c, visited0, s, queue)} :: candidate(s, queue) == Follows(c, visited0, s, queue);
    var t: (State, seq<Item>) -> bool :| forall s, queue {:trigger Follows(c, visited0, s, queue)} :: t(s, queue) == Follows(c, visited0, s, queue);
    t
  }

  ghost predicate OnTrack(c: Ctx, visited0: set<string>, s: State, queue: seq<Item>) {
    Tracker(c, visited0)(s, queue)
  }

  /** The items are the insertion order, each with its key's depth. */
  ghost predicate Lists(h: seq<Item>, s: State) {
    |h| == |s.order|
    && forall i {:trigger h[i]} :: 0 <= i < |h| ==> h[i].url == s.order[i] && h[i].url in s.depth && h[i].depth == s.depth[h[i].url]
  }

  /** Once every entry found has been taken off, nothing more is found. */
  lemma {:induction false} DiscoveryStops(c: Ctx, visited0: set<string>, j: nat, k: nat)
    requires j <= k && |Discovery(c, visited0, j)| <= j
    ensures Discovery(c, visited0, k) == Discovery(c, visited0, j)
    decreases k - j
  {
    if j < k {
      DiscoveryStops(c, visited0, j, k - 1);
      DiscoveryNext(c, visited0, k);
    }
  }

  /** Taking more entries off the queue only appends to what was found. */
  lemma {:induction false} DiscoveryGrows(c: Ctx, visited0: set<string>, j: nat, k: nat)
    requires j <= k
    ensures Discovery(c, visited0, j) <= Discovery(c, visited0, k)
    decreases k - j
  {
    if j < k {
      DiscoveryGrows(c, visited0, j, k - 1);
      DiscoveryNext(c, visited0, k);
    }
  }

  /** One more entry taken off the queue appends what it finds. */
  lemma DiscoveryNext(c: Ctx, visited0: set<string>, k: nat)
    requires 0 < k
    ensures var h := Discovery(c, visited0, k - 1);
      Discovery(c, visited0, k) == if k - 1 < |h| then h + Found(c, visited0, h, k - 1) else h
  {
  }

  /** Entry p of h is the page entry i was found on: it was above the
      depth limit, one level up, and links to entry i's URL. */
  ghost predicate ParentAt(c: Ctx, h: seq<Item>, p: int, i: int) {
    0 <= p < i < |h| && h[p].depth < c.maxDepth && h[p].depth + 1 == h[i].depth
    && exists l :: l in c.links(h[p].url) && l.url == h[i].url
  }

  /** Every entry found after the start URL is a link of an entry found
      before it, one level up and above the depth limit, and the start
      URL is never found again. */
  lemma {:induction false} DiscoveryParent(c: Ctx, visited0: set<string>, k: nat, i: nat)
    requires 0 < i < |Discovery(c, visited0, k)|
    ensures Discovery(c, visited0, k)[i].url != c.start
    ensures exists p :: ParentAt(c, Discovery(c, visited0, k), p, i)
    decreases k
  {
    var prev := Discovery(c, visited0, k - 1);
    DiscoveryNext(c, visited0, k);
    if i < |prev| {
      DiscoveryParent(c, visited0, k - 1, i);
      KeepParent(c, prev, Discovery(c, visited0, k), i);
    } else {
      NewEntryParent(c, visited0, k, i);
    }
  }

  /** An entry found by the k-th turn has the entry taken off in that
      turn as its parent. */
  lemma NewEntryParent(c: Ctx, visited0: set<string>, k: nat, i: nat)
    requires 0 < k && |Discovery(c, visited0, k - 1)| <= i < |Discovery(c, visited0, k)|
    ensures Discovery(c, visited0, k)[i].url != c.start
    ensures ParentAt(c, Discovery(c, visited0, k), k - 1, i)
  {
    var prev := Discovery(c, visited0, k - 1);
    DiscoveryNext(c, visited0, k);
    assert k - 1 < |prev|;
    assert Discovery(c, visited0, k) == prev + Found(c, visited0, prev, k - 1);
    StartInUrls(c, visited0, k - 1);
    FoundEntry(c, visited0, prev, k - 1, i);
  }

  /** An entry keeps its parent when more entries are appended. */
  lemma KeepParent(c: Ctx, prev: seq<Item>, h: seq<Item>, i: nat)
    requires prev <= h && 0 < i < |prev|
    requires prev[i].url != c.start && exists p :: ParentAt(c, prev, p, i)
    ensures h[i].url != c.start && exists p :: ParentAt(c, h, p, i)
  {
    var p :| ParentAt(c, prev, p, i);
    assert h[p] == prev[p] && h[i] == prev[i];
    assert ParentAt(c, h, p, i);
  }

  /** An entry found by taking entry k of h off the queue has that entry
      as its parent, and is not the start URL when the start URL was
      found before. */
  lemma FoundEntry(c: Ctx, visited0: set<string>, h: seq<Item>, k: nat, i: nat)
    requires k < |h| && c.start in UrlsOf(h)
    requires |h| <= i < |h| + |Found(c, visited0, h, k)|
    ensures var h2 := h + Found(c, visited0, h, k);
      h2[i].url != c.start && ParentAt(c, h2, k, i)
  {
    var f := Found(c, visited0, h, k);
    var h2 := h + f;
    assert h2[i] == f[i - |h|] && h2[k] == h[k];
    ParentOfFound(c, visited0, h, k, i - |h|);
  }

  /** The start URL is always among the URLs found. */
  lemma StartInUrls(c: Ctx, visited0: set<string>, k: nat)
    ensures c.start in UrlsOf(Discovery(c, visited0, k))
  {
    var h := Discovery(c, visited0, k);
    DiscoveryGrows(c, visited0, 0, k);
    assert h[0] == Item(c.start, 0);
    UrlsOfMember(h, c.start);
  }

  /** Entry j of what entry k of h finds is a fresh link of entry k, one
      level down. */
  lemma ParentOfFound(c: Ctx, visited0: set<string>, h: seq<Item>, k: nat, j: nat)
    requires k < |h| && j < |Found(c, visited0, h, k)|
    ensures var f := Found(c, visited0, h, k);
      h[k].depth < c.maxDepth && f[j].depth == h[k].depth + 1
      && f[j].url !in UrlsOf(h)
      && exists l :: l in c.links(h[k].url) && l.url == f[j].url
  {
    var links := c.links(h[k].url);
    var added := NewUrls(links, visited0 + UrlsOf(h));
    NewUrlsFresh(links, visited0 + UrlsOf(h));
    assert added[j] in added;
  }

  /** The start state follows the discovery order. */
  lemma StartFollows(c: Ctx, visited0: set<string>)
    ensures OnTrack(c, visited0, Start(c, visited0), [Item(c.start, 0)])
  {
    assert Follows(c, visited0, Start(c, visited0), [Item(c.start, 0)]);
  }

  /** Dropping a queue entry at the depth limit finds nothing. */
  lemma SkipFollows(c: Ctx, visited0: set<string>, s: State, queue: seq<Item>)
    requires Tail(s, queue) && queue != [] && queue[0].depth >= c.maxDepth
    requires OnTrack(c, visited0, s, queue)
    ensures OnTrack(c, visited0, s, queue[1..])
  {
    TrackLists(c, visited0, s, queue);
    var n := |s.order| - |queue|;
    var h := Discovery(c, visited0, n);
    DiscoveryNext(c, visited0, n + 1);
    assert h[n].url == queue[0].url;
    assert Found(c, visited0, h, n) == [];
    ListsTrack(c, visited0, s, queue[1..], n + 1);
  }

  /** When the insertion order is what was found so far, the URLs found
      are the tree's keys. */
  lemma ListedKeys(c: Ctx, visited0: set<string>, s: State, h: seq<Item>)
    requires Keys(c, visited0, s) && Lists(h, s)
    ensures visited0 + UrlsOf(h) == s.visited
  {
    forall u ensures u in UrlsOf(h) <==> u in s.order {
      UrlsOfMember(h, u);
      if u in s.order {
        var i :| 0 <= i < |s.order| && s.order[i] == u;
        assert h[i].url == u;
      }
    }
  }

  /** Taking an entry above the depth limit off the queue finds the new
      URLs among its links, one level deeper. */
  lemma DiscoveryExpand(c: Ctx, visited0: set<string>, n: nat, w: Item, seen: set<string>)
    requires n < |Discovery(c, visited0, n)| && Discovery(c, visited0, n)[n] == w
    requires w.depth < c.maxDepth && seen == visited0 + UrlsOf(Discovery(c, visited0, n))
    ensures Discovery(c, visited0, n + 1)
      == Discovery(c, visited0, n) + Enqueued(NewUrls(c.links(w.url), seen), w.depth + 1)
  {
    var h := Discovery(c, visited0, n);
    DiscoveryNext(c, visited0, n + 1);
    assert Found(c, visited0, h, n) == Enqueued(NewUrls(c.links(w.url), seen), w.depth + 1);
  }

  /** The loop over a page's links appends to the insertion order the
      items of its new URLs. */
  lemma AddedLists(c: Ctx, s0: State, s1: State, links: seq<Link>, d: nat, h: seq<Item>)
    requires Lists(h, s0) && Added(c, s0, s1, links, d)
    ensures Lists(h + Enqueued(NewUrls(links, s0.visited), d), s1)
  {
    var added := NewUrls(links, s0.visited);
    AppendLists(h, s0, s1, added, Enqueued(added, d), d);
  }

  /** Appending URLs to the insertion order, each at depth d, and their
      items to the list keeps the two in step. */
  lemma AppendLists(h: seq<Item>, s0: State, s1: State, urls: seq<string>, e: seq<Item>, d: nat)
    requires Lists(h, s0) && s1.order == s0.order + urls
    requires |e| == |urls| && forall j :: 0 <= j < |e| ==> e[j] == Item(urls[j], d)
    requires forall u :: u in s0.depth ==> u in s1.depth && s1.depth[u] == s0.depth[u]
    requires forall u :: u in urls ==> u in s1.depth && s1.depth[u] == d
    ensures Lists(h + e, s1)
  {
    var h2 := h + e;
    forall i | 0 <= i < |h2|
      ensures h2[i].url == s1.order[i] && h2[i].url in s1.depth && h2[i].depth == s1.depth[h2[i].url]
    {
      if i < |h| {
        assert h2[i] == h[i];
      } else {
        assert h2[i] == e[i - |h|];
        assert urls[i - |h|] in urls;
      }
    }
  }

  /** Expanding the head of the queue appends to the insertion order what
      the discovery order finds next. */
  lemma ExpandFollows(c: Ctx, visited0: set<string>, s: State, queue: seq<Item>, s2: State)
    requires Keys(c, visited0, s) && Tail(s, queue) && Turn(c, s, queue, s2)
    requires OnTrack(c, visited0, s, queue)
    ensures OnTrack(c, visited0, s2, NextQueue(c, s, queue))
  {
    var n := |s.order| - |queue|;
    TrackLists(c, visited0, s, queue);
    ExpandLists(c, visited0, s, queue, s2, n);
    NextLength(c, s, queue, s2);
    ListsTrack(c, visited0, s2, NextQueue(c, s, queue), n + 1);
  }

  lemma TrackLists(c: Ctx, visited0: set<string>, s: State, queue: seq<Item>)
    requires OnTrack(c, visited0, s, queue)
    ensures |queue| <= |s.order| && Lists(Discovery(c, visited0, |s.order| - |queue|), s)
  {
    assert Follows(c, visited0, s, queue);
  }

  lemma ListsTrack(c: Ctx, visited0: set<string>, s: State, queue: seq<Item>, n: nat)
    requires n + |queue| == |s.order| && Lists(Discovery(c, visited0, n), s)
    ensures OnTrack(c, visited0, s, queue)
  {
    assert Follows(c, visited0, s, queue);
  }

  lemma ExpandLists(c: Ctx, visited0: set<string>, s: State, queue: seq<Item>, s2: State, n: nat)
    requires Keys(c, visited0, s) && Tail(s, queue) && Turn(c, s, queue, s2)
    requires n == |s.order| - |queue| && Lists(Discovery(c, visited0, n), s)
    ensures Lists(Discovery(c, visited0, n + 1), s2)
  {
    NextDiscovery(c, visited0, s, queue, n);
    TurnLists(c, s, queue, s2, Discovery(c, visited0, n));
  }

  /** The next entries found are those of the queue's head. */
  lemma NextDiscovery(c: Ctx, visited0: set<string>, s: State, queue: seq<Item>, n: nat)
    requires Keys(c, visited0, s) && Tail(s, queue) && queue != [] && queue[0].depth < c.maxDepth
    requires n == |s.order| - |queue| && Lists(Discovery(c, visited0, n), s)
    ensures Discovery(c, visited0, n + 1)
      == Discovery(c, visited0, n) + Enqueued(NewUrls(c.links(queue[0].url), s.visited), queue[0].depth + 1)
  {
    var h := Discovery(c, visited0, n);
    assert h[n] == queue[0];
    ListedKeys(c, visited0, s, h);
    DiscoveryExpand(c, visited0, n, queue[0], s.visited);
  }

  /** An expansion appends the items of the new URLs to the list. */
  lemma TurnLists(c: Ctx, s: State, queue: seq<Item>, s2: State, h: seq<Item>)
    requires Turn(c, s, queue, s2) && Lists(h, s)
    ensures Lists(h + Enqueued(NewUrls(c.links(queue[0].url), s.visited), queue[0].depth + 1), s2)
  {
    var e := Expand(c, s, queue[0].url);
    assert e.order == s.order && e.depth == s.depth && e.visited == s.visited;
    AddedLists(c, e, s2, c.links(queue[0].url), queue[0].depth + 1, h);
  }

  /** An expansion adds as many keys as it queues URLs. */
  lemma NextLength(c: Ctx, s: State, queue: seq<Item>, s2: State)
    requires Turn(c, s, queue, s2)
    ensures |s2.order| - |NextQueue(c, s, queue)| == |s.order| - |queue| + 1
  {
    assert Expand(c, s, queue[0].url).order == s.order;
  }

  /** The invariant of build_tree's loop. */
  ghost predicate Inv(c: Ctx, visited0: set<string>, s: State, queue: seq<Item>) {
    Keys(c, visited0, s) && Classified(c, s) && Reached(c, s) && Sorted(s)
    && Tail(s, queue) && Span(s, queue)
    && Done(c, s, |s.order| - |queue|) && Pending(s, |s.order| - |queue|)
  }

  /** One expansion keeps the invariant. */
  lemma ExpandStep(c: Ctx, visited0: set<string>, s: State, queue: seq<Item>, s2: State)
    requires Inv(c, visited0, s, queue) && Turn(c, s, queue, s2)
    ensures Inv(c, visited0, s2, NextQueue(c, s, queue))
  {
    ExpandKeys(c, visited0, s, queue, s2);
    ExpandClassified(c, s, queue, s2);
    ExpandReached(c, s, queue, s2);
    ExpandSorted(c, s, queue, s2);
    ExpandTail(c, s, queue, s2);
    ExpandSpan(c, s, queue, s2);
    ExpandDone(c, visited0, s, queue, s2);
    ExpandPending(c, s, queue, s2);
    assert |s2.order| - |NextQueue(c, s, queue)| == |s.order| - |queue| + 1;
  }

  /** One expansion keeps the invariant and the discovery order. */
  lemma ExpandTurn(c: Ctx, visited0: set<string>, s: State, queue: seq<Item>, s2: State)
    requires Inv(c, visited0, s, queue) && Turn(c, s, queue, s2)
    requires OnTrack(c, visited0, s, queue)
    ensures Inv(c, visited0, s2, NextQueue(c, s, queue))
    ensures OnTrack(c, visited0, s2, NextQueue(c, s, queue))
  {
    ExpandStep(c, visited0, s, queue, s2);
    ExpandFollows(c, visited0, s, queue, s2);
  }

  /** Dropping a queue entry at the depth limit keeps the invariant and
      the discovery order. */
  lemma SkipTurn(c: Ctx, visited0: set<string>, s: State, queue: seq<Item>)
    requires Inv(c, visited0, s, queue) && queue != [] && queue[0].depth >= c.maxDepth
    requires OnTrack(c, visited0, s, queue)
    ensures Inv(c, visited0, s, queue[1..])
    ensures OnTrack(c, visited0, s, queue[1..])
  {
    SkipStep(c, visited0, s, queue);
    SkipFollows(c, visited0, s, queue);
  }

  /** Dropping a queue entry at the depth limit keeps the invariant. */
  lemma SkipStep(c: Ctx, visited0: set<string>, s: State, queue: seq<Item>)
    requires Inv(c, visited0, s, queue) && queue != [] && queue[0].depth >= c.maxDepth
    ensures Inv(c, visited0, s, queue[1..])
  {
    SkipQueue(s, queue);
    SkipDone(c, s, queue);
  }
  /** The head of a non-empty queue is a key of the tree, and every key
      is visited. */
  lemma HeadKnown(c: Ctx, visited0: set<string>, s: State, queue: seq<Item>)
    requires Inv(c, visited0, s, queue) && queue != []
    ensures queue[0].url in s.tree
    ensures s.tree.Keys <= s.visited && s.depth.Keys <= s.visited
  {
    assert queue[0].url == s.order[|s.order| - |queue|];
  }

  /** The state build_tree starts its loop in: the start URL visited,
      alone in the tree, childless and queued at depth 0. */
  function Start(c: Ctx, visited0: set<string>): State {
    State(visited0 + {c.start}, map[c.start := Node(c.classify(c.start), [])], [c.start], map[c.start := 0])
  }

  lemma StartInv(c: Ctx, visited0: set<string>)
    ensures Inv(c, visited0, Start(c, visited0), [Item(c.start, 0)])
  {
    var s := Start(c, visited0);
    assert s.tree.Keys == {c.start};
  }

  /** Taking a step can only add keys, and adds one exactly when the loop
      over the links found a new URL. */
  lemma TurnProgress(c: Ctx, s: State, queue: seq<Item>, s2: State)
    requires s.tree.Keys <= s.visited && Turn(c, s, queue, s2)
    ensures s.tree.Keys <= s2.tree.Keys
    ensures NewUrls(c.links(queue[0].url), s.visited) == [] ==> s2.tree.Keys == s.tree.Keys
    ensures NewUrls(c.links(queue[0].url), s.visited) != [] ==>
      NewUrls(c.links(queue[0].url), s.visited)[0] in s2.tree.Keys - s.tree.Keys
  {
    var added := NewUrls(c.links(queue[0].url), s.visited);
    NewUrlsFresh(c.links(queue[0].url), s.visited);
    assert Expand(c, s, queue[0].url).tree.Keys == s.tree.Keys;
    if added == [] {
      assert forall u :: u in s2.tree <==> u in s.tree;
    } else {
      assert added[0] in added;
    }
  }

  // ---------------------------------------------------------------------
  // When the queue is empty
  // ---------------------------------------------------------------------

  /** Once every key is expanded, every URL within j <= the depth bound
      links of the start is in the tree at depth at most j, unless it was
      visited before the crawl began. */
  lemma {:induction false} ReachedWithin(c: Ctx, visited0: set<string>, s: State, j: nat)
    requires Keys(c, visited0, s) && Done(c, s, |s.order|) && j <= Bound(c)
    requires visited0 * Level(c, Bound(c)) <= {c.start}
    ensures forall u :: u in Level(c, j) ==> u in s.tree && s.depth[u] <= j
  {
    if j > 0 {
      ReachedWithin(c, visited0, s, j - 1);
      LevelMono(c, j, Bound(c));
      forall u | u in Level(c, j)
        ensures u in s.tree && s.depth[u] <= j
      {
        if u !in Level(c, j - 1) {
          assert u in Step(c, Level(c, j - 1));
          var w, l :| w in Level(c, j - 1) && l in c.links(w) && l.url == u;
          ChildReached(c, visited0, s, j, w, l);
        }
      }
    }
  }

  /** A link of a key at depth below j leads to a key at depth at most
      j, once every key is expanded. */
  lemma ChildReached(c: Ctx, visited0: set<string>, s: State, j: nat, w: string, l: Link)
    requires Keys(c, visited0, s) && Done(c, s, |s.order|) && 0 < j <= Bound(c)
    requires visited0 * Level(c, Bound(c)) <= {c.start}
    requires w in s.tree && s.depth[w] <= j - 1 && l in c.links(w) && l.url in Level(c, Bound(c))
    ensures l.url in s.tree && s.depth[l.url] <= j
  {
    var k :| 0 <= k < |s.order| && s.order[k] == w;
    assert Expanded(c, s, w) && Closed(s, w);
    assert l in s.tree[w].children;
    if l.url in visited0 {
      assert l.url in visited0 * Level(c, Bound(c));
    }
  }

  /** The crawl finds exactly the URLs within the depth bound of the
      start, provided none of them but the start was visited before. */
  lemma Complete(c: Ctx, visited0: set<string>, s: State)
    requires Keys(c, visited0, s) && Reached(c, s) && Done(c, s, |s.order|)
    requires visited0 * Level(c, Bound(c)) <= {c.start}
    ensures s.tree.Keys == Level(c, Bound(c))
  {
    KeysReachable(c, s);
    ReachedWithin(c, visited0, s, Bound(c));
  }
  /** The keys are listed once each in insertion order, and every
      classification carries the risk its type comes with. */
  ghost predicate Wellformed(s: State) {
    Distinct(s.order)
    && (forall u :: u in s.tree <==> u in s.order)
    && (forall u :: u in s.tree ==> s.tree[u].classification.risk == RiskOf(s.tree[u].classification.kind))
  }

  /** What build_tree leaves behind after the crawl c, when visited0 was
      visited before:
      - the start URL is the first key, at depth 0;
      - the keys are the start URL and exactly the newly visited URLs:
        visited grows by the keys, and no key but the start URL was
        visited before;
      - every key carries classify_url's classification of it;
      - every key is within its depth of the start, and no deeper than the
        depth limit;
      - a key above the depth limit has get_links's links as children,
        any other key none;
      - every child has been visited, and a child in the tree is at most
        one level below its parent;
      - keys are inserted in order of depth;
      - if no URL within the depth limit but the start was visited
        before, the keys are exactly those URLs;
      - the insertion order, with the depths, is the breadth-first
        discovery order: every entry has been taken off, so nothing else
        was found. */
  ghost predicate Crawled(c: Ctx, visited0: set<string>, s: State) {
    |s.order| > 0 && s.order[0] == c.start && c.start in s.depth && s.depth[c.start] == 0
    && s.visited == visited0 + s.tree.Keys
    && (forall u :: u in s.tree && u != c.start ==> u !in visited0)
    && (forall u :: u in s.tree ==> s.tree[u].classification == c.classify(u))
    && (forall u :: u in s.tree ==> u in s.depth && s.depth[u] <= Bound(c) && u in Level(c, s.depth[u]))
    && (forall u :: u in s.tree && u in s.depth ==>
          s.tree[u].children == (if s.depth[u] < c.maxDepth then c.links(u) else []))
    && (forall u, l :: u in s.tree && u in s.depth && l in s.tree[u].children ==>
          l.url in s.visited && (l.url in s.tree ==> l.url in s.depth && s.depth[l.url] <= s.depth[u] + 1))
    && (forall i, j :: 0 <= i < j < |s.order| && s.order[i] in s.depth && s.order[j] in s.depth ==>
          s.depth[s.order[i]] <= s.depth[s.order[j]])
    && (visited0 * Level(c, Bound(c)) <= {c.start} ==> s.tree.Keys == Level(c, Bound(c)))
    && Follows(c, visited0, s, [])
  }

  /** With a depth limit of zero or below the tree is the start URL
      alone, classified and without children. */
  lemma ZeroDepth(c: Ctx, visited0: set<string>, s: State)
    requires Crawled(c, visited0, s) && c.maxDepth <= 0
    ensures s.tree == map[c.start := Node(c.classify(c.start), [])]
  {
    assert s.order[0] in s.tree;
    forall u | u in s.tree
      ensures u == c.start
    {
      assert u in Level(c, s.depth[u]);
    }
  }

  /** Every key but the start URL is the URL of a child of a key exactly
      one level up, above the depth limit: nothing enters the tree that
      the crawl did not find through a link. */
  lemma CrawledParents(c: Ctx, visited0: set<string>, s: State, u: string)
    requires Crawled(c, visited0, s) && Wellformed(s) && u in s.tree && u != c.start
    ensures exists w, l ::
      w in s.tree && w in s.depth && u in s.depth && s.depth[w] < c.maxDepth
      && s.depth[w] + 1 == s.depth[u] && l in s.tree[w].children && l.url == u
  {
    Parents(c, visited0, s, u);
  }

  /** CrawledParents from the parts of Crawled it needs. */
  lemma Parents(c: Ctx, visited0: set<string>, s: State, u: string)
    requires Follows(c, visited0, s, []) && (forall u :: u in s.tree <==> u in s.order)
    requires forall u :: u in s.tree && u in s.depth ==>
      s.tree[u].children == (if s.depth[u] < c.maxDepth then c.links(u) else [])
    requires s.order[0] == c.start && u in s.tree && u != c.start
    ensures exists w, l ::
      w in s.tree && w in s.depth && u in s.depth && s.depth[w] < c.maxDepth
      && s.depth[w] + 1 == s.depth[u] && l in s.tree[w].children && l.url == u
  {
    var i :| 0 <= i < |s.order| && s.order[i] == u;
    ListedParent(c, visited0, s, i);
    var p :| 0 <= p < i && LinkedFrom(c, s, s.order[p], u);
    var w := s.order[p];
    assert w in s.tree;
    ParentChild(c, s, w, u);
    var l :| l in s.tree[w].children && l.url == u;
  }

  /** A key above the depth limit with get_links's links as children has
      a child for each URL it links to. */
  lemma ParentChild(c: Ctx, s: State, w: string, u: string)
    requires LinkedFrom(c, s, w, u) && w in s.tree
    requires s.tree[w].children == (if s.depth[w] < c.maxDepth then c.links(w) else [])
    ensures exists l :: l in s.tree[w].children && l.url == u
  {
  }

  /** u is one level below w, and w is above the depth limit and links
      to u. */
  ghost predicate LinkedFrom(c: Ctx, s: State, w: string, u: string) {
    w in s.depth && u in s.depth && s.depth[w] < c.maxDepth && s.depth[w] + 1 == s.depth[u]
    && exists l :: l in c.links(w) && l.url == u
  }

  /** In an insertion order that is the discovery order, every entry but
      the first is linked from an earlier one. */
  lemma ListedParent(c: Ctx, visited0: set<string>, s: State, i: nat)
    requires Lists(Discovery(c, visited0, |s.order|), s) && 0 < i < |s.order|
    ensures exists p :: 0 <= p < i && LinkedFrom(c, s, s.order[p], s.order[i])
  {
    var h := Discovery(c, visited0, |s.order|);
    DiscoveryParent(c, visited0, |s.order|, i);
    var p :| ParentAt(c, h, p, i);
    assert h[p].url == s.order[p] && h[i].url == s.order[i];
    assert LinkedFrom(c, s, s.order[p], s.order[i]);
  }

  /** Every key is expanded and closed once the queue is empty. */
  lemma AllDone(c: Ctx, visited0: set<string>, s: State)
    requires Inv(c, visited0, s, [])
    ensures forall u :: u in s.tree ==> Expanded(c, s, u) && Closed(s, u)
  {
    forall u | u in s.tree
      ensures Expanded(c, s, u) && Closed(s, u)
    {
      var k :| 0 <= k < |s.order| && s.order[k] == u;
    }
  }

  /** The invariant with an empty queue is what build_tree promises. */
  lemma Finish(c: Ctx, web: Web, visited0: set<string>, s: State)
    requires Faithful(c, web) && Inv(c, visited0, s, []) && OnTrack(c, visited0, s, [])
    ensures Crawled(c, visited0, s)
    ensures Wellformed(s)
  {
    assert Follows(c, visited0, s, []);
    AllDone(c, visited0, s);
    if visited0 * Level(c, Bound(c)) <= {c.start} {
      Complete(c, visited0, s);
    }
    forall u | u in s.tree
      ensures s.tree[u].classification.risk == RiskOf(s.tree[u].classification.kind)
    {
      FaithfulLinks(c, web, u);
      ClassifyPairing(u, web.parse(u).path);
    }
  }

  /** Removing more of a set leaves less of it. */
  lemma Shrinks(all: set<string>, keys: set<string>, keys': set<string>)
    requires keys <= keys' <= all && keys != keys'
    ensures all - keys' < all - keys
  {
    var u :| u in keys' && u !in keys;
    assert u in all - keys;
  }

  // ---------------------------------------------------------------------
  // The crawler object
  // ---------------------------------------------------------------------

  /** The report's entries: the tree's keys in insertion order, each with
      its classification. */
  function EntriesOf(order: seq<string>, tree: map<string, Node>): seq<Entry>
    requires forall u :: u in order ==> u in tree
  {
    seq(|order|, i requires 0 <= i < |order| => Entry(order[i], tree[order[i]].classification))
  }

  /** A URL is in a section of the report over a tree exactly when it is a
      key of the tree whose classification belongs to that section. */
  lemma ReportMember(order: seq<string>, tree: map<string, Node>, u: string, section: Section)
    requires forall v :: v in tree <==> v in order
    ensures u in UrlsIn(EntriesOf(order, tree), section) <==> u in tree && SectionOf(tree[u].classification) == Some(section)
  {
    var entries := EntriesOf(order, tree);
    UrlsInMember(entries, section, u);
    if u in tree && SectionOf(tree[u].classification) == Some(section) {
      var i :| 0 <= i < |order| && order[i] == u;
      assert entries[i].url == u;
    }
  }

  /** Taking one more key of the order adds its entry at the end. */
  lemma EntriesSnoc(order: seq<string>, tree: map<string, Node>, i: nat)
    requires forall u :: u in order ==> u in tree
    requires i < |order|
    ensures EntriesOf(order[..i + 1], tree) == EntriesOf(order[..i], tree) + [Entry(order[i], tree[order[i]].classification)]
  {
  }

  /** The report over a tree lists in a section exactly the keys whose
      classification belongs to it. */
  lemma ReportSection(order: seq<string>, tree: map<string, Node>, section: Section, u: string)
    requires forall v :: v in tree <==> v in order
    ensures u in Get(Collect(EntriesOf(order, tree)), section) <==> u in tree && SectionOf(tree[u].classification) == Some(section)
  {
    CollectSections(EntriesOf(order, tree), section);
    ReportMember(order, tree, u, section);
  }

  /** ReportSection for every section and URL at once. */
  lemma ReportSections(order: seq<string>, tree: map<string, Node>, report: SecurityReport)
    requires forall v :: v in tree <==> v in order
    requires report == Collect(EntriesOf(order, tree))
    ensures forall section, u :: u in Get(report, section) <==>
      u in tree && SectionOf(tree[u].classification) == Some(section)
  {
    forall section, u
      ensures u in Get(report, section) <==>
        u in tree && SectionOf(tree[u].classification) == Some(section)
    {
      ReportSection(order, tree, section, u);
    }
  }

  /** The report over a well-formed tree has an empty sensitive
      section. */
  lemma ReportNotSensitive(s: State)
    requires Wellformed(s)
    ensures Collect(EntriesOf(s.order, s.tree)).sensitiveUrls == []
  {
    var entries := EntriesOf(s.order, s.tree);
    forall i | 0 <= i < |entries|
      ensures entries[i].classification.risk == RiskOf(entries[i].classification.kind)
    {
      assert s.order[i] in s.tree;
    }
    NoSensitiveUrls(entries);
  }

  /** generate_security_report's loop over the tree's items, in insertion
      order. */
  method FileAll(order: seq<string>, tree: map<string, Node>) returns (report: SecurityReport)
    requires forall u :: u in order ==> u in tree
    ensures report == Collect(EntriesOf(order, tree))
  {
    report := EmptyReport;
    var i := 0;
    while i < |order|
      invariant 0 <= i <= |order|
      invariant report == Collect(EntriesOf(order[..i], tree))
    {
      var url := order[i];
      var classification := tree[url].classification;
      report := File(report, Entry(url, classification));
      EntriesSnoc(order, tree, i);
      CollectSnoc(EntriesOf(order[..i], tree), Entry(url, classification));
      i := i + 1;
    }
    assert order[..|order|] == order;
  }

  /** The analyzer: visited persists across crawls, tree and order are
      rebuilt by BuildTree. BuildTree and GenerateSecurityReport are the
      entry points. AddChildren, AddChild, SetChildren, ExpandHead and
      Advance are steps of build_tree's loop: each is proved only under
      the loop invariant Inv that BuildTree keeps, and is not meant to be
      called on its own. */
  class WebTopo {
    /** How many levels below the start URL are expanded. */
    const maxDepth: int
    var visited: set<string>
    var tree: map<string, Node>
    /** The keys of `tree` in insertion order, the order a Python dict
        iterates in. */
    var order: seq<string>
    /** The depth at which each key of `tree` was found. */
    ghost var depth: map<string, nat>

    ghost function Snapshot(): State
      reads this
    {
      State(visited, tree, order, depth)
    }

    ghost predicate Valid()
      reads this
    {
      Wellformed(Snapshot())
    }

    constructor(maxDepth: int := 2)
      ensures Valid()
      ensures this.maxDepth == maxDepth && visited == {} && tree == map[] && order == []
    {
      this.maxDepth := maxDepth;
      visited := {};
      tree := map[];
      order := [];
      depth := map[];
    }

    /** The loop over the links of an expanded page: each link to a URL not
        yet visited is marked visited, becomes a childless node with the
        link's classification, one level deeper, and is queued. */
    method AddChildren(ghost c: Ctx, links: seq<Link>, childDepth: nat, queue: seq<Item>) returns (queue': seq<Item>)
      requires tree.Keys <= visited && depth.Keys <= visited
      requires forall l :: l in links ==> l.classification == c.classify(l.url)
      modifies this
      ensures Added(c, old(Snapshot()), Snapshot(), links, childDepth)
      ensures queue' == queue + Enqueued(NewUrls(links, old(visited)), childDepth)
    {
      ghost var s0 := Snapshot();
      queue' := queue;
      var i := 0;
      assert Elems([]) == {};
      while i < |links|
        invariant 0 <= i <= |links|
        invariant Added(c, s0, Snapshot(), links[..i], childDepth)
        invariant queue' == queue + Enqueued(NewUrls(links[..i], s0.visited), childDepth)
      {
        var link := links[i];
        ghost var s := Snapshot();
        AddedStep(c, s0, s, links, i, childDepth);
        QueuedStep(s0, s, links, i, childDepth, queue, queue');
        queue' := AddChild(link, childDepth, queue');
        i := i + 1;
      }
      assert links[..|links|] == links;
    }

    /** The body of the loop over a page's links: a link to an unvisited
        URL is visited, recorded as a childless node with its
        classification and queued one level down. */
    method AddChild(link: Link, childDepth: nat, queue: seq<Item>) returns (queue': seq<Item>)
      modifies this
      ensures Snapshot() == Visit(old(Snapshot()), link, childDepth)
      ensures queue' == QueueVisit(old(Snapshot()), link, childDepth, queue)
    {
      queue' := queue;
      if link.url !in visited {
        visited := visited + {link.url};
        tree := tree[link.url := Node(link.classification, [])];
        depth := depth[link.url := childDepth];
        order := order + [link.url];
        queue' := queue' + [Item(link.url, childDepth)];
      }
    }

    /** get_links, as the crawler calls it: the links carry the crawl's
        classifications. */
    method FetchLinks(ghost c: Ctx, web: Web, url: string, baseDomain: string) returns (links: seq<Link>)
      requires Faithful(c, web) && baseDomain == web.parse(c.start).netloc
      ensures links == c.links(url)
      ensures forall l :: l in links ==> l.classification == c.classify(l.url)
    {
      links := GetLinks(c.classify, web, url, baseDomain);
      forall l | l in links
        ensures l.classification == c.classify(l.url)
      {
        LinksSound(web, c.classify, url, baseDomain, l);
      }
    }

    /** One turn of build_tree's loop: the head of the queue is taken off;
        unless it is at the depth limit, it is expanded.  The turn keeps
        the loop invariant, adds keys or shortens the queue, and never
        removes a key. */
    method Advance(ghost c: Ctx, ghost visited0: set<string>, web: Web, baseDomain: string, queue: seq<Item>)
      returns (queue': seq<Item>)
      requires Faithful(c, web) && c.maxDepth == maxDepth && baseDomain == web.parse(c.start).netloc
      requires Inv(c, visited0, Snapshot(), queue) && queue != []
      requires OnTrack(c, visited0, Snapshot(), queue)
      modifies this
      ensures Inv(c, visited0, Snapshot(), queue')
      ensures OnTrack(c, visited0, Snapshot(), queue')
      ensures old(tree).Keys <= tree.Keys
      ensures tree.Keys == old(tree).Keys ==> |queue'| < |queue|
    {
      ghost var s := Snapshot();
      if queue[0].depth >= maxDepth {
        SkipTurn(c, visited0, s, queue);
        queue' := queue[1..];
      } else {
        HeadKnown(c, visited0, s, queue);
        queue' := ExpandHead(c, web, baseDomain, queue);
        ghost var s2 := Snapshot();
        ExpandTurn(c, visited0, s, queue, s2);
        TurnProgress(c, s, queue, s2);
      }
    }

    /** The head of the queue is below the depth limit: its page's links
        become its children, and the links to unvisited URLs are recorded
        and queued. */
    method ExpandHead(ghost c: Ctx, web: Web, baseDomain: string, queue: seq<Item>)
      returns (queue': seq<Item>)
      requires Faithful(c, web) && c.maxDepth == maxDepth && baseDomain == web.parse(c.start).netloc
      requires queue != [] && queue[0].url in tree && queue[0].depth < maxDepth
      requires tree.Keys <= visited && depth.Keys <= visited
      modifies this
      ensures Turn(c, old(Snapshot()), queue, Snapshot())
      ensures queue' == NextQueue(c, old(Snapshot()), queue)
    {
      var item := queue[0];
      var links := FetchLinks(c, web, item.url, baseDomain);
      SetChildren(c, item.url, links);
      queue' := AddChildren(c, links, item.depth + 1, queue[1..]);
    }

    /** self.tree[url]['children'] = links */
    method SetChildren(ghost c: Ctx, url: string, links: seq<Link>)
      requires url in tree && links == c.links(url)
      requires tree.Keys <= visited && depth.Keys <= visited
      modifies this
      ensures Snapshot() == Expand(c, old(Snapshot()), url)
      ensures tree.Keys <= visited && depth.Keys <= visited
    {
      tree := tree[url := tree[url].(children := links)];
    }

    /** build_tree: a breadth-first crawl from startUrl on its network
        location; see Crawled for what it leaves behind. */
    method BuildTree(startUrl: string, web: Web) returns (result: map<string, Node>)
      modifies this
      ensures result == tree && Valid()
      ensures Crawled(CrawlOf(web, startUrl, maxDepth), old(visited), Snapshot())
    {
      var baseDomain := web.parse(startUrl).netloc;
      ghost var c := CrawlOf(web, startUrl, maxDepth);
      ghost var visited0 := visited;
      var startClassification := ClassifyWith(c.classify, web, startUrl);
      var queue := [Item(startUrl, 0)];
      visited := visited + {startUrl};
      tree := map[startUrl := Node(startClassification, [])];
      order := [startUrl];
      depth := map[startUrl := 0];
      StartInv(c, visited0);
      StartFollows(c, visited0);
      assert Snapshot() == Start(c, visited0);
      while queue != []
        invariant Inv(c, visited0, Snapshot(), queue)
        invariant OnTrack(c, visited0, Snapshot(), queue)
        decreases Level(c, Bound(c)) - tree.Keys, |queue|
      {
        ghost var keys := tree.Keys;
        queue := Advance(c, visited0, web, baseDomain, queue);
        KeysReachable(c, Snapshot());
        if tree.Keys != keys {
          Shrinks(Level(c, Bound(c)), keys, tree.Keys);
        }
      }
      result := tree;
      Finish(c, web, visited0, Snapshot());
    }

    /** generate_security_report: every key of the tree, in insertion
        order, goes to the section its classification selects.  Each
        section lists exactly the keys whose classification belongs to it;
        the sensitive section stays empty, because every stored risk is
        the one its type comes with. */
    method GenerateSecurityReport() returns (report: SecurityReport)
      requires Valid()
      ensures report == Collect(EntriesOf(order, tree))
      ensures forall section, u :: u in Get(report, section) <==> u in tree && SectionOf(tree[u].classification) == Some(section)
      ensures report.sensitiveUrls == []
    {
      report := FileAll(order, tree);
      ReportSections(order, tree, report);
      ReportNotSensitive(Snapshot());
    }
  }
}

/** The link filter of one crawled page: fetch the page, resolve every
    anchor that has an href against the page URL, keep the resolved URLs
    that are on the site and are not fragments or mail links, and annotate
    each kept URL with its classification and its anchor text. */
module Links {
  import opened Wrappers
  import opened Text
  import opened Classifier

  /** The two components of urlparse's result the program reads. */
  datatype UrlParts = UrlParts(netloc: string, path: string)

  /** One `<a href=...>` element of a fetched page: the raw href and the
      element's text with surrounding white space stripped. */
  datatype Anchor = Anchor(href: string, text: string)

  /** Everything outside the program the link filter depends on.
      `fetch` is the HTTP GET with status check followed by HTML parsing:
      None when the request raises or the status is an error, otherwise the
      page's anchors in document order.  `parse` is urlparse and `join` is
      urljoin. */
  datatype Web = Web(
    fetch: string -> Option<seq<Anchor>>,
    parse: string -> UrlParts,
    join: (string, string) -> string)

  /** One annotated link of a page. */
  datatype Link = Link(url: string, classification: Classification, text: string)

  /** Anchor text is cut to its first 50 characters. */
  const TextLimit: nat := 50

  /** classify_url: the classifier applied to the URL and to the path
      urlparse finds in it. */
  function ClassifyUrl(web: Web, url: string): (r: Classification)
    ensures r.risk == RiskOf(r.kind)
    ensures r.kind == Normal <==> r.tags == []
  {
    ClassifyPairing(url, web.parse(url).path);
    Classify(url, web.parse(url).path)
  }

  /** classify_url as a function value.  The link filter below is stated
      for any classifier function; the program's is this one. */
  function ClassifierOf(web: Web): string -> Classification {
    u => ClassifyUrl(web, u)
  }

  /** `classify` agrees with classify_url on every URL. */
  ghost predicate Classifies(web: Web, classify: string -> Classification) {
    forall u {:trigger ClassifyUrl(web, u)} :: classify(u) == ClassifyUrl(web, u)
  }

  /** The call of classify_url in get_links's loop (webtopo.py:113).  Not an
      operation of its own: its contract only says the result is
      classify(url), so that the proofs of FilterAnchors and BuildTree
      reason about the classifier value and do not unfold ClassifyUrl. */
  method ClassifyWith(ghost classify: string -> Classification, web: Web, url: string) returns (r: Classification)
    requires Classifies(web, classify)
    ensures r == classify(url)
  {
    r := ClassifyUrl(web, url);
  }

  /** is_valid_url: the URL is on the crawled host, or relative (no
      network location). */
  predicate IsValidUrl(web: Web, url: string, baseDomain: string) {
    var netloc := web.parse(url).netloc;
    netloc == baseDomain || netloc == ""
  }

  /** A URL passes is_valid_url for every base domain exactly when
      urlparse finds no network location in it; one that has a network
      location passes for that host alone. */
  lemma ValidForAnyDomain(web: Web, url: string)
    ensures (forall d :: IsValidUrl(web, url, d)) <==> web.parse(url).netloc == ""
    ensures web.parse(url).netloc != "" ==> forall d :: IsValidUrl(web, url, d) <==> d == web.parse(url).netloc
  {
    var netloc := web.parse(url).netloc;
    if netloc != "" {
      var other := netloc + "x";
      assert other != netloc by {
        assert |other| == |netloc| + 1;
      }
      assert !IsValidUrl(web, url, other);
    }
  }

  /** The four conditions a resolved URL must meet to be kept. */
  predicate Keep(web: Web, url: string, baseDomain: string) {
    StartsWith(url, "http")
    && IsValidUrl(web, url, baseDomain)
    && '#' !in url
    && !Contains(url, "mailto:")
  }

  function Resolve(web: Web, pageUrl: string, a: Anchor): string {
    web.join(pageUrl, a.href)
  }

  function Annotate(web: Web, classify: string -> Classification, pageUrl: string, a: Anchor): Link {
    var url := Resolve(web, pageUrl, a);
    Link(url, classify(url), Take(a.text, TextLimit))
  }

  /** The anchors whose resolved URL passes the filter, in document
      order. */
  function KeptAnchors(web: Web, pageUrl: string, anchors: seq<Anchor>, baseDomain: string): (r: seq<Anchor>)
    ensures |r| <= |anchors|
  {
    if anchors == [] then []
    else
      var init := KeptAnchors(web, pageUrl, anchors[..|anchors| - 1], baseDomain);
      var a := anchors[|anchors| - 1];
      if Keep(web, Resolve(web, pageUrl, a), baseDomain) then init + [a] else init
  }

  /** Annotation of the anchors of one page, as a function value. */
  function Annotator(web: Web, classify: string -> Classification, pageUrl: string): Anchor -> Link {
    a => Annotate(web, classify, pageUrl, a)
  }

  /** f applied to every element of s, in order. */
  function Map<A, B>(f: A -> B, s: seq<A>): (r: seq<B>)
    ensures |r| == |s|
  {
    if s == [] then [] else Map(f, s[..|s| - 1]) + [f(s[|s| - 1])]
  }

  function AnnotateAll(web: Web, classify: string -> Classification, pageUrl: string, kept: seq<Anchor>): seq<Link> {
    Map(Annotator(web, classify, pageUrl), kept)
  }

  /** The links get_links returns for a page when URLs are classified by
      `classify`: none when the fetch fails. */
  function LinksWith(web: Web, classify: string -> Classification, pageUrl: string, baseDomain: string): seq<Link> {
    match web.fetch(pageUrl)
    case None => []
    case Some(anchors) => AnnotateAll(web, classify, pageUrl, KeptAnchors(web, pageUrl, anchors, baseDomain))
  }

  /** The links get_links returns for a page. */
  function LinksOf(web: Web, pageUrl: string, baseDomain: string): seq<Link> {
    LinksWith(web, ClassifierOf(web), pageUrl, baseDomain)
  }

  /** get_links: no links when the page cannot be fetched, otherwise
      the filtered and annotated links of its anchors. */
  method GetLinks(ghost classify: string -> Classification, web: Web, pageUrl: string, baseDomain: string)
    returns (links: seq<Link>)
    requires Classifies(web, classify)
    ensures links == LinksWith(web, classify, pageUrl, baseDomain)
  {
    var page := web.fetch(pageUrl);
    if page.None? {
      return [];
    }
    links := FilterAnchors(classify, web, pageUrl, page.value, baseDomain);
  }

  /** get_links's loop: one pass over the page's anchors. */
  method FilterAnchors(ghost classify: string -> Classification, web: Web, pageUrl: string,
                       anchors: seq<Anchor>, baseDomain: string)
    returns (links: seq<Link>)
    requires Classifies(web, classify)
    ensures links == AnnotateAll(web, classify, pageUrl, KeptAnchors(web, pageUrl, anchors, baseDomain))
  {
    links := [];
    var i := 0;
    while i < |anchors|
      invariant 0 <= i <= |anchors|
      invariant links == AnnotateAll(web, classify, pageUrl, KeptAnchors(web, pageUrl, anchors[..i], baseDomain))
    {
      var a := anchors[i];
      var fullUrl := web.join(pageUrl, a.href);
      LinksStep(web, classify, pageUrl, anchors, i, baseDomain);
      if Keep(web, fullUrl, baseDomain) {
        var classification := ClassifyWith(classify, web, fullUrl);
        links := links + [Link(fullUrl, classification, Take(a.text, TextLimit))];
      }
      i := i + 1;
    }
    assert anchors[..|anchors|] == anchors;
  }

  /** One more anchor adds its annotated link when its resolved URL
      passes the filter, and nothing otherwise. */
  lemma LinksStep(web: Web, classify: string -> Classification, pageUrl: string, anchors: seq<Anchor>, i: nat, baseDomain: string)
    requires i < |anchors|
    ensures AnnotateAll(web, classify, pageUrl, KeptAnchors(web, pageUrl, anchors[..i + 1], baseDomain))
         == AnnotateAll(web, classify, pageUrl, KeptAnchors(web, pageUrl, anchors[..i], baseDomain))
          + (if Keep(web, Resolve(web, pageUrl, anchors[i]), baseDomain) then [Annotate(web, classify, pageUrl, anchors[i])] else [])
  {
    var a := anchors[i];
    var kept := KeptAnchors(web, pageUrl, anchors[..i], baseDomain);
    assert anchors[..i + 1][..i] == anchors[..i];
    if Keep(web, Resolve(web, pageUrl, a), baseDomain) {
      MapSnoc(Annotator(web, classify, pageUrl), kept, a);
    }
  }

  lemma MapSnoc<A, B>(f: A -> B, s: seq<A>, x: A)
    ensures Map(f, s + [x]) == Map(f, s) + [f(x)]
  {
    assert (s + [x])[..|s|] == s;
  }

  /** Mapping distributes over concatenation. */
  lemma {:induction false} MapAppend<A, B>(f: A -> B, a: seq<A>, b: seq<A>)
    ensures Map(f, a + b) == Map(f, a) + Map(f, b)
    decreases |b|
  {
    if b == [] {
      assert a + b == a;
    } else {
      var b' := b[..|b| - 1];
      assert a + b == (a + b') + [b[|b| - 1]];
      MapSnoc(f, a + b', b[|b| - 1]);
      MapAppend(f, a, b');
    }
  }

  /** y is in the image of s exactly when it is the image of one of its
      elements. */
  lemma {:induction false} MapMember<A, B>(f: A -> B, s: seq<A>, y: B)
    ensures y in Map(f, s) <==> exists x :: x in s && y == f(x)
    decreases |s|
  {
    if s != [] {
      var init := s[..|s| - 1];
      MapMember(f, init, y);
      assert forall x :: x in s <==> x in init || x == s[|s| - 1];
    }
  }

  /** Filtering distributes over concatenation. */
  lemma {:induction false} KeptAnchorsAppend(web: Web, pageUrl: string, a: seq<Anchor>, b: seq<Anchor>, baseDomain: string)
    ensures KeptAnchors(web, pageUrl, a + b, baseDomain)
         == KeptAnchors(web, pageUrl, a, baseDomain) + KeptAnchors(web, pageUrl, b, baseDomain)
    decreases |b|
  {
    if b == [] {
      assert a + b == a;
    } else {
      var b' := b[..|b| - 1];
      assert (a + b)[..|a + b| - 1] == a + b';
      assert (a + b)[|a + b| - 1] == b[|b| - 1];
      KeptAnchorsAppend(web, pageUrl, a, b', baseDomain);
    }
  }

  /** The links of a page keep the document order of their anchors: the
      links of a split anchor list are those of its first part followed by
      those of its second. */
  lemma LinksInDocumentOrder(web: Web, classify: string -> Classification, pageUrl: string,
                             a: seq<Anchor>, b: seq<Anchor>, baseDomain: string)
    requires web.fetch(pageUrl) == Some(a + b)
    ensures LinksWith(web, classify, pageUrl, baseDomain)
         == AnnotateAll(web, classify, pageUrl, KeptAnchors(web, pageUrl, a, baseDomain))
          + AnnotateAll(web, classify, pageUrl, KeptAnchors(web, pageUrl, b, baseDomain))
  {
    KeptAnchorsAppend(web, pageUrl, a, b, baseDomain);
    MapAppend(Annotator(web, classify, pageUrl), KeptAnchors(web, pageUrl, a, baseDomain), KeptAnchors(web, pageUrl, b, baseDomain));
  }

  /** An anchor is kept exactly when it is an anchor of the page whose
      resolved URL passes the filter. */
  lemma {:induction false} KeptAnchorsMember(web: Web, pageUrl: string, anchors: seq<Anchor>, baseDomain: string, a: Anchor)
    ensures a in KeptAnchors(web, pageUrl, anchors, baseDomain)
        <==> a in anchors && Keep(web, Resolve(web, pageUrl, a), baseDomain)
    decreases |anchors|
  {
    if anchors != [] {
      var init := anchors[..|anchors| - 1];
      KeptAnchorsMember(web, pageUrl, init, baseDomain, a);
      assert a in anchors <==> a in init || a == anchors[|anchors| - 1];
    }
  }

  /** A link is returned exactly when some anchor of the page resolves to
      a URL that passes the filter, and it then carries that anchor's
      annotation. */
  lemma LinksMember(web: Web, classify: string -> Classification, pageUrl: string, baseDomain: string, l: Link)
    requires web.fetch(pageUrl).Some?
    ensures l in LinksWith(web, classify, pageUrl, baseDomain)
        <==> exists a :: a in web.fetch(pageUrl).value && Keep(web, Resolve(web, pageUrl, a), baseDomain)
                        && l == Annotate(web, classify, pageUrl, a)
  {
    var anchors := web.fetch(pageUrl).value;
    var kept := KeptAnchors(web, pageUrl, anchors, baseDomain);
    MapMember(Annotator(web, classify, pageUrl), kept, l);
    forall a ensures a in kept <==> a in anchors && Keep(web, Resolve(web, pageUrl, a), baseDomain) {
      KeptAnchorsMember(web, pageUrl, anchors, baseDomain, a);
    }
  }

  /** Every link get_links returns passed the filter, is classified by
      the classifier, carries at most 50 characters of text taken from the
      front of some anchor's text, and came from an anchor of the page. */
  lemma LinksSound(web: Web, classify: string -> Classification, pageUrl: string, baseDomain: string, l: Link)
    requires l in LinksWith(web, classify, pageUrl, baseDomain)
    ensures web.fetch(pageUrl).Some?
    ensures Keep(web, l.url, baseDomain)
    ensures IsValidUrl(web, l.url, baseDomain) && StartsWith(l.url, "http")
    ensures l.classification == classify(l.url)
    ensures |l.text| <= TextLimit
    ensures exists a :: a in web.fetch(pageUrl).value && l.url == Resolve(web, pageUrl, a)
                      && l.text == Take(a.text, TextLimit)
  {
    LinksMember(web, classify, pageUrl, baseDomain, l);
  }

  /** Conversely every anchor whose resolved URL passes the filter yields
      a link. */
  lemma LinksComplete(web: Web, classify: string -> Classification, pageUrl: string, baseDomain: string, a: Anchor)
    requires web.fetch(pageUrl).Some? && a in web.fetch(pageUrl).value
    requires Keep(web, Resolve(web, pageUrl, a), baseDomain)
    ensures Annotate(web, classify, pageUrl, a) in LinksWith(web, classify, pageUrl, baseDomain)
  {
    LinksMember(web, classify, pageUrl, baseDomain, Annotate(web, classify, pageUrl, a));
  }

  /** A page whose fetch fails has no links; a page that is fetched has
      at most one link per anchor. */
  lemma LinksOfBounds(web: Web, classify: string -> Classification, pageUrl: string, baseDomain: string)
    ensures web.fetch(pageUrl).None? ==> LinksWith(web, classify, pageUrl, baseDomain) == []
    ensures web.fetch(pageUrl).Some? ==> |LinksWith(web, classify, pageUrl, baseDomain)| <= |web.fetch(pageUrl).value|
  {
  }

  /** A link never leaves the crawled host: its network location is the
      start URL's or empty, and it has no fragment and no mail target. */
  lemma LinksStayOnSite(web: Web, classify: string -> Classification, pageUrl: string, baseDomain: string, l: Link)
    requires l in LinksWith(web, classify, pageUrl, baseDomain)
    ensures web.parse(l.url).netloc in {baseDomain, ""}
    ensures '#' !in l.url && !Contains(l.url, "mailto:")
  {
    LinksSound(web, classify, pageUrl, baseDomain, l);
  }

  /** The links depend on the classifier only through its values: two
      classifiers that agree on every URL give the same links. */
  lemma LinksWithAgree(web: Web, f: string -> Classification, g: string -> Classification, pageUrl: string, baseDomain: string)
    requires forall u :: f(u) == g(u)
    ensures LinksWith(web, f, pageUrl, baseDomain) == LinksWith(web, g, pageUrl, baseDomain)
  {
    if web.fetch(pageUrl).Some? {
      AnnotateAllAgree(web, f, g, pageUrl, KeptAnchors(web, pageUrl, web.fetch(pageUrl).value, baseDomain));
    }
  }

  lemma {:induction false} AnnotateAllAgree(web: Web, f: string -> Classification, g: string -> Classification,
                                            pageUrl: string, kept: seq<Anchor>)
    requires forall u :: f(u) == g(u)
    ensures AnnotateAll(web, f, pageUrl, kept) == AnnotateAll(web, g, pageUrl, kept)
    decreases |kept|
  {
    if kept != [] {
      AnnotateAllAgree(web, f, g, pageUrl, kept[..|kept| - 1]);
      assert Annotator(web, f, pageUrl)(kept[|kept| - 1]) == Annotator(web, g, pageUrl)(kept[|kept| - 1]);
    }
  }

  /** Each link's classification, made by classify_url, pairs its type
      with that type's risk. */
  lemma LinksPaired(web: Web, pageUrl: string, baseDomain: string, l: Link)
    requires l in LinksOf(web, pageUrl, baseDomain)
    ensures l.classification == ClassifyUrl(web, l.url)
    ensures l.classification.risk == RiskOf(l.classification.kind)
  {
    LinksSound(web, ClassifierOf(web), pageUrl, baseDomain, l);
    ClassifyPairing(l.url, web.parse(l.url).path);
  }
}

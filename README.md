# WebTopo in Dafny

WebTopo is a small web crawler. It crawls one site breadth-first from a
start URL down to a depth limit. It classifies every URL it finds
(`classify_url`) and records each page with its classification and its
links. From that tree it builds a security report. This project models the
crawler's core and proves what it does:

- `text.dfy` (module `Text`): the string operations the program relies on:
  lower-casing, prefix, suffix and substring tests, and slicing to a length.
- `classifier.dfy` (module `Classifier`): `classify_url` and its pattern
  bank of 52 entries.
  - The model applies the seven checks (pattern bank, login, API,
    configuration, backup, database, upload) in source order to the default
    record `normal`/`low`/`[]`.
  - A check that fires overwrites the type and the risk and appends its tag.
  - The lemmas describe the result for every URL: which tags it has, which
    check decides the type, which type/risk pairs can occur, and how the
    API and upload checks interact with the others.
- `examples_classify.dfy` (module `ClassifierExamples`): the classification
  of four concrete URLs, worked out in full.
- `links.dfy` (module `Links`): `is_valid_url` and `get_links`.
  - The page fetch, `urljoin` and `urlparse` are the parameter `Web`.
  - `GetLinks` and its loop `FilterAnchors` are proved equal to the
    function `LinksWith`.
  - The lemmas about `LinksWith` state what the returned links are:
    - sound: every link passes the four filter conditions, carries its URL's
      classification and at most 50 characters of text;
    - complete: every anchor that passes the filter gives a link;
    - in document order;
    - empty when the fetch fails.
- `report.dfy` (module `Report`): the if/elif chain of
  `generate_security_report`. The report over a list of entries is
  `Collect`. Each section is shown equal to an independent definition
  (`UrlsIn`), and the report's size is counted.
- `crawler.dfy` (module `Crawler`): the class `WebTopo`.
  - It has the fields `visited`, `tree` and `order`, the insertion order of
    the dict `tree`. It also has a ghost map from each key to the depth it
    was found at.
  - `BuildTree` is the queue loop of `build_tree`, proved against the
    predicate `Crawled`.
  - `GenerateSecurityReport` is the report loop, proved against `Collect`.
- `crawl_examples.dfy` (module `CrawlExamples`): a second crawl on the
  same crawler, and the order of the keys found from one page, each worked
  out on a three-page site.
- `wrappers.dfy` (module `Wrappers`): the optional value.

A few consequences of the code are worth knowing. They are all proved here:

- Pattern matching is done on the whole URL, host name included. So
  `https://site.env.test/` is an admin URL (`EnvHostIsAdmin`).
- Every API marker is also in the pattern bank. So an API URL always
  carries both `admin-panel` and `api` (`ApiImpliesAdminPanel`).
- A stored risk is always the one its type comes with. So the report's
  `sensitive_urls` section, reached only by a `normal` or `resource` URL
  with a high or critical risk, is always empty (`NoSensitiveUrls`,
  `GenerateSecurityReport`).
- `visited` is not reset between two calls of `build_tree`, but `tree` is.
  So a URL other than the start URL that an earlier crawl visited is
  neither added nor queued again; the start URL is always a key and is
  always queued.
  `Crawled` says the keys are exactly the URLs within the depth limit of
  the start only when no such URL except the start was visited before.
  Whatever else was visited, every key but the start is linked from a key
  one level up (`CrawledParents`), and a page linked only through an
  already visited URL other than the start URL is never found
  (`RecrawlStopsAtVisited`).
- The insertion order of the tree is the breadth-first discovery order:
  the reference definition `Discovery` takes the queue's entries off one
  by one, and `Crawled` says the insertion order and the depths are its
  result once every entry has been taken off. This fixes the order of the
  keys within one level too.
- The configuration, backup and database checks test the lower-cased full
  URL, query string included, and not the path (`webtopo.py:67`, `73`,
  `79`).
- `https://x.test/backup.sql` gets the tags `[admin-panel, database]`:
  `\.sql$` is in the pattern bank (`webtopo.py:29`) as well as in the
  database check (`BackupSqlIsDatabase`).
- The upload check reads the path without lower-casing it (`webtopo.py:85`).

## Model

| member | source | states |
|---|---|---|
| Classifier.Classify | webtopo.py:38-90 | the tags are exactly those of the checks that fire, in check order |
| Classifier.OverlayLastWins | webtopo.py:48-88 | running the checks in order leaves the type and risk of the last check that fires |
| Classifier.ClassifyDefault | webtopo.py:39-43 | the result is `normal`/`low`/no tags exactly when none of the seven checks fires |
| Classifier.ClassifyPairing | webtopo.py:38-90 | the risk is always the one that goes with the type, and the type is `normal` exactly when there are no tags |
| Classifier.ClassifyLastWins | webtopo.py:48-88 | a check decides the type (and then the risk) exactly when it fires and no later check does |
| Classifier.TagsOrderedAndDistinct | webtopo.py:48-88 | the tags follow check order and none is repeated |
| Classifier.ClassifyTagIff | webtopo.py:48-88 | each check's tag is present exactly when that check fires; `admin-panel` is present exactly when some bank entry matches |
| Classifier.UploadWins | webtopo.py:84-88 | an upload marker in the path makes the URL `resource`/`medium`, whatever else matches |
| Classifier.ApiHitIsBankHit | webtopo.py:18-32 | every URL the API check matches also matches the pattern bank |
| Classifier.ApiImpliesAdminPanel | webtopo.py:48-64 | an API URL carries both `admin-panel` and `api`, and its type is never `normal`, `admin` or `authentication` |
| ClassifierExamples.BackupSqlIsDatabase | webtopo.py:38-90 | `https://x.test/backup.sql` is `database`/`critical` with tags `admin-panel`, `database` |
| ClassifierExamples.EnvHostIsAdmin | webtopo.py:48-53 | `https://site.env.test/` is `admin`/`high`: the bank entry `\.env` matches the host name |
| ClassifierExamples.EnvIsConfiguration | webtopo.py:38-90 | `https://x.test/.env` is `configuration`/`high` with tags `admin-panel`, `config` |
| ClassifierExamples.DumpIsResource | webtopo.py:38-90 | `http://x/uploads/dump.sql` is `resource`/`medium` with tags `admin-panel`, `database`, `upload` |
| Links.ClassifyUrl | webtopo.py:38-90 | the risk of `classify_url`'s record is always the one its type comes with, and the type is `normal` exactly when there are no tags |
| Links.ValidForAnyDomain | webtopo.py:34-36 | a URL passes `is_valid_url` for every base domain exactly when `urlparse` finds no network location in it; otherwise it passes for its own host alone |
| Links.GetLinks | webtopo.py:92-124 | the result is `LinksWith`: no links when the fetch fails, otherwise the filtered and annotated anchors |
| Links.FilterAnchors | webtopo.py:103-118 | the loop over the anchors returns the annotations of the anchors that pass the filter, in document order |
| Links.LinksStep | webtopo.py:103-118 | one more anchor adds its link exactly when its resolved URL passes the filter |
| Links.LinksInDocumentOrder | webtopo.py:103-118 | the links of a page whose anchors are `a + b` are those of `a` followed by those of `b` |
| Links.LinksMember | webtopo.py:103-118 | a link is returned exactly when it is the annotation of a page anchor whose resolved URL passes the filter |
| Links.LinksSound | webtopo.py:107-117 | every returned link comes from a fetched anchor, starts with `http`, is on the site, has no `#` and no `mailto:`, carries its URL's classification and at most 50 characters of text |
| Links.LinksComplete | webtopo.py:107-118 | every anchor whose resolved URL passes the filter yields its annotated link |
| Links.LinksOfBounds | webtopo.py:122-124 | a failed fetch yields no links, and a page never yields more links than anchors |
| Links.LinksStayOnSite | webtopo.py:34-36 | every returned link's network location is the base domain or empty |
| Links.LinksWithAgree | webtopo.py:112 | two classifiers that agree on every URL give the same links |
| Links.LinksPaired | webtopo.py:112-117 | every link of `get_links` carries `classify_url` of its URL, with the risk that goes with its type |
| Report.Add | webtopo.py:236-249 | appending to one section leaves every other section unchanged |
| Report.SectionOf | webtopo.py:236-249 | each of the first six sections takes exactly the URLs of its type; the sensitive section takes exactly the URLs of the other types whose risk is high or critical |
| Report.CollectSnoc | webtopo.py:233-249 | filing one more entry puts it on top of the report of the earlier entries |
| Report.CollectSections | webtopo.py:222-251 | each section of the report is the URLs of the entries that belong to it, in entry order |
| Report.UrlsInMember | webtopo.py:233-249 | a URL is in a section exactly when some entry with that URL belongs to the section |
| Report.CollectSize | webtopo.py:233-249 | the report holds exactly as many URLs as there are entries that belong to some section |
| Report.AtMostOneSection | webtopo.py:235-249 | with distinct URLs, no URL is listed in two sections |
| Report.SectionOfPaired | webtopo.py:235-249 | a classification whose risk goes with its type is never sensitive, and is filed nowhere exactly when it is `normal` or `resource` |
| Report.NoSensitiveUrls | webtopo.py:247-249 | over entries whose risks go with their types, the sensitive section is empty |
| Crawler.CrawlOf | webtopo.py:126-128 | the crawl from the start URL is a faithful one: its links are `get_links` on the start URL's host and its classifications are `classify_url` |
| Crawler.FaithfulLinks | webtopo.py:143 | a faithful crawl's links and classifications are those of `get_links` and `classify_url` |
| Crawler.NewUrlsFresh | webtopo.py:146-154 | the URLs the link loop adds are distinct, unvisited and linked from the page, and every link of the page ends up visited |
| Crawler.AddedStep | webtopo.py:148-153 | one more link keeps the record of what the link loop has visited and stored |
| Crawler.QueuedStep | webtopo.py:154 | one more link appends its URL to the queue exactly when it was not visited |
| Crawler.StartInv | webtopo.py:130-133 | the seeded state satisfies the loop invariant |
| Crawler.StartFollows | webtopo.py:130-133 | the seeded insertion order is the first entry of the discovery order, with the start URL queued |
| Crawler.ExpandStep | webtopo.py:136-154 | expanding the head of the queue keeps the loop invariant |
| Crawler.SkipStep | webtopo.py:138-139 | dropping a queue entry at the depth limit keeps the loop invariant |
| Crawler.HeadKnown | webtopo.py:136-144 | the head of the queue is a key of the tree, and every key is visited |
| Crawler.TurnProgress | webtopo.py:143-154 | an expansion never removes a key, and adds one exactly when the page links to an unvisited URL |
| Crawler.ReachedWithin | webtopo.py:135-154 | once the queue is empty, and provided no URL within the depth limit except the start was visited before the crawl, every URL within j links of the start is a key at depth at most j |
| Crawler.Complete | webtopo.py:126-158 | the keys are exactly the URLs within the depth limit of the start, when none of them but the start was visited before |
| Crawler.DiscoveryStops | webtopo.py:135-136 | once every entry found has been taken off the queue, the discovery order finds nothing more |
| Crawler.DiscoveryGrows | webtopo.py:135-154 | taking more entries off the queue only appends to the discovery order |
| Crawler.DiscoveryParent | webtopo.py:138-154 | every entry of the discovery order but the first is linked from an earlier entry one level up, above the depth limit, and is not the start URL |
| Crawler.SkipFollows | webtopo.py:138-139 | dropping an entry at the depth limit keeps the insertion order equal to the discovery order |
| Crawler.ExpandFollows | webtopo.py:143-154 | expanding the head of the queue appends to the insertion order exactly what the discovery order finds next |
| Crawler.CrawledParents | webtopo.py:126-158 | after a crawl, every key but the start URL is the URL of a child of a key exactly one level up, above the depth limit |
| CrawlExamples.RecrawlStopsAtVisited | webtopo.py:146-154 | a start page that links only to a URL visited by an earlier crawl yields a tree of the start URL alone, whatever that URL links to |
| CrawlExamples.LinkOrderKept | webtopo.py:146-154 | a start page that links to `a` and then `b`, with a depth limit of 1, yields the insertion order `s`, `a`, `b` |
| Crawler.ZeroDepth | webtopo.py:138-139 | with a depth limit of zero or below, the tree is the classified start URL alone, with no children |
| Crawler.Finish | webtopo.py:126-158 | the invariant with an empty queue gives everything `Crawled` lists, and every stored risk goes with its type |
| Crawler.ReportSection | webtopo.py:233-249 | the report over a tree lists in a section exactly the keys whose classification belongs to it |
| Crawler.ReportSections | webtopo.py:233-249 | the report of a tree lists, in every section, exactly the keys whose classification belongs to that section |
| Crawler.ReportNotSensitive | webtopo.py:247-249 | the report over a crawled tree has an empty sensitive section |
| Crawler.FileAll | webtopo.py:233-249 | the loop over the tree's items, in insertion order, yields the report of the tree's entries |
| Crawler.WebTopo.constructor | webtopo.py:12-16 | a new crawler has the given depth limit (2 when none is given), nothing visited and an empty tree |
| Crawler.WebTopo.AddChildren | webtopo.py:146-154 | the loop over a page's links visits, stores (childless, with the link's classification, one level down) and queues exactly the URLs not visited before, in link order |
| Crawler.WebTopo.AddChild | webtopo.py:147-154 | one link to an unvisited URL is visited, stored and queued; a link to a visited URL changes nothing |
| Crawler.WebTopo.FetchLinks | webtopo.py:143 | the links fetched for a page are the crawl's links of that page, each carrying the crawl's classification of its URL |
| Crawler.WebTopo.ExpandHead | webtopo.py:136-154 | a head below the depth limit gets its page's links as children, and its new links are recorded and queued |
| Crawler.WebTopo.SetChildren | webtopo.py:144 | the expanded node gets the page's links as children, and nothing else changes |
| Crawler.WebTopo.Advance | webtopo.py:135-156 | one turn of the loop keeps the invariant and the insertion order equal to the discovery order, never removes a key, and either adds a key or shortens the queue |
| Crawler.WebTopo.BuildTree | webtopo.py:126-158 | the start URL is the first key at depth 0; the keys are the start URL and exactly the newly visited URLs, classified by `classify_url`, within their depth of the start and not deeper than the limit; keys above the limit have `get_links`'s links as children; keys are inserted by depth, in the breadth-first discovery order, with that order's depths; the tree is complete when nothing within the limit was visited before |
| Crawler.WebTopo.GenerateSecurityReport | webtopo.py:222-251 | each section lists, in insertion order, exactly the keys whose classification belongs to it, and the sensitive section is empty |

## Left out

- The network, HTML parsing, `urljoin` and `urlparse` are not modelled. They are the parameter `Web`:
  - `fetch` stands for `requests.get` with its status check and BeautifulSoup's scan for `<a href>` elements, including the stripping of anchor text;
  - `join` stands for `urljoin`, and `parse` for the `netloc` and `path` of `urlparse`.
- Links.GetLinks: any exception ends `get_links` with an empty list. The model has the fetch fail as a whole. It does not model an exception raised by `urljoin` or `urlparse` partway through the anchor loop, because those calls are total functions here.
- Regular expressions are replaced by literal matching. This is equivalent for the bank: its entries are plain text with escaped dots and an optional final `$`, and `$` matches at the end or before a final newline, as Python's does.
- Lower-casing, and `re.IGNORECASE`, are ASCII only. Python's Unicode case mapping is not modelled.
- The console output of `build_tree` and `get_links` and the `time.sleep(self.delay)` between pages are not modelled: they are I/O and timing with no effect on the result. The `delay` field is not modelled either.
- Crawler.WebTopo.BuildTree: `urlparse` and `classify_url` on the start URL (`webtopo.py:127`, `130`) raise out of `build_tree` when `urlparse` rejects the URL; the model does not have that path, because `parse` is a total function here.
- Crawler.WebTopo.BuildTree: the queue's third element, the classification of the queued URL, only feeds the console output, so queue entries hold a URL and a depth.
- Crawler.WebTopo.BuildTree: its contract is stated for the crawl `CrawlOf(web, startUrl, maxDepth)`, whose links and classifications are `get_links` and `classify_url` on that web (`FaithfulLinks`), and not on `LinksOf`/`ClassifyUrl` directly.
- `print_tree`, `get_page_name`, `print_security_report`, `save_tree_to_file` and the command-line entry point are not modelled: they only format and print or write the tree and the report.
- A Python dict's iteration order is insertion order. The model keeps it as the field `order`.

/** The depth-bounded crawler crawl_site of lib/mcp-cli/wrappers.ts. */
module Crawler {
  import opened Basics

  type Url = string

  /** The web as the crawl sees it: which navigations succeed, which links a page holds,
      and the origin of a URL (None when it does not parse). */
  datatype Web = Web(navigates: Url -> bool, links: Url -> seq<Url>, origin: Url -> Option<string>)

  datatype Item = Item(url: Url, foundOn: Url, currentDepth: nat)
  datatype Page = Page(url: Url, links: seq<Url>)
  datatype BrokenLink = BrokenLink(url: Url, foundOn: Url)
  datatype CrawlError = UrlRequired | InvalidUrl
  datatype CrawlReport = CrawlReport(results: seq<Page>, broken: seq<BrokenLink>, pagesVisited: nat)
  datatype Crawl = Failed(error: CrawlError) | Crawled(report: CrawlReport)

  /** The same-origin links of a page, in page order. */
  function InternalLinks(web: Web, base: Url, url: Url): seq<Url> {
    SameOrigin(web, base, web.links(url))
  }

  function SameOrigin(web: Web, base: Url, links: seq<Url>): seq<Url> {
    if links == [] then []
    else
      var rest := SameOrigin(web, base, links[..|links| - 1]);
      var link := links[|links| - 1];
      if web.origin(link).Some? && web.origin(link) == web.origin(base) then rest + [link] else rest
  }

  /** The filter keeps exactly the links that parse and share the base's origin. */
  lemma {:induction false} SameOriginExactly(web: Web, base: Url, links: seq<Url>, link: Url)
    ensures link in SameOrigin(web, base, links) <==>
            link in links && web.origin(link).Some? && web.origin(link) == web.origin(base)
  {
    if links != [] {
      SameOriginExactly(web, base, links[..|links| - 1], link);
      assert links == links[..|links| - 1] + [links[|links| - 1]];
    }
  }

  /** The kept links stand at ascending positions of the page's links, repeated ones included, and
      every link that shares the base's origin stands at one of them. */
  lemma {:induction false} KeptInOrder(web: Web, base: Url, links: seq<Url>) returns (positions: seq<nat>)
    ensures |positions| == |SameOrigin(web, base, links)|
    ensures forall k :: 0 <= k < |positions| ==>
              positions[k] < |links| && SameOrigin(web, base, links)[k] == links[positions[k]]
    ensures forall j, k :: 0 <= j < k < |positions| ==> positions[j] < positions[k]
    ensures forall i :: 0 <= i < |links| ==>
              (i in positions <==> web.origin(links[i]).Some? && web.origin(links[i]) == web.origin(base))
  {
    positions := [];
    if links != [] {
      var n := |links| - 1;
      positions := KeptInOrder(web, base, links[..n]);
      assert n !in positions;
      if web.origin(links[n]).Some? && web.origin(links[n]) == web.origin(base) {
        positions := positions + [n];
      }
    }
  }

  // ---------------------------------------------------------------- reachability

  /** A crawl edge: to is a same-origin link on the successfully navigated page from. */
  predicate Edge(web: Web, base: Url, from: Url, to: Url) {
    web.navigates(from) && to in InternalLinks(web, base, from)
  }

  /** A walk from base to url along crawl edges. */
  ghost predicate IsWalk(web: Web, base: Url, url: Url, walk: seq<Url>) {
    && |walk| > 0 && walk[0] == base && walk[|walk| - 1] == url
    && forall i :: 0 <= i < |walk| - 1 ==> Edge(web, base, walk[i], walk[i + 1])
  }

  /** url is at link distance at most k from base. */
  ghost predicate Within(web: Web, base: Url, url: Url, k: nat) {
    exists walk :: IsWalk(web, base, url, walk) && |walk| - 1 <= k
  }

  /** k is the link distance of url from base. */
  ghost predicate Distance(web: Web, base: Url, url: Url, k: nat) {
    Within(web, base, url, k) && (k > 0 ==> !Within(web, base, url, k - 1))
  }

  lemma WithinBase(web: Web, base: Url)
    ensures Within(web, base, base, 0)
  {
    assert IsWalk(web, base, base, [base]);
  }

  lemma WithinStep(web: Web, base: Url, from: Url, to: Url, k: nat)
    requires Within(web, base, from, k) && Edge(web, base, from, to)
    ensures Within(web, base, to, k + 1)
  {
    var walk :| IsWalk(web, base, from, walk) && |walk| - 1 <= k;
    var longer := walk + [to];
    forall i | 0 <= i < |longer| - 1 ensures Edge(web, base, longer[i], longer[i + 1]) {
      if i < |walk| - 1 {
        assert Edge(web, base, walk[i], walk[i + 1]);
      }
    }
    assert IsWalk(web, base, to, longer);
  }

  /** The last edge of a walk. */
  lemma WithinInverse(web: Web, base: Url, to: Url, k: nat) returns (from: Url)
    requires Within(web, base, to, k) && to != base
    ensures k > 0 && Within(web, base, from, k - 1) && Edge(web, base, from, to)
  {
    var walk :| IsWalk(web, base, to, walk) && |walk| - 1 <= k;
    var n := |walk| - 2;
    from := walk[n];
    assert Edge(web, base, walk[n], walk[n + 1]);
    assert IsWalk(web, base, from, walk[..n + 1]);
  }

  lemma WithinMore(web: Web, base: Url, url: Url, k: nat, m: nat)
    requires Within(web, base, url, k) && k <= m
    ensures Within(web, base, url, m)
  {
    var walk :| IsWalk(web, base, url, walk) && |walk| - 1 <= k;
    assert IsWalk(web, base, url, walk) && |walk| - 1 <= m;
  }

  // ---------------------------------------------------------------- termination

  /** The number of queue items a subtree of link walks of height fuel can ever hold:
      finite on every web, cyclic or infinite, because every page has finitely many links. */
  ghost function TreeSize(web: Web, base: Url, url: Url, fuel: nat): nat
    decreases fuel, 1, 0
  {
    1 + if fuel == 0 then 0 else ForestSize(web, base, InternalLinks(web, base, url), fuel - 1)
  }

  ghost function ForestSize(web: Web, base: Url, urls: seq<Url>, fuel: nat): nat
    decreases fuel, 2, |urls|
  {
    if urls == [] then 0
    else ForestSize(web, base, urls[..|urls| - 1], fuel) + TreeSize(web, base, urls[|urls| - 1], fuel)
  }

  /** The work left in the queue of a crawl of the given depth limit. */
  ghost function QueueSize(web: Web, base: Url, queue: seq<Item>, limit: nat): nat {
    if queue == [] then 0
    else
      var last := queue[|queue| - 1];
      QueueSize(web, base, queue[..|queue| - 1], limit) +
      TreeSize(web, base, last.url, if last.currentDepth <= limit then limit - last.currentDepth else 0)
  }

  lemma {:induction false} QueueSizeOfRest(web: Web, base: Url, queue: seq<Item>, limit: nat)
    requires queue != [] && queue[0].currentDepth <= limit
    ensures QueueSize(web, base, queue, limit) ==
            TreeSize(web, base, queue[0].url, limit - queue[0].currentDepth) + QueueSize(web, base, queue[1..], limit)
  {
    if |queue| > 1 {
      var init := queue[..|queue| - 1];
      QueueSizeOfRest(web, base, init, limit);
      assert queue[1..][..|queue| - 2] == init[1..];
    } else {
      assert queue[..0] == [] && queue[1..] == [];
    }
  }

  // ---------------------------------------------------------------- the search frontier

  ghost predicate InQueue(queue: seq<Item>, url: Url, k: nat) {
    exists item :: item in queue && item.url == url && item.currentDepth <= k
  }

  /** Why an item may be in the queue: it is the base, or it was found one step earlier. */
  ghost predicate Found(web: Web, base: Url, item: Item, depthOf: map<Url, nat>) {
    if item.currentDepth == 0 then item.url == base && item.foundOn == base
    else
      && item.foundOn in depthOf && depthOf[item.foundOn] == item.currentDepth - 1
      && Edge(web, base, item.foundOn, item.url)
  }

  /** Queue depths never decrease and span at most two levels. */
  ghost predicate Leveled(queue: seq<Item>) {
    && (forall i, j :: 0 <= i <= j < |queue| ==> queue[i].currentDepth <= queue[j].currentDepth)
    && (forall i :: 0 <= i < |queue| ==> queue[i].currentDepth <= queue[0].currentDepth + 1)
  }

  /** Every visited URL was dequeued at its distance, no later than the queue's front. */
  ghost predicate Settled(web: Web, base: Url, limit: nat, queue: seq<Item>, depthOf: map<Url, nat>) {
    forall u :: u in depthOf ==>
      && Distance(web, base, u, depthOf[u]) && depthOf[u] <= limit
      && (queue != [] ==> depthOf[u] <= queue[0].currentDepth)
  }

  /** Nothing reachable has been forgotten. */
  ghost predicate Pursued(web: Web, base: Url, limit: nat, queue: seq<Item>, depthOf: map<Url, nat>) {
    && (base in depthOf || InQueue(queue, base, 0))
    && forall u, v :: u in depthOf && depthOf[u] < limit && Edge(web, base, u, v) ==>
         v in depthOf || InQueue(queue, v, depthOf[u] + 1)
  }

  ghost predicate Justified(web: Web, base: Url, limit: nat, queue: seq<Item>, depthOf: map<Url, nat>) {
    forall item :: item in queue ==> item.currentDepth <= limit && Found(web, base, item, depthOf)
  }

  ghost predicate Frontier(web: Web, base: Url, limit: nat, queue: seq<Item>, depthOf: map<Url, nat>) {
    && Leveled(queue)
    && Justified(web, base, limit, queue, depthOf)
    && Settled(web, base, limit, queue, depthOf)
    && Pursued(web, base, limit, queue, depthOf)
  }

  lemma FrontierInitially(web: Web, base: Url, limit: nat)
    ensures Frontier(web, base, limit, [Item(base, base, 0)], map[])
  {
    assert Item(base, base, 0) in [Item(base, base, 0)];
  }

  /** A URL's distance is the least of its walk lengths. */
  lemma DistanceIsLeast(web: Web, base: Url, url: Url, d: nat, k: nat)
    requires Distance(web, base, url, d) && Within(web, base, url, k)
    ensures d <= k
  {
    var walk :| IsWalk(web, base, url, walk) && |walk| - 1 <= k;
  }

  /** Up to the level of the queue's front, everything reachable is visited or queued. */
  lemma {:induction false} Covered(web: Web, base: Url, limit: nat, queue: seq<Item>, depthOf: map<Url, nat>,
                                   u: Url, k: nat)
    requires Frontier(web, base, limit, queue, depthOf)
    requires k <= limit && (queue != [] ==> k <= queue[0].currentDepth)
    requires Within(web, base, u, k)
    ensures u in depthOf || InQueue(queue, u, k)
    decreases k
  {
    if u != base {
      var from := WithinInverse(web, base, u, k);
      Covered(web, base, limit, queue, depthOf, from, k - 1);
      assert from in depthOf;
      DistanceIsLeast(web, base, from, depthOf[from], k - 1);
    }
  }

  /** FIFO order pays off: an unvisited item at the front is at its shortest distance. */
  lemma FrontAtDistance(web: Web, base: Url, limit: nat, queue: seq<Item>, depthOf: map<Url, nat>)
    requires Frontier(web, base, limit, queue, depthOf)
    requires queue != [] && queue[0].url !in depthOf
    ensures Distance(web, base, queue[0].url, queue[0].currentDepth)
  {
    var item := queue[0];
    assert Found(web, base, item, depthOf);
    if item.currentDepth == 0 {
      WithinBase(web, base);
    } else {
      WithinStep(web, base, item.foundOn, item.url, item.currentDepth - 1);
      if Within(web, base, item.url, item.currentDepth - 1) {
        Covered(web, base, limit, queue, depthOf, item.url, item.currentDepth - 1);
      }
    }
  }

  lemma InQueueRest(queue: seq<Item>, pushed: seq<Item>, url: Url, k: nat)
    requires queue != [] && InQueue(queue, url, k) && url != queue[0].url
    ensures InQueue(queue[1..] + pushed, url, k)
  {
    var item :| item in queue && item.url == url && item.currentDepth <= k;
    assert queue == [queue[0]] + queue[1..];
    assert item in queue[1..] + pushed;
  }

  /** Dropping an item that was already visited keeps the frontier. */
  lemma SkipKeeps(web: Web, base: Url, limit: nat, queue: seq<Item>, depthOf: map<Url, nat>)
    requires Frontier(web, base, limit, queue, depthOf)
    requires queue != [] && queue[0].url in depthOf
    ensures Frontier(web, base, limit, queue[1..], depthOf)
  {
    hide Pursued, Distance, Found;
    assert Leveled(queue[1..]) by {
      LeveledRest(queue);
    }
    SkipPursued(web, base, limit, queue, depthOf);
  }

  lemma LeveledRest(queue: seq<Item>)
    requires Leveled(queue) && queue != []
    ensures Leveled(queue[1..])
  {
  }

  lemma SkipPursued(web: Web, base: Url, limit: nat, queue: seq<Item>, depthOf: map<Url, nat>)
    requires Pursued(web, base, limit, queue, depthOf)
    requires queue != [] && queue[0].url in depthOf
    ensures Pursued(web, base, limit, queue[1..], depthOf)
  {
    hide Edge;
    assert queue[1..] == queue[1..] + [];
    if base !in depthOf {
      InQueueRest(queue, [], base, 0);
    }
    forall u, v | u in depthOf && depthOf[u] < limit && Edge(web, base, u, v)
      ensures v in depthOf || InQueue(queue[1..], v, depthOf[u] + 1)
    {
      if v !in depthOf {
        InQueueRest(queue, [], v, depthOf[u] + 1);
      }
    }
  }

  /** What a visit of item pushes: one entry per same-origin link not yet visited. */
  ghost predicate PushedBy(web: Web, base: Url, limit: nat, item: Item, depthOf: map<Url, nat>, pushed: seq<Item>) {
    && (forall p :: p in pushed ==>
         && p.currentDepth == item.currentDepth + 1 <= limit && p.foundOn == item.url
         && Edge(web, base, item.url, p.url))
    && (item.currentDepth < limit ==>
         forall v :: Edge(web, base, item.url, v) ==> v in depthOf || exists p :: p in pushed && p.url == v)
  }

  /** Visiting the front item and pushing its unvisited links keeps the frontier. */
  lemma VisitKeeps(web: Web, base: Url, limit: nat, queue: seq<Item>, depthOf: map<Url, nat>, pushed: seq<Item>)
    requires Frontier(web, base, limit, queue, depthOf)
    requires queue != [] && queue[0].url !in depthOf
    requires PushedBy(web, base, limit, queue[0], depthOf[queue[0].url := queue[0].currentDepth], pushed)
    ensures Frontier(web, base, limit, queue[1..] + pushed, depthOf[queue[0].url := queue[0].currentDepth])
  {
    hide Leveled, Justified, Settled, Pursued, PushedBy, Distance;
    VisitJustified(web, base, limit, queue, depthOf, pushed);
    PushedDeeper(web, base, limit, queue[0], depthOf[queue[0].url := queue[0].currentDepth], pushed);
    LeveledAfterVisit(queue, pushed);
    FrontAtDistance(web, base, limit, queue, depthOf);
    assert queue[0].currentDepth <= limit by { FrontWithinLimit(web, base, limit, queue, depthOf); }
    VisitSettled(web, base, limit, queue, depthOf, queue[1..] + pushed);
    VisitPursued(web, base, limit, queue, depthOf, pushed);
  }

  lemma PushedDeeper(web: Web, base: Url, limit: nat, item: Item, depthOf: map<Url, nat>, pushed: seq<Item>)
    requires PushedBy(web, base, limit, item, depthOf, pushed)
    ensures forall p :: p in pushed ==> p.currentDepth == item.currentDepth + 1
  {
  }

  lemma FrontWithinLimit(web: Web, base: Url, limit: nat, queue: seq<Item>, depthOf: map<Url, nat>)
    requires Justified(web, base, limit, queue, depthOf) && queue != []
    ensures queue[0].currentDepth <= limit && Found(web, base, queue[0], depthOf)
  {
    assert queue[0] in queue;
  }

  lemma VisitJustified(web: Web, base: Url, limit: nat, queue: seq<Item>, depthOf: map<Url, nat>, pushed: seq<Item>)
    requires Justified(web, base, limit, queue, depthOf)
    requires queue != [] && queue[0].url !in depthOf
    requires PushedBy(web, base, limit, queue[0], depthOf[queue[0].url := queue[0].currentDepth], pushed)
    ensures Justified(web, base, limit, queue[1..] + pushed, depthOf[queue[0].url := queue[0].currentDepth])
  {
    hide Edge;
    assert queue == [queue[0]] + queue[1..];
  }

  lemma VisitSettled(web: Web, base: Url, limit: nat, queue: seq<Item>, depthOf: map<Url, nat>, queue': seq<Item>)
    requires Settled(web, base, limit, queue, depthOf)
    requires queue != [] && queue[0].currentDepth <= limit
    requires Distance(web, base, queue[0].url, queue[0].currentDepth)
    requires queue' != [] ==> queue[0].currentDepth <= queue'[0].currentDepth
    ensures Settled(web, base, limit, queue', depthOf[queue[0].url := queue[0].currentDepth])
  {
    hide Distance;
  }

  lemma VisitPursued(web: Web, base: Url, limit: nat, queue: seq<Item>, depthOf: map<Url, nat>, pushed: seq<Item>)
    requires Pursued(web, base, limit, queue, depthOf)
    requires queue != [] && queue[0].url !in depthOf
    requires PushedBy(web, base, limit, queue[0], depthOf[queue[0].url := queue[0].currentDepth], pushed)
    ensures Pursued(web, base, limit, queue[1..] + pushed, depthOf[queue[0].url := queue[0].currentDepth])
  {
    hide Edge;
    var item := queue[0];
    var queue', depthOf' := queue[1..] + pushed, depthOf[item.url := item.currentDepth];
    forall u, v | u in depthOf' && depthOf'[u] < limit && Edge(web, base, u, v)
      ensures v in depthOf' || InQueue(queue', v, depthOf'[u] + 1)
    {
      if v !in depthOf' {
        if u == item.url {
          var p :| p in pushed && p.url == v;
          assert p in queue';
        } else {
          assert InQueue(queue, v, depthOf[u] + 1);
          InQueueRest(queue, pushed, v, depthOf[u] + 1);
        }
      }
    }
    if base !in depthOf' {
      InQueueRest(queue, pushed, base, 0);
    }
  }

  lemma LeveledAfterVisit(queue: seq<Item>, pushed: seq<Item>)
    requires queue != [] && Leveled(queue)
    requires forall p :: p in pushed ==> p.currentDepth == queue[0].currentDepth + 1
    ensures Leveled(queue[1..] + pushed)
    ensures queue[1..] + pushed != [] ==> queue[0].currentDepth <= (queue[1..] + pushed)[0].currentDepth
  {
    var queue' := queue[1..] + pushed;
    forall i | 0 <= i < |queue'|
      ensures queue[0].currentDepth <= queue'[i].currentDepth <= queue[0].currentDepth + 1
      ensures i >= |queue| - 1 ==> queue'[i].currentDepth == queue[0].currentDepth + 1
    {
      if i < |queue| - 1 {
        assert queue'[i] == queue[i + 1];
      } else {
        assert queue'[i] in pushed;
      }
    }
    forall i, j | 0 <= i <= j < |queue'| ensures queue'[i].currentDepth <= queue'[j].currentDepth {
      if j < |queue| - 1 {
        assert queue'[i] == queue[i + 1] && queue'[j] == queue[j + 1];
      }
    }
  }

  // ---------------------------------------------------------------- the order of discovery

  /** A place where a URL can be found: a position among the links of the page navigated to as
      number page. The base itself is given, before all pages. */
  datatype Spot = Spot(page: int, position: int)

  const BASE_SPOT := Spot(-1, 0)

  predicate Before(a: Spot, b: Spot) {
    a.page < b.page || (a.page == b.page && a.position < b.position)
  }

  /** The spot is on a page of order whose navigation succeeded, and holds url. */
  ghost predicate Holds(web: Web, base: Url, order: seq<Url>, spot: Spot, url: Url) {
    if spot.page < 0 then spot == BASE_SPOT && url == base
    else
      && spot.page < |order| && web.navigates(order[spot.page])
      && 0 <= spot.position < |InternalLinks(web, base, order[spot.page])|
      && InternalLinks(web, base, order[spot.page])[spot.position] == url
  }

  /** Of all spots that hold the URL navigated to as number k, this is the first. */
  ghost predicate FirstFound(web: Web, base: Url, order: seq<Url>, k: nat, spot: Spot)
    requires k < |order|
  {
    && spot.page < k && Holds(web, base, order, spot, order[k])
    && forall other :: Holds(web, base, order, other, order[k]) ==> !Before(other, spot)
  }

  ghost predicate Ascending(spots: seq<Spot>) {
    forall i, j :: 0 <= i < j < |spots| ==> Before(spots[i], spots[j])
  }

  /** The page of a spot, and the URL a link found there is blamed on. */
  function PageOf(base: Url, order: seq<Url>, spot: Spot): Url
    requires spot.page < |order|
  {
    if spot.page < 0 then base else order[spot.page]
  }

  /** The navigations come level by level, each at the first spot that holds its URL, and these
      spots in the order of pages and of links on a page: the breadth-first order of the web. */
  ghost predicate BreadthFirst(web: Web, base: Url, order: seq<Url>, found: seq<Spot>, depthOf: map<Url, nat>) {
    && |found| == |order| && Ascending(found)
    && (forall k :: 0 <= k < |order| ==> FirstFound(web, base, order, k, found[k]))
    && (forall k :: 0 <= k < |order| ==> order[k] in depthOf)
    && (forall i, j :: 0 <= i <= j < |order| ==> depthOf[order[i]] <= depthOf[order[j]])
  }

  /** Every broken link is blamed on the page where it was first found. */
  ghost predicate BlamedOnFirst(base: Url, order: seq<Url>, found: seq<Spot>, broken: seq<BrokenLink>)
    requires |found| == |order|
  {
    forall link :: link in broken ==>
      exists k :: 0 <= k < |order| && found[k].page < k && link == BrokenLink(order[k], PageOf(base, order, found[k]))
  }

  lemma BlameFirstNext(base: Url, order: seq<Url>, found: seq<Spot>, broken: seq<BrokenLink>, url: Url, spot: Spot)
    requires |found| == |order| && BlamedOnFirst(base, order, found, broken) && spot.page < |order|
    ensures BlamedOnFirst(base, order + [url], found + [spot], broken)
    ensures BlamedOnFirst(base, order + [url], found + [spot], broken + [BrokenLink(url, PageOf(base, order, spot))])
  {
    var order', found' := order + [url], found + [spot];
    forall link | link in broken
      ensures exists k :: 0 <= k < |order'| && found'[k].page < k
                          && link == BrokenLink(order'[k], PageOf(base, order', found'[k]))
    {
      var k :| 0 <= k < |order| && found[k].page < k && link == BrokenLink(order[k], PageOf(base, order, found[k]));
      assert order'[k] == order[k] && found'[k] == found[k];
    }
    assert order'[|order|] == url && found'[|order|] == spot;
  }

  /** Where the item was found. */
  ghost predicate FoundAt(web: Web, base: Url, order: seq<Url>, depthOf: map<Url, nat>, item: Item, spot: Spot) {
    && Holds(web, base, order, spot, item.url) && item.foundOn == PageOf(base, order, spot)
    && if spot.page < 0 then item.currentDepth == 0
       else item.foundOn in depthOf && item.currentDepth == depthOf[item.foundOn] + 1
  }

  /** Every spot on a page above the depth limit waits in the queue, or its URL was visited. */
  ghost predicate NoneMissed(web: Web, base: Url, limit: nat, spots: seq<Spot>, order: seq<Url>, depthOf: map<Url, nat>)
    requires forall k :: 0 <= k < |order| ==> order[k] in depthOf
  {
    forall spot, url :: Holds(web, base, order, spot, url) && (spot.page < 0 || depthOf[order[spot.page]] < limit) ==>
      url in depthOf || spot in spots
  }

  /** The queue holds its items in the order of the spots where they were found, all behind those
      of the navigations made. */
  ghost predicate InLine(web: Web, base: Url, limit: nat, queue: seq<Item>, spots: seq<Spot>, order: seq<Url>,
                         found: seq<Spot>, depthOf: map<Url, nat>) {
    && |spots| == |queue| && Ascending(found + spots)
    && BreadthFirst(web, base, order, found, depthOf)
    && (forall k :: 0 <= k < |queue| ==> FoundAt(web, base, order, depthOf, queue[k], spots[k]))
    && NoneMissed(web, base, limit, spots, order, depthOf)
  }

  lemma LineStarts(web: Web, base: Url, limit: nat)
    ensures InLine(web, base, limit, [Item(base, base, 0)], [BASE_SPOT], [], [], map[])
  {
    assert [BASE_SPOT][0] in [BASE_SPOT];
  }

  lemma AscendingRest(found: seq<Spot>, spots: seq<Spot>)
    requires Ascending(found + spots) && spots != []
    ensures Ascending(found + spots[1..]) && Ascending(found + [spots[0]] + spots[1..])
  {
    assert found + spots == found + [spots[0]] + spots[1..];
    var all, rest := found + spots, found + spots[1..];
    forall i, j | 0 <= i < j < |rest| ensures Before(rest[i], rest[j]) {
      var a, b := if i < |found| then i else i + 1, if j < |found| then j else j + 1;
      assert rest[i] == all[a] && rest[j] == all[b];
    }
  }

  lemma FrontIsFirst(found: seq<Spot>, spots: seq<Spot>)
    requires Ascending(found + spots) && spots != []
    ensures forall spot :: spot in spots ==> !Before(spot, spots[0])
  {
    forall k | 0 <= k < |spots| ensures !Before(spots[k], spots[0]) {
      assert (found + spots)[|found|] == spots[0] && (found + spots)[|found| + k] == spots[k];
    }
  }

  /** Dropping an item that was already visited. */
  lemma SkipInLine(web: Web, base: Url, limit: nat, queue: seq<Item>, spots: seq<Spot>, order: seq<Url>,
                   found: seq<Spot>, depthOf: map<Url, nat>)
    requires InLine(web, base, limit, queue, spots, order, found, depthOf)
    requires queue != [] && queue[0].url in depthOf
    ensures InLine(web, base, limit, queue[1..], spots[1..], order, found, depthOf)
  {
    hide BreadthFirst, Ascending;
    AscendingRest(found, spots);
    assert BreadthFirst(web, base, order, found, depthOf);
    NavigatedDepths(web, base, order, found, depthOf);
    forall spot, url | Holds(web, base, order, spot, url) && (spot.page < 0 || depthOf[order[spot.page]] < limit)
      ensures url in depthOf || spot in spots[1..]
    {
      if url !in depthOf {
        assert spots == [spots[0]] + spots[1..];
      }
    }
  }

  lemma NavigatedDepths(web: Web, base: Url, order: seq<Url>, found: seq<Spot>, depthOf: map<Url, nat>)
    requires BreadthFirst(web, base, order, found, depthOf)
    ensures |found| == |order| && forall k :: 0 <= k < |order| ==> order[k] in depthOf
  {
  }

  /** FIFO order pays off again: an unvisited item at the front was found at the first spot that
      holds its URL. */
  lemma FrontFirstFound(web: Web, base: Url, limit: nat, queue: seq<Item>, spots: seq<Spot>, order: seq<Url>,
                        found: seq<Spot>, depthOf: map<Url, nat>)
    requires InLine(web, base, limit, queue, spots, order, found, depthOf)
    requires queue != [] && queue[0].url !in depthOf && queue[0].currentDepth <= limit
    ensures FirstFound(web, base, order + [queue[0].url], |order|, spots[0])
  {
    var u, longer := queue[0].url, order + [queue[0].url];
    assert FoundAt(web, base, order, depthOf, queue[0], spots[0]);
    HoldsLater(web, base, order, u, spots[0], u);
    FrontIsFirst(found, spots);
    forall other | Holds(web, base, longer, other, u) && other.page <= spots[0].page ensures other in spots {
      HoldsLater(web, base, order, u, other, u);
    }
  }

  lemma HoldsLater(web: Web, base: Url, order: seq<Url>, next: Url, spot: Spot, url: Url)
    requires spot.page < |order|
    ensures Holds(web, base, order + [next], spot, url) <==> Holds(web, base, order, spot, url)
  {
  }

  /** One more navigation, to the front of the queue. */
  lemma NavigateInLine(web: Web, base: Url, limit: nat, queue: seq<Item>, spots: seq<Spot>, order: seq<Url>,
                       found: seq<Spot>, depthOf: map<Url, nat>)
    requires Frontier(web, base, limit, queue, depthOf)
    requires InLine(web, base, limit, queue, spots, order, found, depthOf)
    requires queue != [] && queue[0].url !in depthOf
    requires forall i :: 0 <= i < |order| ==> order[i] != queue[0].url
    ensures BreadthFirst(web, base, order + [queue[0].url], found + [spots[0]],
                         depthOf[queue[0].url := queue[0].currentDepth])
  {
    hide Leveled, Pursued, Distance, Holds, NoneMissed;
    var u := queue[0].url;
    var order', found', depthOf' := order + [u], found + [spots[0]], depthOf[u := queue[0].currentDepth];
    FrontWithinLimit(web, base, limit, queue, depthOf);
    FrontFirstFound(web, base, limit, queue, spots, order, found, depthOf);
    assert found + spots == found' + spots[1..];
    assert Ascending(found') by {
      assert forall i :: 0 <= i < |found'| ==> found'[i] == (found + spots)[i];
    }
    forall k | 0 <= k < |order'| ensures FirstFound(web, base, order', k, found'[k]) {
      if k < |order| {
        FirstFoundLater(web, base, order, u, k, found[k]);
      }
    }
  }

  lemma FirstFoundLater(web: Web, base: Url, order: seq<Url>, next: Url, k: nat, spot: Spot)
    requires k < |order| && FirstFound(web, base, order, k, spot)
    ensures FirstFound(web, base, order + [next], k, spot)
  {
    HoldsLater(web, base, order, next, spot, order[k]);
    forall other | Holds(web, base, order + [next], other, order[k]) ensures !Before(other, spot) {
      if other.page < |order| {
        HoldsLater(web, base, order, next, other, order[k]);
      }
    }
  }

  /** pushed are the items of the unvisited ones among the first i links of the item's page, in
      page order; positions says where each of them stands. */
  ghost predicate PushedInOrder(item: Item, links: seq<Url>, i: nat, visited: set<Url>,
                                pushed: seq<Item>, positions: seq<nat>)
    requires i <= |links|
  {
    && |positions| == |pushed|
    && (forall k :: 0 <= k < |pushed| ==>
         && positions[k] < i && links[positions[k]] !in visited
         && pushed[k] == Item(links[positions[k]], item.url, item.currentDepth + 1))
    && (forall j, k :: 0 <= j < k < |positions| ==> positions[j] < positions[k])
    && (forall p :: 0 <= p < i && links[p] !in visited ==> p in positions)
  }

  /** What the visit of a page queues: at the depth limit nothing, above it every unvisited link. */
  ghost predicate PushedLinks(item: Item, links: seq<Url>, limit: nat, visited: set<Url>,
                              pushed: seq<Item>, positions: seq<nat>) {
    if item.currentDepth < limit then PushedInOrder(item, links, |links|, visited, pushed, positions)
    else pushed == [] && positions == []
  }

  function SpotsOn(page: int, positions: seq<nat>): seq<Spot> {
    seq(|positions|, k requires 0 <= k < |positions| => Spot(page, positions[k]))
  }

  lemma AscendingMore(found: seq<Spot>, spots: seq<Spot>, page: int, positions: seq<nat>)
    requires Ascending(found + spots) && forall spot :: spot in found || spot in spots ==> spot.page < page
    requires forall j, k :: 0 <= j < k < |positions| ==> positions[j] < positions[k]
    ensures Ascending(found + (spots + SpotsOn(page, positions)))
  {
    var front, all := found + spots, found + (spots + SpotsOn(page, positions));
    assert forall i :: 0 <= i < |all| ==>
             all[i] == if i < |front| then front[i] else SpotsOn(page, positions)[i - |front|];
    forall i | 0 <= i < |front| ensures front[i].page < page {
      assert front[i] in found || front[i] in spots;
    }
  }

  lemma AllAscending(web: Web, base: Url, limit: nat, queue: seq<Item>, spots: seq<Spot>, order: seq<Url>,
                     found: seq<Spot>, depthOf: map<Url, nat>, positions: seq<nat>)
    requires InLine(web, base, limit, queue, spots, order, found, depthOf) && queue != []
    requires forall j, k :: 0 <= j < k < |positions| ==> positions[j] < positions[k]
    ensures Ascending(found + [spots[0]] + (spots[1..] + SpotsOn(|order|, positions)))
  {
    hide Ascending, NoneMissed;
    AscendingRest(found, spots);
    forall spot | spot in found + [spots[0]] || spot in spots[1..] ensures spot.page < |order| {
      if spot in found {
        var k :| 0 <= k < |found| && found[k] == spot;
        assert FirstFound(web, base, order, k, found[k]);
      } else {
        assert spot in spots;
        var k :| 0 <= k < |spots| && spots[k] == spot;
        assert FoundAt(web, base, order, depthOf, queue[k], spots[k]);
      }
    }
    AscendingMore(found + [spots[0]], spots[1..], |order|, positions);
  }

  lemma FoundLater(web: Web, base: Url, order: seq<Url>, depthOf: map<Url, nat>, item: Item, spot: Spot,
                   next: Url, depth: nat)
    requires FoundAt(web, base, order, depthOf, item, spot) && next !in depthOf
    ensures FoundAt(web, base, order + [next], depthOf[next := depth], item, spot)
  {
    HoldsLater(web, base, order, next, spot, item.url);
  }

  /** Where the pushed items were found. */
  lemma PushedFound(web: Web, base: Url, order: seq<Url>, depthOf: map<Url, nat>, item: Item, visited: set<Url>,
                    pushed: seq<Item>, positions: seq<nat>)
    requires web.navigates(item.url) && item.url in depthOf && depthOf[item.url] == item.currentDepth
    requires PushedInOrder(item, InternalLinks(web, base, item.url), |InternalLinks(web, base, item.url)|, visited,
                           pushed, positions)
    ensures forall k :: 0 <= k < |pushed| ==>
              FoundAt(web, base, order + [item.url], depthOf, pushed[k], SpotsOn(|order|, positions)[k])
  {
    hide InternalLinks;
  }

  /** After the front item has been visited, still none is missed. */
  lemma NoneMissedAfter(web: Web, base: Url, limit: nat, spots: seq<Spot>, order: seq<Url>, depthOf: map<Url, nat>,
                        item: Item, pushed: seq<Item>, positions: seq<nat>)
    requires spots != [] && Holds(web, base, order, spots[0], item.url) && item.url !in depthOf
    requires forall k :: 0 <= k < |order| ==> order[k] in depthOf
    requires NoneMissed(web, base, limit, spots, order, depthOf)
    requires var depthOf' := depthOf[item.url := item.currentDepth];
             web.navigates(item.url) ==>
               PushedLinks(item, InternalLinks(web, base, item.url), limit, depthOf'.Keys, pushed, positions)
    ensures var order', depthOf' := order + [item.url], depthOf[item.url := item.currentDepth];
            && (forall k :: 0 <= k < |order'| ==> order'[k] in depthOf')
            && NoneMissed(web, base, limit, spots[1..] + SpotsOn(|order|, positions), order', depthOf')
  {
    hide InternalLinks;
    var order', depthOf' := order + [item.url], depthOf[item.url := item.currentDepth];
    var spots' := spots[1..] + SpotsOn(|order|, positions);
    forall spot, url | Holds(web, base, order', spot, url) && (spot.page < 0 || depthOf'[order'[spot.page]] < limit)
      ensures url in depthOf' || spot in spots'
    {
      if url !in depthOf' {
        if spot.page < |order| {
          HoldsLater(web, base, order, item.url, spot, url);
          assert spot in spots && spots == [spots[0]] + spots[1..];
        } else {
          var k :| 0 <= k < |positions| && positions[k] == spot.position;
          assert SpotsOn(|order|, positions)[k] == spot;
        }
      }
    }
  }

  /** Visiting the front item keeps the queue in line. */
  lemma VisitInLine(web: Web, base: Url, limit: nat, queue: seq<Item>, spots: seq<Spot>, order: seq<Url>,
                    found: seq<Spot>, depthOf: map<Url, nat>, pushed: seq<Item>, positions: seq<nat>)
    requires Frontier(web, base, limit, queue, depthOf)
    requires InLine(web, base, limit, queue, spots, order, found, depthOf)
    requires queue != [] && queue[0].url !in depthOf
    requires forall i :: 0 <= i < |order| ==> order[i] != queue[0].url
    requires var depthOf' := depthOf[queue[0].url := queue[0].currentDepth];
             if web.navigates(queue[0].url)
             then PushedLinks(queue[0], InternalLinks(web, base, queue[0].url), limit, depthOf'.Keys, pushed, positions)
             else pushed == [] && positions == []
    ensures InLine(web, base, limit, queue[1..] + pushed, spots[1..] + SpotsOn(|order|, positions),
                   order + [queue[0].url], found + [spots[0]], depthOf[queue[0].url := queue[0].currentDepth])
  {
    hide InternalLinks, Frontier, Ascending, BreadthFirst, FoundAt, Holds;
    var item := queue[0];
    var order', depthOf' := order + [item.url], depthOf[item.url := item.currentDepth];
    NavigatedDepths(web, base, order, found, depthOf);
    NavigateInLine(web, base, limit, queue, spots, order, found, depthOf);
    AllAscending(web, base, limit, queue, spots, order, found, depthOf, positions);
    FoundHolds(web, base, order, depthOf, item, spots[0]);
    NoneMissedAfter(web, base, limit, spots, order, depthOf, item, pushed, positions);
    if web.navigates(item.url) && item.currentDepth < limit {
      PushedFound(web, base, order, depthOf', item, depthOf'.Keys, pushed, positions);
    }
    var queue', spots' := queue[1..] + pushed, spots[1..] + SpotsOn(|order|, positions);
    forall k | 0 <= k < |queue'| ensures FoundAt(web, base, order', depthOf', queue'[k], spots'[k]) {
      if k < |queue| - 1 {
        assert queue'[k] == queue[k + 1] && spots'[k] == spots[k + 1];
        FoundLater(web, base, order, depthOf, queue[k + 1], spots[k + 1], item.url, item.currentDepth);
      }
    }
  }

  lemma FoundHolds(web: Web, base: Url, order: seq<Url>, depthOf: map<Url, nat>, item: Item, spot: Spot)
    requires FoundAt(web, base, order, depthOf, item, spot)
    ensures Holds(web, base, order, spot, item.url) && spot.page < |order|
    ensures item.foundOn == PageOf(base, order, spot)
  {
  }

  // ---------------------------------------------------------------- the report

  function PageUrls(results: seq<Page>): seq<Url> {
    seq(|results|, i requires 0 <= i < |results| => results[i].url)
  }

  function BrokenUrls(broken: seq<BrokenLink>): seq<Url> {
    seq(|broken|, i requires 0 <= i < |broken| => broken[i].url)
  }

  /** The URLs of order whose navigation succeeds (or fails), in order. */
  ghost function Selected(web: Web, order: seq<Url>, success: bool): seq<Url> {
    if order == [] then []
    else
      var rest := Selected(web, order[..|order| - 1], success);
      if web.navigates(order[|order| - 1]) == success then rest + [order[|order| - 1]] else rest
  }

  /** They stand at ascending positions of order, and every such URL stands at one of them. */
  lemma {:induction false} SelectedInOrder(web: Web, order: seq<Url>, success: bool) returns (positions: seq<nat>)
    ensures |positions| == |Selected(web, order, success)|
    ensures forall k :: 0 <= k < |positions| ==>
              positions[k] < |order| && Selected(web, order, success)[k] == order[positions[k]]
    ensures forall j, k :: 0 <= j < k < |positions| ==> positions[j] < positions[k]
    ensures forall i :: 0 <= i < |order| ==> (i in positions <==> web.navigates(order[i]) == success)
  {
    positions := [];
    if order != [] {
      var n := |order| - 1;
      positions := SelectedInOrder(web, order[..n], success);
      assert n !in positions;
      if web.navigates(order[n]) == success {
        positions := positions + [n];
      }
    }
  }

  /** The navigations of the crawl so far, oldest first: no URL twice. */
  ghost predicate NavigatedOnce(order: seq<Url>, depthOf: map<Url, nat>) {
    && (forall i, j :: 0 <= i < j < |order| ==> order[i] != order[j])
    && (forall u :: u in order <==> u in depthOf)
  }

  /** The report splits the navigations into pages and broken links. */
  ghost predicate Reported(web: Web, base: Url, order: seq<Url>, results: seq<Page>, broken: seq<BrokenLink>) {
    && PageUrls(results) == Selected(web, order, true)
    && BrokenUrls(broken) == Selected(web, order, false)
    && forall page :: page in results ==> page.links == InternalLinks(web, base, page.url)
  }

  /** A broken link is blamed on a page one step nearer that holds it, or is the base itself. */
  ghost predicate Blamed(web: Web, base: Url, link: BrokenLink) {
    || (link.url == base && link.foundOn == base)
    || exists d: nat ::
         && Distance(web, base, link.foundOn, d) && Distance(web, base, link.url, d + 1)
         && Edge(web, base, link.foundOn, link.url)
  }

  ghost predicate AllBlamed(web: Web, base: Url, broken: seq<BrokenLink>) {
    forall link :: link in broken ==> Blamed(web, base, link)
  }

  lemma FrontBlamed(web: Web, base: Url, limit: nat, queue: seq<Item>, depthOf: map<Url, nat>)
    requires Frontier(web, base, limit, queue, depthOf)
    requires queue != [] && queue[0].url !in depthOf
    ensures Blamed(web, base, BrokenLink(queue[0].url, queue[0].foundOn))
  {
    FrontAtDistance(web, base, limit, queue, depthOf);
    FrontWithinLimit(web, base, limit, queue, depthOf);
  }

  /** One more navigation: it goes to the pages when it succeeded, else to the broken links. */
  lemma ReportNext(web: Web, base: Url, order: seq<Url>, results: seq<Page>, broken: seq<BrokenLink>,
                   url: Url, foundOn: Url)
    requires Reported(web, base, order, results, broken)
    ensures web.navigates(url) ==>
              Reported(web, base, order + [url], results + [Page(url, InternalLinks(web, base, url))], broken)
    ensures !web.navigates(url) ==> Reported(web, base, order + [url], results, broken + [BrokenLink(url, foundOn)])
  {
    assert (order + [url])[..|order|] == order;
    var page := Page(url, InternalLinks(web, base, url));
    assert PageUrls(results + [page]) == PageUrls(results) + [url];
    assert BrokenUrls(broken + [BrokenLink(url, foundOn)]) == BrokenUrls(broken) + [url];
  }

  lemma InternalLinksAt(web: Web, base: Url, from: Url, links: seq<Url>)
    requires links == InternalLinks(web, base, from) && web.navigates(from)
    ensures forall i :: 0 <= i < |links| ==> Edge(web, base, from, links[i])
    ensures forall v :: Edge(web, base, from, v) ==> exists i :: 0 <= i < |links| && links[i] == v
  {
  }

  /** The visited set of a finished crawl is exactly what is within reach. */
  lemma FinishedExactly(web: Web, base: Url, limit: nat, depthOf: map<Url, nat>, u: Url)
    requires Frontier(web, base, limit, [], depthOf)
    ensures u in depthOf <==> Within(web, base, u, limit)
  {
    if Within(web, base, u, limit) {
      Covered(web, base, limit, [], depthOf, u, limit);
    } else if u in depthOf {
      WithinMore(web, base, u, depthOf[u], limit);
    }
  }

  /** What a crawl promises about its report: order lists the navigations, depthOf the depth at
      which each was made, found the spot where its URL was found. */
  ghost predicate Exact(web: Web, base: Url, limit: nat, report: CrawlReport, order: seq<Url>, depthOf: map<Url, nat>,
                        found: seq<Spot>) {
    && NavigatedOnce(order, depthOf)
    && (forall u :: u in depthOf <==> Within(web, base, u, limit))
    && (forall u :: u in depthOf ==> Distance(web, base, u, depthOf[u]))
    && Reported(web, base, order, report.results, report.broken)
    && AllBlamed(web, base, report.broken)
    && BreadthFirst(web, base, order, found, depthOf)
    && BlamedOnFirst(base, order, found, report.broken)
    && report.pagesVisited == |order|
  }

  lemma FinishedIsExact(web: Web, base: Url, limit: nat, report: CrawlReport, order: seq<Url>, depthOf: map<Url, nat>,
                        visited: set<Url>, spots: seq<Spot>, found: seq<Spot>)
    requires Crawling(web, base, limit, [], depthOf, order, visited, report.results, report.broken)
    requires InOrder(web, base, limit, [], spots, order, found, depthOf, report.broken)
    requires report.pagesVisited == |visited|
    ensures Exact(web, base, limit, report, order, depthOf, found)
  {
    hide Within, Reported, AllBlamed, Distance, Pursued, Leveled, Justified, BreadthFirst, BlamedOnFirst, NoneMissed;
    forall u ensures u in depthOf <==> Within(web, base, u, limit) {
      FinishedExactly(web, base, limit, depthOf, u);
    }
  }

  // ---------------------------------------------------------------- steps of the loop

  /** The work of everything a visited item may push. */
  ghost function Pushable(web: Web, base: Url, limit: nat, item: Item): nat {
    if item.currentDepth < limit
    then ForestSize(web, base, InternalLinks(web, base, item.url), limit - item.currentDepth - 1) else 0
  }

  /** Taking the front item off the queue uses up at least one unit of work, and
      leaves enough for everything the item can still push. */
  lemma FrontIsWork(web: Web, base: Url, limit: nat, queue: seq<Item>, depthOf: map<Url, nat>,
                    order: seq<Url>, visited: set<Url>, results: seq<Page>, broken: seq<BrokenLink>)
    requires Crawling(web, base, limit, queue, depthOf, order, visited, results, broken) && queue != []
    ensures queue[0].currentDepth <= limit && visited == depthOf.Keys
    ensures QueueSize(web, base, queue[1..], limit) + Pushable(web, base, limit, queue[0])
            < QueueSize(web, base, queue, limit)
  {
    FrontWithinLimit(web, base, limit, queue, depthOf);
    QueueSizeOfRest(web, base, queue, limit);
  }

  /** The loop invariant of the crawl. */
  ghost predicate Crawling(web: Web, base: Url, limit: nat, queue: seq<Item>, depthOf: map<Url, nat>,
                           order: seq<Url>, visited: set<Url>, results: seq<Page>, broken: seq<BrokenLink>) {
    && Frontier(web, base, limit, queue, depthOf)
    && NavigatedOnce(order, depthOf) && |order| == |depthOf| && visited == depthOf.Keys
    && Reported(web, base, order, results, broken)
    && AllBlamed(web, base, broken)
  }

  /** The part of it that speaks of order: the items found at spots, the navigations at found. */
  ghost predicate InOrder(web: Web, base: Url, limit: nat, queue: seq<Item>, spots: seq<Spot>, order: seq<Url>,
                          found: seq<Spot>, depthOf: map<Url, nat>, broken: seq<BrokenLink>) {
    InLine(web, base, limit, queue, spots, order, found, depthOf) && BlamedOnFirst(base, order, found, broken)
  }

  lemma CrawlStarts(web: Web, base: Url, limit: nat)
    ensures Crawling(web, base, limit, [Item(base, base, 0)], map[], [], {}, [], [])
    ensures InOrder(web, base, limit, [Item(base, base, 0)], [BASE_SPOT], [], [], map[], [])
  {
    FrontierInitially(web, base, limit);
    LineStarts(web, base, limit);
  }

  lemma SkipInOrder(web: Web, base: Url, limit: nat, queue: seq<Item>, spots: seq<Spot>, order: seq<Url>,
                    found: seq<Spot>, depthOf: map<Url, nat>, visited: set<Url>, broken: seq<BrokenLink>)
    requires InOrder(web, base, limit, queue, spots, order, found, depthOf, broken)
    requires queue != [] && visited == depthOf.Keys && queue[0].url in visited
    ensures spots != [] && InOrder(web, base, limit, queue[1..], spots[1..], order, found, depthOf, broken)
  {
    hide BreadthFirst, BlamedOnFirst;
    SkipInLine(web, base, limit, queue, spots, order, found, depthOf);
  }

  /** A visit keeps the order, with the front item among the broken links if its navigation
      fails. */
  lemma VisitInOrder(web: Web, base: Url, limit: nat, queue: seq<Item>, spots: seq<Spot>, order: seq<Url>,
                     found: seq<Spot>, depthOf: map<Url, nat>, visited: set<Url>, results: seq<Page>,
                     broken: seq<BrokenLink>, pushed: seq<Item>, positions: seq<nat>)
    requires Crawling(web, base, limit, queue, depthOf, order, visited, results, broken)
    requires InOrder(web, base, limit, queue, spots, order, found, depthOf, broken)
    requires queue != [] && queue[0].url !in visited
    requires if web.navigates(queue[0].url)
             then PushedLinks(queue[0], InternalLinks(web, base, queue[0].url), limit, visited + {queue[0].url},
                              pushed, positions)
             else pushed == [] && positions == []
    ensures spots != []
    ensures InOrder(web, base, limit, queue[1..] + pushed, spots[1..] + SpotsOn(|order|, positions),
                    order + [queue[0].url], found + [spots[0]], depthOf[queue[0].url := queue[0].currentDepth],
                    if web.navigates(queue[0].url) then broken
                    else broken + [BrokenLink(queue[0].url, queue[0].foundOn)])
  {
    hide Frontier, Reported, AllBlamed, BreadthFirst, BlamedOnFirst, PushedLinks, NoneMissed, InternalLinks, FoundAt;
    hide Ascending;
    FoundHolds(web, base, order, depthOf, queue[0], spots[0]);
    NavigatedDepths(web, base, order, found, depthOf);
    BlameFirstNext(base, order, found, broken, queue[0].url, spots[0]);
    assert depthOf[queue[0].url := queue[0].currentDepth].Keys == visited + {queue[0].url};
    VisitInLine(web, base, limit, queue, spots, order, found, depthOf, pushed, positions);
  }

  lemma SkipStep(web: Web, base: Url, limit: nat, queue: seq<Item>, depthOf: map<Url, nat>,
                 order: seq<Url>, visited: set<Url>, results: seq<Page>, broken: seq<BrokenLink>)
    requires Crawling(web, base, limit, queue, depthOf, order, visited, results, broken)
    requires queue != [] && queue[0].url in visited
    ensures Crawling(web, base, limit, queue[1..], depthOf, order, visited, results, broken)
  {
    hide Reported, AllBlamed, Frontier, NavigatedOnce;
    SkipKeeps(web, base, limit, queue, depthOf);
  }

  lemma BrokenStep(web: Web, base: Url, limit: nat, queue: seq<Item>, depthOf: map<Url, nat>,
                   order: seq<Url>, visited: set<Url>, results: seq<Page>, broken: seq<BrokenLink>)
    requires Crawling(web, base, limit, queue, depthOf, order, visited, results, broken)
    requires queue != [] && queue[0].url !in visited && !web.navigates(queue[0].url)
    ensures var item := queue[0];
            Crawling(web, base, limit, queue[1..], depthOf[item.url := item.currentDepth],
                     order + [item.url], visited + {item.url},
                     results, broken + [BrokenLink(item.url, item.foundOn)])
  {
    hide Reported, AllBlamed, Frontier, NavigatedOnce, PushedBy, Blamed;
    var item := queue[0];
    NavigateNext(order, depthOf, item);
    ReportNext(web, base, order, results, broken, item.url, item.foundOn);
    FrontBlamed(web, base, limit, queue, depthOf);
    BlameNext(web, base, broken, BrokenLink(item.url, item.foundOn));
    NothingPushed(web, base, limit, item, depthOf[item.url := item.currentDepth]);
    VisitKeeps(web, base, limit, queue, depthOf, []);
    assert queue[1..] + [] == queue[1..];
  }

  lemma PageStep(web: Web, base: Url, limit: nat, queue: seq<Item>, depthOf: map<Url, nat>,
                 order: seq<Url>, visited: set<Url>, results: seq<Page>, broken: seq<BrokenLink>, pushed: seq<Item>)
    requires Crawling(web, base, limit, queue, depthOf, order, visited, results, broken)
    requires queue != [] && queue[0].url !in visited && web.navigates(queue[0].url)
    requires PushedBy(web, base, limit, queue[0], depthOf[queue[0].url := queue[0].currentDepth], pushed)
    ensures var item := queue[0];
            Crawling(web, base, limit, queue[1..] + pushed, depthOf[item.url := item.currentDepth],
                     order + [item.url], visited + {item.url},
                     results + [Page(item.url, InternalLinks(web, base, item.url))], broken)
  {
    hide Reported, AllBlamed, Frontier, NavigatedOnce, PushedBy;
    var item := queue[0];
    NavigateNext(order, depthOf, item);
    ReportNext(web, base, order, results, broken, item.url, item.foundOn);
    VisitKeeps(web, base, limit, queue, depthOf, pushed);
  }

  lemma NavigateNext(order: seq<Url>, depthOf: map<Url, nat>, item: Item)
    requires NavigatedOnce(order, depthOf) && item.url !in depthOf
    ensures NavigatedOnce(order + [item.url], depthOf[item.url := item.currentDepth])
  {
  }

  lemma BlameNext(web: Web, base: Url, broken: seq<BrokenLink>, link: BrokenLink)
    requires AllBlamed(web, base, broken) && Blamed(web, base, link)
    ensures AllBlamed(web, base, broken + [link])
  {
    hide Blamed;
  }

  lemma NothingPushed(web: Web, base: Url, limit: nat, item: Item, depthOf: map<Url, nat>)
    requires !web.navigates(item.url)
    ensures PushedBy(web, base, limit, item, depthOf, [])
  {
  }

  lemma PushNone(web: Web, base: Url, limit: nat, item: Item, visited: set<Url>, links: seq<Url>)
    ensures PushedInOrder(item, links, 0, visited, [], [])
    ensures item.currentDepth < limit ==> ForestSize(web, base, links[..0], limit - item.currentDepth - 1) == 0
  {
  }

  lemma PushNext(item: Item, links: seq<Url>, i: nat, visited: set<Url>, pushed: seq<Item>, positions: seq<nat>)
    requires i < |links|
    requires PushedInOrder(item, links, i, visited, pushed, positions)
    ensures if links[i] in visited then PushedInOrder(item, links, i + 1, visited, pushed, positions)
            else PushedInOrder(item, links, i + 1, visited,
                               pushed + [Item(links[i], item.url, item.currentDepth + 1)], positions + [i])
  {
    if links[i] !in visited {
      assert (positions + [i])[|positions|] == i;
      forall p | 0 <= p < i && links[p] !in visited ensures p in positions + [i] {
        assert p in positions;
      }
    }
  }

  lemma PushSize(web: Web, base: Url, limit: nat, item: Item, links: seq<Url>, i: nat, queue: seq<Item>)
    requires i < |links| && item.currentDepth < limit
    ensures QueueSize(web, base, queue + [Item(links[i], item.url, item.currentDepth + 1)], limit)
            - QueueSize(web, base, queue, limit)
            == ForestSize(web, base, links[..i + 1], limit - item.currentDepth - 1)
               - ForestSize(web, base, links[..i], limit - item.currentDepth - 1)
    ensures ForestSize(web, base, links[..i], limit - item.currentDepth - 1)
            <= ForestSize(web, base, links[..i + 1], limit - item.currentDepth - 1)
  {
    assert (queue + [Item(links[i], item.url, item.currentDepth + 1)])[..|queue|] == queue;
    assert links[..i + 1][..i] == links[..i];
  }

  lemma PushedAll(web: Web, base: Url, limit: nat, item: Item, depthOf: map<Url, nat>,
                  links: seq<Url>, pushed: seq<Item>, positions: seq<nat>)
    requires web.navigates(item.url) && links == InternalLinks(web, base, item.url)
    requires item.currentDepth <= limit
    requires PushedLinks(item, links, limit, depthOf.Keys, pushed, positions)
    ensures PushedBy(web, base, limit, item, depthOf, pushed)
  {
    hide InternalLinks, Edge;
    InternalLinksAt(web, base, item.url, links);
    forall v | item.currentDepth < limit && Edge(web, base, item.url, v) && v !in depthOf
      ensures exists p :: p in pushed && p.url == v
    {
      var p :| 0 <= p < |links| && links[p] == v;
      var k :| 0 <= k < |positions| && positions[k] == p;
      assert pushed[k] in pushed;
    }
  }

  /** The depth limit in force: with a negative depth only the base is visited. */
  function Limit(depth: int): nat {
    if depth > 0 then depth else 0
  }

  /** The link loop of one page: queues every link not yet visited, one level deeper, in page
      order, as often as the page holds it. */
  method PushLinks(web: Web, base: Url, depth: int, item: Item, internalLinks: seq<Url>, visited: set<Url>,
                   queue: seq<Item>)
    returns (queue': seq<Item>, ghost pushed: seq<Item>, ghost positions: seq<nat>)
    requires web.navigates(item.url) && internalLinks == InternalLinks(web, base, item.url)
    requires item.currentDepth <= Limit(depth)
    ensures queue' == queue + pushed
    ensures PushedLinks(item, internalLinks, Limit(depth), visited, pushed, positions)
    ensures QueueSize(web, base, queue', Limit(depth))
            <= QueueSize(web, base, queue, Limit(depth)) + Pushable(web, base, Limit(depth), item)
  {
    hide PushedInOrder, QueueSize, ForestSize, TreeSize, InternalLinks;
    queue', pushed, positions := queue, [], [];
    if item.currentDepth < depth {
      PushNone(web, base, depth, item, visited, internalLinks);
      for i := 0 to |internalLinks|
        invariant queue' == queue + pushed
        invariant PushedInOrder(item, internalLinks, i, visited, pushed, positions)
        invariant QueueSize(web, base, queue', depth) <=
                  QueueSize(web, base, queue, depth)
                  + ForestSize(web, base, internalLinks[..i], depth - item.currentDepth - 1)
      {
        PushNext(item, internalLinks, i, visited, pushed, positions);
        PushSize(web, base, depth, item, internalLinks, i, queue');
        if internalLinks[i] !in visited {
          var next := Item(internalLinks[i], item.url, item.currentDepth + 1);
          queue', pushed, positions := queue' + [next], pushed + [next], positions + [i];
        }
      }
      assert internalLinks[..|internalLinks|] == internalLinks;
    }
  }

  /** One round of the crawl: the front item is skipped if its URL was visited before;
      otherwise its page is a broken link, or is recorded and its links are queued. */
  method CrawlNext(web: Web, baseUrl: Url, depth: int, queue: seq<Item>, visited: set<Url>,
                   results: seq<Page>, broken: seq<BrokenLink>, ghost order: seq<Url>, ghost depthOf: map<Url, nat>,
                   ghost spots: seq<Spot>, ghost found: seq<Spot>)
    returns (queue': seq<Item>, visited': set<Url>, results': seq<Page>, broken': seq<BrokenLink>,
             ghost order': seq<Url>, ghost depthOf': map<Url, nat>, ghost spots': seq<Spot>, ghost found': seq<Spot>)
    requires queue != [] && Crawling(web, baseUrl, Limit(depth), queue, depthOf, order, visited, results, broken)
    requires InOrder(web, baseUrl, Limit(depth), queue, spots, order, found, depthOf, broken)
    ensures Crawling(web, baseUrl, Limit(depth), queue', depthOf', order', visited', results', broken')
    ensures InOrder(web, baseUrl, Limit(depth), queue', spots', order', found', depthOf', broken')
    ensures QueueSize(web, baseUrl, queue', Limit(depth)) < QueueSize(web, baseUrl, queue, Limit(depth))
  {
    hide *;
    ghost var limit := Limit(depth);
    visited', results', broken', order', depthOf' := visited, results, broken, order, depthOf;
    var item := queue[0];
    FrontIsWork(web, baseUrl, limit, queue, depthOf, order, visited, results, broken);
    queue' := queue[1..];
    spots', found' := spots, found;
    if item.url in visited {
      SkipStep(web, baseUrl, limit, queue, depthOf, order, visited, results, broken);
      SkipInOrder(web, baseUrl, limit, queue, spots, order, found, depthOf, visited, broken);
      spots' := spots[1..];
      return;
    }
    visited' := visited + {item.url};
    order', depthOf' := order + [item.url], depthOf[item.url := item.currentDepth];
    assert visited' == depthOf'.Keys;
    if !web.navigates(item.url) {
      BrokenStep(web, baseUrl, limit, queue, depthOf, order, visited, results, broken);
      VisitInOrder(web, baseUrl, limit, queue, spots, order, found, depthOf, visited, results, broken, [], []);
      assert queue[1..] + [] == queue[1..];
      spots', found' := spots[1..] + SpotsOn(|order|, []), found + [spots[0]];
      broken' := broken + [BrokenLink(item.url, item.foundOn)];
      return;
    }
    var internalLinks := InternalLinks(web, baseUrl, item.url);
    ghost var pushed, positions;
    queue', pushed, positions := PushLinks(web, baseUrl, depth, item, internalLinks, visited', queue');
    PushedAll(web, baseUrl, limit, item, depthOf', internalLinks, pushed, positions);
    PageStep(web, baseUrl, limit, queue, depthOf, order, visited, results, broken, pushed);
    VisitInOrder(web, baseUrl, limit, queue, spots, order, found, depthOf, visited, results, broken, pushed, positions);
    spots', found' := spots[1..] + SpotsOn(|order|, positions), found + [spots[0]];
    results' := results + [Page(item.url, internalLinks)];
  }

  /** The crawl loop. It ends on every web; a negative depth crawls like depth 0. */
  method CrawlSite(web: Web, baseUrl: Url, depth: int := 1)
    returns (crawl: Crawl, ghost order: seq<Url>, ghost depthOf: map<Url, nat>, ghost found: seq<Spot>)
    ensures crawl == Failed(UrlRequired) <==> baseUrl == ""
    ensures crawl == Failed(InvalidUrl) <==> baseUrl != "" && web.origin(baseUrl).None?
    ensures crawl.Crawled? ==> Exact(web, baseUrl, Limit(depth), crawl.report, order, depthOf, found)
  {
    order, depthOf, found := [], map[], [];
    if baseUrl == "" {
      return Failed(UrlRequired), order, depthOf, found;
    }
    var queue := [Item(baseUrl, baseUrl, 0)];
    var visited: set<Url> := {};
    var results: seq<Page>, broken: seq<BrokenLink> := [], [];
    if web.origin(baseUrl).None? {
      return Failed(InvalidUrl), order, depthOf, found;
    }
    hide *;
    ghost var spots := [BASE_SPOT];
    CrawlStarts(web, baseUrl, Limit(depth));
    while |queue| > 0
      invariant Crawling(web, baseUrl, Limit(depth), queue, depthOf, order, visited, results, broken)
      invariant InOrder(web, baseUrl, Limit(depth), queue, spots, order, found, depthOf, broken)
      decreases QueueSize(web, baseUrl, queue, Limit(depth))
    {
      queue, visited, results, broken, order, depthOf, spots, found :=
        CrawlNext(web, baseUrl, depth, queue, visited, results, broken, order, depthOf, spots, found);
    }
    crawl := Crawled(CrawlReport(results, broken, |visited|));
    FinishedIsExact(web, baseUrl, Limit(depth), crawl.report, order, depthOf, visited, spots, found);
  }
}

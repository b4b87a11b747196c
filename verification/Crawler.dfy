/** The breadth-first crawl loop of the public HTML crawler. */
module Crawler {
  type Url = string

  /** What one fetch answers; `links` are the normalized same-host anchors, in document order. */
  datatype Response =
    | RequestFailed
    | NotHtml(status: int)
    | Html(status: int, links: seq<Url>)

  /** What every URL answers during this crawl; the web need not be finite. */
  type Web = Url -> Response

  /** A URL with the depth it was queued at. */
  datatype Visit = Visit(url: Url, depth: nat)

  /** `url` is some path of exactly `n` links away from `source`, through HTML pages. */
  ghost predicate Away(web: Web, source: Url, url: Url, n: nat)
    decreases n
  {
    if n == 0 then url == source
    else exists via :: Away(web, source, via, n - 1) && web(via).Html? && url in web(via).links
  }

  ghost predicate Distance(web: Web, source: Url, url: Url, d: nat) {
    Away(web, source, url, d) && forall n: nat :: n < d ==> !Away(web, source, url, n)
  }

  function Urls(visits: seq<Visit>): set<Url> {
    set v | v in visits :: v.url
  }

  ghost predicate Distinct(visits: seq<Visit>) {
    forall i, j :: 0 <= i < j < |visits| ==> visits[i].url != visits[j].url
  }

  ghost predicate NonDecreasing(visits: seq<Visit>) {
    forall i, j :: 0 <= i < j < |visits| ==> visits[i].depth <= visits[j].depth
  }

  /** `url` was queued, at depth `d` or less. */
  ghost predicate Queued(visits: seq<Visit>, url: Url, d: nat) {
    exists i :: 0 <= i < |visits| && visits[i].url == url && visits[i].depth <= d
  }

  /** Every link of the first `k` visits that lie above the depth limit was queued no more than one deeper. */
  ghost predicate Expanded(web: Web, visits: seq<Visit>, k: nat, maxDepth: nat)
    requires k <= |visits|
  {
    forall i, target :: 0 <= i < k && visits[i].depth < maxDepth && web(visits[i].url).Html? && target in web(visits[i].url).links
      ==> Queued(visits, target, visits[i].depth + 1)
  }

  /** The visits in queueing order: a breadth-first numbering by exact distance. */
  ghost predicate BreadthFirst(web: Web, source: Url, visits: seq<Visit>, maxDepth: nat) {
    && visits != [] && visits[0] == Visit(source, 0)
    && Distinct(visits)
    && NonDecreasing(visits)
    && (forall i :: 0 <= i < |visits| ==> visits[i].depth <= maxDepth)
    && (forall i :: 0 <= i < |visits| ==> Distance(web, source, visits[i].url, visits[i].depth))
  }

  /** Once all visits nearer than `d` are expanded, every URL up to `d` links away is queued no deeper than that. */
  lemma {:induction false} NearIsQueued(
    web: Web, source: Url, visits: seq<Visit>, k: nat, maxDepth: nat, d: nat, url: Url, n: nat)
    requires visits != [] && visits[0] == Visit(source, 0) && k <= |visits|
    requires Expanded(web, visits, k, maxDepth)
    requires forall i :: k <= i < |visits| ==> d <= visits[i].depth
    requires Away(web, source, url, n) && n <= d && n <= maxDepth
    ensures Queued(visits, url, n)
    decreases n
  {
    if n > 0 {
      var via :| Away(web, source, via, n - 1) && web(via).Html? && url in web(via).links;
      NearIsQueued(web, source, visits, k, maxDepth, d, via, n - 1);
      var i :| 0 <= i < |visits| && visits[i].url == via && visits[i].depth <= n - 1;
      assert Queued(visits, url, visits[i].depth + 1);
    }
  }

  /** The HTML pages among some visits. */
  function HtmlOf(web: Web, visits: seq<Visit>): seq<Visit> {
    if visits == [] then []
    else
      var last := |visits| - 1;
      HtmlOf(web, visits[..last]) + (if web(visits[last].url).Html? then [visits[last]] else [])
  }

  predicate Broken(response: Response) {
    response.RequestFailed? || response.status >= 400
  }

  function BrokenOf(web: Web, visits: seq<Visit>): nat {
    if visits == [] then 0
    else
      var last := |visits| - 1;
      BrokenOf(web, visits[..last]) + (if Broken(web(visits[last].url)) then 1 else 0)
  }

  function Clamp(low: int, value: int, high: int): int {
    if value > high then high else if value < low then low else value
  }

  /** How many visits stand at depth `d`. */
  function CountAt(visits: seq<Visit>, d: nat): nat {
    if visits == [] then 0 else (if visits[0].depth == d then 1 else 0) + CountAt(visits[1..], d)
  }

  lemma {:induction false} CountAtAppend(visits: seq<Visit>, more: seq<Visit>, d: nat)
    requires forall i :: 0 <= i < |more| ==> more[i].depth != d
    ensures CountAt(visits + more, d) == CountAt(visits, d)
  {
    if visits == [] {
      assert visits + more == more;
      if more != [] {
        CountAtAppend([], more[1..], d);
        assert [] + more[1..] == more[1..];
      }
    } else {
      assert (visits + more)[1..] == visits[1..] + more;
      CountAtAppend(visits[1..], more, d);
    }
  }

  /** Levels still to come, then visits left on the current level. */
  ghost function Level(queue: seq<Visit>, maxDepth: nat): int {
    if queue == [] then 0 else maxDepth + 1 - queue[0].depth
  }

  ghost function LeftOnLevel(queue: seq<Visit>): nat {
    if queue == [] then 0 else CountAt(queue, queue[0].depth)
  }

  /**
   * The anchors of one page above the depth limit: what is not queued yet joins the queue, one level deeper.
   * `visits` is the numbering so far and `k` the page's place in it.
   */
  method QueueLinks(
    ghost web: Web, ghost source: Url, ghost visits: seq<Visit>, ghost k: nat, ghost maxDepth: nat,
    links: seq<Url>, depth: nat, queue: seq<Visit>, queued: set<Url>)
    returns (queue': seq<Visit>, queued': set<Url>, added: seq<Visit>)
    requires BreadthFirst(web, source, visits, maxDepth) && k < |visits| && Expanded(web, visits, k, maxDepth)
    requires visits[k].depth == depth < maxDepth && web(visits[k].url).Html? && web(visits[k].url).links == links
    requires forall i :: 0 <= i < |visits| ==> visits[i].depth <= depth + 1
    requires queued == Urls(visits)
    ensures queue' == queue + added && queued' == Urls(visits + added)
    ensures forall v :: v in added ==> v.depth == depth + 1
    ensures BreadthFirst(web, source, visits + added, maxDepth) && Expanded(web, visits + added, k + 1, maxDepth)
  {
    queue', queued', added := queue, queued, [];
    assert visits + added == visits;
    var i := 0;
    while i < |links|
      invariant 0 <= i <= |links|
      invariant queue' == queue + added && queued' == Urls(visits + added)
      invariant forall v :: v in added ==> v.depth == depth + 1
      invariant forall v :: v in visits + added ==> v.depth <= depth + 1
      invariant BreadthFirst(web, source, visits + added, maxDepth)
      invariant AllQueued(visits + added, links, i, depth + 1)
    {
      var target := links[i];
      ghost var before := added;
      if target !in queued' {
        added := added + [Visit(target, depth + 1)];
        queue' := queue' + [Visit(target, depth + 1)];
        queued' := queued' + {target};
      }
      LinkTurn(web, source, visits, before, k, maxDepth, links, i, depth, added);
      i := i + 1;
    }
    ExpandedNext(web, visits, added, k, maxDepth);
  }

  lemma LinkNew(
    web: Web, source: Url, visits: seq<Visit>, added: seq<Visit>, k: nat, maxDepth: nat,
    links: seq<Url>, i: nat, depth: nat)
    requires BreadthFirst(web, source, visits, maxDepth) && k < |visits| && Expanded(web, visits, k, maxDepth)
    requires visits[k].depth == depth < maxDepth && web(visits[k].url).Html? && web(visits[k].url).links == links
    requires forall v :: v in visits + added ==> v.depth <= depth + 1
    requires BreadthFirst(web, source, visits + added, maxDepth)
    requires i < |links| && AllQueued(visits + added, links, i, depth + 1)
    requires links[i] !in Urls(visits + added)
    ensures
      var more := visits + added + [Visit(links[i], depth + 1)];
      && BreadthFirst(web, source, more, maxDepth) && AllQueued(more, links, i + 1, depth + 1)
      && Urls(more) == Urls(visits + added) + {links[i]}
  {
    NewLinkDistance(web, source, visits, added, k, maxDepth, links[i]);
    QueueOne(web, source, visits, added, Visit(links[i], depth + 1), maxDepth);
    AllQueuedNext(visits + added, [Visit(links[i], depth + 1)], links, i, depth + 1);
  }

  /** One turn of the anchor loop. */
  lemma LinkTurn(
    web: Web, source: Url, visits: seq<Visit>, added: seq<Visit>, k: nat, maxDepth: nat,
    links: seq<Url>, i: nat, depth: nat, added': seq<Visit>)
    requires BreadthFirst(web, source, visits, maxDepth) && k < |visits| && Expanded(web, visits, k, maxDepth)
    requires visits[k].depth == depth < maxDepth && web(visits[k].url).Html? && web(visits[k].url).links == links
    requires forall v :: v in visits + added ==> v.depth <= depth + 1
    requires BreadthFirst(web, source, visits + added, maxDepth)
    requires i < |links| && AllQueued(visits + added, links, i, depth + 1)
    requires added' == added + (if links[i] in Urls(visits + added) then [] else [Visit(links[i], depth + 1)])
    ensures BreadthFirst(web, source, visits + added', maxDepth)
    ensures AllQueued(visits + added', links, i + 1, depth + 1)
    ensures Urls(visits + added') == Urls(visits + added) + {links[i]}
  {
    if links[i] in Urls(visits + added) {
      AlreadyQueued(visits + added, links[i], depth + 1);
      AllQueuedNext(visits + added, [], links, i, depth + 1);
      assert visits + added + [] == visits + added';
      assert visits + added == visits + added';
    } else {
      LinkNew(web, source, visits, added, k, maxDepth, links, i, depth);
      assert visits + added' == visits + added + [Visit(links[i], depth + 1)];
    }
  }

  /** The first `i` links were queued at depth `d` or less. */
  ghost predicate AllQueued(visits: seq<Visit>, links: seq<Url>, i: nat, d: nat)
    requires i <= |links|
  {
    forall m :: 0 <= m < i ==> Queued(visits, links[m], d)
  }

  lemma QueuedStays(visits: seq<Visit>, more: seq<Visit>, url: Url, d: nat)
    requires Queued(visits, url, d)
    ensures Queued(visits + more, url, d)
  {
    var i :| 0 <= i < |visits| && visits[i].url == url && visits[i].depth <= d;
    assert (visits + more)[i] == visits[i];
  }

  lemma AlreadyQueued(visits: seq<Visit>, url: Url, d: nat)
    requires url in Urls(visits) && forall v :: v in visits ==> v.depth <= d
    ensures Queued(visits, url, d)
  {
    var i :| 0 <= i < |visits| && visits[i].url == url;
    assert visits[i] in visits;
  }

  lemma AllQueuedNext(visits: seq<Visit>, more: seq<Visit>, links: seq<Url>, i: nat, d: nat)
    requires i < |links| && AllQueued(visits, links, i, d)
    requires Queued(visits, links[i], d) || (|more| == 1 && more[0].url == links[i] && more[0].depth <= d)
    ensures AllQueued(visits + more, links, i + 1, d)
  {
    forall m | 0 <= m < i + 1 ensures Queued(visits + more, links[m], d) {
      if Queued(visits, links[m], d) {
        QueuedStays(visits, more, links[m], d);
      } else {
        assert (visits + more)[|visits|] == more[0];
      }
    }
  }

  lemma ExpandedNext(web: Web, visits: seq<Visit>, added: seq<Visit>, k: nat, maxDepth: nat)
    requires k < |visits| && Expanded(web, visits, k, maxDepth)
    requires
      visits[k].depth < maxDepth && web(visits[k].url).Html? ==>
        AllQueued(visits + added, web(visits[k].url).links, |web(visits[k].url).links|, visits[k].depth + 1)
    ensures Expanded(web, visits + added, k + 1, maxDepth)
  {
    var all := visits + added;
    forall i, target | 0 <= i < k + 1 && all[i].depth < maxDepth && web(all[i].url).Html? && target in web(all[i].url).links
      ensures Queued(all, target, all[i].depth + 1)
    {
      assert all[i] == visits[i];
      if i < k {
        QueuedStays(visits, added, target, visits[i].depth + 1);
      }
    }
  }

  /** A link of the page at place `k` that is not queued yet is exactly one link further away. */
  lemma NewLinkDistance(
    web: Web, source: Url, visits: seq<Visit>, added: seq<Visit>, k: nat, maxDepth: nat, target: Url)
    requires BreadthFirst(web, source, visits, maxDepth) && k < |visits| && Expanded(web, visits, k, maxDepth)
    requires web(visits[k].url).Html? && target in web(visits[k].url).links
    requires target !in Urls(visits + added) && visits[k].depth < maxDepth
    ensures Distance(web, source, target, visits[k].depth + 1)
  {
    var d := visits[k].depth;
    assert Away(web, source, target, d + 1);
    forall n: nat | n < d + 1 ensures !Away(web, source, target, n) {
      if Away(web, source, target, n) {
        NearIsQueued(web, source, visits, k, maxDepth, d, target, n);
        QueuedStays(visits, added, target, n);
      }
    }
  }

  lemma QueueOne(web: Web, source: Url, visits: seq<Visit>, added: seq<Visit>, v: Visit, maxDepth: nat)
    requires BreadthFirst(web, source, visits + added, maxDepth)
    requires v.url !in Urls(visits + added)
    requires forall u :: u in visits + added ==> u.depth <= v.depth
    requires v.depth <= maxDepth && Distance(web, source, v.url, v.depth)
    ensures BreadthFirst(web, source, visits + added + [v], maxDepth)
    ensures Urls(visits + added + [v]) == Urls(visits + added) + {v.url}
  {
    var all := visits + added;
    forall i | 0 <= i < |all| ensures all[i].url != v.url && all[i].depth <= v.depth {
      assert all[i] in all;
    }
  }

  /** Expanding the head of the queue comes one visit nearer to finishing its level, or to the last level. */
  lemma LevelDrops(queue: seq<Visit>, added: seq<Visit>, maxDepth: nat)
    requires queue != [] && NonDecreasing(queue) && forall v :: v in queue ==> v.depth <= maxDepth
    requires forall i :: 0 <= i < |added| ==> added[i].depth == queue[0].depth + 1
    ensures
      var queue' := queue[1..] + added;
      || Level(queue', maxDepth) < Level(queue, maxDepth)
      || (Level(queue', maxDepth) == Level(queue, maxDepth) && LeftOnLevel(queue') < LeftOnLevel(queue))
  {
    var queue' := queue[1..] + added;
    if queue' != [] && queue'[0].depth == queue[0].depth {
      CountAtAppend(queue[1..], added, queue[0].depth);
    }
  }

  /** The loop: `done` visits are fetched, `queue` waits. */
  ghost predicate Crawling(web: Web, source: Url, maxDepth: nat, done: seq<Visit>, queue: seq<Visit>) {
    && BreadthFirst(web, source, done + queue, maxDepth)
    && Expanded(web, done + queue, |done|, maxDepth)
    && forall v :: v in queue ==> v.depth <= queue[0].depth + 1
  }

  lemma Head(web: Web, source: Url, maxDepth: nat, done: seq<Visit>, queue: seq<Visit>)
    requires queue != [] && Crawling(web, source, maxDepth, done, queue)
    ensures (done + queue)[|done|] == queue[0]
    ensures forall i :: 0 <= i < |done + queue| ==> (done + queue)[i].depth <= queue[0].depth + 1
    ensures NonDecreasing(queue) && forall v :: v in queue ==> v.depth <= maxDepth
  {
    var all := done + queue;
    forall i | 0 <= i < |all| ensures all[i].depth <= queue[0].depth + 1 {
      if i < |done| {
        assert all[i].depth <= all[|done|].depth;
      } else {
        assert all[i] in queue;
      }
    }
    forall i, j | 0 <= i < j < |queue| ensures queue[i].depth <= queue[j].depth {
      assert all[|done| + i] == queue[i] && all[|done| + j] == queue[j];
    }
    forall v | v in queue ensures v.depth <= maxDepth {
      var i :| 0 <= i < |queue| && queue[i] == v;
      assert all[|done| + i] == v;
    }
  }

  /** A response without links, or a page at the depth limit. */
  lemma NothingToQueue(web: Web, source: Url, maxDepth: nat, done: seq<Visit>, queue: seq<Visit>)
    requires queue != [] && Crawling(web, source, maxDepth, done, queue)
    requires !web(queue[0].url).Html? || queue[0].depth >= maxDepth
    ensures BreadthFirst(web, source, done + queue + [], maxDepth)
    ensures Expanded(web, done + queue + [], |done| + 1, maxDepth)
    ensures Urls(done + queue + []) == Urls(done + queue)
  {
    assert done + queue + [] == done + queue;
    assert (done + queue)[|done|] == queue[0];
    ExpandedNext(web, done + queue, [], |done|, maxDepth);
  }

  lemma Advance(web: Web, source: Url, maxDepth: nat, done: seq<Visit>, queue: seq<Visit>, added: seq<Visit>)
    requires queue != [] && Crawling(web, source, maxDepth, done, queue)
    requires forall v :: v in added ==> v.depth == queue[0].depth + 1
    requires BreadthFirst(web, source, done + queue + added, maxDepth)
    requires Expanded(web, done + queue + added, |done| + 1, maxDepth)
    ensures Crawling(web, source, maxDepth, done + [queue[0]], queue[1..] + added)
    ensures done + [queue[0]] + (queue[1..] + added) == done + queue + added
  {
    var all := done + queue + added;
    var queue' := queue[1..] + added;
    assert done + [queue[0]] + queue' == all;
    if queue' != [] {
      assert all[|done|] == queue[0] && all[|done| + 1] == queue'[0];
    }
  }

  /** The head of the queue is fetched, and `added` joined the queue. */
  lemma Turn(web: Web, source: Url, maxDepth: nat, done: seq<Visit>, queue: seq<Visit>, added: seq<Visit>)
    requires queue != [] && Crawling(web, source, maxDepth, done, queue)
    requires forall v :: v in added ==> v.depth == queue[0].depth + 1
    requires BreadthFirst(web, source, done + queue + added, maxDepth)
    requires Expanded(web, done + queue + added, |done| + 1, maxDepth)
    ensures
      var v, done', queue' := queue[0], done + [queue[0]], queue[1..] + added;
      && Crawling(web, source, maxDepth, done', queue')
      && Urls(done' + queue') == Urls(done + queue + added)
      && HtmlOf(web, done') == HtmlOf(web, done) + (if web(v.url).Html? then [v] else [])
      && BrokenOf(web, done') == BrokenOf(web, done) + (if Broken(web(v.url)) then 1 else 0)
      && (|| Level(queue', maxDepth) < Level(queue, maxDepth)
          || (Level(queue', maxDepth) == Level(queue, maxDepth) && LeftOnLevel(queue') < LeftOnLevel(queue)))
  {
    Advance(web, source, maxDepth, done, queue, added);
    HtmlNext(web, done, queue[0]);
    Head(web, source, maxDepth, done, queue);
    LevelDrops(queue, added, maxDepth);
  }

  lemma HtmlNext(web: Web, done: seq<Visit>, v: Visit)
    ensures HtmlOf(web, done + [v]) == HtmlOf(web, done) + (if web(v.url).Html? then [v] else [])
    ensures BrokenOf(web, done + [v]) == BrokenOf(web, done) + (if Broken(web(v.url)) then 1 else 0)
  {
    assert (done + [v])[..|done|] == done;
  }

  /** Takes the next visit off the queue, and queues the links of its page unless it is at the limit. */
  method Follow(
    ghost web: Web, ghost source: Url, maxDepth: nat, ghost fetched: seq<Visit>, response: Response, queue: seq<Visit>, queued: set<Url>)
    returns (queue': seq<Visit>, queued': set<Url>, ghost added: seq<Visit>)
    requires queue != [] && Crawling(web, source, maxDepth, fetched, queue) && queued == Urls(fetched + queue)
    requires response == web(queue[0].url)
    ensures queue' == queue[1..] + added && queued' == Urls(fetched + queue + added)
    ensures forall v :: v in added ==> v.depth == queue[0].depth + 1
    ensures BreadthFirst(web, source, fetched + queue + added, maxDepth)
    ensures Expanded(web, fetched + queue + added, |fetched| + 1, maxDepth)
  {
    Head(web, source, maxDepth, fetched, queue);
    queue', queued', added := queue[1..], queued, [];
    if response.Html? && queue[0].depth < maxDepth {
      queue', queued', added :=
        QueueLinks(web, source, fetched + queue, |fetched|, maxDepth, response.links, queue[0].depth, queue', queued);
    } else {
      NothingToQueue(web, source, maxDepth, fetched, queue);
      assert fetched + queue + [] == fetched + queue;
    }
  }

  /**
   * `main`'s loop, on a web whose answers do not change while it runs. `waiting` is what is left in the queue
   * when it stops, and `fetched` the requests it made.
   */
  method Crawl(web: Web, source: Url, depthInput: int, pagesInput: int)
    returns (pages: seq<Visit>, brokenLinks: nat, waiting: nat, fetched: seq<Visit>)
    ensures
      var maxDepth, maxPages := Clamp(0, depthInput, 10), Clamp(1, pagesInput, 1000);
      && Distinct(fetched) && pages == HtmlOf(web, fetched) && brokenLinks == BrokenOf(web, fetched)
      && |pages| <= maxPages && (waiting == 0 || |pages| == maxPages)
      && Recorded(web, source, maxDepth, pages)
      && (waiting == 0 ==> Complete(web, source, maxDepth, pages))
  {
    var maxDepth: nat, maxPages: nat := Clamp(0, depthInput, 10), Clamp(1, pagesInput, 1000);
    var queue, queued := [Visit(source, 0)], {source};
    pages, brokenLinks, fetched := [], 0, [];
    assert Distance(web, source, source, 0);
    while queue != [] && |pages| < maxPages
      invariant Crawling(web, source, maxDepth, fetched, queue)
      invariant queued == Urls(fetched + queue)
      invariant pages == HtmlOf(web, fetched) && brokenLinks == BrokenOf(web, fetched)
      invariant |pages| <= maxPages
      decreases Level(queue, maxDepth), LeftOnLevel(queue)
    {
      var visit := queue[0];
      ghost var before, added := queue, [];
      Head(web, source, maxDepth, fetched, queue);
      var response := web(visit.url);
      if Broken(response) {
        brokenLinks := brokenLinks + 1;
      }
      queue, queued, added := Follow(web, source, maxDepth, fetched, response, queue, queued);
      if response.Html? {
        pages := pages + [visit];
      }
      Turn(web, source, maxDepth, fetched, before, added);
      fetched := fetched + [visit];
    }
    waiting := |queue|;
    Outcome(web, source, maxDepth, fetched, queue);
  }

  /**
   * What the inventory lists: HTML pages, each once, at its exact distance within the limit, nearest first;
   * and no HTML page nearer than the last one listed is left out.
   */
  ghost predicate Recorded(web: Web, source: Url, maxDepth: nat, pages: seq<Visit>) {
    && Distinct(pages) && NonDecreasing(pages)
    && (forall p :: p in pages ==> web(p.url).Html? && p.depth <= maxDepth && Distance(web, source, p.url, p.depth))
    && (forall url, n: nat :: pages != [] && Away(web, source, url, n) && n < pages[|pages| - 1].depth && web(url).Html? ==>
          Queued(pages, url, n))
  }

  /** Every HTML page within the depth limit is listed. */
  ghost predicate Complete(web: Web, source: Url, maxDepth: nat, pages: seq<Visit>) {
    forall url, n: nat :: Away(web, source, url, n) && n <= maxDepth && web(url).Html? ==> Queued(pages, url, n)
  }

  lemma {:induction false} HtmlOfIsFilter(web: Web, visits: seq<Visit>)
    requires Distinct(visits) && NonDecreasing(visits)
    ensures Distinct(HtmlOf(web, visits)) && NonDecreasing(HtmlOf(web, visits))
    ensures forall v :: v in HtmlOf(web, visits) <==> v in visits && web(v.url).Html?
  {
    if visits != [] {
      var last := |visits| - 1;
      HtmlOfIsFilter(web, visits[..last]);
      assert visits == visits[..last] + [visits[last]];
      var before := HtmlOf(web, visits[..last]);
      forall i | 0 <= i < |before| ensures before[i].url != visits[last].url && before[i].depth <= visits[last].depth {
        assert before[i] in visits[..last];
      }
    }
  }

  lemma NoNearerPageLeftOut(web: Web, source: Url, maxDepth: nat, fetched: seq<Visit>, queue: seq<Visit>, url: Url, n: nat)
    requires Crawling(web, source, maxDepth, fetched, queue) && HtmlOf(web, fetched) != []
    requires forall v :: v in HtmlOf(web, fetched) ==> v in fetched
    requires Away(web, source, url, n) && n < HtmlOf(web, fetched)[|HtmlOf(web, fetched)| - 1].depth && web(url).Html?
    ensures Queued(HtmlOf(web, fetched), url, n)
  {
    var last := HtmlOf(web, fetched)[|HtmlOf(web, fetched)| - 1];
    assert last in HtmlOf(web, fetched);
    var k :| 0 <= k < |fetched| && fetched[k] == last;
    var all := fetched + queue;
    assert all[k].depth <= maxDepth;
    forall i | 0 <= i < |queue| ensures last.depth <= queue[i].depth {
      assert all[k].depth <= all[|fetched| + i].depth;
    }
    NearIsListed(web, source, maxDepth, fetched, queue, last.depth, url, n);
  }

  lemma OutcomeIsRecorded(web: Web, source: Url, maxDepth: nat, fetched: seq<Visit>, queue: seq<Visit>)
    requires Crawling(web, source, maxDepth, fetched, queue)
    ensures Distinct(fetched) && Recorded(web, source, maxDepth, HtmlOf(web, fetched))
  {
    var all := fetched + queue;
    assert forall i :: 0 <= i < |fetched| ==> all[i] == fetched[i];
    var pages := HtmlOf(web, fetched);
    HtmlOfIsFilter(web, fetched);
    forall url, n: nat | pages != [] && Away(web, source, url, n) && n < pages[|pages| - 1].depth && web(url).Html?
      ensures Queued(pages, url, n)
    {
      NoNearerPageLeftOut(web, source, maxDepth, fetched, queue, url, n);
    }
  }

  lemma Outcome(web: Web, source: Url, maxDepth: nat, fetched: seq<Visit>, queue: seq<Visit>)
    requires Crawling(web, source, maxDepth, fetched, queue)
    ensures Distinct(fetched) && Recorded(web, source, maxDepth, HtmlOf(web, fetched))
    ensures queue == [] ==> Complete(web, source, maxDepth, HtmlOf(web, fetched))
  {
    OutcomeIsRecorded(web, source, maxDepth, fetched, queue);
    if queue == [] {
      forall url, n: nat | Away(web, source, url, n) && n <= maxDepth && web(url).Html?
        ensures Queued(HtmlOf(web, fetched), url, n)
      {
        NearIsListed(web, source, maxDepth, fetched, queue, n + 1, url, n);
      }
    }
  }

  /** With every visit left in the queue at depth `d` or more, each HTML page nearer than `d` is listed. */
  lemma NearIsListed(
    web: Web, source: Url, maxDepth: nat, fetched: seq<Visit>, queue: seq<Visit>, d: nat, url: Url, n: nat)
    requires Crawling(web, source, maxDepth, fetched, queue)
    requires forall i :: 0 <= i < |queue| ==> d <= queue[i].depth
    requires Away(web, source, url, n) && n < d && n <= maxDepth && web(url).Html?
    ensures Queued(HtmlOf(web, fetched), url, n)
  {
    var all := fetched + queue;
    NearIsQueued(web, source, all, |fetched|, maxDepth, d, url, n);
    var i :| 0 <= i < |all| && all[i].url == url && all[i].depth <= n;
    HtmlOfContains(web, fetched, i);
  }

  lemma {:induction false} HtmlOfContains(web: Web, visits: seq<Visit>, i: nat)
    requires i < |visits| && web(visits[i].url).Html?
    ensures visits[i] in HtmlOf(web, visits)
  {
    var last := |visits| - 1;
    if i < last {
      HtmlOfContains(web, visits[..last], i);
    }
  }
}

/** The offset/limit paginator every driver runs per topic:
    read the page at offset 0; while the page says `hasNextPage`, advance
    the offset by the page size and read again. The scripts that log also
    pass each page to print_query_results right after reading it. */
module Paginator {

  import opened Protocol
  import opened Oracle
  import opened RecordRange

  /** A call made while reading topics of `session` with page size `size`. */
  predicate ReadIn(e: Event, session: Id, topics: seq<Topic>, size: int)
  {
    (e.Fetch? && e.sessionId == session && e.topic in topics && e.limit == size) || e.Report?
  }

  /** Every call of `t` from position `from` on is such a read. */
  predicate ReadsFrom(t: seq<Event>, from: int, session: Id, topics: seq<Topic>, size: int)
  {
    forall i :: 0 <= from <= i < |t| ==> ReadIn(t[i], session, topics, size)
  }

  /** Reads pages `index`, `index`+1, ... of `topic`, requesting page
      `index` at `offset`, until a page without a next page. */
  function Drain(c: Conn, session: Id, topic: Topic, size: int, report: bool, index: nat, offset: int): (r: Step<()>)
    ensures Proceeds(c, r)
    ensures r.conn.script == c.script
    ensures ReadsFrom(r.conn.trace, |c.trace|, session, [topic], size)
    decreases |PagesOf(c.script, session, topic)| - index
  {
    match FetchPage(c, session, topic, index, offset, size)
    case Raised(c1) => Raised(c1)
    case Ok(page, c1) =>
      match (if report then Call(c1, Report(RangeOf(page))) else Ok((), c1))
      case Raised(c2) => Raised(c2)
      case Ok(_, c2) =>
        if page.hasNextPage then Drain(c2, session, topic, size, report, index + 1, offset + size)
        else Ok((), c2)
  }

  /** The calls reading page `p` at `offset` makes. */
  function Visit(session: Id, topic: Topic, offset: int, size: int, p: Page, report: bool): seq<Event>
  {
    [Fetch(session, topic, offset, size)] + (if report then [Report(RangeOf(p))] else [])
  }

  /** Reference: the calls that reading from page `index` should make,
      with page j requested at offset j*size. */
  function Plan(pages: seq<Page>, session: Id, topic: Topic, size: int, report: bool, index: nat): (r: seq<Event>)
    ensures forall e :: e in r ==> ReadIn(e, session, [topic], size)
    decreases |pages| - index
  {
    if index >= |pages| then []
    else Visit(session, topic, index * size, size, pages[index], report)
         + (if pages[index].hasNextPage then Plan(pages, session, topic, size, report, index + 1) else [])
  }

  /** Reading from page `index` on reaches a page without a next page. */
  predicate EndsFrom(pages: seq<Page>, index: nat)
    decreases |pages| - index
  {
    index < |pages| && (!pages[index].hasNextPage || EndsFrom(pages, index + 1))
  }

  /** A topic of `k` pages: the first k-1 have a next page, page k does not. */
  predicate LastPageAt(pages: seq<Page>, k: nat)
  {
    && 1 <= k <= |pages|
    && !pages[k - 1].hasNextPage
    && forall j :: 0 <= j < k - 1 ==> pages[j].hasNextPage
  }

  /** One round of the loop, when the fetch and its report do not fail. */
  lemma DrainStep(c: Conn, session: Id, topic: Topic, size: int, report: bool, index: nat, offset: int)
    requires index < |PagesOf(c.script, session, topic)|
    requires ClearBetween(c.script, |c.trace|, |c.trace| + 2)
    ensures var page := PagesOf(c.script, session, topic)[index];
      var c2 := c.(trace := c.trace + Visit(session, topic, offset, size, page, report));
      Drain(c, session, topic, size, report, index, offset)
        == if page.hasNextPage then Drain(c2, session, topic, size, report, index + 1, offset + size)
           else Ok((), c2)
  {
    var page := PagesOf(c.script, session, topic)[index];
    var c1 := c.(trace := c.trace + [Fetch(session, topic, offset, size)]);
    assert FetchPage(c, session, topic, index, offset, size) == Ok(page, c1);
    if report {
      assert c1.trace + [Report(RangeOf(page))] == c.trace + Visit(session, topic, offset, size, page, report);
    } else {
      assert c1.trace == c.trace + Visit(session, topic, offset, size, page, report);
    }
  }

  /** With no failure injected, draining a topic that ends makes exactly the
      planned calls and returns normally. */
  lemma {:induction false} DrainFollowsPlan(c: Conn, session: Id, topic: Topic, size: int, report: bool, index: nat)
    requires EndsFrom(PagesOf(c.script, session, topic), index)
    requires c.script.failAt.None?
    ensures Drain(c, session, topic, size, report, index, index * size)
      == Ok((), c.(trace := c.trace + Plan(PagesOf(c.script, session, topic), session, topic, size, report, index)))
    decreases |PagesOf(c.script, session, topic)| - index
  {
    var pages := PagesOf(c.script, session, topic);
    var page := pages[index];
    var v := Visit(session, topic, index * size, size, page, report);
    var c2 := c.(trace := c.trace + v);
    DrainStep(c, session, topic, size, report, index, index * size);
    if page.hasNextPage {
      var rest := Plan(pages, session, topic, size, report, index + 1);
      assert (index + 1) * size == index * size + size;
      DrainFollowsPlan(c2, session, topic, size, report, index + 1);
      assert Plan(pages, session, topic, size, report, index) == v + rest;
      assert c.trace + v + rest == c.trace + (v + rest);
    } else {
      assert Plan(pages, session, topic, size, report, index) == v;
    }
  }

  /** A topic of k pages: the k pages are read at offsets 0, size, 2*size, ...
      by exactly k fetches, and nothing else is requested. */
  lemma FetchesOfTopic(pages: seq<Page>, session: Id, topic: Topic, size: int, k: nat)
    requires LastPageAt(pages, k)
    ensures EndsFrom(pages, 0)
    ensures Plan(pages, session, topic, size, false, 0) == seq(k, j => Fetch(session, topic, j * size, size))
  {
    FetchesFrom(pages, session, topic, size, k, 0);
    assert seq(k - 0, j => Fetch(session, topic, (0 + j) * size, size)) == seq(k, j => Fetch(session, topic, j * size, size));
  }

  lemma {:induction false} FetchesFrom(pages: seq<Page>, session: Id, topic: Topic, size: int, k: nat, index: nat)
    requires LastPageAt(pages, k)
    requires index < k
    ensures EndsFrom(pages, index)
    ensures Plan(pages, session, topic, size, false, index) == seq(k - index, j => Fetch(session, topic, (index + j) * size, size))
    decreases k - index
  {
    var rest := seq(k - index, j => Fetch(session, topic, (index + j) * size, size));
    if index < k - 1 {
      FetchesFrom(pages, session, topic, size, k, index + 1);
      var tail := seq(k - (index + 1), j => Fetch(session, topic, (index + 1 + j) * size, size));
      assert rest == [Fetch(session, topic, index * size, size)] + tail;
    }
  }

  /** In the scripts that log, each page read is reported exactly once,
      right after its fetch and in fetch order. */
  lemma ReportsFollowFetches(pages: seq<Page>, session: Id, topic: Topic, size: int, k: nat)
    requires LastPageAt(pages, k)
    ensures EndsFrom(pages, 0)
    ensures |Plan(pages, session, topic, size, true, 0)| == 2 * k
    ensures forall j :: 0 <= j < k ==>
      && Plan(pages, session, topic, size, true, 0)[2 * j] == Fetch(session, topic, j * size, size)
      && Plan(pages, session, topic, size, true, 0)[2 * j + 1] == Report(RangeOf(pages[j]))
  {
    ReportsFrom(pages, session, topic, size, k, 0);
    var p := Plan(pages, session, topic, size, true, 0);
    forall j | 0 <= j < k
      ensures p[2 * j] == Fetch(session, topic, j * size, size)
      ensures p[2 * j + 1] == Report(RangeOf(pages[j]))
    {
      assert j - 0 == j;
    }
  }

  lemma {:induction false} ReportsFrom(pages: seq<Page>, session: Id, topic: Topic, size: int, k: nat, index: nat)
    requires LastPageAt(pages, k)
    requires index < k
    ensures EndsFrom(pages, index)
    ensures |Plan(pages, session, topic, size, true, index)| == 2 * (k - index)
    ensures forall j :: index <= j < k ==>
      && Plan(pages, session, topic, size, true, index)[2 * (j - index)] == Fetch(session, topic, j * size, size)
      && Plan(pages, session, topic, size, true, index)[2 * (j - index) + 1] == Report(RangeOf(pages[j]))
    decreases k - index
  {
    var p := Plan(pages, session, topic, size, true, index);
    if index < k - 1 {
      ReportsFrom(pages, session, topic, size, k, index + 1);
      var q := Plan(pages, session, topic, size, true, index + 1);
      assert p == [Fetch(session, topic, index * size, size), Report(RangeOf(pages[index]))] + q;
      forall j | index < j < k
        ensures p[2 * (j - index)] == Fetch(session, topic, j * size, size)
        ensures p[2 * (j - index) + 1] == Report(RangeOf(pages[j]))
      {
        assert p[2 * (j - index)] == q[2 * (j - (index + 1))];
        assert p[2 * (j - index) + 1] == q[2 * (j - (index + 1)) + 1];
      }
    }
  }

  /** Two page lists that agree on every `hasNextPage`. */
  predicate SameFlags(a: seq<Page>, b: seq<Page>)
  {
    |a| == |b| && forall j :: 0 <= j < |a| ==> a[j].hasNextPage == b[j].hasNextPage
  }

  /** Only `hasNextPage` steers the loop: where no page is reported, the
      results, counts and page numbers of the pages never change which
      requests are made, nor whether the read fails. */
  lemma {:induction false} OnlyNextPageFlagSteers(c1: Conn, c2: Conn, session: Id, topic: Topic, size: int, index: nat, offset: int)
    requires c1.trace == c2.trace && c1.script.failAt == c2.script.failAt
    requires SameFlags(PagesOf(c1.script, session, topic), PagesOf(c2.script, session, topic))
    ensures Drain(c1, session, topic, size, false, index, offset).conn.trace
         == Drain(c2, session, topic, size, false, index, offset).conn.trace
    ensures Drain(c1, session, topic, size, false, index, offset).Ok?
        == Drain(c2, session, topic, size, false, index, offset).Ok?
    decreases |PagesOf(c1.script, session, topic)| - index
  {
    var p1 := PagesOf(c1.script, session, topic);
    if !FailsNext(c1) && index < |p1| && p1[index].hasNextPage {
      var e := Fetch(session, topic, offset, size);
      OnlyNextPageFlagSteers(c1.(trace := c1.trace + [e]), c2.(trace := c2.trace + [e]),
        session, topic, size, index + 1, offset + size);
    }
  }

  /** Drains `topics` in the listed order within one session. */
  function DrainTopics(c: Conn, session: Id, topics: seq<Topic>, size: int, report: bool): (r: Step<()>)
    ensures Proceeds(c, r)
    ensures r.conn.script == c.script
    ensures ReadsFrom(r.conn.trace, |c.trace|, session, topics, size)
    decreases |topics|
  {
    if |topics| == 0 then Ok((), c)
    else
      match Drain(c, session, topics[0], size, report, 0, 0)
      case Raised(c1) => Raised(c1)
      case Ok(_, c1) =>
        var r := DrainTopics(c1, session, topics[1..], size, report);
        assert forall t :: t in topics[1..] ==> t in topics;
        r
  }

  /** Reference: the planned reads of every topic, in the listed order. */
  function TopicsPlan(s: Script, session: Id, topics: seq<Topic>, size: int, report: bool): (r: seq<Event>)
    ensures forall e :: e in r ==> ReadIn(e, session, topics, size)
    decreases |topics|
  {
    if |topics| == 0 then []
    else
      var r := Plan(PagesOf(s, session, topics[0]), session, topics[0], size, report, 0)
        + TopicsPlan(s, session, topics[1..], size, report);
      assert forall t :: t in topics[1..] ==> t in topics;
      r
  }

  predicate AllTopicsEnd(s: Script, session: Id, topics: seq<Topic>)
  {
    forall t :: t in topics ==> EndsFrom(PagesOf(s, session, t), 0)
  }

  /** With no failure injected and every topic ending, the session's topics
      are read exactly as planned, one after the other. */
  lemma {:induction false} DrainTopicsFollowsPlan(c: Conn, session: Id, topics: seq<Topic>, size: int, report: bool)
    requires AllTopicsEnd(c.script, session, topics)
    requires c.script.failAt.None?
    ensures DrainTopics(c, session, topics, size, report)
      == Ok((), c.(trace := c.trace + TopicsPlan(c.script, session, topics, size, report)))
    decreases |topics|
  {
    if |topics| == 0 {
      assert c.trace + [] == c.trace;
    } else {
      var plan := Plan(PagesOf(c.script, session, topics[0]), session, topics[0], size, report, 0);
      DrainFollowsPlan(c, session, topics[0], size, report, 0);
      assert 0 * size == 0;
      var c1 := c.(trace := c.trace + plan);
      DrainTopicsFollowsPlan(c1, session, topics[1..], size, report);
      assert c.trace + plan + TopicsPlan(c.script, session, topics[1..], size, report)
          == c.trace + (plan + TopicsPlan(c.script, session, topics[1..], size, report));
    }
  }

  /** The plan depends on the scripted pages only, not on the queues a
      driver consumes before reading topics. */
  lemma TopicsPlanReadsPagesOnly(s1: Script, s2: Script, session: Id, topics: seq<Topic>, size: int, report: bool)
    requires s1.pages == s2.pages
    ensures AllTopicsEnd(s1, session, topics) == AllTopicsEnd(s2, session, topics)
    ensures TopicsPlan(s1, session, topics, size, report) == TopicsPlan(s2, session, topics, size, report)
  {
  }
}

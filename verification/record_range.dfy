/** print_query_results: the record range "X - Y of N" logged for a page. */
module RecordRange {

  import opened Protocol

  /** Records that precede the page: `(pageNumber-1)*limit` for a positive
      page number, otherwise `pageNumber*limit` (0 for page 0). */
  function CurrentRecordCount(pageNumber: int, limit: int): (r: int)
    ensures pageNumber == 0 ==> r == 0
    ensures pageNumber > 0 && limit >= 0 ==> 0 <= r <= pageNumber * limit - limit
  {
    if pageNumber > 0 then (pageNumber - 1) * limit else pageNumber * limit
  }

  /** The line logged for page `p`. */
  function RangeOf(p: Page): (r: RangeLine)
    ensures r.Retrieved? <==> p.totalCount > 0
    ensures r.Retrieved? ==> r.total == p.totalCount && r.last - r.first + 1 == |p.results|
    ensures r.Retrieved? && p.pageNumber >= 1 ==> r.first == (p.pageNumber - 1) * p.limit + 1
    ensures r.Retrieved? && p.pageNumber == 0 ==> r.first == 1
  {
    var current := CurrentRecordCount(p.pageNumber, p.limit);
    if p.totalCount > 0 then Retrieved(current + 1, current + |p.results|, p.totalCount)
    else NoRecords
  }

  /** Pages as a server numbers them: page j (counting from 0) has
      pageNumber j+1, the common limit, and every page but the last is full. */
  predicate Numbered(ps: seq<Page>, limit: int)
  {
    && (forall j :: 0 <= j < |ps| ==> ps[j].pageNumber == j + 1 && ps[j].limit == limit && ps[j].totalCount > 0)
    && (forall j :: 0 <= j < |ps| - 1 ==> |ps[j].results| == limit)
  }

  function ResultCount(ps: seq<Page>): (n: nat)
  {
    if |ps| == 0 then 0 else ResultCount(ps[..|ps| - 1]) + |ps[|ps| - 1].results|
  }

  /** On consecutively numbered full pages, the logged ranges adjoin: the
      next page starts right after the previous one ends. */
  lemma ConsecutivePagesAdjoin(p: Page, q: Page)
    requires p.pageNumber >= 1 && q.pageNumber == p.pageNumber + 1
    requires q.limit == p.limit && |p.results| == p.limit
    requires p.totalCount > 0 && q.totalCount > 0
    ensures RangeOf(q).first == RangeOf(p).last + 1
  {
    assert (q.pageNumber - 1) * q.limit == (p.pageNumber - 1) * p.limit + p.limit;
  }

  /** Over a numbered run of pages, the range logged for page j ends at the
      number of records fetched so far, so the lines count records 1..N
      without gap or overlap. */
  lemma {:induction false} RangesCountFetchedRecords(ps: seq<Page>, limit: int, j: nat)
    requires Numbered(ps, limit)
    requires j < |ps|
    ensures RangeOf(ps[j]).last == ResultCount(ps[..j + 1])
  {
    assert ps[..j + 1][..j] == ps[..j];
    if j == 0 {
      assert ps[..0] == [];
    } else {
      RangesCountFetchedRecords(ps, limit, j - 1);
      assert ps[..j][..j] == ps[..j];
      ConsecutivePagesAdjoin(ps[j - 1], ps[j]);
    }
  }

  /** If a server numbered its pages from 0, pages 0 and 1 would both be
      logged as starting at record 1: the `page_number*page_size` branch
      only gives a sensible answer for page 0 of a numbering that starts at 1. */
  lemma ZeroBasedNumberingRepeatsFirstRecord(p: Page, q: Page)
    requires p.pageNumber == 0 && q.pageNumber == 1
    requires p.totalCount > 0 && q.totalCount > 0
    ensures RangeOf(p).first == RangeOf(q).first == 1
  {
  }
}

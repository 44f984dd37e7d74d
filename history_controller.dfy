/** The upload-history endpoint: page and page size from the query string,
    with their defaults, the number of records skipped, the page count, and
    the page of the caller's uploads. */
module HistoryController {
  import opened Common

  const DefaultPage: int := 1
  const DefaultLimit: int := 5

  /** `parseInt(q) || fallback`: `parsed` is what `parseInt` made of the
      query value, `None` for `NaN` (a missing or unparseable value); `NaN`
      and `0` are both falsy. */
  function OrDefault(parsed: Option<int>, fallback: int): (r: int)
    ensures parsed.None? || parsed.value == 0 ==> r == fallback
    ensures parsed.Some? && parsed.value != 0 ==> r == parsed.value
  {
    if parsed.Some? && parsed.value != 0 then parsed.value else fallback
  }

  /** `Math.ceil(a / b)` for a non-zero `b`: the least integer at or above
      the exact quotient. */
  function CeilDiv(a: int, b: int): (q: int)
    requires b != 0
    ensures b > 0 ==> (q - 1) * b < a <= q * b
    ensures b < 0 ==> q * b <= a < (q - 1) * b
  {
    if b > 0 then
      var f := a / b;
      assert f * b <= a < (f + 1) * b by {
        assert a == f * b + a % b;
      }
      if a % b == 0 then f else f + 1
    else
      var f := (-a) / (-b);
      assert f * (-b) <= -a < (f + 1) * (-b) by {
        assert -a == f * (-b) + (-a) % (-b);
      }
      if (-a) % (-b) == 0 then f else f + 1
  }

  /** The numbers of a history reply. */
  datatype Paging = Paging(page: int, limit: int, skip: int, totalPages: int, totalItems: nat)

  /** `getHistory`'s arithmetic, for `total` uploads of the caller; `limit`
      is never 0, so the page count is always defined. */
  function Pagination(pageQuery: Option<int>, limitQuery: Option<int>, total: nat): (p: Paging)
    ensures p.page == OrDefault(pageQuery, DefaultPage) && p.limit == OrDefault(limitQuery, DefaultLimit)
    ensures p.page != 0 && p.limit != 0
    ensures p.skip == (p.page - 1) * p.limit
    ensures p.limit > 0 ==> (p.totalPages - 1) * p.limit < total <= p.totalPages * p.limit
    ensures p.totalItems == total
  {
    var page := OrDefault(pageQuery, DefaultPage);
    var limit := OrDefault(limitQuery, DefaultLimit);
    Paging(page, limit, (page - 1) * limit, CeilDiv(total, limit), total)
  }

  /** With no query at all: page 1 of 5, nothing skipped. */
  lemma NoQueryDefaults(total: nat)
    ensures var p := Pagination(None, None, total); p.page == 1 && p.limit == 5 && p.skip == 0
  {
  }

  /** A negative page is kept, and skips a negative number of records. */
  lemma NegativePageKept(page: int, total: nat)
    requires page < 0
    ensures var p := Pagination(Some(page), None, total); p.page == page && p.skip < 0
  {
  }

  /** An upload record: its owner and when it was made. */
  datatype Upload = Upload(id: string, owner: string, createdAt: int)

  /** The page of the caller's uploads; `newestFirst` is the collection in
      the order of the query's `createdAt` sort.  For a page and page size
      that are both positive (`skip` is then non-negative) this is the
      caller's uploads from `skip` on, at most `limit` of them. */
  function HistoryPage(newestFirst: seq<Upload>, owner: string, skip: nat, limit: nat): (r: seq<Upload>)
    ensures |r| <= limit
    ensures forall u :: u in r ==> u.owner == owner && u in newestFirst
    ensures var mine := Filter(newestFirst, (u: Upload) => u.owner == owner);
      r == mine[Min(skip, |mine|)..Min(skip + limit, |mine|)]
  {
    var mine := Filter(newestFirst, (u: Upload) => u.owner == owner);
    FilterMembers(newestFirst, (u: Upload) => u.owner == owner);
    var lo := Min(skip, |mine|);
    var hi := Min(skip + limit, |mine|);
    assert forall u :: u in mine[lo..hi] ==> u in mine;
    mine[lo..hi]
  }

  /** Consecutive pages follow each other with no upload lost or repeated:
      a page and the next one together are the double-sized page. */
  lemma {:induction false} PagesAdjacent(newestFirst: seq<Upload>, owner: string, skip: nat, limit: nat)
    ensures HistoryPage(newestFirst, owner, skip, limit) + HistoryPage(newestFirst, owner, skip + limit, limit)
         == HistoryPage(newestFirst, owner, skip, 2 * limit)
  {
    var mine := Filter(newestFirst, (u: Upload) => u.owner == owner);
    var a, b, c := Min(skip, |mine|), Min(skip + limit, |mine|), Min(skip + 2 * limit, |mine|);
    assert mine[a..b] + mine[b..c] == mine[a..c];
  }
}

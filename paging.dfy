/** The paging plan of `search`: page URLs, the offsets they carry, and the events a run records. */
module Paging {
  import opened Outcomes
  import opened Values
  import opened PageFilter
  import opened QueryBuilder

  /** Records per result page. */
  const PageSize: nat := 25

  /** A page URL: the search target, with `&offset=` appended for every page but the probe. */
  datatype Url = Url(target: Target, offset: Option<nat>)

  /** What the server answers for one URL: its first answer, and the answer to the re-fetch
      made after a throttled first answer. */
  datatype Response = Response(first: Doc, second: Doc)

  /** The observable steps of a run: a GET, the wait before a retry, the pause after a batch. */
  datatype Event = Get(url: Url) | RetryWait(url: Url) | Sleep(seconds: int)

  /** `math.ceil(a / n)` for integers, rounding toward positive infinity also for negative `a`. */
  function CeilDiv(a: int, n: int): (r: int)
    requires n >= 1
  {
    -((-a) / n)
  }

  lemma {:induction false} CeilDivBounds(a: int, n: int)
    requires n >= 1
    ensures (CeilDiv(a, n) - 1) * n < a <= CeilDiv(a, n) * n
  {
    var q := (-a) / n;
    assert q * n <= -a < q * n + n;
    assert CeilDiv(a, n) * n == -(q * n);
    assert (CeilDiv(a, n) - 1) * n == -(q * n) - n;
  }

  /** `pages = ceil(limit / 25)` with `limit` defaulting to `total_results`. */
  function PageCount(limit: Option<int>, total: nat): (pages: int)
  {
    CeilDiv(if limit.Some? then limit.value else total, PageSize)
  }

  /** `[base + f'&offset={(i+1)*25}' for i in range(pages-1)]`. */
  function PageUrls(target: Target, pages: int): (urls: seq<Url>)
  {
    seq(if pages > 1 then pages - 1 else 0, (i: nat) => Url(target, Some((i + 1) * PageSize)))
  }

  /** The page URLs carry the offsets 25, 50, ..., (pages-1)*25, strictly increasing,
      all distinct and none of them the probe URL. */
  lemma {:induction false} PageUrlsSpec(target: Target, pages: int)
    ensures |PageUrls(target, pages)| == if pages > 1 then pages - 1 else 0
    ensures forall k :: 0 <= k < |PageUrls(target, pages)| ==>
      PageUrls(target, pages)[k] == Url(target, Some(PageSize * (k + 1)))
    ensures forall i, j :: 0 <= i < j < |PageUrls(target, pages)| ==>
      PageUrls(target, pages)[i].offset.value < PageUrls(target, pages)[j].offset.value
    ensures Url(target, None) !in PageUrls(target, pages)
  {
  }

  /** With no limit, the offsets requested after the probe are exactly the multiples of 25
      below `total_results`, starting at 25. */
  lemma {:induction false} OffsetsCoverTotal(target: Target, total: nat, k: nat)
    ensures Url(target, Some(PageSize * k)) in PageUrls(target, PageCount(None, total))
        <==> 1 <= k && PageSize * k < total
  {
    var pages := PageCount(None, total);
    CeilDivBounds(total, PageSize);
    var urls := PageUrls(target, pages);
    if 1 <= k && PageSize * k < total {
      assert k < pages;
      assert urls[k - 1] == Url(target, Some(PageSize * k));
    }
    if Url(target, Some(PageSize * k)) in urls {
      var i :| 0 <= i < |urls| && urls[i] == Url(target, Some(PageSize * k));
      assert PageSize * k == PageSize * (i + 1);
      assert k == i + 1;
    }
  }

  /** `total_results = 52` asks for offsets 25 and 50; 30 for 25 only; 0 for none. */
  lemma {:induction false} OffsetExamples(target: Target)
    ensures PageUrls(target, PageCount(None, 52)) == [Url(target, Some(25)), Url(target, Some(50))]
    ensures PageUrls(target, PageCount(None, 30)) == [Url(target, Some(25))]
    ensures PageUrls(target, PageCount(None, 0)) == []
  {
    assert PageCount(None, 52) == 3;
    assert PageCount(None, 30) == 2;
    assert PageCount(None, 0) == 0;
  }
}

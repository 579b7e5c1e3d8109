/** `_append`'s fetch: one GET, and exactly one more after a `retry_after` answer. */
module RetryPolicy {
  import opened Values
  import opened PageFilter
  import opened Paging

  /** `jsn.get('retry_after', None) is not None`. */
  predicate Throttled(d: Doc)
  {
    d.retryAfter != VNone
  }

  /** The response whose hits are used: the re-fetch's, whatever it says, after a
      throttled first answer; the first answer otherwise. */
  function FinalDoc(r: Response): (d: Doc)
  {
    if Throttled(r.first) then r.second else r.first
  }

  /** How many GETs one page costs. */
  function Attempts(r: Response): (n: nat)
  {
    if Throttled(r.first) then 2 else 1
  }

  /** The events of fetching one page. */
  function PageTrace(server: Url -> Response, url: Url): (t: seq<Event>)
  {
    [Get(url)] + (if Throttled(server(url).first) then [RetryWait(url), Get(url)] else [])
  }

  /** The hits one page contributes. */
  function PageHits(server: Url -> Response, url: Url): (h: seq<Candidate>)
  {
    ParseResults(FinalDoc(server(url)))
  }

  /** `PageTrace` and `PageHits` as values, to be mapped over a list of URLs. */
  function Tracer(server: Url -> Response): (Url -> seq<Event>)
  {
    (u: Url) => PageTrace(server, u)
  }

  function Harvester(server: Url -> Response): (Url -> seq<Candidate>)
  {
    (u: Url) => PageHits(server, u)
  }

  /** `_append(url)`: fetch the page, retry once if throttled, and hand back its hits. */
  method FetchPage(server: Url -> Response, url: Url) returns (hits: seq<Candidate>, events: seq<Event>)
    ensures events == PageTrace(server, url)
    ensures hits == PageHits(server, url)
  {
    var jsn := server(url).first;
    events := [Get(url)];
    if jsn.retryAfter != VNone {
      events := events + [RetryWait(url)];
      jsn := server(url).second;
      events := events + [Get(url)];
    }
    hits := ParseResults(jsn);
  }

  /** A page is fetched once, or twice when its first answer is throttled, and never more;
      the retry waits once, and only after a throttled answer; no other URL is touched. */
  lemma {:induction false} RetryBound(server: Url -> Response, url: Url, other: Url)
    requires other != url
    ensures multiset(PageTrace(server, url))[Get(url)] == Attempts(server(url))
    ensures 1 <= Attempts(server(url)) <= 2
    ensures Attempts(server(url)) == 2 <==> Throttled(server(url).first)
    ensures multiset(PageTrace(server, url))[RetryWait(url)] == Attempts(server(url)) - 1
    ensures multiset(PageTrace(server, url))[Get(other)] == 0
    ensures multiset(PageTrace(server, url))[RetryWait(other)] == 0
    ensures forall s: int :: multiset(PageTrace(server, url))[Sleep(s)] == 0
  {
  }

  /** The hits come from the last response obtained: the re-fetch after a throttled answer,
      even when the re-fetch is throttled as well. */
  lemma {:induction false} HitsFromLastResponse(server: Url -> Response, url: Url)
    ensures Throttled(server(url).first) ==> PageHits(server, url) == ParseResults(server(url).second)
    ensures !Throttled(server(url).first) ==> PageHits(server, url) == ParseResults(server(url).first)
  {
  }
}

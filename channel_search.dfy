/** `ChannelSearch.search`: probe, validate, plan the pages, run the batches. */
module ChannelSearch {
  import opened Outcomes
  import opened Sequences
  import opened Values
  import opened PageFilter
  import opened QueryBuilder
  import opened Paging
  import opened RetryPolicy
  import opened BatchScheduler

  /** The paging options `search` reads besides the query: `rate`, `sleep` and `limit`
      (`None` when absent) and `bool(kwargs.get('messages', False))`. */
  datatype Options = Options(rate: Option<int>, sleep: Option<int>, limit: Option<int>, messages: bool)

  /** The returned `content` dictionary. */
  datatype Content = Content(analyticsId: Val, totalResults: nat, messages: seq<Candidate>)

  /** `kwargs.pop(k, None) or d`: an absent, `None` or zero value falls back to `d`. */
  function OrDefault(v: Option<int>, d: int): (r: int)
  {
    if v.None? || v.value == 0 then d else v.value
  }

  /** `kwargs.get('limit', -1)`. */
  function LimitOr(limit: Option<int>): (l: int)
  {
    if limit.Some? then limit.value else -1
  }

  /** The URL of the probe: the search target without an offset. */
  function ProbeUrl(kwargs: map<string, Val>): (u: Url)
  {
    Url(BuildTarget(kwargs), None)
  }

  /** The page URLs requested after the probe, given the probe's `total_results`. */
  function PlannedUrls(kwargs: map<string, Val>, opts: Options, total: nat): (urls: seq<Url>)
  {
    PageUrls(BuildTarget(kwargs), PageCount(opts.limit, total))
  }

  /** The outcome of `search` and the events it records, step by step as the source takes them. */
  function SearchSpec(kwargs: map<string, Val>, opts: Options, server: Url -> Response,
                      completion: seq<Url> -> seq<Url>): (res: (Result<Content>, seq<Event>))
  {
    var probe := ProbeUrl(kwargs);
    var res := server(probe).first;
    var start := [Get(probe)];
    if res.totalResults.None? then (Failure(TypeError), start)
    else
      var total := res.totalResults.value;
      if !opts.messages then (Success(Content(res.analyticsId, total, [])), start)
      else if LimitOr(opts.limit) > total then (Failure(ValueError), start)
      else
        var first := ParseResults(res);
        var limit := LimitOr(opts.limit);
        if 0 <= limit <= PageSize then (Success(Content(res.analyticsId, total, first)), start)
        else
          var bs := Batches(OrDefault(opts.rate, 5), PlannedUrls(kwargs, opts, total));
          var sleep := OrDefault(opts.sleep, 3);
          (Success(Content(res.analyticsId, total, first + ConcatMap(BatchHarvester(server, completion), bs))),
           start + ConcatMap(BatchTracer(server, completion, sleep), bs))
  }

  /** `search(**kwargs)`: the probe fetch, the early returns, then the batches. */
  method Search(kwargs: map<string, Val>, opts: Options, server: Url -> Response,
                completion: seq<Url> -> seq<Url>)
    returns (r: Result<Content>, trace: seq<Event>)
    ensures (r, trace) == SearchSpec(kwargs, opts, server, completion)
  {
    var target := ParseUrl(kwargs);
    var rate := OrDefault(opts.rate, 5);
    var sleep := OrDefault(opts.sleep, 3);
    var probe := Url(target, None);
    var res := server(probe).first;
    trace := [Get(probe)];
    if res.totalResults.None? {
      r := Failure(TypeError);
      return;
    }
    var total := res.totalResults.value;
    var messages: seq<Candidate> := [];
    if !opts.messages {
      r := Success(Content(res.analyticsId, total, messages));
      return;
    }
    if LimitOr(opts.limit) > total {
      r := Failure(ValueError);
      return;
    }
    var pages := PageCount(opts.limit, total);
    var limit := LimitOr(opts.limit);
    var urls := PageUrls(target, pages);
    var first := ParseResults(res);
    EmptyAppend(first);
    messages := messages + first;
    assert messages == first;
    if 0 <= limit <= PageSize {
      r := Success(Content(res.analyticsId, total, messages));
      return;
    }
    messages, trace := RunBatches(server, completion, rate, sleep, urls, messages, trace);
    r := Success(Content(res.analyticsId, total, messages));
  }

  /** The answer to the probe. */
  function ProbeDoc(kwargs: map<string, Val>, server: Url -> Response): (d: Doc)
  {
    server(ProbeUrl(kwargs)).first
  }

  /** `search` reads `rate` and `sleep` only through their `or` defaults. */
  lemma {:induction false} SameDefaultsSameSearch(kwargs: map<string, Val>, o1: Options, o2: Options,
                                                server: Url -> Response, completion: seq<Url> -> seq<Url>)
    requires o1.messages == o2.messages && o1.limit == o2.limit
    requires OrDefault(o1.rate, 5) == OrDefault(o2.rate, 5)
    requires OrDefault(o1.sleep, 3) == OrDefault(o2.sleep, 3)
    ensures SearchSpec(kwargs, o1, server, completion) == SearchSpec(kwargs, o2, server, completion)
  {
  }

  /** `rate=0` and an absent `rate` both mean the default of five URLs per batch. */
  lemma {:induction false} ZeroRateIsDefault(kwargs: map<string, Val>, opts: Options, server: Url -> Response,
                                           completion: seq<Url> -> seq<Url>)
    ensures SearchSpec(kwargs, opts.(rate := Some(0)), server, completion)
         == SearchSpec(kwargs, opts.(rate := None), server, completion)
    ensures SearchSpec(kwargs, opts.(rate := None), server, completion)
         == SearchSpec(kwargs, opts.(rate := Some(5)), server, completion)
  {
    SameDefaultsSameSearch(kwargs, opts.(rate := Some(0)), opts.(rate := None), server, completion);
    SameDefaultsSameSearch(kwargs, opts.(rate := None), opts.(rate := Some(5)), server, completion);
  }

  /** `sleep=0` and an absent `sleep` both mean the default pause of three seconds. */
  lemma {:induction false} ZeroSleepIsDefault(kwargs: map<string, Val>, opts: Options, server: Url -> Response,
                                            completion: seq<Url> -> seq<Url>)
    ensures SearchSpec(kwargs, opts.(sleep := Some(0)), server, completion)
         == SearchSpec(kwargs, opts.(sleep := None), server, completion)
    ensures SearchSpec(kwargs, opts.(sleep := None), server, completion)
         == SearchSpec(kwargs, opts.(sleep := Some(3)), server, completion)
  {
    SameDefaultsSameSearch(kwargs, opts.(sleep := Some(0)), opts.(sleep := None), server, completion);
    SameDefaultsSameSearch(kwargs, opts.(sleep := None), opts.(sleep := Some(3)), server, completion);
  }

  /** Without `total_results` in the probe answer, `int(None)` fails after the single probe. */
  lemma {:induction false} MissingTotalIsTypeError(kwargs: map<string, Val>, opts: Options, server: Url -> Response,
                                 completion: seq<Url> -> seq<Url>)
    requires ProbeDoc(kwargs, server).totalResults.None?
    ensures SearchSpec(kwargs, opts, server, completion) == (Failure(TypeError), [Get(ProbeUrl(kwargs))])
  {
  }

  /** With `messages` absent or falsy, the result is the probe's summary and no records,
      after the probe alone. */
  lemma {:induction false} MessagesOffReturnsSummary(kwargs: map<string, Val>, opts: Options, server: Url -> Response,
                                  completion: seq<Url> -> seq<Url>)
    requires !opts.messages
    requires ProbeDoc(kwargs, server).totalResults.Some?
    ensures SearchSpec(kwargs, opts, server, completion) ==
      (Success(Content(ProbeDoc(kwargs, server).analyticsId, ProbeDoc(kwargs, server).totalResults.value, [])),
       [Get(ProbeUrl(kwargs))])
  {
  }

  /** A supplied `limit` above `total_results` is a `ValueError`, raised before any page
      beyond the probe is fetched. */
  lemma {:induction false} LimitAboveTotalIsValueError(kwargs: map<string, Val>, opts: Options, server: Url -> Response,
                                    completion: seq<Url> -> seq<Url>)
    requires opts.messages
    requires ProbeDoc(kwargs, server).totalResults.Some?
    requires opts.limit.Some? && opts.limit.value > ProbeDoc(kwargs, server).totalResults.value
    ensures SearchSpec(kwargs, opts, server, completion) == (Failure(ValueError), [Get(ProbeUrl(kwargs))])
  {
  }

  /** A limit of at most one page returns all of the probe page's hits, untruncated,
      without further fetches. */
  lemma {:induction false} SmallLimitReturnsProbeHits(kwargs: map<string, Val>, opts: Options, server: Url -> Response,
                                   completion: seq<Url> -> seq<Url>)
    requires opts.messages
    requires ProbeDoc(kwargs, server).totalResults.Some?
    requires opts.limit.Some? && 0 <= opts.limit.value <= PageSize
    requires opts.limit.value <= ProbeDoc(kwargs, server).totalResults.value
    ensures SearchSpec(kwargs, opts, server, completion) ==
      (Success(Content(ProbeDoc(kwargs, server).analyticsId, ProbeDoc(kwargs, server).totalResults.value,
                       ParseResults(ProbeDoc(kwargs, server)))),
       [Get(ProbeUrl(kwargs))])
  {
  }

  /** The conditions under which `search` runs the batch loop. */
  predicate Pages(kwargs: map<string, Val>, opts: Options, server: Url -> Response)
  {
    && opts.messages
    && ProbeDoc(kwargs, server).totalResults.Some?
    && LimitOr(opts.limit) <= ProbeDoc(kwargs, server).totalResults.value
    && !(0 <= LimitOr(opts.limit) <= PageSize)
  }

  /** On the paging path the result is the probe's summary, the probe page's hits and the
      hits of the batch loop. */
  lemma {:induction false} PagingResult(kwargs: map<string, Val>, opts: Options, server: Url -> Response,
                     completion: seq<Url> -> seq<Url>)
    requires Pages(kwargs, opts, server)
    ensures var d := ProbeDoc(kwargs, server);
      var bs := Batches(OrDefault(opts.rate, 5), PlannedUrls(kwargs, opts, d.totalResults.value));
      SearchSpec(kwargs, opts, server, completion).0 ==
        Success(Content(d.analyticsId, d.totalResults.value,
                        ParseResults(d) + ConcatMap(BatchHarvester(server, completion), bs)))
  {
  }

  /** On the paging path the trace is the probe fetch followed by the batch loop's events. */
  lemma {:induction false} PagingTrace(kwargs: map<string, Val>, opts: Options, server: Url -> Response,
                    completion: seq<Url> -> seq<Url>)
    requires Pages(kwargs, opts, server)
    ensures var d := ProbeDoc(kwargs, server);
      var bs := Batches(OrDefault(opts.rate, 5), PlannedUrls(kwargs, opts, d.totalResults.value));
      SearchSpec(kwargs, opts, server, completion).1 ==
        [Get(ProbeUrl(kwargs))] + ConcatMap(BatchTracer(server, completion, OrDefault(opts.sleep, 3)), bs)
  {
  }

  /** When the batch loop runs, the result keeps the probe's summary verbatim, starts with
      the probe page's hits, and then holds every planned page's hits from its last
      response, each page once; only the order inside a batch depends on completion. */
  lemma {:induction false} PagingHits(kwargs: map<string, Val>, opts: Options, server: Url -> Response,
                   completion: seq<Url> -> seq<Url>)
    requires Pages(kwargs, opts, server)
    requires OrDefault(opts.rate, 5) >= 1
    requires forall b :: multiset(completion(b)) == multiset(b)
    ensures var d := ProbeDoc(kwargs, server);
      var urls := PlannedUrls(kwargs, opts, d.totalResults.value);
      var r := SearchSpec(kwargs, opts, server, completion).0;
      && r.Success?
      && r.value.analyticsId == d.analyticsId
      && r.value.totalResults == d.totalResults.value
      && r.value.messages[..|ParseResults(d)|] == ParseResults(d)
      && multiset(r.value.messages) == multiset(ParseResults(d) + ConcatMap(Harvester(server), urls))
  {
    var d := ProbeDoc(kwargs, server);
    var urls := PlannedUrls(kwargs, opts, d.totalResults.value);
    var bs := Batches(OrDefault(opts.rate, 5), urls);
    PagingResult(kwargs, opts, server, completion);
    BatchesCover(OrDefault(opts.rate, 5), urls);
    ScheduleHits(server, completion, bs);
    var first, rest := ParseResults(d), ConcatMap(BatchHarvester(server, completion), bs);
    assert (first + rest)[..|first|] == first;
    assert multiset(first + rest) == multiset(first) + multiset(rest);
    assert multiset(first + ConcatMap(Harvester(server), urls)) == multiset(first) + multiset(ConcatMap(Harvester(server), urls));
  }

  /** When the batch loop runs, the probe URL is fetched once, each planned page URL once,
      or twice after a throttled answer, and no other URL at all. */
  lemma {:induction false} PagingFetches(kwargs: map<string, Val>, opts: Options, server: Url -> Response,
                      completion: seq<Url> -> seq<Url>, u: Url)
    requires Pages(kwargs, opts, server)
    requires OrDefault(opts.rate, 5) >= 1
    requires forall b :: multiset(completion(b)) == multiset(b)
    ensures var urls := PlannedUrls(kwargs, opts, ProbeDoc(kwargs, server).totalResults.value);
      multiset(SearchSpec(kwargs, opts, server, completion).1)[Get(u)] ==
        if u == ProbeUrl(kwargs) then 1
        else if u in urls then Attempts(server(u))
        else 0
  {
    var d := ProbeDoc(kwargs, server);
    var target := BuildTarget(kwargs);
    var urls := PlannedUrls(kwargs, opts, d.totalResults.value);
    var sleep := OrDefault(opts.sleep, 3);
    var bs := Batches(OrDefault(opts.rate, 5), urls);
    PagingTrace(kwargs, opts, server, completion);
    BatchesCover(OrDefault(opts.rate, 5), urls);
    ScheduleGetCount(server, completion, sleep, bs, u);
    PageUrlsSpec(target, PageCount(opts.limit, d.totalResults.value));
    DistinctCount(urls, u);
    CountAppend([Get(ProbeUrl(kwargs))], ConcatMap(BatchTracer(server, completion, sleep), bs), Get(u));
  }

  /** When the batch loop runs, the search pauses exactly once per batch and nowhere else;
      `BatchScheduler.BatchLoopSleeps` counts the batches as `ceil(pages_after_probe / rate)`. */
  lemma {:induction false} PagingSleeps(kwargs: map<string, Val>, opts: Options, server: Url -> Response,
                     completion: seq<Url> -> seq<Url>)
    requires Pages(kwargs, opts, server)
    ensures var urls := PlannedUrls(kwargs, opts, ProbeDoc(kwargs, server).totalResults.value);
      multiset(SearchSpec(kwargs, opts, server, completion).1)[Sleep(OrDefault(opts.sleep, 3))]
        == |Batches(OrDefault(opts.rate, 5), urls)|
  {
    var d := ProbeDoc(kwargs, server);
    var urls := PlannedUrls(kwargs, opts, d.totalResults.value);
    var sleep := OrDefault(opts.sleep, 3);
    var bs := Batches(OrDefault(opts.rate, 5), urls);
    var loop := ConcatMap(BatchTracer(server, completion, sleep), bs);
    var start := [Get(ProbeUrl(kwargs))];
    PagingTrace(kwargs, opts, server, completion);
    ScheduleSleepCount(server, completion, sleep, bs);
    CountAppend(start, loop, Sleep(sleep));
    assert multiset(start)[Sleep(sleep)] == 0;
  }

  /** With no limit, a page at offset `25 * k` is requested iff `1 <= k` and
      `25 * k < total_results`: 52 results ask for offsets 25 and 50, 30 for 25 only. */
  lemma {:induction false} NoLimitFetchesEveryPage(kwargs: map<string, Val>, opts: Options, server: Url -> Response,
                                completion: seq<Url> -> seq<Url>, k: nat)
    requires Pages(kwargs, opts, server) && opts.limit.None?
    requires OrDefault(opts.rate, 5) >= 1
    requires forall b :: multiset(completion(b)) == multiset(b)
    ensures var total := ProbeDoc(kwargs, server).totalResults.value;
      var fetched := multiset(SearchSpec(kwargs, opts, server, completion).1)[Get(Url(BuildTarget(kwargs), Some(PageSize * k)))];
      fetched > 0 <==> 1 <= k && PageSize * k < total
  {
    var u := Url(BuildTarget(kwargs), Some(PageSize * k));
    PagingFetches(kwargs, opts, server, completion, u);
    OffsetsCoverTotal(BuildTarget(kwargs), ProbeDoc(kwargs, server).totalResults.value, k);
  }

  /** `total_results = 0` with no limit: the probe is the only fetch and nothing pauses. */
  lemma {:induction false} ZeroResultsFetchOnce(kwargs: map<string, Val>, opts: Options, server: Url -> Response,
                             completion: seq<Url> -> seq<Url>)
    requires opts.messages && opts.limit.None?
    requires ProbeDoc(kwargs, server).totalResults == Some(0)
    ensures SearchSpec(kwargs, opts, server, completion) ==
      (Success(Content(ProbeDoc(kwargs, server).analyticsId, 0, ParseResults(ProbeDoc(kwargs, server)))),
       [Get(ProbeUrl(kwargs))])
  {
    assert PageCount(None, 0) == 0;
    assert PlannedUrls(kwargs, opts, 0) == [];
    var rate := OrDefault(opts.rate, 5);
    assert Batches(rate, []) == [];
    PagingResult(kwargs, opts, server, completion);
    PagingTrace(kwargs, opts, server, completion);
    var d := ProbeDoc(kwargs, server);
    assert ConcatMap(BatchHarvester(server, completion), []) == [];
    assert ConcatMap(BatchTracer(server, completion, OrDefault(opts.sleep, 3)), []) == [];
    assert ParseResults(d) + [] == ParseResults(d);
    assert [Get(ProbeUrl(kwargs))] + [] == [Get(ProbeUrl(kwargs))];
  }

  /** A negative `rate` makes the batch loop run zero times: the pages after the probe
      are silently not fetched. */
  lemma {:induction false} NegativeRateSkipsPages(kwargs: map<string, Val>, opts: Options, server: Url -> Response,
                               completion: seq<Url> -> seq<Url>)
    requires Pages(kwargs, opts, server)
    requires opts.rate.Some? && opts.rate.value < 0
    ensures SearchSpec(kwargs, opts, server, completion).1 == [Get(ProbeUrl(kwargs))]
    ensures SearchSpec(kwargs, opts, server, completion).0.value.messages == ParseResults(ProbeDoc(kwargs, server))
  {
    PagingResult(kwargs, opts, server, completion);
    PagingTrace(kwargs, opts, server, completion);
    var d := ProbeDoc(kwargs, server);
    assert ParseResults(d) + [] == ParseResults(d);
  }

  /** If every batch's tasks complete in launch order, the hits are in page order. */
  lemma {:induction false} InOrderHits(kwargs: map<string, Val>, opts: Options, server: Url -> Response,
                    completion: seq<Url> -> seq<Url>)
    requires Pages(kwargs, opts, server)
    requires OrDefault(opts.rate, 5) >= 1
    requires forall b :: completion(b) == b
    ensures var d := ProbeDoc(kwargs, server);
      SearchSpec(kwargs, opts, server, completion).0.value.messages ==
        ParseResults(d) + ConcatMap(Harvester(server), PlannedUrls(kwargs, opts, d.totalResults.value))
  {
    var d := ProbeDoc(kwargs, server);
    var urls := PlannedUrls(kwargs, opts, d.totalResults.value);
    PagingResult(kwargs, opts, server, completion);
    BatchesCover(OrDefault(opts.rate, 5), urls);
    InOrderCompletion(server, completion, Batches(OrDefault(opts.rate, 5), urls));
  }
}

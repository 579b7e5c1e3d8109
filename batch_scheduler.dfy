/** The batch loop of `search`: `for x in grouper(rate, urls)`, one concurrent batch of
    `_append` tasks per group, then a pause. Within a batch the tasks finish in some order;
    that order is the parameter `completion`, which maps a batch to the order in which its
    tasks append their hits. */
module BatchScheduler {
  import opened Sequences
  import opened Grouping
  import opened Arithmetic
  import opened PageFilter
  import opened Paging
  import opened RetryPolicy
  import opened Outcomes

  /** The URLs wrapped for `grouper`, whose fill value is `None`. */
  function Somes(urls: seq<Url>): (r: seq<Option<Url>>)
    ensures |r| == |urls|
  {
    seq(|urls|, i requires 0 <= i < |urls| => Some(urls[i]))
  }

  /** `[url for url in x if url is not None]`. */
  function Present(x: seq<Option<Url>>): (r: seq<Url>)
  {
    if x == [] then []
    else (if x[0].Some? then [x[0].value] else []) + Present(x[1..])
  }

  function PresentAll(gs: seq<seq<Option<Url>>>): (r: seq<seq<Url>>)
    ensures |r| == |gs|
  {
    if gs == [] then [] else [Present(gs[0])] + PresentAll(gs[1..])
  }

  /** The URL lists of the batches, padding dropped. */
  function Batches(rate: int, urls: seq<Url>): (bs: seq<seq<Url>>)
  {
    PresentAll(Grouper(rate, Somes(urls), None))
  }

  /** What one batch appends to `content['messages']`, in completion order. */
  function BatchHarvester(server: Url -> Response, completion: seq<Url> -> seq<Url>): (seq<Url> -> seq<Candidate>)
  {
    (b: seq<Url>) => ConcatMap(Harvester(server), completion(b))
  }

  /** The events of one batch: its fetches in completion order, then the pause. */
  function BatchTracer(server: Url -> Response, completion: seq<Url> -> seq<Url>, sleep: int): (seq<Url> -> seq<Event>)
  {
    (b: seq<Url>) => ConcatMap(Tracer(server), completion(b)) + [Sleep(sleep)]
  }

  /** One batch: `gather` the `_append` tasks of its URLs, which append their hits in
      completion order. */
  method RunBatch(server: Url -> Response, completion: seq<Url> -> seq<Url>, tasks: seq<Url>,
                  messages0: seq<Candidate>, trace0: seq<Event>)
    returns (messages: seq<Candidate>, trace: seq<Event>)
    ensures messages == messages0 + ConcatMap(Harvester(server), completion(tasks))
    ensures trace == trace0 + ConcatMap(Tracer(server), completion(tasks))
  {
    var order := completion(tasks);
    messages, trace := messages0, trace0;
    for j := 0 to |order|
      invariant messages == messages0 + ConcatMap(Harvester(server), order[..j])
      invariant trace == trace0 + ConcatMap(Tracer(server), order[..j])
    {
      var hits, events := FetchPage(server, order[j]);
      ConcatMapSnoc(Harvester(server), order, j);
      ConcatMapSnoc(Tracer(server), order, j);
      assert Harvester(server)(order[j]) == hits;
      assert Tracer(server)(order[j]) == events;
      AppendAssoc(messages0, ConcatMap(Harvester(server), order[..j]), hits);
      AppendAssoc(trace0, ConcatMap(Tracer(server), order[..j]), events);
      messages := messages + hits;
      trace := trace + events;
    }
    assert order[..|order|] == order;
  }

  /** The loop over the batches, appending to `messages` and recording events in `trace`. */
  method RunBatches(server: Url -> Response, completion: seq<Url> -> seq<Url>, rate: int, sleep: int,
                    urls: seq<Url>, messages0: seq<Candidate>, trace0: seq<Event>)
    returns (messages: seq<Candidate>, trace: seq<Event>)
    ensures messages == messages0 + ConcatMap(BatchHarvester(server, completion), Batches(rate, urls))
    ensures trace == trace0 + ConcatMap(BatchTracer(server, completion, sleep), Batches(rate, urls))
  {
    var groups := Grouper(rate, Somes(urls), None);
    ghost var bs := Batches(rate, urls);
    ghost var harvest, tracer := BatchHarvester(server, completion), BatchTracer(server, completion, sleep);
    messages, trace := messages0, trace0;
    for i := 0 to |groups|
      invariant messages == messages0 + ConcatMap(harvest, bs[..i])
      invariant trace == trace0 + ConcatMap(tracer, bs[..i])
    {
      var tasks := Present(groups[i]);
      PresentAllAt(groups, i);
      ghost var hits, events := harvest(bs[i]), ConcatMap(Tracer(server), completion(tasks));
      ghost var doneHits, doneEvents := ConcatMap(harvest, bs[..i]), ConcatMap(tracer, bs[..i]);
      messages, trace := RunBatch(server, completion, tasks, messages, trace);
      trace := trace + [Sleep(sleep)];
      ConcatMapSnoc(harvest, bs, i);
      ConcatMapSnoc(tracer, bs, i);
      assert tracer(bs[i]) == events + [Sleep(sleep)];
      AppendAssoc(messages0, doneHits, hits);
      AppendAssoc(trace0, doneEvents, events);
      AppendAssoc(trace0 + doneEvents, events, [Sleep(sleep)]);
      AppendAssoc(trace0, doneEvents, events + [Sleep(sleep)]);
    }
    assert bs[..|groups|] == bs;
  }

  lemma {:induction false} PresentAllAt(gs: seq<seq<Option<Url>>>, i: nat)
    requires i < |gs|
    ensures PresentAll(gs)[i] == Present(gs[i])
  {
    if i > 0 {
      PresentAllAt(gs[1..], i - 1);
    }
  }

  lemma {:induction false} PresentSomes(urls: seq<Url>, k: nat)
    ensures Present(Somes(urls) + Repeat(None, k)) == urls
  {
    if urls == [] {
      assert Somes(urls) + Repeat(None, k) == Repeat(None, k);
      PresentNones(k);
    } else {
      assert (Somes(urls) + Repeat(None, k))[1..] == Somes(urls[1..]) + Repeat(None, k);
      PresentSomes(urls[1..], k);
    }
  }

  lemma {:induction false} PresentNones(k: nat)
    ensures Present(Repeat(None, k)) == []
  {
    if k > 0 {
      assert Repeat<Option<Url>>(None, k)[1..] == Repeat(None, k - 1);
      PresentNones(k - 1);
    }
  }

  lemma {:induction false} PresentAppend(x: seq<Option<Url>>, y: seq<Option<Url>>)
    ensures Present(x + y) == Present(x) + Present(y)
  {
    if x == [] {
      assert x + y == y;
    } else {
      var head := if x[0].Some? then [x[0].value] else [];
      assert (x + y)[0] == x[0];
      assert (x + y)[1..] == x[1..] + y;
      assert Present(x + y) == head + Present(x[1..] + y);
      PresentAppend(x[1..], y);
      assert Present(x) == head + Present(x[1..]);
      AppendAssoc(head, Present(x[1..]), Present(y));
    }
  }

  lemma {:induction false} PresentAllFlatten(gs: seq<seq<Option<Url>>>)
    ensures Flatten(PresentAll(gs)) == Present(Flatten(gs))
  {
    if gs != [] {
      PresentAllFlatten(gs[1..]);
      PresentAppend(gs[0], Flatten(gs[1..]));
    }
  }

  /** The batches hold exactly the URLs, each once, in list order: padding is never
      fetched. There are `ceil(|urls| / rate)` of them, so no URLs means no batches. */
  lemma {:induction false} BatchesCover(rate: int, urls: seq<Url>)
    requires rate >= 1
    ensures Flatten(Batches(rate, urls)) == urls
    ensures |Batches(rate, urls)| == (|urls| + rate - 1) / rate
    ensures urls == [] ==> Batches(rate, urls) == []
  {
    var groups := Grouper(rate, Somes(urls), None);
    GrouperFlatten(rate, Somes(urls), None);
    GrouperCount(rate, Somes(urls), None);
    PresentAllFlatten(groups);
    PresentSomes(urls, (rate - |urls| % rate) % rate);
  }

  /** With a negative `rate` the expression zips nothing: no batch runs, no page after the
      probe is fetched, and the loop never pauses. */
  lemma {:induction false} NegativeRateRunsNothing(rate: int, urls: seq<Url>)
    requires rate <= 0
    ensures Batches(rate, urls) == []
  {
  }

  /** Each batch but the last holds `rate` URLs; the last holds the rest, at least one. */
  lemma {:induction false} BatchSizes(rate: int, urls: seq<Url>)
    requires rate >= 1
    ensures forall i :: 0 <= i < |Batches(rate, urls)| - 1 ==> |Batches(rate, urls)[i]| == rate
    ensures Batches(rate, urls) != [] ==>
      |Batches(rate, urls)[|Batches(rate, urls)| - 1]| == |urls| - (|Batches(rate, urls)| - 1) * rate >= 1
    decreases |urls|
  {
    var bs := Batches(rate, urls);
    if urls == [] {
    } else if |urls| <= rate {
      BatchesSingle(rate, urls);
    } else {
      var rest := Batches(rate, urls[rate..]);
      BatchesUnfold(rate, urls);
      BatchSizes(rate, urls[rate..]);
      assert forall i :: 1 <= i < |bs| ==> bs[i] == rest[i - 1];
      assert bs[|bs| - 1] == rest[|rest| - 1];
      Distribute(|rest| - 1, 1, rate);
    }
  }

  /** A list no longer than `rate` runs as one batch. */
  lemma {:induction false} BatchesSingle(rate: int, urls: seq<Url>)
    requires 1 <= |urls| <= rate
    ensures Batches(rate, urls) == [urls]
  {
    var s := Somes(urls);
    assert Grouper(rate, s, None) == [s + Repeat(None, rate - |s|)];
    PresentSomes(urls, rate - |urls|);
  }

  /** A longer list runs its first `rate` URLs as one batch, then the rest. */
  lemma {:induction false} BatchesUnfold(rate: int, urls: seq<Url>)
    requires 1 <= rate < |urls|
    ensures Batches(rate, urls) == [urls[..rate]] + Batches(rate, urls[rate..])
  {
    var s := Somes(urls);
    assert Grouper(rate, s, None) == [s[..rate]] + Grouper(rate, s[rate..], None);
    assert s[rate..] == Somes(urls[rate..]);
    assert s[..rate] == Somes(urls[..rate]) + Repeat(None, 0);
    PresentSomes(urls[..rate], 0);
  }

  /** Twelve page URLs at the default rate of five run as three batches of 5, 5 and 2. */
  lemma {:induction false} TwelvePagesInThreeBatches(urls: seq<Url>)
    requires |urls| == 12
    ensures |Batches(5, urls)| == 3
    ensures |Batches(5, urls)[0]| == 5 && |Batches(5, urls)[1]| == 5 && |Batches(5, urls)[2]| == 2
  {
    BatchesCover(5, urls);
    BatchSizes(5, urls);
  }

  lemma {:induction false} PageTraceCounts(server: Url -> Response, v: Url, u: Url, s: int)
    ensures multiset(PageTrace(server, v))[Get(u)] == if v == u then Attempts(server(u)) else 0
    ensures multiset(PageTrace(server, v))[Sleep(s)] == 0
  {
  }

  /** Every URL of `xs` is fetched `Attempts` times per occurrence by the traces of `xs`. */
  lemma {:induction false} TraceGetCount(server: Url -> Response, xs: seq<Url>, u: Url)
    ensures multiset(ConcatMap(Tracer(server), xs))[Get(u)] == multiset(xs)[u] * Attempts(server(u))
  {
    if xs != [] {
      TraceGetCount(server, xs[1..], u);
      PageTraceCounts(server, xs[0], u, 0);
      var head, tail := PageTrace(server, xs[0]), ConcatMap(Tracer(server), xs[1..]);
      assert ConcatMap(Tracer(server), xs) == head + tail;
      CountAppend(head, tail, Get(u));
      CountCons(xs, u);
      var m, a, d := multiset(xs[1..])[u], Attempts(server(u)), if xs[0] == u then 1 else 0;
      assert multiset(head)[Get(u)] == d * a;
      Distribute(d, m, a);
    }
  }

  /** Fetching pages never pauses between batches. */
  lemma {:induction false} TraceSleepCount(server: Url -> Response, xs: seq<Url>, s: int)
    ensures multiset(ConcatMap(Tracer(server), xs))[Sleep(s)] == 0
  {
    if xs != [] {
      TraceSleepCount(server, xs[1..], s);
      PageTraceCounts(server, xs[0], xs[0], s);
      var head, tail := PageTrace(server, xs[0]), ConcatMap(Tracer(server), xs[1..]);
      assert ConcatMap(Tracer(server), xs) == head + tail;
      assert multiset(head + tail)[Sleep(s)] == multiset(head)[Sleep(s)] + multiset(tail)[Sleep(s)];
    }
  }

  /** Over the whole batch loop, each URL is fetched `Attempts` times per occurrence in the
      batches, whatever the completion order. */
  lemma {:induction false} ScheduleGetCount(server: Url -> Response, completion: seq<Url> -> seq<Url>, sleep: int,
                                            bs: seq<seq<Url>>, u: Url)
    requires forall b :: multiset(completion(b)) == multiset(b)
    ensures multiset(ConcatMap(BatchTracer(server, completion, sleep), bs))[Get(u)]
         == multiset(Flatten(bs))[u] * Attempts(server(u))
  {
    if bs != [] {
      ScheduleGetCount(server, completion, sleep, bs[1..], u);
      TraceGetCount(server, completion(bs[0]), u);
      var head, tail := BatchTracer(server, completion, sleep)(bs[0]), ConcatMap(BatchTracer(server, completion, sleep), bs[1..]);
      assert multiset(head + tail)[Get(u)] == multiset(head)[Get(u)] + multiset(tail)[Get(u)];
      var a := Attempts(server(u));
      var m0, m1 := multiset(bs[0])[u], multiset(Flatten(bs[1..]))[u];
      assert multiset(Flatten(bs))[u] == m0 + m1;
      Distribute(m0, m1, a);
    }
  }

  /** The batch loop pauses exactly once per batch, the last one included. */
  lemma {:induction false} ScheduleSleepCount(server: Url -> Response, completion: seq<Url> -> seq<Url>, sleep: int,
                                              bs: seq<seq<Url>>)
    ensures multiset(ConcatMap(BatchTracer(server, completion, sleep), bs))[Sleep(sleep)] == |bs|
  {
    if bs != [] {
      ScheduleSleepCount(server, completion, sleep, bs[1..]);
      TraceSleepCount(server, completion(bs[0]), sleep);
      var fetches := ConcatMap(Tracer(server), completion(bs[0]));
      var head, tail := BatchTracer(server, completion, sleep)(bs[0]), ConcatMap(BatchTracer(server, completion, sleep), bs[1..]);
      assert head == fetches + [Sleep(sleep)];
      assert multiset(head)[Sleep(sleep)] == multiset(fetches)[Sleep(sleep)] + 1;
      assert multiset(head + tail)[Sleep(sleep)] == multiset(head)[Sleep(sleep)] + multiset(tail)[Sleep(sleep)];
    }
  }

  /** The batch loop pauses once per batch: `ceil(|urls| / rate)` times. */
  lemma {:induction false} BatchLoopSleeps(server: Url -> Response, completion: seq<Url> -> seq<Url>, sleep: int,
                        rate: int, urls: seq<Url>)
    requires rate >= 1
    ensures multiset(ConcatMap(BatchTracer(server, completion, sleep), Batches(rate, urls)))[Sleep(sleep)]
      == (|urls| + rate - 1) / rate
  {
    BatchesCover(rate, urls);
    ScheduleSleepCount(server, completion, sleep, Batches(rate, urls));
  }

  /** Each batch's segment of the appended hits holds exactly the last-response hits of
      that batch's URLs, in some order; over the whole loop, every URL's hits appear once
      per occurrence. Together with `RunBatches`, which appends the segments batch after
      batch, only the order within a batch depends on completion. */
  lemma {:induction false} ScheduleHits(server: Url -> Response, completion: seq<Url> -> seq<Url>, bs: seq<seq<Url>>)
    requires forall b :: multiset(completion(b)) == multiset(b)
    ensures forall i :: 0 <= i < |bs| ==>
      multiset(BatchHarvester(server, completion)(bs[i])) == multiset(ConcatMap(Harvester(server), bs[i]))
    ensures multiset(ConcatMap(BatchHarvester(server, completion), bs))
         == multiset(ConcatMap(Harvester(server), Flatten(bs)))
  {
    var h := Harvester(server);
    var inOrder := (b: seq<Url>) => ConcatMap(h, b);
    forall b | b in bs
      ensures multiset(BatchHarvester(server, completion)(b)) == multiset(inOrder(b))
    {
      ConcatMapPermutation(h, completion(b), b);
    }
    ConcatMapPointwisePermutation(BatchHarvester(server, completion), inOrder, bs);
    ConcatMapFlatten(h, bs);
  }

  /** When tasks complete in launch order, hits appear in page order, batch after batch. */
  lemma {:induction false} InOrderCompletion(server: Url -> Response, completion: seq<Url> -> seq<Url>, bs: seq<seq<Url>>)
    requires forall b :: completion(b) == b
    ensures ConcatMap(BatchHarvester(server, completion), bs) == ConcatMap(Harvester(server), Flatten(bs))
  {
    var h := Harvester(server);
    var inOrder := (b: seq<Url>) => ConcatMap(h, b);
    ConcatMapCongruence(BatchHarvester(server, completion), inOrder, bs);
    ConcatMapFlatten(h, bs);
  }
}

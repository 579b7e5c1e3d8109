# Channel search, modelled in Dafny

`ChannelSearch` runs a message search against Discord's HTTP API. `search(**kwargs)`
does the following, in order:

1. It builds a search URL from the keyword arguments (`parse_url`): a guild or channel base
   path, then query parameters in the fixed order from `_all`.
2. It fetches that URL once. This is the *probe*.
3. It reads `analytics_id` and `total_results` from the probe's answer.
4. When `messages` is requested, it checks `limit` against `total_results` and plans one URL
   per further page of 25 results. The probe's hit records (`_parse_results`) come first in
   the result.
5. It fetches the planned pages in concurrent batches of `rate` URLs (`grouper`) and pauses
   `sleep` seconds after each batch.
6. Each page fetch (`_append`) fetches again exactly once when the first answer carries
   `retry_after`. It then appends that page's hits.

The model has one module per concern:

* `Values` holds the dynamically typed values of keyword arguments and of the JSON fields the core reads.
* `Grouping` is `grouper`.
* `QueryBuilder` is `parse_url`. The URL is a structured `Target`: a base path plus the list
  of query pairs.
* `PageFilter` is `_parse_results`.
* `Paging` holds the page plan: `ceil(limit / 25)`, the offset URLs, and the recorded events.
* `RetryPolicy` is `_append`'s fetch with its single retry.
* `BatchScheduler` is the `for x in grouper(rate, urls)` loop.
* `ChannelSearch` is `search` itself.

The server is a parameter: a function from a URL to a `Response`. A `Response` holds the
first answer and the answer to a re-fetch. Fetches, retry waits and batch pauses are recorded
as `Event`s in a trace. The order in which a batch's tasks finish is also a parameter,
`completion`. Most lemmas about it only assume that it permutes the batch.

The imperative methods follow the source step by step. Each is proved equal to a
specification function:

* `ChannelSearch.Search` (the walk through `search`) equals `SearchSpec`.
* `BatchScheduler.RunBatches` (the loop over the groups) equals `ConcatMap` over `Batches`.
* `BatchScheduler.RunBatch` (one batch's tasks) equals `ConcatMap` of `Harvester` and
  `Tracer` over `completion(tasks)`.
* `RetryPolicy.FetchPage` (one `_append` fetch, with no loop) equals `PageHits` and
  `PageTrace`.
* `QueryBuilder.ParseUrl` (the loop over `_all`) equals `BuildTarget`.
* `QueryBuilder.AppendParam` (one key's step, with its loop over a list value) appends
  `Expand`.

The lemmas then state what the source promises about those functions.

## Model

| member | source | states |
|---|---|---|
| Grouping.Grouper | channelsearch.py:9-10 | `grouper(n, xs)`: consecutive groups of `n`, the last padded with the fill value; nothing for `n <= 0` (definition; its properties are the `Grouper*` lemmas) |
| QueryBuilder.Expand | channelsearch.py:60-64 | one key's pairs: one per list or tuple element, none for `None`, else one with the value's `.id` or the value (definition; see `ExpandPairs`) |
| QueryBuilder.QueryPairs | channelsearch.py:46-64 | the pair list: `Expand` of each `_all` key in order (definition; see `QueryPairsKeyOrder`) |
| QueryBuilder.BuildTarget | channelsearch.py:41-64 | the guild base path when `guild` is not `None`, else the channel's, with `QueryPairs` (definition; `ParseUrl` is proved equal to it) |
| PageFilter.ParseResults | channelsearch.py:69-76 | the hits of every group, group by group, or nothing without `messages` (definition; see `ParseResultsSpec`) |
| Paging.CeilDiv | channelsearch.py:108 | integer `math.ceil(a / n)` (definition; see `CeilDivBounds`) |
| Paging.PageCount | channelsearch.py:108 | `ceil(limit / 25)`, `limit` defaulting to `total_results` (definition) |
| Paging.PageUrls | channelsearch.py:111 | one URL per offset `(i + 1) * 25` for `i < pages - 1` (definition; see `PageUrlsSpec`) |
| RetryPolicy.FinalDoc | channelsearch.py:123-127 | the re-fetch's answer after a throttled first answer, the first answer otherwise (definition; see `HitsFromLastResponse`) |
| RetryPolicy.PageTrace | channelsearch.py:120-127 | a GET, then a wait and a second GET when throttled (definition; see `RetryBound`) |
| RetryPolicy.PageHits | channelsearch.py:129-130 | the hits of `FinalDoc` (definition; `FetchPage` is proved equal to it) |
| BatchScheduler.Batches | channelsearch.py:132-133 | the URL lists of `grouper(rate, urls)` with the `None` padding dropped (definition; see `BatchesCover`, `BatchSizes`) |
| ChannelSearch.SearchSpec | channelsearch.py:78-137 | the outcome and trace of `search`, branch by branch (definition; `Search` is proved equal to it, the `ChannelSearch` lemmas state its properties) |
| Grouping.GrouperNonPositive | channelsearch.py:9-10 | for `n <= 0`, `zip_longest` of zero iterators yields no groups at all |
| Grouping.GrouperCount | channelsearch.py:9-10 | `grouper(n, xs)` yields `ceil(len(xs) / n)` groups |
| Grouping.GrouperWidth | channelsearch.py:9-10 | every group, the last included, has exactly `n` entries |
| Grouping.GrouperFlatten | channelsearch.py:9-10 | concatenating the groups gives `xs` in order, followed by `(n - len(xs) % n) % n` copies of the fill value |
| QueryBuilder.AppendParam | channelsearch.py:59-64 | one key's step appends one pair per list or tuple element, nothing for `None`, and otherwise one pair with the value's id |
| QueryBuilder.ParseUrl | channelsearch.py:40-66 | the base path is the guild's when `guild` is not `None`, else the channel's; the pairs are exactly `QueryPairs(kwargs)` |
| QueryBuilder.QueryPairsKeyOrder | channelsearch.py:46-64 | the pairs come key by key in the order channel, content, user, nsfw, mentions, min, max, has, under the parameter names `_all` gives |
| QueryBuilder.ExpandPairs | channelsearch.py:60-64 | all of one key's pairs carry its parameter name; list and tuple elements appear in order and unconverted; `None` contributes nothing; an object contributes its `.id` |
| PageFilter.NoMessagesNoHits | channelsearch.py:72 | an absent or null `messages` field yields no records |
| PageFilter.GroupHitsMembers | channelsearch.py:74-76 | a record is yielded iff it occurs in the group and has a non-`None` `hit` |
| PageFilter.GroupHitsCount | channelsearch.py:74-76 | each hit is yielded as often as it occurs, and a non-hit never is |
| PageFilter.GroupHitsAppend | channelsearch.py:74-76 | the hits of two concatenated candidate lists are the hits of the first, then those of the second |
| PageFilter.GroupHitsFlatten | channelsearch.py:72-76 | scanning group by group is the same as scanning the flattened candidate list |
| PageFilter.ParseResultsSpec | channelsearch.py:68-76 | `_parse_results` yields exactly the hits of all groups, in document order, each with its multiplicity |
| PageFilter.HitsAreFixed | channelsearch.py:75-76 | a list made only of hits passes the filter unchanged |
| PageFilter.IdempotentFilter | channelsearch.py:72-76 | filtering a document that only holds already-yielded records yields the same records |
| Paging.CeilDivBounds | channelsearch.py:108 | the page count is the least integer `p` with `25 * p >= limit`: `math.ceil` also for negative limits |
| Paging.PageUrlsSpec | channelsearch.py:111 | there are `pages - 1` URLs, or none; the `k`-th carries offset `25 * (k + 1)`; offsets strictly increase; none is the probe URL |
| Paging.OffsetsCoverTotal | channelsearch.py:104-111 | with no limit, offset `25 * k` is planned iff `1 <= k` and `25 * k < total_results` |
| Paging.OffsetExamples | channelsearch.py:108-111 | 52 results plan offsets 25 and 50, 30 results plan only offset 25, and 0 results plan nothing |
| RetryPolicy.FetchPage | channelsearch.py:119-130 | `_append` records one GET, or a GET, a wait and a second GET after a `retry_after` answer; the hits returned are those of the last answer |
| RetryPolicy.RetryBound | channelsearch.py:123-127 | a page is fetched once, or twice iff its first answer is throttled; it waits once iff it retries, and not at all otherwise; no other URL is touched and nothing pauses |
| RetryPolicy.HitsFromLastResponse | channelsearch.py:123-130 | the hits come from the re-fetch after a throttled answer, even when the re-fetch is throttled too, and from the first answer otherwise |
| BatchScheduler.PresentSomes | channelsearch.py:133 | dropping the `None` padding from a padded group gives back exactly its URLs |
| BatchScheduler.RunBatch | channelsearch.py:133-134 | one batch appends the hits and records the fetches of each of its URLs, in completion order |
| BatchScheduler.RunBatches | channelsearch.py:132-135 | the loop appends every batch's hits, and records every batch's fetches followed by one pause |
| BatchScheduler.BatchesCover | channelsearch.py:132-133 | for `rate >= 1`, the batches hold exactly the planned URLs, in order and without padding; there are `ceil(len(urls) / rate)` of them; no URLs means no batches |
| BatchScheduler.NegativeRateRunsNothing | channelsearch.py:132-133 | a negative `rate` gives no batches |
| BatchScheduler.BatchSizes | channelsearch.py:132-133 | every batch except the last has `rate` URLs; the last holds the remaining URLs, at least one |
| BatchScheduler.TwelvePagesInThreeBatches | channelsearch.py:132-133 | twelve URLs at the default rate of 5 run as three batches of 5, 5 and 2 |
| BatchScheduler.PageTraceCounts | channelsearch.py:119-127 | one page's events contain `Attempts` GETs of that page, none of any other page, and no pause |
| BatchScheduler.TraceGetCount | channelsearch.py:133-134 | fetching a URL list requests each URL `Attempts` times per occurrence |
| BatchScheduler.TraceSleepCount | channelsearch.py:119-130 | fetching pages never records a batch pause |
| BatchScheduler.ScheduleGetCount | channelsearch.py:132-134 | over the batch loop, each URL is requested `Attempts` times per occurrence, whatever order the tasks complete in |
| BatchScheduler.ScheduleSleepCount | channelsearch.py:135 | the loop pauses exactly once per batch, with the configured `sleep` |
| BatchScheduler.BatchLoopSleeps | channelsearch.py:132-135 | the loop pauses `ceil(len(urls) / rate)` times with the configured `sleep` |
| BatchScheduler.ScheduleHits | channelsearch.py:129-134 | each batch's segment of hits is a permutation of the final hits of that batch's own URLs; over the loop, each planned page's final hits appear exactly once |
| BatchScheduler.InOrderCompletion | channelsearch.py:129-134 | when tasks complete in launch order, the hits appear in page order |
| ChannelSearch.SameDefaultsSameSearch | channelsearch.py:82-83 | `search` reads `rate` and `sleep` only through `x or default`: two options that agree there give the same outcome and trace |
| ChannelSearch.ZeroRateIsDefault | channelsearch.py:82 | `rate=0`, an absent `rate` and `rate=5` give the same outcome and trace |
| ChannelSearch.ZeroSleepIsDefault | channelsearch.py:83 | `sleep=0`, an absent `sleep` and `sleep=3` give the same outcome and trace |
| ChannelSearch.Search | channelsearch.py:78-137 | the method's result and trace are those of `SearchSpec`, which follows every branch and early return of `search` |
| ChannelSearch.MissingTotalIsTypeError | channelsearch.py:91-96 | without `total_results`, `int(None)` raises `TypeError` after the probe alone |
| ChannelSearch.MessagesOffReturnsSummary | channelsearch.py:94-101 | without `messages`, the result is `analytics_id`, `total_results` and no records, after the probe alone |
| ChannelSearch.LimitAboveTotalIsValueError | channelsearch.py:104-106 | with `messages` requested, a `limit` above `total_results` raises `ValueError` before any further page is fetched |
| ChannelSearch.SmallLimitReturnsProbeHits | channelsearch.py:113-117 | a limit from 0 to 25 returns all of the probe page's hits, untruncated, with no further fetch |
| ChannelSearch.PagingResult | channelsearch.py:94-137 | on the paging path, the result is the probe's summary with the probe page's hits followed by the batch loop's hits |
| ChannelSearch.PagingTrace | channelsearch.py:91-135 | on the paging path, the trace is the probe GET followed by the batch loop's events |
| ChannelSearch.PagingHits | channelsearch.py:113-137 | the result keeps the probe's summary, starts with the probe page's hits, and holds every planned page's final hits exactly once |
| ChannelSearch.PagingFetches | channelsearch.py:91-135 | the probe is fetched once, each planned page `Attempts` times, and no other URL at all |
| ChannelSearch.PagingSleeps | channelsearch.py:132-135 | the search pauses exactly once per batch and never elsewhere |
| ChannelSearch.NoLimitFetchesEveryPage | channelsearch.py:104-111 | with no limit, offset `25 * k` is requested iff `1 <= k` and `25 * k < total_results` |
| ChannelSearch.ZeroResultsFetchOnce | channelsearch.py:104-135 | with `total_results = 0` and no limit, the probe is the only fetch and nothing pauses |
| ChannelSearch.NegativeRateSkipsPages | channelsearch.py:132-135 | with a negative `rate`, no page after the probe is fetched, and the result holds only the probe page's hits |
| ChannelSearch.InOrderHits | channelsearch.py:113-134 | with launch-order completion, the hits are the probe page's followed by every planned page's, in page order |

## Left out

- The aiohttp session and the request headers are not modelled; the server is an abstract function from URL to answers (channelsearch.py:15-29, 85-89).
- `__init__` is not modelled: it only stores the credentials and opens the session.
- `_send_sim_request` is not modelled because `search` never calls it.
- `urlencode` and the f-string formatting of URLs are not modelled. A URL is a `Target` plus an optional offset, and percent-encoding is not represented.
- Asyncio scheduling is not modelled. Within a batch, each task's events and hits stay contiguous, in the order `completion` gives. The source can interleave two tasks' events between awaits.
- The length of the retry wait (`retry_after / 1000` seconds) is not modelled, because it is a floating-point duration. Only the fact that a wait happens is recorded.
- `rate` and `sleep` are integers. A float, string or other value, and its truthiness, is not modelled.
- `math.ceil` is exact here. The source divides with floating point, which can round differently for very large limits.
- `limit=None` or a string `limit` raises `TypeError` at channelsearch.py:105, and this is not modelled. A float or bool `limit` runs in the source, and it is not modelled either, because `Options.limit` is an integer.
- `total_results` is an optional natural number. `int()` of a string or float, or of a negative number, is not modelled.
- A failing request or `res.json()` is not modelled (connection error, non-JSON body; channelsearch.py:91-92, 120-121, 126-127): the server always answers. In the source the exception escapes `gather` at :134, and `search` raises without that batch's pause.
- A non-numeric `retry_after` is not modelled: the source's `retry_after / 1000` (:124) raises `TypeError` on it, while the model treats every non-`None` value as a throttle.
- `Val` has no float and no dictionary case: a float field, or a nested object inside a candidate record, cannot be represented; records are passed through unchanged, so nothing the core decides depends on them.
- Candidate records are always mappings. The source would fail on a non-mapping record, and that failure is not modelled.
- `analytics_id` is stored as an uninterpreted value.
- `Search`'s own contract does not require `completion` to permute each batch. Only the lemmas that count hits and fetches (`PagingHits`, `PagingFetches`, `NoLimitFetchesEveryPage`, `ScheduleHits`, `ScheduleGetCount`) assume it. The lemmas that only look at the trace shape or at pause counts, and `InOrderHits` (which requires launch-order completion), do not.
- ChannelSearch.PagingSleeps: counts the pauses as one per batch. The count `ceil(pages_after_probe / rate)` is stated one level down, in `BatchScheduler.BatchLoopSleeps`.

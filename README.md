# Weasyl statistics graphs, modelled in Dafny

This project models how the Weasyl statistics dashboard shapes its data. It covers four
parts, one Dafny module each:

- **Site** (static/site.js). This covers:
  - the rating and submission-type code tables;
  - the date-by-column pivot `aggregateByDate`;
  - the row normaliser `percentageOfTotal`;
  - the rating-statistics handlers, which turn one query row into two or four chart records;
  - the sort and `slice(20)` of `tag_popularity_favorites`.
- **Reports** (static/reports.js). The `tickets` handler nests tickets by reporter. It then
  collects the distinct months and builds one dense series per reporter, sorted by
  descending reporter, together with per-reporter totals. The `reports_by_day` handler
  sorts rows by date.
- **Graphs** (graphs.py). `submissions` buckets `(day, rating, count)` rows. It then stacks
  the four ratings into bands, each starting where the one below ends. `users` splits rows
  into three parallel lists.
- **GraphServer** (graphserver.py). `QueriesResource.render_GET`:
  - checks the query name;
  - serves a cached result while `cachedAt + cacheLength > now`, with a cache length of one day;
  - otherwise fetches the result and replies with it as JSON;
  - caches the result only when fetch and reply both succeed.

  `serializeOther` encodes datetimes, timedeltas and Decimals.

Three helper modules support these:

- **Sorting**: a verified insertion sort `SortBy`. It stands for the library sorts the
  source calls (`Array.prototype.sort` with a `d3` comparator, Python's `sorted`).
- **Buckets**: the last-write-wins grouping into a map of maps, which both `aggregateByDate`
  and `submissions` start with.
- **Wrappers**: `Option` (JavaScript's `undefined`, Python's `None`) and `Result`.

Conventions used throughout:

- Dates, months, days and reporters are abstract integer keys, ordered as the source's
  comparisons order them.
- Query results are given sequences.
- The clock is passed in as integer seconds.
- The outcome of a database or method fetch is passed in as a function of where the query
  is answered from.

The imperative code stays imperative. `aggregateByDate`, the tickets handler, the record
builders, `submissions` and `users` are methods with loops and invariants, proved against
specification functions (`Last`, `MonthCount`, `Stack`). `QueriesResource` is a class
whose `cache` field `RenderGet` and `Cache` update.

## Model

| member | source | states |
|---|---|---|
| Sorting.SortBy | static/site.js:84 | The result is a permutation of the input, of the same length, in non-decreasing key order. |
| Sorting.SortByStrict | static/site.js:84 | Sorting elements with pairwise distinct keys gives a strictly increasing sequence, so each key appears once. |
| Buckets.Last | static/site.js:73 | The last value given for (key, column) is an entry of the input; no value means no entry for the pair. |
| Buckets.LastOfAppend | graphs.py:27 | A later entry for the same (key, column) replaces the value; other pairs keep theirs. |
| Buckets.Group | static/site.js:66-74 | The buckets are exactly the keys of the input, listed once each (in no specified order; every consumer sorts them). Each bucket maps every column to the last value given for it (last write wins). |
| Site.RatingName | static/site.js:57-63 | A code is defined exactly for 10, 20, 30 and 40. The i-th name of `ratingOrder` belongs to code 10(i+1) and to no other code. |
| Site.SubmissionTypeName | static/site.js:135-140 | A code is defined exactly for 1, 2 and 3. The i-th name of `submissionTypeOrder` belongs to code i+1 and to no other code. |
| Site.AggregateByDate | static/site.js:65-86 | There is one row per distinct date, strictly ascending, and no row for any other date. Every row has one cell per column, and cell j holds the last value given for (date, `columnOrder[j]`), undefined if there is none. |
| Site.RowOf | static/site.js:78-81 | The row for a date has one cell per column in `columnOrder`, each the last value for that column. |
| Site.SortRows | static/site.js:84 | Sorting rows built for distinct dates orders them strictly by date. It keeps every date and every row's cells. |
| Site.Named | static/site.js:89-91 | Each query row becomes the tuple `[date, names.get(code), value]`, one for one. |
| Site.NamedKeys | static/site.js:89-91 | Naming the codes neither adds nor loses a date. |
| Site.LastNamed | static/site.js:89-91 | With distinct names, the cell for a code's name holds the last value given for that code. |
| Site.LastUnnamed | static/site.js:89-91 | A column whose name no code has holds no value. |
| Site.RatingNamesDistinct | static/site.js:57-62 | No two codes of either table share a name. |
| Site.AggregateCoded | static/site.js:142-145 | After naming the codes and pivoting, the rows are strictly ascending with one per date, including dates whose codes are all unmapped. A column holds the last value for the code of that name; a column no code names stays undefined. |
| Site.NormalizeCells | static/site.js:108 | Each cell becomes its value (undefined counting as 0) divided by the total; division by zero is non-finite. |
| Site.Total | static/site.js:107 | Definition without ensures: `d3.sum` of a row, the sum of its defined cells (undefined cells add nothing). Its properties are stated by NormalizedSum, CellAtMostTotal and PercentagesSumToOne. |
| Site.NormalizeRow | static/site.js:105-108 | Normalising keeps the date and the number of cells. |
| Site.PercentageOfTotal | static/site.js:104-110 | The number of rows, each row's date and each row's length are kept. Every cell is its value over the row's `d3.sum` of defined cells. |
| Site.NormalizedSum | static/site.js:107-108 | With a non-zero total, the fractions sum to the cells' sum over the total. |
| Site.PercentagesSumToOne | static/site.js:104-110 | A row with a non-zero total normalises to finite fractions that sum to exactly 1. |
| Site.CellAtMostTotal | static/site.js:107 | With non-negative cells, each cell lies between 0 and the row's total. |
| Site.FractionsInUnitInterval | static/site.js:104-110 | With non-negative cells and a positive total, every fraction lies in [0, 1]. |
| Site.ZeroTotalIsNonFinite | static/site.js:108 | A row whose total is 0 normalises to non-finite cells only (NaN/Infinity). |
| Site.Column | static/site.js:243-244 | `v[n]` is defined exactly when the row has an n-th value. |
| Site.ViewsAndFavorites | static/site.js:241-245 | The ensures gives exactly two records per row; the body defines them: page views from `v[3]`, then favorites from `v[4]`. |
| Site.Percentages | static/site.js:260-266 | The ensures gives exactly four records per row; the body defines them: `v[1]` to `v[4]`, in order. |
| Site.OtherRatingStatistics | static/site.js:237-245 | There are twice as many records as rows. Records 2i and 2i+1 are the page views and favorites of the i-th row in ascending code order. |
| Site.PercentStatisticsByRating | static/site.js:256-266 | There are four times as many records as rows. Records 4i to 4i+3 are the four percentages of the i-th row in ascending code order. |
| Site.TagPopularityFavorites | static/site.js:191-198 | The full chart gets a permutation of the rows sorted by submissions, largest first. The bubble chart gets the full list minus its first 20 entries, in order (empty when there are at most 20). No bubble tag has more submissions than any of the 20 dropped. |
| Reports.Reporters | static/reports.js:4-5 | The nest keys are every reporter of the input, once each. |
| Reports.OfReporter | static/reports.js:4-7 | A reporter's tickets are exactly the input's tickets by that reporter. |
| Reports.GroupValues | static/reports.js:6 | A reporter's values are its tickets, reordered and sorted ascending by `openedAt`. |
| Reports.Nest | static/reports.js:4-9 | There is one group per reporter, each reporter once, holding that reporter's sorted tickets. |
| Reports.Flatten | static/reports.js:11-12 | The nested loops visit exactly the tickets of the nest. |
| Reports.FlattenNest | static/reports.js:4-17 | The nest's tickets have the same months as the input's. |
| Reports.MonthEntry | static/reports.js:21-24 | The month's entry is the count of some ticket for that month; no entry means no ticket for it. |
| Reports.MonthCount | static/reports.js:34 | Definition without ensures: the count of the reporter's last ticket for the month, or 0 when there is none. MonthEntry states what it reads. |
| Reports.MonthEntryAppend | static/reports.js:23-24 | Appending a ticket sets its own month's entry to its count and leaves every other month's entry as it was (last write wins). |
| Reports.LaterEntryWins | static/reports.js:23-26 | A later ticket for a month replaces that month's y value, while the total adds both. |
| Reports.SumCounts | static/reports.js:22-25 | Definition without ensures: the reporter's total, the sum of the counts of its tickets. SumCountsConcat and SumCountsPermutation state its properties. |
| Reports.SumCountsPermutation | static/reports.js:22-25 | Reordering the tickets (the `sortValues` sort) does not change the total. |
| Reports.CollectTimes | static/reports.js:10-17 | `times` lists each month of the nest once. |
| Reports.GroupSeries | static/reports.js:20-36 | One series per reporter, keyed by the reporter. It has one point per month, holding the count of the reporter's last ticket for the month, or 0. The reporter's total is the sum of its counts. |
| Reports.MapNest | static/reports.js:19-37 | One series and one closer record per group, in nest order. |
| Reports.Tickets | static/reports.js:3-38 | The months are strictly ascending and are exactly the input's months. There is one series per reporter, strictly descending by reporter, each dense over the months with the reporter's last count per month (0 if none). `countsByCloser` holds each reporter's total in the model's nest order, first appearance of the reporter (see "## Left out"). |
| Reports.SortedTimes | static/reports.js:18 | Sorting the collected months gives each input month once, ascending. |
| Reports.SortedSeries | static/reports.js:38 | Sorting the series keeps each series dense for its own reporter. |
| Reports.SortedSeriesKeys | static/reports.js:38 | Sorting series with distinct keys makes them strictly descending and keeps exactly their keys. |
| Reports.ReportsByDay | static/reports.js:70-74 | The rows are kept one for one and sorted ascending by date. |
| Graphs.Days | graphs.py:25-32 | Each day's counts map ratings to the last count given; the days are sorted ascending with no repeats. |
| Graphs.Count | graphs.py:35-37 | Definition without ensures: the last count given for (day, rating), 0 when there is none. |
| Graphs.Stack | graphs.py:35-37 | Definition without ensures: the day's counts summed over the first k ratings, the top of the k-th band. BandsStack and Submissions state what the bands built from it satisfy. |
| Graphs.StackDay | graphs.py:34-37 | For one day, each rating's lower bound is the upper bound the rating below has just added (0 for rating 10). Its upper bound adds the day's count. |
| Graphs.BandsGrow | graphs.py:33 | Adding a day keeps the bands complete for the days before it. |
| Graphs.BandExtend | graphs.py:36-37 | Appending a day's bottom and top completes a band one day further. |
| Graphs.BandOther | graphs.py:36-37 | Appending to one rating's band leaves the other ratings' bands unchanged. |
| Graphs.BandsStack | graphs.py:29-37 | Complete bands stack without gaps: band 10 starts at 0 and band r starts where band r-10 ends. Each band is as wide as the day's count, and band 40 ends at the day's total. |
| Graphs.Submissions | graphs.py:25-37 | The days are the distinct input days, ascending. Every rating has lists as long as `days`, stacked without gaps from 0, each as wide as the day's count (0 if none). The top band ends at the sum of the four counts. |
| Graphs.OtherRatingsIgnored | graphs.py:34-37 | A row for a rating outside `RATINGS` changes no band of any day. |
| Graphs.Users | graphs.py:63-69 | The three lists are as long as the input and keep its order: day, 0, count. |
| GraphServer.SerializeOther | graphserver.py:301-309 | The hook succeeds exactly for datetime, timedelta and Decimal, giving a string or a float. A datetime becomes its ISO text without a zone, a timedelta its total seconds and a Decimal its value. Any other type raises TypeError. |
| GraphServer.IsoFormat | graphserver.py:303 | Definition without ensures: the ISO text of a naive datetime, `YYYY-MM-DDTHH:MM:SS` with `.ffffff` only when the microseconds are not 0. IsoFormatFields states its layout. |
| GraphServer.TotalSeconds | graphserver.py:305 | Definition without ensures: a timedelta's length in seconds, days times 86400 plus seconds plus microseconds over 10^6, over the reals. |
| GraphServer.Serialize | graphserver.py:347 | Encoding succeeds exactly when every part of the value can be encoded. `None`, booleans, numbers and strings are encoded directly, a list becomes an array element for element, and only the values `json.dumps` cannot encode itself (datetime, timedelta, Decimal, any other type) go through the hook. |
| GraphServer.SerializeAll | graphserver.py:347 | A list encodes exactly when all its elements do, one JSON item per element. |
| GraphServer.DateTimeIgnoresZone | graphserver.py:302-303 | Two datetimes that differ only in their zone encode alike: the zone is dropped and the time is not converted. |
| GraphServer.PaddedValue | graphserver.py:303 | A zero-padded numeral reads back as its number. |
| GraphServer.PaddedLength | graphserver.py:303 | A number below 10^w fills exactly w places. |
| GraphServer.IsoFormatFields | graphserver.py:303 | A valid datetime's text has the layout `YYYY-MM-DDTHH:MM:SS`, plus `.ffffff` only when the microseconds are not 0. Every field reads back from its place. |
| GraphServer.SourceFor | graphserver.py:337-340 | A `query_<name>` method takes precedence over the SQL of the same name. |
| GraphServer.Fresh | graphserver.py:333 | Definition without ensures: the entry exists and was cached less than `cacheLength` seconds before now. ExpiresAtCacheLength and FreshEarlier state its properties. |
| GraphServer.PlanRequest | graphserver.py:321-336 | Rejects exactly a missing, empty or unknown name. Serves from the cache exactly when the entry is fresh, meaning `cachedAt + 86400 > now`. Otherwise fetches from the name's source. |
| GraphServer.ReplyBody | graphserver.py:346-349 | The reply `{"result": ...}` is written exactly when the results can be encoded. |
| GraphServer.Step | graphserver.py:321-352 | Definition without ensures: one request as a function of the cache, the query, the time, the reply time and the fetch, giving the response and the new cache. StepKeepsOthers, FailedFetchCachesNothing, BadQueryUntouched and RenderGet state its properties. |
| GraphServer.StepKeepsOthers | graphserver.py:330-352 | A request keeps every cached entry encodable and under a known name, and never evicts. It changes only the requested entry: to the fetched results stamped with the reply time, only for a known, non-fresh name whose fetch and reply succeeded. |
| GraphServer.FailedFetchCachesNothing | graphserver.py:341-343 | A failed fetch answers with the failure page and leaves the cache as it was. |
| GraphServer.BadQueryUntouched | graphserver.py:323-328 | A missing or unknown name gets `{"error": "bad query"}` and the cache is not touched. |
| GraphServer.TopReportersRejected | graphserver.py:326-328 | `top_reporters`, which static/site.js:309 requests, has neither SQL nor a method, so it is rejected. |
| GraphServer.ExpiresAtCacheLength | graphserver.py:330-335 | An entry is served one second before it is `cacheLength` (86400 s) old and refetched once it is exactly that old, because the comparison is strict. |
| GraphServer.FreshEarlier | graphserver.py:333 | An entry served at some time is also served at every earlier time. |
| GraphServer.MethodTakesPrecedence | graphserver.py:326-340 | `favorites_vs_view_time`, when not cached, is fetched from its method. |
| GraphServer.QueriesResource.constructor | graphserver.py:315-319 | The cache starts empty. |
| GraphServer.QueriesResource.Cache | graphserver.py:351-352 | `_cache` overwrites the query's entry with the results and the time, and changes no other entry. |
| GraphServer.QueriesResource.RenderGet | graphserver.py:321-344 | The response and the new cache are exactly those of `Step`, and the cache invariant is kept. |

## Left out

- SQL text. The query strings in graphserver.py and graphs.py are PostgreSQL's business, so query results are given sequences.
- Twisted, txpostgres and treq plumbing, and `main`. Deferred callbacks, `request.write`/`finish` and endpoints are not modelled: a fetch is a function from where the query is answered to its outcome, and the response is a value.
- RenderGet: each request is modelled as one atomic step. In the source other requests can run between the freshness test (graphserver.py:333) and `_cache` (graphserver.py:352), so two overlapping misses for the same query both fetch and whichever finishes last sets the cached entry; the model does not capture that interleaving.
- RenderGet: takes the first `query` argument already extracted from `request.args`. Twisted never supplies an empty list there, so the `[0]` index cannot fail.
- `query_favorites_vs_view_time`. It combines a Piwik HTTP fetch with a database query over foreign data. Only its name, which makes the method branch win, is modelled.
- Chart rendering: dimple, Dygraph, nvd3, matplotlib, SVG creation and `window.open` click handlers. The pie/bar handlers that only relabel rows for a chart are left out too.
- Date parsing and formatting (`d3.time.format`, `getTime`, `date2num`). Dates are abstract integer keys, and the reporter order of `d3.descending` is an integer order.
- Floating point:
  - `percentageOfTotal` is over reals, with an explicit non-finite quotient for a zero total.
  - The float values of timedelta and Decimal are reals.
  - The age conversion in the `ages` handler is not modelled.
  - Decimals that are NaN or infinite are not modelled.
  - `time.time()` is an integer number of seconds.
- Library sorts:
  - Sorting.SortBy: models `Array.prototype.sort` and `sorted` as a stable sort on values, not an in-place one.
  - d3's comparator semantics on strings and dates are not modelled.
  - No claim is made about the order of equal keys beyond what the contracts state.
- `d3.nest`/`d3.map` internals. A nest is a group-by whose groups the model lists in first-appearance order of the reporters; a `d3.map` is a map.
- Reports.Nest, Reports.Tickets: the model fixes the nest order, and so the order of `countsByCloser` (which static/reports.js:27-30 builds in nest order and never sorts), to first appearance. The source does not pin the d3 version, and d3's map need not list keys that way (d3 3.5 keeps them in a plain object, so numeric keys come first in numeric order); that order is a choice of the model. The series are sorted afterwards, so their order does not depend on it.
- Site.Named: an unmapped code becomes an undefined column. `d3.map` would coerce that key to the string "undefined"; no column list the source passes contains that string, so no cell changes.
- Site.TagPopularityFavorites: models the `tag_popularity_favorites` sort only. `tag_interest` sorts and slices the same way, but on a floating-point percentage.
- The asynchronous `d3.json` fetches and their ignored `error` argument.
- The commented-out handlers at the end of static/site.js.
- The plotting in graphs.py, which raises IndexError at `days[0]` on an empty result.
- Graphs.Submissions, Graphs.Users: the `date2num` day conversion is left out.

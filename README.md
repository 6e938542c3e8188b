# Glimpse backend adapters in Dafny

Glimpse is a small web service. It answers "count", "count over time" and "sample" for a
query (terms, a date range, optional filters) against several content backends:

- the Media Cloud news archive;
- the Wayback Machine news search;
- Pushshift's Reddit mirror;
- Pushshift's Twitter mirror;
- the Twitter v2 API.

Each backend adapter turns the query into that backend's native request. It then turns the
backend's JSON reply into common rows and `{date, timestamp, count}` buckets.

This project models those adapters and the utilities they rely on:

- the cache key generator;
- the `YYYY-MM-DD` date format and parse pair;
- the request validators;
- the provider dispatch table.

It then proves what the code promises about them.

Every HTTP call is replaced by a value: an adapter operation receives the backend's reply
as a typed input. The Reddit, Twitter and Pushshift Twitter adapters also return the
request they would have sent, next to their result. The Wayback adapter's `sample`,
`count` and `count_over_time` take only the reply, because all three send the same
request, which `OnlineNews.OverviewParams` states once.

Library calls whose result depends on a parser or on the host's time zone are not computed.
They stay as symbolic `Common.Foreign` terms over their exact arguments, so a contract can
still say which text was parsed. These calls are `dateparser.parse`, `strptime` with
`%a %b %z`, `fromtimestamp` followed by `strftime`, `x.timestamp()` of a parsed date (for a
naive one it depends on the host's time zone), and `MediaCloud.dates_as_query_clause`.

A `datetime` whose `.timestamp()` the source reads (the Reddit and Pushshift Twitter
adapters) is a `Dates.Moment`: its wall-clock fields plus `int(d.timestamp())`. Every other
`datetime` argument is a `Dates.PyDateTime`. Local time (`fromtimestamp`) is a
`Dates.LocalClock` parameter.

Modules, one per source file, plus the shared helpers:

| module | models |
|---|---|
| `Wrappers`, `Text`, `Common` | Option/Result; `str.split`/`join`/`lower`/`strip`; decimal rendering; request values, errors, buckets, `sum`, prefix slices |
| `Dates` | server/util/dates.py, and `isoformat("T") + "Z"` |
| `OnlineNews` | server/platforms/onlinenews.py |
| `RedditPushshift` | server/platforms/reddit_pushshift.py |
| `TwitterPushshift` | server/platforms/twitter_pushshift.py |
| `TwitterApi` | the helpers that server/platforms/twitter.py and server/platforms/twitter_twitter.py both define, with the same text: request parameters, the in-place author join, and the row mapping |
| `Twitter` | server/platforms/twitter.py: the `next_token` walker, `count`, `normalized_count_over_time` |
| `TwitterTwitter` | server/platforms/twitter_twitter.py: single-page `count_over_time`, and `count` as its sum |
| `Cache` | server/util/cache.py |
| `Request` | server/util/request.py |
| `Platforms` | server/platforms/__init__.py, and the platform-string parse in server/api.py |

The tweet records of a Twitter v2 search reply are objects (`TwitterApi.Tweet`), because
`_add_author_to_tweets` writes into them in place. Its contract speaks about aliasing: the
same tweet object may appear twice in a reply.

The pagination walker of server/platforms/twitter.py reads a finite list of replies. Reply
`k` answers request `k`. If the list runs out while tokens keep arriving, the outcome says
so (`Unfinished`) instead of inventing a reply.

## Model

| member | source | states |
|---|---|---|
| Dates.FormatSolrDate | server/util/dates.py:3-8 | the text is ten characters: four year digits, `-`, two month digits, `-`, two day digits |
| Dates.UnixToSolrDate | server/util/dates.py:6-8 | the local day of an epoch second, in the ten-character `YYYY-MM-DD` layout |
| Dates.SolrDateToDate | server/util/dates.py:11-12 | every parsed value is a valid date at 00:00:00; text `strptime` rejects gives `None` |
| Dates.ParseFormat | server/util/dates.py:3-12 | parsing a formatted valid date gives back that date at midnight |
| Dates.FormatInjective | server/util/dates.py:3-8 | two valid dates with the same rendering are equal |
| Dates.UnixDateRoundTrip | server/util/dates.py:6-12 | formatting an epoch second then parsing gives midnight of that second's local day |
| Dates.IsoZ | server/platforms/twitter.py:36-37 | the time text has 20 or 27 characters and ends in `Z` |
| Dates.IsoZFields | server/platforms/twitter.py:36-37 | the time text is an RFC 3339 date-time: its first ten characters parse back to the day, then `T`; hour, minute and second read back; `Z` directly after the seconds exactly when there are no microseconds |
| OnlineNews.QueryFromParts | server/platforms/onlinenews.py:110-126 | the query is the terms in parentheses, then ` AND (` and the non-empty id clauses (media first) joined by ` OR ` and `)`, as the case-by-case definition `QueryFor` gives it |
| OnlineNews.FormatQuery | server/platforms/onlinenews.py:93-108 | a missing `sources` or `collections` counts as an empty list; `fq` is Media Cloud's date clause for the two dates |
| OnlineNews.NoFiltersIsParenthesisedTerms | server/platforms/onlinenews.py:112-113 | with no filters the query is exactly `(terms)`, including `()` for empty terms |
| OnlineNews.QueryStartsWithTerms | server/platforms/onlinenews.py:112-126 | every query starts with `(terms)`, and is exactly that if and only if both id lists are empty |
| OnlineNews.AbsentFilterIsEmpty | server/platforms/onlinenews.py:104-105 | `_format_query` without `sources` gives the same query as with `sources=[]`, and likewise for `collections`, whatever the other filter is |
| OnlineNews.MediaOnlyExample | server/platforms/onlinenews.py:116-125 | terms `X` and sources 1, 2 give `(X) AND (media_id:(1 2))` |
| OnlineNews.IdListRoundTrip | server/platforms/onlinenews.py:117-121 | the id list inside a clause splits at spaces into parts that parse back to the ids, in order |
| OnlineNews.DateQueryClause | server/platforms/onlinenews.py:158-160 | the date clause has 43 characters, the two ten-character days included |
| OnlineNews.OverviewQuery | server/platforms/onlinenews.py:164 | the overview query text is 48 characters longer than the terms |
| OnlineNews.OverviewParams | server/platforms/onlinenews.py:162-165 | the overview request has the single parameter `q`, the overview query text |
| OnlineNews.OverviewQueryDates | server/platforms/onlinenews.py:158-165 | `q` is the terms, ` AND publication_date:[`, ten characters parsing back to the start day, ` TO `, ten parsing back to the end day, `]` |
| OnlineNews.MatchToRow | server/platforms/onlinenews.py:183-193 | the media URL is `http://` + the domain; the story id is the `/`-free suffix of the article URL after its last `/` (all of it when there is none); the other fields are copied |
| OnlineNews.MatchesToRows | server/platforms/onlinenews.py:179-181 | one row per match, in order |
| OnlineNews.Sample | server/platforms/onlinenews.py:137-140 | a reply without `matches` raises `KeyError('matches')`; otherwise the result is the rows of the matches, one per match, in order |
| OnlineNews.Count | server/platforms/onlinenews.py:142-144 | the reply's `total`, or `KeyError('total')` when the reply has none |
| OnlineNews.CountOverTime | server/platforms/onlinenews.py:146-156 | one bucket per `dailycounts` entry in order, with that entry's count and parsed date; the bucket total is the sum of the day values; `KeyError('dailycounts')` without `dailycounts` |
| OnlineNews.DaysToBuckets | server/platforms/onlinenews.py:149-155 | the loop appends one bucket per day, in order, and the bucket total is the sum of the day values |
| OnlineNews.DayBucket | server/platforms/onlinenews.py:151-155 | a day's bucket has the parsed day as date, that date's timestamp, and the day value as count |
| OnlineNews.Words | server/platforms/onlinenews.py:81-83 | the result is a prefix of the word counts of length `min(limit, n)` for a non-negative limit (Python's `[:limit]`) |
| RedditPushshift.SubmissionSearchParams | server/platforms/reddit_pushshift.py:82-103 | the keys are the keyword arguments plus `q`, `subreddit`, `after`/`before` when given; every keyword argument overrides a built entry; `subreddit` is the comma-join, and `after`/`before` are the local days of the dates' epoch seconds |
| RedditPushshift.SubredditListRoundTrip | server/platforms/reddit_pushshift.py:97-98 | the comma-joined subreddit list splits back into the list |
| RedditPushshift.SubmissionToRow | server/platforms/reddit_pushshift.py:108-127 | the media name is `/r/` + the subreddit; media URL and full link are the submission's link; both dates are the local dates of the epoch seconds; `last_updated` is present exactly when `updated_utc` is |
| RedditPushshift.SubmissionsToRows | server/platforms/reddit_pushshift.py:36 | one row per submission, in order |
| RedditPushshift.Sample | server/platforms/reddit_pushshift.py:23-37 | the request has exactly the seven sample keys with their values; `q` comes from a keyword argument; without `subreddits` the subreddit value is the empty string; the rows are those of the first `limit` submissions |
| RedditPushshift.SampleKeepsScoreOrder | server/platforms/reddit_pushshift.py:33-36 | if the reply is sorted by descending score, so are the sampled rows |
| RedditPushshift.CountFromAggs | server/platforms/reddit_pushshift.py:52-55 | 0 for an empty aggregation list, else the sum of the `doc_count`s |
| RedditPushshift.CountNonNegative | server/platforms/reddit_pushshift.py:52-55 | with non-negative document counts the count is non-negative, and zero exactly when every count is |
| RedditPushshift.AggregationRequest | server/platforms/reddit_pushshift.py:68-70 | the aggregation request has exactly `q`, `subreddit`, `after`, `before`, `aggs=created_utc`, the frequency and `size=0` |
| RedditPushshift.Count | server/platforms/reddit_pushshift.py:39-55 | a yearly `created_utc` aggregation request with `q`, the comma-joined subreddits and the `after`/`before` local days of the two dates; the count is 0 for no aggregation entries, else the sum of their `doc_count`s |
| RedditPushshift.CountOverTime | server/platforms/reddit_pushshift.py:57-79 | the same aggregation request, with frequency `period` or `1d` by default and the `after`/`before` local days; one bucket per aggregation entry, in order; the bucket total is the sum of `doc_count`s |
| RedditPushshift.AggsToBuckets | server/platforms/reddit_pushshift.py:72-78 | each bucket's date is the entry key's local date, its timestamp the key and its count the `doc_count` |
| RedditPushshift.AggToBucket | server/platforms/reddit_pushshift.py:74-78 | an entry's bucket has the local date of its key in seconds, the key itself as timestamp, and the `doc_count` |
| RedditPushshift.CountMatchesCountOverTime | server/platforms/reddit_pushshift.py:39-79 | over the same aggregation reply, `count` equals the sum of the `count_over_time` buckets |
| RedditPushshift.SanitizeUrlForReddit | server/platforms/reddit_pushshift.py:129-135 | the result is the longest prefix without `?`; it is all of the URL exactly when there is no `?` |
| RedditPushshift.SanitizeIdempotent | server/platforms/reddit_pushshift.py:135 | sanitising twice is sanitising once |
| RedditPushshift.UrlSubmissionsBySub | server/platforms/reddit_pushshift.py:137-149 | only `url` (sanitised), `aggs=subreddit` and `size=0` are sent; one name/value pair per subreddit entry, in order |
| TwitterPushshift.QueryDocument | server/platforms/twitter_pushshift.py:104-125 | `sort`, `size` and `aggs` appear exactly when passed; with both dates the query is `bool.must = [range, match]`, otherwise the match clause alone; the matched text is the terms and the range bounds are the two epoch seconds |
| TwitterPushshift.HistogramIntervals | server/platforms/twitter_pushshift.py:46-53 | the year and day histograms differ, and every histogram is on `created_at` |
| TwitterPushshift.TweetToRow | server/platforms/twitter_pushshift.py:129-146 | `url` and `full_link` are the same status link under the media URL; `last_updated` is present exactly when `updated_utc` is, and then is the local date of those epoch seconds |
| Common.StatusLinkParts | server/platforms/twitter_pushshift.py:134 | a status link splits at `/` into scheme, host, user name, `status` and id |
| TwitterPushshift.Sample | server/platforms/twitter_pushshift.py:20-35 | the document sends `size=limit`, newest-first order, and exactly the query `bool.must = [range of the two epoch seconds, match on the terms]`; no `hits` gives `[]`, otherwise one row per hit, in order |
| TwitterPushshift.BucketsFromHistogram | server/platforms/twitter_pushshift.py:56-62 | one bucket per histogram bucket, in order, with the key as timestamp; the bucket total is the sum of `doc_count`s |
| TwitterPushshift.HistogramToBucket | server/platforms/twitter_pushshift.py:56-62 | a histogram bucket's entry has the local date of its key in milliseconds, the key itself as timestamp, and the `doc_count` |
| TwitterPushshift.Count | server/platforms/twitter_pushshift.py:37-63 | a yearly histogram with exactly the query `bool.must = [range of the two epoch seconds, match on the terms]`; the count is the sum of its bucket counts |
| TwitterPushshift.CountOverTime | server/platforms/twitter_pushshift.py:65-91 | a daily histogram with exactly the query `bool.must = [range of the two epoch seconds, match on the terms]`; one entry per histogram bucket, in order, each with the local date of its key in milliseconds, the key as timestamp and the `doc_count` |
| TwitterApi.SearchParams | server/platforms/twitter.py:33-40 | the sample request has exactly the six search keys; `query` is the terms, `max_results` is `limit`, `expansions` is `author_id`, `tweet.fields` is the comma-join of the three field names, and both times are `isoformat("T")` + `Z`; the twitter_twitter adapter repeats this code at its lines 31-38 |
| TwitterApi.TweetFieldsRoundTrip | server/platforms/twitter.py:38 | the comma-join of the three field names is `author_id,created_at,public_metrics`, and it splits back at commas into them |
| TwitterApi.SearchFieldsValue | server/platforms/twitter.py:38 | the `tweet.fields` value of the sample request is `author_id,created_at,public_metrics`, and it splits back at commas into the three field names |
| TwitterApi.CountParams | server/platforms/twitter.py:45-49 | the count request has exactly `query` (the terms), `start_time` and `end_time` (each `isoformat("T")` + `Z`) |
| TwitterApi.CountOverTimeParams | server/platforms/twitter.py:64-69 | these are the count parameters, with their values, plus `granularity=day` |
| TwitterApi.UserIndex | server/platforms/twitter.py:110 | each id in the user index maps to a user with that id |
| TwitterApi.UserIndexLookup | server/platforms/twitter.py:110 | an id is in the user index exactly when some user has it, and it maps to the last such user |
| TwitterApi.AddAuthorToTweets | server/platforms/twitter.py:108-112 | `KeyError('includes')` or `KeyError('data')` when those are missing; otherwise each tweet up to the first unknown author gets the user with its `author_id`; that author's id is raised; later tweets are unchanged; the twitter_twitter adapter repeats this code at its lines 91-95 |
| TwitterApi.TweetToRow | server/platforms/twitter.py:119-136 | the link is `https://twitter.com/{username}/status/{id}` under the media URL; media name `Twitter`; language `None`; both dates parse `created_at`; the metrics are copied; the twitter_twitter adapter repeats this code at its lines 102-119 |
| TwitterApi.TweetsToRows | server/platforms/twitter.py:114-117 | `KeyError('includes')` / `KeyError('data')` when missing; it succeeds exactly when every author is known, and otherwise raises `KeyError` with the first unknown `author_id`, the tweets before it joined; on success one row per tweet, in order, naming the user whose id is the tweet's `author_id`; the twitter_twitter adapter repeats this code at its lines 97-100 |
| TwitterApi.Sample | server/platforms/twitter.py:22-42 | the search request; then the rows of the join: `KeyError` for a missing `includes` or `data` or for the first unknown `author_id` (the tweets before it joined), otherwise one row per tweet, in order, with its id and its author's name; the twitter_twitter adapter repeats this code at its lines 20-40 |
| TwitterApi.Buckets | server/platforms/twitter.py:83-89 | one bucket per counts entry, in order, with the parsed `start` as date, that date's timestamp, and the `tweet_count` |
| TwitterApi.BucketsTotal | server/platforms/twitter.py:83-90 | the bucket total equals the sum of the entries' `tweet_count`s |
| TwitterApi.EntriesToBuckets | server/platforms/twitter_twitter.py:66-72 | the loop builds exactly the bucket list of the entries |
| TwitterApi.EntryToBucket | server/platforms/twitter.py:85-89 | an entry's bucket has the parsed `start` as date, that date's timestamp, and the `tweet_count` |
| TwitterApi.ReversedPageSum | server/platforms/twitter.py:76 | reversing a page keeps the sum of its counts |
| Twitter.NextToken | server/platforms/twitter.py:77-78 | a token is handed on exactly when the reply has `meta.next_token` |
| Twitter.TokenParam | server/platforms/twitter.py:71-78 | request 0 carries `next_token=None`; request k carries the token of reply k-1 |
| Twitter.Collected | server/platforms/twitter.py:72-76 | the accumulated data ends with the first entry of the last page, since each page enters reversed |
| Twitter.CollectedEntries | server/platforms/twitter.py:72-76 | the accumulated data holds exactly the pages' entries, each as often as the pages hold it |
| Common.ReversedPermutes | server/platforms/twitter.py:76 | `reversed` only reorders a page: every entry occurs as often as before |
| Twitter.FetchPages | server/platforms/twitter.py:70-82 | request k is the base request with `next_token` set to the token of reply k-1, `None` for the first; every reply before the last carries data and a token; the walk stops right after the first reply without a token; `KeyError('data')` from a page without data stops it; the data collected is the pages' entries, each page reversed, in fetch order |
| Twitter.CountOverTime | server/platforms/twitter.py:53-90 | request k is the day-granularity count request with the token of reply k-1; the stopping rule and the `KeyError('data')` of `FetchPages`; a finished walk yields `Buckets` of the collected data, one bucket per entry, in order |
| Twitter.CollectedOnePage | server/platforms/twitter.py:76 | a page enters the data last entry first |
| Twitter.CollectedTotal | server/platforms/twitter.py:76 | the accumulated counts add up to the sum of the page totals |
| Twitter.FinishedTotal | server/platforms/twitter.py:83-90 | a finished walk's bucket total is the sum of its page totals, with one bucket per collected entry |
| Twitter.CountFromReply | server/platforms/twitter.py:51 | `meta.total_tweet_count`, or `KeyError('meta')` / `KeyError('total_tweet_count')` when missing |
| Twitter.Count | server/platforms/twitter.py:44-51 | one request with the count parameters and no token; the result is the reply's total |
| Twitter.NormalizedCountOverTime | server/platforms/twitter.py:138-140 | always fails with `UnsupportedOperation` and the fixed message |
| TwitterTwitter.CountOverTime | server/platforms/twitter_twitter.py:47-73 | exactly one request; one bucket per `data` entry, in order; `KeyError('data')` without data |
| TwitterTwitter.Count | server/platforms/twitter_twitter.py:42-45 | the total of the `count_over_time` buckets for the same reply, equal to the sum of `tweet_count`s; the same `KeyError` |
| Cache.Namespace | server/util/cache.py:9-12 | the namespace starts with `module:name`, which is all of it without a namespace argument, and is otherwise followed by the bar character and the argument |
| Cache.NamespaceParts | server/util/cache.py:9-12 | the namespace splits at the bar character into `module:name` and, when given, the namespace argument |
| Cache.KeyArgs | server/util/cache.py:21-22 | with the receiver flag set, the first positional argument is dropped (none when there are none); otherwise all are kept |
| Cache.GenerateKey | server/util/cache.py:19-24 | every key starts with the namespace followed by the bar character |
| Cache.KeywordSafeKeyGenerator | server/util/cache.py:7-17 | the generator keeps the namespace, and treats the function as a method exactly when its first parameter is named `self` or `cls` |
| Cache.ReceiverRule | server/util/cache.py:17-24 | a function whose first parameter is `self` or `cls` loses its first positional argument from the key, which is then the key of the other arguments; for any other function the first argument gives the first token |
| Cache.KeyTokensRoundTrip | server/util/cache.py:20-24 | when no token holds a space, the rest of the key splits back into the positional tokens followed by the `name_value` tokens |
| Cache.PositionalBeforeKeyword | server/util/cache.py:24 | positional tokens come first, then one space, then the keyword tokens |
| Cache.ReceiverIrrelevant | server/util/cache.py:16-22 | two receivers with equal other arguments get the same key |
| Cache.EmptyKey | server/util/cache.py:24 | with nothing after the receiver, the key is the namespace and the bar character |
| Cache.KeywordOrderMatters | server/util/cache.py:20-24 | `a=1, b=2` and `b=2, a=1` give different keys |
| Cache.KeyNotInjective | server/util/cache.py:23-24 | one argument `"a b"` and two arguments `"a"`, `"b"` give the same key |
| Request.ValidateParamsExist | server/util/request.py:11-14 | succeeds if and only if every name is in the form; otherwise `ValueError` naming the first missing name |
| Request.SplitExt | server/util/request.py:106 | root + extension is the name; an extension starts with `.` and has no `/` or other `.` |
| Request.IsCsv | server/util/request.py:105-107 | a CSV name has a four-character extension and at least one character before it |
| Request.IsCsvIff | server/util/request.py:105-107 | CSV exactly when the name ends in `.csv` in any case and its final component has a non-dot character before that dot |
| Request.NoDotIsNotCsv | server/util/request.py:106-107 | a name without a dot is not CSV |
| Request.DotfileIsNotCsv | server/util/request.py:106-107 | `.csv` alone is not CSV |
| Request.DotsOnlyStemIsNotCsv | server/util/request.py:106-107 | `..csv` is not CSV |
| Request.CsvExamples | server/util/request.py:107 | `DATA.CSV` and `a..csv` are CSV |
| Request.QueryArg | server/util/request.py:33 | `q` is `None` exactly when absent or `undefined`, otherwise the given value |
| Platforms.AvailablePlatforms | server/platforms/__init__.py:30-37 | the five advertised `platform / source` strings, in order |
| Platforms.ProviderFor | server/platforms/__init__.py:40-63 | it accepts exactly the four supported pairs and builds the adapter serving the pair asked for; any other pair fails with `Unknown provider {platform} from {source}` |
| Platforms.UnknownProviderMessage | server/platforms/__init__.py:61-63 | the message is `Unknown provider `, the platform, ` from ` and the source |
| Platforms.ParsePlatform | server/api.py:22 | part i is piece i of the `/`-split, stripped: no part holds `/` or starts or ends with white space |
| Platforms.ParseAdvertised | server/platforms/__init__.py:32-36 | splitting an advertised string at `/` and stripping the parts gives back its pair |
| Platforms.AdvertisedReadsBack | server/platforms/__init__.py:30-37 | each of the five advertised strings reads back to its pair |
| Platforms.AdvertisedServed | server/platforms/__init__.py:35-57 | every advertised pair but twitter/brandwatch is served, and that one is rejected |

## Behaviour of note

- The cache key's keyword tokens keep call order and are not sorted (`Cache.KeywordOrderMatters`).
- A Wayback "no results" reply without `matches` raises `KeyError` in `sample`, `count` and `count_over_time`. It is not turned into an empty result.
- No `count_over_time` returns a `total` key.
- In server/platforms/twitter.py, `count` and `count_over_time` both query `tweets/counts/all`, but with different parameters: `count_over_time` adds `granularity=day` and follows `next_token` pages, while `count` reads `meta.total_tweet_count` of one reply. They read different parts of different replies, so no equality between them follows from the code.
- In server/platforms/twitter_twitter.py, `count` is computed from `count_over_time`, and that equation is proved (`TwitterTwitter.Count`).

## Left out

- The network: `requests.get`, `r.json()`, request headers and bearer tokens, and the Media Cloud client. Replies are inputs and requests are outputs; the base URLs are constants only.
- The Media Cloud adapter's `sample`, `count_over_time`, `item` and `tags` pass the built query to the client and return its reply; `count` returns the `count` entry of the client's reply. These are client calls: only the query they build (`OnlineNews.FormatQuery`) and the `[:limit]` of `words` are modelled.
- The Wayback adapter's `item` and `_query` are HTTP only.
- `dateparser.parse`, `strptime` with `%a %b %z`, `fromtimestamp(...).strftime(MC_DATE_FORMAT)`, `.timestamp()` and `dates_as_query_clause` are foreign parsers and time-zone-dependent calls. They appear as uninterpreted `Foreign` terms over their exact arguments.
- Dates.LocalClock: a total function. `datetime.fromtimestamp` raises `OverflowError` or `OSError` for epoch seconds outside the platform's range or outside years 1 to 9999, and those errors are not modelled.
- The host's time zone is the `LocalClock` parameter. Time-zone-aware datetimes are not modelled; every `PyDateTime` is naive.
- `MC_DATE_FORMAT` and the base `ContentProvider` (server/platforms/provider.py) are not part of this model. This includes `normalized_count_over_time` for the adapters that inherit it.
- Dates.FormatSolrDate: years below 1000 are rendered with four digits. The C library's `strftime` under CPython may not zero-pad `%Y`, and that platform-dependent case is not modelled.
- Dates.SolrDateToDate: `\d` in `strptime`'s pattern also accepts non-ASCII Unicode digits. The model accepts ASCII digits only.
- Text.Lower: ASCII letters only. For `is_csv` this loses nothing, since no other character lowers to `.`, `c`, `s` or `v`.
- Every `count_over_time` returns its buckets wrapped as `{'counts': [...]}`. The models return the bucket list itself; the constant `counts` key is not modelled.
- Request parameter dictionaries are maps. The order of parameters in a query string is not modelled.
- The dogpile/redis cache region is left out: storage, expiry, the distributed lock and the Redis connection. Only the key generator is modelled, plus the expiration constant `Cache.REDIS_EXPIRATION_SECONDS`.
- Cache: `"{}".format(arg)` is the `show` parameter. `inspect.getargspec` is not modelled: the parameter names it would list are the `paramNames` argument of `Cache.KeywordSafeKeyGenerator`.
- Twitter.CountOverTime: a backend that hands out tokens forever makes the source loop forever. The model reads a finite list of replies and reports `Unfinished`. Repeated tokens are not detected, as in the code.
- TwitterApi.AddAuthorToTweets: only the `author` entry of a tweet is mutable in the model. The tweet's other fields are constants, since nothing writes them.
- A missing field inside a reply record (for example a tweet without `text`) would raise `KeyError` in the code. The model only represents the missing keys it lists: `includes`, `data`, `meta`, `total_tweet_count`, `matches`, `total`, `dailycounts` and an unknown author id. A reply whose `includes` lacks `users` raises `KeyError('users')` in the code; the model's optional `includes` stands for both keys and reports `KeyError('includes')`.
- The YouTube provider's source is not part of this model; it appears only as a dispatch tag.
- The Flask layer is left out: `json_error_response`, the decorators in server/util/request.py, `safely_read_arg` for the ids other than `q`, and the routes of server/api.py apart from the platform-string parse.
- Logging and configuration loading are left out.

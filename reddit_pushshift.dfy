/**
 * server/platforms/reddit_pushshift.py: the Pushshift submission-search adapter. Each
 * operation builds the query-string parameters of one request and maps the reply that
 * comes back (passed in here) to rows or buckets.
 */
module RedditPushshift {
  import opened Wrappers
  import opened Text
  import opened Dates
  import opened Common

  const SEARCH_URL := "https://api.pushshift.io/reddit/search/submission/"

  /** One entry of an aggregation list: `{'key': ..., 'doc_count': ...}`. */
  datatype AggBucket<K> = AggBucket(key: K, docCount: int)

  datatype Submission = Submission(subreddit: string, fullLink: string, id: string, title: string,
                                   createdUtc: int, url: string, score: int,
                                   updatedUtc: Option<int>, author: string)

  datatype Row = Row(mediaName: string, mediaUrl: string, fullLink: string, storiesId: string,
                     title: string, publishDate: Foreign, url: string, score: int,
                     lastUpdated: Option<Foreign>, author: string, subreddit: string)

  /** One entry of `url_submissions_by_sub`'s result: `{'name': ..., 'value': ...}`. */
  datatype NameValue = NameValue(name: string, value: int)

  /**
   * `_cached_submission_search`'s parameter dictionary: `q`, `subreddit` and the
   * `after`/`before` days are filled in one by one, each only when its argument is given,
   * and then every keyword argument is copied over them with `params.update(kwargs)`.
   */
  method SubmissionSearchParams(query: Option<string>, start: Option<Moment>, end: Option<Moment>,
                                subreddits: Option<seq<string>>, kwargs: Params, clock: LocalClock)
    returns (params: Params)
    ensures params.Keys == kwargs.Keys + (if query.Some? then {"q"} else {})
      + (if subreddits.Some? then {"subreddit"} else {})
      + (if start.Some? && end.Some? then {"after", "before"} else {})
    ensures forall k :: k in kwargs ==> params[k] == kwargs[k]
    ensures "q" !in kwargs && query.Some? ==> params["q"] == Str(query.value)
    ensures "subreddit" !in kwargs && subreddits.Some? ==> params["subreddit"] == Str(Join(",", subreddits.value))
    ensures "after" !in kwargs && start.Some? && end.Some? ==>
      params["after"] == Str(UnixToSolrDate(start.value.epoch, clock))
    ensures "before" !in kwargs && start.Some? && end.Some? ==>
      params["before"] == Str(UnixToSolrDate(end.value.epoch, clock))
  {
    params := map[];
    if query.Some? {
      params := params["q" := Str(query.value)];
    }
    if subreddits.Some? {
      params := params["subreddit" := Str(Join(",", subreddits.value))];
    }
    if start.Some? && end.Some? {
      params := params["after" := Str(UnixToSolrDate(start.value.epoch, clock))];
      params := params["before" := Str(UnixToSolrDate(end.value.epoch, clock))];
    }
    params := params + kwargs;
  }

  /** The backend can read the subreddit list back by splitting at commas. */
  lemma SubredditListRoundTrip(subreddits: seq<string>)
    requires |subreddits| >= 1
    requires forall i :: 0 <= i < |subreddits| ==> ',' !in subreddits[i]
    ensures Split(Join(",", subreddits), ',') == subreddits
  {
    SplitJoin(subreddits, ',');
  }

  /** `_submission_to_row` */
  function SubmissionToRow(item: Submission): (r: Row)
    ensures r.mediaName == "/r/" + r.subreddit && r.subreddit == item.subreddit
    ensures r.mediaUrl == r.fullLink == item.fullLink
    ensures r.storiesId == item.id && r.title == item.title && r.url == item.url
    ensures r.score == item.score && r.author == item.author
    ensures r.publishDate == LocalMcDate(item.createdUtc, 1)
    ensures r.lastUpdated.None? <==> item.updatedUtc.None?
    ensures item.updatedUtc.Some? ==> r.lastUpdated == Some(LocalMcDate(item.updatedUtc.value, 1))
  {
    Row("/r/" + item.subreddit, item.fullLink, item.fullLink, item.id, item.title,
        LocalMcDate(item.createdUtc, 1), item.url, item.score,
        if item.updatedUtc.Some? then Some(LocalMcDate(item.updatedUtc.value, 1)) else None,
        item.author, item.subreddit)
  }

  function SubmissionsToRows(items: seq<Submission>): (rows: seq<Row>)
    ensures |rows| == |items| && forall i :: 0 <= i < |items| ==> rows[i] == SubmissionToRow(items[i])
  {
    seq(|items|, i requires 0 <= i < |items| => SubmissionToRow(items[i]))
  }

  /**
   * `sample`: asks for the top `limit` submissions by score and keeps the first `limit`
   * of the reply's `data`, in the backend's order.
   */
  method Sample(query: string, start: Moment, end: Moment, limit: int, subreddits: Option<seq<string>>,
                data: seq<Submission>, clock: LocalClock)
    returns (request: Params, rows: seq<Row>)
    ensures request.Keys == {"q", "subreddit", "after", "before", "limit", "sort", "sort_type"}
    ensures request["q"] == Str(query) && request["limit"] == Int(limit)
    ensures request["sort"] == Str("desc") && request["sort_type"] == Str("score")
    ensures request["subreddit"] == Str(Join(",", subreddits.GetOr([])))
    ensures subreddits.None? ==> request["subreddit"] == Str("")
    ensures request["after"] == Str(UnixToSolrDate(start.epoch, clock))
    ensures request["before"] == Str(UnixToSolrDate(end.epoch, clock))
    ensures rows == SubmissionsToRows(Take(data, limit))
    ensures limit >= 0 ==> |rows| <= limit
  {
    var subs := if subreddits.Some? then subreddits.value else [];
    request := SubmissionSearchParams(None, Some(start), Some(end), Some(subs),
      map["q" := Str(query), "limit" := Int(limit), "sort" := Str("desc"), "sort_type" := Str("score")], clock);
    rows := SubmissionsToRows(Take(data, limit));
  }

  predicate ScoresNonIncreasing(scores: seq<int>) {
    forall i, j :: 0 <= i < j < |scores| ==> scores[i] >= scores[j]
  }

  function SubmissionScores(items: seq<Submission>): (r: seq<int>)
    ensures |r| == |items| && forall i :: 0 <= i < |items| ==> r[i] == items[i].score
  {
    seq(|items|, i requires 0 <= i < |items| => items[i].score)
  }

  function RowScores(rows: seq<Row>): (r: seq<int>)
    ensures |r| == |rows| && forall i :: 0 <= i < |rows| ==> r[i] == rows[i].score
  {
    seq(|rows|, i requires 0 <= i < |rows| => rows[i].score)
  }

  /** When the backend honours `sort=desc, sort_type=score`, the sampled rows' scores are non-increasing. */
  lemma SampleKeepsScoreOrder(data: seq<Submission>, limit: int)
    requires ScoresNonIncreasing(SubmissionScores(data))
    ensures ScoresNonIncreasing(RowScores(SubmissionsToRows(Take(data, limit))))
  {
    var kept := Take(data, limit);
    assert forall i :: 0 <= i < |kept| ==> kept[i] == data[i];
  }

  /** `[r['doc_count'] for r in buckets]` */
  function DocCounts<K>(buckets: seq<AggBucket<K>>): (r: seq<int>)
    ensures |r| == |buckets| && forall i :: 0 <= i < |buckets| ==> r[i] == buckets[i].docCount
  {
    seq(|buckets|, i requires 0 <= i < |buckets| => buckets[i].docCount)
  }

  /** The sum `count` returns: 0 for an empty aggregation list, the sum of `doc_count` otherwise. */
  function CountFromAggs(buckets: seq<AggBucket<int>>): (r: int)
    ensures |buckets| == 0 ==> r == 0
    ensures |buckets| > 0 ==> r == Sum(DocCounts(buckets))
  {
    if |buckets| == 0 then 0 else Sum(DocCounts(buckets))
  }

  /** A total of non-negative document counts is non-negative, and zero only when each count is. */
  lemma CountNonNegative(buckets: seq<AggBucket<int>>)
    requires forall i :: 0 <= i < |buckets| ==> buckets[i].docCount >= 0
    ensures CountFromAggs(buckets) >= 0
    ensures CountFromAggs(buckets) == 0 <==> forall i :: 0 <= i < |buckets| ==> buckets[i].docCount == 0
  {
    SumNonNegative(DocCounts(buckets));
  }

  /**
   * The request `count` and `count_over_time` share: a `created_utc` aggregation at the
   * given frequency, with no documents returned.
   */
  method AggregationRequest(query: string, start: Moment, end: Moment, subreddits: Option<seq<string>>,
                            frequency: string, clock: LocalClock)
    returns (request: Params)
    ensures request.Keys == {"q", "subreddit", "after", "before", "aggs", "frequency", "size"}
    ensures request["q"] == Str(query) && request["aggs"] == Str("created_utc")
    ensures request["frequency"] == Str(frequency) && request["size"] == Int(0)
    ensures request["subreddit"] == Str(Join(",", subreddits.GetOr([])))
    ensures request["after"] == Str(UnixToSolrDate(start.epoch, clock))
    ensures request["before"] == Str(UnixToSolrDate(end.epoch, clock))
  {
    var subs := if subreddits.Some? then subreddits.value else [];
    request := SubmissionSearchParams(None, Some(start), Some(end), Some(subs),
      map["q" := Str(query), "aggs" := Str("created_utc"), "frequency" := Str(frequency), "size" := Int(0)], clock);
  }

  /** `count`: a yearly `created_utc` aggregation with no documents, summed. */
  method Count(query: string, start: Moment, end: Moment, subreddits: Option<seq<string>>,
               aggs: seq<AggBucket<int>>, clock: LocalClock)
    returns (request: Params, count: int)
    ensures request.Keys == {"q", "subreddit", "after", "before", "aggs", "frequency", "size"}
    ensures request["q"] == Str(query) && request["aggs"] == Str("created_utc")
    ensures request["frequency"] == Str("1y") && request["size"] == Int(0)
    ensures request["subreddit"] == Str(Join(",", subreddits.GetOr([])))
    ensures request["after"] == Str(UnixToSolrDate(start.epoch, clock))
    ensures request["before"] == Str(UnixToSolrDate(end.epoch, clock))
    ensures count == CountFromAggs(aggs)
  {
    request := AggregationRequest(query, start, end, subreddits, "1y", clock);
    count := CountFromAggs(aggs);
  }

  /** One `counts` entry for a `created_utc` aggregation entry, whose key is in epoch seconds. */
  function AggToBucket(d: AggBucket<int>): (b: Bucket)
    ensures b.date == LocalMcDate(d.key, 1) && b.timestamp == Raw(d.key) && b.count == d.docCount
  {
    Bucket(LocalMcDate(d.key, 1), Raw(d.key), d.docCount)
  }

  /**
   * `count_over_time`: a `created_utc` aggregation at the requested period (default `1d`),
   * mapped entry by entry, in order.
   */
  method CountOverTime(query: string, start: Moment, end: Moment, subreddits: Option<seq<string>>,
                       period: Option<string>, aggs: seq<AggBucket<int>>, clock: LocalClock)
    returns (request: Params, counts: seq<Bucket>)
    ensures request.Keys == {"q", "subreddit", "after", "before", "aggs", "frequency", "size"}
    ensures request["q"] == Str(query) && request["aggs"] == Str("created_utc")
    ensures request["frequency"] == Str(period.GetOr("1d")) && request["size"] == Int(0)
    ensures request["subreddit"] == Str(Join(",", subreddits.GetOr([])))
    ensures request["after"] == Str(UnixToSolrDate(start.epoch, clock))
    ensures request["before"] == Str(UnixToSolrDate(end.epoch, clock))
    ensures |counts| == |aggs|
    ensures forall i :: 0 <= i < |aggs| ==>
      counts[i].timestamp == Raw(aggs[i].key) && counts[i].count == aggs[i].docCount
      && counts[i].date == LocalMcDate(aggs[i].key, 1)
    ensures Total(counts) == Sum(DocCounts(aggs))
  {
    var freq := if period.Some? then period.value else "1d";
    request := AggregationRequest(query, start, end, subreddits, freq, clock);
    counts := AggsToBuckets(aggs);
  }

  /** The loop of `count_over_time`: one bucket per aggregation entry, appended in order. */
  method AggsToBuckets(aggs: seq<AggBucket<int>>) returns (counts: seq<Bucket>)
    ensures |counts| == |aggs|
    ensures forall i :: 0 <= i < |aggs| ==> counts[i] == AggToBucket(aggs[i])
    ensures Total(counts) == Sum(DocCounts(aggs))
  {
    counts := [];
    var i := 0;
    while i < |aggs|
      invariant 0 <= i <= |aggs|
      invariant |counts| == i
      invariant forall k :: 0 <= k < i ==> counts[k] == AggToBucket(aggs[k])
      invariant Total(counts) == Sum(DocCounts(aggs[..i]))
    {
      assert DocCounts(aggs[..i + 1]) == DocCounts(aggs[..i]) + [aggs[i].docCount];
      SumAppend(DocCounts(aggs[..i]), [aggs[i].docCount]);
      TotalAppend(counts, [AggToBucket(aggs[i])]);
      counts := counts + [AggToBucket(aggs[i])];
      i := i + 1;
    }
    assert aggs[..i] == aggs;
  }

  /**
   * Served the same aggregation entries, `count` equals the total of `count_over_time`'s
   * buckets.
   */
  method CountMatchesCountOverTime(query: string, start: Moment, end: Moment,
                                   subreddits: Option<seq<string>>, aggs: seq<AggBucket<int>>,
                                   clock: LocalClock)
    returns (count: int, counts: seq<Bucket>)
    ensures count == Total(counts)
    ensures |counts| == |aggs|
  {
    var _, c := Count(query, start, end, subreddits, aggs, clock);
    var _, cs := CountOverTime(query, start, end, subreddits, None, aggs, clock);
    count, counts := c, cs;
  }

  /** `_sanitize_url_for_reddit`: everything before the first `?`. */
  function SanitizeUrlForReddit(url: string): (r: string)
    ensures |r| <= |url| && r == url[..|r|] && '?' !in r
    ensures ('?' in url) == (|r| < |url|)
    ensures |r| < |url| ==> url[|r|] == '?'
  {
    FirstSegmentIsPrefix(url, '?');
    FirstSegment(url, '?')
  }

  /** Sanitising twice is sanitising once. */
  lemma SanitizeIdempotent(url: string)
    ensures SanitizeUrlForReddit(SanitizeUrlForReddit(url)) == SanitizeUrlForReddit(url)
  {
    var r := SanitizeUrlForReddit(url);
    FirstSegmentIsPrefix(r, '?');
  }

  /**
   * `url_submissions_by_sub`: a request with only `url`, `aggs` and `size` (no query, no
   * dates, no subreddit), and the `subreddit` aggregation mapped key to name and count to
   * value, in order.
   */
  method UrlSubmissionsBySub(url: string, aggs: seq<AggBucket<string>>, clock: LocalClock)
    returns (request: Params, results: seq<NameValue>)
    ensures request == map["url" := Str(SanitizeUrlForReddit(url)), "aggs" := Str("subreddit"), "size" := Int(0)]
    ensures |results| == |aggs|
    ensures forall i :: 0 <= i < |aggs| ==> results[i] == NameValue(aggs[i].key, aggs[i].docCount)
  {
    request := SubmissionSearchParams(None, None, None, None,
      map["url" := Str(SanitizeUrlForReddit(url)), "aggs" := Str("subreddit"), "size" := Int(0)], clock);
    results := [];
    var i := 0;
    while i < |aggs|
      invariant 0 <= i <= |aggs|
      invariant |results| == i
      invariant forall k :: 0 <= k < i ==> results[k] == NameValue(aggs[k].key, aggs[k].docCount)
    {
      results := results + [NameValue(aggs[i].key, aggs[i].docCount)];
      i := i + 1;
    }
  }
}

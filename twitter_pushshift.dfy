/**
 * server/platforms/twitter_pushshift.py: the verified-tweets adapter over an
 * Elasticsearch index. It builds one query document per request and maps `hits` to rows
 * and date-histogram buckets to counts.
 */
module TwitterPushshift {
  import opened Wrappers
  import opened Text
  import opened Dates
  import opened Common

  const SEARCH_URL := "https://twitter-es.pushshift.io/twitter_verified/_search"

  /** `{'range': {'created_at': {'gte': gte, 'lte': lte}}}` */
  function RangeClause(gte: int, lte: int): Value {
    Object(map["range" := Object(map["created_at" := Object(map["gte" := Int(gte), "lte" := Int(lte)])])])
  }

  /** `{'match': {'text': query}}` */
  function MatchClause(query: string): Value {
    Object(map["match" := Object(map["text" := Str(query)])])
  }

  /** `{'bool': {'must': [range, match]}}`: the query part when both dates are given. */
  function RangeMatchQuery(gte: int, lte: int, query: string): Value {
    Object(map["bool" := Object(map["must" := List([RangeClause(gte, lte), MatchClause(query)])])])
  }

  /** The text a `query` part matches on: its `match` clause, alone or as the second `must` entry. */
  function MatchedText(query: Value): Option<string> {
    if !query.Object? then None
    else if "match" in query.fields then TextOf(query.fields["match"])
    else if "bool" in query.fields && query.fields["bool"].Object? && "must" in query.fields["bool"].fields then
      var must := query.fields["bool"].fields["must"];
      if must.List? && |must.items| == 2 && must.items[1].Object? && "match" in must.items[1].fields
      then TextOf(must.items[1].fields["match"]) else None
    else None
  }

  function TextOf(m: Value): Option<string> {
    if m.Object? && "text" in m.fields && m.fields["text"].Str? then Some(m.fields["text"].s) else None
  }

  /** The `created_at` bounds a `query` part restricts to, if it has a range clause. */
  function RangeBounds(query: Value): Option<(int, int)> {
    if query.Object? && "bool" in query.fields && query.fields["bool"].Object? && "must" in query.fields["bool"].fields then
      var must := query.fields["bool"].fields["must"];
      if must.List? && |must.items| == 2 && must.items[0].Object? && "range" in must.items[0].fields then
        var r := must.items[0].fields["range"];
        if r.Object? && "created_at" in r.fields && r.fields["created_at"].Object? then
          var b := r.fields["created_at"].fields;
          if "gte" in b && b["gte"].Int? && "lte" in b && b["lte"].Int? then Some((b["gte"].i, b["lte"].i)) else None
        else None
      else None
    else None
  }

  /**
   * `_cached_query`'s document: `sort` and `size` only when `sort` and `limit` are passed,
   * then `query`, which with both dates is a `bool.must` of the range and the match (in
   * that order) and otherwise the match alone, then `aggs` exactly when it is passed.
   */
  method QueryDocument(query: string, start: Option<Moment>, end: Option<Moment>, kwargs: Params)
    returns (q: Params)
    ensures q.Keys == {"query"} + (if "sort" in kwargs then {"sort"} else {})
      + (if "limit" in kwargs then {"size"} else {}) + (if "aggs" in kwargs then {"aggs"} else {})
    ensures "sort" in kwargs ==> q["sort"] == Object(map["created_at" := kwargs["sort"]])
    ensures "limit" in kwargs ==> q["size"] == kwargs["limit"]
    ensures "aggs" in kwargs ==> q["aggs"] == kwargs["aggs"]
    ensures start.Some? && end.Some? ==>
      q["query"] == RangeMatchQuery(start.value.epoch, end.value.epoch, query)
    ensures !(start.Some? && end.Some?) ==> q["query"] == MatchClause(query)
    ensures MatchedText(q["query"]) == Some(query)
    ensures RangeBounds(q["query"]) == if start.Some? && end.Some? then Some((start.value.epoch, end.value.epoch)) else None
  {
    q := map[];
    if "sort" in kwargs {
      q := q["sort" := Object(map["created_at" := kwargs["sort"]])];
    }
    if "limit" in kwargs {
      q := q["size" := kwargs["limit"]];
    }
    var body: map<string, Value> := map[];
    if start.Some? && end.Some? {
      var boolPart: map<string, Value> := map[];
      boolPart := boolPart["must" := List([RangeClause(start.value.epoch, end.value.epoch), MatchClause(query)])];
      body := body["bool" := Object(boolPart)];
    } else {
      body := body["match" := Object(map["text" := Str(query)])];
    }
    q := q["query" := Object(body)];
    if "aggs" in kwargs {
      q := q["aggs" := kwargs["aggs"]];
    }
  }

  /** The aggregation `count` and `count_over_time` ask for: a date histogram on `created_at`. */
  function HistogramAggs(interval: string): Value {
    Object(map["time" := Object(map["date_histogram" :=
      Object(map["field" := Str("created_at"), "interval" := Str(interval)])])])
  }

  /** `count` asks for yearly buckets, `count_over_time` for daily ones, both on `created_at`. */
  lemma HistogramIntervals()
    ensures HistogramAggs("year") != HistogramAggs("day")
    ensures forall interval :: HistogramAggs(interval).fields["time"].fields["date_histogram"].fields["field"] == Str("created_at")
  {
    var y := HistogramAggs("year").fields["time"].fields["date_histogram"].fields["interval"];
    var d := HistogramAggs("day").fields["time"].fields["date_histogram"].fields["interval"];
    assert y == Str("year") && d == Str("day");
  }

  datatype Tweet = Tweet(screenName: string, idStr: string, id: int, text: string, createdAt: string,
                         updatedUtc: Option<int>, lang: string, retweetCount: int, favoriteCount: int)

  datatype Row = Row(mediaName: string, mediaUrl: string, fullLink: string, storiesId: int, title: string,
                     publishDate: Foreign, url: string, lastUpdated: Option<Foreign>, author: string,
                     language: string, retweetCount: int, favoriteCount: int)

  /** `_tweet_to_row`: `url` and `full_link` are both the status link under the media URL. */
  function TweetToRow(item: Tweet): (r: Row)
    ensures r.mediaName == "Twitter" && r.mediaUrl == "https://twitter.com/" + item.screenName
    ensures r.url == r.fullLink == r.mediaUrl + "/status/" + item.idStr
    ensures r.author == item.screenName && r.storiesId == item.id && r.title == item.text
    ensures r.language == item.lang && r.retweetCount == item.retweetCount && r.favoriteCount == item.favoriteCount
    ensures r.publishDate == TweetDateMc(item.createdAt)
    ensures r.lastUpdated.None? <==> item.updatedUtc.None?
    ensures item.updatedUtc.Some? ==> r.lastUpdated == Some(LocalMcDate(item.updatedUtc.value, 1))
  {
    Row("Twitter", "https://twitter.com/" + item.screenName, StatusLink(item.screenName, item.idStr), item.id,
        item.text, TweetDateMc(item.createdAt), StatusLink(item.screenName, item.idStr),
        if item.updatedUtc.Some? then Some(LocalMcDate(item.updatedUtc.value, 1)) else None,
        item.screenName, item.lang, item.retweetCount, item.favoriteCount)
  }

  /**
   * `sample`: asks for `limit` tweets newest first; with no `hits` in the reply the result
   * is empty, otherwise one row per hit, in order.
   */
  method Sample(query: string, start: Moment, end: Moment, limit: int, hits: Option<seq<Tweet>>)
    returns (document: Params, data: seq<Row>)
    ensures document.Keys == {"sort", "size", "query"}
    ensures document["size"] == Int(limit) && document["sort"] == Object(map["created_at" := Str("desc")])
    ensures "aggs" !in document && RangeBounds(document["query"]) == Some((start.epoch, end.epoch))
    ensures MatchedText(document["query"]) == Some(query)
    ensures document["query"] == RangeMatchQuery(start.epoch, end.epoch, query)
    ensures hits.None? ==> data == []
    ensures hits.Some? ==> |data| == |hits.value| && forall i :: 0 <= i < |data| ==> data[i] == TweetToRow(hits.value[i])
  {
    document := QueryDocument(query, Some(start), Some(end), map["limit" := Int(limit), "sort" := Str("desc")]);
    data := [];
    if hits.Some? {
      var objs := hits.value;
      var i := 0;
      while i < |objs|
        invariant 0 <= i <= |objs|
        invariant |data| == i
        invariant forall k :: 0 <= k < i ==> data[k] == TweetToRow(objs[k])
      {
        data := data + [TweetToRow(objs[i])];
        i := i + 1;
      }
    }
  }

  /** One date-histogram bucket: `key` is in epoch milliseconds. */
  datatype HistogramBucket = HistogramBucket(key: int, docCount: int)

  function HistogramCounts(buckets: seq<HistogramBucket>): (r: seq<int>)
    ensures |r| == |buckets| && forall i :: 0 <= i < |buckets| ==> r[i] == buckets[i].docCount
  {
    seq(|buckets|, i requires 0 <= i < |buckets| => buckets[i].docCount)
  }

  /** The entry for a bucket: the date from the key in seconds, the timestamp the key itself. */
  function HistogramToBucket(d: HistogramBucket): (b: Bucket)
    ensures b.date == LocalMcDate(d.key, 1000) && b.timestamp == Raw(d.key) && b.count == d.docCount
  {
    Bucket(LocalMcDate(d.key, 1000), Raw(d.key), d.docCount)
  }

  /** The loop both counting operations share: one entry per bucket, appended in order. */
  method BucketsFromHistogram(buckets: seq<HistogramBucket>) returns (data: seq<Bucket>)
    ensures |data| == |buckets|
    ensures forall i :: 0 <= i < |buckets| ==> data[i] == HistogramToBucket(buckets[i])
    ensures Total(data) == Sum(HistogramCounts(buckets))
  {
    data := [];
    var i := 0;
    while i < |buckets|
      invariant 0 <= i <= |buckets|
      invariant |data| == i
      invariant forall k :: 0 <= k < i ==> data[k] == HistogramToBucket(buckets[k])
      invariant Total(data) == Sum(HistogramCounts(buckets[..i]))
    {
      assert HistogramCounts(buckets[..i + 1]) == HistogramCounts(buckets[..i]) + [buckets[i].docCount];
      SumAppend(HistogramCounts(buckets[..i]), [buckets[i].docCount]);
      TotalAppend(data, [HistogramToBucket(buckets[i])]);
      data := data + [HistogramToBucket(buckets[i])];
      i := i + 1;
    }
    assert buckets[..i] == buckets;
  }

  /** `count`: a yearly histogram, its bucket counts summed. */
  method Count(query: string, start: Moment, end: Moment, buckets: seq<HistogramBucket>)
    returns (document: Params, count: int)
    ensures document.Keys == {"query", "aggs"} && document["aggs"] == HistogramAggs("year")
    ensures RangeBounds(document["query"]) == Some((start.epoch, end.epoch))
    ensures MatchedText(document["query"]) == Some(query)
    ensures document["query"] == RangeMatchQuery(start.epoch, end.epoch, query)
    ensures count == Sum(HistogramCounts(buckets))
  {
    document := QueryDocument(query, Some(start), Some(end), map["aggs" := HistogramAggs("year")]);
    var data := BucketsFromHistogram(buckets);
    count := Total(data);
  }

  /** `count_over_time`: a daily histogram, one entry per bucket, in order. */
  method CountOverTime(query: string, start: Moment, end: Moment, buckets: seq<HistogramBucket>)
    returns (document: Params, counts: seq<Bucket>)
    ensures document.Keys == {"query", "aggs"} && document["aggs"] == HistogramAggs("day")
    ensures RangeBounds(document["query"]) == Some((start.epoch, end.epoch))
    ensures MatchedText(document["query"]) == Some(query)
    ensures document["query"] == RangeMatchQuery(start.epoch, end.epoch, query)
    ensures |counts| == |buckets|
    ensures forall i :: 0 <= i < |buckets| ==>
      counts[i] == HistogramToBucket(buckets[i])
      && counts[i].timestamp == Raw(buckets[i].key) && counts[i].count == buckets[i].docCount
    ensures Total(counts) == Sum(HistogramCounts(buckets))
  {
    document := QueryDocument(query, Some(start), Some(end), map["aggs" := HistogramAggs("day")]);
    counts := BucketsFromHistogram(buckets);
  }
}

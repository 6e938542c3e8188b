/**
 * server/platforms/onlinenews.py: the Media Cloud adapter's Solr-style query builder and
 * the Wayback Machine adapter's date clause, overview request and reply mapping.
 */
module OnlineNews {
  import opened Wrappers
  import opened Text
  import opened Dates
  import opened Common

  // ---- Media Cloud: the boolean query string ---------------------------------------------

  /** `[str(m) for m in ids]` */
  function Decimals(ids: seq<int>): (r: seq<string>)
    ensures |r| == |ids| && forall i :: 0 <= i < |ids| ==> r[i] == IntToDecimal(ids[i])
  {
    seq(|ids|, i requires 0 <= i < |ids| => IntToDecimal(ids[i]))
  }

  /** `field:(i1 i2 ...)`: the ids as decimals, separated by single spaces. */
  function IdsClause(field: string, ids: seq<int>): string {
    field + ":(" + Join(" ", Decimals(ids)) + ")"
  }

  /**
   * The query string, case by case: the terms in parentheses, then, when some filter is
   * non-empty, ` AND (` the non-empty id clauses, media first, joined by ` OR `, `)`.
   */
  function QueryFor(query: string, mediaIds: seq<int>, tagIds: seq<int>): string {
    var terms := "(" + query + ")";
    if mediaIds == [] && tagIds == [] then terms
    else if tagIds == [] then terms + " AND (" + IdsClause("media_id", mediaIds) + ")"
    else if mediaIds == [] then terms + " AND (" + IdsClause("tags_id_media", tagIds) + ")"
    else terms + " AND (" + IdsClause("media_id", mediaIds) + " OR " + IdsClause("tags_id_media", tagIds) + ")"
  }

  /** `_query_from_parts`: wraps the terms and appends the filter clauses it collects. */
  method QueryFromParts(query: string, mediaIds: seq<int>, tagIds: seq<int>) returns (q: string)
    ensures q == QueryFor(query, mediaIds, tagIds)
  {
    q := "(" + query + ")";
    if |mediaIds| > 0 || |tagIds| > 0 {
      var clauses: seq<string> := [];
      if |mediaIds| > 0 {
        clauses := clauses + [IdsClause("media_id", mediaIds)];
      }
      if |tagIds| > 0 {
        clauses := clauses + [IdsClause("tags_id_media", tagIds)];
      }
      assert |mediaIds| > 0 && |tagIds| > 0 ==>
        Join(" OR ", clauses) == clauses[0] + " OR " + clauses[1];
      if |clauses| > 0 {
        q := q + " AND (" + Join(" OR ", clauses) + ")";
      }
    }
  }

  /**
   * `_format_query`: a missing `sources` or `collections` filter counts as an empty list;
   * the date filter query is Media Cloud's own clause, kept as that call.
   */
  method FormatQuery(query: string, start: PyDateTime, end: PyDateTime,
                     sources: Option<seq<int>>, collections: Option<seq<int>>)
    returns (q: string, fq: Foreign)
    ensures q == QueryFor(query, sources.GetOr([]), collections.GetOr([]))
    ensures fq == DatesAsQueryClause(start, end)
  {
    var mediaIds := if sources.Some? then sources.value else [];
    var tagsIds := if collections.Some? then collections.value else [];
    q := QueryFromParts(query, mediaIds, tagsIds);
    fq := DatesAsQueryClause(start, end);
  }

  /** With no filters the query is exactly the parenthesised terms, even for empty terms. */
  lemma NoFiltersIsParenthesisedTerms(query: string)
    ensures QueryFor(query, [], []) == "(" + query + ")"
    ensures QueryFor("", [], []) == "()"
  {
  }

  /** Every query begins with the parenthesised terms, and is exactly that when both filters are empty. */
  lemma QueryStartsWithTerms(query: string, mediaIds: seq<int>, tagIds: seq<int>)
    ensures var q := QueryFor(query, mediaIds, tagIds);
      |q| >= |query| + 2 && q[..|query| + 2] == "(" + query + ")"
      && (|q| == |query| + 2 <==> mediaIds == [] && tagIds == [])
  {
  }

  /**
   * Calling `_format_query` without `sources` (or without `collections`) builds the same
   * query and date filter as passing an empty list for it, whatever the other filter is.
   */
  method AbsentFilterIsEmpty(query: string, start: PyDateTime, end: PyDateTime, other: Option<seq<int>>)
    returns (noSources: string, emptySources: string, noCollections: string, emptyCollections: string)
    ensures noSources == emptySources && noCollections == emptyCollections
    ensures noSources == QueryFor(query, [], other.GetOr([]))
    ensures noCollections == QueryFor(query, other.GetOr([]), [])
  {
    var fq1, fq2, fq3, fq4;
    noSources, fq1 := FormatQuery(query, start, end, None, other);
    emptySources, fq2 := FormatQuery(query, start, end, Some([]), other);
    noCollections, fq3 := FormatQuery(query, start, end, other, None);
    emptyCollections, fq4 := FormatQuery(query, start, end, other, Some([]));
    assert fq1 == fq2 == fq3 == fq4;
  }

  /** The worked example: terms `X`, sources 1 and 2, no collections. */
  lemma MediaOnlyExample()
    ensures QueryFor("X", [1, 2], []) == "(X) AND (media_id:(1 2))"
  {
    assert Decimals([1, 2]) == ["1", "2"];
  }

  /**
   * The id list inside a clause can be read back: splitting it at spaces and parsing each
   * part gives the ids, in order.
   */
  lemma IdListRoundTrip(ids: seq<int>)
    requires |ids| >= 1
    ensures var parts := Split(Join(" ", Decimals(ids)), ' ');
      |parts| == |ids| && forall i :: 0 <= i < |ids| ==> ParseInt(parts[i]) == Some(ids[i])
  {
    var ds := Decimals(ids);
    forall i | 0 <= i < |ds| ensures ' ' !in ds[i] {
      IntToDecimalChars(ids[i]);
    }
    SplitJoin(ds, ' ');
    forall i | 0 <= i < |ids| ensures ParseInt(ds[i]) == Some(ids[i]) {
      IntRoundTrip(ids[i]);
    }
  }

  // ---- Wayback Machine: request ---------------------------------------------------------

  /** `_date_query_clause`: `publication_date:[S TO E]` with both days as `YYYY-MM-DD`. */
  function DateQueryClause(start: PyDateTime, end: PyDateTime): (r: string)
    ensures |r| == 43
  {
    "publication_date:[" + FormatSolrDate(start.date) + " TO " + FormatSolrDate(end.date) + "]"
  }

  /** The `q` text of `_overview_query`: the terms ANDed with the date clause. */
  function OverviewQuery(query: string, start: PyDateTime, end: PyDateTime): (q: string)
    ensures |q| == |query| + 48
  {
    query + " AND " + DateQueryClause(start, end)
  }

  /** `_overview_query`'s parameters: `q` alone. */
  function OverviewParams(query: string, start: PyDateTime, end: PyDateTime): (p: Params)
    ensures p.Keys == {"q"} && p["q"] == Str(OverviewQuery(query, start, end))
  {
    map["q" := Str(OverviewQuery(query, start, end))]
  }

  /**
   * The overview query text is the terms, ` AND publication_date:[`, ten characters that
   * parse back to the start day, ` TO `, ten that parse back to the end day, and `]`.
   */
  lemma OverviewQueryDates(query: string, start: PyDateTime, end: PyDateTime)
    ensures var q := OverviewQuery(query, start, end);
      var n := |query|;
      && |q| == n + 48
      && q[..n] == query && q[n..n + 23] == " AND publication_date:["
      && SolrDateToDate(q[n + 23..n + 33]) == Some(Midnight(start.date))
      && q[n + 33..n + 37] == " TO "
      && SolrDateToDate(q[n + 37..n + 47]) == Some(Midnight(end.date))
      && q[n + 47] == ']'
  {
    var S, E := FormatSolrDate(start.date), FormatSolrDate(end.date);
    OverviewQueryText(query, start, end);
    ClauseSlices(query, S, E);
    ParseFormat(start.date);
    ParseFormat(end.date);
  }

  lemma OverviewQueryText(query: string, start: PyDateTime, end: PyDateTime)
    ensures OverviewQuery(query, start, end)
      == query + " AND publication_date:[" + FormatSolrDate(start.date) + " TO " + FormatSolrDate(end.date) + "]"
  {
    var S, E := FormatSolrDate(start.date), FormatSolrDate(end.date);
    assert " AND " + "publication_date:[" == " AND publication_date:[";
    assert query + " AND " + ("publication_date:[" + S + " TO " + E + "]")
      == (query + (" AND " + "publication_date:[")) + S + " TO " + E + "]";
  }

  lemma ClauseSlices(query: string, S: string, E: string)
    requires |S| == 10 && |E| == 10
    ensures var q := query + " AND publication_date:[" + S + " TO " + E + "]";
      var n := |query|;
      && |q| == n + 48
      && q[..n] == query && q[n..n + 23] == " AND publication_date:["
      && q[n + 23..n + 33] == S && q[n + 33..n + 37] == " TO "
      && q[n + 37..n + 47] == E && q[n + 47] == ']'
  {
    var head := query + " AND publication_date:[";
    SliceOf(query, " AND publication_date:[", S);
    SliceOf(head, S, " TO " + E + "]");
    SliceOf(head + S, " TO ", E + "]");
    SliceOf(head + S + " TO ", E, "]");
  }

  lemma SliceOf(a: string, b: string, c: string)
    ensures (a + b + c)[|a|..|a| + |b|] == b && (a + b + c)[..|a|] == a
  {
  }

  // ---- Wayback Machine: reply ------------------------------------------------------------

  datatype Match = Match(canonicalDomain: string, articleUrl: string, articleTitle: string,
                         publicationDate: string, originalUrl: string, language: string)

  /**
   * The overview reply: the search summary, or a bare `detail` message (which carries none
   * of the keys the adapter reads).
   */
  datatype OverviewReply =
    | Overview(total: int, matches: seq<Match>, dailycounts: seq<(string, int)>)
    | Detail(detail: string)

  datatype Row = Row(mediaName: string, mediaUrl: string, storiesId: string, title: string,
                     publishDate: Foreign, url: string, language: string)

  /**
   * `_match_to_row`: the domain is the media name and, after `http://`, the media URL; the
   * story id is the last `/`-separated segment of the article URL.
   */
  function MatchToRow(m: Match): (r: Row)
    ensures r.mediaName == m.canonicalDomain && r.mediaUrl == "http://" + r.mediaName
    ensures '/' !in r.storiesId && |r.storiesId| <= |m.articleUrl|
    ensures r.storiesId == m.articleUrl[|m.articleUrl| - |r.storiesId|..]
    ensures |r.storiesId| < |m.articleUrl| ==> m.articleUrl[|m.articleUrl| - |r.storiesId| - 1] == '/'
    ensures ('/' in m.articleUrl) == (|r.storiesId| < |m.articleUrl|)
    ensures r.title == m.articleTitle && r.url == m.originalUrl && r.language == m.language
    ensures r.publishDate == DateParserParse(m.publicationDate)
  {
    LastSegmentIsSuffix(m.articleUrl, '/');
    Row(m.canonicalDomain, "http://" + m.canonicalDomain, LastSegment(m.articleUrl, '/'),
        m.articleTitle, DateParserParse(m.publicationDate), m.originalUrl, m.language)
  }

  /** `_matches_to_rows`: one row per match, in order. */
  function MatchesToRows(matches: seq<Match>): (rows: seq<Row>)
    ensures |rows| == |matches| && forall i :: 0 <= i < |matches| ==> rows[i] == MatchToRow(matches[i])
  {
    seq(|matches|, i requires 0 <= i < |matches| => MatchToRow(matches[i]))
  }

  /** Wayback `sample`; the `limit` argument is not sent and does not bound the rows. */
  function Sample(reply: OverviewReply): (r: Result<seq<Row>, Error>)
    ensures reply.Detail? <==> r == Failure(KeyError("matches"))
    ensures reply.Overview? ==> r == Success(MatchesToRows(reply.matches)) && |r.value| == |reply.matches|
  {
    match reply
    case Overview(_, matches, _) => Success(MatchesToRows(matches))
    case Detail(_) => Failure(KeyError("matches"))
  }

  /** Wayback `count`: the reply's `total`. */
  function Count(reply: OverviewReply): (r: Result<int, Error>)
    ensures reply.Overview? <==> r.Success?
    ensures reply.Overview? ==> r.value == reply.total
    ensures reply.Detail? ==> r.error == KeyError("total")
  {
    match reply
    case Overview(total, _, _) => Success(total)
    case Detail(_) => Failure(KeyError("total"))
  }

  /** One `counts` entry for a `dailycounts` item: both date fields come from parsing its key. */
  function DayBucket(entry: (string, int)): (b: Bucket)
    ensures b.date == DateParserParse(entry.0) && b.timestamp == TimestampOf(b.date) && b.count == entry.1
  {
    Bucket(DateParserParse(entry.0), TimestampOf(DateParserParse(entry.0)), entry.1)
  }

  /**
   * Wayback `count_over_time`: one bucket per `dailycounts` day, in order. The buckets'
   * counts are the day values, so their total is the sum of the day values.
   */
  method CountOverTime(reply: OverviewReply) returns (r: Result<seq<Bucket>, Error>)
    ensures reply.Detail? ==> r == Failure(KeyError("dailycounts"))
    ensures reply.Overview? ==> r.Success? && |r.value| == |reply.dailycounts|
    ensures reply.Overview? ==> forall i :: 0 <= i < |r.value| ==>
      r.value[i].count == reply.dailycounts[i].1 && r.value[i].date == DateParserParse(reply.dailycounts[i].0)
      && r.value[i] == DayBucket(reply.dailycounts[i])
    ensures reply.Overview? ==> Total(r.value) == Sum(DayValues(reply.dailycounts))
  {
    if reply.Detail? {
      return Failure(KeyError("dailycounts"));
    }
    var toReturn := DaysToBuckets(reply.dailycounts);
    r := Success(toReturn);
  }

  /** The loop of `count_over_time`: walks `dailycounts` in order, appending one bucket per day. */
  method DaysToBuckets(data: seq<(string, int)>) returns (toReturn: seq<Bucket>)
    ensures |toReturn| == |data|
    ensures forall i :: 0 <= i < |data| ==> toReturn[i] == DayBucket(data[i])
    ensures Total(toReturn) == Sum(DayValues(data))
  {
    toReturn := [];
    var i := 0;
    while i < |data|
      invariant 0 <= i <= |data|
      invariant |toReturn| == i
      invariant forall k :: 0 <= k < i ==> toReturn[k] == DayBucket(data[k])
      invariant Total(toReturn) == Sum(DayValues(data[..i]))
    {
      assert DayValues(data[..i + 1]) == DayValues(data[..i]) + [data[i].1];
      SumAppend(DayValues(data[..i]), [data[i].1]);
      TotalAppend(toReturn, [DayBucket(data[i])]);
      toReturn := toReturn + [DayBucket(data[i])];
      i := i + 1;
    }
    assert data[..i] == data;
  }

  /** The values of a `dailycounts` mapping, in its order. */
  function DayValues(entries: seq<(string, int)>): (r: seq<int>)
    ensures |r| == |entries| && forall i :: 0 <= i < |entries| ==> r[i] == entries[i].1
  {
    seq(|entries|, i requires 0 <= i < |entries| => entries[i].1)
  }

  // ---- Media Cloud: top words ------------------------------------------------------------

  datatype WordCount = WordCount(term: string, count: int)

  /** `words`: the client's word counts cut to `limit` with `[:limit]`. */
  function Words(wordCounts: seq<WordCount>, limit: int): (r: seq<WordCount>)
    ensures |r| <= |wordCounts| && r == wordCounts[..|r|]
    ensures limit >= 0 ==> |r| == if limit < |wordCounts| then limit else |wordCounts|
  {
    Take(wordCounts, limit)
  }
}

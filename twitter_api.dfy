/**
 * The Twitter v2 helpers that server/platforms/twitter.py and
 * server/platforms/twitter_twitter.py both define, line for line the same: the request
 * parameters, the in-place author join and the row mapping.
 */
module TwitterApi {
  import opened Wrappers
  import opened Text
  import opened Dates
  import opened Common

  const API_URL := "https://api.twitter.com/2/"

  // ---- requests --------------------------------------------------------------------------

  /** `sample`'s parameters for `tweets/search/all`. */
  function SearchParams(query: string, start: PyDateTime, end: PyDateTime, limit: int): (p: Params)
    ensures p.Keys == {"query", "max_results", "start_time", "end_time", "tweet.fields", "expansions"}
    ensures p["query"] == Str(query) && p["max_results"] == Int(limit) && p["expansions"] == Str("author_id")
    ensures p["start_time"] == Str(IsoZ(start)) && p["end_time"] == Str(IsoZ(end))
    ensures p["tweet.fields"] == Str(Join(",", TWEET_FIELDS))
  {
    map["query" := Str(query), "max_results" := Int(limit),
        "start_time" := Str(IsoZ(start)), "end_time" := Str(IsoZ(end)),
        "tweet.fields" := Str(Join(",", TWEET_FIELDS)),
        "expansions" := Str("author_id")]
  }

  /** `count`'s parameters for `tweets/counts/all`. */
  function CountParams(query: string, start: PyDateTime, end: PyDateTime): (p: Params)
    ensures p.Keys == {"query", "start_time", "end_time"}
    ensures p["query"] == Str(query) && p["start_time"] == Str(IsoZ(start)) && p["end_time"] == Str(IsoZ(end))
  {
    map["query" := Str(query), "start_time" := Str(IsoZ(start)), "end_time" := Str(IsoZ(end))]
  }

  /** `count_over_time`'s parameters: those of `count` with daily granularity. */
  function CountOverTimeParams(query: string, start: PyDateTime, end: PyDateTime): (p: Params)
    ensures p.Keys == {"query", "granularity", "start_time", "end_time"}
    ensures p - {"granularity"} == CountParams(query, start, end) && p["granularity"] == Str("day")
  {
    CountParams(query, start, end)["granularity" := Str("day")]
  }

  const TWEET_FIELDS := ["author_id", "created_at", "public_metrics"]

  /** The requested tweet fields form one comma-separated value that splits back into the three. */
  lemma TweetFieldsRoundTrip()
    ensures Join(",", TWEET_FIELDS) == "author_id,created_at,public_metrics"
    ensures Split(Join(",", TWEET_FIELDS), ',') == TWEET_FIELDS
  {
    var fields := TWEET_FIELDS;
    JoinThree(",", fields[0], fields[1], fields[2]);
    assert "author_id" + "," == "author_id,";
    assert "author_id," + "created_at" == "author_id,created_at";
    assert "author_id,created_at" + "," == "author_id,created_at,";
    assert "author_id,created_at," + "public_metrics" == "author_id,created_at,public_metrics";
    assert forall i :: 0 <= i < |fields| ==> ',' !in fields[i] by {
      assert ',' !in "author_id" && ',' !in "created_at" && ',' !in "public_metrics";
    }
    SplitJoin(fields, ',');
  }

  /** The sample request's `tweet.fields` value names the three fields and splits back into them. */
  lemma SearchFieldsValue(query: string, start: PyDateTime, end: PyDateTime, limit: int)
    ensures var value := SearchParams(query, start, end, limit)["tweet.fields"];
      value == Str("author_id,created_at,public_metrics") && Split(value.s, ',') == TWEET_FIELDS
  {
    TweetFieldsRoundTrip();
  }

  // ---- replies ---------------------------------------------------------------------------

  datatype User = User(id: string, username: string, name: string)

  datatype PublicMetrics = PublicMetrics(retweetCount: int, replyCount: int, likeCount: int, quoteCount: int)

  /** A tweet of a search reply; the author join writes its `author` entry in place. */
  class Tweet {
    const id: string
    const text: string
    const authorId: string
    const createdAt: string
    const metrics: PublicMetrics
    var author: Option<User>

    constructor (id: string, text: string, authorId: string, createdAt: string, metrics: PublicMetrics)
      ensures this.id == id && this.text == text && this.authorId == authorId
      ensures this.createdAt == createdAt && this.metrics == metrics && author == None
    {
      this.id := id;
      this.text := text;
      this.authorId := authorId;
      this.createdAt := createdAt;
      this.metrics := metrics;
      author := None;
    }
  }

  /** A search reply: `data` and `includes.users` are absent when nothing matched. */
  datatype SearchReply = SearchReply(data: Option<seq<Tweet>>, users: Option<seq<User>>) {
    function Tweets(): seq<Tweet> {
      data.GetOr([])
    }
  }

  /** `{u['id']: u for u in users}`: a later user with the same id replaces an earlier one. */
  function UserIndex(users: seq<User>): (index: map<string, User>)
    ensures forall id :: id in index ==> index[id].id == id
  {
    if |users| == 0 then map[]
    else UserIndex(users[..|users| - 1])[users[|users| - 1].id := users[|users| - 1]]
  }

  /** An id is in the index exactly when some user has it, and it maps to the last such user. */
  lemma {:induction false} UserIndexLookup(users: seq<User>, id: string)
    ensures id in UserIndex(users) <==> exists i :: 0 <= i < |users| && users[i].id == id
    ensures id in UserIndex(users) ==>
      exists i :: 0 <= i < |users| && users[i] == UserIndex(users)[id] && users[i].id == id
        && forall j :: i < j < |users| ==> users[j].id != id
  {
    if |users| > 0 {
      var init := users[..|users| - 1];
      UserIndexLookup(init, id);
      assert forall i :: 0 <= i < |init| ==> init[i] == users[i];
    }
  }

  /** The index of the first tweet whose author is not in the index, or the number of tweets. */
  function FirstMissing(tweets: seq<Tweet>, index: map<string, User>): (k: nat)
    ensures k <= |tweets|
    ensures forall i :: 0 <= i < k ==> tweets[i].authorId in index
    ensures k < |tweets| ==> tweets[k].authorId !in index
    decreases |tweets|
  {
    if |tweets| == 0 then 0
    else if tweets[0].authorId !in index then 0
    else 1 + FirstMissing(tweets[1..], index)
  }

  /**
   * `_add_author_to_tweets`: sets each tweet's `author` to the user whose id equals its
   * `author_id`, in order, and raises `KeyError` at the first tweet whose author is not in
   * `includes.users`, leaving the tweets after it (unless they also occur before it) as
   * they were. Nothing but `author` changes.
   */
  method AddAuthorToTweets(reply: SearchReply) returns (error: Option<Error>)
    modifies reply.Tweets()
    ensures reply.users.None? ==> error == Some(KeyError("includes"))
    ensures reply.users.Some? && reply.data.None? ==> error == Some(KeyError("data"))
    ensures reply.users.None? || reply.data.None? ==>
      forall t :: t in reply.Tweets() ==> t.author == old(t.author)
    ensures reply.users.Some? && reply.data.Some? ==>
      var tweets, index := reply.data.value, UserIndex(reply.users.value);
      var k := FirstMissing(tweets, index);
      && (error.None? <==> k == |tweets|)
      && (k < |tweets| ==> error == Some(KeyError(tweets[k].authorId)))
      && (forall i :: 0 <= i < k ==> tweets[i].author == Some(index[tweets[i].authorId]))
      && (forall i :: k <= i < |tweets| && tweets[i] !in tweets[..k] ==> tweets[i].author == old(tweets[i].author))
  {
    if reply.users.None? {
      return Some(KeyError("includes"));
    }
    var index := UserIndex(reply.users.value);
    if reply.data.None? {
      return Some(KeyError("data"));
    }
    var tweets := reply.data.value;
    var k := FirstMissing(tweets, index);
    var i := 0;
    while i < |tweets|
      invariant 0 <= i <= k
      invariant forall j :: 0 <= j < i ==> tweets[j].author == Some(index[tweets[j].authorId])
      invariant forall j :: i <= j < |tweets| && tweets[j] !in tweets[..i] ==> tweets[j].author == old(tweets[j].author)
    {
      var t := tweets[i];
      if t.authorId !in index {
        return Some(KeyError(t.authorId));
      }
      t.author := Some(index[t.authorId]);
      i := i + 1;
      assert tweets[..i] == tweets[..i - 1] + [t];
    }
    error := None;
  }

  // ---- rows ------------------------------------------------------------------------------

  datatype Row = Row(mediaName: string, mediaUrl: string, storiesId: string, content: string,
                     publishDate: Foreign, url: string, lastUpdated: Foreign, author: string,
                     language: Option<string>, retweetCount: int, replyCount: int, likeCount: int,
                     quoteCount: int)

  /**
   * `_tweet_to_row` for a tweet whose author has been joined: the link is
   * `https://twitter.com/{username}/status/{id}`, the media is `Twitter`, the language is
   * `None`, and both dates come from parsing `created_at`.
   */
  function TweetToRow(t: Tweet): (r: Row)
    reads t
    requires t.author.Some?
    ensures r.mediaName == "Twitter" && r.mediaUrl == "https://twitter.com/" + t.author.value.username
    ensures r.url == r.mediaUrl + "/status/" + t.id && r.storiesId == t.id
    ensures r.author == t.author.value.name && r.content == t.text && r.language == None
    ensures r.publishDate == r.lastUpdated == DateParserParse(t.createdAt)
    ensures r.retweetCount == t.metrics.retweetCount && r.replyCount == t.metrics.replyCount
    ensures r.likeCount == t.metrics.likeCount && r.quoteCount == t.metrics.quoteCount
  {
    var user := t.author.value;
    Row("Twitter", "https://twitter.com/" + user.username, t.id, t.text, DateParserParse(t.createdAt), StatusLink(user.username, t.id),
        DateParserParse(t.createdAt), user.name, None, t.metrics.retweetCount, t.metrics.replyCount,
        t.metrics.likeCount, t.metrics.quoteCount)
  }

  /**
   * `_tweets_to_rows`: the author join, then one row per tweet, in order, each naming the
   * user whose id is the tweet's `author_id`; any `KeyError` of the join is raised.
   */
  method TweetsToRows(reply: SearchReply) returns (r: Result<seq<Row>, Error>)
    modifies reply.Tweets()
    ensures reply.users.None? ==> r == Failure(KeyError("includes"))
    ensures reply.users.Some? && reply.data.None? ==> r == Failure(KeyError("data"))
    ensures reply.users.Some? && reply.data.Some? ==>
      var tweets, index := reply.data.value, UserIndex(reply.users.value);
      var k := FirstMissing(tweets, index);
      && (r.Success? <==> forall i :: 0 <= i < |tweets| ==> tweets[i].authorId in index)
      && (r.Failure? ==> k < |tweets| && r.error == KeyError(tweets[k].authorId))
      && (forall i :: 0 <= i < k ==> tweets[i].author == Some(index[tweets[i].authorId]))
      && (r.Success? ==> |r.value| == |tweets| && forall i :: 0 <= i < |tweets| ==>
            r.value[i] == TweetToRow(tweets[i])
            && r.value[i].author == index[tweets[i].authorId].name)
  {
    var error := AddAuthorToTweets(reply);
    if error.Some? {
      return Failure(error.value);
    }
    var tweets := reply.data.value;
    var rows := seq(|tweets|, i requires 0 <= i < |tweets| && tweets[i].author.Some? reads tweets
                                => TweetToRow(tweets[i]));
    r := Success(rows);
  }

  /** `sample` (the same in both files): one search request, its reply turned into rows. */
  method Sample(query: string, start: PyDateTime, end: PyDateTime, limit: int, reply: SearchReply)
    returns (request: Params, rows: Result<seq<Row>, Error>)
    modifies reply.Tweets()
    ensures request == SearchParams(query, start, end, limit)
    ensures reply.users.None? ==> rows == Failure(KeyError("includes"))
    ensures reply.users.Some? ==> reply.data.None? ==> rows == Failure(KeyError("data"))
    ensures reply.users.Some? && reply.data.Some? ==>
      var tweets, index := reply.data.value, UserIndex(reply.users.value);
      var k := FirstMissing(tweets, index);
      && (rows.Success? <==> forall i :: 0 <= i < |tweets| ==> tweets[i].authorId in index)
      && (rows.Failure? ==> k < |tweets| && rows.error == KeyError(tweets[k].authorId))
      && (forall i :: 0 <= i < k ==> tweets[i].author == Some(index[tweets[i].authorId]))
      && (rows.Success? ==> |rows.value| == |tweets| && forall i :: 0 <= i < |tweets| ==>
            rows.value[i] == TweetToRow(tweets[i])
            && rows.value[i].storiesId == tweets[i].id
            && rows.value[i].author == index[tweets[i].authorId].name)
  {
    request := SearchParams(query, start, end, limit);
    rows := TweetsToRows(reply);
  }

  // ---- counts replies --------------------------------------------------------------------

  datatype CountsEntry = CountsEntry(start: string, tweetCount: int)

  datatype CountsMeta = CountsMeta(nextToken: Option<string>, totalTweetCount: Option<int>)

  /** A `tweets/counts/all` reply: its `data` list and its optional `meta`. */
  datatype CountsReply = CountsReply(data: Option<seq<CountsEntry>>, meta: Option<CountsMeta>)

  /** One `counts` entry: both date fields come from parsing the entry's `start`. */
  function EntryToBucket(d: CountsEntry): (b: Bucket)
    ensures b.date == DateParserParse(d.start) && b.timestamp == TimestampOf(b.date) && b.count == d.tweetCount
  {
    Bucket(DateParserParse(d.start), TimestampOf(DateParserParse(d.start)), d.tweetCount)
  }

  function TweetCounts(entries: seq<CountsEntry>): (r: seq<int>)
    ensures |r| == |entries| && forall i :: 0 <= i < |entries| ==> r[i] == entries[i].tweetCount
  {
    seq(|entries|, i requires 0 <= i < |entries| => entries[i].tweetCount)
  }

  /** The bucket list of a `data` list: one bucket per entry, in order. */
  function Buckets(entries: seq<CountsEntry>): (r: seq<Bucket>)
    ensures |r| == |entries| && forall i :: 0 <= i < |entries| ==>
      r[i] == EntryToBucket(entries[i]) && r[i].count == entries[i].tweetCount
  {
    seq(|entries|, i requires 0 <= i < |entries| => EntryToBucket(entries[i]))
  }

  /** The counts of the buckets add up to the `tweet_count`s of the entries. */
  lemma {:induction false} BucketsTotal(entries: seq<CountsEntry>)
    ensures Total(Buckets(entries)) == Sum(TweetCounts(entries))
    decreases |entries|
  {
    if |entries| > 0 {
      var init := entries[..|entries| - 1];
      BucketsTotal(init);
      assert Buckets(entries)[..|entries| - 1] == Buckets(init);
      assert TweetCounts(entries)[..|entries| - 1] == TweetCounts(init);
    }
  }

  /** Reversing a page reverses its counts, so it keeps their sum. */
  lemma ReversedPageSum(entries: seq<CountsEntry>)
    ensures Sum(TweetCounts(Reversed(entries))) == Sum(TweetCounts(entries))
  {
    assert TweetCounts(Reversed(entries)) == Reversed(TweetCounts(entries));
    SumReversed(TweetCounts(entries));
  }

  /** The final loop of both `count_over_time`s: one bucket per entry, appended in order. */
  method EntriesToBuckets(entries: seq<CountsEntry>) returns (counts: seq<Bucket>)
    ensures counts == Buckets(entries)
  {
    counts := [];
    var i := 0;
    while i < |entries|
      invariant 0 <= i <= |entries|
      invariant counts == Buckets(entries[..i])
    {
      assert Buckets(entries[..i + 1]) == Buckets(entries[..i]) + [EntryToBucket(entries[i])];
      counts := counts + [EntryToBucket(entries[i])];
      i := i + 1;
    }
    assert entries[..i] == entries;
  }
}

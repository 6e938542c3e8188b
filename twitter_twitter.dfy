/**
 * server/platforms/twitter_twitter.py: the Twitter v2 client whose `count_over_time` reads a
 * single page and whose `count` adds up those buckets. Its request builders, author join
 * and row mapping are the shared ones of `TwitterApi`.
 */
module TwitterTwitter {
  import opened Wrappers
  import opened Dates
  import opened Common
  import opened TwitterApi

  /**
   * `count_over_time`: exactly one request, with the daily count parameters; one bucket per
   * `data` entry of its reply, in order, or `KeyError` when the reply has no `data`.
   */
  method CountOverTime(query: string, start: PyDateTime, end: PyDateTime, reply: CountsReply)
    returns (request: Params, counts: Result<seq<Bucket>, Error>)
    ensures request == CountOverTimeParams(query, start, end)
    ensures reply.data.None? ==> counts == Failure(KeyError("data"))
    ensures reply.data.Some? ==> counts == Success(Buckets(reply.data.value))
  {
    request := CountOverTimeParams(query, start, end);
    if reply.data.None? {
      return request, Failure(KeyError("data"));
    }
    var data := EntriesToBuckets(reply.data.value);
    counts := Success(data);
  }

  /**
   * `count`: the sum of the `count` fields of `count_over_time` with the same arguments,
   * that is, the sum of the reply's `tweet_count`s; it raises what `count_over_time` raises.
   */
  method Count(query: string, start: PyDateTime, end: PyDateTime, reply: CountsReply)
    returns (request: Params, total: Result<int, Error>)
    ensures request == CountOverTimeParams(query, start, end)
    ensures reply.data.None? ==> total == Failure(KeyError("data"))
    ensures reply.data.Some? ==> total == Success(Total(Buckets(reply.data.value)))
    ensures reply.data.Some? ==> total == Success(Sum(TweetCounts(reply.data.value)))
  {
    var overTime;
    request, overTime := CountOverTime(query, start, end, reply);
    if overTime.Failure? {
      return request, Failure(overTime.error);
    }
    BucketsTotal(reply.data.value);
    total := Success(Total(overTime.value));
  }
}

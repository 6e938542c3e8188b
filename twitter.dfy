/**
 * server/platforms/twitter.py: the Twitter v2 client whose `count_over_time` follows
 * `next_token` pages and whose `count` reads the reply's total. Its request builders,
 * author join and row mapping are the shared ones of `TwitterApi`.
 */
module Twitter {
  import opened Wrappers
  import opened Dates
  import opened Common
  import opened TwitterApi

  /** The token a counts reply hands on: `meta.next_token` when both are present. */
  function NextToken(r: CountsReply): (t: Option<string>)
    ensures t.Some? <==> r.meta.Some? && r.meta.value.nextToken.Some?
    ensures t.Some? ==> t.value == r.meta.value.nextToken.value
  {
    if r.meta.Some? then r.meta.value.nextToken else None
  }

  /** The `next_token` value of request `k`: `None` first, then the previous reply's token. */
  function TokenParam(replies: seq<CountsReply>, k: nat): (v: Value)
    requires k <= |replies|
    ensures k == 0 ==> v == Null
    ensures k > 0 ==> (v == Null <==> NextToken(replies[k - 1]).None?)
    ensures k > 0 && NextToken(replies[k - 1]).Some? ==> v == Str(NextToken(replies[k - 1]).value)
  {
    if k == 0 then Null
    else match NextToken(replies[k - 1])
      case Some(t) => Str(t)
      case None => Null
  }

  /**
   * The accumulated `data`: for each page in fetch order, its entries reversed, so the
   * list ends with the first entry of the last page.
   */
  function Collected(pages: seq<CountsReply>): (r: seq<CountsEntry>)
    ensures |pages| > 0 && |pages[|pages| - 1].data.GetOr([])| > 0 ==>
      |r| > 0 && r[|r| - 1] == pages[|pages| - 1].data.value[0]
  {
    if |pages| == 0 then []
    else Collected(pages[..|pages| - 1]) + Reversed(pages[|pages| - 1].data.GetOr([]))
  }

  /** Nothing is lost or invented: the accumulated list holds each page's entries, as often as the pages hold them. */
  lemma {:induction false} CollectedEntries(pages: seq<CountsReply>)
    ensures multiset(Collected(pages)) == PagesMultiset(pages)
    decreases |pages|
  {
    if |pages| > 0 {
      CollectedEntries(pages[..|pages| - 1]);
      ReversedPermutes(pages[|pages| - 1].data.GetOr([]));
    }
  }

  /** Every page's entries taken together, in any order. */
  function PagesMultiset(pages: seq<CountsReply>): multiset<CountsEntry> {
    if |pages| == 0 then multiset{}
    else PagesMultiset(pages[..|pages| - 1]) + multiset(pages[|pages| - 1].data.GetOr([]))
  }

  /** The sum of each page's `tweet_count`s. */
  function PageTotals(pages: seq<CountsReply>): (r: seq<int>)
    ensures |r| == |pages|
    ensures forall i :: 0 <= i < |pages| ==> r[i] == Sum(TweetCounts(pages[i].data.GetOr([])))
  {
    seq(|pages|, i requires 0 <= i < |pages| => Sum(TweetCounts(pages[i].data.GetOr([]))))
  }

  /** Reading the pages' entries back to front per page loses no count: the total is the sum of the page totals. */
  lemma {:induction false} CollectedTotal(pages: seq<CountsReply>)
    ensures Sum(TweetCounts(Collected(pages))) == Sum(PageTotals(pages))
    decreases |pages|
  {
    if |pages| > 0 {
      var init, last := pages[..|pages| - 1], pages[|pages| - 1].data.GetOr([]);
      CollectedTotal(init);
      CollectedLastPage(pages);
      SumAppend(TweetCounts(Collected(init)), TweetCounts(Reversed(last)));
      ReversedPageSum(last);
      assert PageTotals(pages)[..|pages| - 1] == PageTotals(init);
    }
  }

  lemma CollectedLastPage(pages: seq<CountsReply>)
    requires |pages| > 0
    ensures var init, last := pages[..|pages| - 1], pages[|pages| - 1].data.GetOr([]);
      TweetCounts(Collected(pages)) == TweetCounts(Collected(init)) + TweetCounts(Reversed(last))
  {
    var init, last := pages[..|pages| - 1], pages[|pages| - 1].data.GetOr([]);
    assert Collected(pages) == Collected(init) + Reversed(last);
  }

  /** The first `n` requests of a walk from `base`: request `k` is `base` with the `k`-th token. */
  function RequestsUpTo(base: Params, replies: seq<CountsReply>, n: nat): (r: seq<Params>)
    requires n <= |replies|
    ensures |r| == n
  {
    if n == 0 then [] else RequestsUpTo(base, replies, n - 1) + [base["next_token" := TokenParam(replies, n - 1)]]
  }

  /** Request `k` of the walk carries the `k`-th token and otherwise `base`. */
  lemma {:induction false} RequestsUpToAt(base: Params, replies: seq<CountsReply>, n: nat)
    requires n <= |replies|
    ensures forall k :: 0 <= k < n ==> RequestsUpTo(base, replies, n)[k] == base["next_token" := TokenParam(replies, k)]
    decreases n
  {
    if n > 0 {
      RequestsUpToAt(base, replies, n - 1);
    }
  }

  /** Each of the first `n` replies has data and hands on a token. */
  predicate Continues(replies: seq<CountsReply>, n: int)
    requires n <= |replies|
  {
    forall k :: 0 <= k < n ==> replies[k].data.Some? && NextToken(replies[k]).Some?
  }

  lemma ContinuesStep(replies: seq<CountsReply>, n: nat)
    requires n < |replies| && Continues(replies, n)
    requires replies[n].data.Some? && NextToken(replies[n]).Some?
    ensures Continues(replies, n + 1)
  {
  }

  /** What the walk has collected after its first `n` pages, counted by index rather than by prefix. */
  function CollectedUpTo(replies: seq<CountsReply>, n: nat): seq<CountsEntry>
    requires n <= |replies|
  {
    if n == 0 then [] else CollectedUpTo(replies, n - 1) + Reversed(replies[n - 1].data.GetOr([]))
  }

  /** `data += reversed(results['data'])`: page `i` extends what the first `i` pages collected. */
  method AppendPage(replies: seq<CountsReply>, i: nat, data: seq<CountsEntry>) returns (more: seq<CountsEntry>)
    requires i < |replies| && replies[i].data.Some? && data == CollectedUpTo(replies, i)
    ensures more == CollectedUpTo(replies, i + 1)
  {
    more := data + Reversed(replies[i].data.value);
  }

  /** Counting by index agrees with `Collected` on the prefix. */
  lemma {:induction false} CollectedUpToPrefix(replies: seq<CountsReply>, n: nat)
    requires n <= |replies|
    ensures CollectedUpTo(replies, n) == Collected(replies[..n])
    decreases n
  {
    if n > 0 {
      CollectedUpToPrefix(replies, n - 1);
      assert replies[..n][..n - 1] == replies[..n - 1];
    }
  }

  /** One page's contribution: its entries, last first. */
  lemma CollectedOnePage(page: CountsReply, entries: seq<CountsEntry>)
    requires page.data == Some(entries)
    ensures Collected([page]) == Reversed(entries)
    ensures |entries| > 0 ==> Collected([page])[0] == entries[|entries| - 1]
  {
    assert [page][..0] == [];
  }

  /** How the walk ends: with its result, with the `KeyError` a page lacking `data` raises, or not yet (no more replies known). */
  datatype Outcome<T> = Finished(value: T) | Raised(error: Error) | Unfinished

  /**
   * The paging loop of `count_over_time`, from the request `base`: `replies[k]` is the reply
   * to the `k`-th request, which is `base` with its `next_token` set. The first request
   * carries `next_token = None`, each later one the token of the reply
   * before it; the walk stops right after the first reply without `meta.next_token`, and
   * yields the pages' data, each page reversed, in fetch order. When the replies run out
   * while tokens keep arriving, the outcome is `Unfinished`.
   */
  method FetchPages(base: Params, replies: seq<CountsReply>)
    returns (requests: seq<Params>, walk: Outcome<seq<CountsEntry>>)
    ensures |requests| <= |replies|
    ensures requests == RequestsUpTo(base, replies, |requests|)
    ensures Continues(replies, |requests| - 1)
    ensures walk.Unfinished? <==> (|requests| == |replies| && Continues(replies, |replies|))
    ensures walk.Raised? ==>
      |requests| > 0 && replies[|requests| - 1].data.None? && walk.error == KeyError("data")
    ensures walk.Finished? ==>
      && |requests| > 0 && replies[|requests| - 1].data.Some?
      && NextToken(replies[|requests| - 1]).None?
      && walk.value == Collected(replies[..|requests|])
  {
    var params := base;
    var nextToken: Option<string> := None;
    var data: seq<CountsEntry> := [];
    requests := [];
    var moreData := true;
    var i := 0;
    walk := Unfinished;
    while moreData
      invariant 0 <= i <= |replies|
      invariant requests == RequestsUpTo(base, replies, i)
      invariant Continues(replies, i - 1)
      invariant i > 0 ==> replies[i - 1].data.Some?
      invariant nextToken == (if i == 0 then None else NextToken(replies[i - 1]))
      invariant moreData <==> i == 0 || nextToken.Some?
      invariant data == CollectedUpTo(replies, i)
      invariant params == (if i == 0 then base else requests[i - 1])
      decreases |replies| - i, moreData
    {
      if i > 0 {
        ContinuesStep(replies, i - 1);
      }
      if i == |replies| {
        break;
      }
      var token := if nextToken.Some? then Str(nextToken.value) else Null;
      assert token == TokenParam(replies, i);
      params := params["next_token" := token];
      assert params == base["next_token" := token];
      requests := requests + [params];
      var results := replies[i];
      if results.data.None? {
        walk := Raised(KeyError("data"));
        break;
      }
      data := AppendPage(replies, i, data);
      nextToken := NextToken(results);
      moreData := nextToken.Some?;
      i := i + 1;
    }
    if !moreData {
      CollectedUpToPrefix(replies, i);
      walk := Finished(data);
    }
  }

  /**
   * `count_over_time`: the requests and stopping rule of `FetchPages`; a finished walk
   * yields the buckets of the collected data.
   */
  method CountOverTime(query: string, start: PyDateTime, end: PyDateTime, replies: seq<CountsReply>)
    returns (requests: seq<Params>, outcome: Outcome<seq<Bucket>>)
    ensures |requests| <= |replies|
    ensures forall k :: 0 <= k < |requests| ==>
      requests[k] == CountOverTimeParams(query, start, end)["next_token" := TokenParam(replies, k)]
    ensures forall k :: 0 <= k < |requests| - 1 ==> replies[k].data.Some? && NextToken(replies[k]).Some?
    ensures outcome.Unfinished? <==> (|requests| == |replies| &&
      forall k :: 0 <= k < |replies| ==> replies[k].data.Some? && NextToken(replies[k]).Some?)
    ensures outcome.Raised? ==>
      |requests| > 0 && replies[|requests| - 1].data.None? && outcome.error == KeyError("data")
    ensures outcome.Finished? ==>
      && |requests| > 0 && replies[|requests| - 1].data.Some?
      && NextToken(replies[|requests| - 1]).None?
      && outcome.value == Buckets(Collected(replies[..|requests|]))
  {
    var walk;
    requests, walk := FetchPages(CountOverTimeParams(query, start, end), replies);
    RequestsUpToAt(CountOverTimeParams(query, start, end), replies, |requests|);
    match walk {
      case Finished(data) =>
        var counts := EntriesToBuckets(data);
        outcome := Finished(counts);
      case Raised(error) =>
        outcome := Raised(error);
      case Unfinished =>
        outcome := Unfinished;
    }
  }

  /** The total of a finished walk is the sum of the per-page totals of the pages fetched. */
  lemma FinishedTotal(replies: seq<CountsReply>, n: nat, counts: seq<Bucket>)
    requires n <= |replies| && counts == Buckets(Collected(replies[..n]))
    ensures Total(counts) == Sum(PageTotals(replies[..n]))
    ensures |counts| == |Collected(replies[..n])|
  {
    BucketsTotal(Collected(replies[..n]));
    CollectedTotal(replies[..n]);
  }

  /** `count`: `meta.total_tweet_count` of the single counts reply; a missing key raises `KeyError`. */
  function CountFromReply(reply: CountsReply): (r: Result<int, Error>)
    ensures r.Success? <==> reply.meta.Some? && reply.meta.value.totalTweetCount.Some?
    ensures r.Success? ==> r.value == reply.meta.value.totalTweetCount.value
    ensures reply.meta.None? ==> r == Failure(KeyError("meta"))
    ensures reply.meta.Some? && reply.meta.value.totalTweetCount.None? ==> r == Failure(KeyError("total_tweet_count"))
  {
    match reply.meta
      case None => Failure(KeyError("meta"))
      case Some(meta) =>
        match meta.totalTweetCount
          case None => Failure(KeyError("total_tweet_count"))
          case Some(total) => Success(total)
  }

  /** `count`: one request with the count parameters, answered by `reply`. */
  method Count(query: string, start: PyDateTime, end: PyDateTime, reply: CountsReply)
    returns (request: Params, count: Result<int, Error>)
    ensures request == CountParams(query, start, end) && "next_token" !in request
    ensures count == CountFromReply(reply)
  {
    request := CountParams(query, start, end);
    count := CountFromReply(reply);
  }

  const NORMALIZED_UNSUPPORTED := "Can't search twitter for all tweets in a timeframe"

  /** `normalized_count_over_time` always raises `UnsupportedOperationException`. */
  function NormalizedCountOverTime(query: string, start: PyDateTime, end: PyDateTime): (r: Result<seq<Bucket>, Error>)
    ensures r.Failure? && r.error.UnsupportedOperation?
    ensures r.error.message == NORMALIZED_UNSUPPORTED
  {
    Failure(UnsupportedOperation(NORMALIZED_UNSUPPORTED))
  }
}

/**
 * Shapes shared by the adapters: request values, the errors the adapters raise, library
 * calls left uninterpreted, count-over-time buckets, and Python's `sum` and prefix slice.
 */
module Common {
  import opened Text
  import opened Dates

  /** A JSON-like value: a request parameter, a part of a query document, a dictionary. */
  datatype Value =
    | Null
    | Int(i: int)
    | Str(s: string)
    | List(items: seq<Value>)
    | Object(fields: map<string, Value>)

  /** The parameter dictionary of a request. */
  type Params = map<string, Value>

  /** The exceptions the modelled code raises. */
  datatype Error =
    | KeyError(key: string)
    | ValueError(message: string)
    | UnsupportedOperation(message: string)
    | UnknownProvider(message: string)

  /**
   * A value produced by a library call that is not modelled (date parsing, local-time
   * rendering), kept as the call applied to its exact input; `Raw` is a backend number
   * taken as it is.
   */
  datatype Foreign =
    | Raw(n: int)
      /** `dateparser.parse(text)` */
    | DateParserParse(text: string)
      /** `x.timestamp()` */
    | TimestampOf(of: Foreign)
      /** `datetime.fromtimestamp(seconds / divisor).strftime(MC_DATE_FORMAT)` */
    | LocalMcDate(seconds: int, divisor: nat)
      /** `datetime.strptime(text, '%a %b %d %H:%M:%S %z %Y').strftime(MC_DATE_FORMAT)` */
    | TweetDateMc(text: string)
      /** `MediaCloud.dates_as_query_clause(start, end)` */
    | DatesAsQueryClause(start: DateTime, end: DateTime)

  /** One entry of a `counts` list: `{'date': ..., 'timestamp': ..., 'count': ...}`. */
  datatype Bucket = Bucket(date: Foreign, timestamp: Foreign, count: int)

  /** `sum(xs)`, adding from the left. */
  function Sum(xs: seq<int>): int {
    if |xs| == 0 then 0 else Sum(xs[..|xs| - 1]) + xs[|xs| - 1]
  }

  /** The sum of the `count` fields of a bucket list. */
  function Total(buckets: seq<Bucket>): int {
    if |buckets| == 0 then 0 else Total(buckets[..|buckets| - 1]) + buckets[|buckets| - 1].count
  }

  lemma {:induction false} SumAppend(xs: seq<int>, ys: seq<int>)
    ensures Sum(xs + ys) == Sum(xs) + Sum(ys)
    decreases |ys|
  {
    if |ys| > 0 {
      assert (xs + ys)[..|xs + ys| - 1] == xs + ys[..|ys| - 1];
      SumAppend(xs, ys[..|ys| - 1]);
    } else {
      assert xs + ys == xs;
    }
  }

  lemma {:induction false} TotalAppend(xs: seq<Bucket>, ys: seq<Bucket>)
    ensures Total(xs + ys) == Total(xs) + Total(ys)
    decreases |ys|
  {
    if |ys| > 0 {
      assert (xs + ys)[..|xs + ys| - 1] == xs + ys[..|ys| - 1];
      TotalAppend(xs, ys[..|ys| - 1]);
    } else {
      assert xs + ys == xs;
    }
  }

  /** A sum of non-negative counts is non-negative, and zero exactly when every count is. */
  lemma {:induction false} SumNonNegative(xs: seq<int>)
    requires forall i :: 0 <= i < |xs| ==> xs[i] >= 0
    ensures Sum(xs) >= 0
    ensures Sum(xs) == 0 <==> forall i :: 0 <= i < |xs| ==> xs[i] == 0
  {
    if |xs| > 0 {
      SumNonNegative(xs[..|xs| - 1]);
      assert forall i :: 0 <= i < |xs| - 1 ==> xs[..|xs| - 1][i] == xs[i];
    }
  }

  /** `xs[:k]`: Python's prefix slice, where a negative `k` drops that many from the end. */
  function Take<T>(xs: seq<T>, k: int): (r: seq<T>)
    ensures |r| <= |xs| && r == xs[..|r|]
  {
    if k >= 0 then (if k <= |xs| then xs[..k] else xs)
    else if |xs| + k >= 0 then xs[..|xs| + k] else []
  }

  /** The link of a tweet on twitter.com, as both Twitter adapters build it. */
  function StatusLink(user: string, id: string): string {
    "https://twitter.com/" + user + "/status/" + id
  }

  /** A status link splits at `/` into its scheme, host, user name, `status` and id. */
  lemma StatusLinkParts(user: string, id: string)
    requires '/' !in user && '/' !in id
    ensures Split(StatusLink(user, id), '/') == ["https:", "", "twitter.com", user, "status", id]
  {
    var parts := ["https:", "", "twitter.com", user, "status", id];
    StatusLinkJoin(user, id);
    assert '/' !in "https:" && '/' !in "twitter.com" && '/' !in "status";
    SplitJoin(parts, '/');
  }

  /** The six parts of a status link, joined with `/`, give the link back. */
  lemma StatusLinkJoin(user: string, id: string)
    ensures Join("/", ["https:", "", "twitter.com", user, "status", id]) == StatusLink(user, id)
  {
    var parts := ["https:", "", "twitter.com", user, "status", id];
    assert Join("/", parts[5..]) == id;
    assert Join("/", parts[4..]) == "status/" + id;
    assert Join("/", parts[3..]) == user + "/status/" + id;
    assert Join("/", parts[2..]) == "twitter.com/" + user + "/status/" + id;
    assert Join("/", parts[1..]) == "/twitter.com/" + user + "/status/" + id;
    assert "https:" + "/" + "/twitter.com/" == "https://twitter.com/";
  }

  /** Python's `reversed`, as a list. */
  function Reversed<T>(xs: seq<T>): (r: seq<T>)
    ensures |r| == |xs| && forall i :: 0 <= i < |xs| ==> r[i] == xs[|xs| - 1 - i]
  {
    if |xs| == 0 then [] else [xs[|xs| - 1]] + Reversed(xs[..|xs| - 1])
  }

  /** Reversing only reorders: every element occurs as often as before. */
  lemma {:induction false} ReversedPermutes<T>(xs: seq<T>)
    ensures multiset(Reversed(xs)) == multiset(xs)
    decreases |xs|
  {
    if |xs| > 0 {
      var init, last := xs[..|xs| - 1], xs[|xs| - 1];
      ReversedPermutes(init);
      assert Reversed(xs) == [last] + Reversed(init);
      assert xs == init + [last];
      assert multiset(Reversed(xs)) == multiset([last]) + multiset(Reversed(init));
    }
  }

  /** Reversing a list of numbers keeps its sum. */
  lemma {:induction false} SumReversed(xs: seq<int>)
    ensures Sum(Reversed(xs)) == Sum(xs)
    decreases |xs|
  {
    if |xs| > 0 {
      var init := xs[..|xs| - 1];
      SumReversed(init);
      SumAppend([xs[|xs| - 1]], Reversed(init));
      assert Sum([xs[|xs| - 1]]) == xs[|xs| - 1] by {
        assert [xs[|xs| - 1]][..0] == [];
      }
    }
  }
}


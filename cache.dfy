/**
 * server/util/cache.py: the key generator of the shared cache region. A cached function's
 * key is its namespace, a `|`, and the space-joined renderings of its positional arguments
 * (without the receiver of a method) followed by one `name_value` token per keyword
 * argument, in call order.
 */
module Cache {
  import opened Wrappers
  import opened Text

  /** The region's `redis_expiration_time`: three days, in seconds. */
  const REDIS_EXPIRATION_SECONDS: nat := 60 * 60 * 24 * 3

  /** The namespace: `module:name`, followed by `|ns` when a namespace is given. */
  function Namespace(moduleName: string, fnName: string, namespace: Option<string>): (r: string)
    ensures var qualified := moduleName + ":" + fnName;
      && |r| >= |qualified| && r[..|qualified|] == qualified
      && (namespace.None? <==> |r| == |qualified|)
      && (namespace.Some? ==> r[|qualified|..] == "|" + namespace.value)
  {
    match namespace
      case None => moduleName + ":" + fnName
      case Some(ns) => moduleName + ":" + fnName + "|" + ns
  }

  /** The namespace splits at `|` into the qualified function name and the given namespace, if any. */
  lemma NamespaceParts(moduleName: string, fnName: string, namespace: Option<string>)
    requires '|' !in moduleName && '|' !in fnName && (namespace.Some? ==> '|' !in namespace.value)
    ensures namespace.None? ==> Split(Namespace(moduleName, fnName, namespace), '|') == [moduleName + ":" + fnName]
    ensures namespace.Some? ==>
      Split(Namespace(moduleName, fnName, namespace), '|') == [moduleName + ":" + fnName, namespace.value]
  {
    var qualified := moduleName + ":" + fnName;
    assert '|' !in qualified;
    if namespace.Some? {
      assert Join("|", [qualified, namespace.value]) == Namespace(moduleName, fnName, namespace);
      SplitJoin([qualified, namespace.value], '|');
    } else {
      SplitJoin([qualified], '|');
    }
  }

  /** `has_self`: the function's first parameter is named `self` or `cls`. */
  predicate HasSelf(paramNames: seq<string>) {
    |paramNames| > 0 && paramNames[0] in ["self", "cls"]
  }

  /** The positional arguments that enter the key: all but the receiver when there is one. */
  function KeyArgs<T>(hasSelf: bool, args: seq<T>): (r: seq<T>)
    ensures !hasSelf ==> r == args
    ensures hasSelf ==> |r| == if |args| == 0 then 0 else |args| - 1
    ensures hasSelf && |args| > 0 ==> r == args[1..]
  {
    if hasSelf then args[(if |args| == 0 then 0 else 1)..] else args
  }

  /** The positional tokens: each argument rendered with `"{}".format`. */
  function PositionalTokens<T>(show: T -> string, args: seq<T>): (r: seq<string>)
    ensures |r| == |args| && forall i :: 0 <= i < |args| ==> r[i] == show(args[i])
  {
    seq(|args|, i requires 0 <= i < |args| => show(args[i]))
  }

  /** The keyword tokens `"{k}_{v}"`, in the order the keywords were passed. */
  function KeywordTokens<T>(show: T -> string, kw: seq<(string, T)>): (r: seq<string>)
    ensures |r| == |kw| && forall i :: 0 <= i < |kw| ==> r[i] == kw[i].0 + "_" + show(kw[i].1)
  {
    seq(|kw|, i requires 0 <= i < |kw| => kw[i].0 + "_" + show(kw[i].1))
  }

  /** Every token of a key, positional ones first. */
  function Tokens<T>(hasSelf: bool, show: T -> string, args: seq<T>, kw: seq<(string, T)>): seq<string> {
    PositionalTokens(show, KeyArgs(hasSelf, args)) + KeywordTokens(show, kw)
  }

  /** `generate_key`: the namespace, `|`, and the space-joined tokens. */
  function GenerateKey<T>(namespace: string, hasSelf: bool, show: T -> string, args: seq<T>, kw: seq<(string, T)>)
    : (key: string)
    ensures |key| >= |namespace| + 1 && key[..|namespace| + 1] == namespace + "|"
  {
    namespace + "|" + Join(" ", Tokens(hasSelf, show, args, kw))
  }

  /**
   * When no token contains a space, the key names its tokens: splitting what follows the
   * namespace at spaces gives back the positional tokens followed by the keyword tokens.
   */
  lemma KeyTokensRoundTrip<T>(namespace: string, hasSelf: bool, show: T -> string, args: seq<T>, kw: seq<(string, T)>)
    requires var tokens := Tokens(hasSelf, show, args, kw);
      |tokens| > 0 && forall i :: 0 <= i < |tokens| ==> ' ' !in tokens[i]
    ensures var key := GenerateKey(namespace, hasSelf, show, args, kw);
      Split(key[|namespace| + 1..], ' ') == Tokens(hasSelf, show, args, kw)
  {
    var key := GenerateKey(namespace, hasSelf, show, args, kw);
    assert key[|namespace| + 1..] == Join(" ", Tokens(hasSelf, show, args, kw));
    SplitJoin(Tokens(hasSelf, show, args, kw), ' ');
  }

  /** Positional tokens come before keyword tokens, with one space between the two groups. */
  lemma PositionalBeforeKeyword<T>(namespace: string, hasSelf: bool, show: T -> string, args: seq<T>, kw: seq<(string, T)>)
    requires |KeyArgs(hasSelf, args)| > 0 && |kw| > 0
    ensures GenerateKey(namespace, hasSelf, show, args, kw)
      == namespace + "|" + Join(" ", PositionalTokens(show, KeyArgs(hasSelf, args))) + " "
         + Join(" ", KeywordTokens(show, kw))
  {
    JoinAppend(" ", PositionalTokens(show, KeyArgs(hasSelf, args)), KeywordTokens(show, kw));
  }

  /**
   * What `_keyword_safe_key_generator` fixes when it wraps a function: the namespace, and
   * whether the function is a method, read off its parameter names.
   */
  datatype KeyGenerator = KeyGenerator(namespace: string, hasSelf: bool)

  /** `_keyword_safe_key_generator(namespace, fn)`, with `paramNames` the names `getargspec` lists. */
  function KeywordSafeKeyGenerator(moduleName: string, fnName: string, namespace: Option<string>,
                                   paramNames: seq<string>): (g: KeyGenerator)
    ensures g.namespace == Namespace(moduleName, fnName, namespace)
    ensures g.hasSelf <==> |paramNames| > 0 && (paramNames[0] == "self" || paramNames[0] == "cls")
  {
    KeyGenerator(Namespace(moduleName, fnName, namespace), HasSelf(paramNames))
  }

  /** The generated `generate_key`, applied to one call's arguments. */
  function KeyFor<T>(g: KeyGenerator, show: T -> string, args: seq<T>, kw: seq<(string, T)>): string {
    GenerateKey(g.namespace, g.hasSelf, show, args, kw)
  }

  /**
   * The receiver rule: for a function whose first parameter is `self` or `cls`, the first
   * positional argument is left out of the key, which is then the key of the other
   * arguments; for any other function every positional argument renders a token, the
   * first argument's token leading.
   */
  lemma ReceiverRule<T>(moduleName: string, fnName: string, namespace: Option<string>, paramNames: seq<string>,
                        show: T -> string, args: seq<T>, kw: seq<(string, T)>)
    requires |args| > 0
    ensures var g := KeywordSafeKeyGenerator(moduleName, fnName, namespace, paramNames);
      var isMethod := |paramNames| > 0 && (paramNames[0] in {"self", "cls"});
      && (isMethod <==> |Tokens(g.hasSelf, show, args, kw)| < |args| + |kw|)
      && (isMethod ==> KeyFor(g, show, args, kw) == GenerateKey(g.namespace, false, show, args[1..], kw))
      && (!isMethod ==> Tokens(g.hasSelf, show, args, kw)[0] == show(args[0]))
  {
    var g := KeywordSafeKeyGenerator(moduleName, fnName, namespace, paramNames);
    assert KeyArgs(g.hasSelf, args) == if g.hasSelf then args[1..] else args;
  }

  /** For a method, the receiver does not enter the key: two receivers with equal other arguments share it. */
  lemma ReceiverIrrelevant<T>(namespace: string, show: T -> string, r1: T, r2: T, rest: seq<T>, kw: seq<(string, T)>)
    ensures GenerateKey(namespace, true, show, [r1] + rest, kw) == GenerateKey(namespace, true, show, [r2] + rest, kw)
  {
    assert KeyArgs(true, [r1] + rest) == rest == KeyArgs(true, [r2] + rest);
  }

  /** With nothing after the receiver, the key is the namespace and `|`. */
  lemma EmptyKey<T>(namespace: string, show: T -> string, args: seq<T>)
    requires |args| <= 1
    ensures GenerateKey(namespace, true, show, args, []) == namespace + "|"
  {
    assert Tokens(true, show, args, []) == [];
  }

  function Identity(s: string): string {
    s
  }

  /** Keyword tokens are not sorted: passing the same keywords in another order gives another key. */
  lemma KeywordOrderMatters()
    ensures GenerateKey("ns", false, Identity, [], [("a", "1"), ("b", "2")]) == "ns|a_1 b_2"
    ensures GenerateKey("ns", false, Identity, [], [("b", "2"), ("a", "1")]) == "ns|b_2 a_1"
    ensures GenerateKey("ns", false, Identity, [], [("a", "1"), ("b", "2")])
      != GenerateKey("ns", false, Identity, [], [("b", "2"), ("a", "1")])
  {
    TwoKeywordsKey("ns", "a", "1", "b", "2");
    TwoKeywordsKey("ns", "b", "2", "a", "1");
    assert "ns|" + "a_1" + " " + "b_2" == "ns|a_1 b_2";
    assert "ns|" + "b_2" + " " + "a_1" == "ns|b_2 a_1";
    assert "ns|a_1 b_2"[3] != "ns|b_2 a_1"[3];
  }

  /** The key of two keyword arguments and nothing else: each as `name_value`, space-separated. */
  lemma TwoKeywordsKey(namespace: string, k1: string, v1: string, k2: string, v2: string)
    ensures GenerateKey(namespace, false, Identity, [], [(k1, v1), (k2, v2)])
      == namespace + "|" + (k1 + "_" + v1) + " " + (k2 + "_" + v2)
  {
    var none: seq<string> := [];
    assert PositionalTokens(Identity, KeyArgs(false, none)) == [];
    assert Tokens(false, Identity, none, [(k1, v1), (k2, v2)]) == [k1 + "_" + v1, k2 + "_" + v2];
    assert Join(" ", [k1 + "_" + v1, k2 + "_" + v2]) == (k1 + "_" + v1) + " " + Join(" ", [k2 + "_" + v2]);
  }

  /** The key is not injective: one argument `"a b"` and the two arguments `"a"`, `"b"` collide. */
  lemma KeyNotInjective(namespace: string)
    ensures GenerateKey(namespace, false, Identity, ["a b"], []) == GenerateKey(namespace, false, Identity, ["a", "b"], [])
  {
    assert Tokens(false, Identity, ["a b"], []) == ["a b"];
    assert Tokens(false, Identity, ["a", "b"], []) == ["a", "b"];
    assert Join(" ", ["a", "b"]) == "a" + " " + Join(" ", ["b"]);
  }
}

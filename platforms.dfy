/**
 * server/platforms/__init__.py: the advertised platform/source pairs and the factory that
 * picks the adapter for a pair. The two credentials the factory hands to its providers come
 * from the server's configuration and are parameters here.
 */
module Platforms {
  import opened Wrappers
  import opened Text
  import opened Common

  const PLATFORM_TWITTER := "twitter"
  const PLATFORM_REDDIT := "reddit"
  const PLATFORM_GENERIC := "generic_post"
  const PLATFORM_FACEBOOK := "facebook"
  const PLATFORM_YOUTUBE := "youtube"

  const PLATFORM_SOURCE_BRANDWATCH := "brandwatch"
  const PLATFORM_SOURCE_CSV := "csv"
  const PLATFORM_SOURCE_POSTGRES := "postgres"
  const PLATFORM_SOURCE_PUSHSHIFT := "pushshift"
  const PLATFORM_SOURCE_TWITTER := "twitter"
  const PLATFORM_SOURCE_CROWD_TANGLE := "crowd_tangle"
  const PLATFORM_SOURCE_YOUTUBE := "youtube"

  /** How a pair is shown to the user: `platform / source`. */
  function Advertised(platform: string, source: string): string {
    platform + " / " + source
  }

  /** `available_platforms`: the five advertised pairs, in this order. */
  function AvailablePlatforms(): (r: seq<string>)
    ensures |r| == 5
    ensures r[0] == Advertised(PLATFORM_TWITTER, PLATFORM_SOURCE_TWITTER)
    ensures r[1] == Advertised(PLATFORM_REDDIT, PLATFORM_SOURCE_PUSHSHIFT)
    ensures r[2] == Advertised(PLATFORM_TWITTER, PLATFORM_SOURCE_PUSHSHIFT)
    ensures r[3] == Advertised(PLATFORM_TWITTER, PLATFORM_SOURCE_BRANDWATCH)
    ensures r[4] == Advertised(PLATFORM_YOUTUBE, PLATFORM_SOURCE_YOUTUBE)
  {
    [Advertised(PLATFORM_TWITTER, PLATFORM_SOURCE_TWITTER),
     Advertised(PLATFORM_REDDIT, PLATFORM_SOURCE_PUSHSHIFT),
     Advertised(PLATFORM_TWITTER, PLATFORM_SOURCE_PUSHSHIFT),
     Advertised(PLATFORM_TWITTER, PLATFORM_SOURCE_BRANDWATCH),
     Advertised(PLATFORM_YOUTUBE, PLATFORM_SOURCE_YOUTUBE)]
  }

  /** The adapters the factory builds; YouTube's is only a tag here. */
  datatype Provider =
    | TwitterPushshiftProvider
    | TwitterTwitterProvider(bearerToken: Option<string>)
    | RedditPushshiftProvider
    | YouTubeYouTubeProvider(apiKey: Option<string>)

  /** The pair each adapter serves. */
  function Serves(p: Provider): (string, string) {
    match p
      case TwitterPushshiftProvider => ("twitter", "pushshift")
      case TwitterTwitterProvider(_) => ("twitter", "twitter")
      case RedditPushshiftProvider => ("reddit", "pushshift")
      case YouTubeYouTubeProvider(_) => ("youtube", "youtube")
  }

  /** The pairs the factory accepts. */
  const SUPPORTED: seq<(string, string)> :=
    [("twitter", "pushshift"), ("twitter", "twitter"), ("reddit", "pushshift"), ("youtube", "youtube")]

  /** `UnknownProviderException`'s message. */
  function UnknownProviderMessage(platform: string, source: string): (m: string)
    ensures |m| == 23 + |platform| + |source|
    ensures m[..17] == "Unknown provider " && m[17..17 + |platform|] == platform
    ensures m[17 + |platform|..23 + |platform|] == " from " && m[23 + |platform|..] == source
  {
    "Unknown provider " + platform + " from " + source
  }

  /**
   * `provider_for`: the adapter for the pair, given the Twitter bearer token or the YouTube
   * key it needs; any other pair raises `UnknownProviderException`. It accepts exactly the
   * four supported pairs, and builds the adapter that serves the pair asked for.
   */
  function ProviderFor(platform: string, source: string, twitterToken: Option<string>, youtubeKey: Option<string>)
    : (r: Result<Provider, Error>)
    ensures r.Success? <==> (platform, source) in SUPPORTED
    ensures r.Success? ==> Serves(r.value) == (platform, source)
    ensures r.Failure? ==> r.error == UnknownProvider(UnknownProviderMessage(platform, source))
    ensures r == Success(TwitterTwitterProvider(twitterToken)) <==> (platform, source) == ("twitter", "twitter")
    ensures r == Success(YouTubeYouTubeProvider(youtubeKey)) <==> (platform, source) == ("youtube", "youtube")
  {
    if platform == PLATFORM_TWITTER && source == PLATFORM_SOURCE_PUSHSHIFT then Success(TwitterPushshiftProvider)
    else if platform == PLATFORM_TWITTER && source == PLATFORM_SOURCE_TWITTER then Success(TwitterTwitterProvider(twitterToken))
    else if platform == PLATFORM_REDDIT && source == PLATFORM_SOURCE_PUSHSHIFT then Success(RedditPushshiftProvider)
    else if platform == PLATFORM_YOUTUBE && source == PLATFORM_SOURCE_YOUTUBE then Success(YouTubeYouTubeProvider(youtubeKey))
    else Failure(UnknownProvider(UnknownProviderMessage(platform, source)))
  }

  /** `_parse_query`'s reading of a pair: split at `/`, strip each part (server/api.py). */
  function ParsePlatform(s: string): (parts: seq<string>)
    ensures var pieces := Split(s, '/');
      |parts| == |pieces| && forall i :: 0 <= i < |parts| ==> parts[i] == Strip(pieces[i])
    ensures forall i :: 0 <= i < |parts| ==>
      '/' !in parts[i] && (|parts[i]| > 0 ==> !IsSpace(parts[i][0]) && !IsSpace(parts[i][|parts[i]| - 1]))
  {
    var pieces := Split(s, '/');
    seq(|pieces|, i requires 0 <= i < |pieces| => Strip(pieces[i]))
  }

  /** Reading an advertised string back gives its pair, for names without `/` or surrounding space. */
  lemma ParseAdvertised(platform: string, source: string)
    requires PlainName(platform) && PlainName(source)
    ensures ParsePlatform(Advertised(platform, source)) == [platform, source]
  {
    var pieces := [platform + " ", " " + source];
    assert Join("/", pieces) == Advertised(platform, source);
    SplitJoin(pieces, '/');
    StripPadded(platform);
    StripPadded(source);
  }

  /** The pairs behind the advertised strings, in order. */
  const ADVERTISED: seq<(string, string)> :=
    [(PLATFORM_TWITTER, PLATFORM_SOURCE_TWITTER), (PLATFORM_REDDIT, PLATFORM_SOURCE_PUSHSHIFT),
     (PLATFORM_TWITTER, PLATFORM_SOURCE_PUSHSHIFT), (PLATFORM_TWITTER, PLATFORM_SOURCE_BRANDWATCH),
     (PLATFORM_YOUTUBE, PLATFORM_SOURCE_YOUTUBE)]

  /** A platform or source name: non-empty, no `/`, no white space at either end. */
  predicate PlainName(s: string) {
    |s| > 0 && !IsSpace(s[0]) && !IsSpace(s[|s| - 1]) && '/' !in s
  }

  lemma AdvertisedNamesPlain()
    ensures forall i :: 0 <= i < |ADVERTISED| ==> PlainName(ADVERTISED[i].0) && PlainName(ADVERTISED[i].1)
  {
    assert PlainName(PLATFORM_TWITTER) && PlainName(PLATFORM_REDDIT) && PlainName(PLATFORM_YOUTUBE);
    assert PlainName(PLATFORM_SOURCE_TWITTER) && PlainName(PLATFORM_SOURCE_PUSHSHIFT);
    assert PlainName(PLATFORM_SOURCE_BRANDWATCH) && PlainName(PLATFORM_SOURCE_YOUTUBE);
  }

  /** Every advertised string reads back to its pair. */
  lemma AdvertisedReadsBack(i: nat)
    requires i < 5
    ensures ParsePlatform(AvailablePlatforms()[i]) == [ADVERTISED[i].0, ADVERTISED[i].1]
  {
    AdvertisedNamesPlain();
    ParseAdvertised(ADVERTISED[i].0, ADVERTISED[i].1);
  }

  /** All advertised pairs but twitter/brandwatch are served; that one is rejected. */
  lemma AdvertisedServed(i: nat, twitterToken: Option<string>, youtubeKey: Option<string>)
    requires i < 5
    ensures var parts := ParsePlatform(AvailablePlatforms()[i]);
      ProviderFor(parts[0], parts[1], twitterToken, youtubeKey).Success? <==> i != 3
  {
    AdvertisedReadsBack(i);
  }
}

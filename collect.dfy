/** The command-line driver: argument checks, the output file name, the
    dispatch to a platform collector and the loop over platforms with its
    summary. */
module Collect {
  import opened Wrappers
  import opened PyBuiltins
  import opened PyStr
  import opened Records
  import opened BaseCollector
  import opened Config
  import YT = YouTubeCollector
  import TW = TwitterCollector
  import RD = RedditCollector

  /** The parsed command line. `--keywords` takes one or more values;
      `--subreddit` defaults to 'all'. */
  datatype Args = Args(
    platform: string,
    mode: string,
    limit: nat,
    outputFormat: string,
    videoId: Option<string>,
    username: Option<string>,
    tweetId: Option<string>,
    postId: Option<string>,
    keywords: Option<seq<string>>,
    subreddit: string)
  {
    /** What argparse's `choices` already guarantee. */
    predicate WellFormed() {
      && (platform == "youtube" || platform == "twitter" || platform == "reddit" || platform == "all")
      && (mode == "id" || mode == "keywords")
      && (outputFormat == "jsonl" || outputFormat == "csv" || outputFormat == "parquet")
      && (keywords.Some? ==> keywords.value != [])
    }

    /** `args.keywords` is truthy. */
    predicate KeywordsGiven() {
      keywords.Some? && keywords.value != []
    }
  }

  const VideoIdRequired := "--video-id required for YouTube in ID mode"
  const TwitterIdRequired := "--username or --tweet-id required for Twitter in ID mode"
  const PostIdRequired := "--post-id required for Reddit in ID mode"
  const KeywordsRequired := "--keywords required for keywords mode"
  const SubredditRecommended := "--subreddit recommended for Reddit keywords mode"

  /** The errors `validate_args` collects, in check order. */
  function ArgErrors(args: Args): seq<string> {
    IdModeErrors(args) + KeywordModeErrors(args)
  }

  function IdModeErrors(args: Args): seq<string> {
    if args.mode != "id" then []
    else if args.platform == "youtube" && !Present(args.videoId) then [VideoIdRequired]
    else if args.platform == "twitter" && !Present(args.username) && !Present(args.tweetId) then [TwitterIdRequired]
    else if args.platform == "reddit" && !Present(args.postId) then [PostIdRequired]
    else []
  }

  function KeywordModeErrors(args: Args): seq<string> {
    if args.mode != "keywords" then []
    else
      (if !args.KeywordsGiven() then [KeywordsRequired] else [])
        + (if args.platform == "reddit" && args.subreddit == "" then [SubredditRecommended] else [])
  }

  /** What the checks demand, stated per platform and mode. */
  predicate Acceptable(args: Args) {
    && (args.mode == "id" && args.platform == "youtube" ==> Present(args.videoId))
    && (args.mode == "id" && args.platform == "twitter" ==> Present(args.username) || Present(args.tweetId))
    && (args.mode == "id" && args.platform == "reddit" ==> Present(args.postId))
    && (args.mode == "keywords" ==> args.KeywordsGiven())
    && (args.mode == "keywords" && args.platform == "reddit" ==> args.subreddit != "")
  }

  /** `validate_args`: `(True, [])` or `(False, errors)`. */
  method ValidateArgs(args: Args) returns (ok: bool, errors: seq<string>)
    ensures ok <==> Acceptable(args)
    ensures ok ==> errors == []
    ensures !ok ==> errors == ArgErrors(args) && errors != []
  {
    errors := [];
    if args.mode == "id" {
      if args.platform == "youtube" && !Present(args.videoId) {
        errors := errors + [VideoIdRequired];
      } else if args.platform == "twitter" && !Present(args.username) && !Present(args.tweetId) {
        errors := errors + [TwitterIdRequired];
      } else if args.platform == "reddit" && !Present(args.postId) {
        errors := errors + [PostIdRequired];
      }
    }
    if args.mode == "keywords" {
      if !(args.keywords.Some? && args.keywords.value != []) {
        errors := errors + [KeywordsRequired];
      }
      if args.platform == "reddit" && args.subreddit == "" {
        errors := errors + [SubredditRecommended];
      }
    }
    assert errors == ArgErrors(args);
    AcceptableIffNoErrors(args);
    if errors != [] {
      return false, errors;
    }
    return true, [];
  }

  /** The arguments pass iff no check fails. */
  lemma AcceptableIffNoErrors(args: Args)
    ensures ArgErrors(args) == [] <==> Acceptable(args)
  {
  }

  /** `--platform all --mode id` passes with no identifier at all. */
  lemma AllPlatformsIdModeUnchecked(args: Args)
    requires args.platform == "all" && args.mode == "id"
    ensures ArgErrors(args) == []
  {
  }

  /** Reddit keyword mode with neither keywords nor a subreddit reports
      both, keywords first. */
  lemma RedditKeywordErrorsInOrder(args: Args)
    requires args.platform == "reddit" && args.mode == "keywords" && args.keywords.None? && args.subreddit == ""
    ensures ArgErrors(args) == [KeywordsRequired, SubredditRecommended]
  {
  }

  /** The identifier part of the output name. */
  function Identifier(platform: string, mode: string, args: Args): string {
    if mode == "id" then
      if platform == "youtube" && Present(args.videoId) then Take(args.videoId.value, 8)
      else if platform == "twitter" && Present(args.username) then args.username.value
      else if platform == "twitter" && Present(args.tweetId) then Take(args.tweetId.value, 8)
      else if platform == "reddit" && Present(args.postId) then Take(args.postId.value, 8)
      else "unknown"
    else
      var base := if args.KeywordsGiven() then Join("_", Take(args.keywords.value, 2)) else "search";
      if platform == "reddit" && args.subreddit != "" then args.subreddit + "_" + base else base
  }

  /** `generate_output_filename`, with the clock reading as a parameter. */
  function OutputFilename(platform: string, mode: string, args: Args, timestamp: string): string {
    "data_" + platform + "_" + mode + "_" + Identifier(platform, mode, args) + "_" + timestamp + "." + args.outputFormat
  }

  /** The name starts with the platform and mode and ends with the
      timestamp and the format's extension. */
  lemma OutputFilenameShape(platform: string, mode: string, args: Args, timestamp: string)
    ensures var name := OutputFilename(platform, mode, args, timestamp);
      && StartsWith(name, "data_" + platform + "_" + mode + "_")
      && EndsWith(name, "_" + timestamp + "." + args.outputFormat)
  {
    var name := OutputFilename(platform, mode, args, timestamp);
    var head := "data_" + platform + "_" + mode + "_";
    var tail := "_" + timestamp + "." + args.outputFormat;
    assert name == head + Identifier(platform, mode, args) + tail;
  }

  /** In ID mode the identifier is an id cut to eight characters, except a
      Twitter username, which is kept whole and wins over a tweet id. */
  lemma IdModeIdentifier(platform: string, args: Args)
    ensures platform == "youtube" && Present(args.videoId) ==>
      Identifier(platform, "id", args) == Take(args.videoId.value, 8) && |Identifier(platform, "id", args)| <= 8
    ensures platform == "twitter" && Present(args.username) ==> Identifier(platform, "id", args) == args.username.value
    ensures platform == "twitter" && !Present(args.username) && Present(args.tweetId) ==>
      Identifier(platform, "id", args) == Take(args.tweetId.value, 8)
    ensures platform == "reddit" && Present(args.postId) ==>
      Identifier(platform, "id", args) == Take(args.postId.value, 8) && |Identifier(platform, "id", args)| <= 8
    ensures platform == "all" ==> Identifier(platform, "id", args) == "unknown"
  {
  }

  /** In keyword mode the identifier is the first two keywords joined by
      '_' (or 'search'), prefixed by the subreddit for Reddit. */
  lemma KeywordIdentifier(platform: string, args: Args, first: string, second: string, rest: seq<string>)
    requires args.keywords == Some([first, second] + rest)
    ensures platform != "reddit" ==> Identifier(platform, "keywords", args) == first + "_" + second
    ensures platform == "reddit" && args.subreddit != "" ==>
      Identifier(platform, "keywords", args) == args.subreddit + "_" + first + "_" + second
  {
    var kws := [first, second] + rest;
    assert Take(kws, 2) == [first, second];
    assert Join("_", [first, second]) == first + "_" + Join("_", [second]);
  }

  lemma NoKeywordsIdentifier(platform: string, args: Args)
    requires args.keywords.None? && platform != "reddit"
    ensures Identifier(platform, "keywords", args) == "search"
  {
  }

  /** A collector of any of the three platforms. */
  datatype AnyCollector =
    | YouTube(youtube: YT.YouTubeCollector)
    | Twitter(twitter: TW.TwitterCollector)
    | Reddit(reddit: RD.RedditCollector)
  {
    function Base(): Collector {
      match this
      case YouTube(c) => c.base
      case Twitter(c) => c.base
      case Reddit(c) => c.base
    }

    function Objects(): set<object> {
      match this
      case YouTube(c) => {c, c.base}
      case Twitter(c) => {c, c.base}
      case Reddit(c) => {c, c.base}
    }

    /** The collector is connected or its credentials will connect it. */
    predicate Ready()
      reads Objects()
    {
      match this
      case YouTube(c) => c.connected || Present(c.apiKey)
      case Twitter(c) => c.connected || c.CredentialsComplete()
      case Reddit(c) => c.connected || c.CredentialsComplete()
    }
  }

  /** What `collect_data` returns from YouTube. */
  function YouTubeItems(api: YT.YouTubeApi, ready: bool, args: Args): seq<Record> {
    if !ready then []
    else if args.mode == "id" then YT.VideoComments(api, args.videoId, args.limit)
    else YT.SearchAndCollectSpec(api, args.keywords.GetOr([]), args.limit)
  }

  /** What `collect_data` returns from Twitter: a username selects the
      timeline, otherwise the replies to the tweet id. */
  function TwitterItems(api: TW.TwitterApi, ready: bool, args: Args): seq<Record> {
    if !ready then []
    else if args.mode == "id" then
      if Present(args.username) then TW.ById(api, args.username, args.limit, "username").GetOr([])
      else TW.ById(api, args.tweetId, args.limit, "tweet_id").GetOr([])
    else AllFromKeywordSearch(TW.KeywordTweets(api, args.keywords.GetOr([]), args.limit), args.keywords.GetOr([]))
  }

  /** What `collect_data` returns from Reddit; the subreddit is always
      passed in keyword mode. */
  function RedditItems(api: RD.RedditApi, ready: bool, args: Args): seq<Record> {
    if !ready then []
    else if args.mode == "id" then RD.DirectPostComments(api, args.postId, args.limit).GetOr([])
    else
      var kws := args.keywords.GetOr([]);
      RD.FromSubredditSearch(RD.SearchAndCollectSpec(api, args.subreddit, kws, args.limit), kws, args.subreddit)
  }

  function Outcome(c: AnyCollector, ready: bool, args: Args): seq<Record> {
    match c
    case YouTube(y) => YouTubeItems(y.api, ready, args)
    case Twitter(t) => TwitterItems(t.api, ready, args)
    case Reddit(r) => RedditItems(r.api, ready, args)
  }

  /** `collect_data`: dispatch on the mode and, for Twitter, on whether a
      username was given; the records are also added to the collector. */
  method CollectData(c: AnyCollector, args: Args) returns (items: seq<Record>)
    requires args.mode == "id" || args.mode == "keywords"
    modifies c.Objects()
    ensures items == Outcome(c, old(c.Ready()), args)
    ensures c.Base().collectedData == old(c.Base().collectedData) + items
  {
    match c
    case YouTube(y) =>
      if args.mode == "id" {
        items := y.CollectById(args.videoId, args.limit);
      } else {
        items := y.CollectByKeywords(args.keywords.GetOr([]), args.limit);
      }
    case Twitter(t) =>
      if args.mode == "id" {
        if Present(args.username) {
          items := t.CollectById(args.username, args.limit, "username");
        } else {
          items := t.CollectById(args.tweetId, args.limit, "tweet_id");
        }
      } else {
        items := t.CollectByKeywords(args.keywords.GetOr([]), args.limit);
      }
    case Reddit(r) =>
      if args.mode == "id" {
        items := r.CollectById(args.postId, args.limit);
      } else {
        items := r.CollectByKeywords(args.keywords.GetOr([]), args.limit, Some(args.subreddit));
      }
  }

  /** The clients the collectors are built with. */
  datatype Apis = Apis(youtube: YT.YouTubeApi, twitter: TW.TwitterApi, reddit: RD.RedditApi)

  /** 'all' expands to the three platforms in this order. */
  function Platforms(platform: string): (ps: seq<string>)
    ensures platform == "all" ==> ps == ["youtube", "twitter", "reddit"]
    ensures platform != "all" ==> ps == [platform]
  {
    if platform != "all" then [platform] else ["youtube", "twitter", "reddit"]
  }

  /** What a fresh collector for `platform` returns. */
  function PlatformItems(platform: string, creds: Credentials, apis: Apis, args: Args): seq<Record> {
    if platform == "youtube" then YouTubeItems(apis.youtube, creds.YouTubeComplete(), args)
    else if platform == "twitter" then TwitterItems(apis.twitter, creds.TwitterComplete(), args)
    else RedditItems(apis.reddit, creds.RedditComplete(), args)
  }

  /** The statistics kept: one entry per platform that collected something,
      in platform order. */
  function PlatformStats(platforms: seq<string>, creds: Credentials, apis: Apis, args: Args, timestamp: string): seq<Stats> {
    if platforms == [] then []
    else
      var before := PlatformStats(platforms[..|platforms| - 1], creds, apis, args, timestamp);
      var p := platforms[|platforms| - 1];
      var items := PlatformItems(p, creds, apis, args);
      if |items| > 0 then before + [Stats(p, |items|, |SourceKeys(items)|, timestamp)] else before
  }

  /** The paths written, one per platform that collected something. */
  function OutputPaths(platforms: seq<string>, creds: Credentials, apis: Apis, args: Args, fileStamp: string): seq<string> {
    if platforms == [] then []
    else
      var before := OutputPaths(platforms[..|platforms| - 1], creds, apis, args, fileStamp);
      var p := platforms[|platforms| - 1];
      if |PlatformItems(p, creds, apis, args)| > 0 then before + ["collected_data/" + OutputFilename(p, args.mode, args, fileStamp)] else before
  }

  /** `sum(stats['total_collected'] for stats in all_stats)` */
  function Total(stats: seq<Stats>): nat {
    if stats == [] then 0 else Total(stats[..|stats| - 1]) + stats[|stats| - 1].totalCollected
  }

  /** The number of records the platforms collect. */
  function ItemCount(platforms: seq<string>, creds: Credentials, apis: Apis, args: Args): nat {
    if platforms == [] then 0
    else ItemCount(platforms[..|platforms| - 1], creds, apis, args) + |PlatformItems(platforms[|platforms| - 1], creds, apis, args)|
  }

  /** How a run ends: argument errors and a configuration error stop it
      before anything is collected. */
  datatype RunOutcome =
    | ArgumentErrors(errors: seq<string>)
    | ConfigurationError(message: string)
    | Summary(stats: seq<Stats>, total: nat, outputPaths: seq<string>)

  function ExpectedRun(args: Args, creds: Credentials, apis: Apis, fileStamp: string, statsStamp: string): RunOutcome {
    if ArgErrors(args) != [] then ArgumentErrors(ArgErrors(args))
    else if MissingVariables(creds) != [] then ConfigurationError(MessagePrefix + Join(", ", MissingVariables(creds)))
    else
      var platforms := Platforms(args.platform);
      var stats := PlatformStats(platforms, creds, apis, args, statsStamp);
      Summary(stats, Total(stats), OutputPaths(platforms, creds, apis, args, fileStamp))
  }

  /** The summary total counts every record collected: platforms that
      collected nothing add nothing. */
  lemma {:induction false} TotalIsItemCount(platforms: seq<string>, creds: Credentials, apis: Apis, args: Args, timestamp: string)
    ensures Total(PlatformStats(platforms, creds, apis, args, timestamp)) == ItemCount(platforms, creds, apis, args)
  {
    if platforms != [] {
      var prefix := platforms[..|platforms| - 1];
      TotalIsItemCount(prefix, creds, apis, args, timestamp);
      var before := PlatformStats(prefix, creds, apis, args, timestamp);
      var p := platforms[|platforms| - 1];
      var items := PlatformItems(p, creds, apis, args);
      if |items| > 0 {
        var after := before + [Stats(p, |items|, |SourceKeys(items)|, timestamp)];
        assert after[..|after| - 1] == before;
      }
    }
  }

  /** Every statistics entry is of a platform that collected something,
      with no more distinct sources than records. */
  lemma {:induction false} StatsEntriesNonEmpty(platforms: seq<string>, creds: Credentials, apis: Apis, args: Args, timestamp: string)
    ensures forall s :: s in PlatformStats(platforms, creds, apis, args, timestamp) ==>
      s.platform in platforms && 0 < s.totalCollected && s.uniqueSources <= s.totalCollected
  {
    if platforms != [] {
      var prefix := platforms[..|platforms| - 1];
      StatsEntriesNonEmpty(prefix, creds, apis, args, timestamp);
      var items := PlatformItems(platforms[|platforms| - 1], creds, apis, args);
      SourceKeysBound(items);
    }
  }

  /** Once the configuration passes, every collector connects: each
      platform's result is its collection as if already connected. */
  lemma ConfigPassedMeansReady(creds: Credentials)
    requires MissingVariables(creds) == []
    ensures creds.YouTubeComplete() && creds.TwitterComplete() && creds.RedditComplete()
  {
    ValidIffComplete(creds);
  }

  /** A fresh collector for the platform. */
  method GetCollector(platform: string, creds: Credentials, apis: Apis) returns (c: AnyCollector)
    requires platform == "youtube" || platform == "twitter" || platform == "reddit"
    ensures fresh(c.Objects()) && c.Base().collectedData == []
    ensures c.Base().platform == platform
    ensures forall args :: Outcome(c, c.Ready(), args) == PlatformItems(platform, creds, apis, args)
  {
    if platform == "youtube" {
      var y := new YT.YouTubeCollector(creds.youtubeApiKey, apis.youtube);
      c := YouTube(y);
    } else if platform == "twitter" {
      var t := new TW.TwitterCollector(creds.twitterApiKey, creds.twitterApiSecret, creds.twitterAccessToken, creds.twitterAccessSecret, apis.twitter);
      c := Twitter(t);
    } else {
      var r := new RD.RedditCollector(creds.redditClientId, creds.redditClientSecret, creds.redditUserAgent, apis.reddit);
      c := Reddit(r);
    }
  }

  /** `get_collector` followed by `collect_data`: what a fresh collector
      collects, and the base collector that now holds exactly that. */
  method CollectFresh(platform: string, creds: Credentials, apis: Apis, args: Args) returns (base: Collector, items: seq<Record>)
    requires platform == "youtube" || platform == "twitter" || platform == "reddit"
    requires args.mode == "id" || args.mode == "keywords"
    ensures fresh(base)
    ensures items == PlatformItems(platform, creds, apis, args)
    ensures base.platform == platform && base.collectedData == items
  {
    var collector := GetCollector(platform, creds, apis);
    ghost var expected := PlatformItems(platform, creds, apis, args);
    assert Outcome(collector, collector.Ready(), args) == expected;
    base := collector.Base();
    items := CollectData(collector, args);
  }

  /** One turn of the platform loop: a fresh collector collects; when it
      found something its data is saved and its statistics are taken. */
  method CollectPlatform(platform: string, creds: Credentials, apis: Apis, args: Args, fileStamp: string, statsStamp: string)
    returns (stats: Option<Stats>, path: Option<string>)
    requires platform == "youtube" || platform == "twitter" || platform == "reddit"
    requires args.mode == "id" || args.mode == "keywords"
    ensures var items := PlatformItems(platform, creds, apis, args);
      && (stats.Some? <==> |items| > 0) && (path.Some? <==> |items| > 0)
      && (stats.Some? ==> stats.value == Stats(platform, |items|, |SourceKeys(items)|, statsStamp))
      && (path.Some? ==> path.value == "collected_data/" + OutputFilename(platform, args.mode, args, fileStamp))
  {
    var base, items := CollectFresh(platform, creds, apis, args);
    if |items| > 0 {
      var outputFile := OutputFilename(platform, args.mode, args, fileStamp);
      path := Some("collected_data/" + outputFile);
      var saved := base.SaveData(args.outputFormat, true);
      var s := base.GetStats(statsStamp);
      assert s == Stats(platform, |items|, |SourceKeys(items)|, statsStamp);
      stats := Some(s);
    } else {
      stats, path := None, None;
    }
  }

  /** `main` after parsing: validate, then collect platform by platform,
      saving and keeping statistics for each platform that collected
      something. */
  method RunCollection(args: Args, creds: Credentials, apis: Apis, fileStamp: string, statsStamp: string) returns (outcome: RunOutcome)
    requires args.WellFormed()
    ensures outcome == ExpectedRun(args, creds, apis, fileStamp, statsStamp)
  {
    var isValid, errors := ValidateArgs(args);
    AcceptableIffNoErrors(args);
    if !isValid {
      return ArgumentErrors(errors);
    }
    var configError := ValidateConfig(creds);
    if configError.Some? {
      return ConfigurationError(configError.value);
    }
    var platforms := if args.platform != "all" then [args.platform] else ["youtube", "twitter", "reddit"];
    assert platforms == Platforms(args.platform);
    var allStats, paths := CollectAll(platforms, creds, apis, args, fileStamp, statsStamp);
    var total := SummaryTotal(allStats);
    return Summary(allStats, total, paths);
  }

  /** The platform loop of `main`: the statistics and output path of each
      platform that collected something, in platform order. */
  method CollectAll(platforms: seq<string>, creds: Credentials, apis: Apis, args: Args, fileStamp: string, statsStamp: string)
    returns (allStats: seq<Stats>, paths: seq<string>)
    requires forall i :: 0 <= i < |platforms| ==> platforms[i] in {"youtube", "twitter", "reddit"}
    requires args.mode == "id" || args.mode == "keywords"
    ensures allStats == PlatformStats(platforms, creds, apis, args, statsStamp)
    ensures paths == OutputPaths(platforms, creds, apis, args, fileStamp)
  {
    allStats, paths := [], [];
    var k := 0;
    while k < |platforms|
      invariant 0 <= k <= |platforms|
      invariant allStats == PlatformStats(platforms[..k], creds, apis, args, statsStamp)
      invariant paths == OutputPaths(platforms[..k], creds, apis, args, fileStamp)
    {
      var stats, path := CollectPlatform(platforms[k], creds, apis, args, fileStamp, statsStamp);
      PlatformStep(platforms, k, creds, apis, args, fileStamp, statsStamp);
      if stats.Some? {
        allStats := allStats + [stats.value];
      }
      if path.Some? {
        paths := paths + [path.value];
      }
      k := k + 1;
    }
    assert platforms[..k] == platforms;
  }

  /** The statistics and paths after one more platform. */
  lemma PlatformStep(platforms: seq<string>, k: nat, creds: Credentials, apis: Apis, args: Args, fileStamp: string, statsStamp: string)
    requires k < |platforms|
    ensures var items := PlatformItems(platforms[k], creds, apis, args);
      && PlatformStats(platforms[..k + 1], creds, apis, args, statsStamp)
         == PlatformStats(platforms[..k], creds, apis, args, statsStamp)
            + (if |items| > 0 then [Stats(platforms[k], |items|, |SourceKeys(items)|, statsStamp)] else [])
      && OutputPaths(platforms[..k + 1], creds, apis, args, fileStamp)
         == OutputPaths(platforms[..k], creds, apis, args, fileStamp)
            + (if |items| > 0 then ["collected_data/" + OutputFilename(platforms[k], args.mode, args, fileStamp)] else [])
  {
    assert platforms[..k + 1][..k] == platforms[..k];
  }

  /** The total of the summary. */
  method SummaryTotal(allStats: seq<Stats>) returns (total: nat)
    ensures total == Total(allStats)
  {
    total := 0;
    var i := 0;
    while i < |allStats|
      invariant 0 <= i <= |allStats|
      invariant total == Total(allStats[..i])
    {
      total := total + allStats[i].totalCollected;
      i := i + 1;
      assert allStats[..i][..i - 1] == allStats[..i - 1];
    }
    assert allStats[..i] == allStats;
  }
}

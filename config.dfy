/** The API credentials read from the environment and the check that all of
    them are set. */
module Config {
  import opened Wrappers
  import opened PyStr

  /** The eight variables as `os.getenv` returns them (`None` when unset). */
  datatype Credentials = Credentials(
    youtubeApiKey: Option<string>,
    twitterApiKey: Option<string>,
    twitterApiSecret: Option<string>,
    twitterAccessToken: Option<string>,
    twitterAccessSecret: Option<string>,
    redditClientId: Option<string>,
    redditClientSecret: Option<string>,
    redditUserAgent: Option<string>)
  {
    predicate YouTubeComplete() {
      Present(youtubeApiKey)
    }

    /** `all(twitter_creds)` */
    predicate TwitterComplete() {
      Present(twitterApiKey) && Present(twitterApiSecret) && Present(twitterAccessToken) && Present(twitterAccessSecret)
    }

    /** `all(reddit_creds)` */
    predicate RedditComplete() {
      Present(redditClientId) && Present(redditClientSecret) && Present(redditUserAgent)
    }
  }

  const YouTubeNames: seq<string> := ["YOUTUBE_API_KEY"]
  const TwitterNames: seq<string> := ["TWITTER_API_KEY", "TWITTER_API_SECRET", "TWITTER_ACCESS_TOKEN", "TWITTER_ACCESS_SECRET"]
  const RedditNames: seq<string> := ["REDDIT_CLIENT_ID", "REDDIT_CLIENT_SECRET", "REDDIT_USER_AGENT"]

  /** Every variable name, in the order the check reports them. */
  const AllNames: seq<string> := YouTubeNames + TwitterNames + RedditNames

  const MessagePrefix: string := "Missing environment variables: "

  /** Whether a name's credential group is incomplete: a name is reported
      exactly when its group is. */
  predicate GroupIncomplete(c: Credentials, name: string) {
    || (name in YouTubeNames && !c.YouTubeComplete())
    || (name in TwitterNames && !c.TwitterComplete())
    || (name in RedditNames && !c.RedditComplete())
  }

  /** The names of `names` whose group is incomplete, in order; a reference
      for the list `validate_config` builds group by group. */
  function Select(c: Credentials, names: seq<string>): (selected: seq<string>)
    ensures |selected| <= |names|
  {
    if names == [] then []
    else Select(c, names[..|names| - 1]) + (if GroupIncomplete(c, names[|names| - 1]) then [names[|names| - 1]] else [])
  }

  /** The missing list `validate_config` builds. */
  function MissingVariables(c: Credentials): (missing: seq<string>) {
    (if c.YouTubeComplete() then [] else YouTubeNames)
      + (if c.TwitterComplete() then [] else TwitterNames)
      + (if c.RedditComplete() then [] else RedditNames)
  }

  /** `validate_config`: `None` when nothing is missing, otherwise the
      message of the `ValueError`. */
  method ValidateConfig(c: Credentials) returns (error: Option<string>)
    ensures error.None? <==> MissingVariables(c) == []
    ensures error.Some? ==> error.value == MessagePrefix + Join(", ", MissingVariables(c))
  {
    var missing: seq<string> := [];
    if !Present(c.youtubeApiKey) {
      missing := missing + ["YOUTUBE_API_KEY"];
    }
    var twitterCreds := [c.twitterApiKey, c.twitterApiSecret, c.twitterAccessToken, c.twitterAccessSecret];
    assert AllPresent(twitterCreds) <==> c.TwitterComplete() by {
      assert twitterCreds[0] == c.twitterApiKey && twitterCreds[1] == c.twitterApiSecret;
      assert twitterCreds[2] == c.twitterAccessToken && twitterCreds[3] == c.twitterAccessSecret;
    }
    if !AllPresent(twitterCreds) {
      missing := missing + ["TWITTER_API_KEY", "TWITTER_API_SECRET", "TWITTER_ACCESS_TOKEN", "TWITTER_ACCESS_SECRET"];
    }
    var redditCreds := [c.redditClientId, c.redditClientSecret, c.redditUserAgent];
    assert AllPresent(redditCreds) <==> c.RedditComplete() by {
      assert redditCreds[0] == c.redditClientId && redditCreds[1] == c.redditClientSecret && redditCreds[2] == c.redditUserAgent;
    }
    if !AllPresent(redditCreds) {
      missing := missing + ["REDDIT_CLIENT_ID", "REDDIT_CLIENT_SECRET", "REDDIT_USER_AGENT"];
    }
    assert missing == MissingVariables(c);
    if missing != [] {
      return Some(MessagePrefix + Join(", ", missing));
    }
    return None;
  }

  /** Python's `all` over optional strings: every one set and non-empty. */
  function AllPresent(values: seq<Option<string>>): (all: bool)
    ensures all <==> forall i :: 0 <= i < |values| ==> Present(values[i])
  {
    if values == [] then true else Present(values[0]) && AllPresent(values[1..])
  }

  /** The group-by-group list is the ordered selection of the names whose
      group is incomplete. */
  lemma MissingIsOrderedSelection(c: Credentials)
    ensures MissingVariables(c) == Select(c, AllNames)
  {
    SelectAppend(c, YouTubeNames, TwitterNames);
    SelectAppend(c, YouTubeNames + TwitterNames, RedditNames);
    SelectYouTube(c);
    SelectTwitter(c);
    SelectReddit(c);
  }

  lemma SelectYouTube(c: Credentials)
    ensures Select(c, YouTubeNames) == if c.YouTubeComplete() then [] else YouTubeNames
  {
    SelectGroup(c, YouTubeNames, !c.YouTubeComplete());
  }

  lemma SelectTwitter(c: Credentials)
    ensures Select(c, TwitterNames) == if c.TwitterComplete() then [] else TwitterNames
  {
    SelectGroup(c, TwitterNames, !c.TwitterComplete());
  }

  lemma SelectReddit(c: Credentials)
    ensures Select(c, RedditNames) == if c.RedditComplete() then [] else RedditNames
  {
    SelectGroup(c, RedditNames, !c.RedditComplete());
  }

  lemma {:induction false} SelectAppend(c: Credentials, a: seq<string>, b: seq<string>)
    ensures Select(c, a + b) == Select(c, a) + Select(c, b)
    decreases |b|
  {
    if b != [] {
      var b' := b[..|b| - 1];
      assert (a + b)[..|a + b| - 1] == a + b';
      SelectAppend(c, a, b');
    } else {
      assert a + b == a;
    }
  }

  /** Within one group every name is selected, or none is. */
  lemma {:induction false} SelectGroup(c: Credentials, names: seq<string>, incomplete: bool)
    requires forall i :: 0 <= i < |names| ==> GroupIncomplete(c, names[i]) == incomplete
    ensures Select(c, names) == if incomplete then names else []
  {
    if names != [] {
      var prefix := names[..|names| - 1];
      forall i | 0 <= i < |prefix| ensures GroupIncomplete(c, prefix[i]) == incomplete {
        assert prefix[i] == names[i];
      }
      SelectGroup(c, prefix, incomplete);
    }
  }

  /** A name is reported iff its group is incomplete, and nothing outside
      the eight names is. */
  lemma MissingIffGroupIncomplete(c: Credentials, name: string)
    ensures name in MissingVariables(c) <==> name in AllNames && GroupIncomplete(c, name)
  {
  }

  /** The configuration passes iff all three groups are complete. */
  lemma ValidIffComplete(c: Credentials)
    ensures MissingVariables(c) == [] <==> c.YouTubeComplete() && c.TwitterComplete() && c.RedditComplete()
  {
  }

  /** With nothing set, every name is reported, in order. */
  lemma NothingSet()
    ensures MissingVariables(Credentials(None, None, None, None, None, None, None, None)) == AllNames
    ensures |AllNames| == 8
  {
  }

  /** An empty string counts as unset, and one missing Twitter credential
      reports all four Twitter names and nothing else. */
  lemma OneTwitterSecretEmpty(key: string)
    requires key != ""
    ensures var c := Credentials(Some(key), Some(key), Some(""), Some(key), Some(key), Some(key), Some(key), Some(key));
      MissingVariables(c) == TwitterNames
  {
  }
}

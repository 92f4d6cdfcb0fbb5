/** The Twitter collector: a user's timeline, the replies to one tweet, or
    the tweets a keyword search finds. */
module TwitterCollector {
  import opened Wrappers
  import opened PyBuiltins
  import opened Records
  import opened BaseCollector

  /** The fields of a status the collector reads. */
  datatype Tweet = Tweet(
    idStr: string,
    fullText: string,
    screenName: string,
    inReplyToStatusIdStr: Option<string>,
    inReplyToUserIdStr: Option<string>)

  /** What a cursor yields: the statuses delivered before it ended, and
      whether it ended by raising. */
  datatype TweetStream = TweetStream(tweets: seq<Tweet>, raised: bool)

  /** `get_status`: the tweet's id and its author's id, or an exception. */
  datatype StatusResponse = Status(idStr: string, userIdStr: string) | StatusError

  /** The Twitter API as the collector sees it: `searchTweets` is asked for
      (query, language), `userTimeline` for a screen name. */
  datatype TwitterApi = TwitterApi(
    getStatus: string -> StatusResponse,
    searchTweets: (string, Option<string>) -> TweetStream,
    userTimeline: string -> TweetStream)

  /** `Cursor(...).items(n)`: at most `n` statuses; a stream that raises
      ends the loop with the statuses already yielded. */
  function Items(stream: TweetStream, n: nat): (tweets: seq<Tweet>)
    ensures |tweets| == Min(n, |stream.tweets|) && tweets == stream.tweets[..|tweets|]
  {
    Take(stream.tweets, n)
  }

  /** The reply test of `_get_tweet_replies`. */
  predicate IsReplyTo(t: Tweet, tweetId: string, authorId: string) {
    t.inReplyToStatusIdStr == Some(tweetId) || t.inReplyToUserIdStr == Some(authorId)
  }

  function ReplyRecord(tweetId: string, t: Tweet): Record {
    Record("twitter", t.idStr, t.fullText, t.screenName, None, Some(tweetId), None, Some(true), None, None, None)
  }

  /** The records of the statuses that reply to the tweet or its author, in
      order. */
  function ReplyRecords(tweetId: string, authorId: string, tweets: seq<Tweet>): (records: seq<Record>)
    ensures |records| <= |tweets|
  {
    if tweets == [] then []
    else
      var last := tweets[|tweets| - 1];
      ReplyRecords(tweetId, authorId, tweets[..|tweets| - 1]) + (if IsReplyTo(last, tweetId, authorId) then [ReplyRecord(tweetId, last)] else [])
  }

  /** A status is kept iff it replies to the tweet or to its author, and
      every kept record is a reply to the tweet. */
  lemma {:induction false} ReplyRecordsSpec(tweetId: string, authorId: string, tweets: seq<Tweet>)
    ensures forall i :: 0 <= i < |tweets| && IsReplyTo(tweets[i], tweetId, authorId) ==>
      ReplyRecord(tweetId, tweets[i]) in ReplyRecords(tweetId, authorId, tweets)
    ensures forall r :: r in ReplyRecords(tweetId, authorId, tweets) ==>
      exists i :: 0 <= i < |tweets| && IsReplyTo(tweets[i], tweetId, authorId) && r == ReplyRecord(tweetId, tweets[i])
    ensures forall r :: r in ReplyRecords(tweetId, authorId, tweets) ==>
      r.source == "twitter" && r.isReply == Some(true) && r.tweetId == Some(tweetId)
  {
    if tweets != [] {
      var prefix := tweets[..|tweets| - 1];
      ReplyRecordsSpec(tweetId, authorId, prefix);
      forall i | 0 <= i < |prefix| ensures prefix[i] == tweets[i] { }
    }
  }

  /** `_get_tweet_replies`: the search for the conversation is cut to
      `maxReplies` statuses and then filtered; a failed lookup of the tweet
      (or no tweet id at all) leaves nothing. */
  function Replies(api: TwitterApi, tweetId: Option<string>, maxReplies: nat): (records: seq<Record>)
    ensures |records| <= maxReplies
  {
    if tweetId.None? then []
    else
      match api.getStatus(tweetId.value)
      case StatusError => []
      case Status(conversationId, authorId) =>
        ReplyRecords(tweetId.value, authorId, Items(api.searchTweets("conversation_id:" + conversationId, None), maxReplies))
  }

  function KeywordRecord(t: Tweet): Record {
    Record("twitter", t.idStr, t.fullText, t.screenName, None, None, None, Some(false), None, None, None)
  }

  /** The records of one keyword's statuses, in order. */
  function KeywordRecords(tweets: seq<Tweet>): (records: seq<Record>)
    ensures |records| == |tweets|
    ensures forall i :: 0 <= i < |tweets| ==> records[i].id == tweets[i].idStr && records[i].isReply == Some(false)
  {
    seq(|tweets|, i requires 0 <= i < |tweets| => KeywordRecord(tweets[i]))
  }

  /** `_search_tweets_by_keywords`: each keyword's Arabic-language search
      gives at most `maxTweets` statuses; a keyword whose stream raises keeps
      what it yielded and the next keyword is searched all the same. */
  function KeywordTweets(api: TwitterApi, keywords: seq<string>, maxTweets: nat): seq<Record> {
    if keywords == [] then []
    else
      KeywordTweets(api, keywords[..|keywords| - 1], maxTweets)
        + KeywordRecords(Items(api.searchTweets(keywords[|keywords| - 1], Some("ar")), maxTweets))
  }

  lemma KeywordTweetsStep(api: TwitterApi, keywords: seq<string>, k: nat, maxTweets: nat)
    requires k < |keywords|
    ensures KeywordTweets(api, keywords[..k + 1], maxTweets)
      == KeywordTweets(api, keywords[..k], maxTweets) + KeywordRecords(Items(api.searchTweets(keywords[k], Some("ar")), maxTweets))
  {
    assert keywords[..k + 1][..k] == keywords[..k];
  }

  /** The loop over one keyword's stream: each status becomes a record,
      appended in stream order. */
  method AppendKeywordRecords(stream: seq<Tweet>, before: seq<Record>) returns (tweets: seq<Record>)
    ensures tweets == before + KeywordRecords(stream)
  {
    tweets := before;
    var i := 0;
    while i < |stream|
      invariant 0 <= i <= |stream|
      invariant tweets == before + KeywordRecords(stream[..i])
    {
      tweets := tweets + [KeywordRecord(stream[i])];
      i := i + 1;
      assert KeywordRecords(stream[..i]) == KeywordRecords(stream[..i - 1]) + [KeywordRecord(stream[i - 1])];
    }
    assert stream[..i] == stream;
  }

  /** The cap is per keyword: at most `len(keywords) * maxTweets` in all. */
  lemma {:induction false} KeywordTweetsBound(api: TwitterApi, keywords: seq<string>, maxTweets: nat)
    ensures |KeywordTweets(api, keywords, maxTweets)| <= |keywords| * maxTweets
  {
    if keywords != [] {
      KeywordTweetsBound(api, keywords[..|keywords| - 1], maxTweets);
      MulStep(|keywords|, maxTweets);
    }
  }

  /** There is no global cap: when every search has `maxTweets` statuses to
      give, the total is exactly `len(keywords) * maxTweets`. */
  lemma {:induction false} NoGlobalCap(api: TwitterApi, keywords: seq<string>, maxTweets: nat)
    requires forall k :: 0 <= k < |keywords| ==> |api.searchTweets(keywords[k], Some("ar")).tweets| >= maxTweets
    ensures |KeywordTweets(api, keywords, maxTweets)| == |keywords| * maxTweets
  {
    if keywords != [] {
      var prefix := keywords[..|keywords| - 1];
      forall k | 0 <= k < |prefix|
        ensures |api.searchTweets(prefix[k], Some("ar")).tweets| >= maxTweets
      {
        assert prefix[k] == keywords[k];
      }
      NoGlobalCap(api, prefix, maxTweets);
      MulStep(|keywords|, maxTweets);
    }
  }

  /** Whether a search raises changes nothing but its own statuses: two
      APIs whose searches yield the same statuses give the same result,
      however their streams end. */
  lemma {:induction false} FailureConfinedToKeyword(api1: TwitterApi, api2: TwitterApi, keywords: seq<string>, maxTweets: nat)
    requires forall k :: 0 <= k < |keywords| ==>
      api1.searchTweets(keywords[k], Some("ar")).tweets == api2.searchTweets(keywords[k], Some("ar")).tweets
    ensures KeywordTweets(api1, keywords, maxTweets) == KeywordTweets(api2, keywords, maxTweets)
  {
    if keywords != [] {
      var prefix := keywords[..|keywords| - 1];
      forall k | 0 <= k < |prefix|
        ensures api1.searchTweets(prefix[k], Some("ar")).tweets == api2.searchTweets(prefix[k], Some("ar")).tweets
      {
        assert prefix[k] == keywords[k];
      }
      FailureConfinedToKeyword(api1, api2, prefix, maxTweets);
    }
  }

  /** The record of a timeline status: a reply iff it answers some status. */
  function TimelineRecord(t: Tweet): (r: Record)
    ensures r.id == t.idStr && r.isReply == Some(t.inReplyToStatusIdStr.Some?)
  {
    Record("twitter", t.idStr, t.fullText, t.screenName, None, None, None, Some(t.inReplyToStatusIdStr.Some?), None, None, None)
  }

  /** `_get_user_tweets`: the first `maxTweets` statuses of the timeline,
      replies included. */
  function UserTweets(api: TwitterApi, username: Option<string>, maxTweets: nat): (records: seq<Record>)
    ensures |records| <= maxTweets
    ensures username.Some? ==> |records| == Min(maxTweets, |api.userTimeline(username.value).tweets|)
    ensures username.Some? ==> forall i :: 0 <= i < |records| ==>
      var t := api.userTimeline(username.value).tweets[i];
      records[i].id == t.idStr && records[i].isReply == Some(t.inReplyToStatusIdStr.Some?)
  {
    if username.None? then []
    else
      var tweets := Items(api.userTimeline(username.value), maxTweets);
      seq(|tweets|, i requires 0 <= i < |tweets| => TimelineRecord(tweets[i]))
  }

  /** What `collect_by_id` returns for an `id_type`: `None` for a type other
      than 'username' and 'tweet_id'. */
  function ById(api: TwitterApi, sourceId: Option<string>, limit: nat, idType: string): (result: Option<seq<Record>>)
    ensures idType == "username" ==> result == Some(AllTagged(UserTweets(api, sourceId, limit), "direct_username"))
    ensures idType == "tweet_id" ==> result == Some(AllTagged(Replies(api, sourceId, limit), "direct_tweet_id"))
    ensures result.None? <==> idType != "username" && idType != "tweet_id"
  {
    if idType == "username" then Some(AllTagged(UserTweets(api, sourceId, limit), "direct_username"))
    else if idType == "tweet_id" then Some(AllTagged(Replies(api, sourceId, limit), "direct_tweet_id"))
    else None
  }

  class TwitterCollector {
    const base: Collector
    /** `Config.TWITTER_API_KEY`, `TWITTER_API_SECRET`,
        `TWITTER_ACCESS_TOKEN`, `TWITTER_ACCESS_SECRET` */
    const apiKey: Option<string>
    const apiSecret: Option<string>
    const accessToken: Option<string>
    const accessSecret: Option<string>
    const api: TwitterApi
    /** `self.api` is set. */
    var connected: bool

    constructor(apiKey: Option<string>, apiSecret: Option<string>, accessToken: Option<string>, accessSecret: Option<string>, api: TwitterApi)
      ensures fresh(base) && base.platform == "twitter" && base.collectedData == []
      ensures this.apiKey == apiKey && this.apiSecret == apiSecret
      ensures this.accessToken == accessToken && this.accessSecret == accessSecret
      ensures this.api == api && !connected
    {
      base := new Collector("twitter");
      this.apiKey := apiKey;
      this.apiSecret := apiSecret;
      this.accessToken := accessToken;
      this.accessSecret := accessSecret;
      this.api := api;
      connected := false;
    }

    predicate CredentialsComplete()
    {
      Present(apiKey) && Present(apiSecret) && Present(accessToken) && Present(accessSecret)
    }

    /** Succeeds iff all four credentials are set. */
    method Authenticate() returns (ok: bool)
      modifies this
      ensures ok <==> CredentialsComplete()
      ensures connected == (old(connected) || ok)
    {
      if !(Present(apiKey) && Present(apiSecret) && Present(accessToken) && Present(accessSecret)) {
        return false;
      }
      connected := true;
      return true;
    }

    /** `collect_by_id` */
    method CollectById(sourceId: Option<string>, limit: nat, idType: string) returns (comments: seq<Record>)
      modifies this, base
      ensures var expected := ById(api, sourceId, limit, idType);
        (old(connected) || CredentialsComplete()) && expected.Some? ==>
          comments == expected.value && base.collectedData == old(base.collectedData) + comments
      ensures !(old(connected) || CredentialsComplete()) || ById(api, sourceId, limit, idType).None? ==>
        comments == [] && base.collectedData == old(base.collectedData)
    {
      if !connected {
        var ok := Authenticate();
        if !ok {
          return [];
        }
      }
      var found: seq<Record>;
      var tag: string;
      if idType == "username" {
        found := GetUserTweets(sourceId, limit);
        tag := "direct_username";
      } else if idType == "tweet_id" {
        found := GetTweetReplies(sourceId, limit);
        tag := "direct_tweet_id";
      } else {
        return [];
      }
      comments := TagEach(found, tag);
      base.Extend(comments);
    }

    /** `collect_by_keywords` */
    method CollectByKeywords(keywords: seq<string>, limit: nat) returns (comments: seq<Record>)
      modifies this, base
      ensures old(connected) || CredentialsComplete() ==>
        comments == AllFromKeywordSearch(KeywordTweets(api, keywords, limit), keywords)
        && base.collectedData == old(base.collectedData) + comments
      ensures !(old(connected) || CredentialsComplete()) ==> comments == [] && base.collectedData == old(base.collectedData)
    {
      if !connected {
        var ok := Authenticate();
        if !ok {
          return [];
        }
      }
      var found := SearchTweetsByKeywords(keywords, limit);
      comments := MarkKeywordSearch(found, keywords);
      base.Extend(comments);
    }

    /** `_get_tweet_replies` */
    method GetTweetReplies(tweetId: Option<string>, maxReplies: nat) returns (replies: seq<Record>)
      ensures replies == Replies(api, tweetId, maxReplies)
    {
      replies := [];
      if tweetId.None? {
        return;
      }
      var id := tweetId.value;
      var original := api.getStatus(id);
      if original.StatusError? {
        return;
      }
      var stream := Items(api.searchTweets("conversation_id:" + original.idStr, None), maxReplies);
      var i := 0;
      while i < |stream|
        invariant 0 <= i <= |stream|
        invariant replies == ReplyRecords(id, original.userIdStr, stream[..i])
      {
        var tweet := stream[i];
        if tweet.inReplyToStatusIdStr == Some(id) || tweet.inReplyToUserIdStr == Some(original.userIdStr) {
          replies := replies + [ReplyRecord(id, tweet)];
        }
        i := i + 1;
        assert stream[..i][..i - 1] == stream[..i - 1];
      }
      assert stream[..i] == stream;
    }

    /** `_search_tweets_by_keywords` */
    method SearchTweetsByKeywords(keywords: seq<string>, maxTweets: nat) returns (tweets: seq<Record>)
      ensures tweets == KeywordTweets(api, keywords, maxTweets)
    {
      tweets := [];
      var k := 0;
      while k < |keywords|
        invariant 0 <= k <= |keywords|
        invariant tweets == KeywordTweets(api, keywords[..k], maxTweets)
      {
        var stream := Items(api.searchTweets(keywords[k], Some("ar")), maxTweets);
        tweets := AppendKeywordRecords(stream, tweets);
        KeywordTweetsStep(api, keywords, k, maxTweets);
        k := k + 1;
      }
      assert keywords[..k] == keywords;
    }

    /** `_get_user_tweets` */
    method GetUserTweets(username: Option<string>, maxTweets: nat) returns (tweets: seq<Record>)
      ensures tweets == UserTweets(api, username, maxTweets)
    {
      tweets := [];
      if username.None? {
        return;
      }
      var stream := Items(api.userTimeline(username.value), maxTweets);
      var i := 0;
      while i < |stream|
        invariant 0 <= i <= |stream|
        invariant |tweets| == i && forall m :: 0 <= m < i ==> tweets[m] == TimelineRecord(stream[m])
      {
        tweets := tweets + [TimelineRecord(stream[i])];
        i := i + 1;
      }
    }
  }
}

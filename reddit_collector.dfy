/** The Reddit collector: the comments of one post, or the comments of the
    posts a keyword search of a subreddit finds, shared out under a budget. */
module RedditCollector {
  import opened Wrappers
  import opened PyBuiltins
  import opened PyStr
  import opened Records
  import opened BaseCollector

  /** One entry of a post's flattened comment forest: a comment, or an entry
      without a `body` attribute (a "more comments" stub). */
  datatype CommentNode =
    | Comment(id: string, body: string, author: Option<string>)
    | NoBody

  /** Fetching a submission and expanding its comments: the submission, or an
      exception (unknown id, network, rate limit). */
  datatype SubmissionResponse =
    | Submission(removedByCategory: Option<string>, comments: seq<CommentNode>)
    | SubmissionError

  /** One search hit. */
  datatype Post = Post(id: string, title: string, selftext: string, author: Option<string>)

  datatype PostSearch = Posts(posts: seq<Post>) | SearchError

  /** Reddit as the collector sees it: `submission` is asked for a post id,
      `search` for (subreddit, query, limit). */
  datatype RedditApi = RedditApi(
    submission: string -> SubmissionResponse,
    search: (string, string, nat) -> PostSearch)

  /** The bodies Reddit shows in place of a deleted or removed text. */
  predicate Erased(text: string) {
    text == "[deleted]" || text == "[removed]"
  }

  /** `str(author) if author else '[deleted]'` */
  function UserName(author: Option<string>): string {
    if author.Some? then author.value else "[deleted]"
  }

  /** The entries that become records: comments whose body is not erased. */
  predicate Kept(node: CommentNode) {
    node.Comment? && !Erased(node.body)
  }

  /** The record of a comment of post `postId`; direct mode tags it, the
      comment fetch of keyword mode does not. */
  function CommentRecord(postId: string, node: CommentNode, tag: Option<string>): Record
    requires node.Comment?
  {
    Record("reddit", node.id, node.body, UserName(node.author), None, None, Some(postId), None, tag, None, None)
  }

  /** The records of the kept entries, in order. */
  function KeptComments(postId: string, nodes: seq<CommentNode>, tag: Option<string>): (records: seq<Record>)
    ensures |records| <= |nodes|
  {
    if nodes == [] then []
    else
      var last := nodes[|nodes| - 1];
      KeptComments(postId, nodes[..|nodes| - 1], tag) + (if Kept(last) then [CommentRecord(postId, last, tag)] else [])
  }

  /** The records are exactly those of the kept entries: none has an erased
      text, each belongs to the post and carries the tag, and a missing
      author reads '[deleted]'. */
  lemma {:induction false} KeptCommentsSpec(postId: string, nodes: seq<CommentNode>, tag: Option<string>)
    ensures forall i :: 0 <= i < |nodes| && Kept(nodes[i]) ==> CommentRecord(postId, nodes[i], tag) in KeptComments(postId, nodes, tag)
    ensures forall r :: r in KeptComments(postId, nodes, tag) ==>
      exists i :: 0 <= i < |nodes| && Kept(nodes[i]) && r == CommentRecord(postId, nodes[i], tag)
    ensures forall r :: r in KeptComments(postId, nodes, tag) ==>
      && r.source == "reddit" && !Erased(r.textRaw) && r.threadId == Some(postId) && r.collectionMethod == tag
      && (r.user == "[deleted]" || exists i :: 0 <= i < |nodes| && nodes[i].Comment? && nodes[i].author == Some(r.user))
  {
    if nodes != [] {
      var prefix := nodes[..|nodes| - 1];
      KeptCommentsSpec(postId, prefix, tag);
      forall i | 0 <= i < |prefix| ensures prefix[i] == nodes[i] { }
    }
  }

  /** Only erased and body-less entries are dropped: the record count is
      the count of kept entries. */
  function KeptCount(nodes: seq<CommentNode>): (n: nat)
    ensures n <= |nodes|
  {
    if nodes == [] then 0 else KeptCount(nodes[..|nodes| - 1]) + (if Kept(nodes[|nodes| - 1]) then 1 else 0)
  }

  lemma {:induction false} KeptCommentsCount(postId: string, nodes: seq<CommentNode>, tag: Option<string>)
    ensures |KeptComments(postId, nodes, tag)| == KeptCount(nodes)
  {
    if nodes != [] {
      KeptCommentsCount(postId, nodes[..|nodes| - 1], tag);
    }
  }

  /** `_get_post_comments`: the comment list is cut to `maxComments` and
      then filtered; any failure leaves nothing. */
  function PostComments(api: RedditApi, postId: string, maxComments: nat): (records: seq<Record>)
    ensures |records| <= maxComments
  {
    match api.submission(postId)
    case SubmissionError => []
    case Submission(_, nodes) => KeptComments(postId, Take(nodes, maxComments), None)
  }

  /** `collect_by_id`: `None` when an exception reaches the handler (no post
      id, or the fetch fails); a removed post yields nothing; otherwise the
      first `limit` entries, filtered, tagged 'direct_post_id'. */
  function DirectPostComments(api: RedditApi, postId: Option<string>, limit: nat): (result: Option<seq<Record>>)
    ensures result.Some? ==> |result.value| <= limit
  {
    if postId.None? then None
    else
      match api.submission(postId.value)
      case SubmissionError => None
      case Submission(removed, nodes) =>
        if Present(removed) then Some([])
        else Some(KeptComments(postId.value, Take(nodes, limit), Some("direct_post_id")))
  }

  /** The cut comes before the filter: with a limit of one, an erased first
      comment hides a good second one. */
  lemma TruncateBeforeFilter(api: RedditApi, postId: string, good: CommentNode)
    requires good.Comment? && !Erased(good.body)
    requires api.submission(postId) == Submission(None, [Comment("c1", "[removed]", None), good])
    ensures DirectPostComments(api, Some(postId), 1) == Some([])
    ensures DirectPostComments(api, Some(postId), 2) == Some([CommentRecord(postId, good, Some("direct_post_id"))])
  {
    var nodes := [Comment("c1", "[removed]", None), good];
    assert Take(nodes, 1) == [nodes[0]];
    assert [nodes[0]][..0] == [];
    var tag := Some("direct_post_id");
    assert KeptComments(postId, [nodes[0]], tag) == [];
    assert nodes[..1] == [nodes[0]];
    assert KeptComments(postId, nodes, tag) == [CommentRecord(postId, good, tag)];
    assert Take(nodes, 2) == nodes;
  }

  /** A post whose `removed_by_category` is set gives nothing, whatever its
      comments. */
  lemma RemovedPostYieldsNothing(api: RedditApi, postId: string, category: string, nodes: seq<CommentNode>, limit: nat)
    requires category != "" && api.submission(postId) == Submission(Some(category), nodes)
    ensures DirectPostComments(api, Some(postId), limit) == Some([])
  {
  }

  /** The record of a search hit: title and selftext joined by a space,
      stripped. */
  function PostRecord(p: Post): (r: Record)
    ensures r.id == p.id && r.textRaw == Strip(p.title + " " + p.selftext) && r.user == UserName(p.author)
  {
    Record("reddit", p.id, Strip(p.title + " " + p.selftext), UserName(p.author), None, None, None, None, None, None, None)
  }

  /** The hits of one search whose selftext is not erased, in order. */
  function KeptPosts(posts: seq<Post>): (records: seq<Record>)
    ensures |records| <= |posts|
  {
    if posts == [] then []
    else
      var last := posts[|posts| - 1];
      KeptPosts(posts[..|posts| - 1]) + (if Erased(last.selftext) then [] else [PostRecord(last)])
  }

  /** A hit is kept iff its selftext is not erased. */
  lemma {:induction false} KeptPostsSpec(posts: seq<Post>)
    ensures forall i :: 0 <= i < |posts| && !Erased(posts[i].selftext) ==> PostRecord(posts[i]) in KeptPosts(posts)
    ensures forall r :: r in KeptPosts(posts) ==> exists i :: 0 <= i < |posts| && !Erased(posts[i].selftext) && r == PostRecord(posts[i])
  {
    KeptPostsComplete(posts);
    KeptPostsSound(posts);
  }

  lemma {:induction false} KeptPostsComplete(posts: seq<Post>)
    ensures forall i :: 0 <= i < |posts| && !Erased(posts[i].selftext) ==> PostRecord(posts[i]) in KeptPosts(posts)
  {
    if posts != [] {
      var prefix := posts[..|posts| - 1];
      KeptPostsComplete(prefix);
      forall i | 0 <= i < |posts| && !Erased(posts[i].selftext) ensures PostRecord(posts[i]) in KeptPosts(posts) {
        if i < |prefix| {
          assert prefix[i] == posts[i];
        }
      }
    }
  }

  lemma {:induction false} KeptPostsSound(posts: seq<Post>)
    ensures forall r :: r in KeptPosts(posts) ==> exists i :: 0 <= i < |posts| && !Erased(posts[i].selftext) && r == PostRecord(posts[i])
  {
    if posts != [] {
      var prefix, n := posts[..|posts| - 1], |posts| - 1;
      KeptPostsSound(prefix);
      forall r | r in KeptPosts(posts) ensures exists i :: 0 <= i < |posts| && !Erased(posts[i].selftext) && r == PostRecord(posts[i]) {
        if r in KeptPosts(prefix) {
          var i :| 0 <= i < |prefix| && !Erased(prefix[i].selftext) && r == PostRecord(prefix[i]);
          assert prefix[i] == posts[i];
        } else {
          assert !Erased(posts[n].selftext) && r == PostRecord(posts[n]);
        }
      }
    }
  }

  /** The posts found so far and whether a search has raised, which ends
      the whole search. */
  datatype SearchState = SearchState(posts: seq<Record>, raised: bool)

  /** The keywords searched in order, each for `perKeyword` hits, until one
      search raises. */
  function SubredditSearch(api: RedditApi, subreddit: string, keywords: seq<string>, perKeyword: nat): SearchState {
    if keywords == [] then SearchState([], false)
    else
      var before := SubredditSearch(api, subreddit, keywords[..|keywords| - 1], perKeyword);
      if before.raised then before
      else
        match api.search(subreddit, keywords[|keywords| - 1], perKeyword)
        case SearchError => SearchState(before.posts, true)
        case Posts(hits) => SearchState(before.posts + KeptPosts(hits), false)
  }

  /** `_search_subreddit_posts`: each keyword asks for
      `maxPosts // len(keywords)` hits. */
  function SubredditPosts(api: RedditApi, subreddit: string, keywords: seq<string>, maxPosts: nat): seq<Record> {
    if keywords == [] then [] else SubredditSearch(api, subreddit, keywords, maxPosts / |keywords|).posts
  }

  /** A search that raises keeps the posts found before it and asks for
      nothing more. */
  lemma {:induction false} SearchErrorStops(api: RedditApi, subreddit: string, keywords: seq<string>, perKeyword: nat, k: nat)
    requires k < |keywords|
    requires !SubredditSearch(api, subreddit, keywords[..k], perKeyword).raised
    requires api.search(subreddit, keywords[k], perKeyword) == SearchError
    ensures SubredditSearch(api, subreddit, keywords, perKeyword) == SearchState(SubredditSearch(api, subreddit, keywords[..k], perKeyword).posts, true)
    decreases |keywords| - k
  {
    if k + 1 == |keywords| {
      assert keywords[..k + 1] == keywords;
      assert keywords[..k + 1][..k] == keywords[..k];
    } else {
      RaisedStays(api, subreddit, keywords, perKeyword, k + 1);
      assert keywords[..k + 1][..k] == keywords[..k];
    }
  }

  /** Once raised, the search state no longer changes. */
  lemma {:induction false} RaisedStays(api: RedditApi, subreddit: string, keywords: seq<string>, perKeyword: nat, k: nat)
    requires 0 < k <= |keywords|
    requires SubredditSearch(api, subreddit, keywords[..k - 1], perKeyword).raised || api.search(subreddit, keywords[k - 1], perKeyword).SearchError?
    ensures SubredditSearch(api, subreddit, keywords, perKeyword).raised
    ensures SubredditSearch(api, subreddit, keywords, perKeyword) == SubredditSearch(api, subreddit, keywords[..k], perKeyword)
    decreases |keywords| - k
  {
    assert keywords[..k][..k - 1] == keywords[..k - 1];
    assert SubredditSearch(api, subreddit, keywords[..k], perKeyword).raised;
    if k < |keywords| {
      assert keywords[..k + 1][..k] == keywords[..k];
      RaisedStays(api, subreddit, keywords, perKeyword, k + 1);
    } else {
      assert keywords[..k] == keywords;
    }
  }

  /** A search that returns no more hits than it is asked for. */
  ghost predicate HonoursLimit(api: RedditApi) {
    forall s, q, n :: api.search(s, q, n).Posts? ==> |api.search(s, q, n).posts| <= n
  }

  lemma {:induction false} SubredditSearchBound(api: RedditApi, subreddit: string, keywords: seq<string>, perKeyword: nat)
    requires HonoursLimit(api)
    ensures |SubredditSearch(api, subreddit, keywords, perKeyword).posts| <= |keywords| * perKeyword
  {
    if keywords != [] {
      SubredditSearchBound(api, subreddit, keywords[..|keywords| - 1], perKeyword);
      MulStep(|keywords|, perKeyword);
    }
  }

  /** With a search that honours its limit, no more than `maxPosts` posts
      are found. */
  lemma PostsWithinMax(api: RedditApi, subreddit: string, keywords: seq<string>, maxPosts: nat)
    requires HonoursLimit(api)
    ensures |SubredditPosts(api, subreddit, keywords, maxPosts)| <= maxPosts
  {
    if keywords != [] {
      SubredditSearchBound(api, subreddit, keywords, maxPosts / |keywords|);
      FloorDivBound(maxPosts, |keywords|);
      MulCommute(|keywords|, maxPosts / |keywords|);
    }
  }

  /** The comments of the posts in order, each post at most `perPost`, no
      post started once `limit` comments are in. */
  function CommentsOfPosts(api: RedditApi, posts: seq<Record>, limit: nat, perPost: nat): seq<Record> {
    if posts == [] then []
    else
      var before := CommentsOfPosts(api, posts[..|posts| - 1], limit, perPost);
      if |before| >= limit then before
      else before + PostComments(api, posts[|posts| - 1].id, perPost)
  }

  /** `_search_and_collect`: `limit // 10` posts, each given
      `max(1, limit // len(posts))` comments. */
  function SearchAndCollectSpec(api: RedditApi, subreddit: string, keywords: seq<string>, limit: nat): seq<Record> {
    var posts := SubredditPosts(api, subreddit, keywords, limit / 10);
    if posts == [] then []
    else CommentsOfPosts(api, posts, limit, Max(1, limit / |posts|))
  }

  /** The budget split never collects more than `limit`. */
  lemma KeywordModeWithinLimit(api: RedditApi, subreddit: string, keywords: seq<string>, limit: nat)
    ensures |SearchAndCollectSpec(api, subreddit, keywords, limit)| <= limit
  {
    var posts := SubredditPosts(api, subreddit, keywords, limit / 10);
    if posts != [] {
      var per := Max(1, limit / |posts|);
      FloorDivBound(limit, |posts|);
      MulCommute(|posts|, limit / |posts|);
      CommentsOfPostsWithinLimit(api, posts, limit, per, |posts|);
    }
  }

  lemma {:induction false} CommentsOfPostsWithinLimit(api: RedditApi, posts: seq<Record>, limit: nat, per: nat, n: nat)
    requires |posts| <= n && (per == 1 || per * n <= limit)
    ensures |CommentsOfPosts(api, posts, limit, per)| <= limit
    ensures |CommentsOfPosts(api, posts, limit, per)| <= |posts| * per
  {
    if posts != [] {
      var m := |posts|;
      CommentsOfPostsWithinLimit(api, posts[..m - 1], limit, per, n);
      MulStep(m, per);
      MulMonotone(m, n, per);
    }
  }

  /** Each comment of keyword mode belongs to one of the posts found. */
  lemma {:induction false} CommentsOfPostsFromPosts(api: RedditApi, posts: seq<Record>, limit: nat, per: nat)
    ensures forall r :: r in CommentsOfPosts(api, posts, limit, per) ==>
      r.source == "reddit" && !Erased(r.textRaw) && exists p :: p in posts && r.threadId == Some(p.id)
  {
    if posts != [] {
      var prefix := posts[..|posts| - 1];
      CommentsOfPostsFromPosts(api, prefix, limit, per);
      var last := posts[|posts| - 1];
      forall r | r in PostComments(api, last.id, per)
        ensures r.source == "reddit" && !Erased(r.textRaw) && r.threadId == Some(last.id)
      {
        match api.submission(last.id)
        case SubmissionError =>
        case Submission(_, nodes) => KeptCommentsSpec(last.id, Take(nodes, per), None);
      }
      forall p | p in prefix ensures p in posts { }
    }
  }

  lemma CommentsOfPostsStep(api: RedditApi, posts: seq<Record>, limit: nat, per: nat, v: nat)
    requires v < |posts| && |CommentsOfPosts(api, posts[..v], limit, per)| < limit
    ensures CommentsOfPosts(api, posts[..v + 1], limit, per) ==
      CommentsOfPosts(api, posts[..v], limit, per) + PostComments(api, posts[v].id, per)
  {
    assert posts[..v + 1][..v] == posts[..v];
  }

  /** Once `limit` comments are in, no further post adds any. */
  lemma {:induction false} CommentsOfPostsStopped(api: RedditApi, posts: seq<Record>, limit: nat, per: nat, v: nat)
    requires v <= |posts| && |CommentsOfPosts(api, posts[..v], limit, per)| >= limit
    ensures CommentsOfPosts(api, posts, limit, per) == CommentsOfPosts(api, posts[..v], limit, per)
    decreases |posts| - v
  {
    if v < |posts| {
      assert posts[..v + 1][..v] == posts[..v];
      CommentsOfPostsStopped(api, posts, limit, per, v + 1);
    } else {
      assert posts[..v] == posts;
    }
  }

  /** The retagging of keyword mode. */
  function FromSubredditSearch(rs: seq<Record>, keywords: seq<string>, subreddit: string): (out: seq<Record>)
    ensures |out| == |rs|
    ensures forall i :: 0 <= i < |rs| ==>
      out[i] == rs[i].(collectionMethod := Some("keyword_search"), searchKeywords := Some(keywords), searchSubreddit := Some(subreddit))
  {
    seq(|rs|, i requires 0 <= i < |rs| => rs[i].FromKeywordSearch(keywords).(searchSubreddit := Some(subreddit)))
  }

  /** The retagging loop of `collect_by_keywords`. */
  method MarkSubredditSearch(rs: seq<Record>, keywords: seq<string>, subreddit: string) returns (out: seq<Record>)
    ensures out == FromSubredditSearch(rs, keywords, subreddit)
  {
    out := [];
    var i := 0;
    while i < |rs|
      invariant 0 <= i <= |rs|
      invariant out == FromSubredditSearch(rs[..i], keywords, subreddit)
    {
      out := out + [rs[i].FromKeywordSearch(keywords).(searchSubreddit := Some(subreddit))];
      i := i + 1;
    }
    assert rs[..i] == rs;
  }

  /** `kwargs.get('subreddit', 'all')` */
  function SubredditOrAll(subreddit: Option<string>): (name: string)
    ensures subreddit.None? ==> name == "all"
    ensures subreddit.Some? ==> name == subreddit.value
  {
    subreddit.GetOr("all")
  }

  class RedditCollector {
    const base: Collector
    /** `Config.REDDIT_CLIENT_ID`, `REDDIT_CLIENT_SECRET`, `REDDIT_USER_AGENT` */
    const clientId: Option<string>
    const clientSecret: Option<string>
    const userAgent: Option<string>
    const api: RedditApi
    /** `self.reddit` is set. */
    var connected: bool

    constructor(clientId: Option<string>, clientSecret: Option<string>, userAgent: Option<string>, api: RedditApi)
      ensures fresh(base) && base.platform == "reddit" && base.collectedData == []
      ensures this.clientId == clientId && this.clientSecret == clientSecret && this.userAgent == userAgent
      ensures this.api == api && !connected
    {
      base := new Collector("reddit");
      this.clientId := clientId;
      this.clientSecret := clientSecret;
      this.userAgent := userAgent;
      this.api := api;
      connected := false;
    }

    predicate CredentialsComplete()
    {
      Present(clientId) && Present(clientSecret) && Present(userAgent)
    }

    /** Succeeds iff all three credentials are set. */
    method Authenticate() returns (ok: bool)
      modifies this
      ensures ok <==> CredentialsComplete()
      ensures connected == (old(connected) || ok)
    {
      if !(Present(clientId) && Present(clientSecret) && Present(userAgent)) {
        return false;
      }
      connected := true;
      return true;
    }

    /** `collect_by_id` */
    method CollectById(postId: Option<string>, limit: nat) returns (comments: seq<Record>)
      modifies this, base
      ensures var expected := DirectPostComments(api, postId, limit);
        && (old(connected) || CredentialsComplete()) && expected.Some? ==>
          comments == expected.value && base.collectedData == old(base.collectedData) + comments
      ensures !(old(connected) || CredentialsComplete()) || DirectPostComments(api, postId, limit).None? ==>
        comments == [] && base.collectedData == old(base.collectedData)
    {
      if !connected {
        var ok := Authenticate();
        if !ok {
          return [];
        }
      }
      if postId.None? {
        return [];
      }
      var id := postId.value;
      var submission := api.submission(id);
      if submission.SubmissionError? {
        return [];
      }
      if Present(submission.removedByCategory) {
        return [];
      }
      var commentList := Take(submission.comments, limit);
      comments := [];
      var i := 0;
      while i < |commentList|
        invariant 0 <= i <= |commentList|
        invariant comments == KeptComments(id, commentList[..i], Some("direct_post_id"))
      {
        var node := commentList[i];
        if node.Comment? && !(node.body == "[deleted]" || node.body == "[removed]") {
          comments := comments + [CommentRecord(id, node, Some("direct_post_id"))];
        }
        i := i + 1;
        assert commentList[..i][..i - 1] == commentList[..i - 1];
      }
      assert commentList[..i] == commentList;
      base.Extend(comments);
    }

    /** `_get_post_comments` */
    method GetPostComments(postId: string, maxComments: nat) returns (comments: seq<Record>)
      ensures comments == PostComments(api, postId, maxComments)
    {
      comments := [];
      var submission := api.submission(postId);
      if submission.SubmissionError? {
        return;
      }
      var commentList := Take(submission.comments, maxComments);
      var i := 0;
      while i < |commentList|
        invariant 0 <= i <= |commentList|
        invariant comments == KeptComments(postId, commentList[..i], None)
      {
        var node := commentList[i];
        if node.Comment? && !(node.body == "[deleted]" || node.body == "[removed]") {
          comments := comments + [CommentRecord(postId, node, None)];
        }
        i := i + 1;
        assert commentList[..i][..i - 1] == commentList[..i - 1];
      }
      assert commentList[..i] == commentList;
    }

    /** `_search_subreddit_posts` */
    method SearchSubredditPosts(subreddit: string, keywords: seq<string>, maxPosts: nat) returns (posts: seq<Record>)
      ensures posts == SubredditPosts(api, subreddit, keywords, maxPosts)
    {
      posts := [];
      if keywords == [] {
        return;
      }
      var perKeyword := maxPosts / |keywords|;
      var k := 0;
      while k < |keywords|
        invariant 0 <= k <= |keywords|
        invariant SubredditSearch(api, subreddit, keywords[..k], perKeyword) == SearchState(posts, false)
      {
        var response := api.search(subreddit, keywords[k], perKeyword);
        if response.SearchError? {
          // the exception leaves the keyword loop; the posts found are returned
          SearchErrorStops(api, subreddit, keywords, perKeyword, k);
          return;
        }
        var hits := response.posts;
        var before := posts;
        var j := 0;
        while j < |hits|
          invariant 0 <= j <= |hits|
          invariant posts == before + KeptPosts(hits[..j])
        {
          if !(hits[j].selftext == "[deleted]" || hits[j].selftext == "[removed]") {
            posts := posts + [PostRecord(hits[j])];
          }
          j := j + 1;
          assert hits[..j][..j - 1] == hits[..j - 1];
        }
        assert hits[..j] == hits;
        k := k + 1;
        assert keywords[..k][..k - 1] == keywords[..k - 1];
      }
      assert keywords[..k] == keywords;
    }

    /** `_search_and_collect` */
    method SearchAndCollect(subreddit: string, keywords: seq<string>, limit: nat) returns (comments: seq<Record>)
      ensures comments == SearchAndCollectSpec(api, subreddit, keywords, limit)
    {
      var posts := SearchSubredditPosts(subreddit, keywords, limit / 10);
      comments := [];
      if posts == [] {
        return;
      }
      var perPost := Max(1, limit / |posts|);
      comments := CollectPosts(posts, limit, perPost);
    }

    /** The loop of `_search_and_collect` over the posts found: each adds
        its comments until `limit` comments are in. */
    method CollectPosts(posts: seq<Record>, limit: nat, perPost: nat) returns (comments: seq<Record>)
      ensures comments == CommentsOfPosts(api, posts, limit, perPost)
    {
      comments := [];
      var v := 0;
      while v < |posts|
        invariant 0 <= v <= |posts|
        invariant comments == CommentsOfPosts(api, posts[..v], limit, perPost)
      {
        if |comments| >= limit {
          CommentsOfPostsStopped(api, posts, limit, perPost, v);
          return;
        }
        var postComments := GetPostComments(posts[v].id, perPost);
        CommentsOfPostsStep(api, posts, limit, perPost, v);
        comments := comments + postComments;
        v := v + 1;
      }
      assert posts[..v] == posts;
    }

    /** `collect_by_keywords` */
    method CollectByKeywords(keywords: seq<string>, limit: nat, subreddit: Option<string>) returns (comments: seq<Record>)
      modifies this, base
      ensures old(connected) || CredentialsComplete() ==>
        && comments == FromSubredditSearch(SearchAndCollectSpec(api, SubredditOrAll(subreddit), keywords, limit), keywords, SubredditOrAll(subreddit))
        && base.collectedData == old(base.collectedData) + comments
      ensures !(old(connected) || CredentialsComplete()) ==> comments == [] && base.collectedData == old(base.collectedData)
    {
      var name := subreddit.GetOr("all");
      if !connected {
        var ok := Authenticate();
        if !ok {
          return [];
        }
      }
      var found := SearchAndCollect(name, keywords, limit);
      comments := MarkSubredditSearch(found, keywords, name);
      base.Extend(comments);
    }
  }
}

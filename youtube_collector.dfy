/** The YouTube collector: comments of one video page by page, or comments of
    the videos a keyword search finds, shared out under a budget. */
module YouTubeCollector {
  import opened Wrappers
  import opened PyBuiltins
  import opened Records
  import opened BaseCollector

  /** One comment thread of a `commentThreads.list` page; a thread missing
      one of the fields read raises a `KeyError`. */
  datatype CommentItem =
    | CommentThread(id: string, textDisplay: string, authorDisplayName: string)
    | MalformedThread

  /** The answer to one `commentThreads.list` request: a page, an HTTP error
      (403 comments disabled, 404 not found, ...) or any other failure. */
  datatype ThreadsResponse =
    | Page(items: seq<CommentItem>, nextPageToken: Option<string>)
    | HttpError(status: int)
    | Failure

  /** One `search.list` result; a result without `id.videoId` raises. */
  datatype VideoItem = VideoResult(videoId: string) | MalformedVideo

  datatype SearchResponse = Videos(items: seq<VideoItem>) | SearchError

  /** The YouTube Data API as the collector sees it: `commentThreads` is
      asked for (video id, maxResults, pageToken) and `search` for (query,
      maxResults). */
  datatype YouTubeApi = YouTubeApi(
    commentThreads: (string, nat, Option<string>) -> ThreadsResponse,
    search: (string, int) -> SearchResponse)

  /** The record of one comment of a video fetched directly. */
  function CommentRecord(videoId: string, item: CommentItem): Record
    requires item.CommentThread?
  {
    Record("youtube", item.id, item.textDisplay, item.authorDisplayName, Some(videoId),
      None, None, None, Some("direct_id"), None, None)
  }

  predicate DirectComment(r: Record, videoId: string) {
    r.source == "youtube" && r.videoId == Some(videoId) && r.collectionMethod == Some("direct_id")
  }

  /** How many threads at the head of a page are well formed. */
  function WellFormedPrefix(items: seq<CommentItem>): (n: nat)
    ensures n <= |items|
    ensures forall i :: 0 <= i < n ==> items[i].CommentThread?
    ensures n < |items| ==> items[n].MalformedThread?
  {
    if items == [] || items[0].MalformedThread? then 0 else 1 + WellFormedPrefix(items[1..])
  }

  lemma {:induction false} WellFormedPrefixAtLeast(items: seq<CommentItem>, j: nat)
    requires j <= |items| && forall k :: 0 <= k < j ==> items[k].CommentThread?
    ensures WellFormedPrefix(items) >= j
  {
    if j > 0 {
      WellFormedPrefixAtLeast(items[1..], j - 1);
    }
  }

  /** Where the page loop stops (end of page or full budget) its comments
      are the page's records. */
  lemma PageLoopEnd(videoId: string, items: seq<CommentItem>, room: nat, before: seq<Record>, comments: seq<Record>, j: nat)
    requires j <= |items| && j <= room
    requires j == |items| || j == room || items[j].MalformedThread?
    requires forall k :: 0 <= k < j ==> items[k].CommentThread?
    requires |comments| == |before| + j && comments[..|before|] == before
    requires forall k :: 0 <= k < j ==> comments[|before| + k] == CommentRecord(videoId, items[k])
    ensures comments == before + PageRecords(videoId, items, room)
  {
    WellFormedPrefixAtLeast(items, j);
    if j < |items| && j < room && items[j].MalformedThread? {
      assert WellFormedPrefix(items) == j;
    }
    var page := PageRecords(videoId, items, room);
    assert |page| == j;
    forall k | 0 <= k < |comments|
      ensures comments[k] == (before + page)[k]
    {
      if k < |before| {
        assert comments[k] == comments[..|before|][k];
      } else {
        assert comments[|before| + (k - |before|)] == page[k - |before|];
      }
    }
  }

  /** The loop over one page's threads: each well-formed thread's record is
      appended until the budget is full; a malformed thread raises. */
  method AppendPage(videoId: string, items: seq<CommentItem>, maxResults: nat, before: seq<Record>, collected: nat)
    returns (comments: seq<Record>, totalCollected: nat, raised: bool)
    requires collected == |before| < maxResults
    ensures comments == before + PageRecords(videoId, items, maxResults - |before|)
    ensures totalCollected == |comments|
    ensures raised == PageRaises(items, maxResults - |before|)
  {
    comments, totalCollected := before, collected;
    var room: nat := maxResults - collected;
    var j := 0;
    while j < |items|
      invariant 0 <= j <= |items| && j <= room
      invariant totalCollected == |comments| == |before| + j
      invariant forall k :: 0 <= k < j ==> items[k].CommentThread?
      invariant comments[..|before|] == before
      invariant forall k :: 0 <= k < j ==> comments[|before| + k] == CommentRecord(videoId, items[k])
      invariant j < room
    {
      if items[j].MalformedThread? {
        PageLoopEnd(videoId, items, room, before, comments, j);
        WellFormedPrefixAtLeast(items, j);
        return comments, totalCollected, true;
      }
      comments := comments + [CommentRecord(videoId, items[j])];
      totalCollected := totalCollected + 1;
      j := j + 1;
      if totalCollected >= maxResults {
        break;
      }
    }
    PageLoopEnd(videoId, items, room, before, comments, j);
    WellFormedPrefixAtLeast(items, j);
    raised := false;
  }

  /** The records one page adds when `room` more comments are wanted: the
      items are taken in order until the room is filled or a malformed item
      raises. */
  function PageRecords(videoId: string, items: seq<CommentItem>, room: nat): (records: seq<Record>)
    ensures |records| == Min(WellFormedPrefix(items), room)
  {
    seq(Min(WellFormedPrefix(items), room), i requires 0 <= i < Min(WellFormedPrefix(items), room) => CommentRecord(videoId, items[i]))
  }

  /** A malformed item is reached before the room is filled. */
  predicate PageRaises(items: seq<CommentItem>, room: nat) {
    WellFormedPrefix(items) < |items| && WellFormedPrefix(items) < room
  }

  /** One `commentThreads.list` request as issued. */
  datatype PageRequest = PageRequest(maxResults: nat, pageToken: Option<string>, collectedBefore: nat)

  /** The comments a pagination run ends with, and the requests it issued. */
  datatype Fetched = Fetched(comments: seq<Record>, requests: seq<PageRequest>)

  /** The pagination loop from the state (`pageToken`, `comments`) on: ask for
      `min(100, remaining)`, stop on an empty page, a missing token, an error
      (keeping what was collected), or a full budget. */
  function Fetch(api: YouTubeApi, videoId: string, maxResults: nat, pageToken: Option<string>, comments: seq<Record>): (f: Fetched)
    requires |comments| <= maxResults
    ensures |comments| <= |f.comments| <= maxResults && f.comments[..|comments|] == comments
    decreases maxResults - |comments|
  {
    if |comments| >= maxResults then Fetched(comments, [])
    else
      var size := Min(100, maxResults - |comments|);
      var request := PageRequest(size, pageToken, |comments|);
      match api.commentThreads(videoId, size, pageToken)
      case Page(items, next) =>
        if items == [] then Fetched(comments, [request])
        else
          var room := maxResults - |comments|;
          var got := comments + PageRecords(videoId, items, room);
          assert got[..|comments|] == comments;
          if PageRaises(items, room) || !Present(next) then Fetched(got, [request])
          else
            var rest := Fetch(api, videoId, maxResults, next, got);
            assert rest.comments[..|comments|] == rest.comments[..|got|][..|comments|];
            Fetched(rest.comments, [request] + rest.requests)
      case _ => Fetched(comments, [request])
  }

  /** Every request asks for exactly `min(100, max_results - total_collected)`
      comments, where `total_collected` is the number held when it is sent:
      between 1 and 100, never more than the budget has left. The counts held
      grow strictly from one request to the next and never pass the count
      the run ends with; the first request is sent with the current page
      token, and a run issues no request iff the budget is already spent. */
  lemma FetchRequestsWithinBudget(api: YouTubeApi, videoId: string, maxResults: nat, pageToken: Option<string>, comments: seq<Record>)
    requires |comments| <= maxResults
    ensures var f := Fetch(api, videoId, maxResults, pageToken, comments);
      && (forall k :: 0 <= k < |f.requests| ==>
            && f.requests[k].maxResults == Min(100, maxResults - f.requests[k].collectedBefore)
            && 1 <= f.requests[k].maxResults <= 100
            && f.requests[k].collectedBefore + f.requests[k].maxResults <= maxResults
            && |comments| <= f.requests[k].collectedBefore <= |f.comments|)
      && (forall k :: 0 <= k < |f.requests| - 1 ==> f.requests[k].collectedBefore < f.requests[k + 1].collectedBefore)
      && (|f.requests| == 0 <==> |comments| == maxResults)
      && (|comments| < maxResults ==> f.requests[0] == PageRequest(Min(100, maxResults - |comments|), pageToken, |comments|))
  {
    FetchRequestsSized(api, videoId, maxResults, pageToken, comments);
    FetchRequestsGrow(api, videoId, maxResults, pageToken, comments);
    FetchFirstRequest(api, videoId, maxResults, pageToken, comments);
  }

  /** The request the loop sends next from this state. */
  function NextRequest(maxResults: nat, pageToken: Option<string>, comments: seq<Record>): PageRequest
    requires |comments| < maxResults
  {
    PageRequest(Min(100, maxResults - |comments|), pageToken, |comments|)
  }

  /** Whether the loop goes round again after the page it is sent back. */
  predicate Continues(api: YouTubeApi, videoId: string, maxResults: nat, pageToken: Option<string>, comments: seq<Record>) {
    && |comments| < maxResults
    && var response := api.commentThreads(videoId, Min(100, maxResults - |comments|), pageToken);
    && response.Page? && response.items != []
    && !PageRaises(response.items, maxResults - |comments|) && Present(response.nextPageToken)
  }

  /** The state after a page that lets the loop go round again. */
  function After(api: YouTubeApi, videoId: string, maxResults: nat, pageToken: Option<string>, comments: seq<Record>): (got: seq<Record>)
    requires Continues(api, videoId, maxResults, pageToken, comments)
    ensures |comments| < |got| <= maxResults
  {
    var response := api.commentThreads(videoId, Min(100, maxResults - |comments|), pageToken);
    comments + PageRecords(videoId, response.items, maxResults - |comments|)
  }

  /** A run sends one request and stops, sends one and goes on from the next
      token, or, with the budget spent, sends none. */
  lemma FetchUnfold(api: YouTubeApi, videoId: string, maxResults: nat, pageToken: Option<string>, comments: seq<Record>)
    requires |comments| <= maxResults
    ensures var f := Fetch(api, videoId, maxResults, pageToken, comments);
      && (|comments| == maxResults ==> f.requests == [] && f.comments == comments)
      && (|comments| < maxResults && !Continues(api, videoId, maxResults, pageToken, comments) ==>
            f.requests == [NextRequest(maxResults, pageToken, comments)])
      && (Continues(api, videoId, maxResults, pageToken, comments) ==>
            var next := api.commentThreads(videoId, Min(100, maxResults - |comments|), pageToken).nextPageToken;
            var rest := Fetch(api, videoId, maxResults, next, After(api, videoId, maxResults, pageToken, comments));
            f == Fetched(rest.comments, [NextRequest(maxResults, pageToken, comments)] + rest.requests))
  {
  }

  lemma FetchFirstRequest(api: YouTubeApi, videoId: string, maxResults: nat, pageToken: Option<string>, comments: seq<Record>)
    requires |comments| <= maxResults
    ensures var f := Fetch(api, videoId, maxResults, pageToken, comments);
      && (|f.requests| == 0 <==> |comments| == maxResults)
      && (|comments| < maxResults ==> f.requests[0] == NextRequest(maxResults, pageToken, comments))
  {
    FetchUnfold(api, videoId, maxResults, pageToken, comments);
  }

  /** A request sized as the loop sizes it, sent while holding between `lo`
      and `hi` comments. */
  predicate RequestFits(r: PageRequest, maxResults: nat, lo: nat, hi: nat) {
    && r.maxResults == Min(100, maxResults - r.collectedBefore)
    && 1 <= r.maxResults <= 100
    && r.collectedBefore + r.maxResults <= maxResults
    && lo <= r.collectedBefore <= hi
  }

  lemma {:induction false} FetchRequestsSized(api: YouTubeApi, videoId: string, maxResults: nat, pageToken: Option<string>, comments: seq<Record>)
    requires |comments| <= maxResults
    ensures var f := Fetch(api, videoId, maxResults, pageToken, comments);
      forall k :: 0 <= k < |f.requests| ==> RequestFits(f.requests[k], maxResults, |comments|, |f.comments|)
    decreases maxResults - |comments|
  {
    var f := Fetch(api, videoId, maxResults, pageToken, comments);
    FetchUnfold(api, videoId, maxResults, pageToken, comments);
    if Continues(api, videoId, maxResults, pageToken, comments) {
      var next := api.commentThreads(videoId, Min(100, maxResults - |comments|), pageToken).nextPageToken;
      var got := After(api, videoId, maxResults, pageToken, comments);
      var rest := Fetch(api, videoId, maxResults, next, got);
      FetchRequestsSized(api, videoId, maxResults, next, got);
      forall k | 0 <= k < |f.requests|
        ensures RequestFits(f.requests[k], maxResults, |comments|, |f.comments|)
      {
        if k > 0 {
          assert f.requests[k] == rest.requests[k - 1];
          assert RequestFits(rest.requests[k - 1], maxResults, |got|, |rest.comments|);
        }
      }
    }
  }

  lemma {:induction false} FetchRequestsGrow(api: YouTubeApi, videoId: string, maxResults: nat, pageToken: Option<string>, comments: seq<Record>)
    requires |comments| <= maxResults
    ensures var f := Fetch(api, videoId, maxResults, pageToken, comments);
      forall k :: 0 <= k < |f.requests| - 1 ==> f.requests[k].collectedBefore < f.requests[k + 1].collectedBefore
    decreases maxResults - |comments|
  {
    FetchUnfold(api, videoId, maxResults, pageToken, comments);
    if Continues(api, videoId, maxResults, pageToken, comments) {
      var next := api.commentThreads(videoId, Min(100, maxResults - |comments|), pageToken).nextPageToken;
      var got := After(api, videoId, maxResults, pageToken, comments);
      FetchRequestsGrow(api, videoId, maxResults, next, got);
      FetchFirstRequest(api, videoId, maxResults, next, got);
      var f, rest := Fetch(api, videoId, maxResults, pageToken, comments), Fetch(api, videoId, maxResults, next, got);
      forall k | 1 <= k < |f.requests|
        ensures f.requests[k] == rest.requests[k - 1]
      {
      }
    }
  }

  /** Every comment the loop adds is a direct-mode comment of the video. */
  lemma {:induction false} FetchDirectComments(api: YouTubeApi, videoId: string, maxResults: nat, pageToken: Option<string>, comments: seq<Record>)
    requires |comments| <= maxResults
    ensures var f := Fetch(api, videoId, maxResults, pageToken, comments);
      forall i :: |comments| <= i < |f.comments| ==> DirectComment(f.comments[i], videoId)
    decreases maxResults - |comments|
  {
    if |comments| < maxResults {
      var size := Min(100, maxResults - |comments|);
      var response := api.commentThreads(videoId, size, pageToken);
      if response.Page? && response.items != [] {
        var room := maxResults - |comments|;
        var got := comments + PageRecords(videoId, response.items, room);
        assert forall i :: |comments| <= i < |got| ==> DirectComment(got[i], videoId);
        FetchStep(api, videoId, maxResults, pageToken, comments, response.items, response.nextPageToken);
        if !(PageRaises(response.items, room) || !Present(response.nextPageToken)) {
          FetchDirectComments(api, videoId, maxResults, response.nextPageToken, got);
          var rest := Fetch(api, videoId, maxResults, response.nextPageToken, got);
          forall i | |comments| <= i < |got|
            ensures DirectComment(rest.comments[i], videoId)
          {
            assert rest.comments[i] == rest.comments[..|got|][i];
          }
        }
      }
    }
  }

  /** One turn of the loop: a non-empty page adds its records, and the loop
      goes on from the next token unless the page raised or had no token. */
  lemma FetchStep(api: YouTubeApi, videoId: string, maxResults: nat, pageToken: Option<string>, comments: seq<Record>, items: seq<CommentItem>, next: Option<string>)
    requires |comments| < maxResults && items != []
    requires api.commentThreads(videoId, Min(100, maxResults - |comments|), pageToken) == Page(items, next)
    ensures var got := comments + PageRecords(videoId, items, maxResults - |comments|);
      && |got| <= maxResults
      && (PageRaises(items, maxResults - |comments|) || !Present(next) ==> Fetch(api, videoId, maxResults, pageToken, comments).comments == got)
      && (!PageRaises(items, maxResults - |comments|) && Present(next) ==>
            Fetch(api, videoId, maxResults, pageToken, comments).comments == Fetch(api, videoId, maxResults, next, got).comments)
  {
  }

  /** The loop ends where it is: the budget is spent, the request raised,
      or the page came back empty. */
  lemma FetchStopsHere(api: YouTubeApi, videoId: string, maxResults: nat, pageToken: Option<string>, comments: seq<Record>)
    requires |comments| <= maxResults
    requires var response := api.commentThreads(videoId, Min(100, maxResults - |comments|), pageToken);
      |comments| == maxResults || !response.Page? || response.items == []
    ensures Fetch(api, videoId, maxResults, pageToken, comments).comments == comments
  {
  }

  /** `_get_video_comments`: a missing video id raises before the first
      request, and the handler returns nothing. */
  function VideoComments(api: YouTubeApi, videoId: Option<string>, maxResults: nat): (comments: seq<Record>)
    ensures |comments| <= maxResults
  {
    if videoId.None? then [] else Fetch(api, videoId.value, maxResults, None, []).comments
  }

  /** An empty first page ends the loop with nothing. */
  lemma EmptyFirstPage(api: YouTubeApi, videoId: string, maxResults: nat, next: Option<string>)
    requires maxResults > 0 && api.commentThreads(videoId, Min(100, maxResults), None) == Page([], next)
    ensures VideoComments(api, Some(videoId), maxResults) == []
    ensures |Fetch(api, videoId, maxResults, None, []).requests| == 1
  {
  }

  /** A first page without a next-page token is the only page read. */
  lemma LastPageWithoutToken(api: YouTubeApi, videoId: string, maxResults: nat, items: seq<CommentItem>)
    requires maxResults > 0 && items != [] && api.commentThreads(videoId, Min(100, maxResults), None) == Page(items, None)
    ensures VideoComments(api, Some(videoId), maxResults) == PageRecords(videoId, items, maxResults)
    ensures |Fetch(api, videoId, maxResults, None, []).requests| == 1
  {
  }

  /** An error on a later page keeps the comments of the pages before it. */
  lemma ErrorKeepsEarlierPages(api: YouTubeApi, videoId: string, maxResults: nat, items: seq<CommentItem>, token: string, status: int)
    requires maxResults > 0 && items != [] && token != ""
    requires api.commentThreads(videoId, Min(100, maxResults), None) == Page(items, Some(token))
    requires !PageRaises(items, maxResults) && |PageRecords(videoId, items, maxResults)| < maxResults
    requires api.commentThreads(videoId, Min(100, maxResults - |PageRecords(videoId, items, maxResults)|), Some(token)) == HttpError(status)
    ensures VideoComments(api, Some(videoId), maxResults) == PageRecords(videoId, items, maxResults)
  {
    var got := PageRecords(videoId, items, maxResults);
    assert [] + got == got;
    assert Fetch(api, videoId, maxResults, Some(token), got).comments == got;
  }

  /** How many results at the head of a search answer are well formed. */
  function WellFormedVideos(items: seq<VideoItem>): (n: nat)
    ensures n <= |items|
    ensures forall i :: 0 <= i < n ==> items[i].VideoResult?
    ensures n < |items| ==> items[n].MalformedVideo?
  {
    if items == [] || items[0].MalformedVideo? then 0 else 1 + WellFormedVideos(items[1..])
  }

  /** The ids one keyword adds when `have` ids were found before: the search
      asks for `min(50, maxVideos - have)`, and ids are appended until the
      count reaches `maxVideos` (at least one is appended before that check)
      or a malformed result raises. A failed search adds nothing. */
  function KeywordVideoIds(api: YouTubeApi, keyword: string, maxVideos: nat, have: nat): (ids: seq<string>)
    ensures have < maxVideos ==> |ids| <= maxVideos - have
    ensures |ids| <= Max(1, maxVideos - have)
  {
    match api.search(keyword, Min(50, maxVideos - have))
    case SearchError => []
    case Videos(items) => TakenIds(items, Max(1, maxVideos - have))
  }

  /** The ids of the results taken in order until `cap` are taken or a
      malformed result raises. */
  function TakenIds(items: seq<VideoItem>, cap: nat): (ids: seq<string>)
    ensures |ids| == Min(WellFormedVideos(items), cap)
  {
    seq(Min(WellFormedVideos(items), cap), i requires 0 <= i < Min(WellFormedVideos(items), cap) => items[i].videoId)
  }

  lemma {:induction false} WellFormedVideosAtLeast(items: seq<VideoItem>, j: nat)
    requires j <= |items| && forall k :: 0 <= k < j ==> items[k].VideoResult?
    ensures WellFormedVideos(items) >= j
  {
    if j > 0 {
      WellFormedVideosAtLeast(items[1..], j - 1);
    }
  }

  /** Where the loop over one keyword's results stops (end of the results,
      the cap reached, or a malformed result) its ids are the taken ids. */
  lemma VideoLoopEnd(items: seq<VideoItem>, cap: nat, before: seq<string>, videoIds: seq<string>, i: nat)
    requires i <= |items| && i <= cap
    requires i == |items| || i == cap || items[i].MalformedVideo?
    requires forall m :: 0 <= m < i ==> items[m].VideoResult?
    requires |videoIds| == |before| + i && videoIds[..|before|] == before
    requires forall m :: 0 <= m < i ==> videoIds[|before| + m] == items[m].videoId
    ensures videoIds == before + TakenIds(items, cap)
  {
    WellFormedVideosAtLeast(items, i);
    if i < |items| && i < cap && items[i].MalformedVideo? {
      assert WellFormedVideos(items) == i;
    }
    var taken := TakenIds(items, cap);
    assert |taken| == i;
    forall k | 0 <= k < |videoIds|
      ensures videoIds[k] == (before + taken)[k]
    {
      if k < |before| {
        assert videoIds[k] == videoIds[..|before|][k];
      } else {
        assert videoIds[|before| + (k - |before|)] == taken[k - |before|];
      }
    }
  }

  /** `_search_videos_by_keywords`: keyword after keyword, each failure
      confined to its keyword. */
  function SearchVideoIds(api: YouTubeApi, keywords: seq<string>, maxVideos: nat): seq<string> {
    if keywords == [] then []
    else
      var before := SearchVideoIds(api, keywords[..|keywords| - 1], maxVideos);
      before + KeywordVideoIds(api, keywords[|keywords| - 1], maxVideos, |before|)
  }

  /** The loop over one keyword's results: ids are appended until a result
      without `id.videoId` raises or `max_videos` ids are held (at least one
      is appended before that check). */
  method AppendVideoIds(items: seq<VideoItem>, maxVideos: nat, before: seq<string>) returns (videoIds: seq<string>)
    ensures videoIds == before + TakenIds(items, Max(1, maxVideos - |before|))
  {
    videoIds := before;
    var cap := Max(1, maxVideos - |before|);
    var i := 0;
    while i < |items|
      invariant 0 <= i <= |items| && i <= cap
      invariant forall m :: 0 <= m < i ==> items[m].VideoResult?
      invariant |videoIds| == |before| + i && videoIds[..|before|] == before
      invariant forall m :: 0 <= m < i ==> videoIds[|before| + m] == items[m].videoId
      invariant i == 0 || i < cap
    {
      if items[i].MalformedVideo? {
        // raised inside the keyword's handler: on to the next keyword
        break;
      }
      videoIds := videoIds + [items[i].videoId];
      i := i + 1;
      if |videoIds| >= maxVideos {
        break;
      }
    }
    VideoLoopEnd(items, cap, before, videoIds, i);
  }

  /** One more keyword appends its own ids. */
  lemma SearchVideoIdsStep(api: YouTubeApi, keywords: seq<string>, k: nat, maxVideos: nat)
    requires k < |keywords|
    ensures var before := SearchVideoIds(api, keywords[..k], maxVideos);
      SearchVideoIds(api, keywords[..k + 1], maxVideos) == before + KeywordVideoIds(api, keywords[k], maxVideos, |before|)
  {
    assert keywords[..k + 1][..k] == keywords[..k];
  }

  /** The search never returns more results than it asks for. */
  ghost predicate HonoursMaxResults(api: YouTubeApi) {
    forall q, n :: api.search(q, n).Videos? ==> |api.search(q, n).items| <= Max(0, n)
  }

  /** With a search that honours `maxResults`, the cap holds. */
  lemma {:induction false} SearchCapped(api: YouTubeApi, keywords: seq<string>, maxVideos: nat)
    requires HonoursMaxResults(api)
    ensures |SearchVideoIds(api, keywords, maxVideos)| <= maxVideos
  {
    if keywords != [] {
      var prefix := keywords[..|keywords| - 1];
      SearchCapped(api, prefix, maxVideos);
    }
  }

  /** Whatever the search returns, once the cap is reached each further
      keyword adds at most one id. */
  lemma {:induction false} SearchNearlyCapped(api: YouTubeApi, keywords: seq<string>, maxVideos: nat)
    ensures |SearchVideoIds(api, keywords, maxVideos)| <= maxVideos + |keywords|
  {
    if keywords != [] {
      SearchNearlyCapped(api, keywords[..|keywords| - 1], maxVideos);
    }
  }

  /** Comments of the videos in order, each video at most `perVideo`, no
      video started once `limit` comments are in; all retagged as found by
      keyword search. */
  function CommentsOfVideos(api: YouTubeApi, videoIds: seq<string>, limit: nat, perVideo: nat, keywords: seq<string>): seq<Record> {
    if videoIds == [] then []
    else
      var before := CommentsOfVideos(api, videoIds[..|videoIds| - 1], limit, perVideo, keywords);
      if |before| >= limit then before
      else before + AllFromKeywordSearch(VideoComments(api, Some(videoIds[|videoIds| - 1]), perVideo), keywords)
  }

  /** `_search_and_collect` with at most ten videos. */
  function SearchAndCollectSpec(api: YouTubeApi, keywords: seq<string>, limit: nat): seq<Record> {
    var videoIds := SearchVideoIds(api, keywords, 10);
    if videoIds == [] then []
    else CommentsOfVideos(api, videoIds, limit, Max(1, limit / |videoIds|), keywords)
  }

  /** The budget split never collects more than `limit`, however many videos
      are found. */
  lemma KeywordModeWithinLimit(api: YouTubeApi, keywords: seq<string>, limit: nat)
    ensures |SearchAndCollectSpec(api, keywords, limit)| <= limit
  {
    var videoIds := SearchVideoIds(api, keywords, 10);
    if videoIds != [] {
      var per := Max(1, limit / |videoIds|);
      FloorDivBound(limit, |videoIds|);
      CommentsOfVideosWithinLimit(api, videoIds, limit, per, keywords, |videoIds|);
    }
  }

  lemma {:induction false} CommentsOfVideosWithinLimit(api: YouTubeApi, videoIds: seq<string>, limit: nat, per: nat, keywords: seq<string>, n: nat)
    requires |videoIds| <= n && (per == 1 || per * n <= limit)
    ensures |CommentsOfVideos(api, videoIds, limit, per, keywords)| <= limit
    ensures |CommentsOfVideos(api, videoIds, limit, per, keywords)| <= |videoIds| * per
  {
    if videoIds != [] {
      var m := |videoIds|;
      var prefix := videoIds[..m - 1];
      CommentsOfVideosWithinLimit(api, prefix, limit, per, keywords, n);
      var before := CommentsOfVideos(api, prefix, limit, per, keywords);
      MulStep(m, per);
      if |before| < limit {
        var added := AllFromKeywordSearch(VideoComments(api, Some(videoIds[m - 1]), per), keywords);
        assert |added| <= per;
        MulMonotone(m, n, per);
      }
    }
  }

  /** Every keyword-mode record is tagged as found by the search, with the
      keywords searched. */
  lemma {:induction false} CommentsOfVideosTagged(api: YouTubeApi, videoIds: seq<string>, limit: nat, per: nat, keywords: seq<string>)
    ensures forall r :: r in CommentsOfVideos(api, videoIds, limit, per, keywords) ==>
      r.collectionMethod == Some("keyword_search") && r.searchKeywords == Some(keywords)
  {
    if videoIds != [] {
      CommentsOfVideosTagged(api, videoIds[..|videoIds| - 1], limit, per, keywords);
    }
  }

  class YouTubeCollector {
    const base: Collector
    /** `Config.YOUTUBE_API_KEY` */
    const apiKey: Option<string>
    /** The service `build` returns for the key. */
    const api: YouTubeApi
    /** `self.youtube` is set. */
    var connected: bool

    constructor(apiKey: Option<string>, api: YouTubeApi)
      ensures fresh(base) && base.platform == "youtube" && base.collectedData == []
      ensures this.apiKey == apiKey && this.api == api && !connected
    {
      base := new Collector("youtube");
      this.apiKey := apiKey;
      this.api := api;
      connected := false;
    }

    /** Succeeds iff the key is set. */
    method Authenticate() returns (ok: bool)
      modifies this
      ensures ok <==> Present(apiKey)
      ensures connected == (old(connected) || ok)
    {
      if !Present(apiKey) {
        return false;
      }
      connected := true;
      return true;
    }

    /** `_get_video_comments` */
    method GetVideoComments(videoId: Option<string>, maxResults: nat) returns (comments: seq<Record>)
      ensures comments == VideoComments(api, videoId, maxResults)
    {
      comments := [];
      if videoId.None? {
        return;
      }
      var vid := videoId.value;
      var pageToken: Option<string> := None;
      var totalCollected := 0;
      while totalCollected < maxResults
        invariant totalCollected == |comments| <= maxResults
        invariant Fetch(api, vid, maxResults, pageToken, comments).comments == Fetch(api, vid, maxResults, None, []).comments
        decreases maxResults - totalCollected
      {
        var requestMax := Min(100, maxResults - totalCollected);
        var response := api.commentThreads(vid, requestMax, pageToken);
        if !response.Page? || response.items == [] {
          FetchStopsHere(api, vid, maxResults, pageToken, comments);
          return;
        }
        ghost var before := comments;
        var raised;
        comments, totalCollected, raised := AppendPage(vid, response.items, maxResults, comments, totalCollected);
        FetchStep(api, vid, maxResults, pageToken, before, response.items, response.nextPageToken);
        if raised {
          // the KeyError reaches the handler, which returns what was collected
          return;
        }
        pageToken := response.nextPageToken;
        if !Present(pageToken) {
          return;
        }
      }
      FetchStopsHere(api, vid, maxResults, pageToken, comments);
    }

    /** `_search_videos_by_keywords` */
    method SearchVideosByKeywords(keywords: seq<string>, maxVideos: nat) returns (videoIds: seq<string>)
      ensures videoIds == SearchVideoIds(api, keywords, maxVideos)
    {
      videoIds := [];
      var k := 0;
      while k < |keywords|
        invariant 0 <= k <= |keywords|
        invariant videoIds == SearchVideoIds(api, keywords[..k], maxVideos)
      {
        videoIds := SearchKeyword(keywords[k], maxVideos, videoIds);
        SearchVideoIdsStep(api, keywords, k, maxVideos);
        k := k + 1;
      }
      assert keywords[..k] == keywords;
    }

    /** One keyword's search: its ids follow the ones already held; a search
        that raises adds none. */
    method SearchKeyword(keyword: string, maxVideos: nat, before: seq<string>) returns (videoIds: seq<string>)
      ensures videoIds == before + KeywordVideoIds(api, keyword, maxVideos, |before|)
    {
      var response := api.search(keyword, Min(50, maxVideos - |before|));
      if response.Videos? {
        videoIds := AppendVideoIds(response.items, maxVideos, before);
      } else {
        videoIds := before;
        AppendNil(before);
      }
    }

    /** `_search_and_collect` */
    method SearchAndCollect(keywords: seq<string>, limit: nat) returns (comments: seq<Record>)
      ensures comments == SearchAndCollectSpec(api, keywords, limit)
    {
      var videoIds := SearchVideosByKeywords(keywords, 10);
      if videoIds == [] {
        return [];
      }
      var perVideo := Max(1, limit / |videoIds|);
      comments := CollectVideos(videoIds, limit, perVideo, keywords);
    }

    /** The loop of `_search_and_collect` over the videos found: each adds
        its retagged comments until `limit` comments are in. */
    method CollectVideos(videoIds: seq<string>, limit: nat, perVideo: nat, keywords: seq<string>) returns (comments: seq<Record>)
      ensures comments == CommentsOfVideos(api, videoIds, limit, perVideo, keywords)
    {
      comments := [];
      var v := 0;
      while v < |videoIds|
        invariant 0 <= v <= |videoIds|
        invariant comments == CommentsOfVideos(api, videoIds[..v], limit, perVideo, keywords)
      {
        if |comments| >= limit {
          CommentsOfVideosStopped(api, videoIds, limit, perVideo, keywords, v);
          return;
        }
        var videoComments := GetVideoComments(Some(videoIds[v]), perVideo);
        var retagged := MarkKeywordSearch(videoComments, keywords);
        CommentsOfVideosStep(api, videoIds, limit, perVideo, keywords, v);
        comments := comments + retagged;
        v := v + 1;
      }
      assert videoIds[..v] == videoIds;
    }

    /** `collect_by_id`: authenticates first if needed; on failure nothing
        is collected. */
    method CollectById(videoId: Option<string>, limit: nat) returns (comments: seq<Record>)
      modifies this, base
      ensures old(connected) || Present(apiKey) ==>
        comments == VideoComments(api, videoId, limit) && base.collectedData == old(base.collectedData) + comments
      ensures !old(connected) && !Present(apiKey) ==> comments == [] && base.collectedData == old(base.collectedData)
    {
      if !connected {
        var ok := Authenticate();
        if !ok {
          return [];
        }
      }
      comments := GetVideoComments(videoId, limit);
      base.Extend(comments);
    }

    /** `collect_by_keywords` */
    method CollectByKeywords(keywords: seq<string>, limit: nat) returns (comments: seq<Record>)
      modifies this, base
      ensures old(connected) || Present(apiKey) ==>
        comments == SearchAndCollectSpec(api, keywords, limit) && base.collectedData == old(base.collectedData) + comments
      ensures !old(connected) && !Present(apiKey) ==> comments == [] && base.collectedData == old(base.collectedData)
    {
      if !connected {
        var ok := Authenticate();
        if !ok {
          return [];
        }
      }
      comments := SearchAndCollect(keywords, limit);
      base.Extend(comments);
    }
  }

  lemma CommentsOfVideosStep(api: YouTubeApi, videoIds: seq<string>, limit: nat, per: nat, keywords: seq<string>, v: nat)
    requires v < |videoIds| && |CommentsOfVideos(api, videoIds[..v], limit, per, keywords)| < limit
    ensures CommentsOfVideos(api, videoIds[..v + 1], limit, per, keywords) ==
      CommentsOfVideos(api, videoIds[..v], limit, per, keywords) + AllFromKeywordSearch(VideoComments(api, Some(videoIds[v]), per), keywords)
  {
    assert videoIds[..v + 1][..v] == videoIds[..v];
  }

  /** Once `limit` comments are in, no further video adds any. */
  lemma {:induction false} CommentsOfVideosStopped(api: YouTubeApi, videoIds: seq<string>, limit: nat, per: nat, keywords: seq<string>, v: nat)
    requires v <= |videoIds| && |CommentsOfVideos(api, videoIds[..v], limit, per, keywords)| >= limit
    ensures CommentsOfVideos(api, videoIds, limit, per, keywords) == CommentsOfVideos(api, videoIds[..v], limit, per, keywords)
    decreases |videoIds| - v
  {
    if v < |videoIds| {
      assert videoIds[..v + 1][..v] == videoIds[..v];
      CommentsOfVideosStopped(api, videoIds, limit, per, keywords, v + 1);
    } else {
      assert videoIds[..v] == videoIds;
    }
  }
}

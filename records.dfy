/** The common record every collector emits (one comment, reply, tweet or
    post). Engagement counts and timestamps are carried by the source without
    any decision depending on them and are not part of the model. */
module Records {
  import opened Wrappers

  datatype Record = Record(
    source: string,                          // 'youtube', 'twitter' or 'reddit'
    id: string,                              // the platform's id of the item
    textRaw: string,
    user: string,
    videoId: Option<string>,                 // YouTube comments: the video
    tweetId: Option<string>,                 // Twitter replies: the tweet replied to
    threadId: Option<string>,                // Reddit comments: the post
    isReply: Option<bool>,                   // Twitter only
    collectionMethod: Option<string>,
    searchKeywords: Option<seq<string>>,     // keyword mode only
    searchSubreddit: Option<string>)         // Reddit keyword mode only
  {
    /** `record['collection_method'] = tag` */
    function Tagged(tag: string): (r: Record)
      ensures r.collectionMethod == Some(tag)
    {
      this.(collectionMethod := Some(tag))
    }

    /** The retagging every collector applies to keyword-mode results. */
    function FromKeywordSearch(keywords: seq<string>): (r: Record)
      ensures r.collectionMethod == Some("keyword_search") && r.searchKeywords == Some(keywords)
    {
      this.(collectionMethod := Some("keyword_search"), searchKeywords := Some(keywords))
    }
  }

  /** Retags every record of a keyword search, keeping their order. */
  function AllFromKeywordSearch(rs: seq<Record>, keywords: seq<string>): (out: seq<Record>)
    ensures |out| == |rs|
    ensures forall i :: 0 <= i < |rs| ==> out[i] == rs[i].FromKeywordSearch(keywords)
  {
    if rs == [] then [] else AllFromKeywordSearch(rs[..|rs| - 1], keywords) + [rs[|rs| - 1].FromKeywordSearch(keywords)]
  }

  /** Tags every record with one collection method, keeping their order. */
  function AllTagged(rs: seq<Record>, tag: string): (out: seq<Record>)
    ensures |out| == |rs|
    ensures forall i :: 0 <= i < |rs| ==> out[i] == rs[i].Tagged(tag)
  {
    if rs == [] then [] else AllTagged(rs[..|rs| - 1], tag) + [rs[|rs| - 1].Tagged(tag)]
  }

  /** `for r in records: r['collection_method'] = tag` */
  method TagEach(rs: seq<Record>, tag: string) returns (out: seq<Record>)
    ensures out == AllTagged(rs, tag)
  {
    out := [];
    var i := 0;
    while i < |rs|
      invariant 0 <= i <= |rs|
      invariant out == AllTagged(rs[..i], tag)
    {
      out := out + [rs[i].Tagged(tag)];
      i := i + 1;
      assert rs[..i][..i - 1] == rs[..i - 1];
    }
    assert rs[..i] == rs;
  }

  /** The keyword-mode retagging loop over a collector's results. */
  method MarkKeywordSearch(rs: seq<Record>, keywords: seq<string>) returns (out: seq<Record>)
    ensures out == AllFromKeywordSearch(rs, keywords)
  {
    out := [];
    var i := 0;
    while i < |rs|
      invariant 0 <= i <= |rs|
      invariant out == AllFromKeywordSearch(rs[..i], keywords)
    {
      out := out + [rs[i].FromKeywordSearch(keywords)];
      i := i + 1;
      assert rs[..i][..i - 1] == rs[..i - 1];
    }
    assert rs[..i] == rs;
  }
}

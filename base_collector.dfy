/** The state every platform collector shares: the platform name and the
    records collected so far, with saving, statistics and clearing. */
module BaseCollector {
  import opened Wrappers
  import opened Records

  /** The statistics `get_stats` reports; the timestamp is the caller's clock
      reading. */
  datatype Stats = Stats(platform: string, totalCollected: nat, uniqueSources: nat, timestamp: string)

  /** The formats `save_data` can write. */
  predicate SupportedFormat(format: string) {
    format == "jsonl" || format == "csv" || format == "parquet"
  }

  /** `item.get('video_id') or item.get('tweet_id') or item.get('thread_id')
      or 'unknown'`: the first present, non-empty id of the item's source. */
  function SourceKey(r: Record): (key: string)
    ensures key != ""
    ensures Present(r.videoId) ==> key == r.videoId.value
    ensures !Present(r.videoId) && !Present(r.tweetId) && !Present(r.threadId) ==> key == "unknown"
  {
    if Present(r.videoId) then r.videoId.value
    else if Present(r.tweetId) then r.tweetId.value
    else if Present(r.threadId) then r.threadId.value
    else "unknown"
  }

  /** The distinct source keys of some records. */
  function SourceKeys(items: seq<Record>): set<string> {
    if items == [] then {} else SourceKeys(items[..|items| - 1]) + {SourceKey(items[|items| - 1])}
  }

  /** There are never more distinct sources than records. */
  lemma {:induction false} SourceKeysBound(items: seq<Record>)
    ensures |SourceKeys(items)| <= |items|
    ensures forall i :: 0 <= i < |items| ==> SourceKey(items[i]) in SourceKeys(items)
  {
    if items != [] {
      SourceKeysBound(items[..|items| - 1]);
    }
  }

  class Collector {
    const platform: string
    var collectedData: seq<Record>

    /** A collector starts with nothing collected. */
    constructor(platform: string)
      ensures this.platform == platform && collectedData == []
    {
      this.platform := platform;
      collectedData := [];
    }

    /** `self.collected_data.extend(items)` */
    method Extend(items: seq<Record>)
      modifies this
      ensures collectedData == old(collectedData) + items
    {
      collectedData := collectedData + items;
    }

    /** Whether the records were written: nothing is written when nothing was
        collected, an unsupported format raises inside and is reported as
        `False`, and a writer failure (`writeSucceeds` false) likewise. */
    method SaveData(format: string, writeSucceeds: bool) returns (saved: bool)
      ensures saved <==> collectedData != [] && SupportedFormat(format) && writeSucceeds
    {
      if collectedData == [] {
        return false;
      }
      if format == "jsonl" || format == "csv" || format == "parquet" {
        saved := writeSucceeds;
      } else {
        saved := false;
      }
    }

    /** The statistics of what was collected: one distinct source per key. */
    method GetStats(timestamp: string) returns (stats: Stats)
      ensures stats == Stats(platform, |collectedData|, |SourceKeys(collectedData)|, timestamp)
      ensures stats.uniqueSources <= stats.totalCollected
    {
      var sources: set<string> := {};
      var i := 0;
      while i < |collectedData|
        invariant 0 <= i <= |collectedData|
        invariant sources == SourceKeys(collectedData[..i])
      {
        sources := sources + {SourceKey(collectedData[i])};
        i := i + 1;
        assert collectedData[..i][..i - 1] == collectedData[..i - 1];
      }
      assert collectedData[..i] == collectedData;
      SourceKeysBound(collectedData);
      stats := Stats(platform, |collectedData|, |sources|, timestamp);
    }

    /** Empties the list in place; the platform stays. */
    method ClearData()
      modifies this
      ensures collectedData == []
    {
      collectedData := [];
    }
  }
}

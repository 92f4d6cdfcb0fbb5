# Tunisian data collection, modelled in Dafny

This project models the core of a Python tool that builds a Tunisian-Arabic
sentiment corpus. The tool has three parts:

- **Collection.** A command-line driver (`collect.py`) validates its
  arguments and the API credentials. It then runs one collector per platform:
  - YouTube comments, fetched page by page;
  - Twitter timelines, replies and keyword searches;
  - Reddit post comments and subreddit searches.

  Each collector turns API answers into one flat record shape, keeps them in
  its `collected_data` list and reports statistics. The driver saves each
  platform's records to a file whose name it derives from the arguments.
- **Repair.** `fix_jsonl.py` regroups JSONL files written with pretty-printed
  objects into one object per line.
- **Merge.** `merge_datasets.py` projects four origins to rows
  `{source, source_id, text, label}`:
  - an annotated spreadsheet;
  - the ArSAS and TSAC hosted datasets;
  - the directory of collected batch files.

  It maps every label vocabulary into the scheme {0 neutral/unknown,
  1 positive, 2 negative}, concatenates the tables, fills missing labels
  with 0, drops duplicate texts and drops short texts.
  `merge_collected_data.py` does the same projection for the batch files
  alone, with every label 0.

The APIs, the hosted datasets, the JSON parser and the clock are not modelled
as code. They are parameters:

- An API is a datatype of functions. It answers a request with a page, a
  list of items, or an error.
- A hosted dataset is a sequence of splits of items.
- `json.loads` is a function returning an optional value.
- A timestamp is a string argument.

Everything the code decides about those answers is modelled: loops, budgets,
filters, tags, error handling and state changes. Each Python module becomes a
Dafny module of the same name. Each collector class becomes a Dafny `class`:

- it holds its `BaseCollector` part, a `Collector` object with the
  `platform` and `collectedData` fields;
- it holds its credentials and a `connected` flag;
- its methods `modify` that state.

Each loop becomes a `while` loop. The loop is proved equal to a recursive
specification function, and the properties the code promises are proved
about that function.

The model follows the code as written. Behaviours worth knowing:

- **Deduplication.** It is on the exact, untrimmed text (`drop_duplicates`
  at merge_datasets.py:269). Only batch-file texts are stored stripped. A
  spreadsheet text `" abc"` and a batch text `"abc"` both survive.
- **TSAC labels.** The lookup is case-sensitive (merge_datasets.py:164).
  Only the spreadsheet and ArSAS lookups go through `strip().lower()`.
- **Failed origins.** Not every one is skipped:
  - a TSAC load failure gives an empty table;
  - an ArSAS load failure is re-raised (merge_datasets.py:62-64) and ends
    the merge;
  - so does a spreadsheet that cannot be read, and an ArSAS item whose
    sample print slices a non-string text;
  - so does a list or dict text anywhere in the combined table, because
    `drop_duplicates` cannot hash it (merge_datasets.py:269).
- **Twitter keyword cap.** Keyword search caps each keyword, not the total
  (collectors/twitter_collector.py:138-142).
- **ID mode with `--platform all`.** `validate_args` accepts it with no
  identifier at all (collect.py:121-127).
- **fix_jsonl.** `quick_fix_jsonl` never closes an object on its opening
  line. Two one-line objects in a row are glued into one string
  (fix_jsonl.py:22-31).

Some names differ from the source because `label` is a Dafny keyword:

- the label column of a row is called `sentiment`;
- label results are named `mapped`.

## Model

| member | source | states |
|---|---|---|
| Normalizer.ProjectLine | merge_datasets.py:205-219 | a line yields a row only when it parses to an object whose `text_raw`/`text`/`content` text is a non-blank string; the row's text is that text stripped (non-empty, no surrounding whitespace) and its label is the caller's |
| Normalizer.FileRows | merge_datasets.py:203-225 | at most one row per line, and every row is a projected row |
| Normalizer.FilesRows | merge_datasets.py:196-225 | every row of a listing is a projected row |
| Normalizer.DirectoryRows | merge_datasets.py:190-193 | a directory that does not exist yields no rows |
| Normalizer.ReadDirectory | merge_datasets.py:186-232 | the nested loop over files and lines appends exactly the rows of `DirectoryRows` |
| Normalizer.AppendFileRows | merge_datasets.py:203-225 | the loop over one file's lines appends exactly that file's rows after those already gathered |
| Normalizer.FilesRowsSnoc | merge_datasets.py:196-197 | one more file in the listing adds its rows, if it is a `.jsonl` file, after the others' |
| Normalizer.FileRowsSnoc | merge_datasets.py:203-219 | one more line adds its row, if it yields one, after the others' |
| Normalizer.FileRowsAppend | merge_datasets.py:203-225 | lines are handled independently: the rows of `a + b` are the rows of `a` followed by those of `b` |
| Normalizer.MalformedLineSkipped | merge_datasets.py:220-225 | a line that does not parse contributes nothing, and the lines before and after it give the same rows as without it |
| Normalizer.UnparsedLineSkipped | merge_datasets.py:220-222 | a line that is not valid JSON yields no row |
| Normalizer.FilesRowsAppend | merge_datasets.py:196-225 | files are handled independently, in listing order |
| Normalizer.OtherFileIgnored | merge_datasets.py:196-197 | a file whose name does not end in `.jsonl` contributes nothing and does not disturb the others |
| Normalizer.ProjectionFallbacks | merge_datasets.py:208-213 | a missing `source` becomes 'unknown'; a present `id` wins over `source_id`; a present but empty `text_raw` skips the line, whatever `text`/`content` hold |
| Normalizer.FileRowsRelabel | merge_collected_data.py:29-43 | the label given changes nothing else: the rows read with one label are the rows read with another, relabelled |
| Normalizer.FilesRowsRelabel | merge_collected_data.py:22-47 | the same for a whole listing |
| Normalizer.DirectoryRowsRelabel | merge_collected_data.py:14-54 | the same for a directory |
| Normalizer.RelabelAppend | merge_collected_data.py:37-43 | relabelling distributes over concatenation |
| MergeDatasets.LookupInScheme | merge_datasets.py:37-41 | a lookup in any of the three vocabularies, with default 0, lands in {0,1,2} |
| MergeDatasets.ExcelLabel | merge_datasets.py:45-46 | the label is NaN iff the `label` cell is missing or NaN; otherwise it is in {0,1,2} |
| MergeDatasets.ProcessExcelData | merge_datasets.py:29-54 | the loop yields one row per spreadsheet row, in order, and an unreadable sheet ends the merge |
| MergeDatasets.ArsasLabel | merge_datasets.py:113-116 | the ArSAS label is always in {0,1,2} |
| MergeDatasets.ProcessArsasDataset | merge_datasets.py:57-128 | a load failure or an item whose sample print raises ends the merge (None); otherwise every item of every split, split after split |
| MergeDatasets.TsacLabel | merge_datasets.py:158-164 | the TSAC label is always in {0,1,2} |
| MergeDatasets.ProcessTsacDataset | merge_datasets.py:131-184 | a load failure gives an empty table; otherwise every item whose label can be looked up, split after split |
| MergeDatasets.ProcessJsonlFiles | merge_datasets.py:186-232 | the batch files give exactly the directory's rows, with NaN labels |
| MergeDatasets.ArsasRowsLabelled | merge_datasets.py:111-123 | every ArSAS row carries a label in the scheme |
| MergeDatasets.TsacSplitRowsLabelled | merge_datasets.py:154-165 | every row of a TSAC split carries a label in the scheme |
| MergeDatasets.TsacRowsLabelled | merge_datasets.py:149-177 | every TSAC row carries a label in the scheme |
| MergeDatasets.NormalisedLookupIgnoresCaseAndPadding | merge_datasets.py:46 | after `strip().lower()` the lookup is blind to case and to surrounding whitespace |
| MergeDatasets.TsacLookupIsCaseSensitive | merge_datasets.py:164 | TSAC maps 'Positive' to 1 but 'positive' to 0, while ArSAS maps 'Positive' to 1 |
| MergeDatasets.ArsasFalsyFieldIsSkipped | merge_datasets.py:111-113 | a present but falsy field is as good as absent for the `or` chains |
| MergeDatasets.FalsyFieldSkipped | merge_datasets.py:111-113 | dropping a falsy field leaves the value of every three-field `or` chain unchanged |
| MergeDatasets.NonEmptyTables | merge_datasets.py:254 | only non-empty tables are kept, each one of the origin tables |
| MergeDatasets.ConcatNonEmpty | merge_datasets.py:254-262 | dropping the empty tables does not change the concatenation |
| MergeDatasets.ConcatAppend | merge_datasets.py:262 | concatenation distributes over appending tables |
| MergeDatasets.ConcatOfFour | merge_datasets.py:254-262 | the merged rows are the spreadsheet's, ArSAS's, TSAC's and the batch files', in that order |
| MergeDatasets.DropDuplicateTexts | merge_datasets.py:269 | deduplication keeps a sub-collection of the rows, never more rows |
| MergeDatasets.DropDuplicatesKeepsFirstOccurrences | merge_datasets.py:269 | deduplication keeps exactly the rows no earlier row shares a text with, in order |
| MergeDatasets.FirstOccurrenceIffUnseen | merge_datasets.py:269 | a row is the first with its text iff its text is not among the texts of the rows before it |
| MergeDatasets.DropDuplicatesKeepsTexts | merge_datasets.py:269 | no text is lost |
| MergeDatasets.DropDuplicatesUnique | merge_datasets.py:269 | afterwards no two rows share a text |
| MergeDatasets.DropDuplicatesOfUnique | merge_datasets.py:269 | a table with unique texts is left unchanged |
| MergeDatasets.DropDuplicatesIdempotent | merge_datasets.py:269 | deduplicating twice is deduplicating once |
| MergeDatasets.UniqueTextsCount | merge_datasets.py:268-270 | with unique texts, there are as many texts as rows |
| MergeDatasets.RemovedDuplicatesCount | merge_datasets.py:268-270 | the number of rows removed is the rows minus the distinct texts |
| MergeDatasets.DropShortTexts | merge_datasets.py:274 | a row is kept iff its stripped text is longer than 5; never more rows |
| MergeDatasets.DropShortKeepsUnique | merge_datasets.py:274 | the length filter keeps the texts unique |
| MergeDatasets.ShortTextBoundary | merge_datasets.py:274 | a stripped text of length 5 is dropped, one of length 6 kept, and padding does not change the verdict |
| MergeDatasets.MergeAllDatasets | merge_datasets.py:234-275 | the merge reads the four origins in order and ends Failed (unreadable sheet, ArSAS failure, or an unhashable text at dedup), NoData, or with the filtered table and the duplicate count |
| MergeDatasets.PipelineFailsIffUnhashable | merge_datasets.py:254-269 | once some origin has rows, the merge fails iff some combined text is a list or a dict, and merges otherwise |
| MergeDatasets.ArsasListTextFails | merge_datasets.py:269 | an ArSAS text that is a non-empty list passes the sample print but makes deduplication raise, so the whole merge fails |
| MergeDatasets.ConcatLabelled | merge_datasets.py:262-265 | concatenating labelled tables keeps every label NaN or in the scheme |
| MergeDatasets.PipelineProperties | merge_datasets.py:262-274 | after concat, fill, dedup and filter every label is in {0,1,2}, every text is long and no two rows share a text |
| MergeDatasets.MergedTableProperties | merge_datasets.py:234-274 | the same for the merge of any four origins |
| MergeDatasets.RemovedDuplicatesIsRepeatedTexts | merge_datasets.py:268-270 | `removed_duplicates` is the merged row count minus the number of distinct texts |
| MergeDatasets.NoDataIffAllEmpty | merge_datasets.py:254-258 | there is nothing to merge iff every origin table is empty |
| MergeDatasets.LoadFailures | merge_datasets.py:182-184 | a TSAC load failure is the same as an empty TSAC table, while a missing ArSAS dataset fails the merge |
| MergeCollectedData.ProcessJsonlFiles | merge_collected_data.py:14-54 | the batch files give exactly the directory's rows, each labelled 0 |
| MergeCollectedData.CollectedDataset | merge_collected_data.py:62-71 | a table is written iff at least one row was produced, and it is exactly those rows |
| MergeCollectedData.SameRowsAsFullMerge | merge_collected_data.py:29-43 | this script reads the same rows as the full merge, with label 0 in place of NaN |
| BaseCollector.SourceKey | collectors/base_collector.py:59 | the key is the video id when present, 'unknown' when no id is present, never empty |
| BaseCollector.SourceKeysBound | collectors/base_collector.py:57-65 | there are never more distinct sources than records, and every record's key is among them |
| BaseCollector.Collector.constructor | collectors/base_collector.py:11-13 | a collector starts with its platform and nothing collected |
| BaseCollector.Collector.Extend | collectors/youtube_collector.py:38 | `collected_data.extend(items)` appends exactly the items |
| BaseCollector.Collector.SaveData | collectors/base_collector.py:30-53 | saving succeeds iff there is data, the format is jsonl, csv or parquet, and the writer succeeds |
| BaseCollector.Collector.GetStats | collectors/base_collector.py:55-67 | `total_collected` is the record count and `unique_sources` the number of distinct keys, never more than the count |
| BaseCollector.Collector.ClearData | collectors/base_collector.py:69-71 | the list is emptied; the platform stays |
| YouTubeCollector.WellFormedPrefix | collectors/youtube_collector.py:76-77 | the items before the first malformed thread, where the `KeyError` raises |
| YouTubeCollector.PageRecords | collectors/youtube_collector.py:76-96 | one page adds its well-formed leading threads, at most the room left |
| YouTubeCollector.Fetch | collectors/youtube_collector.py:58-114 | the pagination keeps what it had and never exceeds `max_results` |
| YouTubeCollector.FetchRequestsWithinBudget | collectors/youtube_collector.py:56-100 | every request asks for exactly `min(100, max_results - total_collected)`, with `total_collected` the count held when it is sent (so 1 to 100, never past the budget); the counts grow strictly between requests and never pass the final count; the first request carries the current token; no request is sent iff the budget is spent |
| YouTubeCollector.FetchUnfold | collectors/youtube_collector.py:60-100 | a spent budget sends no request; otherwise one request is sent, and the loop goes on from the next token only after a non-empty page that did not raise and had a token |
| YouTubeCollector.FetchRequestsSized | collectors/youtube_collector.py:60-62 | each request's size is `min(100, max_results - total_collected)` for the count held when it is sent |
| YouTubeCollector.FetchRequestsGrow | collectors/youtube_collector.py:76-100 | each request is sent holding strictly more comments than the one before |
| YouTubeCollector.FetchDirectComments | collectors/youtube_collector.py:78-90 | every comment fetched is a youtube record of that video tagged 'direct_id' |
| YouTubeCollector.FetchStep | collectors/youtube_collector.py:73-100 | a non-empty page adds its records, and the loop goes on from the next token unless the page raised or had no token |
| YouTubeCollector.VideoComments | collectors/youtube_collector.py:52-114 | never more than `max_results` comments |
| YouTubeCollector.EmptyFirstPage | collectors/youtube_collector.py:73-74 | an empty first page ends the loop with nothing, after one request |
| YouTubeCollector.LastPageWithoutToken | collectors/youtube_collector.py:98-100 | a first page without a next token is the only page read |
| YouTubeCollector.ErrorKeepsEarlierPages | collectors/youtube_collector.py:104-114 | an HTTP error on a later page keeps the comments of the earlier pages |
| YouTubeCollector.WellFormedVideos | collectors/youtube_collector.py:162-163 | the search results before the first one without `id.videoId` |
| YouTubeCollector.KeywordVideoIds | collectors/youtube_collector.py:150-176 | one keyword adds no more ids than the cap leaves room for (at least one is appended before the cap check) |
| YouTubeCollector.TakenIds | collectors/youtube_collector.py:162-169 | the ids taken are the well-formed leading results, cut to the cap |
| YouTubeCollector.SearchCapped | collectors/youtube_collector.py:145-178 | with a search that honours `maxResults`, at most `max_videos` ids are returned |
| YouTubeCollector.SearchNearlyCapped | collectors/youtube_collector.py:162-169 | whatever the search returns, each keyword adds at most one id beyond the cap |
| YouTubeCollector.KeywordModeWithinLimit | collectors/youtube_collector.py:116-143 | keyword mode never collects more than `limit` comments |
| YouTubeCollector.CommentsOfVideosWithinLimit | collectors/youtube_collector.py:127-140 | with the per-video budget, the total stays within `limit` and within videos × budget |
| YouTubeCollector.CommentsOfVideosTagged | collectors/youtube_collector.py:136-138 | every keyword-mode comment is tagged 'keyword_search' with the keywords |
| YouTubeCollector.CommentsOfVideosStep | collectors/youtube_collector.py:129-140 | below the limit, one more video appends its retagged comments |
| YouTubeCollector.CommentsOfVideosStopped | collectors/youtube_collector.py:130-131 | once `limit` comments are in, no further video adds any |
| YouTubeCollector.YouTubeCollector.constructor | collectors/youtube_collector.py:12-14 | platform 'youtube', nothing collected, no client yet |
| YouTubeCollector.YouTubeCollector.Authenticate | collectors/youtube_collector.py:16-28 | succeeds iff the API key is set, and then the client is set |
| YouTubeCollector.YouTubeCollector.GetVideoComments | collectors/youtube_collector.py:52-114 | the pagination loop returns exactly the specified comments |
| YouTubeCollector.AppendPage | collectors/youtube_collector.py:76-96 | the loop over one page appends the page's records up to the budget, counts them, and reports whether a malformed item raised |
| YouTubeCollector.FetchStopsHere | collectors/youtube_collector.py:60-74 | a spent budget, a failed request or an empty page ends the pagination with the comments held |
| YouTubeCollector.YouTubeCollector.SearchVideosByKeywords | collectors/youtube_collector.py:145-178 | the keyword loop returns exactly the specified ids |
| YouTubeCollector.YouTubeCollector.SearchKeyword | collectors/youtube_collector.py:150-175 | one keyword's search appends exactly that keyword's ids; a search that raises appends none |
| YouTubeCollector.AppendVideoIds | collectors/youtube_collector.py:162-169 | the loop over one keyword's results appends the ids taken before the cap or the first malformed result |
| YouTubeCollector.SearchVideoIdsStep | collectors/youtube_collector.py:149-175 | one more keyword appends its own ids, searched with the budget left |
| YouTubeCollector.YouTubeCollector.SearchAndCollect | collectors/youtube_collector.py:116-143 | the budget loop returns exactly the specified comments |
| YouTubeCollector.YouTubeCollector.CollectVideos | collectors/youtube_collector.py:129-141 | the loop over the videos found returns exactly the retagged comments of the videos visited before the limit was reached |
| YouTubeCollector.YouTubeCollector.CollectById | collectors/youtube_collector.py:30-39 | once connected, the video's comments are returned and appended; if authentication fails, nothing is returned or appended |
| YouTubeCollector.YouTubeCollector.CollectByKeywords | collectors/youtube_collector.py:41-50 | the same for keyword mode |
| RedditCollector.KeptComments | collectors/reddit_collector.py:53-57 | never more records than entries |
| RedditCollector.KeptCommentsSpec | collectors/reddit_collector.py:55-56 | a record is made iff the entry has a body that is not '[deleted]' or '[removed]'; it belongs to the post, carries the tag, and its user is the author or '[deleted]' |
| RedditCollector.KeptCount | collectors/reddit_collector.py:55 | the number of entries kept, at most the entries |
| RedditCollector.KeptCommentsCount | collectors/reddit_collector.py:54-57 | one record per kept entry |
| RedditCollector.PostComments | collectors/reddit_collector.py:89-119 | at most `max_comments` records |
| RedditCollector.DirectPostComments | collectors/reddit_collector.py:42-67 | at most `limit` records |
| RedditCollector.TruncateBeforeFilter | collectors/reddit_collector.py:51-55 | the cut comes before the filter: with limit 1 a removed first comment hides a good second one, which limit 2 returns |
| RedditCollector.RemovedPostYieldsNothing | collectors/reddit_collector.py:46-48 | a post with `removed_by_category` set yields nothing |
| RedditCollector.PostRecord | collectors/reddit_collector.py:152-156 | the post text is title, space, selftext, stripped; a missing author reads '[deleted]' |
| RedditCollector.KeptPosts | collectors/reddit_collector.py:150-164 | never more records than hits |
| RedditCollector.KeptPostsSpec | collectors/reddit_collector.py:151 | a hit is kept iff its selftext is not '[deleted]' or '[removed]' |
| RedditCollector.KeptPostsComplete | collectors/reddit_collector.py:150-164 | every hit whose selftext is not erased has its record kept |
| RedditCollector.KeptPostsSound | collectors/reddit_collector.py:150-164 | every kept record is the record of a hit whose selftext is not erased |
| RedditCollector.SearchErrorStops | collectors/reddit_collector.py:142-170 | a search that raises keeps the posts found before it and no later keyword is searched |
| RedditCollector.RaisedStays | collectors/reddit_collector.py:167-170 | once raised, the search state no longer changes |
| RedditCollector.SubredditSearchBound | collectors/reddit_collector.py:145-148 | with a search that honours its limit, at most keywords × per-keyword posts |
| RedditCollector.PostsWithinMax | collectors/reddit_collector.py:148 | splitting `max_posts // len(keywords)` per keyword finds at most `max_posts` posts |
| RedditCollector.KeywordModeWithinLimit | collectors/reddit_collector.py:121-136 | keyword mode never collects more than `limit` comments |
| RedditCollector.CommentsOfPostsWithinLimit | collectors/reddit_collector.py:127-135 | with the per-post budget the total stays within `limit` and within posts × budget |
| RedditCollector.CommentsOfPostsFromPosts | collectors/reddit_collector.py:129-133 | every comment is a non-erased reddit comment of one of the posts found |
| RedditCollector.CommentsOfPostsStep | collectors/reddit_collector.py:129-133 | below the limit, one more post appends its comments |
| RedditCollector.CommentsOfPostsStopped | collectors/reddit_collector.py:130-131 | once `limit` comments are in, no further post adds any |
| RedditCollector.FromSubredditSearch | collectors/reddit_collector.py:81-84 | every record is tagged 'keyword_search' with the keywords and the subreddit, in order |
| RedditCollector.SubredditOrAll | collectors/reddit_collector.py:71 | the subreddit defaults to 'all' |
| RedditCollector.RedditCollector.constructor | collectors/reddit_collector.py:11-13 | platform 'reddit', nothing collected, no client yet |
| RedditCollector.RedditCollector.Authenticate | collectors/reddit_collector.py:15-32 | succeeds iff all three credentials are set |
| RedditCollector.RedditCollector.CollectById | collectors/reddit_collector.py:34-67 | once connected, the filtered comments are returned and appended; authentication failure, a fetch error or a missing id give nothing and append nothing |
| RedditCollector.RedditCollector.GetPostComments | collectors/reddit_collector.py:89-119 | the loop returns exactly the specified comments |
| RedditCollector.RedditCollector.SearchSubredditPosts | collectors/reddit_collector.py:138-170 | the keyword loop returns exactly the specified posts, stopping at the first error |
| RedditCollector.RedditCollector.SearchAndCollect | collectors/reddit_collector.py:121-136 | the budget loop returns exactly the specified comments |
| RedditCollector.RedditCollector.CollectPosts | collectors/reddit_collector.py:129-134 | the loop over the posts found returns exactly the comments of the posts visited before the limit was reached |
| RedditCollector.RedditCollector.CollectByKeywords | collectors/reddit_collector.py:69-87 | once connected, the retagged comments are returned and appended; otherwise nothing |
| RedditCollector.MarkSubredditSearch | collectors/reddit_collector.py:81-84 | every record is retagged as a keyword search of that subreddit, in the same order |
| TwitterCollector.Items | collectors/twitter_collector.py:99-102 | `Cursor(...).items(n)` yields the first `min(n, available)` statuses |
| TwitterCollector.ReplyRecords | collectors/twitter_collector.py:99-121 | never more records than statuses |
| TwitterCollector.ReplyRecordsSpec | collectors/twitter_collector.py:105-121 | a status is kept iff it replies to the tweet or to its author; every record is a reply to the tweet |
| TwitterCollector.Replies | collectors/twitter_collector.py:87-128 | at most `max_replies` records |
| TwitterCollector.KeywordRecords | collectors/twitter_collector.py:145-157 | one non-reply record per status, in order |
| TwitterCollector.KeywordTweetsBound | collectors/twitter_collector.py:134-157 | at most `len(keywords) * max_tweets` records |
| TwitterCollector.NoGlobalCap | collectors/twitter_collector.py:134-143 | when every search has enough statuses, exactly `len(keywords) * max_tweets` records: there is no global cap |
| TwitterCollector.FailureConfinedToKeyword | collectors/twitter_collector.py:134-162 | a search that raises affects only its own keyword |
| TwitterCollector.TimelineRecord | collectors/twitter_collector.py:181-192 | `is_reply` holds iff the status replies to some status |
| TwitterCollector.UserTweets | collectors/twitter_collector.py:166-200 | the first `max_tweets` timeline statuses, each with its id and its reply flag |
| TwitterCollector.ById | collectors/twitter_collector.py:46-61 | 'username' gives the timeline tagged 'direct_username', 'tweet_id' the replies tagged 'direct_tweet_id', any other type nothing |
| TwitterCollector.TwitterCollector.constructor | collectors/twitter_collector.py:11-13 | platform 'twitter', nothing collected, no client yet |
| TwitterCollector.TwitterCollector.Authenticate | collectors/twitter_collector.py:15-36 | succeeds iff all four credentials are set |
| TwitterCollector.TwitterCollector.CollectById | collectors/twitter_collector.py:38-68 | once connected and with a valid id type, the tagged records are returned and appended; otherwise nothing is returned or appended |
| Records.TagEach | collectors/twitter_collector.py:50-51 | the loop over the records sets each one's collection method to the tag and changes nothing else, keeping the order |
| Records.MarkKeywordSearch | collectors/twitter_collector.py:80-82 | the loop over the records marks each one as found by a keyword search for those keywords, keeping the order |
| TwitterCollector.TwitterCollector.CollectByKeywords | collectors/twitter_collector.py:70-85 | once connected, the retagged keyword records are returned and appended; otherwise nothing |
| TwitterCollector.TwitterCollector.GetTweetReplies | collectors/twitter_collector.py:87-128 | the loop returns exactly the specified replies |
| TwitterCollector.TwitterCollector.SearchTweetsByKeywords | collectors/twitter_collector.py:130-164 | the keyword loop returns exactly the specified records |
| TwitterCollector.AppendKeywordRecords | collectors/twitter_collector.py:138-156 | the loop over one keyword's stream appends one record per status, in stream order |
| TwitterCollector.KeywordTweetsStep | collectors/twitter_collector.py:134-160 | one more keyword appends its own records after the others' |
| TwitterCollector.TwitterCollector.GetUserTweets | collectors/twitter_collector.py:166-200 | the loop returns exactly the specified timeline records |
| Config.Select | utils/config.py:27-40 | the names whose group is incomplete, in order (reference definition) |
| Config.ValidateConfig | utils/config.py:25-43 | an error iff some variable is missing, with message "Missing environment variables: " and the names joined by ', ' |
| Config.AllPresent | utils/config.py:34 | `all(...)` holds iff every credential is set and non-empty |
| Config.MissingIsOrderedSelection | utils/config.py:27-40 | the list built group by group is the ordered selection of the names whose group is incomplete |
| Config.SelectAppend | utils/config.py:27-40 | selection distributes over concatenation |
| Config.SelectGroup | utils/config.py:32-40 | within a group every name is reported, or none |
| Config.MissingIffGroupIncomplete | utils/config.py:29-40 | a name is reported iff it is one of the eight and its group is incomplete |
| Config.ValidIffComplete | utils/config.py:42-43 | the configuration passes iff all three groups are complete |
| Config.NothingSet | utils/config.py:27-43 | with nothing set, all eight names are reported, in order |
| Config.OneTwitterSecretEmpty | utils/config.py:32-36 | one empty Twitter credential reports all four Twitter names and nothing else |
| FixJsonl.PlainNameGetsFixedSuffix | fix_jsonl.py:5-6 | a name with one `.jsonl`, at its end, gets `_fixed.jsonl` |
| FixJsonl.NameWithoutJsonlIsOverwritten | fix_jsonl.py:5-6 | a name without `.jsonl` is its own default output: the input is overwritten |
| FixJsonl.StepConsistent | fix_jsonl.py:17-38 | one turn keeps the loop invariant (an open object has its lines, starting with '{', and the count is their brace balance) and keeps the objects parsed so far |
| FixJsonl.RunConsistent | fix_jsonl.py:17-38 | every state the loop reaches is consistent, and parsed objects stay, in order |
| FixJsonl.RunAppend | fix_jsonl.py:17 | running over two pieces of input is running over their concatenation |
| FixJsonl.BlankLineIgnored | fix_jsonl.py:18-20 | a blank line changes nothing |
| FixJsonl.StrayLineDiscarded | fix_jsonl.py:22-27 | outside an object a line not starting with '{' is discarded |
| FixJsonl.OpeningLineStaysOpen | fix_jsonl.py:22-25 | an opening line never closes its object, balanced or not |
| FixJsonl.ClosesIffBalanced | fix_jsonl.py:26-38 | a continuation line closes the object iff the count reaches 0; then the lines are joined with no separator, the parse result (if any) appended, and the state reset either way |
| FixJsonl.PrettyPrintedObject | fix_jsonl.py:17-38 | example: the three lines `{`, `  "a": 1`, `}` become the one object that `{"a": 1}` parses to |
| FixJsonl.PrettyPrintedObjects | fix_jsonl.py:17-38 | for any file made of pretty-printed objects (each at least two non-blank lines, the first opening with `{`, braces unbalanced until the last line and balanced after it), the loop ends outside any object holding exactly the parses of each object's stripped lines joined with no separator, in file order, failed parses left out |
| FixJsonl.RunGroup | fix_jsonl.py:17-38 | from outside any object, one pretty-printed object is read to its end and its parse, if any, appended |
| FixJsonl.RunGroupPrefix | fix_jsonl.py:22-28 | before an object's last line, the lines read so far are the open object and the count is their brace balance |
| FixJsonl.ContinuationStaysOpen | fix_jsonl.py:26-28 | a continuation line that leaves the count non-zero is appended to the open object |
| FixJsonl.ContinuationCloses | fix_jsonl.py:26-38 | a continuation line that brings the count to zero closes the object, appending the parse of the lines joined with no separator, if it succeeds |
| FixJsonl.OneLineObjectsGlued | fix_jsonl.py:22-31 | two one-line objects in a row are glued into one string before parsing |
| FixJsonl.UnclosedObjectDropped | fix_jsonl.py:17-38 | an object still open at the end is dropped |
| FixJsonl.RenderLineCount | fix_jsonl.py:41-43 | the output has one line per object |
| FixJsonl.CountAbsent | fix_jsonl.py:41-43 | a dump without a line break adds no line |
| FixJsonl.QuickFixJsonl | fix_jsonl.py:3-45 | the output path is the default one, the objects are those of the line state machine, and the text written is their dumps, one per line |
| Collect.ValidateArgs | collect.py:116-139 | `(True, [])` iff the arguments are acceptable per platform and mode, else `(False, errors)` with the errors in check order |
| Collect.AcceptableIffNoErrors | collect.py:136-139 | no error iff the arguments are acceptable |
| Collect.AllPlatformsIdModeUnchecked | collect.py:121-127 | `--platform all --mode id` passes with no identifier |
| Collect.RedditKeywordErrorsInOrder | collect.py:130-134 | Reddit keyword mode with neither keywords nor subreddit reports both, keywords first |
| Collect.OutputFilenameShape | collect.py:170 | the name is `data_<platform>_<mode>_`, the identifier, then `_<timestamp>.<format>` |
| Collect.IdModeIdentifier | collect.py:154-164 | ids are cut to 8 characters, a username is kept whole and wins over a tweet id, otherwise 'unknown' |
| Collect.KeywordIdentifier | collect.py:166-168 | the first two keywords joined by '_', prefixed by the subreddit for Reddit |
| Collect.NoKeywordsIdentifier | collect.py:166 | no keywords gives 'search' |
| Collect.CollectData | collect.py:172-197 | dispatch on mode (and, for Twitter, on whether a username is given); the records are appended to the collector |
| Collect.Platforms | collect.py:225 | 'all' expands to youtube, twitter, reddit in that order |
| Collect.TotalIsItemCount | collect.py:258-265 | the summary total is the number of records collected by all platforms |
| Collect.StatsEntriesNonEmpty | collect.py:240-249 | each statistics entry is of a platform that collected something, with no more sources than records |
| Collect.ConfigPassedMeansReady | collect.py:213-219 | once the configuration passes, every platform's credentials are complete |
| Collect.GetCollector | collect.py:141-148 | a fresh collector of the platform, with nothing collected, whose collection is the platform's |
| Collect.CollectPlatform | collect.py:234-256 | statistics and a path are produced iff the platform collected something, and they describe what it collected |
| Collect.CollectFresh | collect.py:235-238 | a fresh collector of the platform whose collection holds exactly the platform's records |
| Collect.CollectAll | collect.py:229-256 | the loop over the platforms returns exactly the statistics and paths of the platforms that collected something, in platform order |
| Collect.PlatformStep | collect.py:229-256 | one more platform appends its statistics and path iff it collected something |
| Collect.RunCollection | collect.py:199-270 | argument errors, else a configuration error, else the per-platform statistics, their total and the paths written |
| Collect.SummaryTotal | collect.py:264 | the total is the sum of `total_collected` |

## Left out

- I/O is not modelled: reading and writing files, `print` logging,
  `tqdm`, `time.sleep`, `time.time`, `datetime.now` and `sys.exit`.
  Timestamps are parameters. An exit is the `RunOutcome` it ends with.
- `input()` in `get_file_paths` and `get_jsonl_directory` is left out, and
  so is `main` of merge_datasets.py. Paths are parameters.
- `setup_argparse`, `load_dotenv` and `os.getenv` are left out. The parsed
  arguments are the `Args` datatype, and `Args.WellFormed` states what
  argparse's `choices` guarantee. The credentials are a `Credentials` value.
- The API clients are left out: `googleapiclient`, `tweepy`, `praw` and
  the client-building part of each `authenticate`. The APIs are oracles;
  authentication succeeds iff the credentials are set. Rate-limit waiting
  is not modelled.
- Engagement and time fields of the records are left out: `created_at`,
  `likes`, `score`, `reply_count`, `parent_id`, `is_submitter`,
  `subreddit`, `num_comments`, `is_post` and `collection_timestamp`. No
  decision depends on them.
- pandas is not modelled: `DataFrame` construction, dtype inference, and
  `to_excel`/`to_csv`/`to_parquet`/`to_json` with the CSV fallback. Tables
  are sequences of rows. The Excel and CSV write of the merge is not
  modelled.
- Collector.SaveData: the writer's failure is the `writeSucceeds`
  parameter.
- Collect.RunCollection: the result of `save_data` is ignored by `main`,
  and the model passes a succeeding writer.
- Exact dedup compares values as written. Python's `1 == True` hashing
  and NaN handling in `drop_duplicates` are not modelled.
- Values.Value models JSON numbers as integers. Floats and NaN are not
  modelled; NaN is `Null`.
- PyStr.Lower lower-cases ASCII only. The label vocabularies are ASCII,
  and no non-ASCII character lower-cases into them.
- `limit` is a `nat`. Negative limits and Python's slicing with negative
  numbers are not modelled.
- Text decode errors of the batch files are not modelled.
- A directory entry named `*.jsonl` that is not a file is not modelled.
- A non-dict ArSAS item that `dict(item)` cannot convert is not modelled:
  items are maps.
- The "could not inspect first item" handler of the ArSAS split loop is
  not modelled.
- fix_jsonl.py:47-59 is not part of this model. Those are hard-coded
  calls on fixed files.
- `print_sample`, and the label and source distribution printouts, are
  display only.
- `collectors/__init__.py` only re-exports.
- RedditCollector.DirectPostComments, RedditCollector.PostComments and
  RedditCollector.RedditCollector.GetPostComments: an exception raised while
  reading one comment's attributes is not modelled (in `_get_post_comments`
  it would return the comments gathered so far, reddit_collector.py:116-119). Comments are complete or have
  no body. `str(comment.author)` is the author's name.
- TwitterCollector.TwitterCollector.CollectById: the handler at
  collectors/twitter_collector.py:63-67 cannot be reached in the model.
  Every collection step it wraps catches its own exceptions.
- The `try`/`except` in `collect_data` and in the platform loop of `main`
  (collect.py:195-197 and 254-256) cannot be reached in the model, for the
  same reason.
- Twitter: a `None` tweet id or username yields nothing; the call that
  would raise is not made. Whether `include_rts=False` drops retweets is
  up to the API oracle.
- YouTubeCollector.SearchCapped: assumes the search honours `maxResults`.
  SearchNearlyCapped gives the bound that holds without that assumption.
- RedditCollector.PostsWithinMax assumes the search honours its limit.
- Each run uses one clock reading for file names and one for statistics.
  The source calls `datetime.now` afresh for each platform.

/** The merge of the four origins into one labelled table: a spreadsheet of
    annotated posts, the ArSAS and TSAC hosted datasets, and a directory of
    collected batch files. Each origin is projected to rows and its label
    vocabulary mapped into the three-class scheme (0 neutral or unknown,
    1 positive, 2 negative); the rows are then concatenated, labels filled,
    duplicate texts dropped and short texts filtered out. */
module MergeDatasets {
  import opened Wrappers
  import opened PyStr
  import opened Values
  import opened Normalizer

  /** One spreadsheet row or one hosted-dataset item: column or field name to value. */
  type Item = map<string, Value>

  /** A hosted dataset: its splits in key order, each a sequence of items. */
  type HubDataset = seq<seq<Item>>

  const ExcelVocabulary: map<string, int> := map[
    "anger" := 2, "disgust" := 2, "fear" := 2, "pessimism" := 2, "sadness" := 2,
    "happiness" := 1, "optimism" := 1,
    "anticipation" := 0, "confusion" := 0, "neutral" := 0, "surprise" := 0]

  const ArsasVocabulary: map<string, int> := map[
    "positive" := 1, "pos" := 1, "negative" := 2, "neg" := 2, "neutral" := 0, "mixed" := 0]

  const TsacVocabulary: map<string, int> := map["Positive" := 1, "Negative" := 2, "Neutral" := 0]

  /** The three classes of the target scheme. */
  predicate InScheme(n: int) {
    0 <= n <= 2
  }

  /** `vocabulary.get(key, 0)` */
  function Lookup(vocabulary: map<string, int>, key: string): int {
    if key in vocabulary then vocabulary[key] else 0
  }

  /** Every value of every vocabulary is a class of the scheme, so a lookup
      always lands in the scheme. */
  lemma LookupInScheme(vocabulary: map<string, int>, key: string)
    requires vocabulary == ExcelVocabulary || vocabulary == ArsasVocabulary || vocabulary == TsacVocabulary
    ensures InScheme(Lookup(vocabulary, key))
  {
  }

  /** `str(v).strip().lower()` looked up in a vocabulary. The text of a
      non-string value (a number, a boolean, a list) is never one of the
      lower-case words of a vocabulary, so such a value maps to 0. */
  function NormalisedLookup(vocabulary: map<string, int>, v: Value): int {
    if v.Str? then Lookup(vocabulary, Lower(Strip(v.s))) else 0
  }

  // ---------------------------------------------------------------- Excel

  /** The label of a spreadsheet row: a missing column or an empty cell is
      NaN (`None`), anything else is normalised and looked up. */
  function ExcelLabel(row: Item): (sentiment: Option<int>)
    ensures sentiment.None? <==> Get(row, "label", Null) == Null
    ensures sentiment.Some? ==> InScheme(sentiment.value)
  {
    var orig := Get(row, "label", Null);
    if orig == Null then None
    else
      LookupInScheme(ExcelVocabulary, if orig.Str? then Lower(Strip(orig.s)) else "");
      Some(NormalisedLookup(ExcelVocabulary, orig))
  }

  /** One spreadsheet row: source 'youtube', no id, the `post` cell as text. */
  function ExcelRow(row: Item): Row {
    Row(Str("youtube"), Null, Get(row, "post", Str("")), ExcelLabel(row))
  }

  function ExcelTable(sheet: seq<Item>): seq<Row> {
    seq(|sheet|, i requires 0 <= i < |sheet| => ExcelRow(sheet[i]))
  }

  /** The sheet as read, or `None` when reading it raises; the error is not
      caught and ends the whole merge. */
  method ProcessExcelData(sheet: Option<seq<Item>>) returns (table: Option<seq<Row>>)
    ensures table.None? <==> sheet.None?
    ensures table.Some? ==> |table.value| == |sheet.value|
    ensures table.Some? ==> forall i :: 0 <= i < |sheet.value| ==> table.value[i] == ExcelRow(sheet.value[i])
  {
    if sheet.None? {
      return None;
    }
    var rows := sheet.value;
    var processed: seq<Row> := [];
    var i := 0;
    while i < |rows|
      invariant 0 <= i <= |rows|
      invariant |processed| == i
      invariant forall k :: 0 <= k < i ==> processed[k] == ExcelRow(rows[k])
    {
      processed := processed + [ExcelRow(rows[i])];
      i := i + 1;
    }
    return Some(processed);
  }

  // ---------------------------------------------------------------- ArSAS

  /** `a or b or c or last` over three optional fields. */
  function FirstTruthy(item: Item, a: string, b: string, c: string, last: Value): Value {
    Or(Get(item, a, Null), Or(Get(item, b, Null), Or(Get(item, c, Null), last)))
  }

  function ArsasId(item: Item): Value {
    FirstTruthy(item, "Tweet_ID", "tweet_id", "id", Null)
  }

  function ArsasText(item: Item): Value {
    FirstTruthy(item, "Tweet_text", "tweet_text", "text", Str(""))
  }

  function ArsasLabel(item: Item): (mapped: int)
    ensures InScheme(mapped)
  {
    var raw := FirstTruthy(item, "label", "sentiment", "Sentiment_label_confidence", Str(""));
    LookupInScheme(ArsasVocabulary, if raw.Str? then Lower(Strip(raw.s)) else "");
    NormalisedLookup(ArsasVocabulary, raw)
  }

  function ArsasRow(item: Item): Row {
    Row(Str("twitter"), ArsasId(item), ArsasText(item), Some(ArsasLabel(item)))
  }

  /** `text[:50]`: only strings and lists can be sliced. */
  predicate Sliceable(v: Value) {
    v.Str? || v.List?
  }

  /** The sample print for the first two items of a split slices the text;
      an unsliceable text raises there, and nothing catches it. */
  predicate ArsasItemRaises(i: int, item: Item) {
    i < 2 && !Sliceable(ArsasText(item))
  }

  predicate ArsasRaises(dataset: HubDataset) {
    exists s, i :: 0 <= s < |dataset| && 0 <= i < |dataset[s]| && ArsasItemRaises(i, dataset[s][i])
  }

  function ArsasSplitRows(split: seq<Item>): seq<Row> {
    seq(|split|, i requires 0 <= i < |split| => ArsasRow(split[i]))
  }

  /** The rows of all splits, split after split. */
  function ArsasRows(dataset: HubDataset): seq<Row> {
    if dataset == [] then [] else ArsasRows(dataset[..|dataset| - 1]) + ArsasSplitRows(dataset[|dataset| - 1])
  }

  /** `None` when the load fails (the error is re-raised) or an item raises;
      otherwise every item of every split, in order. */
  method ProcessArsasDataset(dataset: Option<HubDataset>) returns (table: Option<seq<Row>>)
    ensures table.None? <==> dataset.None? || ArsasRaises(dataset.value)
    ensures table.Some? ==> table.value == ArsasRows(dataset.value)
  {
    if dataset.None? {
      return None;
    }
    var splits := dataset.value;
    var processed: seq<Row> := [];
    var s := 0;
    while s < |splits|
      invariant 0 <= s <= |splits|
      invariant processed == ArsasRows(splits[..s])
      invariant forall t, i :: 0 <= t < s && 0 <= i < |splits[t]| ==> !ArsasItemRaises(i, splits[t][i])
    {
      var ds := splits[s];
      var i := 0;
      while i < |ds|
        invariant 0 <= i <= |ds|
        invariant processed == ArsasRows(splits[..s]) + ArsasSplitRows(ds[..i])
        invariant forall k :: 0 <= k < i ==> !ArsasItemRaises(k, ds[k])
      {
        processed := processed + [ArsasRow(ds[i])];
        if ArsasItemRaises(i, ds[i]) {
          return None;
        }
        assert ArsasSplitRows(ds[..i + 1]) == ArsasSplitRows(ds[..i]) + [ArsasRow(ds[i])];
        i := i + 1;
      }
      assert ds[..i] == ds;
      s := s + 1;
      assert splits[..s][..s - 1] == splits[..s - 1];
    }
    assert splits[..s] == splits;
    return Some(processed);
  }

  // ---------------------------------------------------------------- TSAC

  /** The TSAC label is looked up as it is: exact and case-sensitive. */
  function TsacLabel(v: Value): (mapped: int)
    ensures InScheme(mapped)
  {
    LookupInScheme(TsacVocabulary, if v.Str? then v.s else "");
    if v.Str? then Lookup(TsacVocabulary, v.s) else 0
  }

  /** One TSAC item, or `None` when its label cannot be a dictionary key (a
      list or an object): the lookup raises and the item handler skips it.
      Text and label use nested `get` defaults. */
  function TsacRow(item: Item): Option<Row> {
    var raw := Get(item, "label", Get(item, "sentiment", Str("")));
    if raw.List? || raw.Dict? then None
    else
      var text := Get(item, "sentence", Get(item, "text", Get(item, "content", Str(""))));
      Some(Row(Str("facebook"), Null, text, Some(TsacLabel(raw))))
  }

  function TsacSplitRows(split: seq<Item>): seq<Row> {
    if split == [] then [] else TsacSplitRows(split[..|split| - 1]) + AsSeq(TsacRow(split[|split| - 1]))
  }

  function TsacRows(dataset: HubDataset): seq<Row> {
    if dataset == [] then [] else TsacRows(dataset[..|dataset| - 1]) + TsacSplitRows(dataset[|dataset| - 1])
  }

  /** A load failure yields an empty table; otherwise every item that does
      not raise, split after split. */
  method ProcessTsacDataset(dataset: Option<HubDataset>) returns (table: seq<Row>)
    ensures dataset.None? ==> table == []
    ensures dataset.Some? ==> table == TsacRows(dataset.value)
  {
    if dataset.None? {
      return [];
    }
    var splits := dataset.value;
    table := [];
    var s := 0;
    while s < |splits|
      invariant 0 <= s <= |splits|
      invariant table == TsacRows(splits[..s])
    {
      var split := splits[s];
      var i := 0;
      while i < |split|
        invariant 0 <= i <= |split|
        invariant table == TsacRows(splits[..s]) + TsacSplitRows(split[..i])
      {
        var r := TsacRow(split[i]);
        if r.Some? {
          table := table + [r.value];
        }
        i := i + 1;
        assert split[..i][..i - 1] == split[..i - 1];
      }
      assert split[..i] == split;
      s := s + 1;
      assert splits[..s][..s - 1] == splits[..s - 1];
    }
    assert splits[..s] == splits;
  }

  // ---------------------------------------------------------------- batch files

  /** The collected batch files, with no label (NaN). */
  method ProcessJsonlFiles(parse: Parser, dir: Directory) returns (table: seq<Row>)
    ensures table == DirectoryRows(parse, dir, None)
  {
    table := ReadDirectory(parse, dir, None);
  }

  /** Every label a table carries is NaN or a class of the scheme. */
  predicate LabelsInScheme(rows: seq<Row>) {
    forall i :: 0 <= i < |rows| && rows[i].sentiment.Some? ==> InScheme(rows[i].sentiment.value)
  }

  lemma {:induction false} ArsasRowsLabelled(dataset: HubDataset)
    ensures LabelsInScheme(ArsasRows(dataset))
  {
    if dataset != [] {
      ArsasRowsLabelled(dataset[..|dataset| - 1]);
    }
  }

  lemma {:induction false} TsacSplitRowsLabelled(split: seq<Item>)
    ensures LabelsInScheme(TsacSplitRows(split))
  {
    if split != [] {
      TsacSplitRowsLabelled(split[..|split| - 1]);
    }
  }

  lemma {:induction false} TsacRowsLabelled(dataset: HubDataset)
    ensures LabelsInScheme(TsacRows(dataset))
  {
    if dataset != [] {
      TsacRowsLabelled(dataset[..|dataset| - 1]);
      TsacSplitRowsLabelled(dataset[|dataset| - 1]);
    }
  }

  /** A label lookup after `strip().lower()` ignores case and surrounding
      whitespace: the spellings ' Anger', 'ANGER' and 'anger' map alike. */
  lemma NormalisedLookupIgnoresCaseAndPadding(vocabulary: map<string, int>, s: string)
    ensures NormalisedLookup(vocabulary, Str(Lower(s))) == NormalisedLookup(vocabulary, Str(s))
    ensures NormalisedLookup(vocabulary, Str(Strip(s))) == NormalisedLookup(vocabulary, Str(s))
  {
    StripLowerCommute(s);
    StripLowerCommute(Strip(s));
    StripIdempotent(s);
  }

  /** TSAC looks its labels up exactly: a lower-case 'positive' is unknown
      there (0), while ArSAS maps both spellings to positive (1). */
  lemma TsacLookupIsCaseSensitive()
    ensures TsacLabel(Str("Positive")) == 1 && TsacLabel(Str("positive")) == 0
    ensures NormalisedLookup(ArsasVocabulary, Str("Positive")) == 1
  {
    NormalisedPositive();
  }

  /** "Positive" has no padding and lower-cases to "positive". */
  lemma NormalisedPositive()
    ensures Lower(Strip("Positive")) == "positive"
  {
    var p := "Positive";
    assert !IsSpace(p[0]) && !IsSpace(p[|p| - 1]);
    assert TrimStart(p) == p;
    assert TrimEnd(p) == p;
    assert Lower(p) == "positive";
  }

  /** ArSAS fields fall through on falsy values with `or`: a field that is
      present but falsy (empty, zero, null) is as good as absent. */
  lemma ArsasFalsyFieldIsSkipped(item: Item, key: string, i: int)
    requires key in item && !Truthy(item[key])
    ensures ArsasRow(item - {key}) == ArsasRow(item)
    ensures ArsasItemRaises(i, item - {key}) == ArsasItemRaises(i, item)
  {
    FalsyFieldSkipped(item, key, "Tweet_ID", "tweet_id", "id", Null);
    FalsyFieldSkipped(item, key, "Tweet_text", "tweet_text", "text", Str(""));
    FalsyFieldSkipped(item, key, "label", "sentiment", "Sentiment_label_confidence", Str(""));
  }

  /** Dropping a falsy field leaves every `or` chain's value as it was. */
  lemma FalsyFieldSkipped(item: Item, key: string, a: string, b: string, c: string, last: Value)
    requires key in item && !Truthy(item[key])
    ensures FirstTruthy(item - {key}, a, b, c, last) == FirstTruthy(item, a, b, c, last)
  {
    var rest := item - {key};
    assert Or(Get(rest, c, Null), last) == Or(Get(item, c, Null), last);
    assert Or(Get(rest, b, Null), Or(Get(rest, c, Null), last)) == Or(Get(item, b, Null), Or(Get(item, c, Null), last));
  }

  // ---------------------------------------------------------------- the merge

  /** A row of the merged table: after `fillna(0).astype(int)` every label is
      an integer. */
  datatype Entry = Entry(source: Value, sourceId: Value, text: Value, sentiment: int)

  function Fill(r: Row): Entry {
    Entry(r.source, r.sourceId, r.text, r.sentiment.GetOr(0))
  }

  function FillLabels(rows: seq<Row>): seq<Entry> {
    seq(|rows|, i requires 0 <= i < |rows| => Fill(rows[i]))
  }

  /** The origin tables that have at least one row, in their order. */
  function NonEmptyTables(tables: seq<seq<Row>>): (kept: seq<seq<Row>>)
    ensures forall t :: t in kept ==> t != [] && t in tables
  {
    if tables == [] then []
    else
      var last := tables[|tables| - 1];
      NonEmptyTables(tables[..|tables| - 1]) + (if last == [] then [] else [last])
  }

  /** `pd.concat`: the rows of each table, table after table. */
  function Concat(tables: seq<seq<Row>>): seq<Row> {
    if tables == [] then [] else Concat(tables[..|tables| - 1]) + tables[|tables| - 1]
  }

  /** Leaving the empty tables out changes nothing in the concatenation. */
  lemma {:induction false} ConcatNonEmpty(tables: seq<seq<Row>>)
    ensures Concat(NonEmptyTables(tables)) == Concat(tables)
  {
    if tables != [] {
      var prefix := tables[..|tables| - 1];
      var last := tables[|tables| - 1];
      ConcatNonEmpty(prefix);
      ConcatAppend(NonEmptyTables(prefix), if last == [] then [] else [last]);
      if last != [] {
        assert Concat([last]) == last by {
          assert [last][..0] == [];
        }
      }
    }
  }

  lemma {:induction false} ConcatAppend(a: seq<seq<Row>>, b: seq<seq<Row>>)
    ensures Concat(a + b) == Concat(a) + Concat(b)
    decreases |b|
  {
    if b == [] {
      assert a + b == a;
    } else {
      var n := |b| - 1;
      assert (a + b)[..|a + b| - 1] == a + b[..n];
      ConcatAppend(a, b[..n]);
    }
  }

  lemma ConcatOfFour(tables: seq<seq<Row>>)
    requires |tables| == 4
    ensures Concat(tables) == tables[0] + tables[1] + tables[2] + tables[3]
  {
    var t3, t2, t1 := tables[..3], tables[..2], tables[..1];
    assert t3[..2] == t2 && t2[..1] == t1 && t1[..0] == [];
    assert Concat(tables) == Concat(t3) + tables[3];
    assert Concat(t3) == Concat(t2) + tables[2];
    assert Concat(t2) == Concat(t1) + tables[1];
    assert Concat(t1) == tables[0];
  }

  /** The texts a table carries. */
  function Texts(table: seq<Entry>): set<Value> {
    set e | e in table :: e.text
  }

  predicate UniqueTexts(table: seq<Entry>) {
    forall i, j :: 0 <= i < j < |table| ==> table[i].text != table[j].text
  }

  /** `drop_duplicates(subset=['text'])`: a row is kept iff no earlier row has
      the same text. Texts are compared exactly, surrounding whitespace
      included. */
  function DropDuplicateTexts(table: seq<Entry>): (kept: seq<Entry>)
    ensures |kept| <= |table|
    ensures forall e :: e in kept ==> e in table
  {
    if table == [] then []
    else
      var prefix := table[..|table| - 1];
      var last := table[|table| - 1];
      DropDuplicateTexts(prefix) + (if last.text in Texts(prefix) then [] else [last])
  }

  /** Row `i` is the first one carrying its text. */
  predicate IsFirstOccurrence(table: seq<Entry>, i: nat)
    requires i < |table|
  {
    forall j :: 0 <= j < i ==> table[j].text != table[i].text
  }

  /** Reference definition: the rows among the first `n` that are first
      occurrences, in table order. */
  function FirstOccurrences(table: seq<Entry>, n: nat): seq<Entry>
    requires n <= |table|
  {
    if n == 0 then []
    else FirstOccurrences(table, n - 1) + (if IsFirstOccurrence(table, n - 1) then [table[n - 1]] else [])
  }

  /** Deduplication keeps exactly the first occurrences, in order. */
  lemma {:induction false} DropDuplicatesKeepsFirstOccurrences(table: seq<Entry>, n: nat)
    requires n <= |table|
    ensures DropDuplicateTexts(table[..n]) == FirstOccurrences(table, n)
  {
    if n > 0 {
      DropDuplicatesKeepsFirstOccurrences(table, n - 1);
      assert table[..n][..n - 1] == table[..n - 1];
      assert table[..n][n - 1] == table[n - 1];
      FirstOccurrenceIffUnseen(table, n - 1);
    }
  }

  /** Row `i` is a first occurrence iff its text is not among the texts of
      the rows before it. */
  lemma FirstOccurrenceIffUnseen(table: seq<Entry>, i: nat)
    requires i < |table|
    ensures IsFirstOccurrence(table, i) <==> table[i].text !in Texts(table[..i])
  {
    var prefix := table[..i];
    if table[i].text in Texts(prefix) {
      var e :| e in prefix && e.text == table[i].text;
      var j :| 0 <= j < i && prefix[j] == e;
      assert table[j].text == table[i].text;
    } else {
      forall j | 0 <= j < i
        ensures table[j].text != table[i].text
      {
        assert prefix[j] in prefix;
      }
    }
  }

  /** No text is lost: every text of the input is still carried. */
  lemma {:induction false} DropDuplicatesKeepsTexts(table: seq<Entry>)
    ensures Texts(DropDuplicateTexts(table)) == Texts(table)
  {
    if table != [] {
      var prefix := table[..|table| - 1];
      var last := table[|table| - 1];
      DropDuplicatesKeepsTexts(prefix);
      assert table == prefix + [last];
      assert Texts(table) == Texts(prefix) + {last.text};
      var tail := if last.text in Texts(prefix) then [] else [last];
      assert Texts(DropDuplicateTexts(prefix) + tail) == Texts(DropDuplicateTexts(prefix)) + Texts(tail);
    }
  }

  /** After deduplication no two rows share a text. */
  lemma {:induction false} DropDuplicatesUnique(table: seq<Entry>)
    ensures UniqueTexts(DropDuplicateTexts(table))
  {
    if table != [] {
      var prefix := table[..|table| - 1];
      var last := table[|table| - 1];
      DropDuplicatesUnique(prefix);
      DropDuplicatesKeepsTexts(prefix);
      var head := DropDuplicateTexts(prefix);
      if last.text !in Texts(prefix) {
        forall i | 0 <= i < |head|
          ensures head[i].text != last.text
        {
          assert head[i] in head;
        }
      }
    }
  }

  /** A table whose texts are already unique is left as it is, so
      deduplication is idempotent. */
  lemma {:induction false} DropDuplicatesOfUnique(table: seq<Entry>)
    requires UniqueTexts(table)
    ensures DropDuplicateTexts(table) == table
  {
    if table != [] {
      var prefix := table[..|table| - 1];
      var last := table[|table| - 1];
      DropDuplicatesOfUnique(prefix);
      assert table == prefix + [last];
    }
  }

  lemma DropDuplicatesIdempotent(table: seq<Entry>)
    ensures DropDuplicateTexts(DropDuplicateTexts(table)) == DropDuplicateTexts(table)
  {
    DropDuplicatesUnique(table);
    DropDuplicatesOfUnique(DropDuplicateTexts(table));
  }

  /** A table with unique texts has as many texts as rows. */
  lemma {:induction false} UniqueTextsCount(table: seq<Entry>)
    requires UniqueTexts(table)
    ensures |Texts(table)| == |table|
  {
    if table != [] {
      var prefix := table[..|table| - 1];
      var last := table[|table| - 1];
      UniqueTextsCount(prefix);
      assert table == prefix + [last];
      assert Texts(table) == Texts(prefix) + {last.text};
    }
  }

  /** The number of rows deduplication removes: the rows minus the distinct texts. */
  lemma RemovedDuplicatesCount(table: seq<Entry>)
    ensures |table| - |DropDuplicateTexts(table)| == |table| - |Texts(table)|
  {
    DropDuplicatesUnique(table);
    DropDuplicatesKeepsTexts(table);
    UniqueTextsCount(DropDuplicateTexts(table));
  }

  /** `text.str.strip().str.len() > 5`; a text that is not a string is NaN
      for the string accessor, and NaN > 5 is false. */
  predicate LongText(e: Entry) {
    e.text.Str? && |Strip(e.text.s)| > 5
  }

  /** Keeps the rows with a long text, in order. */
  function DropShortTexts(table: seq<Entry>): (kept: seq<Entry>)
    ensures |kept| <= |table|
    ensures forall e :: e in kept <==> e in table && LongText(e)
  {
    if table == [] then []
    else
      var last := table[|table| - 1];
      DropShortTexts(table[..|table| - 1]) + (if LongText(last) then [last] else [])
  }

  /** Dropping rows keeps the texts unique. */
  lemma {:induction false} DropShortKeepsUnique(table: seq<Entry>)
    requires UniqueTexts(table)
    ensures UniqueTexts(DropShortTexts(table))
  {
    if table != [] {
      var prefix := table[..|table| - 1];
      var last := table[|table| - 1];
      DropShortKeepsUnique(prefix);
      var head := DropShortTexts(prefix);
      forall i | 0 <= i < |head|
        ensures head[i].text != last.text
      {
        assert head[i] in prefix;
        var j :| 0 <= j < |prefix| && prefix[j] == head[i];
        assert table[j] == prefix[j];
      }
    }
  }

  /** The length is taken after stripping: of two stripped texts, five
      characters are dropped and six kept, and padding never counts. */
  lemma ShortTextBoundary(e: Entry)
    requires e.text.Str? && IsStripped(e.text.s)
    ensures |e.text.s| == 5 ==> !LongText(e)
    ensures |e.text.s| == 6 ==> LongText(e)
    ensures !LongText(e.(text := Str("  " + e.text.s + "  "))) <==> !LongText(e)
  {
    StripIsStripped(e.text.s);
    StripPadding(e.text.s);
  }

  /** Two spaces either side are stripped off again. */
  lemma StripPadding(s: string)
    requires IsStripped(s)
    ensures Strip("  " + s + "  ") == Strip(s)
  {
    var p := "  " + s + "  ";
    var q := s + "  ";
    assert p[1..][1..] == q;
    assert TrimStart(p) == TrimStart(q);
    StripIsStripped(s);
    if s == [] {
      assert q == "  " && q[1..] == " " && q[1..][1..] == [];
      assert TrimStart(q) == TrimStart(q[1..]) == [];
    } else {
      assert q[0] == s[0];
      assert TrimStart(q) == q;
      assert q[..|q| - 1] == s + " ";
      assert (s + " ")[..|s|] == s;
      assert TrimEnd(q) == TrimEnd(s + " ") == TrimEnd(s);
      assert TrimStart(s) == s;
    }
  }

  /** What the merge ends with: it raises (the spreadsheet could not be
      read, ArSAS raised, or deduplication met a text it cannot hash), finds
      no rows at all, or produces the final table and the number of
      duplicate rows it removed. */
  datatype MergeResult = Failed | NoData | Merged(table: seq<Entry>, removedDuplicates: nat)

  /** A value pandas can hash; `drop_duplicates` raises `TypeError` on a
      list or a dict. */
  predicate Hashable(v: Value) {
    !v.List? && !v.Dict?
  }

  predicate TextsHashable(rows: seq<Row>) {
    forall i :: 0 <= i < |rows| ==> Hashable(rows[i].text)
  }

  /** Concatenation of the non-empty tables, label fill, deduplication, then
      the length filter; a list or dict text makes deduplication raise, and
      nothing catches it. */
  function Pipeline(tables: seq<seq<Row>>): MergeResult {
    var all := NonEmptyTables(tables);
    if all == [] then NoData
    else if !TextsHashable(Concat(all)) then Failed
    else
      var combined := FillLabels(Concat(all));
      var deduplicated := DropDuplicateTexts(combined);
      Merged(DropShortTexts(deduplicated), |combined| - |deduplicated|)
  }

  /** The four origin tables, in merge order, once none of them raised. */
  function OriginTables(sheet: seq<Item>, arsas: HubDataset, tsac: Option<HubDataset>, parse: Parser, dir: Directory): seq<seq<Row>> {
    [ExcelTable(sheet), ArsasRows(arsas), if tsac.Some? then TsacRows(tsac.value) else [], DirectoryRows(parse, dir, None)]
  }

  function MergeOutcome(sheet: Option<seq<Item>>, arsas: Option<HubDataset>, tsac: Option<HubDataset>, parse: Parser, dir: Directory): MergeResult {
    if sheet.None? || arsas.None? || ArsasRaises(arsas.value) then Failed
    else Pipeline(OriginTables(sheet.value, arsas.value, tsac, parse, dir))
  }

  /** The whole merge: the four origins read in order, then the pipeline.
      Writing the final table out is not part of the model. */
  method MergeAllDatasets(sheet: Option<seq<Item>>, arsas: Option<HubDataset>, tsac: Option<HubDataset>, parse: Parser, dir: Directory)
    returns (result: MergeResult)
    ensures result == MergeOutcome(sheet, arsas, tsac, parse, dir)
  {
    var excelTable := ProcessExcelData(sheet);
    if excelTable.None? {
      return Failed;
    }
    var arsasTable := ProcessArsasDataset(arsas);
    if arsasTable.None? {
      return Failed;
    }
    var tsacTable := ProcessTsacDataset(tsac);
    var jsonlTable := ProcessJsonlFiles(parse, dir);
    assert excelTable.value == ExcelTable(sheet.value);
    result := Pipeline([excelTable.value, arsasTable.value, tsacTable, jsonlTable]);
  }

  lemma {:induction false} ConcatLabelled(tables: seq<seq<Row>>)
    requires forall k :: 0 <= k < |tables| ==> LabelsInScheme(tables[k])
    ensures LabelsInScheme(Concat(tables))
  {
    if tables != [] {
      ConcatLabelled(tables[..|tables| - 1]);
    }
  }

  /** Whatever tables are merged, as long as their labels are NaN or in the
      scheme: every final label is a class of the scheme, every text is long
      and no two rows share a text. */
  lemma PipelineProperties(tables: seq<seq<Row>>)
    requires forall k :: 0 <= k < |tables| ==> LabelsInScheme(tables[k])
    ensures var result := Pipeline(tables);
      result.Merged? ==>
        && (forall e :: e in result.table ==> InScheme(e.sentiment) && LongText(e))
        && UniqueTexts(result.table)
  {
    ConcatNonEmpty(tables);
    ConcatLabelled(tables);
    var combined := FillLabels(Concat(tables));
    assert forall e :: e in combined ==> InScheme(e.sentiment);
    DropDuplicatesUnique(combined);
    DropShortKeepsUnique(DropDuplicateTexts(combined));
  }

  /** The merged table, whatever the origins hold: every label is a class of
      the scheme, no two rows share a text and every text is long. */
  lemma MergedTableProperties(sheet: Option<seq<Item>>, arsas: Option<HubDataset>, tsac: Option<HubDataset>, parse: Parser, dir: Directory)
    ensures var result := MergeOutcome(sheet, arsas, tsac, parse, dir);
      result.Merged? ==>
        && (forall e :: e in result.table ==> InScheme(e.sentiment) && LongText(e))
        && UniqueTexts(result.table)
  {
    if sheet.Some? && arsas.Some? {
      var tables := OriginTables(sheet.value, arsas.value, tsac, parse, dir);
      ArsasRowsLabelled(arsas.value);
      if tsac.Some? {
        TsacRowsLabelled(tsac.value);
      }
      var jsonl: seq<Row> := DirectoryRows(parse, dir, None);
      forall i | 0 <= i < |jsonl|
        ensures jsonl[i].sentiment.None?
      {
        assert jsonl[i] in jsonl;
      }
      PipelineProperties(tables);
    }
  }

  /** The removed-duplicates count equals the rows before deduplication minus
      their distinct texts. */
  lemma RemovedDuplicatesIsRepeatedTexts(tables: seq<seq<Row>>)
    ensures var result := Pipeline(tables);
      result.Merged? ==> result.removedDuplicates == |Concat(tables)| - |Texts(FillLabels(Concat(tables)))|
  {
    ConcatNonEmpty(tables);
    RemovedDuplicatesCount(FillLabels(Concat(tables)));
  }

  /** Once some table has rows, the pipeline fails iff some text is a list
      or a dict, and otherwise merges. */
  lemma PipelineFailsIffUnhashable(tables: seq<seq<Row>>)
    ensures var rows := Concat(tables);
      && (Pipeline(tables).Failed? <==> exists i :: 0 <= i < |rows| && !Hashable(rows[i].text))
      && (Pipeline(tables).Merged? <==> rows != [] && TextsHashable(rows))
  {
    ConcatNonEmpty(tables);
    if NonEmptyTables(tables) == [] {
      assert Concat(tables) == Concat([]) == [];
    }
  }

  /** An ArSAS text that is a non-empty list passes the sample print (a list
      can be sliced) but makes deduplication raise, so the merge fails. */
  lemma ArsasListTextFails(text: seq<Value>, parse: Parser)
    requires text != []
    ensures MergeOutcome(Some([]), Some([[map["Tweet_text" := List(text)]]]), None, parse, Missing) == Failed
  {
    var item: Item := map["Tweet_text" := List(text)];
    assert ArsasText(item) == List(text);
    assert !ArsasRaises([[item]]);
    var tables := OriginTables([], [[item]], None, parse, Missing);
    OneItemArsasRows(item);
    assert tables == [[], [ArsasRow(item)], [], []];
    ConcatOfFour(tables);
    assert Concat(tables) == [ArsasRow(item)];
    PipelineFailsIffUnhashable(tables);
    assert !Hashable(Concat(tables)[0].text);
  }

  lemma OneItemArsasRows(item: Item)
    ensures ArsasRows([[item]]) == [ArsasRow(item)]
  {
    assert [[item]][..0] == [];
  }

  /** Nothing to merge iff every origin table is empty. */
  lemma {:induction false} NoDataIffAllEmpty(tables: seq<seq<Row>>)
    ensures NonEmptyTables(tables) == [] <==> forall k :: 0 <= k < |tables| ==> tables[k] == []
  {
    if tables != [] {
      var n := |tables| - 1;
      var prefix, last := tables[..n], tables[n];
      NoDataIffAllEmpty(prefix);
      assert NonEmptyTables(tables) == NonEmptyTables(prefix) + (if last == [] then [] else [last]);
      assert forall k :: 0 <= k < n ==> prefix[k] == tables[k];
    }
  }

  /** A TSAC load failure is an empty TSAC table, while an ArSAS load failure
      ends the merge. */
  lemma LoadFailures(sheet: Option<seq<Item>>, arsas: Option<HubDataset>, parse: Parser, dir: Directory)
    ensures MergeOutcome(sheet, arsas, None, parse, dir) == MergeOutcome(sheet, arsas, Some([]), parse, dir)
    ensures MergeOutcome(sheet, None, None, parse, dir) == Failed
  {
    assert TsacRows([]) == [];
  }
}

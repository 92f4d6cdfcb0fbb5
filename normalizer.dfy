/** Re-reading persisted batch files: every line of every `.jsonl` file of a
    directory is parsed on its own and projected to one row of the merged
    table. Both merge scripts walk a directory this way; they differ only in
    the sentiment they give the rows. */
module Normalizer {
  import opened Wrappers
  import opened PyStr
  import opened Values
  import opened PyBuiltins

  /** One row of a merged table, `{source, source_id, text, label}` (the label
      is called `sentiment` here, `label` being a Dafny keyword); a label of
      `None` is pandas' NaN. */
  datatype Row = Row(source: Value, sourceId: Value, text: Value, sentiment: Option<int>)

  /** A batch file: its name and its lines, in file order. */
  datatype BatchFile = BatchFile(name: string, lines: seq<string>)

  /** A directory of batch files in `os.listdir` order, or a path that does
      not exist. */
  datatype Directory = Missing | Listing(files: seq<BatchFile>)

  /** A row as the projection leaves it: its text is stripped and not empty,
      and it carries the sentiment the caller chose. */
  predicate Projected(r: Row, sentiment: Option<int>) {
    r.text.Str? && r.text.s != "" && IsStripped(r.text.s) && r.sentiment == sentiment
  }

  /** The row one line yields, or `None` when the line is skipped. Field
      lookups use nested `get` defaults, so a key that is present wins even
      when its value is empty. */
  function ProjectLine(parse: Parser, line: string, sentiment: Option<int>): (r: Option<Row>)
    ensures r.Some? ==> Projected(r.value, sentiment)
  {
    match parse(Strip(line))
    case Some(Dict(d)) =>
      var source := Get(d, "source", Str("unknown"));
      var sourceId := Get(d, "id", Get(d, "source_id", Null));
      var text := Get(d, "text_raw", Get(d, "text", Get(d, "content", Str(""))));
      // `if text and text.strip()`: a falsy text is skipped; on a truthy
      // non-string `.strip()` raises, and the per-line handler skips the line
      if text.Str? && Strip(text.s) != "" then
        StripIsStripped(text.s);
        Some(Row(source, sourceId, Str(Strip(text.s)), sentiment))
      else None
    case _ => None   // malformed JSON, or a value that is not an object (`.get` raises)
  }

  function AsSeq(r: Option<Row>): seq<Row> {
    if r.Some? then [r.value] else []
  }

  /** The rows of one file, in line order. */
  function FileRows(parse: Parser, lines: seq<string>, sentiment: Option<int>): (rows: seq<Row>)
    ensures |rows| <= |lines|
    ensures forall r :: r in rows ==> Projected(r, sentiment)
  {
    if lines == [] then []
    else FileRows(parse, lines[..|lines| - 1], sentiment) + AsSeq(ProjectLine(parse, lines[|lines| - 1], sentiment))
  }

  /** The rows of a directory listing: the `.jsonl` files in listing order,
      each in line order; other files are not opened. */
  function FilesRows(parse: Parser, files: seq<BatchFile>, sentiment: Option<int>): (rows: seq<Row>)
    ensures forall r :: r in rows ==> Projected(r, sentiment)
  {
    if files == [] then []
    else
      var f := files[|files| - 1];
      FilesRows(parse, files[..|files| - 1], sentiment) + (if EndsWith(f.name, ".jsonl") then FileRows(parse, f.lines, sentiment) else [])
  }

  /** The rows of a directory; a directory that does not exist yields none. */
  function DirectoryRows(parse: Parser, dir: Directory, sentiment: Option<int>): (rows: seq<Row>)
    ensures dir.Missing? ==> rows == []
    ensures forall r :: r in rows ==> Projected(r, sentiment)
  {
    match dir
    case Missing => []
    case Listing(files) => FilesRows(parse, files, sentiment)
  }

  /** The nested loop both merge scripts run: files in listing order, lines
      in file order, one row appended per kept line. */
  method ReadDirectory(parse: Parser, dir: Directory, sentiment: Option<int>) returns (rows: seq<Row>)
    ensures rows == DirectoryRows(parse, dir, sentiment)
  {
    rows := [];
    if dir.Missing? {
      return;
    }
    var files := dir.files;
    var j := 0;
    while j < |files|
      invariant 0 <= j <= |files|
      invariant rows == FilesRows(parse, files[..j], sentiment)
    {
      var f := files[j];
      if EndsWith(f.name, ".jsonl") {
        rows := AppendFileRows(parse, f.lines, sentiment, rows);
      }
      FilesRowsSnoc(parse, files[..j], f, sentiment);
      j := j + 1;
      assert files[..j] == files[..j - 1] + [f];
    }
    assert files[..j] == files;
  }

  /** The inner loop over one file's lines, appending each kept line's row
      to the rows read so far. */
  method AppendFileRows(parse: Parser, lines: seq<string>, sentiment: Option<int>, acc: seq<Row>) returns (rows: seq<Row>)
    ensures rows == acc + FileRows(parse, lines, sentiment)
  {
    rows := acc;
    var k := 0;
    while k < |lines|
      invariant 0 <= k <= |lines|
      invariant rows == acc + FileRows(parse, lines[..k], sentiment)
    {
      var r := ProjectLine(parse, lines[k], sentiment);
      ghost var before := FileRows(parse, lines[..k], sentiment);
      rows := rows + AsSeq(r);
      AppendAssoc(acc, before, AsSeq(r));
      PrefixSnoc(lines, k);
      FileRowsSnoc(parse, lines[..k], lines[k], sentiment);
      k := k + 1;
    }
    assert lines[..k] == lines;
  }

  /** Lines are independent: the rows of two runs of lines are the rows of
      each, one after the other. */
  lemma {:induction false} FileRowsAppend(parse: Parser, a: seq<string>, b: seq<string>, sentiment: Option<int>)
    ensures FileRows(parse, a + b, sentiment) == FileRows(parse, a, sentiment) + FileRows(parse, b, sentiment)
    decreases |b|
  {
    if b == [] {
      assert a + b == a;
    } else {
      var n := |b| - 1;
      assert (a + b)[..|a + b| - 1] == a + b[..n];
      assert (a + b)[|a + b| - 1] == b[n];
      FileRowsAppend(parse, a, b[..n], sentiment);
    }
  }

  /** A line that does not parse is skipped, and the lines before and after it
      are read as if it were not there. */
  lemma MalformedLineSkipped(parse: Parser, lines: seq<string>, k: nat, sentiment: Option<int>)
    requires k < |lines| && parse(Strip(lines[k])).None?
    ensures FileRows(parse, lines, sentiment) == FileRows(parse, lines[..k], sentiment) + FileRows(parse, lines[k + 1..], sentiment)
  {
    var before, line, after := lines[..k], lines[k], lines[k + 1..];
    SplitAt(lines, k);
    FileRowsAppend(parse, before + [line], after, sentiment);
    FileRowsSnoc(parse, before, line, sentiment);
    UnparsedLineSkipped(parse, line, sentiment);
    AppendNil(FileRows(parse, before, sentiment));
  }

  lemma UnparsedLineSkipped(parse: Parser, line: string, sentiment: Option<int>)
    requires parse(Strip(line)).None?
    ensures ProjectLine(parse, line, sentiment) == None
  {
  }

  /** One more line adds its own row, if any, after the others'. */
  lemma FileRowsSnoc(parse: Parser, lines: seq<string>, line: string, sentiment: Option<int>)
    ensures FileRows(parse, lines + [line], sentiment) == FileRows(parse, lines, sentiment) + AsSeq(ProjectLine(parse, line, sentiment))
  {
    assert (lines + [line])[..|lines|] == lines;
  }

  /** Files are independent: the rows of two runs of files are the rows of
      each, one after the other. */
  lemma {:induction false} FilesRowsAppend(parse: Parser, a: seq<BatchFile>, b: seq<BatchFile>, sentiment: Option<int>)
    ensures FilesRows(parse, a + b, sentiment) == FilesRows(parse, a, sentiment) + FilesRows(parse, b, sentiment)
    decreases |b|
  {
    if b == [] {
      assert a + b == a;
    } else {
      var init, f := b[..|b| - 1], b[|b| - 1];
      var last := if EndsWith(f.name, ".jsonl") then FileRows(parse, f.lines, sentiment) else [];
      SplitLast(a, b);
      FilesRowsSnoc(parse, a + init, f, sentiment);
      FilesRowsSnoc(parse, init, f, sentiment);
      FilesRowsAppend(parse, a, init, sentiment);
      AppendAssoc(FilesRows(parse, a, sentiment), FilesRows(parse, init, sentiment), last);
    }
  }

  /** One more file adds its own rows after the others'. */
  lemma FilesRowsSnoc(parse: Parser, files: seq<BatchFile>, f: BatchFile, sentiment: Option<int>)
    ensures FilesRows(parse, files + [f], sentiment)
      == FilesRows(parse, files, sentiment) + (if EndsWith(f.name, ".jsonl") then FileRows(parse, f.lines, sentiment) else [])
  {
    assert (files + [f])[..|files|] == files;
  }

  /** A file whose name does not end in `.jsonl` contributes nothing and does
      not disturb the files around it. */
  lemma OtherFileIgnored(parse: Parser, before: seq<BatchFile>, f: BatchFile, after: seq<BatchFile>, sentiment: Option<int>)
    requires !EndsWith(f.name, ".jsonl")
    ensures FilesRows(parse, before + [f] + after, sentiment) == FilesRows(parse, before, sentiment) + FilesRows(parse, after, sentiment)
  {
    FilesRowsAppend(parse, before + [f], after, sentiment);
    assert FilesRows(parse, before + [f], sentiment) == FilesRows(parse, before, sentiment) by {
      assert (before + [f])[..|before|] == before;
    }
  }

  /** The field fallbacks of one parsed object: `source` defaults to
      'unknown', `id` wins over `source_id`, and a present `text_raw` decides
      the text even when it is empty. */
  lemma ProjectionFallbacks(parse: Parser, line: string, d: map<string, Value>, sentiment: Option<int>)
    requires parse(Strip(line)) == Some(Dict(d))
    ensures "source" !in d && ProjectLine(parse, line, sentiment).Some? ==> ProjectLine(parse, line, sentiment).value.source == Str("unknown")
    ensures "id" in d && ProjectLine(parse, line, sentiment).Some? ==> ProjectLine(parse, line, sentiment).value.sourceId == d["id"]
    ensures "text_raw" in d && d["text_raw"] == Str("") ==> ProjectLine(parse, line, sentiment).None?
  {
  }

  /** Every row given another sentiment, in the same order. */
  function Relabel(rows: seq<Row>, sentiment: Option<int>): (out: seq<Row>)
    ensures |out| == |rows|
  {
    seq(|rows|, i requires 0 <= i < |rows| => rows[i].(sentiment := sentiment))
  }

  lemma RelabelAppend(a: seq<Row>, b: seq<Row>, sentiment: Option<int>)
    ensures Relabel(a + b, sentiment) == Relabel(a, sentiment) + Relabel(b, sentiment)
  {
  }

  /** The sentiment decides nothing: the rows read with one sentiment are
      the rows read with another, relabelled. */
  lemma {:induction false} FileRowsRelabel(parse: Parser, lines: seq<string>, from: Option<int>, to: Option<int>)
    ensures FileRows(parse, lines, to) == Relabel(FileRows(parse, lines, from), to)
  {
    if lines != [] {
      var prefix := lines[..|lines| - 1];
      FileRowsRelabel(parse, prefix, from, to);
      RelabelAppend(FileRows(parse, prefix, from), AsSeq(ProjectLine(parse, lines[|lines| - 1], from)), to);
    }
  }

  lemma {:induction false} FilesRowsRelabel(parse: Parser, files: seq<BatchFile>, from: Option<int>, to: Option<int>)
    ensures FilesRows(parse, files, to) == Relabel(FilesRows(parse, files, from), to)
  {
    if files != [] {
      var prefix := files[..|files| - 1];
      var f := files[|files| - 1];
      FilesRowsRelabel(parse, prefix, from, to);
      FileRowsRelabel(parse, f.lines, from, to);
      RelabelAppend(FilesRows(parse, prefix, from), if EndsWith(f.name, ".jsonl") then FileRows(parse, f.lines, from) else [], to);
    }
  }

  lemma DirectoryRowsRelabel(parse: Parser, dir: Directory, from: Option<int>, to: Option<int>)
    ensures DirectoryRows(parse, dir, to) == Relabel(DirectoryRows(parse, dir, from), to)
  {
    if dir.Listing? {
      FilesRowsRelabel(parse, dir.files, from, to);
    }
  }
}

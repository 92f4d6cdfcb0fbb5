/** The merge of the collected batch files alone: every kept line becomes a
    row labelled 0, and the table is written only when it has rows. */
module MergeCollectedData {
  import opened Wrappers
  import opened Values
  import opened Normalizer

  /** The collected batch files, every row labelled 0. */
  method ProcessJsonlFiles(parse: Parser, dir: Directory) returns (table: seq<Row>)
    ensures table == DirectoryRows(parse, dir, Some(0))
  {
    table := ReadDirectory(parse, dir, Some(0));
  }

  /** The table `main` writes out, or `None` when no row was produced and
      nothing is written. */
  method CollectedDataset(parse: Parser, dir: Directory) returns (written: Option<seq<Row>>)
    ensures written.None? <==> DirectoryRows(parse, dir, Some(0)) == []
    ensures written.Some? ==> written.value == DirectoryRows(parse, dir, Some(0))
  {
    var df := ProcessJsonlFiles(parse, dir);
    if |df| > 0 {
      written := Some(df);
    } else {
      written := None;
    }
  }

  /** This script reads exactly the rows the full merge reads from the same
      directory, with label 0 where the full merge has NaN. */
  lemma SameRowsAsFullMerge(parse: Parser, dir: Directory)
    ensures DirectoryRows(parse, dir, Some(0)) == Relabel(DirectoryRows(parse, dir, None), Some(0))
    ensures forall r :: r in DirectoryRows(parse, dir, Some(0)) ==> r.sentiment == Some(0)
  {
    DirectoryRowsRelabel(parse, dir, None, Some(0));
  }
}

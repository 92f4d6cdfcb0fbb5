/** The repair of a JSONL file whose objects were written pretty-printed over
    several lines: lines are regrouped by counting braces, each group is
    parsed, and the parsed objects are written back one per line. */
module FixJsonl {
  import opened Wrappers
  import opened PyStr
  import opened Values
  import opened PyBuiltins

  /** `input_file.replace('.jsonl', '_fixed.jsonl')` unless an output path
      is given. */
  function DefaultOutputPath(inputFile: string, outputFile: Option<string>): string {
    if outputFile.Some? then outputFile.value else ReplaceAll(inputFile, ".jsonl", "_fixed.jsonl")
  }

  /** A name with one `.jsonl`, at its end, gets `_fixed.jsonl` there. */
  lemma {:induction false} PlainNameGetsFixedSuffix(base: string)
    requires !Contains(base, ".jsonl")
    ensures DefaultOutputPath(base + ".jsonl", None) == base + "_fixed.jsonl"
  {
    var s := base + ".jsonl";
    if base == [] {
      assert s == ".jsonl" && s[6..] == [];
      assert ReplaceAll([], ".jsonl", "_fixed.jsonl") == [];
    } else {
      NoSuffixAtStart(base);
      assert s[1..] == base[1..] + ".jsonl";
      PlainNameGetsFixedSuffix(base[1..]);
      assert [base[0]] + base[1..] == base;
    }
  }

  /** A non-empty name that does not start with `.jsonl` does not start with
      it once the suffix is added either. */
  lemma NoSuffixAtStart(base: string)
    requires base != [] && !StartsWith(base, ".jsonl")
    ensures (base + ".jsonl")[..6] != ".jsonl"
  {
    var s := base + ".jsonl";
    if |base| < 6 {
      assert s[|base|] == '.';
      assert ".jsonl"[|base|] != '.';
    } else {
      assert s[..6] == base[..6];
    }
  }

  /** A name without `.jsonl` is its own output path: the input file is
      overwritten. */
  lemma NameWithoutJsonlIsOverwritten(name: string)
    requires !Contains(name, ".jsonl")
    ensures DefaultOutputPath(name, None) == name
  {
    ReplaceAllAbsent(name, ".jsonl", "_fixed.jsonl");
  }

  /** `line.count('{') - line.count('}')` */
  function Delta(line: string): int {
    Count(line, '{') - Count(line, '}')
  }

  /** The brace balance of the lines of an object so far. */
  function Balance(lines: seq<string>): int {
    if lines == [] then 0 else Balance(lines[..|lines| - 1]) + Delta(lines[|lines| - 1])
  }

  /** The loop's variables: `objects`, `current_obj`, `in_object`,
      `brace_count`. */
  datatype ScanState = ScanState(objects: seq<Value>, current: seq<string>, inObject: bool, braceCount: int)

  const Start := ScanState([], [], false, 0)

  /** One turn of the loop on a raw line. */
  function Step(parse: Parser, st: ScanState, raw: string): ScanState {
    var line := Strip(raw);
    if line == "" then st
    else if StartsWith(line, "{") && !st.inObject then ScanState(st.objects, [line], true, Delta(line))
    else if st.inObject then
      var current := st.current + [line];
      var count := st.braceCount + Delta(line);
      if count == 0 then
        var parsed := parse(Join("", current));
        ScanState(st.objects + (if parsed.Some? then [parsed.value] else []), [], false, count)
      else ScanState(st.objects, current, true, count)
    else st
  }

  /** The loop over `lines` from state `st`. */
  function Run(parse: Parser, st: ScanState, lines: seq<string>): ScanState {
    if lines == [] then st else Step(parse, Run(parse, st, lines[..|lines| - 1]), lines[|lines| - 1])
  }

  /** The invariant of the loop: an open object has its lines, the first of
      which opened it, and the count is their brace balance; outside an
      object nothing is pending. */
  predicate Consistent(st: ScanState) {
    if st.inObject then st.current != [] && StartsWith(st.current[0], "{") && st.braceCount == Balance(st.current)
    else st.current == [] && st.braceCount == 0
  }

  lemma StepConsistent(parse: Parser, st: ScanState, raw: string)
    requires Consistent(st)
    ensures Consistent(Step(parse, st, raw))
    ensures Step(parse, st, raw).objects[..|st.objects|] == st.objects
  {
    var line := Strip(raw);
    if line != "" && StartsWith(line, "{") && !st.inObject {
      assert Balance([line]) == Balance([]) + Delta(line);
    } else if line != "" && st.inObject {
      var current := st.current + [line];
      assert current[..|current| - 1] == st.current;
      assert current[0] == st.current[0];
    }
  }

  /** Every state the loop reaches is consistent, and objects once parsed
      stay, in the order their last lines came. */
  lemma {:induction false} RunConsistent(parse: Parser, st: ScanState, lines: seq<string>)
    requires Consistent(st)
    ensures Consistent(Run(parse, st, lines))
    ensures |st.objects| <= |Run(parse, st, lines).objects| && Run(parse, st, lines).objects[..|st.objects|] == st.objects
  {
    if lines != [] {
      var mid := Run(parse, st, lines[..|lines| - 1]);
      RunConsistent(parse, st, lines[..|lines| - 1]);
      StepConsistent(parse, mid, lines[|lines| - 1]);
      var last := Run(parse, st, lines);
      assert last.objects[..|st.objects|] == last.objects[..|mid.objects|][..|st.objects|];
    }
  }

  /** Running over two pieces of input is running over their concatenation. */
  lemma {:induction false} RunAppend(parse: Parser, st: ScanState, a: seq<string>, b: seq<string>)
    ensures Run(parse, st, a + b) == Run(parse, Run(parse, st, a), b)
    decreases |b|
  {
    if b == [] {
      assert a + b == a;
    } else {
      assert (a + b)[..|a + b| - 1] == a + b[..|b| - 1];
      RunAppend(parse, st, a, b[..|b| - 1]);
    }
  }

  /** Blank lines change nothing. */
  lemma BlankLineIgnored(parse: Parser, st: ScanState, raw: string)
    requires Strip(raw) == ""
    ensures Step(parse, st, raw) == st
  {
  }

  /** Outside an object, a line not starting with '{' is discarded. */
  lemma StrayLineDiscarded(parse: Parser, st: ScanState, raw: string)
    requires !st.inObject && !StartsWith(Strip(raw), "{")
    ensures Step(parse, st, raw) == st
  {
  }

  /** An opening line never closes its object, balanced or not. */
  lemma OpeningLineStaysOpen(parse: Parser, st: ScanState, raw: string)
    requires !st.inObject && StartsWith(Strip(raw), "{")
    ensures Step(parse, st, raw) == ScanState(st.objects, [Strip(raw)], true, Delta(Strip(raw)))
  {
  }

  /** A continuation line closes the object iff it brings the count to
      zero; the state is reset whether or not the parse succeeds. */
  lemma ClosesIffBalanced(parse: Parser, st: ScanState, raw: string)
    requires st.inObject && Strip(raw) != ""
    ensures !Step(parse, st, raw).inObject <==> st.braceCount + Delta(Strip(raw)) == 0
    ensures !Step(parse, st, raw).inObject ==>
      var joined := Join("", st.current + [Strip(raw)]);
      && Step(parse, st, raw).current == []
      && Step(parse, st, raw).objects == st.objects + (if parse(joined).Some? then [parse(joined).value] else [])
    ensures Step(parse, st, raw).inObject ==>
      Step(parse, st, raw).objects == st.objects && Step(parse, st, raw).current == st.current + [Strip(raw)]
  {
  }

  /** The lines as the loop sees them, each stripped. */
  function StripAll(lines: seq<string>): (stripped: seq<string>)
    ensures |stripped| == |lines|
    ensures forall i :: 0 <= i < |lines| ==> stripped[i] == Strip(lines[i])
  {
    seq(|lines|, i requires 0 <= i < |lines| => Strip(lines[i]))
  }

  /** The raw lines of one object as a pretty-printer writes it: at least two
      lines, none blank, the first opening with '{', the braces unbalanced
      after every line but the last and balanced after the last. */
  predicate PrettyGroup(g: seq<string>) {
    var s := StripAll(g);
    && |g| >= 2
    && (forall i :: 0 <= i < |s| ==> s[i] != "")
    && StartsWith(s[0], "{")
    && (forall k :: 1 <= k < |s| ==> OpenAfter(s, k))
    && Balance(s) == 0
  }

  /** The braces of the first `k` lines do not balance. */
  predicate OpenAfter(lines: seq<string>, k: nat)
    requires k <= |lines|
  {
    Balance(lines[..k]) != 0
  }

  /** The input made of the groups, one after the other. */
  function Flatten(groups: seq<seq<string>>): seq<string> {
    if groups == [] then [] else Flatten(groups[..|groups| - 1]) + groups[|groups| - 1]
  }

  /** What one group's joined, stripped lines parse to, if anything. */
  function ParsedGroup(parse: Parser, g: seq<string>): seq<Value> {
    var parsed := parse(Join("", StripAll(g)));
    if parsed.Some? then [parsed.value] else []
  }

  /** Reference for the regrouping: each group's lines joined with no
      separator and parsed, the groups in order, the failed parses left out. */
  function GroupObjects(parse: Parser, groups: seq<seq<string>>): seq<Value> {
    if groups == [] then [] else GroupObjects(parse, groups[..|groups| - 1]) + ParsedGroup(parse, groups[|groups| - 1])
  }

  /** A file of pretty-printed objects is regrouped object by object: the loop
      ends outside any object, with exactly the parses of the groups, in order. */
  lemma {:induction false} PrettyPrintedObjects(parse: Parser, groups: seq<seq<string>>)
    requires forall i :: 0 <= i < |groups| ==> PrettyGroup(groups[i])
    ensures Run(parse, Start, Flatten(groups)) == ScanState(GroupObjects(parse, groups), [], false, 0)
  {
    if groups != [] {
      var n := |groups| - 1;
      var prefix, last := groups[..n], groups[n];
      forall i | 0 <= i < |prefix| ensures PrettyGroup(prefix[i]) {
        assert prefix[i] == groups[i];
      }
      PrettyPrintedObjects(parse, prefix);
      RunAppend(parse, Start, Flatten(prefix), last);
      RunGroup(parse, GroupObjects(parse, prefix), last);
    }
  }

  /** From outside any object, one group opens, stays open to its last
      line, and closes there with its parse appended. */
  lemma RunGroup(parse: Parser, objects: seq<Value>, g: seq<string>)
    requires PrettyGroup(g)
    ensures Run(parse, ScanState(objects, [], false, 0), g) == ScanState(objects + ParsedGroup(parse, g), [], false, 0)
  {
    var n := |g| - 1;
    var s := StripAll(g);
    var st := ScanState(objects, [], false, 0);
    RunGroupPrefix(parse, objects, g, n);
    RunSnoc(parse, st, g, n);
    PrefixSnoc(s, n);
    PrettyGroupAt(g, n);
    BalanceSnoc(s[..n], s[n]);
    assert g[..n + 1] == g && s[..n + 1] == s;
    ContinuationCloses(parse, ScanState(objects, s[..n], true, Balance(s[..n])), g[n]);
  }

  /** What a pretty-printed group gives at line `k`: the stripped line is not
      blank, and the braces after it are balanced iff it is the last. */
  lemma PrettyGroupAt(g: seq<string>, k: nat)
    requires PrettyGroup(g) && k < |g|
    ensures var s := StripAll(g);
      && s[k] != "" && (k == 0 ==> StartsWith(s[0], "{"))
      && (Balance(s[..k + 1]) == 0 <==> k == |g| - 1)
  {
    var s := StripAll(g);
    if k == |g| - 1 {
      assert s[..k + 1] == s;
    } else {
      assert OpenAfter(s, k + 1);
    }
  }

  /** Before its last line, a group's lines so far are the open object. */
  lemma {:induction false} RunGroupPrefix(parse: Parser, objects: seq<Value>, g: seq<string>, k: nat)
    requires PrettyGroup(g) && 1 <= k < |g|
    ensures var s := StripAll(g);
      Run(parse, ScanState(objects, [], false, 0), g[..k]) == ScanState(objects, s[..k], true, Balance(s[..k]))
  {
    if k == 1 {
      GroupOpens(parse, objects, g);
    } else {
      RunGroupPrefix(parse, objects, g, k - 1);
      GroupContinues(parse, objects, g, k - 1);
    }
  }

  /** The first line of a group opens the object. */
  lemma GroupOpens(parse: Parser, objects: seq<Value>, g: seq<string>)
    requires PrettyGroup(g)
    ensures var s := StripAll(g);
      Run(parse, ScanState(objects, [], false, 0), g[..1]) == ScanState(objects, s[..1], true, Balance(s[..1]))
  {
    var s := StripAll(g);
    var st := ScanState(objects, [], false, 0);
    RunSnoc(parse, st, g, 0);
    PrefixSnoc(s, 0);
    PrettyGroupAt(g, 0);
    BalanceSnoc([], s[0]);
    assert g[..0] == [] && s[..0] == [];
    OpeningLineStaysOpen(parse, st, g[0]);
  }

  /** A line of a group before its last keeps the object open. */
  lemma GroupContinues(parse: Parser, objects: seq<Value>, g: seq<string>, k: nat)
    requires PrettyGroup(g) && 1 <= k < |g| - 1
    requires var s := StripAll(g);
      Run(parse, ScanState(objects, [], false, 0), g[..k]) == ScanState(objects, s[..k], true, Balance(s[..k]))
    ensures var s := StripAll(g);
      Run(parse, ScanState(objects, [], false, 0), g[..k + 1]) == ScanState(objects, s[..k + 1], true, Balance(s[..k + 1]))
  {
    var s := StripAll(g);
    RunSnoc(parse, ScanState(objects, [], false, 0), g, k);
    PrefixSnoc(s, k);
    PrettyGroupAt(g, k);
    BalanceSnoc(s[..k], s[k]);
    ContinuationStaysOpen(parse, ScanState(objects, s[..k], true, Balance(s[..k])), g[k]);
  }

  /** A continuation line that brings the count to zero closes the object:
      the lines are joined with no separator and parsed. */
  lemma ContinuationCloses(parse: Parser, st: ScanState, raw: string)
    requires st.inObject && Strip(raw) != "" && st.braceCount + Delta(Strip(raw)) == 0
    ensures var parsed := parse(Join("", st.current + [Strip(raw)]));
      Step(parse, st, raw) == ScanState(st.objects + (if parsed.Some? then [parsed.value] else []), [], false, 0)
  {
  }

  /** The loop over one more line is one more step. */
  lemma RunSnoc(parse: Parser, st: ScanState, lines: seq<string>, k: nat)
    requires k < |lines|
    ensures Run(parse, st, lines[..k + 1]) == Step(parse, Run(parse, st, lines[..k]), lines[k])
  {
    assert lines[..k + 1][..k] == lines[..k];
  }

  lemma BalanceSnoc(lines: seq<string>, line: string)
    ensures Balance(lines + [line]) == Balance(lines) + Delta(line)
  {
    assert (lines + [line])[..|lines|] == lines;
  }

  /** A continuation line that leaves the count non-zero is added to the
      open object. */
  lemma ContinuationStaysOpen(parse: Parser, st: ScanState, raw: string)
    requires st.inObject && Strip(raw) != "" && st.braceCount + Delta(Strip(raw)) != 0
    ensures Step(parse, st, raw) == ScanState(st.objects, st.current + [Strip(raw)], true, st.braceCount + Delta(Strip(raw)))
  {
  }

  /** A pretty-printed object is joined with no separator and parsed. */
  lemma PrettyPrintedObject(parse: Parser)
    ensures var joined := "{\"a\": 1}";
      Run(parse, Start, ["{", "  \"a\": 1", "}"]).objects == if parse(joined).Some? then [parse(joined).value] else []
  {
    var lines := ["{", "  \"a\": 1", "}"];
    var s1 := ScanState([], ["{"], true, 1);
    var s2 := ScanState([], ["{", "\"a\": 1"], true, 1);
    assert lines[..1] == ["{"] && lines[..1][..0] == [];
    assert lines[..2][..1] == lines[..1] && lines[..3][..2] == lines[..2] && lines[..3] == lines;
    OpeningStep(parse);
    assert Run(parse, Start, lines[..1]) == s1;
    MemberStep(parse, s1);
    assert Run(parse, Start, lines[..2]) == s2;
    ClosingStep(parse, s2);
  }

  lemma OpeningStep(parse: Parser)
    ensures Step(parse, Start, "{") == ScanState([], ["{"], true, 1)
  {
    assert Strip("{") == "{" && Delta("{") == 1;
  }

  lemma MemberStep(parse: Parser, st: ScanState)
    requires st == ScanState([], ["{"], true, 1)
    ensures Step(parse, st, "  \"a\": 1") == ScanState([], ["{", "\"a\": 1"], true, 1)
  {
    PaddedMember();
    MemberText();
  }

  /** The member line of the examples has balanced braces and no padding. */
  lemma MemberText()
    ensures Strip("\"a\": 1") == "\"a\": 1" && Delta("\"a\": 1") == 0
  {
    var m := "\"a\": 1";
    assert !IsSpace(m[0]) && !IsSpace(m[|m| - 1]);
    assert TrimStart(m) == m && TrimEnd(m) == m;
    assert Count(m, '{') == 0 && Count(m, '}') == 0;
  }

  /** `strip()` removes the member line's indentation. */
  lemma PaddedMember()
    ensures Strip("  \"a\": 1") == "\"a\": 1"
  {
    var m := "\"a\": 1";
    assert TrimStart("  \"a\": 1") == TrimStart(" \"a\": 1") == TrimStart(m);
    assert !IsSpace(m[0]) && !IsSpace(m[|m| - 1]);
    assert TrimStart(m) == m && TrimEnd(m) == m;
  }

  lemma ClosingStep(parse: Parser, st: ScanState)
    requires st == ScanState([], ["{", "\"a\": 1"], true, 1)
    ensures var joined := "{\"a\": 1}";
      Step(parse, st, "}") == ScanState(if parse(joined).Some? then [parse(joined).value] else [], [], false, 0)
  {
    assert Strip("}") == "}" && Delta("}") == -1;
    assert ["{", "\"a\": 1"] + ["}"] == ["{", "\"a\": 1", "}"];
    assert Join("", ["{", "\"a\": 1", "}"]) == "{\"a\": 1}";
  }

  /** Two one-line objects in a row are glued into one string: the first
      stays open on its own line, so the second is appended to it. */
  lemma OneLineObjectsGlued(parse: Parser)
    ensures var glued := "{}{}";
      Run(parse, Start, ["{}", "{}"]) == ScanState(if parse(glued).Some? then [parse(glued).value] else [], [], false, 0)
  {
    var lines := ["{}", "{}"];
    assert Strip("{}") == "{}" && Delta("{}") == 0;
    assert lines[..1] == ["{}"];
    assert Join("", ["{}", "{}"]) == "{}{}";
  }

  /** An object still open at the end of the input is dropped. */
  lemma UnclosedObjectDropped(parse: Parser)
    ensures Run(parse, Start, ["{", "\"a\": 1"]).objects == []
    ensures Run(parse, Start, ["{", "\"a\": 1"]).inObject
  {
    var lines := ["{", "\"a\": 1"];
    OpeningStep(parse);
    MemberText();
    assert lines[..1] == ["{"] && lines[..1][..0] == [];
    assert Run(parse, Start, ["{"]) == ScanState([], ["{"], true, 1);
  }

  /** The text written: each object's dump on a line of its own. */
  function Render(dump: Value -> string, objects: seq<Value>): string {
    if objects == [] then "" else Render(dump, objects[..|objects| - 1]) + dump(objects[|objects| - 1]) + "\n"
  }

  /** One line per object when the dumps have no line break (`json.dumps`
      without indentation never emits one). */
  lemma {:induction false} RenderLineCount(dump: Value -> string, objects: seq<Value>)
    requires forall i :: 0 <= i < |objects| ==> '\n' !in dump(objects[i])
    ensures Count(Render(dump, objects), '\n') == |objects|
  {
    if objects != [] {
      var prefix := objects[..|objects| - 1];
      var last := dump(objects[|objects| - 1]);
      forall i | 0 <= i < |prefix| ensures '\n' !in dump(prefix[i]) {
        assert prefix[i] == objects[i];
      }
      RenderLineCount(dump, prefix);
      CountAppend(Render(dump, prefix), last, '\n');
      CountAppend(Render(dump, prefix) + last, "\n", '\n');
      CountAbsent(last, '\n');
    }
  }

  lemma {:induction false} CountAbsent(s: string, c: char)
    requires c !in s
    ensures Count(s, c) == 0
  {
    if s != [] {
      assert s[0] != c;
      assert forall k :: 0 <= k < |s[1..]| ==> s[1..][k] == s[k + 1];
      CountAbsent(s[1..], c);
    }
  }

  /** `quick_fix_jsonl` on the file's content; returns the output path, the
      objects parsed and the text written there. */
  method QuickFixJsonl(parse: Parser, dump: Value -> string, inputFile: string, outputFile: Option<string>, content: string)
    returns (outputPath: string, objects: seq<Value>, written: string)
    ensures outputPath == DefaultOutputPath(inputFile, outputFile)
    ensures objects == Run(parse, Start, Split(content, '\n')).objects
    ensures written == Render(dump, objects)
  {
    if outputFile.None? {
      outputPath := ReplaceAll(inputFile, ".jsonl", "_fixed.jsonl");
    } else {
      outputPath := outputFile.value;
    }
    objects := [];
    var currentObj: seq<string> := [];
    var inObject := false;
    var braceCount := 0;
    var lines := Split(content, '\n');
    var i := 0;
    while i < |lines|
      invariant 0 <= i <= |lines|
      invariant ScanState(objects, currentObj, inObject, braceCount) == Run(parse, Start, lines[..i])
    {
      assert lines[..i + 1][..i] == lines[..i];
      var line := Strip(lines[i]);
      i := i + 1;
      if line == "" {
        continue;
      }
      if StartsWith(line, "{") && !inObject {
        inObject := true;
        currentObj := [line];
        braceCount := Count(line, '{') - Count(line, '}');
      } else if inObject {
        currentObj := currentObj + [line];
        braceCount := braceCount + (Count(line, '{') - Count(line, '}'));
        if braceCount == 0 {
          var objStr := Join("", currentObj);
          var parsed := parse(objStr);
          if parsed.Some? {
            objects := objects + [parsed.value];
          }
          currentObj := [];
          inObject := false;
        }
      }
    }
    assert lines[..i] == lines;
    written := "";
    var j := 0;
    while j < |objects|
      invariant 0 <= j <= |objects|
      invariant written == Render(dump, objects[..j])
    {
      written := written + dump(objects[j]) + "\n";
      j := j + 1;
      assert objects[..j][..j - 1] == objects[..j - 1];
    }
    assert objects[..j] == objects;
  }
}

/**
 * The `.env.example` merge: every `KEY=value` line whose key has an override
 * takes the override's value, comment, blank and `=`-less lines are kept as
 * they are, and overrides no line asked for are appended at the end.
 */
module EnvMerge {
  import opened Text
  import opened Collections

  // ------------------------------------------------------------- scanning

  /** bufio.ScanLines drops one carriage return before each line break. */
  function DropCR(line: string): (r: string)
    ensures |r| <= |line| && r == line[..|r|]
    ensures '\r' !in line ==> r == line
  {
    if |line| > 0 && line[|line| - 1] == '\r' then line[..|line| - 1] else line
  }

  /** The lines a bufio.Scanner with ScanLines yields for `input`: the
      '\n'-separated pieces, without an empty piece after a final '\n'. */
  function ScanLines(input: string): (lines: seq<string>)
    ensures forall i | 0 <= i < |lines| :: '\n' !in lines[i]
  {
    if input == "" then []
    else
      var parts := Split(input, '\n');
      SplitAvoidsSep(input, '\n');
      var ps := if parts[|parts| - 1] == "" then parts[..|parts| - 1] else parts;
      assert forall i | 0 <= i < |ps| :: '\n' !in ps[i];
      seq(|ps|, i requires 0 <= i < |ps| => DropCR(ps[i]))
  }

  /** The output text: the lines joined by '\n', with one final '\n'. */
  function Render(out: seq<string>): string {
    Join(out, "\n") + "\n"
  }

  predicate LineSafe(s: string) {
    '\n' !in s && '\r' !in s
  }

  /** Scanning rendered lines gives them back (an empty output is read as
      one empty line). */
  lemma {:induction false} ScanRender(out: seq<string>)
    requires forall i | 0 <= i < |out| :: LineSafe(out[i])
    ensures ScanLines(Render(out)) == if out == [] then [""] else out
  {
    var text := Render(out);
    var parts := Split(text, '\n');
    SplitConcat(Join(out, "\n"), "", '\n');
    assert Join(out, "\n") + ['\n'] + "" == text;
    if out == [] {
      assert text == "\n";
      assert parts == [""] + [""];
      assert DropCR("") == "";
    } else {
      SplitJoin(out, '\n');
      assert parts == out + [""];
      assert parts[..|parts| - 1] == out;
      assert forall i | 0 <= i < |out| :: DropCR(out[i]) == out[i];
    }
  }

  // -------------------------------------------------------------- entries

  /** A line that is copied as it is: blank, a comment, or without '='. */
  predicate IsVerbatim(line: string) {
    var t := TrimSpace(line);
    t == "" || HasPrefix(t, "#") || '=' !in line
  }

  /** strings.SplitN(line, "=", 2): the text before the first '=' and the
      rest, later '=' included. */
  function SplitAtEquals(line: string): (parts: (string, string))
    requires '=' in line
    ensures line == parts.0 + "=" + parts.1
    ensures '=' !in parts.0
  {
    var i := IndexOf(line, '=');
    assert line == line[..i] + "=" + line[i + 1..];
    (line[..i], line[i + 1..])
  }

  function KeyOf(line: string): string
    requires '=' in line
  {
    TrimSpace(SplitAtEquals(line).0)
  }

  /** What one input line becomes. */
  function MergeLine(line: string, overrides: map<string, string>): string {
    if IsVerbatim(line) then line
    else
      var key := KeyOf(line);
      key + "=" + (if key in overrides then overrides[key] else SplitAtEquals(line).1)
  }

  function MergedLines(lines: seq<string>, overrides: map<string, string>): (r: seq<string>)
    ensures |r| == |lines|
  {
    seq(|lines|, i requires 0 <= i < |lines| => MergeLine(lines[i], overrides))
  }

  /** The override keys some entry line names. */
  function MatchedKeys(lines: seq<string>, overrides: map<string, string>): set<string>
    decreases |lines|
  {
    if lines == [] then {}
    else MatchedKeys(lines[..|lines| - 1], overrides) + LineKey(lines[|lines| - 1], overrides)
  }

  /** The override key one line uses, if any. */
  function LineKey(line: string, overrides: map<string, string>): set<string> {
    if !IsVerbatim(line) && KeyOf(line) in overrides then {KeyOf(line)} else {}
  }

  function Unmatched(lines: seq<string>, overrides: map<string, string>): set<string> {
    overrides.Keys - MatchedKeys(lines, overrides)
  }

  function AppendedLines(order: seq<string>, overrides: map<string, string>): (r: seq<string>)
    requires forall i | 0 <= i < |order| :: order[i] in overrides
    ensures |r| == |order|
  {
    seq(|order|, i requires 0 <= i < |order| => order[i] + "=" + overrides[order[i]])
  }

  /** The merge, once the order of the appended keys is fixed. */
  function MergeWith(input: string, overrides: map<string, string>, order: seq<string>): string
    requires forall i | 0 <= i < |order| :: order[i] in overrides
  {
    Render(MergedLines(ScanLines(input), overrides) + AppendedLines(order, overrides))
  }

  /** scaffold.MergeEnvExample.  The unmatched overrides are appended in the
      order a Go map range happens to produce, reported as `appended`. */
  method MergeEnvExample(input: string, overrides: map<string, string>)
    returns (merged: string, ghost appended: seq<string>)
    ensures Enumerates(appended, Unmatched(ScanLines(input), overrides))
    ensures forall i | 0 <= i < |appended| :: appended[i] in overrides
    ensures merged == MergeWith(input, overrides, appended)
  {
    var lines := ScanLines(input);
    var out, seen := MergeEntries(lines, overrides);
    var tail;
    tail, appended := AppendUnseen(overrides, seen);
    merged := Join(out + tail, "\n") + "\n";
  }

  /** The scanner loop: each line kept or rewritten, and the override keys
      that some line used. */
  method MergeEntries(lines: seq<string>, overrides: map<string, string>)
    returns (out: seq<string>, seen: set<string>)
    ensures out == MergedLines(lines, overrides)
    ensures seen == MatchedKeys(lines, overrides)
  {
    seen := {};
    out := [];
    var i := 0;
    while i < |lines|
      invariant 0 <= i <= |lines|
      invariant out == MergedLines(lines[..i], overrides)
      invariant seen == MatchedKeys(lines[..i], overrides)
    {
      var line, used := MergeOne(lines[i], overrides);
      MergeEntriesStep(lines, i, overrides);
      out := out + [line];
      seen := seen + used;
      i := i + 1;
    }
    assert lines[..i] == lines;
  }

  /** One pass of the scanner loop: the line as written back, and the
      override key it used. */
  method MergeOne(line: string, overrides: map<string, string>)
    returns (merged: string, used: set<string>)
    ensures merged == MergeLine(line, overrides)
    ensures used == LineKey(line, overrides)
  {
    var trim := TrimSpace(line);
    used := {};
    if trim == "" || HasPrefix(trim, "#") || '=' !in line {
      merged := line;
    } else {
      var parts := SplitAtEquals(line);
      var key := TrimSpace(parts.0);
      var val := parts.1;
      if key in overrides {
        val := overrides[key];
        used := {key};
      }
      merged := key + "=" + val;
    }
  }

  /** The range over the overrides: every key no line used, once each, in
      the order the range visits them. */
  method AppendUnseen(overrides: map<string, string>, seen: set<string>)
    returns (tail: seq<string>, ghost appended: seq<string>)
    ensures Enumerates(appended, overrides.Keys - seen)
    ensures forall i | 0 <= i < |appended| :: appended[i] in overrides
    ensures tail == AppendedLines(appended, overrides)
  {
    var remaining := overrides.Keys;
    ghost var done: set<string> := {};
    tail, appended := [], [];
    while remaining != {}
      invariant remaining !! done && remaining + done == overrides.Keys
      invariant Enumerates(appended, done - seen)
      invariant forall j | 0 <= j < |appended| :: appended[j] in overrides
      invariant tail == AppendedLines(appended, overrides)
      decreases |remaining|
    {
      var key :| key in remaining;
      AppendStep(appended, done, seen, key);
      if key !in seen {
        AppendedLinesSnoc(appended, key, overrides);
        tail := tail + [key + "=" + overrides[key]];
        appended := appended + [key];
      }
      remaining := remaining - {key};
      done := done + {key};
    }
  }

  /** One more key visited: it is appended iff no line used it. */
  lemma {:induction false} AppendStep(appended: seq<string>, done: set<string>, seen: set<string>, key: string)
    requires Enumerates(appended, done - seen) && key !in done
    ensures key !in seen ==> Enumerates(appended + [key], (done + {key}) - seen)
    ensures key in seen ==> (done + {key}) - seen == done - seen
  {
    if key !in seen {
      EnumerationSnoc(appended, done - seen, key);
      assert (done + {key}) - seen == (done - seen) + {key};
    }
  }

  /** One more scanned line extends the merged lines and the matched keys. */
  lemma {:induction false} MergeEntriesStep(lines: seq<string>, i: int, overrides: map<string, string>)
    requires 0 <= i < |lines|
    ensures MergedLines(lines[..i + 1], overrides) == MergedLines(lines[..i], overrides) + [MergeLine(lines[i], overrides)]
    ensures MatchedKeys(lines[..i + 1], overrides) == MatchedKeys(lines[..i], overrides) + LineKey(lines[i], overrides)
  {
    assert lines[..i + 1] == lines[..i] + [lines[i]];
    MatchedKeysSnoc(lines[..i], lines[i], overrides);
    MergedLinesSnoc(lines[..i], lines[i], overrides);
  }

  lemma {:induction false} MergedLinesSnoc(lines: seq<string>, line: string, overrides: map<string, string>)
    ensures MergedLines(lines + [line], overrides) == MergedLines(lines, overrides) + [MergeLine(line, overrides)]
  {
    assert forall i | 0 <= i < |lines| :: (lines + [line])[i] == lines[i];
  }

  lemma {:induction false} AppendedLinesSnoc(order: seq<string>, key: string, overrides: map<string, string>)
    requires forall i | 0 <= i < |order| :: order[i] in overrides
    requires key in overrides
    ensures forall i | 0 <= i < |order + [key]| :: (order + [key])[i] in overrides
    ensures AppendedLines(order + [key], overrides) == AppendedLines(order, overrides) + [key + "=" + overrides[key]]
  {
    assert forall i | 0 <= i < |order| :: (order + [key])[i] == order[i];
  }

  lemma {:induction false} MatchedKeysSnoc(lines: seq<string>, line: string, overrides: map<string, string>)
    ensures MatchedKeys(lines + [line], overrides) == MatchedKeys(lines, overrides) + LineKey(line, overrides)
  {
    assert (lines + [line])[..|lines|] == lines;
  }

  // ----------------------------------------------------------- properties

  /** Scanned lines of a text without carriage returns are line-safe. */
  lemma {:induction false} ScanLinesSafe(input: string)
    requires '\r' !in input
    ensures forall i | 0 <= i < |ScanLines(input)| :: LineSafe(ScanLines(input)[i])
  {
    if input != "" {
      var parts := Split(input, '\n');
      SplitPiecesAvoid(input, '\n', '\r');
      SplitAvoidsSep(input, '\n');
      var ps := if parts[|parts| - 1] == "" then parts[..|parts| - 1] else parts;
      forall i | 0 <= i < |ps| ensures LineSafe(DropCR(ps[i])) {
        assert ps[i] == parts[i];
      }
    }
  }

  /** A line-safe line stays line-safe when the overrides are line-safe. */
  lemma {:induction false} MergeLineSafe(line: string, overrides: map<string, string>)
    requires LineSafe(line)
    requires forall k | k in overrides :: LineSafe(overrides[k])
    ensures LineSafe(MergeLine(line, overrides))
  {
    if !IsVerbatim(line) {
      var parts := SplitAtEquals(line);
      assert '\n' !in parts.0 && '\r' !in parts.0;
      TrimSpaceAvoids(parts.0, '\n');
      TrimSpaceAvoids(parts.0, '\r');
    }
  }

  /** A `key=value` line whose key is already trimmed, non-empty, free of
      '=' and not a comment is an entry line for that key and value. */
  lemma {:induction false} EntryLine(key: string, value: string)
    requires EntryKey(key)
    ensures var line := key + "=" + value;
            '=' in line && !IsVerbatim(line) && KeyOf(line) == key && SplitAtEquals(line).1 == value
  {
    var line := key + "=" + value;
    assert line[|key|] == '=';
    assert line[..|key|] == key;
    var parts := SplitAtEquals(line);
    assert IndexOf(line, '=') == |key|;
    assert parts.0 == key;
    TrimSpaceOfTrimmed(key);
    assert TrimLeft(line) == line by { assert !IsSpace(line[0]); }
    TrimRightShape(line);
    assert line[0..] == line;
  }

  /** Every key some line used is named by an entry line. */
  lemma {:induction false} MatchedKeyHasLine(lines: seq<string>, overrides: map<string, string>, k: string)
    requires k in MatchedKeys(lines, overrides)
    ensures exists j | 0 <= j < |lines| :: !IsVerbatim(lines[j]) && KeyOf(lines[j]) == k && k in overrides
    decreases |lines|
  {
    var init := lines[..|lines| - 1];
    if k in MatchedKeys(init, overrides) {
      MatchedKeyHasLine(init, overrides, k);
      var j :| 0 <= j < |init| && !IsVerbatim(init[j]) && KeyOf(init[j]) == k && k in overrides;
      assert lines[j] == init[j];
    } else {
      assert !IsVerbatim(lines[|lines| - 1]);
    }
  }

  /** Every override reaches the output: as the value of each entry line
      that names its key, or appended as `key=value` when no line does. */
  lemma {:induction false} EveryOverrideWritten(input: string, overrides: map<string, string>, order: seq<string>)
    requires Enumerates(order, Unmatched(ScanLines(input), overrides))
    ensures forall i | 0 <= i < |order| :: order[i] in overrides
    ensures var out := MergedLines(ScanLines(input), overrides) + AppendedLines(order, overrides);
            forall k | k in overrides :: exists j | 0 <= j < |out| :: out[j] == k + "=" + overrides[k]
  {
    var lines := ScanLines(input);
    var out := MergedLines(lines, overrides) + AppendedLines(order, overrides);
    forall k | k in overrides
      ensures exists j | 0 <= j < |out| :: out[j] == k + "=" + overrides[k]
    {
      if k in MatchedKeys(lines, overrides) {
        MatchedKeyHasLine(lines, overrides, k);
        var j :| 0 <= j < |lines| && !IsVerbatim(lines[j]) && KeyOf(lines[j]) == k && k in overrides;
        assert out[j] == MergeLine(lines[j], overrides);
      } else {
        assert k in order;
        var j :| 0 <= j < |order| && order[j] == k;
        assert out[|lines| + j] == k + "=" + overrides[k];
      }
    }
  }

  /** The merged text is its lines joined by '\n' with a final '\n': one
      line per input line followed by one per unmatched override, and
      scanning it again gives exactly those lines (an empty merge is read as
      one empty line). */
  lemma {:induction false} MergeLineCount(input: string, overrides: map<string, string>, order: seq<string>)
    requires Enumerates(order, Unmatched(ScanLines(input), overrides))
    requires '\r' !in input
    requires forall k | k in overrides :: LineSafe(k) && LineSafe(overrides[k])
    ensures forall i | 0 <= i < |order| :: order[i] in overrides
    ensures var out := MergedLines(ScanLines(input), overrides) + AppendedLines(order, overrides);
            |out| == |ScanLines(input)| + |Unmatched(ScanLines(input), overrides)|
            && HasSuffix(MergeWith(input, overrides, order), "\n")
            && ScanLines(MergeWith(input, overrides, order)) == (if out == [] then [""] else out)
  {
    var lines := ScanLines(input);
    EnumerationLength(order, Unmatched(lines, overrides));
    var out := MergedLines(lines, overrides) + AppendedLines(order, overrides);
    ScanLinesSafe(input);
    MergeOutputSafe(lines, overrides, order);
    ScanRender(out);
  }

  /** Every output line is line-safe when the input lines and the overrides are. */
  lemma {:induction false} MergeOutputSafe(lines: seq<string>, overrides: map<string, string>, order: seq<string>)
    requires forall i | 0 <= i < |lines| :: LineSafe(lines[i])
    requires forall k | k in overrides :: LineSafe(k) && LineSafe(overrides[k])
    requires forall i | 0 <= i < |order| :: order[i] in overrides
    ensures var out := MergedLines(lines, overrides) + AppendedLines(order, overrides);
            forall i | 0 <= i < |out| :: LineSafe(out[i])
  {
    var out := MergedLines(lines, overrides) + AppendedLines(order, overrides);
    forall i | 0 <= i < |out| ensures LineSafe(out[i]) {
      if i < |lines| {
        MergeLineSafe(lines[i], overrides);
      } else {
        var k := order[i - |lines|];
        assert out[i] == k + "=" + overrides[k];
      }
    }
  }

  /** An override used by the first of two entry lines around a comment
      replaces its value, and the one no line names is appended. */
  lemma {:induction false} MergeEntryCommentEntry(input: string, lines: seq<string>, k1: string, v1: string, k2: string, v2: string,
                                                  overrides: map<string, string>, extra: string, order: seq<string>,
                                                  out: seq<string>)
    requires input == Render(lines)
    requires |lines| == 3 && lines[0] == k1 + "=" + v1 && lines[2] == k2 + "=" + v2
    requires EntryKey(k1) && EntryKey(k2) && k1 != k2
    requires forall i | 0 <= i < 3 :: LineSafe(lines[i])
    requires IsVerbatim(lines[1])
    requires overrides.Keys == {k1, extra} && extra != k1 && extra != k2
    requires Enumerates(order, Unmatched(ScanLines(input), overrides))
    requires out == [k1 + "=" + overrides[k1], lines[1], lines[2], extra + "=" + overrides[extra]]
    ensures MergeWith(input, overrides, order) == Render(out)
  {
    assert ScanLines(input) == lines by { ScanRender(lines); }
    var merged := [k1 + "=" + overrides[k1], lines[1], lines[2]];
    ThreeLines(lines, k1, v1, k2, v2, overrides, extra);
    assert order == [extra] by {
      assert Unmatched(lines, overrides) == {extra};
      EnumerationOfSingleton(order, extra);
    }
    assert AppendedLines(order, overrides) == [extra + "=" + overrides[extra]];
    assert merged + [extra + "=" + overrides[extra]] == out;
  }

  lemma {:induction false} ThreeLines(lines: seq<string>, k1: string, v1: string, k2: string, v2: string,
                                      overrides: map<string, string>, extra: string)
    requires |lines| == 3 && lines[0] == k1 + "=" + v1 && lines[2] == k2 + "=" + v2
    requires EntryKey(k1) && EntryKey(k2) && k1 != k2
    requires IsVerbatim(lines[1])
    requires overrides.Keys == {k1, extra} && extra != k2
    ensures MergedLines(lines, overrides) == [k1 + "=" + overrides[k1], lines[1], lines[2]]
    ensures MatchedKeys(lines, overrides) == {k1}
  {
    ThreeLinesMerged(lines, k1, v1, k2, v2, overrides);
    ThreeLinesMatched(lines, k1, v1, k2, v2, overrides);
  }

  lemma {:induction false} ThreeLinesMerged(lines: seq<string>, k1: string, v1: string, k2: string, v2: string,
                                            overrides: map<string, string>)
    requires |lines| == 3 && lines[0] == k1 + "=" + v1 && lines[2] == k2 + "=" + v2
    requires EntryKey(k1) && EntryKey(k2)
    requires IsVerbatim(lines[1])
    requires k1 in overrides && k2 !in overrides
    ensures MergedLines(lines, overrides) == [k1 + "=" + overrides[k1], lines[1], lines[2]]
  {
    EntryLine(k1, v1);
    EntryLine(k2, v2);
    assert MergeLine(lines[0], overrides) == k1 + "=" + overrides[k1];
    assert MergeLine(lines[1], overrides) == lines[1];
    assert MergeLine(lines[2], overrides) == lines[2];
  }

  lemma {:induction false} ThreeLinesMatched(lines: seq<string>, k1: string, v1: string, k2: string, v2: string,
                                             overrides: map<string, string>)
    requires |lines| == 3 && lines[0] == k1 + "=" + v1 && lines[2] == k2 + "=" + v2
    requires EntryKey(k1) && EntryKey(k2)
    requires IsVerbatim(lines[1])
    requires k1 in overrides && k2 !in overrides
    ensures MatchedKeys(lines, overrides) == {k1}
  {
    EntryLine(k1, v1);
    EntryLine(k2, v2);
    assert LineKey(lines[0], overrides) == {k1};
    assert LineKey(lines[2], overrides) == {};
    MatchedKeysOfThree(lines, overrides);
  }

  /** The keys three lines match are those of each line. */
  lemma {:induction false} MatchedKeysOfThree(lines: seq<string>, overrides: map<string, string>)
    requires |lines| == 3
    ensures MatchedKeys(lines, overrides)
            == LineKey(lines[0], overrides) + LineKey(lines[1], overrides) + LineKey(lines[2], overrides)
  {
    MatchedKeysSnoc([], lines[0], overrides);
    MatchedKeysSnoc([lines[0]], lines[1], overrides);
    MatchedKeysSnoc([lines[0], lines[1]], lines[2], overrides);
    assert [] + [lines[0]] == [lines[0]];
    assert [lines[0]] + [lines[1]] == [lines[0], lines[1]];
    assert [lines[0], lines[1]] + [lines[2]] == lines;
  }

  predicate EntryKey(key: string) {
    key != "" && '=' !in key && key[0] != '#' && !IsSpace(key[0]) && !IsSpace(key[|key| - 1])
  }

  /** The merge of the repository's own test: `FOO` is overridden in place,
      the comment and `BAZ` are kept, and `NEW` is appended. */
  lemma {:induction false} MergeExample(input: string, ov: map<string, string>, order: seq<string>)
    requires input == "FOO=bar\n# Comment\nBAZ=qux\n"
    requires ov == map["FOO" := "override", "NEW" := "value"]
    requires Enumerates(order, Unmatched(ScanLines(input), ov))
    ensures MergeWith(input, ov, order) == Render(["FOO=override", "# Comment", "BAZ=qux", "NEW=value"])
  {
    var lines := ["FOO=bar", "# Comment", "BAZ=qux"];
    var out := ["FOO=override", "# Comment", "BAZ=qux", "NEW=value"];
    ExampleLines(lines);
    ExampleOverrides(ov, out);
    MergeEntryCommentEntry(input, lines, "FOO", "bar", "BAZ", "qux", ov, "NEW", order, out);
  }

  lemma {:induction false} ExampleLines(lines: seq<string>)
    requires lines == ["FOO=bar", "# Comment", "BAZ=qux"]
    ensures Render(lines) == "FOO=bar\n# Comment\nBAZ=qux\n"
    ensures |lines| == 3 && lines[0] == "FOO" + "=" + "bar" && lines[2] == "BAZ" + "=" + "qux"
    ensures EntryKey("FOO") && EntryKey("BAZ") && "FOO" != "BAZ"
    ensures forall i | 0 <= i < 3 :: LineSafe(lines[i])
    ensures IsVerbatim(lines[1])
  {
    ExampleInput();
    ExampleLineSafe(lines[0]);
    ExampleLineSafe(lines[1]);
    ExampleLineSafe(lines[2]);
  }

  lemma {:induction false} ExampleLineSafe(s: string)
    requires s == "FOO=bar" || s == "# Comment" || s == "BAZ=qux"
    ensures LineSafe(s)
  {
  }

  lemma {:induction false} ExampleOverrides(ov: map<string, string>, out: seq<string>)
    requires ov == map["FOO" := "override", "NEW" := "value"]
    requires out == ["FOO=override", "# Comment", "BAZ=qux", "NEW=value"]
    ensures ov.Keys == {"FOO", "NEW"} && "NEW" != "FOO" && "NEW" != "BAZ"
    ensures out == ["FOO" + "=" + ov["FOO"], "# Comment", "BAZ" + "=" + "qux", "NEW" + "=" + ov["NEW"]]
  {
    assert ov["FOO"] == "override" && ov["NEW"] == "value";
    assert "FOO" + "=" + "override" == "FOO=override";
    assert "NEW" + "=" + "value" == "NEW=value";
    assert "BAZ" + "=" + "qux" == "BAZ=qux";
  }

  lemma {:induction false} ExampleInput()
    ensures IsVerbatim("# Comment")
    ensures "FOO" + "=" + "bar" == "FOO=bar" && "BAZ" + "=" + "qux" == "BAZ=qux"
    ensures EntryKey("FOO") && EntryKey("BAZ")
    ensures Render(["FOO=bar", "# Comment", "BAZ=qux"]) == "FOO=bar\n# Comment\nBAZ=qux\n"
  {
    CommentIsVerbatim();
    ExampleKeys();
    ExampleEntries();
    ExampleInputRender();
  }

  lemma {:induction false} CommentIsVerbatim()
    ensures IsVerbatim("# Comment")
  {
    var c := "# Comment";
    assert !IsSpace(c[0]) && !IsSpace(c[|c| - 1]);
    TrimSpaceOfTrimmed(c);
    assert HasPrefix(c, "#");
  }

  lemma {:induction false} ExampleKeys()
    ensures EntryKey("FOO") && EntryKey("BAZ")
  {
    var foo := "FOO";
    var baz := "BAZ";
    assert '=' !in foo && '=' !in baz;
  }

  lemma {:induction false} ExampleEntries()
    ensures "FOO" + "=" + "bar" == "FOO=bar" && "BAZ" + "=" + "qux" == "BAZ=qux"
  {
  }

  lemma {:induction false} ExampleInputRender()
    ensures Render(["FOO=bar", "# Comment", "BAZ=qux"]) == "FOO=bar\n# Comment\nBAZ=qux\n"
  {
    JoinThree("FOO=bar", "# Comment", "BAZ=qux", "\n");
  }
}

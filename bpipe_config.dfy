/**
 * The `key=value` configuration reader of the older driver
 * (pipeline/b_dopseq_pipe.py, `parse_config`). A file is given as its
 * lines, each with the newline that ends it, as Python's line iteration
 * yields them.
 */
module BPipeConfig {
  import opened Wrappers
  import opened PyStr

  /** The exception for a line with more than one `=`; it carries the line without its comment. */
  datatype ParseError = TooManyEquals(line: string)

  /**
   * `line[:line.find('#')]`: the text before the first `#`; without a `#`
   * the index is -1 and the slice drops the line's last character (its
   * newline, or the last character of a final line that has none).
   */
  function Uncomment(line: string): string
  {
    SliceTo(line, Find(line, '#'))
  }

  lemma UncommentSpec(line: string)
    ensures '#' in line ==>
      var k := Find(line, '#');
      Uncomment(line) == line[..k] && '#' !in Uncomment(line) && line[k] == '#'
    ensures '#' !in line && |line| > 0 ==> Uncomment(line) == line[..|line| - 1]
    ensures '#' !in line && |line| == 0 ==> Uncomment(line) == ""
  {
  }

  /** The setting a line makes: with exactly one `=`, the text before it, and the text after it with spaces stripped. */
  function Entry(line: string): Option<(string, string)>
  {
    var parts := Split(Uncomment(line), '=');
    if |parts| == 2 then Some((parts[0], Strip(parts[1], ' '))) else None
  }

  /** One line read into the settings so far: a setting is (over)written, a line without `=` is ignored. */
  function ParseLine(conf: map<string, string>, line: string): (r: Result<map<string, string>, ParseError>)
    ensures r.Failure? <==> Count(Uncomment(line), '=') >= 2
    ensures r.Success? && Entry(line).Some? ==> r.value == conf[Entry(line).value.0 := Entry(line).value.1]
    ensures r.Success? && Entry(line).None? ==> r.value == conf
  {
    var parts := Split(Uncomment(line), '=');
    if |parts| == 2 then Success(conf[parts[0] := Strip(parts[1], ' ')])
    else if |parts| > 2 then Failure(TooManyEquals(Uncomment(line)))
    else Success(conf)
  }

  /** The settings of a file: its lines read in order from an empty mapping. */
  function Parse(lines: seq<string>): Result<map<string, string>, ParseError>
  {
    if |lines| == 0 then Success(map[])
    else
      var conf :- Parse(lines[..|lines| - 1]);
      ParseLine(conf, lines[|lines| - 1])
  }

  /** `parse_config`: a loop over the lines that fills the mapping step by step. */
  method ParseConfig(lines: seq<string>) returns (r: Result<map<string, string>, ParseError>)
    ensures r == Parse(lines)
  {
    var conf: map<string, string> := map[];
    var i := 0;
    while i < |lines|
      invariant 0 <= i <= |lines|
      invariant Parse(lines[..i]) == Success(conf)
    {
      assert lines[..i + 1][..i] == lines[..i];
      var line := Uncomment(lines[i]);
      var parts := Split(line, '=');
      if |parts| == 2 {
        conf := conf[parts[0] := Strip(parts[1], ' ')];
      } else if |parts| > 2 {
        FailureSticks(lines, i + 1);
        return Failure(TooManyEquals(line));
      }
      i := i + 1;
    }
    assert lines[..i] == lines;
    r := Success(conf);
  }

  /**
   * A line sets a key exactly when its uncommented text has one `=`: the
   * key is the whole text before it, spaces included, and the value the
   * text after it with the surrounding spaces removed.
   */
  lemma EntrySpec(line: string)
    ensures Entry(line).Some? <==> Count(Uncomment(line), '=') == 1
    ensures Entry(line).Some? ==>
      var (key, value) := Entry(line).value;
      exists raw :: Uncomment(line) == key + "=" + raw && '=' !in key && '=' !in raw && value == Strip(raw, ' ')
  {
    var u := Uncomment(line);
    var parts := Split(u, '=');
    if |parts| == 2 {
      JoinSplit(u, '=');
      assert Join(parts, '=') == parts[0] + ['='] + Join(parts[1..], '=');
      assert parts[1..] == [parts[1]];
      assert u == parts[0] + "=" + parts[1];
      assert '=' !in parts[0] && '=' !in parts[1];
    }
  }

  /** Once a prefix of the file fails, the whole file fails with the same exception. */
  lemma {:induction false} FailureSticks(lines: seq<string>, k: nat)
    requires k <= |lines| && Parse(lines[..k]).Failure?
    ensures Parse(lines) == Parse(lines[..k])
    decreases |lines|
  {
    if k < |lines| {
      var init := lines[..|lines| - 1];
      assert init[..k] == lines[..k];
      FailureSticks(init, k);
    } else {
      assert lines[..k] == lines;
    }
  }

  /** A line with two or more `=` outside its comment, which `parse_config` rejects. */
  predicate Malformed(line: string)
  {
    Count(Uncomment(line), '=') >= 2
  }

  /** One more line fails the file exactly when the file so far fails or the line is malformed. */
  lemma ParseStep(lines: seq<string>)
    requires |lines| > 0
    ensures Parse(lines).Failure? <==> Parse(lines[..|lines| - 1]).Failure? || Malformed(lines[|lines| - 1])
  {
  }

  /** A malformed line fails the whole file. */
  lemma MalformedFails(lines: seq<string>, i: nat)
    requires i < |lines| && Malformed(lines[i])
    ensures Parse(lines).Failure?
  {
    var upto := lines[..i + 1];
    assert upto[|upto| - 1] == lines[i];
    ParseStep(upto);
    FailureSticks(lines, i + 1);
  }

  /** A file that fails to parse has a malformed line. */
  lemma {:induction false} FailureHasMalformed(lines: seq<string>) returns (i: nat)
    requires Parse(lines).Failure?
    ensures i < |lines| && Malformed(lines[i])
  {
    var init := lines[..|lines| - 1];
    ParseStep(lines);
    if Malformed(lines[|lines| - 1]) {
      i := |lines| - 1;
    } else {
      i := FailureHasMalformed(init);
      assert init[i] == lines[i];
    }
  }

  /** A file fails to parse exactly when one of its lines is malformed. */
  lemma ParseFailsIff(lines: seq<string>)
    ensures Parse(lines).Failure? <==> exists i :: 0 <= i < |lines| && Malformed(lines[i])
  {
    if Parse(lines).Failure? {
      var i := FailureHasMalformed(lines);
    }
    forall i | 0 <= i < |lines| && Malformed(lines[i])
      ensures Parse(lines).Failure?
    {
      MalformedFails(lines, i);
    }
  }

  /** The value the last line that sets `key` gives it, if any line does. */
  function LastValue(lines: seq<string>, key: string): Option<string>
  {
    if |lines| == 0 then None
    else
      var e := Entry(lines[|lines| - 1]);
      if e.Some? && e.value.0 == key then Some(e.value.1) else LastValue(lines[..|lines| - 1], key)
  }

  /** A later line overrides an earlier one with the same key; a key no line sets is absent. */
  lemma {:induction false} ParseLastWins(lines: seq<string>, key: string)
    requires Parse(lines).Success?
    ensures key in Parse(lines).value <==> LastValue(lines, key).Some?
    ensures key in Parse(lines).value ==> Parse(lines).value[key] == LastValue(lines, key).value
  {
    if |lines| > 0 {
      ParseLastWins(lines[..|lines| - 1], key);
    }
  }

  /** The first `#` of a line is found after a text without one. */
  lemma {:induction false} FindAfter(a: string, b: string, c: char)
    requires c !in a
    ensures Find(a + [c] + b, c) == |a|
  {
    if a != [] {
      assert (a + [c] + b)[1..] == a[1..] + [c] + b;
      FindAfter(a[1..], b, c);
    }
  }

  /** A file of one line holds what that line sets. */
  lemma ParseOne(lines: seq<string>)
    requires |lines| == 1
    ensures Parse(lines) == ParseLine(map[], lines[0])
  {
    assert lines[..0] == [];
  }

  /** The text of a setting `key=raw` splits at its one `=`. */
  lemma SplitSetting(key: string, raw: string)
    requires '=' !in key && '=' !in raw
    ensures Split(key + "=" + raw, '=') == [key, raw]
  {
    SplitNone(key, '=');
    SplitNone(raw, '=');
    SplitAppend(key, raw, '=');
  }

  /** A setting followed by a comment: the key is kept whole and the value is stripped. */
  lemma CommentedEntry(key: string, raw: string, comment: string)
    requires '#' !in key && '#' !in raw && '=' !in key && '=' !in raw
    ensures Entry(key + "=" + raw + "#" + comment) == Some((key, Strip(raw, ' ')))
  {
    var text := key + "=" + raw;
    assert key + "=" + raw + "#" + comment == text + ['#'] + comment;
    FindAfter(text, comment, '#');
    assert text + ['#'] + comment == text + "#" + comment;
    assert (text + ['#'] + comment)[..|text|] == text;
    SplitSetting(key, raw);
  }

  /** A setting without a comment: the last character of the line, normally its newline, is cut off. */
  lemma UncommentedEntry(key: string, raw: string, c: char)
    requires '#' !in key && '#' !in raw && '=' !in key && '=' !in raw && c != '#'
    ensures Entry(key + "=" + raw + [c]) == Some((key, Strip(raw, ' ')))
  {
    var text := key + "=" + raw;
    assert '#' !in text + [c];
    assert (text + [c])[..|text|] == text;
    SplitSetting(key, raw);
  }

  lemma StripExample()
    ensures Strip(" v ", ' ') == "v"
  {
    assert StripLeft(" v ", ' ') == "v ";
    assert StripRight("v ", ' ') == "v";
  }

  /** `k = v # note`: the key keeps its trailing space, the value loses its spaces. */
  lemma KeyKeepsSpaces(lines: seq<string>)
    requires lines == ["k " + "=" + " v " + "#" + " note\n"]
    ensures Parse(lines) == Success(map["k " := "v"])
  {
    ParseOne(lines);
    CommentedEntry("k ", " v ", " note\n");
    StripExample();
  }

  /** A final line `sample=S1` with neither `#` nor newline loses its last character. */
  lemma LastLineLosesCharacter(lines: seq<string>)
    requires lines == ["sample" + "=" + "S" + "1"]
    ensures Parse(lines) == Success(map["sample" := "S"])
  {
    ParseOne(lines);
    UncommentedEntry("sample", "S", '1');
    assert Strip("S", ' ') == "S";
  }
}

/** `loadFileWithLineNumbers` (src/helpers/file.ts): a missing path gives
    `null`; an existing file's text is split on line feeds, every segment is
    prefixed with its 1-based number and `"> "`, and the segments are joined
    back with line feeds.  The file system is a parameter: whether the path
    exists and what it holds. */
module LineNumbers {
  import opened Wrappers
  import opened Text

  const LF: char := '\n'

  /** The label put in front of line `n`: `"<n>> "`. */
  function Label(n: nat): (l: string)
    ensures LF !in l
  {
    NatToString(n) + "> "
  }

  /** `lines.map((line, idx) => `${idx + 1}> ${line}`)`. */
  function NumberLines(lines: seq<string>): seq<string>
  {
    seq(|lines|, i requires 0 <= i < |lines| => Label(i + 1) + lines[i])
  }

  lemma NumberedLinesHaveNoLF(lines: seq<string>)
    requires forall i :: 0 <= i < |lines| ==> LF !in lines[i]
    ensures forall i :: 0 <= i < |lines| ==> LF !in NumberLines(lines)[i]
  {
    forall i | 0 <= i < |lines|
      ensures LF !in NumberLines(lines)[i]
    {
      assert NumberLines(lines)[i] == Label(i + 1) + lines[i];
    }
  }

  /** The numbered file: `None` exactly when the path does not exist; for an
      existing file never empty, and its lines are exactly the numbered
      segments of the content. */
  function LoadFileWithLineNumbers(found: bool, content: string): (r: Option<string>)
    ensures r.None? <==> !found
    ensures r.Some? ==> r.value != ""
    ensures r.Some? ==> Split(r.value, LF) == NumberLines(Split(content, LF))
  {
    if !found then None
    else
      var numbered := NumberLines(Split(content, LF));
      NumberedLinesHaveNoLF(Split(content, LF));
      SplitJoin(numbered, LF);
      var text := Join(numbered, LF);
      assert text != "" by {
        JoinCons(numbered, LF);
        assert |numbered[0]| >= 3;
      }
      Some(text)
  }

  /** The number at the head of an output line, if it carries a label. */
  function LineNumberOf(line: string): Option<nat>
  {
    var k := DigitRun(line);
    if 0 < k && k + 2 <= |line| && line[k..k + 2] == "> " then Some(ParseDecimal(line[..k]))
    else None
  }

  /** An output line with its label removed; unlabelled lines are kept. */
  function StripLabel(line: string): string
  {
    var k := DigitRun(line);
    if 0 < k && k + 2 <= |line| && line[k..k + 2] == "> " then line[k + 2..] else line
  }

  /** Reads numbered text back: removes the label of every line. */
  function Unnumber(text: string): string
  {
    var lines := Split(text, LF);
    Join(seq(|lines|, i requires 0 <= i < |lines| => StripLabel(lines[i])), LF)
  }

  /** The label's digits end exactly where the label's `"> "` begins. */
  lemma LabelledLine(n: nat, rest: string)
    ensures DigitRun(Label(n) + rest) == |NatToString(n)|
    ensures LineNumberOf(Label(n) + rest) == Some(n)
    ensures StripLabel(Label(n) + rest) == rest
  {
    var line := Label(n) + rest;
    var d := NatToString(n);
    var k := DigitRun(line);
    assert line[|d|] == '>';
    assert forall i :: 0 <= i < |d| ==> line[i] == d[i];
    assert k == |d|;
    assert line[..k] == d;
    assert line[k..k + 2] == "> ";
    assert line[k + 2..] == rest;
  }

  /** One output line per line-feed-separated segment of the content. */
  lemma LineCount(content: string)
    ensures |Split(LoadFileWithLineNumbers(true, content).value, LF)| == Count(content, LF) + 1
  {
  }

  /** Output line `i` (1-based) is the label of `i` followed by segment `i` of
      the content, and reading its number back gives `i`: numbers start at 1
      and go up by one. */
  lemma LineShape(content: string, i: nat)
    requires 1 <= i <= Count(content, LF) + 1
    ensures Split(LoadFileWithLineNumbers(true, content).value, LF)[i - 1]
         == NatToString(i) + "> " + Split(content, LF)[i - 1]
    ensures LineNumberOf(Split(LoadFileWithLineNumbers(true, content).value, LF)[i - 1]) == Some(i)
  {
    LabelledLine(i, Split(content, LF)[i - 1]);
  }

  /** Removing every line's label and re-joining gives the file back exactly. */
  lemma RoundTrip(content: string)
    ensures Unnumber(LoadFileWithLineNumbers(true, content).value) == content
  {
    var segments := Split(content, LF);
    var text := LoadFileWithLineNumbers(true, content).value;
    var lines := Split(text, LF);
    assert lines == NumberLines(segments);
    var stripped := seq(|lines|, i requires 0 <= i < |lines| => StripLabel(lines[i]));
    forall i | 0 <= i < |lines|
      ensures stripped[i] == segments[i]
    {
      assert lines[i] == Label(i + 1) + segments[i];
      LabelledLine(i + 1, segments[i]);
    }
    assert stripped == segments;
    assert Unnumber(text) == Join(stripped, LF);
  }

  /** An empty file is one empty line: `"1> "`. */
  lemma EmptyFile()
    ensures LoadFileWithLineNumbers(true, "") == Some("1> ")
  {
    assert Split("", LF) == [""];
    assert NatToString(1) == "1";
    assert Label(1) == "1> ";
    var numbered := NumberLines([""]);
    assert |numbered| == 1;
    assert numbered[0] == Label(1) + "" == "1> ";
    assert numbered == ["1> "];
  }
}

/**
 * The report file as text. The writer emits every line followed by "\n" and
 * nothing else, so the file is the lines each terminated by a newline; reading
 * it back splits at the newlines.
 */
module Lines {

  predicate NoNewline(s: string) { '\n' !in s }

  /** The file content made of `lines`, each terminated by a newline. */
  function Text(lines: seq<string>): string
    decreases |lines|
  {
    if |lines| == 0 then "" else lines[0] + "\n" + Text(lines[1..])
  }

  /** Writing two runs of lines one after the other is plain concatenation. */
  lemma {:induction false} TextAppend(a: seq<string>, b: seq<string>)
    ensures Text(a + b) == Text(a) + Text(b)
    decreases |a|
  {
    if |a| > 0 {
      assert (a + b)[1..] == a[1..] + b;
      TextAppend(a[1..], b);
    } else {
      assert a + b == b;
    }
  }

  /** Position of the first newline of `s`, or `|s|` when there is none. */
  function LineEnd(s: string): (k: nat)
    ensures k <= |s|
    ensures forall i :: 0 <= i < k ==> s[i] != '\n'
    ensures k < |s| ==> s[k] == '\n'
    decreases |s|
  {
    if |s| == 0 || s[0] == '\n' then 0 else 1 + LineEnd(s[1..])
  }

  /** Splits text into lines at newlines; a final unterminated fragment is a line of its own. */
  function SplitLines(s: string): seq<string>
    decreases |s|
  {
    if |s| == 0 then []
    else
      var k := LineEnd(s);
      if k == |s| then [s] else [s[..k]] + SplitLines(s[k + 1..])
  }

  lemma LineEndOfLine(line: string, rest: string)
    requires NoNewline(line)
    ensures LineEnd(line + "\n" + rest) == |line|
  {
    var t := line + "\n" + rest;
    assert t[|line|] == '\n';
  }

  /** Reading the file back yields the lines written, provided none holds a newline. */
  lemma {:induction false} SplitLinesText(lines: seq<string>)
    requires forall i :: 0 <= i < |lines| ==> NoNewline(lines[i])
    ensures SplitLines(Text(lines)) == lines
    decreases |lines|
  {
    if |lines| > 0 {
      var t := Text(lines);
      var rest := Text(lines[1..]);
      assert t == lines[0] + "\n" + rest;
      LineEndOfLine(lines[0], rest);
      assert t[..|lines[0]|] == lines[0];
      assert t[|lines[0]| + 1..] == rest;
      SplitLinesText(lines[1..]);
      assert lines == [lines[0]] + lines[1..];
    }
  }
}

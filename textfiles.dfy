/**
 * A text file opened for reading, as `scan_file` uses it: `readline()`,
 * `seek(0)`, `read()` and line iteration over a cursor that sits at a line
 * boundary.
 */
module TextFiles {
  import Seqs

  /** Length of the first line of `s`, its terminating '\n' included when there is one. */
  function LineLength(s: string): (n: nat)
    requires s != []
    ensures 1 <= n <= |s|
    ensures forall i :: 0 <= i < n - 1 ==> s[i] != '\n'
    ensures n < |s| ==> s[n - 1] == '\n'
  {
    if s[0] == '\n' || |s| == 1 then 1 else 1 + LineLength(s[1..])
  }

  /** A line as `readline()` returns it: non-empty, with '\n' at most at its end. */
  ghost predicate IsLine(line: string, last: bool) {
    && line != []
    && (forall i :: 0 <= i < |line| - 1 ==> line[i] != '\n')
    && (!last ==> line[|line| - 1] == '\n')
  }

  /** The lines of a text, in order; every line but the last ends with '\n'. */
  function SplitLines(text: string): (lines: seq<string>)
    decreases |text|
    ensures |lines| <= |text|
    ensures lines == [] <==> text == []
  {
    if text == [] then []
    else
      var n := LineLength(text);
      [text[..n]] + SplitLines(text[n..])
  }

  /** Every piece is a line as `readline()` returns it. */
  lemma {:induction false} SplitLinesAreLines(text: string)
    decreases |text|
    ensures var lines := SplitLines(text);
            forall i :: 0 <= i < |lines| ==> IsLine(lines[i], i == |lines| - 1)
  {
    if text != [] {
      var n := LineLength(text);
      SplitLinesAreLines(text[n..]);
      var lines := SplitLines(text);
      assert lines[1..] == SplitLines(text[n..]);
      forall i | 0 < i < |lines| ensures IsLine(lines[i], i == |lines| - 1) {
        assert lines[i] == SplitLines(text[n..])[i - 1];
      }
    }
  }

  function Concat(lines: seq<string>): string {
    if lines == [] then [] else lines[0] + Concat(lines[1..])
  }

  /** Splitting loses nothing: the lines put back together are the text. */
  lemma {:induction false} SplitLinesJoin(text: string)
    decreases |text|
    ensures Concat(SplitLines(text)) == text
  {
    if text != [] {
      var n := LineLength(text);
      SplitLinesJoin(text[n..]);
      Seqs.ConsParts(text[..n], SplitLines(text[n..]));
      Seqs.SplitAt(text, n);
    }
  }

  class TextFile {
    /** The decoded content of the file. */
    const text: string
    /** Its lines. */
    const lines: seq<string>
    /** The cursor, counted in lines. */
    var pos: nat

    /** The lines make up the text, and the cursor is within them. */
    ghost predicate Valid()
      reads this
    {
      Concat(lines) == text && pos <= |lines|
    }

    /** `open(path, 'r')`: the cursor is at the start. */
    constructor Open(content: string)
      ensures Valid() && text == content && lines == SplitLines(content) && pos == 0
    {
      text := content;
      lines := SplitLines(content);
      pos := 0;
      SplitLinesJoin(content);
    }

    predicate AtEnd()
      reads this
    {
      pos >= |lines|
    }

    /** `readline()`: the next line, or "" at end of file. */
    method ReadLine() returns (line: string)
      requires Valid()
      modifies this
      ensures Valid()
      ensures old(pos) < |lines| ==> line == lines[old(pos)] && pos == old(pos) + 1
      ensures old(pos) == |lines| ==> line == [] && pos == old(pos)
    {
      if pos < |lines| {
        line := lines[pos];
        pos := pos + 1;
      } else {
        line := [];
      }
    }

    /** `seek(0)`. */
    method Rewind()
      requires Valid()
      modifies this
      ensures Valid() && pos == 0
    {
      pos := 0;
    }

    /** `read()`: the rest of the file; after a rewind, the whole text. */
    method ReadRest() returns (data: string)
      requires Valid()
      modifies this
      ensures Valid() && pos == |lines|
      ensures data == Concat(lines[old(pos)..])
      ensures old(pos) == 0 ==> data == text
    {
      data := Concat(lines[pos..]);
      assert pos == 0 ==> lines[pos..] == lines;
      pos := |lines|;
    }
  }
}

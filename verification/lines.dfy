/**
 Text as a sequence of lines: joining strings with a separator, as the
 configuration emitters do, and splitting text at its newline characters, the
 view under which the emitted files are described line by line.
 */
module Lines {

  /** The parts with `sep` between consecutive ones; no parts give the empty string. */
  function Join(sep: string, parts: seq<string>): string
    decreases |parts|
  {
    if |parts| == 0 then ""
    else if |parts| == 1 then parts[0]
    else parts[0] + sep + Join(sep, parts[1..])
  }

  predicate NoNewline(s: string) {
    '\n' !in s
  }

  /**
   The lines of a text: the pieces between its newline characters. The empty
   text is one empty line, and a text ending in a newline ends with an empty line.
   */
  function SplitLines(s: string): (ls: seq<string>)
    ensures |ls| >= 1
    ensures forall i :: 0 <= i < |ls| ==> NoNewline(ls[i])
    ensures Join("\n", ls) == s
    decreases |s|
  {
    if s == [] then [""]
    else
      var rest := SplitLines(s[1..]);
      if s[0] == '\n' then
        assert Join("\n", [""] + rest) == "" + "\n" + Join("\n", rest) by {
          assert ([""] + rest)[1..] == rest;
        }
        assert s == [s[0]] + s[1..];
        [""] + rest
      else
        JoinHead("\n", [s[0]], rest);
        assert s == [s[0]] + s[1..];
        [[s[0]] + rest[0]] + rest[1..]
  }

  /** Prefixing the first part prefixes the joined text. */
  lemma JoinHead(sep: string, c: string, parts: seq<string>)
    requires parts != []
    ensures Join(sep, [c + parts[0]] + parts[1..]) == c + Join(sep, parts)
  {
    var q := [c + parts[0]] + parts[1..];
    assert q[1..] == parts[1..];
  }

  /** A text without a newline is a single line. */
  lemma {:induction false} SingleLine(s: string)
    requires NoNewline(s)
    ensures SplitLines(s) == [s]
    decreases |s|
  {
    if s != [] {
      assert NoNewline(s[1..]) by {
        assert forall c :: c in s[1..] ==> c in s;
      }
      SingleLine(s[1..]);
      assert s == [s[0]] + s[1..];
    }
  }

  /** Splitting at one newline splits the text into the lines before it and the lines after it. */
  lemma {:induction false} SplitAtNewline(x: string, y: string)
    ensures SplitLines(x + "\n" + y) == SplitLines(x) + SplitLines(y)
    decreases |x|
  {
    var s := x + "\n" + y;
    if x == [] {
      assert s[0] == '\n' && s[1..] == y;
    } else {
      assert s[0] == x[0] && s[1..] == x[1..] + "\n" + y;
      SplitAtNewline(x[1..], y);
    }
  }

  /** The lines of each part, one part after the other. */
  function LinesOfEach(parts: seq<string>): (ls: seq<string>)
    ensures |ls| >= |parts|
    decreases |parts|
  {
    if parts == [] then [] else SplitLines(parts[0]) + LinesOfEach(parts[1..])
  }

  /** The lines of parts joined with newlines are the lines of each part, in order. */
  lemma {:induction false} SplitJoin(parts: seq<string>)
    requires parts != []
    ensures SplitLines(Join("\n", parts)) == LinesOfEach(parts)
    decreases |parts|
  {
    if |parts| == 1 {
      assert LinesOfEach(parts[1..]) == [];
    } else {
      SplitJoin(parts[1..]);
      SplitAtNewline(parts[0], Join("\n", parts[1..]));
    }
  }

  /** Lines without newlines, joined and split again, come back unchanged. */
  lemma {:induction false} JoinedLinesRoundTrip(parts: seq<string>)
    requires parts != []
    requires forall i :: 0 <= i < |parts| ==> NoNewline(parts[i])
    ensures SplitLines(Join("\n", parts)) == parts
  {
    SplitJoin(parts);
    LinesOfSingleLines(parts);
  }

  lemma {:induction false} LinesOfSingleLines(parts: seq<string>)
    requires forall i :: 0 <= i < |parts| ==> NoNewline(parts[i])
    ensures LinesOfEach(parts) == parts
    decreases |parts|
  {
    if parts != [] {
      SingleLine(parts[0]);
      LinesOfSingleLines(parts[1..]);
    }
  }

  lemma {:induction false} LinesOfEachAppend(a: seq<string>, b: seq<string>)
    ensures LinesOfEach(a + b) == LinesOfEach(a) + LinesOfEach(b)
    decreases |a|
  {
    if a != [] {
      assert (a + b)[0] == a[0] && (a + b)[1..] == a[1..] + b;
      LinesOfEachAppend(a[1..], b);
      calc {
        LinesOfEach(a + b);
        SplitLines(a[0]) + LinesOfEach(a[1..] + b);
        SplitLines(a[0]) + (LinesOfEach(a[1..]) + LinesOfEach(b));
        (SplitLines(a[0]) + LinesOfEach(a[1..])) + LinesOfEach(b);
        LinesOfEach(a) + LinesOfEach(b);
      }
    } else {
      assert a + b == b;
    }
  }

  /**
   A text made of a first line, a blank line, a body and a final newline splits
   into that line, an empty line, the body's lines and an empty last line.
   */
  lemma FramedLines(first: string, body: string)
    requires NoNewline(first)
    ensures SplitLines(first + "\n\n" + body + "\n") == [first, ""] + SplitLines(body) + [""]
  {
    var x := first + "\n\n" + body;
    assert x + "\n" == x + "\n" + "";
    SplitAtNewline(x, "");
    BlankLineBetween(first, body);
    SingleLine(first);
  }

  /** Parts joined by a blank line: the lines of the first, an empty line, the lines of the rest. */
  lemma BlankLineBetween(x: string, y: string)
    ensures SplitLines(x + "\n\n" + y) == SplitLines(x) + [""] + SplitLines(y)
  {
    assert x + "\n\n" + y == x + "\n" + ("" + "\n" + y);
    SplitAtNewline(x, "" + "\n" + y);
    SplitAtNewline("", y);
  }
}

/**
 * Line splitting as bufio.ScanLines does it: a token ends at each '\n', one trailing '\r' is
 * dropped from each token, and text after the last '\n' is a final token only if non-empty.
 */
module LineScan {

  /** Position of the first '\n' in s, or |s| when there is none. */
  function NewlineIndex(s: string): (i: nat)
    ensures i <= |s|
    ensures i < |s| ==> s[i] == '\n'
    ensures forall j :: 0 <= j < i ==> s[j] != '\n'
  {
    if s == [] then 0
    else if s[0] == '\n' then 0
    else 1 + NewlineIndex(s[1..])
  }

  function DropCR(s: string): string
  {
    if |s| > 0 && s[|s| - 1] == '\r' then s[..|s| - 1] else s
  }

  function ScanLines(s: string): seq<string>
    decreases |s|
  {
    if s == [] then []
    else
      var i := NewlineIndex(s);
      if i == |s| then [DropCR(s)] else [DropCR(s[..i])] + ScanLines(s[i + 1..])
  }

  /** A line as a file can hold it: no newline inside and no carriage return at its end. */
  predicate IsLine(line: string)
  {
    (forall j :: 0 <= j < |line| ==> line[j] != '\n') && (|line| == 0 || line[|line| - 1] != '\r')
  }

  /** The text of a file holding these lines, each followed by '\n'. */
  function Terminated(lines: seq<string>): string
  {
    if lines == [] then "" else lines[0] + "\n" + Terminated(lines[1..])
  }

  /** Scanning a newline-terminated file gives back exactly its lines, with no trailing empty entry. */
  lemma {:induction false} ScanTerminated(lines: seq<string>)
    requires forall k :: 0 <= k < |lines| ==> IsLine(lines[k])
    ensures ScanLines(Terminated(lines)) == lines
  {
    if lines != [] {
      var line, rest := lines[0], Terminated(lines[1..]);
      var s := Terminated(lines);
      assert s == line + "\n" + rest;
      assert s[|line|] == '\n';
      assert forall j :: 0 <= j < |line| ==> s[j] == line[j];
      assert NewlineIndex(s) == |line|;
      assert s[..|line|] == line;
      assert s[|line| + 1..] == rest;
      assert IsLine(line);
      assert DropCR(line) == line;
      ScanTerminated(lines[1..]);
    }
  }

  /** The word-list test file "word1\nword2\nword3\n" holds exactly three words. */
  lemma ScanWordListTestFile()
    ensures ScanLines("word1\nword2\nword3\n") == ["word1", "word2", "word3"]
  {
    var lines := ["word1", "word2", "word3"];
    assert Terminated(lines) == "word1\nword2\nword3\n" by {
      assert Terminated(lines[2..]) == "word3\n";
      assert Terminated(lines[1..]) == "word2\nword3\n";
    }
    assert forall k :: 0 <= k < |lines| ==> IsLine(lines[k]);
    ScanTerminated(lines);
  }
}

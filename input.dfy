/**
 * The word list of the input package: the lines of a file held in memory with the path they
 * came from, and their conversion into one probe request per word. The file system is an input:
 * whether the readability check failed, the text the scanner read (up to its first error, if any),
 * and whether the scanner reported an error.
 */
module Input {

  import opened Wrappers
  import opened Ascii
  import opened Requests
  import opened LineScan

  /**
   * The word-list file as the file system presents it. `content` is the text the scanner got
   * through: the whole file, or only what precedes the point where reading failed.
   */
  datatype WordListFile = WordListFile(statErr: Option<string>, content: string, scanErr: Option<string>)

  datatype WordListError = NotReadable(cause: string) | ReadFailed(cause: string)

  /** Whether a line holds the placeholder "%ext%" in any letter case (the pattern `(?i)%ext%`). */
  predicate MentionsExt(text: string)
  {
    exists i | 0 <= i <= |text| - 5 :: ExtAt(text, i)
  }

  predicate ExtAt(text: string, i: int)
    requires 0 <= i <= |text| - 5
  {
    LowerString(text[i..i + 5]) == "%ext%"
  }

  class WordList {
    var data: seq<string>
    var filepath: string

    /** The zero value `&WordList{}`. */
    constructor ()
      ensures data == [] && filepath == ""
    {
      data := [];
      filepath := "";
    }

    /** The path the words were read from, unchanged. */
    function FilePath(): (path: string)
      reads this
      ensures path == filepath
    {
      filepath
    }

    /** How many words are held. */
    function Size(): (n: nat)
      reads this
      ensures n == |data|
    {
      |data|
    }

    /** One request per word, in word order, each for `url`; there is never an error. */
    method TransformWordListToRequests(url: string) returns (requests: seq<Request>, err: Option<string>)
      ensures err.None?
      ensures |requests| == |data|
      ensures forall i :: 0 <= i < |data| ==> requests[i] == Request(url, data[i])
    {
      requests := [];
      var i := 0;
      while i < |data|
        invariant 0 <= i <= |data|
        invariant |requests| == i
        invariant forall k :: 0 <= k < i ==> requests[k] == Request(url, data[k])
      {
        requests := requests + [Request(url, data[i])];
        i := i + 1;
      }
      err := None;
    }

    /**
     * Fails without reading when the readability check fails; otherwise reads the file, and
     * fails when the scanner reported an error.
     */
    method NewWordList(path: string, file: WordListFile) returns (err: Option<WordListError>)
      modifies this
      ensures file.statErr.Some? ==> err == Some(NotReadable(file.statErr.value))
      ensures file.statErr.Some? ==> data == old(data) && filepath == old(filepath)
      ensures file.statErr.None? ==> data == ScanLines(file.content) && filepath == path
      ensures file.statErr.None? ==> err == if file.scanErr.Some? then Some(ReadFailed(file.scanErr.value)) else None
    {
      if file.statErr.Some? {
        return Some(NotReadable(file.statErr.value));
      }
      var readErr := ReadFile(path, file.content, file.scanErr);
      if readErr.Some? {
        return Some(ReadFailed(readErr.value));
      }
      err := None;
    }

    /**
     * Keeps every scanned line verbatim and in order, whether or not it mentions "%ext%", and
     * replaces both the words and the path held before.
     */
    method ReadFile(path: string, content: string, scanErr: Option<string>) returns (err: Option<string>)
      modifies this
      ensures data == ScanLines(content) && filepath == path
      ensures err == scanErr
    {
      var lines := ScanLines(content);
      var words: seq<string> := [];
      var i := 0;
      while i < |lines|
        invariant 0 <= i <= |lines|
        invariant words == lines[..i]
      {
        if MentionsExt(lines[i]) {
          words := words + [lines[i]];
        } else {
          var text := lines[i];
          words := words + [text];
        }
        i := i + 1;
      }
      filepath := path;
      data := words;
      err := scanErr;
    }
  }

  /** Reading the test file "word1\nword2\nword3\n" stores three words and the path, and succeeds. */
  method ReadTestFile() returns (w: WordList, err: Option<WordListError>)
    ensures err.None?
    ensures w.data == ["word1", "word2", "word3"] && w.FilePath() == "mockfile.txt" && w.Size() == 3
  {
    w := new WordList();
    err := w.NewWordList("mockfile.txt", WordListFile(None, "word1\nword2\nword3\n", None));
    ScanWordListTestFile();
  }
}

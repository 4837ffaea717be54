/**
 * Reading the log: `f.readlines()` on the decoded file text, then the Python
 * slice `lines[-n:]`, with a missing file read as no lines at all
 * (`tail_last_lines` in agent/src/logwatch.py).
 */
module LogTail {
  import opened Text

  /** A line as `readlines` yields it: not empty, and a newline can only be its last character. */
  predicate IsLine(s: string)
  {
    s != [] && forall k :: 0 <= k < |s| - 1 ==> s[k] != '\n'
  }

  predicate EndsWithNewline(s: string)
  {
    s != [] && s[|s| - 1] == '\n'
  }

  /** Length of the first line of `text`: up to and including the first newline, or all of it. */
  function FirstLineLength(text: string): (k: nat)
    requires text != []
    ensures 0 < k <= |text|
    ensures IsLine(text[..k])
    ensures k == |text| || text[k - 1] == '\n'
  {
    if text[0] == '\n' || |text| == 1 then 1
    else
      var k' := FirstLineLength(text[1..]);
      assert forall m :: 1 <= m < k' + 1 ==> text[m] == text[1..][..k'][m - 1];
      1 + k'
  }

  /**
   * `readlines()`: the text cut after every newline. Gluing the lines back
   * together gives the text, and every line but the last ends in a newline,
   * which it keeps.
   */
  function ReadLines(text: string): (lines: seq<string>)
    ensures Concat(lines) == text
    ensures forall i :: 0 <= i < |lines| ==> IsLine(lines[i])
    ensures forall i :: 0 <= i < |lines| - 1 ==> EndsWithNewline(lines[i])
    decreases |text|
  {
    if text == [] then []
    else
      var k := FirstLineLength(text);
      var rest := ReadLines(text[k..]);
      assert ([text[..k]] + rest)[1..] == rest;
      assert text == text[..k] + text[k..];
      [text[..k]] + rest
  }

  /** The first line of a text ends at its first newline, or at the end of the text. */
  lemma FirstLineUnique(text: string, m: nat)
    requires 0 < m <= |text| && IsLine(text[..m]) && (m == |text| || text[m - 1] == '\n')
    ensures FirstLineLength(text) == m
  {
    var k := FirstLineLength(text);
    if k < m {
      NoEarlierNewline(text, m, k);
      assert false;
    } else if m < k {
      NoEarlierNewline(text, k, m);
      assert false;
    }
  }

  lemma NoEarlierNewline(text: string, k: nat, m: nat)
    requires 0 < m < k <= |text| && IsLine(text[..k])
    ensures text[m - 1] != '\n'
  {
    assert text[..k][m - 1] == text[m - 1];
  }

  /**
   * The three properties ReadLines promises determine its result: any list of
   * lines that glues back to the text, with a newline ending every line but the
   * last, is ReadLines of that text.
   */
  lemma {:induction false} ReadLinesUnique(text: string, ls: seq<string>)
    requires Concat(ls) == text
    requires forall i :: 0 <= i < |ls| ==> IsLine(ls[i])
    requires forall i :: 0 <= i < |ls| - 1 ==> EndsWithNewline(ls[i])
    ensures ls == ReadLines(text)
    decreases |ls|
  {
    if ls != [] {
      var first := ls[0];
      assert text == first + Concat(ls[1..]);
      assert text[..|first|] == first;
      if |ls| > 1 {
        assert EndsWithNewline(ls[0]);
      } else {
        assert ls[1..] == [];
      }
      FirstLineUnique(text, |first|);
      var rest := ls[1..];
      assert text[|first|..] == Concat(rest);
      forall i | 0 <= i < |rest|
        ensures IsLine(rest[i]) && (i < |rest| - 1 ==> EndsWithNewline(rest[i]))
      {
        assert rest[i] == ls[i + 1];
      }
      ReadLinesUnique(text[|first|..], rest);
      assert ReadLines(text) == [text[..|first|]] + ReadLines(text[|first|..]);
      assert ls == [first] + rest;
    }
  }

  /** Where the Python slice `s[start:]` begins in a list of length `len`. */
  function SliceStart(len: nat, start: int): (i: nat)
    ensures i <= len
  {
    if start < 0 then (if len + start < 0 then 0 else len + start)
    else if start < len then start
    else len
  }

  function Min(a: int, b: int): int { if a <= b then a else b }

  /**
   * `lines[-n:]`. For a positive `n` these are the last `min(n, |lines|)`
   * lines; `-0` is `0`, so `n == 0` keeps every line; a negative `n` drops the
   * first `-n` lines instead.
   */
  function LastLines(lines: seq<string>, n: int): (r: seq<string>)
    ensures |r| <= |lines| && r == lines[|lines| - |r|..]
    ensures n > 0 ==> |r| == Min(n, |lines|)
    ensures n == 0 ==> r == lines
    ensures n < 0 ==> |r| == |lines| - Min(-n, |lines|)
  {
    lines[SliceStart(|lines|, -n)..]
  }

  /** What opening and reading the log file gives. */
  datatype FileRead =
    | NotFound              // FileNotFoundError
    | Unreadable            // any other error raised by open or read
    | Contents(text: string)

  /** The lines `tail_last_lines` returns, or the exception it lets through. */
  datatype TailResult = Lines(lines: seq<string>) | Raised

  /**
   * `tail_last_lines(path, n)`: a missing file is no lines, not an error;
   * other read errors propagate; otherwise a suffix of the file's lines,
   * newlines kept, which glued together is a suffix of the file's text.
   */
  function TailLastLines(file: FileRead, n: int): (r: TailResult)
    ensures file.NotFound? ==> r == Lines([])
    ensures r.Raised? <==> file.Unreadable?
    ensures file.Contents? ==>
              r.Lines? && r.lines == LastLines(ReadLines(file.text), n) &&
              |Concat(r.lines)| <= |file.text| &&
              Concat(r.lines) == file.text[|file.text| - |Concat(r.lines)|..]
    ensures r.Lines? ==> forall i :: 0 <= i < |r.lines| ==> IsLine(r.lines[i])
  {
    match file
    case NotFound => Lines([])
    case Unreadable => Raised
    case Contents(text) =>
      var all := ReadLines(text);
      var tail := LastLines(all, n);
      ConcatAppend(all[..|all| - |tail|], tail);
      assert all == all[..|all| - |tail|] + tail;
      Lines(tail)
  }
}

/**
 * The string operations the log watcher borrows from Python's `str` and `list`:
 * `rstrip("\n")`, `replace(' ', '_')`, `sep.join(parts)`, and the concatenation
 * of a list of strings that reading a file line by line undoes.
 */
module Text {

  /** All the strings of `parts`, one after the other. */
  function Concat(parts: seq<string>): string
  {
    if parts == [] then [] else parts[0] + Concat(parts[1..])
  }

  /** Each part followed by `sep`: the shape of a file written one line at a time. */
  function Terminated(parts: seq<string>, sep: string): (r: seq<string>)
    ensures |r| == |parts|
    ensures forall k :: 0 <= k < |parts| ==> r[k] == parts[k] + sep
  {
    seq(|parts|, k requires 0 <= k < |parts| => parts[k] + sep)
  }

  /** `sep.join(parts)`: the parts with `sep` between neighbours, none before or after. */
  function Join(sep: string, parts: seq<string>): (r: string)
    ensures parts != [] ==> parts[0] <= r
    ensures parts == [] ==> r == []
  {
    if parts == [] then []
    else if |parts| == 1 then parts[0]
    else parts[0] + sep + Join(sep, parts[1..])
  }

  /** `s.rstrip("\n")`: every trailing newline removed, nothing else. */
  function RStripNewlines(s: string): (r: string)
    ensures r <= s
    ensures r == [] || r[|r| - 1] != '\n'
    ensures forall k :: |r| <= k < |s| ==> s[k] == '\n'
  {
    if s != [] && s[|s| - 1] == '\n' then RStripNewlines(s[..|s| - 1]) else s
  }

  /** `s.replace(c, d)` for single characters: every `c` becomes `d`, in place. */
  function ReplaceChar(s: string, c: char, d: char): (r: string)
    ensures |r| == |s|
    ensures forall k :: 0 <= k < |s| ==> r[k] == (if s[k] == c then d else s[k])
    ensures c != d ==> c !in r
  {
    if s == [] then []
    else ReplaceChar(s[..|s| - 1], c, d) + [if s[|s| - 1] == c then d else s[|s| - 1]]
  }

  /** One step of Concat, taken anywhere along the list. */
  lemma ConcatStep(parts: seq<string>, k: nat)
    requires k < |parts|
    ensures Concat(parts[k..]) == parts[k] + Concat(parts[k + 1..])
  {
    assert parts[k..][1..] == parts[k + 1..];
  }

  /** Concatenation distributes over appending lists. */
  lemma {:induction false} ConcatAppend(a: seq<string>, b: seq<string>)
    ensures Concat(a + b) == Concat(a) + Concat(b)
  {
    if a == [] {
      assert a + b == b;
    } else {
      assert (a + b)[1..] == a[1..] + b;
      ConcatAppend(a[1..], b);
    }
  }

  /**
   * Joining with `sep` and adding one more `sep` is the same as writing every
   * part followed by `sep`: `"\n".join(body) + "\n"` is `body` written line by line.
   */
  lemma {:induction false} JoinThenSep(sep: string, parts: seq<string>)
    requires parts != []
    ensures Join(sep, parts) + sep == Concat(Terminated(parts, sep))
  {
    var t := Terminated(parts, sep);
    if |parts| == 1 {
      assert t[1..] == [];
    } else {
      JoinThenSep(sep, parts[1..]);
      assert t[1..] == Terminated(parts[1..], sep);
    }
  }
}

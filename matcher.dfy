/**
 * `find_matches` (agent/src/logwatch.py): every line is tried against every
 * pattern, lines outermost, patterns in declaration order; each success adds
 * one hit. The regular-expression search `re.search(p.match, line)` is the
 * parameter `search`, applied to the line as read (newline included).
 */
module Matcher {
  import opened Text

  /** A named detection rule; names need not be unique. */
  datatype Pattern = Pattern(name: string, regex: string)

  /** A pattern and the line it fired on, trailing newlines removed. */
  datatype Hit = Hit(pattern: Pattern, line: string)

  /** The regular-expression engine: does the expression occur anywhere in the line? */
  type Search = (string, string) -> bool

  /** Pattern `j` fires on line `i`. */
  predicate Fires(search: Search, lines: seq<string>, patterns: seq<Pattern>, i: int, j: int)
  {
    0 <= i < |lines| && 0 <= j < |patterns| && search(patterns[j].regex, lines[i])
  }

  /** The hits one line contributes, in pattern order. */
  function LineHits(search: Search, line: string, patterns: seq<Pattern>): seq<Hit>
  {
    if patterns == [] then []
    else
      var p := patterns[|patterns| - 1];
      LineHits(search, line, patterns[..|patterns| - 1]) +
      (if search(p.regex, line) then [Hit(p, RStripNewlines(line))] else [])
  }

  /** The hits of all lines, line by line. */
  function Hits(search: Search, lines: seq<string>, patterns: seq<Pattern>): seq<Hit>
  {
    if lines == [] then []
    else Hits(search, lines[..|lines| - 1], patterns) + LineHits(search, lines[|lines| - 1], patterns)
  }

  /** `find_matches(lines, patterns)`: two nested loops appending to `hits`. */
  method FindMatches(search: Search, lines: seq<string>, patterns: seq<Pattern>) returns (hits: seq<Hit>)
    ensures hits == Hits(search, lines, patterns)
  {
    hits := [];
    var i := 0;
    while i < |lines|
      invariant 0 <= i <= |lines|
      invariant hits == Hits(search, lines[..i], patterns)
    {
      var line := lines[i];
      var j := 0;
      while j < |patterns|
        invariant 0 <= j <= |patterns|
        invariant hits == Hits(search, lines[..i], patterns) + LineHits(search, line, patterns[..j])
      {
        var p := patterns[j];
        assert patterns[..j + 1][..j] == patterns[..j];
        if search(p.regex, line) {
          hits := hits + [Hit(p, RStripNewlines(line))];
        }
        j := j + 1;
      }
      assert patterns[..|patterns|] == patterns;
      assert lines[..i + 1][..i] == lines[..i];
      i := i + 1;
    }
    assert lines[..|lines|] == lines;
  }

  // ---------------------------------------------------------------------
  // Where each hit comes from.
  // ---------------------------------------------------------------------

  /** The (line index, pattern index) pairs that fire on line `i`, in pattern order. */
  function LineOrigins(search: Search, i: nat, line: string, patterns: seq<Pattern>): seq<(nat, nat)>
  {
    if patterns == [] then []
    else
      var j := |patterns| - 1;
      LineOrigins(search, i, line, patterns[..j]) +
      (if search(patterns[j].regex, line) then [(i, j)] else [])
  }

  /** The (line index, pattern index) pairs that fire, lines first. */
  function Origins(search: Search, lines: seq<string>, patterns: seq<Pattern>): seq<(nat, nat)>
  {
    if lines == [] then []
    else
      var i := |lines| - 1;
      Origins(search, lines[..i], patterns) + LineOrigins(search, i, lines[i], patterns)
  }

  /** Strict lexicographic order: earlier line, or same line and earlier pattern. */
  predicate Before(a: (nat, nat), b: (nat, nat))
  {
    a.0 < b.0 || (a.0 == b.0 && a.1 < b.1)
  }

  lemma {:induction false} LineOriginsFacts(search: Search, i: nat, line: string, patterns: seq<Pattern>)
    ensures var o := LineOrigins(search, i, line, patterns);
      var h := LineHits(search, line, patterns);
      && |h| == |o|
      && (forall k :: 0 <= k < |o| ==>
            o[k].0 == i && o[k].1 < |patterns| && search(patterns[o[k].1].regex, line) &&
            h[k] == Hit(patterns[o[k].1], RStripNewlines(line)))
      && (forall j :: 0 <= j < |patterns| && search(patterns[j].regex, line) ==> (i, j) in o)
      && (forall a, b :: 0 <= a < b < |o| ==> o[a].1 < o[b].1)
  {
    if patterns != [] {
      var j := |patterns| - 1;
      var ps := patterns[..j];
      LineOriginsFacts(search, i, line, ps);
      var fires := search(patterns[j].regex, line);
      var o := LineOrigins(search, i, line, patterns);
      var o' := LineOrigins(search, i, line, ps);
      var h := LineHits(search, line, patterns);
      var h' := LineHits(search, line, ps);
      assert o == o' + (if fires then [(i, j)] else []);
      assert h == h' + (if fires then [Hit(patterns[j], RStripNewlines(line))] else []);
      forall k | 0 <= k < |o'|
        ensures ps[o'[k].1] == patterns[o'[k].1]
      {
      }
      forall j' | 0 <= j' < |patterns| && search(patterns[j'].regex, line)
        ensures (i, j') in o
      {
        if j' < j {
          assert ps[j'] == patterns[j'];
          assert (i, j') in o';
        } else {
          assert o[|o| - 1] == (i, j');
        }
      }
    }
  }

  /**
   * Each hit is the pattern and stripped line of its origin, an index pair
   * that fires. Together with OriginsComplete and OriginsOrdered this pins
   * the hit list down: exactly the firing pairs, each once, line-major then
   * pattern order.
   */
  lemma {:induction false} OriginsSound(search: Search, lines: seq<string>, patterns: seq<Pattern>)
    ensures var o := Origins(search, lines, patterns);
      var h := Hits(search, lines, patterns);
      && |h| == |o|
      && forall k :: 0 <= k < |o| ==>
           Fires(search, lines, patterns, o[k].0, o[k].1) &&
           h[k] == Hit(patterns[o[k].1], RStripNewlines(lines[o[k].0]))
  {
    if lines != [] {
      var i := |lines| - 1;
      OriginsSound(search, lines[..i], patterns);
      LineOriginsFacts(search, i, lines[i], patterns);
      var o' := Origins(search, lines[..i], patterns);
      forall k | 0 <= k < |o'|
        ensures lines[..i][o'[k].0] == lines[o'[k].0]
      {
      }
    }
  }

  /** Every firing pair has a hit: no short-circuit after the first match. */
  lemma {:induction false} OriginsComplete(search: Search, lines: seq<string>, patterns: seq<Pattern>)
    ensures forall i, j :: Fires(search, lines, patterns, i, j) ==> (i, j) in Origins(search, lines, patterns)
  {
    if lines != [] {
      var n := |lines| - 1;
      OriginsComplete(search, lines[..n], patterns);
      LineOriginsFacts(search, n, lines[n], patterns);
      var o' := Origins(search, lines[..n], patterns);
      var l := LineOrigins(search, n, lines[n], patterns);
      assert Origins(search, lines, patterns) == o' + l;
      forall i, j | Fires(search, lines, patterns, i, j)
        ensures (i, j) in o' + l
      {
        if i < n {
          assert Fires(search, lines[..n], patterns, i, j);
          assert (i, j) in o';
        } else {
          assert search(patterns[j].regex, lines[n]);
          assert (i, j) in l;
        }
      }
    }
  }

  /** Origins rise strictly: hits are line-major, then in pattern order, with no duplicates. */
  lemma {:induction false} OriginsOrdered(search: Search, lines: seq<string>, patterns: seq<Pattern>)
    ensures var o := Origins(search, lines, patterns);
      forall a, b :: 0 <= a < b < |o| ==> Before(o[a], o[b])
  {
    if lines != [] {
      var n := |lines| - 1;
      OriginsOrdered(search, lines[..n], patterns);
      OriginsSound(search, lines[..n], patterns);
      LineOriginsFacts(search, n, lines[n], patterns);
      var o' := Origins(search, lines[..n], patterns);
      var l := LineOrigins(search, n, lines[n], patterns);
      var o := Origins(search, lines, patterns);
      assert o == o' + l;
      forall a, b | 0 <= a < b < |o|
        ensures Before(o[a], o[b])
      {
        if b < |o'| {
          assert Before(o'[a], o'[b]);
        } else if a < |o'| {
          assert Fires(search, lines[..n], patterns, o'[a].0, o'[a].1);
          assert o[b] == l[b - |o'|];
        } else {
          assert o[a] == l[a - |o'|] && o[b] == l[b - |o'|];
        }
      }
    }
  }

  /**
   * The first hit is the first pattern, in declaration order, that fires on the
   * first line any pattern fires on.
   */
  lemma FirstHit(search: Search, lines: seq<string>, patterns: seq<Pattern>) returns (i: nat, j: nat)
    requires Hits(search, lines, patterns) != []
    ensures Fires(search, lines, patterns, i, j)
    ensures Hits(search, lines, patterns)[0] == Hit(patterns[j], RStripNewlines(lines[i]))
    ensures forall i', j' :: Fires(search, lines, patterns, i', j') ==> i < i' || (i == i' && j <= j')
  {
    OriginsSound(search, lines, patterns);
    OriginsComplete(search, lines, patterns);
    OriginsOrdered(search, lines, patterns);
    var o := Origins(search, lines, patterns);
    i, j := o[0].0, o[0].1;
    forall i', j' | Fires(search, lines, patterns, i', j')
      ensures i < i' || (i == i' && j <= j')
    {
      var b :| 0 <= b < |o| && o[b] == (i', j');
      if b > 0 {
        assert Before(o[0], o[b]);
      }
    }
  }

  /** Hits of a longer log are the hits of its first part followed by those of the rest. */
  lemma {:induction false} HitsAppend(search: Search, a: seq<string>, b: seq<string>, patterns: seq<Pattern>)
    ensures Hits(search, a + b, patterns) == Hits(search, a, patterns) + Hits(search, b, patterns)
    decreases |b|
  {
    if b == [] {
      assert a + b == a;
    } else {
      var n := |b| - 1;
      var ab := a + b;
      assert ab[..|ab| - 1] == a + b[..n];
      assert ab[|ab| - 1] == b[n];
      HitsAppend(search, a, b[..n], patterns);
      var last := LineHits(search, b[n], patterns);
      calc {
        Hits(search, ab, patterns);
        Hits(search, ab[..|ab| - 1], patterns) + LineHits(search, ab[|ab| - 1], patterns);
        Hits(search, a + b[..n], patterns) + last;
        (Hits(search, a, patterns) + Hits(search, b[..n], patterns)) + last;
        Hits(search, a, patterns) + (Hits(search, b[..n], patterns) + last);
        Hits(search, a, patterns) + Hits(search, b, patterns);
      }
    }
  }

  /** No patterns, or no lines: no hits. */
  lemma {:induction false} NoPatternsNoHits(search: Search, lines: seq<string>)
    ensures Hits(search, lines, []) == []
  {
    if lines != [] {
      NoPatternsNoHits(search, lines[..|lines| - 1]);
    }
  }

  /** Every hit names one of the patterns and carries a line with no trailing newline. */
  lemma HitsWellFormed(search: Search, lines: seq<string>, patterns: seq<Pattern>)
    ensures forall h :: h in Hits(search, lines, patterns) ==>
      h.pattern in patterns && (h.line == [] || h.line[|h.line| - 1] != '\n') &&
      exists i :: 0 <= i < |lines| && h.line == RStripNewlines(lines[i])
  {
    OriginsSound(search, lines, patterns);
    var o := Origins(search, lines, patterns);
    var hs := Hits(search, lines, patterns);
    forall h | h in hs
      ensures h.pattern in patterns && (h.line == [] || h.line[|h.line| - 1] != '\n') &&
        exists i :: 0 <= i < |lines| && h.line == RStripNewlines(lines[i])
    {
      var k :| 0 <= k < |hs| && hs[k] == h;
      assert Fires(search, lines, patterns, o[k].0, o[k].1);
    }
  }

  /** When every pattern fires on every line there are |lines| * |patterns| hits: nothing is merged. */
  lemma {:induction false} AllFireCount(search: Search, lines: seq<string>, patterns: seq<Pattern>)
    requires forall i, j :: 0 <= i < |lines| && 0 <= j < |patterns| ==> Fires(search, lines, patterns, i, j)
    ensures |Hits(search, lines, patterns)| == |lines| * |patterns|
  {
    if lines != [] {
      var n := |lines| - 1;
      forall i, j | 0 <= i < n && 0 <= j < |patterns|
        ensures Fires(search, lines[..n], patterns, i, j)
      {
        assert Fires(search, lines, patterns, i, j);
      }
      AllFireCount(search, lines[..n], patterns);
      forall j | 0 <= j < |patterns|
        ensures search(patterns[j].regex, lines[n])
      {
        assert Fires(search, lines, patterns, n, j);
      }
      LineHitsAllFire(search, lines[n], patterns);
      var m := |patterns|;
      assert Hits(search, lines, patterns) ==
        Hits(search, lines[..n], patterns) + LineHits(search, lines[n], patterns);
      assert |Hits(search, lines, patterns)| == n * m + m;
      assert n * m + m == (n + 1) * m;
    }
  }

  lemma {:induction false} LineHitsAllFire(search: Search, line: string, patterns: seq<Pattern>)
    requires forall j :: 0 <= j < |patterns| ==> search(patterns[j].regex, line)
    ensures |LineHits(search, line, patterns)| == |patterns|
  {
    if patterns != [] {
      LineHitsAllFire(search, line, patterns[..|patterns| - 1]);
    }
  }

  /**
   * Two lines, two patterns: "foo" fires on the first line only, "ba" on both.
   * The hits come line by line, then pattern by pattern, and the first line
   * gives two hits.
   */
  lemma OrderExample(search: Search)
    requires search("foo", "foo bar") && search("ba", "foo bar")
    requires !search("foo", "baz") && search("ba", "baz")
    ensures Hits(search, ["foo bar", "baz"], [Pattern("A", "foo"), Pattern("B", "ba")]) ==
      [Hit(Pattern("A", "foo"), "foo bar"), Hit(Pattern("B", "ba"), "foo bar"), Hit(Pattern("B", "ba"), "baz")]
  {
    var lines := ["foo bar", "baz"];
    var ps := [Pattern("A", "foo"), Pattern("B", "ba")];
    assert RStripNewlines("foo bar") == "foo bar";
    assert RStripNewlines("baz") == "baz";
    assert ps[..1] == [Pattern("A", "foo")] && ps[..1][..0] == [];
    assert LineHits(search, "foo bar", ps) == [Hit(ps[0], "foo bar"), Hit(ps[1], "foo bar")];
    assert LineHits(search, "baz", ps) == [Hit(ps[1], "baz")];
    assert lines[..1] == ["foo bar"] && lines[..1][..0] == [];
    assert Hits(search, lines[..1], ps) == [Hit(ps[0], "foo bar"), Hit(ps[1], "foo bar")];
  }
}

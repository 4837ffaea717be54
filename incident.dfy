/**
 * `write_incident` (agent/src/logwatch.py): the incident note's file name and
 * its markdown text. The two clock readings (the file-name stamp and the ISO
 * time) and the printed log path come in as strings; creating the directory
 * and writing the file are the caller's business.
 */
module IncidentWriter {
  import opened Text
  import opened Matcher

  /** The signals section when there are no hits. */
  const NoSignals := "- (none)"

  /** The two fixed "Next steps" bullets. */
  const RunbookStep := "- Add runbook steps you took in `docs/04_Runbook.md`."
  const PatternStep := "- If this repeats, add a new detection pattern in `agent/config.yaml`."

  /** A rendered note: the directory it goes to, its file name and its text. */
  datatype Incident = Incident(dir: string, fileName: string, text: string)

  /**
   * `<stamp>_<title>.md` with every space of the title turned into an
   * underscore, so the title part holds no space.
   */
  function FileName(stamp: string, title: string): (name: string)
    ensures |name| == |stamp| + 1 + |title| + 3
    ensures name[..|stamp|] == stamp && name[|stamp|] == '_'
    ensures forall k :: 0 <= k < |title| ==>
              name[|stamp| + 1 + k] == (if title[k] == ' ' then '_' else title[k])
    ensures ' ' !in name[|stamp| + 1..|name| - 3]
    ensures name[|name| - 3..] == ".md"
  {
    var t := ReplaceChar(title, ' ', '_');
    var name := stamp + "_" + t + ".md";
    assert name[|stamp| + 1..|name| - 3] == t;
    name
  }

  /** One signals bullet: `- **<pattern name>**: `<line>``. */
  function Bullet(h: Hit): string
  {
    "- **" + h.pattern.name + "**: `" + h.line + "`"
  }

  function Bullets(hits: seq<Hit>): (r: seq<string>)
    ensures |r| == |hits| && forall k :: 0 <= k < |hits| ==> r[k] == Bullet(hits[k])
  {
    seq(|hits|, k requires 0 <= k < |hits| => Bullet(hits[k]))
  }

  /**
   * The "Detected signals" block: the placeholder exactly when there are no
   * hits, otherwise one bullet per hit, in hit order, one per line.
   */
  function SignalBlock(hits: seq<Hit>): (r: string)
    ensures r == NoSignals <==> hits == []
    ensures hits != [] ==> r == Join("\n", Bullets(hits)) && Bullet(hits[0]) <= r
  {
    if hits == [] then NoSignals
    else
      var r := Join("\n", Bullets(hits));
      assert r[2] == '*' != NoSignals[2];
      r
  }

  /** The context lines as the note shows them: each with its trailing newlines removed. */
  function Stripped(context: seq<string>): (r: seq<string>)
    ensures |r| == |context| && forall k :: 0 <= k < |context| ==> r[k] == RStripNewlines(context[k])
  {
    seq(|context|, k requires 0 <= k < |context| => RStripNewlines(context[k]))
  }

  /** The lines of the note before the context block. */
  function Preamble(title: string, time: string, logPath: string, signals: string): seq<string>
  {
    [ "# Incident: " + title,
      "",
      "- Time: " + time,
      "- Log: `" + logPath + "`",
      "",
      "## Detected signals",
      signals,
      "",
      "## Context (tail)",
      "```log" ]
  }

  /** The lines of the note after the context block. */
  const Closing: seq<string> := ["```", "", "## Next steps", RunbookStep, PatternStep, ""]

  /**
   * The list `body` that `write_incident` builds: heading, time, log path,
   * signals, the whole context fenced as a log block, and the next steps,
   * ending in an empty line.
   */
  function BodyLines(title: string, time: string, logPath: string, context: seq<string>, hits: seq<Hit>)
    : (body: seq<string>)
    ensures |body| == 16 + |context|
    ensures body[..10] == Preamble(title, time, logPath, SignalBlock(hits))
    ensures body[10..10 + |context|] == Stripped(context)
    ensures body[10 + |context|..] == Closing
    ensures body[0] == "# Incident: " + title
    ensures body[1] == body[4] == body[7] == body[11 + |context|] == ""
    ensures body[8] == "## Context (tail)"
    ensures body[2] == "- Time: " + time && body[3] == "- Log: `" + logPath + "`"
    ensures body[5] == "## Detected signals" && body[6] == SignalBlock(hits)
    ensures body[9] == "```log" && body[10 + |context|] == "```"
    ensures forall k :: 0 <= k < |context| ==> body[10 + k] == RStripNewlines(context[k])
    ensures body[12 + |context|] == "## Next steps"
    ensures body[13 + |context|] == RunbookStep && body[14 + |context|] == PatternStep
    ensures body[15 + |context|] == ""
  {
    Preamble(title, time, logPath, SignalBlock(hits)) + Stripped(context) + Closing
  }

  /** Building `body` the way `write_incident` does, one append at a time. */
  method BuildBody(title: string, time: string, logPath: string, context: seq<string>, hits: seq<Hit>)
    returns (body: seq<string>)
    ensures body == BodyLines(title, time, logPath, context, hits)
  {
    var hitLines := if hits != [] then Join("\n", Bullets(hits)) else NoSignals;
    body := [];
    body := body + ["# Incident: " + title];
    body := body + [""];
    body := body + ["- Time: " + time];
    body := body + ["- Log: `" + logPath + "`"];
    body := body + [""];
    assert body == Preamble(title, time, logPath, SignalBlock(hits))[..5];
    body := body + ["## Detected signals"];
    body := body + [hitLines];
    body := body + [""];
    body := body + ["## Context (tail)"];
    body := body + ["```log"];
    assert body == Preamble(title, time, logPath, SignalBlock(hits));
    ghost var pre := body;
    body := body + Stripped(context);
    body := body + ["```"];
    body := body + [""];
    body := body + ["## Next steps"];
    body := body + [RunbookStep];
    body := body + [PatternStep];
    body := body + [""];
    assert body == pre + Stripped(context) + Closing;
  }

  /** The text before the context lines: the preamble lines, each ended by a newline. */
  function Head(title: string, time: string, logPath: string, signals: string): string
  {
    HeadTop(title, time, logPath) + HeadSignals(signals)
  }

  /** The heading, time and log path lines of the note. */
  function HeadTop(title: string, time: string, logPath: string): string
  {
    "# Incident: " + title + "\n" +
    "" + "\n" +
    "- Time: " + time + "\n" +
    "- Log: `" + logPath + "`" + "\n" +
    "" + "\n"
  }

  /** The signals section and the opening of the context block. */
  function HeadSignals(signals: string): string
  {
    "## Detected signals" + "\n" +
    signals + "\n" +
    "" + "\n" +
    "## Context (tail)" + "\n" +
    "```log" + "\n"
  }

  /** The text after the context lines: closing fence, next steps and a final empty line. */
  const Foot: string :=
    "```" + "\n" +
    "" + "\n" +
    "## Next steps" + "\n" +
    RunbookStep + "\n" +
    PatternStep + "\n" +
    "" + "\n"

  /**
   * The file text, `"\n".join(body) + "\n"`. It is the heading block, then each
   * context line (trailing newlines stripped) on a line of its own, then the
   * closing fence and next steps; since `body` ends with an empty line, the text
   * ends with a blank line, "\n\n".
   */
  function Render(title: string, time: string, logPath: string, context: seq<string>, hits: seq<Hit>)
    : (text: string)
    ensures text == Head(title, time, logPath, SignalBlock(hits)) + Concat(Terminated(Stripped(context), "\n")) + Foot
  {
    var body := BodyLines(title, time, logPath, context, hits);
    var text := Join("\n", body) + "\n";
    RenderShape(title, time, logPath, context, hits);
    text
  }

  /** Since `body` ends with an empty line, the note ends in a blank line: its last two characters are newlines. */
  lemma RenderEndsInBlankLine(title: string, time: string, logPath: string, context: seq<string>, hits: seq<Hit>)
    ensures var text := Render(title, time, logPath, context, hits);
      |text| >= 2 && text[|text| - 2] == '\n' && text[|text| - 1] == '\n'
  {
    var front := Head(title, time, logPath, SignalBlock(hits)) + Concat(Terminated(Stripped(context), "\n"));
    FootEnding();
    SameEnding(front, Foot);
  }

  lemma SameEnding(a: string, b: string)
    requires |b| >= 2
    ensures (a + b)[|a + b| - 2] == b[|b| - 2] && (a + b)[|a + b| - 1] == b[|b| - 1]
  {
  }

  /** The closing block ends in an empty line: its last two characters are newlines. */
  lemma FootEnding()
    ensures |Foot| >= 2 && Foot[|Foot| - 2] == '\n' && Foot[|Foot| - 1] == '\n'
  {
    var before := "```" + "\n" + "" + "\n" + "## Next steps" + "\n" + RunbookStep + "\n" + PatternStep;
    assert Foot == before + "\n" + "" + "\n";
  }

  lemma RenderShape(title: string, time: string, logPath: string, context: seq<string>, hits: seq<Hit>)
    ensures Join("\n", BodyLines(title, time, logPath, context, hits)) + "\n" ==
      Head(title, time, logPath, SignalBlock(hits)) + Concat(Terminated(Stripped(context), "\n")) + Foot
  {
    var pre := Preamble(title, time, logPath, SignalBlock(hits));
    var mid := Stripped(context);
    var body := pre + mid + Closing;
    JoinThenSep("\n", body);
    assert Terminated(body, "\n") ==
      Terminated(pre, "\n") + Terminated(mid, "\n") + Terminated(Closing, "\n");
    ConcatAppend(Terminated(pre, "\n") + Terminated(mid, "\n"), Terminated(Closing, "\n"));
    ConcatAppend(Terminated(pre, "\n"), Terminated(mid, "\n"));
    PreambleText(title, time, logPath, SignalBlock(hits));
    ClosingText();
  }

  lemma PreambleText(title: string, time: string, logPath: string, signals: string)
    ensures Concat(Terminated(Preamble(title, time, logPath, signals), "\n")) == Head(title, time, logPath, signals)
  {
    var p := Preamble(title, time, logPath, signals);
    var t := Terminated(p, "\n");
    assert t == Terminated(p[..5], "\n") + Terminated(p[5..], "\n");
    ConcatAppend(Terminated(p[..5], "\n"), Terminated(p[5..], "\n"));
    FiveLines(p[..5], "\n");
    FiveLines(p[5..], "\n");
    assert Concat(Terminated(p[..5], "\n")) == HeadTop(title, time, logPath);
    assert Concat(Terminated(p[5..], "\n")) == HeadSignals(signals);
  }

  lemma FiveLines(p: seq<string>, sep: string)
    requires |p| == 5
    ensures Concat(Terminated(p, sep)) == p[0] + sep + p[1] + sep + p[2] + sep + p[3] + sep + p[4] + sep
  {
    var t := Terminated(p, sep);
    ConcatStep(t, 0); ConcatStep(t, 1); ConcatStep(t, 2); ConcatStep(t, 3); ConcatStep(t, 4);
    assert t[0..] == t && t[5..] == [];
  }

  lemma SixLines(p: seq<string>, sep: string)
    requires |p| == 6
    ensures Concat(Terminated(p, sep)) == p[0] + sep + p[1] + sep + p[2] + sep + p[3] + sep + p[4] + sep + p[5] + sep
  {
    var t := Terminated(p, sep);
    ConcatStep(t, 0); ConcatStep(t, 1); ConcatStep(t, 2); ConcatStep(t, 3); ConcatStep(t, 4); ConcatStep(t, 5);
    assert t[0..] == t && t[6..] == [];
  }

  lemma ClosingText()
    ensures Concat(Terminated(Closing, "\n")) == Foot
  {
    SixLines(Closing, "\n");
  }
}

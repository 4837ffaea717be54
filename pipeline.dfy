/**
 * `main` (agent/src/logwatch.py) after the configuration file has been
 * looked for and parsed: pick the settings, take the tail of the log, match
 * it, and either stop with an exit code or write one incident note.
 * The configuration file, the log file and the clock are inputs.
 */
module Pipeline {
  import opened Text
  import opened LogTail
  import opened Matcher
  import opened IncidentWriter

  datatype Option<T> = None | Some(value: T)

  /**
   * The keys `main` reads from the parsed YAML mapping; `None` for a key that
   * is absent (for `patterns`, also one that is null or empty).
   */
  datatype RawConfig = RawConfig(
    logFile: Option<string>,
    tailLines: Option<int>,
    postmortemsDir: Option<string>,
    patterns: Option<seq<Pattern>>)

  /**
   * What looking for, parsing and reading the configuration gives. `Raising`
   * is every exception that escapes before the log is read, so that the
   * interpreter exits with status 1: opening or reading the file fails, the
   * document is not a mapping, `log_file` or `postmortems_dir` is null or not
   * a string, `tail_lines` is not an integer, or a pattern entry does not have
   * exactly the fields `name` and `match`.
   */
  datatype ConfigFile =
    | Absent                // the path does not exist
    | Malformed             // YAML syntax error: load_config exits with status 2
    | Raising               // an uncaught exception while loading or reading the settings
    | Loaded(raw: RawConfig)

  const DefaultLogFile := ""
  const DefaultTailLines := 200
  const DefaultPostmortemsDir := "docs/05_Postmortems"

  /** At most this many hits go into a note. */
  const MaxHits := 10

  /** The settings `main` works with once defaults are filled in. */
  datatype Config = Config(logFile: string, tailLines: int, postmortemsDir: string, patterns: seq<Pattern>)

  function GetOr<T>(o: Option<T>, default: T): T
  {
    match o
    case Some(v) => v
    case None => default
  }

  /** `cfg.get(key, default)` for each key: a present value is kept, an absent one takes the default. */
  function Resolve(raw: RawConfig): (c: Config)
    ensures raw.logFile.Some? ==> c.logFile == raw.logFile.value
    ensures raw.logFile.None? ==> c.logFile == DefaultLogFile
    ensures raw.tailLines.Some? ==> c.tailLines == raw.tailLines.value
    ensures raw.tailLines.None? ==> c.tailLines == DefaultTailLines
    ensures raw.postmortemsDir.Some? ==> c.postmortemsDir == raw.postmortemsDir.value
    ensures raw.postmortemsDir.None? ==> c.postmortemsDir == DefaultPostmortemsDir
    ensures raw.patterns.Some? ==> c.patterns == raw.patterns.value
    ensures raw.patterns.None? ==> c.patterns == []
  {
    Config(
      GetOr(raw.logFile, DefaultLogFile),
      GetOr(raw.tailLines, DefaultTailLines),
      GetOr(raw.postmortemsDir, DefaultPostmortemsDir),
      GetOr(raw.patterns, []))
  }

  /** How a run ends. */
  datatype Outcome =
    | ConfigAbsent
    | ConfigMalformed
    | ConfigRaised
    | ReadFailed            // the log read raised something other than FileNotFoundError
    | NoLines
    | NoHits
    | Write(dir: string, title: string, hits: seq<Hit>, context: seq<string>)

  /** The process exit status for each outcome; an uncaught exception exits with 1. */
  function ExitCode(o: Outcome): (code: int)
    ensures code == 2 <==> o.ConfigAbsent? || o.ConfigMalformed?
    ensures code == 1 <==> o.ConfigRaised? || o.ReadFailed? || o.NoLines?
    ensures code == 0 <==> o.NoHits? || o.Write?
  {
    match o
    case ConfigAbsent => 2
    case ConfigMalformed => 2
    case ConfigRaised => 1
    case ReadFailed => 1
    case NoLines => 1
    case NoHits => 0
    case Write(_, _, _, _) => 0
  }

  /** `hits[:10]`: the first ten hits, or all of them when there are fewer. */
  function TakeHits(hits: seq<Hit>): (r: seq<Hit>)
    ensures |r| == Min(MaxHits, |hits|) && r == hits[..|r|]
  {
    if |hits| <= MaxHits then hits else hits[..MaxHits]
  }

  /**
   * The decision `main` makes. `file` is what reading the configured log
   * file gives. A note is written only when some pattern fired; it carries the
   * first ten hits in matcher order, the name of the first hit's pattern as
   * title, and the whole tail as context.
   */
  function Decide(config: ConfigFile, file: FileRead, search: Search): (o: Outcome)
    ensures o.ConfigAbsent? <==> config.Absent?
    ensures o.ConfigMalformed? <==> config.Malformed?
    ensures o.ConfigRaised? <==> config.Raising?
    ensures config.Loaded? ==>
      var c := Resolve(config.raw);
      var tail := TailLastLines(file, c.tailLines);
      && (o.ReadFailed? <==> file.Unreadable?)
      && (o.NoLines? <==> tail == Lines([]))
      && (o.NoHits? <==> tail.Lines? && tail.lines != [] && Hits(search, tail.lines, c.patterns) == [])
      && (o.Write? ==>
            var all := Hits(search, tail.lines, c.patterns);
            && tail.Lines? && o.context == tail.lines && o.context != []
            && o.dir == c.postmortemsDir
            && 1 <= |o.hits| == Min(MaxHits, |all|)
            && o.hits == all[..|o.hits|]
            && o.title == o.hits[0].pattern.name)
  {
    match config
    case Absent => ConfigAbsent
    case Malformed => ConfigMalformed
    case Raising => ConfigRaised
    case Loaded(raw) =>
      var c := Resolve(raw);
      match TailLastLines(file, c.tailLines)
      case Raised => ReadFailed
      case Lines(lines) =>
        if lines == [] then NoLines
        else
          var hits := Hits(search, lines, c.patterns);
          if hits == [] then NoHits
          else Write(c.postmortemsDir, hits[0].pattern.name, TakeHits(hits), lines)
  }

  /** The result of one run: the exit status and the note written, if any. */
  datatype RunResult = RunResult(exitCode: int, written: Option<Incident>)

  /**
   * `main()` end to end. `stamp` and `time` are the two clock readings
   * `write_incident` takes. Exit status 2 exactly when the configuration is
   * absent or malformed; a note is written exactly when a pattern fired, and
   * then the status is 0.
   */
  function Run(config: ConfigFile, file: FileRead, search: Search, stamp: string, time: string): (r: RunResult)
    ensures r.exitCode == ExitCode(Decide(config, file, search))
    ensures r.exitCode == 2 <==> config.Absent? || config.Malformed?
    ensures config.Raising? ==> r == RunResult(1, None)
    ensures r.written.Some? <==> Decide(config, file, search).Write?
    ensures r.written.Some? ==> r.exitCode == 0
    ensures r.written.Some? ==>
      var o := Decide(config, file, search);
      var c := Resolve(config.raw);
      r.written.value == Incident(o.dir, FileName(stamp, o.title), Render(o.title, time, c.logFile, o.context, o.hits))
  {
    var o := Decide(config, file, search);
    match o
    case Write(dir, title, hits, context) =>
      var logPath := Resolve(config.raw).logFile;
      RunResult(0, Some(Incident(dir, FileName(stamp, title), Render(title, time, logPath, context, hits))))
    case _ => RunResult(ExitCode(o), None)
  }

  /**
   * The note's title is the name of the first pattern, in declaration order,
   * that fires on the earliest line of the tail on which any pattern fires.
   */
  lemma TitleIsFirstMatch(config: ConfigFile, file: FileRead, search: Search) returns (i: nat, j: nat)
    requires Decide(config, file, search).Write?
    ensures var o := Decide(config, file, search);
      var ps := Resolve(config.raw).patterns;
      && Fires(search, o.context, ps, i, j)
      && o.title == ps[j].name
      && o.hits[0] == Hit(ps[j], RStripNewlines(o.context[i]))
      && forall i', j' :: Fires(search, o.context, ps, i', j') ==> i < i' || (i == i' && j <= j')
  {
    var o := Decide(config, file, search);
    var ps := Resolve(config.raw).patterns;
    i, j := FirstHit(search, o.context, ps);
  }

  /** With no patterns configured, a log with lines ends in "no incident", status 0, nothing written. */
  lemma NoPatternsNoIncident(raw: RawConfig, file: FileRead, search: Search, stamp: string, time: string)
    requires raw.patterns.None? || raw.patterns == Some([])
    requires TailLastLines(file, Resolve(raw).tailLines).Lines?
    requires TailLastLines(file, Resolve(raw).tailLines).lines != []
    ensures Decide(Loaded(raw), file, search) == NoHits
    ensures Run(Loaded(raw), file, search, stamp, time) == RunResult(0, None)
  {
    var c := Resolve(raw);
    assert c.patterns == [];
    var lines := TailLastLines(file, c.tailLines).lines;
    NoPatternsNoHits(search, lines);
    assert Decide(Loaded(raw), file, search) == NoHits;
  }

  /** A missing log file is not an error: the run reports no lines, status 1, nothing written. */
  lemma MissingLogFile(raw: RawConfig, search: Search, stamp: string, time: string)
    ensures Run(Loaded(raw), NotFound, search, stamp, time) == RunResult(1, None)
  {
  }

  /**
   * A two-line log whose second line shows a full disk, one pattern for it,
   * a tail of ten: status 0 and one note, titled after the pattern, with the
   * one hit and both lines as context.
   */
  lemma DiskFullScenario(search: Search, stamp: string, time: string)
    requires search("ERROR disk full", "2024 ERROR disk full\n")
    requires !search("ERROR disk full", "2024 OK\n")
    ensures
      var diskFull := Pattern("DiskFull", "ERROR disk full");
      var raw := RawConfig(Some("app.log"), Some(10), None, Some([diskFull]));
      var r := Run(Loaded(raw), Contents("2024 OK\n2024 ERROR disk full\n"), search, stamp, time);
      r == RunResult(0, Some(Incident(DefaultPostmortemsDir, FileName(stamp, "DiskFull"),
             Render("DiskFull", time, "app.log", ["2024 OK\n", "2024 ERROR disk full\n"],
                    [Hit(diskFull, "2024 ERROR disk full")]))))
  {
    var diskFull := Pattern("DiskFull", "ERROR disk full");
    var lines := ["2024 OK\n", "2024 ERROR disk full\n"];
    var text := "2024 OK\n2024 ERROR disk full\n";
    var raw := RawConfig(Some("app.log"), Some(10), None, Some([diskFull]));
    var hit := Hit(diskFull, "2024 ERROR disk full");
    DiskFullDecision(search);
    var o := Decide(Loaded(raw), Contents(text), search);
    assert o == Write(DefaultPostmortemsDir, "DiskFull", [hit], lines);
    assert Resolve(raw).logFile == "app.log";
    var r := Run(Loaded(raw), Contents(text), search, stamp, time);
    assert r.exitCode == 0 && r.written.Some?;
    assert r.written.value == Incident(o.dir, FileName(stamp, o.title), Render(o.title, time, "app.log", o.context, o.hits));
  }

  lemma DiskFullDecision(search: Search)
    requires search("ERROR disk full", "2024 ERROR disk full\n")
    requires !search("ERROR disk full", "2024 OK\n")
    ensures
      var diskFull := Pattern("DiskFull", "ERROR disk full");
      var raw := RawConfig(Some("app.log"), Some(10), None, Some([diskFull]));
      Decide(Loaded(raw), Contents("2024 OK\n2024 ERROR disk full\n"), search) ==
        Write(DefaultPostmortemsDir, "DiskFull", [Hit(diskFull, "2024 ERROR disk full")],
              ["2024 OK\n", "2024 ERROR disk full\n"])
  {
    var diskFull := Pattern("DiskFull", "ERROR disk full");
    var raw := RawConfig(Some("app.log"), Some(10), None, Some([diskFull]));
    var lines := ["2024 OK\n", "2024 ERROR disk full\n"];
    var c := Resolve(raw);
    assert c.tailLines == 10 && c.patterns == [diskFull] && c.postmortemsDir == DefaultPostmortemsDir;
    DiskFullTail();
    DiskFullHits(search);
    var hits := Hits(search, lines, c.patterns);
    assert TakeHits(hits) == hits;
  }

  lemma DiskFullTail()
    ensures TailLastLines(Contents("2024 OK\n2024 ERROR disk full\n"), 10) ==
      Lines(["2024 OK\n", "2024 ERROR disk full\n"])
  {
    DiskFullLines();
  }

  lemma DiskFullLines()
    ensures ReadLines("2024 OK\n2024 ERROR disk full\n") == ["2024 OK\n", "2024 ERROR disk full\n"]
  {
    var lines := ["2024 OK\n", "2024 ERROR disk full\n"];
    assert lines[1..] == ["2024 ERROR disk full\n"] && lines[1..][1..] == [];
    assert Concat(lines) == "2024 OK\n2024 ERROR disk full\n";
    ReadLinesUnique("2024 OK\n2024 ERROR disk full\n", lines);
  }

  lemma DiskFullHits(search: Search)
    requires search("ERROR disk full", "2024 ERROR disk full\n")
    requires !search("ERROR disk full", "2024 OK\n")
    ensures var diskFull := Pattern("DiskFull", "ERROR disk full");
      Hits(search, ["2024 OK\n", "2024 ERROR disk full\n"], [diskFull]) == [Hit(diskFull, "2024 ERROR disk full")]
  {
    var diskFull := Pattern("DiskFull", "ERROR disk full");
    var lines := ["2024 OK\n", "2024 ERROR disk full\n"];
    var line := "2024 ERROR disk full\n";
    assert line[..|line| - 1] == "2024 ERROR disk full";
    assert RStripNewlines(line) == "2024 ERROR disk full";
    assert [diskFull][..0] == [];
    assert LineHits(search, lines[0], [diskFull]) == [];
    assert LineHits(search, lines[1], [diskFull]) == [Hit(diskFull, "2024 ERROR disk full")];
    assert lines[..1] == [lines[0]] && lines[..1][..0] == [];
    assert Hits(search, lines[..1], [diskFull]) == [];
  }
}

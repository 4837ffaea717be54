# logwatch, modelled in Dafny

`agent/src/logwatch.py` is a one-shot log-incident detector. It reads a YAML
configuration, takes the last `tail_lines` lines of a log file, tries every
configured pattern (a name and a regular expression) on every line, and if
anything fired it writes a markdown incident note (title, time, log path,
detected signals, the whole tail as context, next steps) into a postmortems
directory. Its exit status is 2 for a missing or unparsable configuration,
1 when the log gave no lines or an exception escaped (an unusable configuration,
a log that cannot be read), and 0 when the run finished with or without a note.

This project models that file's deterministic core:

- `text.dfy` (module `Text`): the string built-ins it uses: `rstrip("\n")`,
  `replace(' ', '_')`, `"\n".join(...)`, and list concatenation.
- `tail.dfy` (module `LogTail`): `readlines()` on the file's text and the Python
  slice `lines[-n:]` (`tail_last_lines`). The outcome of opening the file is an
  input: not found, unreadable, or its text.
- `matcher.dfy` (module `Matcher`): `find_matches`. It has a specification
  function `Hits` and a nested-loop method `FindMatches` proved equal to it.
  A separate "origins" view lists the (line, pattern) index pairs that fire, and
  lemmas use it to pin the hit list down exactly: the firing pairs, each once,
  line-major, then in pattern order. `re.search` is the parameter `search`.
- `incident.dfy` (module `IncidentWriter`): `write_incident`'s file name and
  document. `BuildBody` builds the `body` list by appending, as the source does.
  `BodyLines` says what that list is. `Render` is the file text, and its
  contract gives the text piece by piece.
- `pipeline.dfy` (module `Pipeline`): `main` after the configuration lookup. It
  fills in defaults, then reaches one of the outcomes `ConfigAbsent`,
  `ConfigMalformed`, `ConfigRaised`, `ReadFailed`, `NoLines`, `NoHits` or
  `Write(...)`. A
  separate function maps each outcome to its exit status. `Run` returns the exit
  status and the written note, if any.

Notes on the code as written:

- `lines[-n:]` with `n == 0` is the whole file, and a negative `tail_lines`
  drops lines from the front. `LastLines` models the slice exactly.
- The note is `"\n".join(body) + "\n"`, and `body` already ends with `""`, so
  the text ends in a blank line (`"\n\n"`), not in a single newline.
- Context lines appear with their trailing newlines removed. They are not
  copied byte for byte.
- Only `FileNotFoundError` is turned into "no lines". Any other error from
  opening or reading the log (a directory, no permission) escapes `main`, and
  the interpreter exits with status 1. This is the `ReadFailed` outcome.
- Every exception that escapes before the log is read ends the run with
  status 1, not 2: a configuration file that cannot be opened or read, a YAML
  document that is not a mapping, a null or non-string `log_file` or
  `postmortems_dir` (`Path(None)` raises), a `tail_lines` that `int()` rejects,
  or a pattern entry with other fields than `name` and `match`. The model folds
  these into the configuration case `Raising` and the outcome `ConfigRaised`.
- There is no remote (SSH) log source in this file. Nothing of the kind is
  modelled.
- The pattern field `match` is called `regex` here, because `match` is a
  Dafny keyword.

## Model

| member | source | states |
|---|---|---|
| Text.RStripNewlines | agent/src/logwatch.py:46 | the result is a prefix of the line, does not end in a newline, and everything removed was newlines |
| Text.ReplaceChar | agent/src/logwatch.py:59 | same length, every `' '` becomes `'_'` and every other character is kept, so no space is left |
| Text.JoinThenSep | agent/src/logwatch.py:83 | `sep.join(parts) + sep` is every part followed by `sep`, in order |
| Text.ConcatAppend | agent/src/logwatch.py:83 | concatenating a list of strings distributes over appending lists |
| LogTail.ReadLines | agent/src/logwatch.py:34-35 | the lines glue back to the file text, each is non-empty with a newline only at its end, and every line but the last ends in a newline |
| LogTail.ReadLinesUnique | agent/src/logwatch.py:35 | those three properties determine the split: any list with them is `ReadLines` of the text |
| LogTail.LastLines | agent/src/logwatch.py:36 | `lines[-n:]` is a suffix; for `n > 0` it has `min(n, |lines|)` lines; for `n == 0` it is every line; for `n < 0` the first `-n` lines are dropped |
| LogTail.TailLastLines | agent/src/logwatch.py:32-38 | a missing file gives no lines, any other read error propagates, otherwise the tail of the file's lines, newlines kept, glued together a suffix of the file text |
| Matcher.FindMatches | agent/src/logwatch.py:41-47 | the nested loops return exactly `Hits(search, lines, patterns)` |
| Matcher.LineOriginsFacts | agent/src/logwatch.py:44-46 | on one line, the hits are the firing patterns in declaration order, each once, each with the stripped line |
| Matcher.OriginsSound | agent/src/logwatch.py:43-46 | hit k is the pattern and stripped line of an index pair that fires, and there is one hit per listed pair |
| Matcher.OriginsComplete | agent/src/logwatch.py:43-46 | every (line, pattern) pair that fires is listed: nothing is skipped once a line has matched |
| Matcher.OriginsOrdered | agent/src/logwatch.py:43-44 | the listed pairs rise strictly, line first, then pattern, so hits are line-major, in pattern order, with no duplicate pair |
| Matcher.FirstHit | agent/src/logwatch.py:43-46 | the first hit is the first firing pattern, in declaration order, on the earliest line on which any pattern fires |
| Matcher.HitsAppend | agent/src/logwatch.py:43 | the hits of `a + b` are the hits of `a` followed by the hits of `b` |
| Matcher.NoPatternsNoHits | agent/src/logwatch.py:42-47 | an empty pattern list gives no hits for any lines |
| Matcher.HitsWellFormed | agent/src/logwatch.py:44-46 | every hit names a configured pattern and carries `rstrip` of some input line, which does not end in a newline |
| Matcher.AllFireCount | agent/src/logwatch.py:43-46 | when every pattern fires on every line there are `|lines| * |patterns|` hits: nothing is merged or deduplicated |
| Matcher.LineHitsAllFire | agent/src/logwatch.py:44-46 | when every pattern fires on a line, that line gives one hit per pattern |
| Matcher.OrderExample | agent/src/logwatch.py:43-46 | lines `foo bar`, `baz` and patterns `A: foo`, `B: ba` give `(A, foo bar), (B, foo bar), (B, baz)` in that order |
| IncidentWriter.FileName | agent/src/logwatch.py:58-59 | the name is the stamp, `_`, the title with each space turned into `_` (no space left), then `.md` |
| IncidentWriter.Bullets | agent/src/logwatch.py:62 | one `- **<name>**: `<line>`` bullet per hit, in hit order |
| IncidentWriter.SignalBlock | agent/src/logwatch.py:62 | the block is `- (none)` exactly when there are no hits, otherwise the bullets joined by newlines, starting with the first hit's |
| IncidentWriter.Stripped | agent/src/logwatch.py:75 | each context line with its trailing newlines removed, same count and order |
| IncidentWriter.BodyLines | agent/src/logwatch.py:64-81 | 16 + |context| lines: the ten preamble lines (heading with the title, blank, time, log path, blank, signals heading, signals block, blank, context heading, `log` fence), the stripped context, then the six closing lines (fence, blank, next-steps heading, the two fixed steps, a final empty line) |
| IncidentWriter.BuildBody | agent/src/logwatch.py:62-81 | appending line by line builds exactly `BodyLines` |
| IncidentWriter.Render | agent/src/logwatch.py:83 | the text is the heading block, then each stripped context line ended by a newline, then the closing block |
| IncidentWriter.RenderEndsInBlankLine | agent/src/logwatch.py:81-83 | since `body` ends with an empty line, the written text ends in two newlines |
| IncidentWriter.RenderShape | agent/src/logwatch.py:62-83 | `"\n".join(body) + "\n"` of the body lines equals that piecewise text |
| IncidentWriter.PreambleText | agent/src/logwatch.py:65-74 | the ten lines before the context, each ended by a newline, are the heading text |
| IncidentWriter.ClosingText | agent/src/logwatch.py:76-81 | the six lines after the context, each ended by a newline, are the closing text |
| Pipeline.Resolve | agent/src/logwatch.py:94-98 | a configured key keeps its value; a missing one takes its default (`""`, `200`, `docs/05_Postmortems`, no patterns) |
| Pipeline.Decide | agent/src/logwatch.py:87-111 | status-2 outcomes exactly for an absent or malformed config; `ConfigRaised` exactly when loading the settings raised; no lines, no hits or a propagated read error as the tail dictates; a note only when some pattern fired, carrying the first `min(10, |hits|)` hits as a prefix in matcher order, the first hit's pattern name as title, the whole tail as context and the configured directory |
| Pipeline.TakeHits | agent/src/logwatch.py:111 | `hits[:10]`: the first `min(10, |hits|)` hits, a prefix of the list |
| Pipeline.ExitCode | agent/src/logwatch.py:87-113 | status 2 exactly for an absent or malformed config, 1 exactly for an escaping exception or an empty tail, 0 exactly when the run finished with or without a note |
| Pipeline.Run | agent/src/logwatch.py:87-113 | exit status 2 exactly when the config is absent or malformed; status 1 and nothing written when loading the settings raised; a note is written exactly for `Write` and then the status is 0; the note is the named file with the rendered text |
| Pipeline.TitleIsFirstMatch | agent/src/logwatch.py:105-111 | the title is the name of the first pattern, in declaration order, that fires on the earliest firing line of the tail |
| Pipeline.NoPatternsNoIncident | agent/src/logwatch.py:98-108 | with no patterns configured and a non-empty tail, the run ends with no hits, status 0 and nothing written |
| Pipeline.MissingLogFile | agent/src/logwatch.py:100-103 | a missing log file ends the run with status 1 and nothing written |
| Pipeline.DiskFullScenario | agent/src/logwatch.py:87-113 | a two-line log whose second line matches the one pattern gives status 0 and one note titled after the pattern, holding that hit and both lines |
| Pipeline.DiskFullDecision | agent/src/logwatch.py:100-111 | in that scenario, the decision is to write a note with the one hit and both lines as context |
| Pipeline.DiskFullLines | agent/src/logwatch.py:35 | `readlines` splits that log text into its two lines |

## Left out

- Loading the configuration (`load_config`, agent/src/logwatch.py:21-29) is left out: the YAML parser is foreign code. The model starts from its result: absent, malformed (exit 2), raising, or the values of the keys `main` reads.
- Pipeline.Resolve and ConfigFile: which documents raise is not computed. A configuration that cannot be opened or read (agent/src/logwatch.py:22), one that is not a mapping, a null or non-string `log_file` or `postmortems_dir` (agent/src/logwatch.py:94, 96), a `tail_lines` that `int()` rejects (:95) and a malformed pattern entry (:98) are all the input case `Raising`, status 1. `RawConfig` holds only values that `main` accepts.
- Regular expressions are not modelled. `re.search` is the parameter `search`. An invalid expression raises at match time and ends the run with status 1. That path is not modelled either.
- Reading the environment variable and testing whether the configuration exists are inputs. Opening and decoding the log file is an input too, as its text after newline translation. `mkdir`, writing the note and `print` are left out as I/O. The note comes back as a value (directory, file name, text). A failure to create the directory or write the note raises and ends the run with status 1. That path is not modelled, so `Run` reports status 0 for every `Write`.
- The clock (`datetime.now()` with `strftime` and `isoformat`) is left out. The two formatted readings are string parameters.
- `pathlib` is left out. The log path is shown as the configured string, so the model does not turn `""` into `"."` or clean up separators. `postmortems_dir / fname` is kept as a (directory, file name) pair.
- Python's own exit status for an uncaught exception (1) is assumed for the `ReadFailed` outcome. The traceback itself is not modelled.
- Text.Join: its own contract states only the first part and the empty case. The full meaning of joining is stated by `Text.JoinThenSep`.

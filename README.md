# A verified model of Crypta's file scanner

Crypta scans a file against YARA rules and writes a CSV report of what fired.
Its core is `app/file.py`, which does three things:

* `identify_pattern` detects a log format. It samples the first ten lines of a text file and looks for the first
  registered grammar whose regular expression matches at the start of a line.
* `extract_info` cuts a log line into a *component* and a *content*. It uses two capture groups taken from a fixed
  table of ten grammars.
* `scan_file` is the driver. It compiles the rules and branches on the file kind (`text`, or one of `binary`,
  `script`, `database`, `config`). It builds the `matches_found` list of `[rules, component, content]` records and
  writes `<stem>_report.csv` when the list is non-empty. Every exception is caught and printed.

This model states that behaviour in Dafny and proves properties of it. The two foreign engines become
function-valued parameters:

* a `Matcher` stands for `re.match` (an anchored match that yields the capture groups);
* a `RuleEngine` stands for `rules.match` (the names of the rules that fire, in order).

A failed `yara.compile` is an absent engine. The registry loaded from `metadata.json` is an input: a sequence of
(name, pattern) entries in dict order, with distinct names. Printing and CSV writing become an `Outcome`, which is
one of:

* `Reported`: a report was written, and the status shows the record count;
* `NoMatches`: the "0 YARA rules matched" status;
* `Silent`: the early return, after which nothing is written or printed;
* `Failed`: an exception was caught, with its cause.

Files:

* `wrappers.dfy`: `Option`.
* `grammars.dfy`: the registry, `patterns.get` and format detection.
* `extraction.dfy`: the group-index table and field extraction.
* `textfiles.dfy`: a text file with a line cursor (`readline`, `seek(0)`, `read`, line iteration).
* `paths.dfy`: `basename`, `splitext` and the report name.
* `scanning.dfy`: `scan_file`. The method `ScanFile` follows the source step by step. It is proved equal to the
  function `ScanOutcome`, and the lemmas state the properties of `ScanOutcome`.

In these places the code's behaviour may surprise a reader; the model follows the code:

* The component and content groups are chosen by comparing *patterns*, not names. The first table key whose
  configured pattern equals the detected pattern decides (`SharedPatternUsesFirstKey`).
* A text file whose grammar is not detected returns before the report step, so its `N/A` record is never reported
  (see Findings).
* Rule names are joined in the engine's order, not as a set.
* Failures are printed, not raised.

## Model

| member | source | states |
|---|---|---|
| `Grammars.Lookup` | app/file.py:24 | `patterns.get(name)` is absent exactly when no registry entry has that name |
| `Grammars.LookupAt` | app/file.py:24 | in a registry (distinct names), looking up an entry's name gives that entry's pattern |
| `Grammars.FirstGrammarFor` | app/file.py:74-76 | the inner loop finds nothing exactly when no grammar's pattern matches the line |
| `Grammars.FirstGrammarForAt` | app/file.py:74-76 | if grammar j matches and no earlier grammar does, the inner loop returns grammar j's name |
| `Grammars.IdentifyPattern` | app/file.py:71-77 | detection returns None exactly when no (sample line, grammar) pair matches |
| `Grammars.IdentifyFirstHit` | app/file.py:71-77 | the first matching pair, in line-major then registry order, decides the detected name |
| `Grammars.IdentifyHasFirstHit` | app/file.py:71-77 | a detected name always belongs to the first matching (line, grammar) pair |
| `Grammars.LineOrderBeatsRegistryOrder` | app/file.py:73-76 | the first line that matches anything wins, even when a later line matches a grammar listed earlier |
| `Extraction.IndicesFor` | app/file.py:97-98 | the table search finds nothing exactly when no key's configured pattern equals the given pattern; a found pair belongs to such a key |
| `Extraction.IndicesForFirst` | app/file.py:97-98 | the table search returns the pair of the first key, in table order, whose configured pattern equals the given one |
| `Extraction.ExtractInfo` | app/file.py:79-105 | (None, None) when the line does not match, and when no table key is configured with the given pattern |
| `Extraction.ExtractFromConfiguredKey` | app/file.py:95-102 | any other result comes from a matching line, cut at the two indices, both within the line's groups, of a table key configured with the given pattern |
| `Extraction.ExtractUsesFirstKey` | app/file.py:95-104 | on a match, the result is exactly the captures at the first key's two indices, or (None, None) when an index exceeds the groups (IndexError) |
| `Extraction.SharedPatternUsesFirstKey` | app/file.py:81-102 | when "linux" and "spark" share one pattern and none of the five keys listed before "linux" (android, apache, hadoop, hdfs, hpc) is registered with that pattern, a line of a "spark" file is cut with the groups of "linux" (2, 3) |
| `TextFiles.SplitLines` | app/file.py:37 | a text has no more lines than characters, and no lines exactly when it is empty |
| `TextFiles.SplitLinesAreLines` | app/file.py:37 | every line is non-empty and has a newline only at its end; every line but the last ends with one |
| `TextFiles.SplitLinesJoin` | app/file.py:25-29 | the lines put back together are the whole text |
| `TextFiles.TextFile.Open` | app/file.py:18 | opening puts the cursor at the first line; the lines are those of the content |
| `TextFiles.TextFile.ReadLine` | app/file.py:20 | `readline()` gives the next line and advances, or "" at end of file without moving |
| `TextFiles.TextFile.Rewind` | app/file.py:25 | `seek(0)` puts the cursor back at the first line |
| `TextFiles.TextFile.ReadRest` | app/file.py:29 | `read()` gives the rest of the file; after a rewind, the whole text, so nothing the sample read is lost |
| `Paths.BaseName` | app/file.py:59 | the base name is the longest suffix of the path without '/': it is the whole path, or a '/' stands just before it |
| `Paths.StripExtension` | app/file.py:59 | the stem is a prefix of the name; when shorter, a '.' follows it, no other '.' comes after, and the stem has a character other than '.'; a name with a '.' preceded by a non-'.' character always loses its extension |
| `Paths.ReportName` | app/file.py:59 | the report name has no '/' and is the stem of the base name followed by "_report.csv" |
| `Paths.BaseNameAfterSlash` | app/file.py:59 | the base name of `dir/name` is `name` |
| `Paths.StripExtensionAfterDot` | app/file.py:59 | `stem.ext`, with no '.' in `ext` and a non-'.' character in `stem`, loses exactly `.ext` |
| `Paths.ReportNameOfPath` | app/file.py:59 | the report for `dir/stem.ext` is `stem_report.csv` |
| `Scanning.Join` | app/file.py:44 | `", ".join` (also at lines 33 and 54): no rule names join to ""; otherwise the cell starts with the first rule's name |
| `Scanning.JoinSplit` | app/file.py:44 | for rule names without ',', the `", "`-joined rule cell, read back by splitting only at a ',' followed by ' ', gives exactly the fired rules, in engine order |
| `Scanning.Sample` | app/file.py:20 | the sample has ten entries: line i of the file, or "" past the end |
| `Scanning.DetectionSeesTenLines` | app/file.py:20-21 | lines after the tenth never change the detected grammar |
| `Scanning.LineRecord` | app/file.py:39-45 | a line yields at most one record, and only when rules fire on it; its rule cell is the joined rule names, and its component and content are non-empty |
| `Scanning.WholeRecords` | app/file.py:51-55 | one record exactly when rules fired, none otherwise; its rule cell is the `", "`-joined rule names and its component and content are 'N/A' (the same step is at lines 30-34) |
| `Scanning.DetectedLines` | app/file.py:37-45 | the line loop never takes the early return; it raises exactly when there is no pattern and rules fire on some line; otherwise at most one record per line |
| `Scanning.CollectText` | app/file.py:17-35 | the text branch returns early exactly when no sample line matches any registered grammar, dropping at most one record |
| `Scanning.Collect` | app/file.py:12-56 | no compiled rules is a failure; only a text file can return early; a whole-file kind yields at most one record; any other kind finds nothing |
| `Scanning.Finish` | app/file.py:57-69 | the outcome is silent exactly on the early return; a report needs found records, counts them, has the header then one row per record, and is named after the path |
| `Scanning.ScanOutcome` | app/file.py:11-69 | no compiled rules is a failure naming the file; only a text file can end silently; a report has a positive count, the header, one row per record, and the name derived from the path |
| `Scanning.LineRecords` | app/file.py:37-45 | a file yields at most one record per line |
| `Scanning.RecordsHaveFields` | app/file.py:42-45 | every record of a detected-grammar file has a non-empty component and content |
| `Scanning.LineRecordsSnoc` | app/file.py:37-45 | reading one more line adds exactly that line's records |
| `Scanning.LineRecordsAppend` | app/file.py:37-45 | the records of a file are the records of its parts, in line order |
| `Scanning.RecordsInLineOrder` | app/file.py:37-45 | a line adds exactly one record, with the joined rule names and its two fields, when rules fire on it and both fields are truthy, and nothing otherwise |
| `Scanning.ReportIffRecords` | app/file.py:57-69 | a report exactly when records were found and it can be written: header `Rule, Component, Content`, one row per record, count = number of records, named after the base name; no records gives "0 matched", the early return is silent, and every caught exception is a failure |
| `Scanning.DetectedTextRecords` | app/file.py:21-45 | for a detected grammar with a non-empty name, the records are those of the file's lines, cut with the detected grammar's own pattern |
| `Scanning.EmptyGrammarName` | app/file.py:24-42 | a grammar registered as "" leaves no pattern: the scan fails on the first line where rules fire, and finds nothing otherwise |
| `Scanning.UndetectedTextIsSilent` | app/file.py:27-35 | with no grammar detected, the N/A record is built and dropped, and the scan ends silently even when rules fire |
| `Scanning.WholeFileOutcome` | app/file.py:47-55 | binary, script, database and config files get one `[rules, 'N/A', 'N/A']` row exactly when rules fire on the bytes, else "0 matched" |
| `Scanning.OtherKindFindsNothing` | app/file.py:47-67 | any other file kind is never opened and ends with "0 matched" |
| `Scanning.ReadSample` | app/file.py:20 | ten `readline()` calls collect exactly the sample of the file's lines and leave the cursor after line ten, or at the end of a shorter file |
| `Scanning.ScanLines` | app/file.py:37-45 | the line loop yields the records of all lines, leaving the cursor at the end of the file, or fails at a firing line when there is no pattern |
| `Scanning.ScanTextFile` | app/file.py:17-45 | opening, sampling, detecting, rewinding and either the early return or the line loop give exactly the text branch's collected records |
| `Scanning.ScanFile` | app/file.py:11-69 | the step-by-step scan, with its cursor, early returns and caught exceptions, has exactly the outcome `ScanOutcome` gives |
| `Scanning.IntendedUndetectedReports` | app/file.py:27-35 | without the early return, an undetected text file on which rules fire is reported with one N/A row |
| `Scanning.ScanOutcomeIntended` | app/file.py:11-69 | the corrected scan never ends silently |
| `Scanning.IntendedAgreesElsewhere` | app/file.py:11-69 | the corrected scan differs from the written one only in the undetected-grammar branch |

## Left out

- The regular-expression engine: `re.match` is the `Matcher` parameter. That it anchors at position 0 is a property of the parameter, not something proved here.
- An invalid pattern in the registry (`re.error`) is not modelled: the `Matcher` always answers.
- YARA rule compilation and matching: the engine is a parameter, and a compile failure is an absent engine. Errors raised during matching are not modelled.
- Loading `app/metadata.json` at import time (app/file.py:7-9): the registry is an input. A missing or malformed file fails the import, which is outside `scan_file`.
- UTF-8 decoding and newline translation: the text is given already decoded, with '\n' line ends. A file that cannot be opened or decoded fails before any line is examined. In the source the decode error may come after some lines were read. The exception then discards everything, so the scan is a failure either way. The cause can differ, though: a grammar registered as "" leaves no pattern, and a rule that fires on a line before the undecodable bytes makes `re.match(None, line)` at app/file.py:42 raise a `TypeError` first. The model reports `CannotRead` in that case.
- `os.getcwd()` and `os.path.join`: the model gives only the report's file name. CSV quoting is not modelled: rows are lists of cells.
- The text of the printed status lines: the `Outcome` constructors carry the count and the base name instead.
- Closing files (`with`): resources are not modelled.
- Several files in one run: a scan is a function of its arguments, so scans cannot affect each other. The batch itself is not modelled.
- `os.path` on Windows: only POSIX separators ('/') are modelled.

## Findings

| source | as written | input that shows it | evidently intended | confidence | as-written member | corrected member |
|---|---|---|---|---|---|---|
| app/file.py:27-35 | the `return` inside the undetected-grammar branch leaves `scan_file` before the report step, so the `[rules, 'N/A', 'N/A']` record appended just before it is discarded and no status is printed | a text file none of whose first ten lines matches a registered pattern, with a rule that fires on its content | fall through to the report step, reporting the N/A row as for binary files | high, not executed | `Scanning.UndetectedTextIsSilent` | `Scanning.ScanOutcomeIntended`, proved by `Scanning.IntendedUndetectedReports` |

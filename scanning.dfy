/**
 * `scan_file` in app/file.py: compile the rules, branch on the file kind,
 * collect `[rules, component, content]` records, and write a report when
 * any were found. Printing and CSV writing become an `Outcome` value.
 *
 * The rule engine (YARA) is not modelled: a `RuleEngine` stands for
 * `rules.match(data=...)` on compiled rules, and a failed `yara.compile` is
 * an absent engine.
 */
module Scanning {
  import opened Wrappers
  import opened Grammars
  import opened Extraction
  import opened TextFiles
  import opened Paths
  import Seqs

  /** What the rule engine is given: decoded text or raw bytes. */
  datatype Data = Text(text: string) | Bytes(bytes: seq<bv8>)

  /** The names of the rules that fire on the data, in the engine's order. */
  type RuleEngine = Data -> seq<string>

  /**
   * The file at the scanned path: its content as text (None when it cannot be
   * opened or is not valid UTF-8) and as bytes (None when it cannot be opened).
   */
  datatype StoredFile = StoredFile(text: Option<string>, bytes: Option<seq<bv8>>)

  /** One entry of `matches_found`, one row of the report. */
  datatype Record = Record(rule: string, component: string, content: string)

  /** The exceptions that `scan_file` catches. */
  datatype Cause =
    | RulesDidNotCompile   // yara.compile raises
    | CannotRead           // open or decoding fails
    | NoPatternForGrammar  // re.match(None, line) raises TypeError
    | CannotWriteReport    // the report cannot be written

  /** What one call of `scan_file` leaves behind. */
  datatype Outcome =
    | Reported(report: string, rows: seq<seq<string>>, count: nat, shown: string)  // report written, "[SUCCESS] count ..."
    | NoMatches(shown: string)                                                      // "[FAILURE] 0 ..."
    | Silent                                                                        // returned early: nothing written or printed
    | Failed(shown: string, cause: Cause)                                           // "[ERROR] ..."

  const SampleSize := 10
  const WholeFileKinds: seq<string> := ["binary", "script", "database", "config"]
  const NA := "N/A"
  const Header: seq<string> := ["Rule", "Component", "Content"]

  /** `", ".join(names)`. */
  function Join(names: seq<string>): (r: string)
    ensures names == [] ==> r == []
    ensures names != [] ==> |names[0]| <= |r| && r[..|names[0]|] == names[0]
  {
    if names == [] then []
    else if |names| == 1 then names[0]
    else names[0] + ", " + Join(names[1..])
  }

  /** `s.find(c)`. */
  function IndexOf(s: string, c: char): (r: Option<nat>)
    ensures r.None? ==> forall i :: 0 <= i < |s| ==> s[i] != c
    ensures r.Some? ==> r.value < |s| && s[r.value] == c && forall i :: 0 <= i < r.value ==> s[i] != c
  {
    if s == [] then None
    else if s[0] == c then Some(0)
    else match IndexOf(s[1..], c)
      case None => None
      case Some(i) => Some(i + 1)
  }

  /** Reads a report's rule cell back into rule names, split at each ", ". */
  function SplitRules(s: string): seq<string>
    decreases |s|
  {
    match IndexOf(s, ',')
    case None => [s]
    case Some(i) => if i + 1 < |s| && s[i + 1] == ' ' then [s[..i]] + SplitRules(s[i + 2..]) else [s]
  }

  /** Rule names never contain ','; then the rule cell lists exactly the fired rules, in order. */
  lemma {:induction false} JoinSplit(names: seq<string>)
    requires names != []
    requires forall k :: 0 <= k < |names| ==> ',' !in names[k]
    ensures SplitRules(Join(names)) == names
  {
    if |names| == 1 {
      assert IndexOf(names[0], ',').None?;
    } else {
      var s := Join(names);
      var a := names[0];
      assert s == a + ", " + Join(names[1..]);
      assert s[|a|] == ',' && s[|a| + 1] == ' ';
      assert forall i :: 0 <= i < |a| ==> s[i] == a[i];
      assert IndexOf(s, ',') == Some(|a|);
      assert s[..|a|] == a;
      assert s[|a| + 2..] == Join(names[1..]);
      JoinSplit(names[1..]);
    }
  }

  /** `[file.readline() for _ in range(10)]`: the first ten lines, padded with "". */
  function Sample(lines: seq<string>): (sample: seq<string>)
    ensures |sample| == SampleSize
    ensures forall i :: 0 <= i < SampleSize ==> sample[i] == if i < |lines| then lines[i] else []
  {
    if |lines| >= SampleSize then lines[..SampleSize] else lines + seq(SampleSize - |lines|, _ => [])
  }

  /** Only the first ten lines of a file take part in detection. */
  lemma DetectionSeesTenLines(lines: seq<string>, more: seq<string>, reg: seq<Grammar>, m: Matcher)
    requires |lines| >= SampleSize
    ensures IdentifyPattern(Sample(lines + more), reg, m) == IdentifyPattern(Sample(lines), reg, m)
  {
    assert Sample(lines + more) == Sample(lines);
  }

  /** Python truthiness of an optional string: present and non-empty. */
  predicate Truthy(v: Option<string>) {
    v.Some? && v.value != []
  }

  /** What one line of a file with a detected grammar adds to `matches_found`. */
  function LineRecord(line: string, eng: RuleEngine, pattern: string, reg: seq<Grammar>, m: Matcher): (r: seq<Record>)
    ensures |r| <= 1
    ensures r != [] ==> eng(Text(line)) != [] && r[0].rule == Join(eng(Text(line)))
                        && r[0].component != [] && r[0].content != []
  {
    var fired := eng(Text(line));
    if fired == [] then []
    else
      var (component, content) := ExtractInfo(line, pattern, reg, m);
      if Truthy(component) && Truthy(content) then [Record(Join(fired), component.value, content.value)]
      else []
  }

  /** The records of the lines of a file with a detected grammar whose pattern is known. */
  function LineRecords(lines: seq<string>, eng: RuleEngine, pattern: string, reg: seq<Grammar>, m: Matcher): (recs: seq<Record>)
    ensures |recs| <= |lines|
  {
    if lines == [] then []
    else LineRecords(lines[..|lines| - 1], eng, pattern, reg, m) + LineRecord(lines[|lines| - 1], eng, pattern, reg, m)
  }

  /** Every record of a file with a detected grammar has a non-empty component and content. */
  lemma {:induction false} RecordsHaveFields(lines: seq<string>, eng: RuleEngine, pattern: string, reg: seq<Grammar>, m: Matcher)
    ensures forall r :: r in LineRecords(lines, eng, pattern, reg, m) ==> r.component != [] && r.content != []
  {
    if lines != [] {
      RecordsHaveFields(lines[..|lines| - 1], eng, pattern, reg, m);
    }
  }

  /** Reading one more line adds that line's records. */
  lemma LineRecordsSnoc(before: seq<string>, line: string, eng: RuleEngine, pattern: string, reg: seq<Grammar>, m: Matcher)
    ensures LineRecords(before + [line], eng, pattern, reg, m) ==
            LineRecords(before, eng, pattern, reg, m) + LineRecord(line, eng, pattern, reg, m)
  {
    Seqs.DropLast(before, line);
  }

  /** The records of a file are those of its parts, in order. */
  lemma {:induction false} LineRecordsAppend(a: seq<string>, b: seq<string>, eng: RuleEngine, pattern: string, reg: seq<Grammar>, m: Matcher)
    decreases |b|
    ensures LineRecords(a + b, eng, pattern, reg, m) == LineRecords(a, eng, pattern, reg, m) + LineRecords(b, eng, pattern, reg, m)
  {
    if b != [] {
      var b' := b[..|b| - 1];
      var last := b[|b| - 1];
      assert b == b' + [last];
      assert a + b == (a + b') + [last];
      LineRecordsSnoc(a + b', last, eng, pattern, reg, m);
      LineRecordsSnoc(b', last, eng, pattern, reg, m);
      LineRecordsAppend(a, b', eng, pattern, reg, m);
    } else {
      assert a + b == a;
    }
  }

  /**
   * In line order, a line contributes exactly one record when rules fire on it
   * and both extracted fields are truthy, and nothing otherwise: a line on which
   * rules fire but extraction fails is dropped.
   */
  lemma RecordsInLineOrder(before: seq<string>, line: string, after: seq<string>, eng: RuleEngine, pattern: string, reg: seq<Grammar>, m: Matcher)
    ensures var fired := eng(Text(line));
            var fields := ExtractInfo(line, pattern, reg, m);
            LineRecords(before + [line] + after, eng, pattern, reg, m) ==
              LineRecords(before, eng, pattern, reg, m)
              + (if fired != [] && Truthy(fields.0) && Truthy(fields.1)
                 then [Record(Join(fired), fields.0.value, fields.1.value)] else [])
              + LineRecords(after, eng, pattern, reg, m)
  {
    LineRecordsAppend(before + [line], after, eng, pattern, reg, m);
    LineRecordsAppend(before, [line], eng, pattern, reg, m);
    assert [line][..0] == [];
  }

  predicate AnyLineFires(lines: seq<string>, eng: RuleEngine) {
    exists i :: 0 <= i < |lines| && eng(Text(lines[i])) != []
  }

  /** `matches_found` so far, or how the scan ended before the report step. */
  datatype Collected =
    | Found(records: seq<Record>)
    | EarlyReturn(dropped: seq<Record>)  // the `return` of the undetected-grammar branch, with the list it drops
    | Raised(cause: Cause)

  /** `[triggered_rules, 'N/A', 'N/A']` when rules fire on the whole content. */
  function WholeRecords(fired: seq<string>): (r: seq<Record>)
    ensures |r| <= 1 && (r != [] <==> fired != [])
    ensures r != [] ==> r[0].rule == Join(fired) && r[0].component == NA && r[0].content == NA
  {
    if fired == [] then [] else [Record(Join(fired), NA, NA)]
  }

  /** The per-line loop; with no pattern (a grammar named ""), the first firing line raises. */
  function DetectedLines(lines: seq<string>, eng: RuleEngine, filePattern: Option<string>, reg: seq<Grammar>, m: Matcher): (r: Collected)
    ensures !r.EarlyReturn?
    ensures r.Raised? <==> filePattern.None? && AnyLineFires(lines, eng)
    ensures r.Found? ==> |r.records| <= |lines|
  {
    match filePattern
    case None => if AnyLineFires(lines, eng) then Raised(NoPatternForGrammar) else Found([])
    case Some(pattern) => Found(LineRecords(lines, eng, pattern, reg, m))
  }

  /** The text branch of `scan_file`. */
  function CollectText(text: string, eng: RuleEngine, reg: seq<Grammar>, m: Matcher): (r: Collected)
    ensures r.EarlyReturn? <==>
      forall i, j :: 0 <= i < SampleSize && 0 <= j < |reg| ==> !Matches(m, reg[j].pattern, Sample(SplitLines(text))[i])
    ensures r.EarlyReturn? ==> |r.dropped| <= 1
  {
    var lines := SplitLines(text);
    match IdentifyPattern(Sample(lines), reg, m)
    case None => EarlyReturn(WholeRecords(eng(Text(text))))
    case Some(name) => DetectedLines(lines, eng, if name != [] then Lookup(reg, name) else None, reg, m)
  }

  /** Everything before the report step. */
  function Collect(rules: Option<RuleEngine>, fileType: string, stored: StoredFile, reg: seq<Grammar>, m: Matcher): (r: Collected)
    ensures rules.None? ==> r == Raised(RulesDidNotCompile)
    ensures r.EarlyReturn? ==> fileType == "text"
    ensures fileType in WholeFileKinds && r.Found? ==> |r.records| <= 1
    ensures rules.Some? && fileType != "text" && fileType !in WholeFileKinds ==> r == Found([])
  {
    match rules
    case None => Raised(RulesDidNotCompile)
    case Some(eng) =>
      if fileType == "text" then
        match stored.text
        case None => Raised(CannotRead)
        case Some(text) => CollectText(text, eng, reg, m)
      else if fileType in WholeFileKinds then
        match stored.bytes
        case None => Raised(CannotRead)
        case Some(bytes) => Found(WholeRecords(eng(Bytes(bytes))))
      else Found([])
  }

  function Rows(recs: seq<Record>): seq<seq<string>> {
    seq(|recs|, k requires 0 <= k < |recs| => [recs[k].rule, recs[k].component, recs[k].content])
  }

  /** The report step and the exception handler. */
  function Finish(filePath: string, c: Collected, canWrite: bool): (o: Outcome)
    ensures o.Silent? <==> c.EarlyReturn?
    ensures o.Reported? ==> c.Found? && o.count == |c.records| > 0 && |o.rows| == o.count + 1
                            && o.rows[0] == Header && o.report == ReportName(filePath)
  {
    var shown := BaseName(filePath);
    match c
    case EarlyReturn(_) => Silent
    case Raised(cause) => Failed(shown, cause)
    case Found(recs) =>
      if recs == [] then NoMatches(shown)
      else if !canWrite then Failed(shown, CannotWriteReport)
      else Reported(ReportName(filePath), [Header] + Rows(recs), |recs|, shown)
  }

  /** `scan_file(file_path, rules_path, file_type)`, with the report's writability as a parameter. */
  function ScanOutcome(filePath: string, rules: Option<RuleEngine>, fileType: string, stored: StoredFile,
                       reg: Registry, m: Matcher, canWrite: bool): (o: Outcome)
    ensures rules.None? ==> o == Failed(BaseName(filePath), RulesDidNotCompile)
    ensures o.Silent? ==> fileType == "text"
    ensures o.Reported? ==> o.count > 0 && |o.rows| == o.count + 1 && o.rows[0] == Header && o.report == ReportName(filePath)
  {
    Finish(filePath, Collect(rules, fileType, stored, reg, m), canWrite)
  }

  /**
   * The report step: a report exactly when records were found and it can be
   * written, with the header and one row per record; the early return is
   * silent and every caught exception is a failure.
   */
  lemma ReportIffRecords(filePath: string, c: Collected, canWrite: bool)
    ensures var o := Finish(filePath, c, canWrite);
            && (o.Reported? <==> c.Found? && c.records != [] && canWrite)
            && (o.Reported? ==>
                  && o.rows[0] == Header && |o.rows| == o.count + 1 && o.count == |c.records|
                  && (forall k :: 0 <= k < o.count ==>
                        o.rows[k + 1] == [c.records[k].rule, c.records[k].component, c.records[k].content])
                  && o.report == ReportName(filePath) && o.shown == BaseName(filePath))
            && (o.NoMatches? <==> c == Found([]))
            && (o.Silent? <==> c.EarlyReturn?)
            && (o.Failed? <==> c.Raised? || (c.Found? && c.records != [] && !canWrite))
  {
  }

  /**
   * A text file with a detected grammar of non-empty name: the records are
   * those of its lines, cut with the pattern of the grammar the first matching
   * sample pair selected.
   */
  lemma DetectedTextRecords(text: string, eng: RuleEngine, reg: Registry, m: Matcher, i: nat, j: nat)
    requires FirstHit(Sample(SplitLines(text)), reg, m, i, j) && reg[j].name != []
    ensures CollectText(text, eng, reg, m) == Found(LineRecords(SplitLines(text), eng, reg[j].pattern, reg, m))
  {
    IdentifyFirstHit(Sample(SplitLines(text)), reg, m, i, j);
    LookupAt(reg, j);
  }

  /**
   * A grammar registered under the empty name is detected, but `if detected_type`
   * treats "" as false, so there is no pattern: the first line on which rules
   * fire raises, and without such a line nothing is found.
   */
  lemma EmptyGrammarName(filePath: string, eng: RuleEngine, text: string, bytes: Option<seq<bv8>>,
                         reg: Registry, m: Matcher, canWrite: bool, i: nat, j: nat)
    requires FirstHit(Sample(SplitLines(text)), reg, m, i, j) && reg[j].name == []
    ensures ScanOutcome(filePath, Some(eng), "text", StoredFile(Some(text), bytes), reg, m, canWrite) ==
            if AnyLineFires(SplitLines(text), eng) then Failed(BaseName(filePath), NoPatternForGrammar)
            else NoMatches(BaseName(filePath))
  {
    IdentifyFirstHit(Sample(SplitLines(text)), reg, m, i, j);
  }

  /**
   * A text file whose sample matches no grammar ends silently, even when rules
   * fire on its content: the `[rules, 'N/A', 'N/A']` record is appended to a
   * list that the early return drops.
   */
  lemma UndetectedTextIsSilent(filePath: string, eng: RuleEngine, text: string, bytes: Option<seq<bv8>>,
                               reg: Registry, m: Matcher, canWrite: bool)
    requires forall i, j :: 0 <= i < SampleSize && 0 <= j < |reg| ==> !Matches(m, reg[j].pattern, Sample(SplitLines(text))[i])
    ensures Collect(Some(eng), "text", StoredFile(Some(text), bytes), reg, m) == EarlyReturn(WholeRecords(eng(Text(text))))
    ensures ScanOutcome(filePath, Some(eng), "text", StoredFile(Some(text), bytes), reg, m, canWrite) == Silent
  {
  }

  /** Binary, script, database and config files: at most one record, present exactly when rules fire on the bytes. */
  lemma WholeFileOutcome(filePath: string, eng: RuleEngine, fileType: string, stored: StoredFile,
                         reg: Registry, m: Matcher)
    requires fileType in WholeFileKinds && stored.bytes.Some?
    ensures var fired := eng(Bytes(stored.bytes.value));
            ScanOutcome(filePath, Some(eng), fileType, stored, reg, m, true) ==
              if fired == [] then NoMatches(BaseName(filePath))
              else Reported(ReportName(filePath), [Header, [Join(fired), NA, NA]], 1, BaseName(filePath))
  {
    var fired := eng(Bytes(stored.bytes.value));
    if fired != [] {
      assert Rows([Record(Join(fired), NA, NA)]) == [[Join(fired), NA, NA]];
    }
  }

  /** Any other file kind is never opened and yields no records. */
  lemma OtherKindFindsNothing(filePath: string, eng: RuleEngine, fileType: string, stored: StoredFile,
                              reg: Registry, m: Matcher, canWrite: bool)
    requires fileType != "text" && fileType !in WholeFileKinds
    ensures ScanOutcome(filePath, Some(eng), fileType, stored, reg, m, canWrite) == NoMatches(BaseName(filePath))
  {
  }

  /** `scan_file` as evidently intended: the undetected-grammar branch falls through to the report step. */
  function ScanOutcomeIntended(filePath: string, rules: Option<RuleEngine>, fileType: string, stored: StoredFile,
                               reg: Registry, m: Matcher, canWrite: bool): (o: Outcome)
    ensures !o.Silent?
  {
    match Collect(rules, fileType, stored, reg, m)
    case EarlyReturn(dropped) => Finish(filePath, Found(dropped), canWrite)
    case c => Finish(filePath, c, canWrite)
  }

  /** With the early return removed, a text file of unknown grammar on which rules fire is reported with one N/A row. */
  lemma IntendedUndetectedReports(filePath: string, eng: RuleEngine, text: string, bytes: Option<seq<bv8>>,
                                  reg: Registry, m: Matcher)
    requires forall i, j :: 0 <= i < SampleSize && 0 <= j < |reg| ==> !Matches(m, reg[j].pattern, Sample(SplitLines(text))[i])
    requires eng(Text(text)) != []
    ensures ScanOutcomeIntended(filePath, Some(eng), "text", StoredFile(Some(text), bytes), reg, m, true) ==
            Reported(ReportName(filePath), [Header, [Join(eng(Text(text))), NA, NA]], 1, BaseName(filePath))
  {
    var rec := Record(Join(eng(Text(text))), NA, NA);
    UndetectedTextIsSilent(filePath, eng, text, bytes, reg, m, true);
    assert WholeRecords(eng(Text(text))) == [rec];
    assert Rows([rec]) == [[rec.rule, NA, NA]];
  }

  /** Everywhere else the intended behaviour is the written one. */
  lemma IntendedAgreesElsewhere(filePath: string, rules: Option<RuleEngine>, fileType: string, stored: StoredFile,
                                reg: Registry, m: Matcher, canWrite: bool)
    requires !Collect(rules, fileType, stored, reg, m).EarlyReturn?
    ensures ScanOutcomeIntended(filePath, rules, fileType, stored, reg, m, canWrite) ==
            ScanOutcome(filePath, rules, fileType, stored, reg, m, canWrite)
  {
  }

  /** `[file.readline() for _ in range(10)]`. */
  method ReadSample(file: TextFile) returns (sample: seq<string>)
    requires file.Valid() && file.pos == 0
    modifies file
    ensures file.Valid() && sample == Sample(file.lines)
    ensures file.pos == if SampleSize < |file.lines| then SampleSize else |file.lines|
  {
    sample := [];
    for k := 0 to SampleSize
      invariant file.Valid()
      invariant file.pos == if k < |file.lines| then k else |file.lines|
      invariant sample == Sample(file.lines)[..k]
    {
      var line := file.ReadLine();
      sample := sample + [line];
    }
  }

  /** The `for line in file` loop of a file with a detected grammar, from the current cursor on. */
  method ScanLines(file: TextFile, eng: RuleEngine, filePattern: Option<string>, reg: seq<Grammar>, m: Matcher)
    returns (c: Collected)
    requires file.Valid() && file.pos == 0
    modifies file
    ensures file.Valid()
    ensures c == DetectedLines(file.lines, eng, filePattern, reg, m)
    ensures c.Found? ==> file.pos == |file.lines|
  {
    var matchesFound: seq<Record> := [];
    while !file.AtEnd()
      invariant file.Valid()
      invariant filePattern.None? ==> matchesFound == [] && !AnyLineFires(file.lines[..file.pos], eng)
      invariant filePattern.Some? ==> matchesFound == LineRecords(file.lines[..file.pos], eng, filePattern.value, reg, m)
      decreases |file.lines| - file.pos
    {
      ghost var before := file.lines[..file.pos];
      var line := file.ReadLine();
      Seqs.TakeSnoc(file.lines, file.pos - 1);
      var fired := eng(Text(line));
      if fired != [] {
        if filePattern.None? {
          assert AnyLineFires(file.lines, eng) by {
            assert eng(Text(file.lines[file.pos - 1])) != [];
          }
          return Raised(NoPatternForGrammar);
        }
        var (component, content) := ExtractInfo(line, filePattern.value, reg, m);
        if Truthy(component) && Truthy(content) {
          matchesFound := matchesFound + [Record(Join(fired), component.value, content.value)];
        }
      }
      if filePattern.Some? {
        LineRecordsSnoc(before, line, eng, filePattern.value, reg, m);
      }
    }
    assert file.lines[..file.pos] == file.lines;
    c := Found(matchesFound);
  }

  /** The `file_type == 'text'` branch of `scan_file`, up to the report step. */
  method ScanTextFile(text: string, eng: RuleEngine, reg: Registry, m: Matcher) returns (c: Collected)
    ensures c == CollectText(text, eng, reg, m)
  {
    var matchesFound: seq<Record> := [];
    var file := new TextFile.Open(text);
    var sampleLines := ReadSample(file);
    var detected := IdentifyPattern(sampleLines, reg, m);
    var filePattern := if detected.Some? && detected.value != [] then Lookup(reg, detected.value) else None;
    file.Rewind();

    if detected.None? {
      var data := file.ReadRest();
      var fired := eng(Text(data));
      if fired != [] {
        matchesFound := matchesFound + [Record(Join(fired), NA, NA)];
      }
      return EarlyReturn(matchesFound);
    }

    c := ScanLines(file, eng, filePattern, reg, m);
  }

  /** `scan_file`, step by step over a text file with a cursor. */
  method ScanFile(filePath: string, rules: Option<RuleEngine>, fileType: string, stored: StoredFile,
                  reg: Registry, m: Matcher, canWrite: bool) returns (outcome: Outcome)
    ensures outcome == ScanOutcome(filePath, rules, fileType, stored, reg, m, canWrite)
  {
    var shown := BaseName(filePath);
    if rules.None? {
      return Failed(shown, RulesDidNotCompile);
    }
    var eng := rules.value;
    var matchesFound: seq<Record> := [];
    if fileType == "text" {
      if stored.text.None? {
        return Failed(shown, CannotRead);
      }
      var c := ScanTextFile(stored.text.value, eng, reg, m);
      assert c == Collect(rules, fileType, stored, reg, m);
      match c
      case EarlyReturn(_) =>
        return Silent;
      case Raised(cause) =>
        return Failed(shown, cause);
      case Found(records) =>
        matchesFound := records;
    } else if fileType in WholeFileKinds {
      if stored.bytes.None? {
        return Failed(shown, CannotRead);
      }
      var fired := eng(Bytes(stored.bytes.value));
      if fired != [] {
        matchesFound := matchesFound + [Record(Join(fired), NA, NA)];
      }
    }
    assert Collect(rules, fileType, stored, reg, m) == Found(matchesFound);

    if matchesFound != [] {
      if !canWrite {
        return Failed(shown, CannotWriteReport);
      }
      outcome := Reported(ReportName(filePath), [Header] + Rows(matchesFound), |matchesFound|, shown);
    } else {
      outcome := NoMatches(shown);
    }
  }
}

/**
 * The grammar registry (the `log_patterns` mapping of app/metadata.json) and
 * log-format detection (`identify_pattern` in app/file.py).
 *
 * Python's regular-expression engine is not modelled: a `Matcher` stands for
 * `re.match`, an anchored match that either fails or yields the capture groups.
 */
module Grammars {
  import opened Wrappers

  /** One entry of the registry: a format name and its regular expression. */
  datatype Grammar = Grammar(name: string, pattern: string)

  /** A Python dict has one entry per key. */
  ghost predicate DistinctNames(gs: seq<Grammar>) {
    forall i, j :: 0 <= i < j < |gs| ==> gs[i].name != gs[j].name
  }

  /** The registry in dict insertion order. */
  type Registry = gs: seq<Grammar> | DistinctNames(gs) witness []

  /**
   * The groups of a successful match, as `match.group(i)` sees them: index 0 is
   * the whole match and a group that did not take part in the match is None.
   */
  type Captures = seq<Option<string>>

  /** `re.match(pattern, line)`: None when the pattern does not match at position 0. */
  type Matcher = (string, string) -> Option<Captures>

  predicate Matches(m: Matcher, pattern: string, line: string) {
    m(pattern, line).Some?
  }

  /** `patterns.get(name)`: the pattern of the entry called `name`, if any. */
  function Lookup(gs: seq<Grammar>, name: string): (r: Option<string>)
    ensures r.None? <==> forall j :: 0 <= j < |gs| ==> gs[j].name != name
  {
    if gs == [] then None
    else if gs[0].name == name then Some(gs[0].pattern)
    else Lookup(gs[1..], name)
  }

  /** In a registry, looking up an entry's name gives back that entry's pattern. */
  lemma {:induction false} LookupAt(reg: Registry, j: nat)
    requires j < |reg|
    ensures Lookup(reg, reg[j].name) == Some(reg[j].pattern)
  {
    if j > 0 {
      var tail: Registry := reg[1..];
      LookupAt(tail, j - 1);
    }
  }

  /** The inner loop of `identify_pattern`: the first grammar, in registry order, matching `line`. */
  function FirstGrammarFor(line: string, gs: seq<Grammar>, m: Matcher): (r: Option<string>)
    ensures r.None? <==> forall j :: 0 <= j < |gs| ==> !Matches(m, gs[j].pattern, line)
  {
    if gs == [] then None
    else if Matches(m, gs[0].pattern, line) then Some(gs[0].name)
    else FirstGrammarFor(line, gs[1..], m)
  }

  /**
   * `identify_pattern`: lines in order, and for each line the grammars in
   * registry order; the first matching pair decides.
   */
  function IdentifyPattern(lines: seq<string>, gs: seq<Grammar>, m: Matcher): (r: Option<string>)
    ensures r.None? <==>
      forall i, j :: 0 <= i < |lines| && 0 <= j < |gs| ==> !Matches(m, gs[j].pattern, lines[i])
  {
    if lines == [] then None
    else
      match FirstGrammarFor(lines[0], gs, m)
      case Some(name) => Some(name)
      case None => IdentifyPattern(lines[1..], gs, m)
  }

  /** No line before line i matches any grammar. */
  ghost predicate NoHitBefore(lines: seq<string>, gs: seq<Grammar>, m: Matcher, i: nat)
    requires i <= |lines|
  {
    forall i', j' :: 0 <= i' < i && 0 <= j' < |gs| ==> !Matches(m, gs[j'].pattern, lines[i'])
  }

  /** (i, j) is the first matching (line, grammar) pair in line-major, then registry, order. */
  ghost predicate FirstHit(lines: seq<string>, gs: seq<Grammar>, m: Matcher, i: nat, j: nat) {
    && i < |lines| && j < |gs|
    && Matches(m, gs[j].pattern, lines[i])
    && NoHitBefore(lines, gs, m, i)
    && forall j' :: 0 <= j' < j ==> !Matches(m, gs[j'].pattern, lines[i])
  }

  lemma {:induction false} FirstGrammarForAt(line: string, gs: seq<Grammar>, m: Matcher, j: nat)
    requires j < |gs| && Matches(m, gs[j].pattern, line)
    requires forall j' :: 0 <= j' < j ==> !Matches(m, gs[j'].pattern, line)
    ensures FirstGrammarFor(line, gs, m) == Some(gs[j].name)
  {
    if j > 0 {
      FirstGrammarForAt(line, gs[1..], m, j - 1);
    }
  }

  /** The first matching pair decides the result. */
  lemma {:induction false} IdentifyFirstHit(lines: seq<string>, gs: seq<Grammar>, m: Matcher, i: nat, j: nat)
    requires FirstHit(lines, gs, m, i, j)
    ensures IdentifyPattern(lines, gs, m) == Some(gs[j].name)
  {
    if i == 0 {
      FirstGrammarForAt(lines[0], gs, m, j);
    } else {
      assert FirstGrammarFor(lines[0], gs, m).None? by {
        forall j' | 0 <= j' < |gs| ensures !Matches(m, gs[j'].pattern, lines[0]) {
          assert NoHitBefore(lines, gs, m, i);
        }
      }
      IdentifyFirstHit(lines[1..], gs, m, i - 1, j);
    }
  }

  /** Conversely, a detected name always comes from a first matching pair. */
  lemma {:induction false} IdentifyHasFirstHit(lines: seq<string>, gs: seq<Grammar>, m: Matcher)
    requires IdentifyPattern(lines, gs, m).Some?
    ensures exists i: nat, j: nat :: FirstHit(lines, gs, m, i, j) && gs[j].name == IdentifyPattern(lines, gs, m).value
  {
    if FirstGrammarFor(lines[0], gs, m).Some? {
      var j := FirstIndex(lines[0], gs, m);
      FirstGrammarForAt(lines[0], gs, m, j);
      assert FirstHit(lines, gs, m, 0, j);
    } else {
      IdentifyHasFirstHit(lines[1..], gs, m);
      var i: nat, j: nat :| FirstHit(lines[1..], gs, m, i, j) && gs[j].name == IdentifyPattern(lines[1..], gs, m).value;
      assert FirstHit(lines, gs, m, i + 1, j) by {
        forall i', j' | 0 <= i' < i + 1 && 0 <= j' < |gs| ensures !Matches(m, gs[j'].pattern, lines[i']) {
          if i' > 0 {
            assert lines[i'] == lines[1..][i' - 1];
            assert NoHitBefore(lines[1..], gs, m, i);
          }
        }
      }
    }
  }

  /** The index of the first grammar matching `line`, when there is one. */
  ghost function FirstIndex(line: string, gs: seq<Grammar>, m: Matcher): (j: nat)
    requires FirstGrammarFor(line, gs, m).Some?
    ensures j < |gs| && Matches(m, gs[j].pattern, line)
    ensures forall j' :: 0 <= j' < j ==> !Matches(m, gs[j'].pattern, line)
  {
    if Matches(m, gs[0].pattern, line) then 0 else 1 + FirstIndex(line, gs[1..], m)
  }

  /**
   * Line order beats registry order: when line i is the first line matching
   * anything, its first grammar wins even though a later line matches a
   * grammar listed earlier in the registry.
   */
  lemma LineOrderBeatsRegistryOrder(reg: Registry, lines: seq<string>, m: Matcher, i: nat, j: nat, i2: nat, j2: nat)
    requires FirstHit(lines, reg, m, i, j)
    requires i < i2 < |lines| && j2 < j && Matches(m, reg[j2].pattern, lines[i2])
    ensures IdentifyPattern(lines, reg, m) == Some(reg[j].name)
    ensures IdentifyPattern(lines, reg, m) != Some(reg[j2].name)
  {
    IdentifyFirstHit(lines, reg, m, i, j);
  }
}

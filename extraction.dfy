/**
 * Field extraction (`extract_info` in app/file.py): the component and the
 * content of a log line, taken from two capture groups chosen by a fixed table.
 */
module Extraction {
  import opened Wrappers
  import opened Grammars

  /** One row of the fixed table: a grammar name and its component and content groups. */
  datatype GroupPair = GroupPair(key: string, component: nat, content: nat)

  /** The table, in the order the source lists it. */
  const GroupIndices: seq<GroupPair> := [
    GroupPair("android", 5, 6),
    GroupPair("apache", 2, 3),
    GroupPair("hadoop", 3, 4),
    GroupPair("hdfs", 3, 4),
    GroupPair("hpc", 6, 7),
    GroupPair("linux", 2, 3),
    GroupPair("mac", 3, 4),
    GroupPair("openssh", 2, 3),
    GroupPair("spark", 3, 4),
    GroupPair("windows", 4, 5)
  ]

  /** (component, content); a missing value is Python's None. */
  type Fields = (Option<string>, Option<string>)

  /** Row k is the first row whose configured pattern equals `pattern`. */
  ghost predicate FirstKeyFor(table: seq<GroupPair>, reg: seq<Grammar>, pattern: string, k: nat) {
    && k < |table|
    && Lookup(reg, table[k].key) == Some(pattern)
    && forall k' :: 0 <= k' < k ==> Lookup(reg, table[k'].key) != Some(pattern)
  }

  /**
   * The loop over the table: the group pair of the first key whose pattern in
   * the registry equals `pattern`. The detected name itself is not consulted.
   */
  function IndicesFor(table: seq<GroupPair>, reg: seq<Grammar>, pattern: string): (r: Option<GroupPair>)
    ensures r.None? <==> forall k :: 0 <= k < |table| ==> Lookup(reg, table[k].key) != Some(pattern)
    ensures r.Some? ==> r.value in table && Lookup(reg, r.value.key) == Some(pattern)
  {
    if table == [] then None
    else if Lookup(reg, table[0].key) == Some(pattern) then Some(table[0])
    else IndicesFor(table[1..], reg, pattern)
  }

  /** The first row for the pattern is the one found. */
  lemma {:induction false} IndicesForFirst(table: seq<GroupPair>, reg: seq<Grammar>, pattern: string, k: nat)
    requires FirstKeyFor(table, reg, pattern, k)
    ensures IndicesFor(table, reg, pattern) == Some(table[k])
  {
    if k > 0 {
      assert FirstKeyFor(table[1..], reg, pattern, k - 1);
      IndicesForFirst(table[1..], reg, pattern, k - 1);
    }
  }

  /** `extract_info(line, pattern, patterns)`. */
  function ExtractInfo(line: string, pattern: string, reg: seq<Grammar>, m: Matcher): (r: Fields)
    ensures !Matches(m, pattern, line) ==> r == (None, None)
    ensures (forall k :: 0 <= k < |GroupIndices| ==> Lookup(reg, GroupIndices[k].key) != Some(pattern))
            ==> r == (None, None)
  {
    match m(pattern, line)
    case None => (None, None)
    case Some(caps) =>
      match IndicesFor(GroupIndices, reg, pattern)
      case None => (None, None)
      case Some(g) =>
        // `match.group` on a missing group raises IndexError, caught as (None, None)
        if g.component < |caps| && g.content < |caps| then (caps[g.component], caps[g.content])
        else (None, None)
  }

  /** Any other result is a match's groups at the indices of a table key configured with the pattern. */
  lemma ExtractFromConfiguredKey(line: string, pattern: string, reg: seq<Grammar>, m: Matcher)
    requires ExtractInfo(line, pattern, reg, m) != (None, None)
    ensures Matches(m, pattern, line)
    ensures var caps := m(pattern, line).value;
            exists g :: g in GroupIndices && Lookup(reg, g.key) == Some(pattern) &&
                        g.component < |caps| && g.content < |caps| &&
                        ExtractInfo(line, pattern, reg, m) == (caps[g.component], caps[g.content])
  {
    var g := IndicesFor(GroupIndices, reg, pattern).value;
    assert g in GroupIndices && Lookup(reg, g.key) == Some(pattern);
  }

  /**
   * When the line matches and row k is the first row for the pattern, the
   * result is exactly the captures at that row's two indices, or (None, None)
   * when either index is beyond the pattern's groups.
   */
  lemma ExtractUsesFirstKey(line: string, pattern: string, reg: seq<Grammar>, m: Matcher, k: nat)
    requires Matches(m, pattern, line)
    requires FirstKeyFor(GroupIndices, reg, pattern, k)
    ensures var caps := m(pattern, line).value;
            var g := GroupIndices[k];
            ExtractInfo(line, pattern, reg, m) ==
              if g.component < |caps| && g.content < |caps| then (caps[g.component], caps[g.content])
              else (None, None)
  {
    IndicesForFirst(GroupIndices, reg, pattern, k);
  }

  /**
   * Two grammars sharing one pattern: when "linux" and "spark" are configured
   * with the same regular expression, a line of a file detected as "spark" is
   * still cut with the groups of "linux" (2 and 3), which comes first in the table.
   */
  lemma SharedPatternUsesFirstKey(reg: Registry, line: string, m: Matcher, jl: nat, js: nat)
    requires jl < |reg| && js < |reg|
    requires reg[jl].name == "linux" && reg[js].name == "spark" && reg[jl].pattern == reg[js].pattern
    requires forall k :: 0 <= k < 5 ==> Lookup(reg, GroupIndices[k].key) != Some(reg[js].pattern)
    requires Matches(m, reg[js].pattern, line) && |m(reg[js].pattern, line).value| > 3
    ensures var caps := m(reg[js].pattern, line).value;
            ExtractInfo(line, reg[js].pattern, reg, m) == (caps[2], caps[3])
  {
    LookupAt(reg, jl);
    assert FirstKeyFor(GroupIndices, reg, reg[js].pattern, 5);
    ExtractUsesFirstKey(line, reg[js].pattern, reg, m, 5);
  }
}

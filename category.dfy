/**
 * `SampleOrganizer._categorize`: exactly one instrument category per sample,
 * the first rule of the chosen table with a matching pattern, or "Other".
 */
module Category {
  import opened Wrappers
  import opened PathText
  import opened PatternTables
  import opened SearchWords

  /** Structural folder names the walk skips. */
  const CategorySkip: set<string> := {"sounds", "packs", "splice", "samples", "audio"}

  /** The words `_categorize` searches: the stem, then at most four kept ancestor names. */
  function CategoryWords(path: string): (r: seq<string>)
    ensures 1 <= |r| <= 5 && r[0] == PathStem(path)
    ensures forall k :: 1 <= k < |r| ==> r[k] in AncestorNames(path) && r[k] != "" && Lower(r[k]) !in CategorySkip
  {
    Collected([PathStem(path)], AncestorNames(path), CategorySkip, 5)
  }

  /** The lower-cased, space-joined search text. */
  function CategoryText(path: string): string
  {
    Lower(JoinWith(CategoryWords(path), " "))
  }

  predicate RuleMatches(m: Matcher, rule: Rule, text: string)
  {
    exists k :: 0 <= k < |rule.patterns| && m(rule.patterns[k], text)
  }

  /** The position of the earliest rule with a matching pattern. */
  function FirstMatch(table: seq<Rule>, m: Matcher, text: string): (r: Option<nat>)
    ensures r.Some? ==> r.value < |table| && RuleMatches(m, table[r.value], text)
    ensures r.Some? ==> forall j :: 0 <= j < r.value ==> !RuleMatches(m, table[j], text)
    ensures r.None? ==> forall j :: 0 <= j < |table| ==> !RuleMatches(m, table[j], text)
    decreases |table|
  {
    if table == [] then None
    else if RuleMatches(m, table[0], text) then Some(0)
    else
      match FirstMatch(table[1..], m, text)
      case None => None
      case Some(i) => Some(i + 1)
  }

  /** The key of the earliest matching rule, or "Other". */
  function CategoryOf(table: seq<Rule>, m: Matcher, text: string): (r: string)
    ensures r == "Other" || exists i :: 0 <= i < |table| && table[i].key == r
  {
    match FirstMatch(table, m, text)
    case Some(i) => table[i].key
    case None => "Other"
  }

  /** The table `_categorize` consults. */
  function TableFor(tax: Taxonomies, isLoop: bool): seq<Rule>
  {
    if isLoop then tax.loops else tax.oneShots
  }

  /**
   * `_categorize`: collect the search words, then try the rules in table order
   * and each rule's patterns in order, returning on the first match.
   */
  method Categorize(tax: Taxonomies, m: Matcher, path: string, isLoop: bool) returns (category: string)
    ensures category == CategoryOf(TableFor(tax, isLoop), m, CategoryText(path))
  {
    var words := CollectNames([PathStem(path)], AncestorNames(path), CategorySkip, 5);
    var text := Lower(JoinWith(words, " "));
    var table := TableFor(tax, isLoop);
    for i := 0 to |table|
      invariant forall j :: 0 <= j < i ==> !RuleMatches(m, table[j], text)
    {
      var hit := AnyPatternMatches(table[i].patterns, m, text);
      assert hit == RuleMatches(m, table[i], text);
      if hit {
        EarliestMatchWins(table, m, text, i);
        return table[i].key;
      }
    }
    return "Other";
  }

  /**
   * First match wins: when rule `i` matches and no earlier rule does, its key is
   * the category, however many later rules also match.
   */
  lemma EarliestMatchWins(table: seq<Rule>, m: Matcher, text: string, i: nat)
    requires i < |table| && RuleMatches(m, table[i], text)
    requires forall j :: 0 <= j < i ==> !RuleMatches(m, table[j], text)
    ensures CategoryOf(table, m, text) == table[i].key
  {
    var r := FirstMatch(table, m, text);
    assert r.Some?;
    assert !(r.value < i) && !(r.value > i);
  }

  /** "Other" exactly when no rule matches, for a table that has no rule keyed "Other". */
  lemma OtherMeansNoMatch(table: seq<Rule>, m: Matcher, text: string)
    requires forall i :: 0 <= i < |table| ==> table[i].key != "Other"
    ensures CategoryOf(table, m, text) == "Other" <==> forall j :: 0 <= j < |table| ==> !RuleMatches(m, table[j], text)
  {
    if FirstMatch(table, m, text).Some? {
      var i := FirstMatch(table, m, text).value;
      assert table[i].key != "Other";
    }
  }

  /**
   * With the program's one-shot table, text matched by the first "Kicks"
   * pattern is filed under "Kicks", the table's first rule, which is also
   * what `Categorize` picks for a one-shot under the program's taxonomies.
   */
  lemma KickExample(m: Matcher, text: string)
    requires m(OneShotTable[0].patterns[0], text)
    ensures CategoryOf(OneShotTable, m, text) == "Kicks"
    ensures CategoryOf(TableFor(SourceTaxonomies, false), m, text) == "Kicks"
  {
    assert RuleMatches(m, OneShotTable[0], text);
    EarliestMatchWins(OneShotTable, m, text, 0);
  }
}

/**
 * `SampleOrganizer._detect_genres`: every (family, genre) pair of the genre
 * table that has a pattern matching the sample's pack and folder text, once
 * each, in table order. Multi-label: no rule stops the scan.
 */
module Genres {
  import opened Wrappers
  import opened PathText
  import opened PatternTables
  import opened SearchWords

  /** Folder names the genre walk skips: the structural ones and the owner's home segments. */
  const GenreSkip: set<string> := {"sounds", "packs", "splice", "samples", "audio", "users", "isaacfidler"}

  /** The `(parent, genre)` tuple. */
  datatype Tag = Tag(family: string, genre: string)

  /** One genre rule, tagged with its family. */
  datatype TaggedRule = TaggedRule(tag: Tag, patterns: seq<string>)

  // ---------------------------------------------------------------------------
  // Search text

  /**
   * The pack name (the part after the first "packs" part) and, when there is
   * one, the part after it; nothing when "packs" is absent or the last part.
   */
  function PackWords(parts: seq<string>): (r: seq<string>)
    ensures |r| <= 2
    ensures r != [] <==> FirstIndex(parts, "packs").Some? && FirstIndex(parts, "packs").value + 1 < |parts|
    ensures r != [] ==> var idx := FirstIndex(parts, "packs").value;
      && r[0] == parts[idx + 1]
      && (|r| == 2 <==> idx + 2 < |parts|)
      && (|r| == 2 ==> r[1] == parts[idx + 2])
  {
    match FirstIndex(parts, "packs")
    case None => []
    case Some(idx) =>
      if idx + 1 < |parts| then
        [parts[idx + 1]] + (if idx + 2 < |parts| then [parts[idx + 2]] else [])
      else []
  }

  /** The words `_detect_genres` searches: the pack words, then kept ancestor names, six at most. */
  function GenreWords(path: string): (r: seq<string>)
    ensures |PackWords(Parts(path))| <= |r| <= 6
    ensures r[..|PackWords(Parts(path))|] == PackWords(Parts(path))
  {
    Collected(PackWords(Parts(path)), AncestorNames(path), GenreSkip, 6)
  }

  function GenreText(path: string): string
  {
    Lower(JoinWith(GenreWords(path), " "))
  }

  // ---------------------------------------------------------------------------
  // The table, flattened in scan order

  function FamilyRules(f: Family): (r: seq<TaggedRule>)
    ensures |r| == |f.genres|
    ensures forall j :: 0 <= j < |r| ==> r[j] == TaggedRule(Tag(f.name, f.genres[j].key), f.genres[j].patterns)
  {
    seq(|f.genres|, j requires 0 <= j < |f.genres| => TaggedRule(Tag(f.name, f.genres[j].key), f.genres[j].patterns))
  }

  /** The genre rules of all families, family by family, in declaration order. */
  function Flatten(families: seq<Family>): seq<TaggedRule>
  {
    if families == [] then []
    else Flatten(families[..|families| - 1]) + FamilyRules(families[|families| - 1])
  }

  /** A pair is declared when some family of that name lists a genre of that key. */
  predicate Declared(families: seq<Family>, t: Tag)
  {
    exists i, j :: 0 <= i < |families| && 0 <= j < |families[i].genres|
      && t == Tag(families[i].name, families[i].genres[j].key)
  }

  /** Every flattened rule comes from a declared pair. */
  lemma {:induction false} FlattenDeclared(families: seq<Family>, k: nat)
    requires k < |Flatten(families)|
    ensures Declared(families, Flatten(families)[k].tag)
  {
    var init := families[..|families| - 1];
    var last := families[|families| - 1];
    if k < |Flatten(init)| {
      FlattenDeclared(init, k);
      var t := Flatten(init)[k].tag;
      var i, j :| 0 <= i < |init| && 0 <= j < |init[i].genres| && t == Tag(init[i].name, init[i].genres[j].key);
      assert init[i] == families[i];
    } else {
      var j := k - |Flatten(init)|;
      assert Flatten(families)[k] == FamilyRules(last)[j];
      assert Flatten(families)[k].tag == Tag(families[|families| - 1].name, families[|families| - 1].genres[j].key);
    }
  }

  // ---------------------------------------------------------------------------
  // The scan

  predicate Hits(m: Matcher, r: TaggedRule, text: string)
  {
    exists k :: 0 <= k < |r.patterns| && m(r.patterns[k], text)
  }

  /** The tags the scan has appended after visiting `rules`. */
  function Tags(rules: seq<TaggedRule>, m: Matcher, text: string): seq<Tag>
  {
    if rules == [] then []
    else
      var prev := Tags(rules[..|rules| - 1], m, text);
      var r := rules[|rules| - 1];
      if Hits(m, r, text) && r.tag !in prev then prev + [r.tag] else prev
  }

  /** The position of the first rule with tag `t` that hits, or -1. */
  function FirstHit(rules: seq<TaggedRule>, m: Matcher, text: string, t: Tag): (p: int)
    ensures -1 <= p < |rules|
    ensures p >= 0 ==> rules[p].tag == t && Hits(m, rules[p], text)
    ensures p >= 0 ==> forall j :: 0 <= j < p ==> !(rules[j].tag == t && Hits(m, rules[j], text))
    ensures p < 0 ==> forall j :: 0 <= j < |rules| ==> !(rules[j].tag == t && Hits(m, rules[j], text))
  {
    if rules == [] then -1
    else
      var init := rules[..|rules| - 1];
      var q := FirstHit(init, m, text, t);
      assert forall j :: 0 <= j < |init| ==> init[j] == rules[j];
      if q >= 0 then q
      else if rules[|rules| - 1].tag == t && Hits(m, rules[|rules| - 1], text) then |rules| - 1
      else -1
  }

  /** Tags appear in the order of their first hitting rule. */
  predicate InHitOrder(rules: seq<TaggedRule>, m: Matcher, text: string, tags: seq<Tag>)
  {
    forall i, j :: 0 <= i < j < |tags| ==> FirstHit(rules, m, text, tags[i]) < FirstHit(rules, m, text, tags[j])
  }

  /** The tags `_detect_genres` returns for a table and a search text. */
  function GenreTags(families: seq<Family>, m: Matcher, text: string): seq<Tag>
  {
    Tags(Flatten(families), m, text)
  }

  /**
   * What the scan yields: a tag is present exactly when some rule with that tag
   * hits, and tags appear in the order of their first hitting rule (so none twice).
   */
  lemma {:induction false} TagsMeaning(rules: seq<TaggedRule>, m: Matcher, text: string)
    ensures forall t :: t in Tags(rules, m, text) <==> FirstHit(rules, m, text, t) >= 0
    ensures InHitOrder(rules, m, text, Tags(rules, m, text))
  {
    if rules != [] {
      var init := rules[..|rules| - 1];
      var r := rules[|rules| - 1];
      TagsMeaning(init, m, text);
      var prev := Tags(init, m, text);
      var tags := Tags(rules, m, text);
      assert InHitOrder(init, m, text, prev);
      assert forall t :: FirstHit(init, m, text, t) >= 0 ==> FirstHit(rules, m, text, t) == FirstHit(init, m, text, t);
      forall t
        ensures t in tags <==> FirstHit(rules, m, text, t) >= 0
      {
        if t == r.tag && Hits(m, r, text) && t !in prev {
          assert FirstHit(rules, m, text, t) == |rules| - 1;
        }
      }
      var added := Hits(m, r, text) && r.tag !in prev;
      assert added ==> tags == prev + [r.tag] && FirstHit(rules, m, text, r.tag) == |rules| - 1;
      assert !added ==> tags == prev;
      forall i, j | 0 <= i < j < |tags|
        ensures FirstHit(rules, m, text, tags[i]) < FirstHit(rules, m, text, tags[j])
      {
        assert tags[i] == prev[i];
        assert FirstHit(init, m, text, prev[i]) >= 0;
        if j < |prev| {
          assert tags[j] == prev[j];
          assert FirstHit(init, m, text, prev[j]) >= 0;
          assert FirstHit(init, m, text, prev[i]) < FirstHit(init, m, text, prev[j]);
        } else {
          assert added && tags[j] == r.tag;
        }
      }
      assert InHitOrder(rules, m, text, tags);
    }
  }

  /** Some rule of the table carries tag `t` and has a pattern that matches. */
  predicate TagHits(rules: seq<TaggedRule>, m: Matcher, text: string, t: Tag)
  {
    exists k :: 0 <= k < |rules| && rules[k].tag == t && Hits(m, rules[k], text)
  }

  /** A tag is collected exactly when one of its rules hits. */
  lemma TagsMembership(rules: seq<TaggedRule>, m: Matcher, text: string, t: Tag)
    ensures t in Tags(rules, m, text) <==> TagHits(rules, m, text, t)
  {
    TagsMeaning(rules, m, text);
    var p := FirstHit(rules, m, text, t);
    if p >= 0 {
      assert rules[p].tag == t && Hits(m, rules[p], text);
    }
  }

  /** No tag is collected twice. */
  lemma TagsDistinct(rules: seq<TaggedRule>, m: Matcher, text: string)
    ensures Distinct(Tags(rules, m, text))
  {
    var tags := Tags(rules, m, text);
    TagsMeaning(rules, m, text);
    forall i, j | 0 <= i < j < |tags|
      ensures tags[i] != tags[j]
    {
      assert FirstHit(rules, m, text, tags[i]) < FirstHit(rules, m, text, tags[j]);
    }
  }

  /**
   * `_detect_genres`' result, table view: duplicate-free, only declared pairs,
   * and a pair is present exactly when one of its patterns matches the text.
   */
  lemma GenreTagsMeaning(families: seq<Family>, m: Matcher, text: string)
    ensures Distinct(GenreTags(families, m, text))
    ensures forall t :: t in GenreTags(families, m, text) ==> Declared(families, t)
    ensures forall t :: t in GenreTags(families, m, text) <==> TagHits(Flatten(families), m, text, t)
  {
    var rules := Flatten(families);
    TagsDistinct(rules, m, text);
    forall t
      ensures t in Tags(rules, m, text) <==> TagHits(rules, m, text, t)
    {
      TagsMembership(rules, m, text, t);
    }
    TagsMeaning(rules, m, text);
    forall t | t in Tags(rules, m, text)
      ensures Declared(families, t)
    {
      FlattenDeclared(families, FirstHit(rules, m, text, t));
    }
  }

  /** Visiting one more family extends the flattened table by that family's rules. */
  lemma FlattenStep(families: seq<Family>, i: nat)
    requires i < |families|
    ensures Flatten(families[..i + 1]) == Flatten(families[..i]) + FamilyRules(families[i])
  {
    assert families[..i + 1][..i] == families[..i];
  }

  /** Visiting one more rule appends its tag when it hits and is new. */
  lemma TagsStep(visited: seq<TaggedRule>, rule: TaggedRule, m: Matcher, text: string)
    ensures Tags(visited + [rule], m, text)
      == if Hits(m, rule, text) && rule.tag !in Tags(visited, m, text)
         then Tags(visited, m, text) + [rule.tag] else Tags(visited, m, text)
  {
    assert (visited + [rule])[..|visited|] == visited;
  }

  /** The loop over one family's genres, continuing a scan that has visited `visited`. */
  method ScanFamily(family: Family, m: Matcher, text: string, visited: seq<TaggedRule>, tags0: seq<Tag>)
    returns (tags: seq<Tag>)
    requires tags0 == Tags(visited, m, text)
    ensures tags == Tags(visited + FamilyRules(family), m, text)
  {
    tags := tags0;
    assert visited + FamilyRules(family)[..0] == visited;
    for j := 0 to |family.genres|
      invariant tags == Tags(visited + FamilyRules(family)[..j], m, text)
    {
      var genre := family.genres[j];
      var hit := AnyPatternMatches(genre.patterns, m, text);
      var rule := TaggedRule(Tag(family.name, genre.key), genre.patterns);
      ScanFamilyStep(family, m, text, visited, j);
      if hit && rule.tag !in tags {
        tags := tags + [rule.tag];
      }
    }
    assert FamilyRules(family)[..|family.genres|] == FamilyRules(family);
  }

  /** One genre of a family's loop: its rule is appended to the visited ones. */
  lemma ScanFamilyStep(family: Family, m: Matcher, text: string, visited: seq<TaggedRule>, j: nat)
    requires j < |family.genres|
    ensures var rule := TaggedRule(Tag(family.name, family.genres[j].key), family.genres[j].patterns);
      Tags(visited + FamilyRules(family)[..j + 1], m, text)
        == if Hits(m, rule, text) && rule.tag !in Tags(visited + FamilyRules(family)[..j], m, text)
           then Tags(visited + FamilyRules(family)[..j], m, text) + [rule.tag]
           else Tags(visited + FamilyRules(family)[..j], m, text)
  {
    var rule := TaggedRule(Tag(family.name, family.genres[j].key), family.genres[j].patterns);
    assert FamilyRules(family)[..j + 1] == FamilyRules(family)[..j] + [rule];
    assert (visited + FamilyRules(family)[..j]) + [rule] == visited + FamilyRules(family)[..j + 1];
    TagsStep(visited + FamilyRules(family)[..j], rule, m, text);
  }

  /**
   * `_detect_genres`: the search words, then for each family and each of its
   * genres, the patterns in order until one matches; a matched pair is appended
   * unless already present.
   */
  method DetectGenres(families: seq<Family>, m: Matcher, path: string) returns (tags: seq<Tag>)
    ensures tags == GenreTags(families, m, GenreText(path))
  {
    var words := CollectNames(PackWords(Parts(path)), AncestorNames(path), GenreSkip, 6);
    var text := Lower(JoinWith(words, " "));
    tags := [];
    for i := 0 to |families|
      invariant tags == Tags(Flatten(families[..i]), m, text)
    {
      FlattenStep(families, i);
      tags := ScanFamily(families[i], m, text, Flatten(families[..i]), tags);
    }
    assert families[..|families|] == families;
  }

  /**
   * With the program's genre table, text matched by the "techno" pattern is
   * tagged (Electronic, Techno).
   */
  lemma TechnoExample(m: Matcher, text: string)
    requires m("techno", text)
    ensures Tag("Electronic", "Techno") in GenreTags(GenreTable, m, text)
  {
    var rules := Flatten(GenreTable);
    assert GenreTable[..1] == [GenreTable[0]];
    assert Flatten(GenreTable[..1]) == FamilyRules(GenreTable[0]);
    assert rules[0] == FamilyRules(GenreTable[0])[0];
    assert rules[0].patterns[0] == "techno";
    assert Hits(m, rules[0], text);
    TagsMeaning(rules, m, text);
    assert FirstHit(rules, m, text, Tag("Electronic", "Techno")) >= 0;
  }
}

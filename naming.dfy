/**
 * `SampleOrganizer._generate_unique_name`: the display name of a sample's
 * links, `<pack>__<stem><suffix>` with a sanitised, shortened pack name, the
 * name already on record for a known sample, or a content-hashed variant when
 * the plain name is taken.
 */
module Naming {
  import opened Wrappers
  import opened PathText
  import opened Layout

  predicate IsHexDigit(c: char)
  {
    '0' <= c <= '9' || 'a' <= c <= 'f'
  }

  /** The first eight characters of an MD5 hex digest. */
  type Digest8 = s: string | |s| == 8 && forall i :: 0 <= i < |s| ==> IsHexDigit(s[i])
    witness "00000000"

  /** The part after the first "packs" part, or "Unknown" when "packs" is absent or last. */
  function PackName(parts: seq<string>): string
  {
    match FirstIndex(parts, "packs")
    case Some(i) => if i + 1 < |parts| then parts[i + 1] else "Unknown"
    case None => "Unknown"
  }

  /** One character of `re.sub(r'[^\w\-]', '_', ...)`, for the word-character class `wordChar`. */
  function SafeChar(wordChar: char -> bool, c: char): char
  {
    if wordChar(c) || c == '-' then c else '_'
  }

  /** `re.sub(r'[^\w\-]', '_', pack)[:30]`. */
  function SafePack(wordChar: char -> bool, pack: string): string
  {
    Take(seq(|pack|, i requires 0 <= i < |pack| => SafeChar(wordChar, pack[i])), 30)
  }

  /** The sanitised pack name of a source path. */
  function SafePackOf(wordChar: char -> bool, source: string): string
  {
    SafePack(wordChar, PackName(Parts(source)))
  }

  /** `f"{safe_pack}__{source.stem}{source.suffix}"`. */
  function BaseName(wordChar: char -> bool, source: string): string
  {
    SafePackOf(wordChar, source) + "__" + PathStem(source) + PathSuffix(source)
  }

  /** `f"{safe_pack}__{source.stem}_{content_hash}{source.suffix}"`. */
  function HashedName(wordChar: char -> bool, digest: Digest8, source: string): string
  {
    SafePackOf(wordChar, source) + "__" + PathStem(source) + "_" + digest + PathSuffix(source)
  }

  /** Where the plain name would be linked in `All/`. */
  function AllLink(home: string, name: string): string
  {
    OrganizedPath(home, ["All", name])
  }

  /**
   * `_generate_unique_name`: the plain name when its `All/` link is absent and
   * the source is not on record; else the name of the first recorded link; else
   * the hashed name. `entries` are the paths that exist on disk, `contentHash`
   * the digest of a source's bytes.
   */
  function UniqueName(wordChar: char -> bool, contentHash: string -> Digest8, home: string,
                      files: map<string, seq<string>>, entries: set<string>, source: string): string
  {
    var base := BaseName(wordChar, source);
    if AllLink(home, base) !in entries && source !in files then base
    else if source in files && |files[source]| > 0 then Name(files[source][0])
    else HashedName(wordChar, contentHash(source), source)
  }

  // ---------------------------------------------------------------------------
  // Properties

  /** The pack name is the part right after the first "packs" part. */
  lemma PackNameAfterPacks(above: seq<string>, pack: string, below: seq<string>)
    requires "packs" !in above
    ensures PackName(above + ["packs", pack] + below) == pack
  {
    var parts := above + ["packs", pack] + below;
    assert parts[|above|] == "packs" && parts[..|above|] == above;
    FirstIndexUnique(parts, "packs", |above|);
  }

  /** Without a "packs" part that has a successor, the pack is "Unknown". */
  lemma PackNameUnknown(parts: seq<string>)
    requires "packs" !in parts || (parts[|parts| - 1] == "packs" && "packs" !in parts[..|parts| - 1])
    ensures PackName(parts) == "Unknown"
  {
    if "packs" in parts {
      FirstIndexUnique(parts, "packs", |parts| - 1);
    }
  }

  /**
   * The sanitised pack: at most 30 characters, those of the pack name's prefix
   * with every character outside `\w` and '-' replaced by '_'; so, as `\w`
   * contains '_', only word characters and '-'.
   */
  lemma SafePackShape(wordChar: char -> bool, pack: string)
    ensures |SafePack(wordChar, pack)| == Min(|pack|, 30)
    ensures forall i :: 0 <= i < |SafePack(wordChar, pack)| ==>
      SafePack(wordChar, pack)[i] == (if wordChar(pack[i]) || pack[i] == '-' then pack[i] else '_')
    ensures wordChar('_') ==> forall i :: 0 <= i < |SafePack(wordChar, pack)| ==>
      wordChar(SafePack(wordChar, pack)[i]) || SafePack(wordChar, pack)[i] == '-'
  {
  }

  /** A pack name of word characters and '-' only, of at most 30, is kept as it is. */
  lemma SafePackKeepsCleanName(wordChar: char -> bool, pack: string)
    requires |pack| <= 30
    requires forall i :: 0 <= i < |pack| ==> wordChar(pack[i]) || pack[i] == '-'
    ensures SafePack(wordChar, pack) == pack
  {
  }

  /** A name of a path never contains '/'. */
  lemma NameHasNoSlash(path: string)
    ensures '/' !in Name(path)
  {
    var c := Components(Split(path));
    if c != [] {
      assert c[|c| - 1] in Split(path);
      var k :| 0 <= k < |Split(path)| && Split(path)[k] == c[|c| - 1];
    }
  }

  /** Neither the stem nor the suffix of a path contains '/'. */
  lemma StemSuffixHaveNoSlash(path: string)
    ensures '/' !in PathStem(path) && '/' !in PathSuffix(path)
  {
    NameHasNoSlash(path);
    StemAndSuffix(Name(path));
    var stem, suffix := PathStem(path), PathSuffix(path);
    assert stem + suffix == Name(path);
    assert forall i :: 0 <= i < |stem| ==> stem[i] == Name(path)[i];
    assert forall i :: 0 <= i < |suffix| ==> suffix[i] == Name(path)[|stem| + i];
  }

  /** When '/' is no word character, a sanitised pack holds no '/'. */
  lemma SafePackHasNoSlash(wordChar: char -> bool, source: string)
    requires !wordChar('/')
    ensures '/' !in SafePackOf(wordChar, source)
  {
    var safe := SafePackOf(wordChar, source);
    SafePackShape(wordChar, PackName(Parts(source)));
    assert forall i :: 0 <= i < |safe| ==> safe[i] != '/';
  }

  /** The hashed name differs from the plain one: it is nine characters longer. */
  lemma HashedDiffersFromBase(wordChar: char -> bool, digest: Digest8, source: string)
    ensures |HashedName(wordChar, digest, source)| == |BaseName(wordChar, source)| + 9
    ensures HashedName(wordChar, digest, source) != BaseName(wordChar, source)
  {
  }

  /** A new source whose plain name is free gets the plain name. */
  lemma FreshSourceGetsBaseName(wordChar: char -> bool, contentHash: string -> Digest8, home: string,
                                files: map<string, seq<string>>, entries: set<string>, source: string)
    requires source !in files && AllLink(home, BaseName(wordChar, source)) !in entries
    ensures UniqueName(wordChar, contentHash, home, files, entries, source)
      == SafePackOf(wordChar, source) + "__" + PathStem(source) + PathSuffix(source)
  {
  }

  /**
   * A new source whose plain name is already linked in `All/` gets the hashed
   * name, never the taken plain name.
   */
  lemma CollisionGetsHashedName(wordChar: char -> bool, contentHash: string -> Digest8, home: string,
                                files: map<string, seq<string>>, entries: set<string>, source: string)
    requires source !in files && AllLink(home, BaseName(wordChar, source)) in entries
    ensures UniqueName(wordChar, contentHash, home, files, entries, source)
      == HashedName(wordChar, contentHash(source), source)
    ensures UniqueName(wordChar, contentHash, home, files, entries, source) != BaseName(wordChar, source)
  {
    HashedDiffersFromBase(wordChar, contentHash(source), source);
  }

  /**
   * Reuse: for a source on record whose first link is `All/<n>`, the name is `n`,
   * whatever is on disk.
   */
  lemma RecordedSourceKeepsName(wordChar: char -> bool, contentHash: string -> Digest8, home: string,
                                files: map<string, seq<string>>, entries: set<string>, source: string, n: string)
    requires |home| > 0 && IsSegment(n)
    requires source in files && |files[source]| > 0 && files[source][0] == AllLink(home, n)
    ensures UniqueName(wordChar, contentHash, home, files, entries, source) == n
  {
    PartsUnder(home, [OrganizedFolder, "All", n]);
    assert [OrganizedFolder] + ["All", n] == [OrganizedFolder, "All", n];
  }

  /**
   * The name a new source gets is one path segment: non-empty, not ".", and
   * free of '/', when '/' is no word character.
   */
  lemma FreshNameIsSegment(wordChar: char -> bool, contentHash: string -> Digest8, home: string,
                           files: map<string, seq<string>>, entries: set<string>, source: string)
    requires !wordChar('/') && source !in files
    ensures IsSegment(UniqueName(wordChar, contentHash, home, files, entries, source))
  {
    SafePackHasNoSlash(wordChar, source);
    StemSuffixHaveNoSlash(source);
    var safe, stem, suffix := SafePackOf(wordChar, source), PathStem(source), PathSuffix(source);
    var digest := contentHash(source);
    var n := UniqueName(wordChar, contentHash, home, files, entries, source);
    assert forall i :: 0 <= i < |digest| ==> digest[i] != '/';
    if n == BaseName(wordChar, source) {
      assert n == safe + "__" + stem + suffix;
    } else {
      assert n == safe + "__" + stem + "_" + digest + suffix;
    }
    assert n[|safe|] == '_';
    assert |n| >= 2;
  }
}

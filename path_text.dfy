/**
 * The path and string operations the organizer relies on: `str.lower`, the
 * `in` test on strings, `list.index`, and the pieces of `pathlib.PurePath`
 * it uses (`parts`, `name`, `stem`, `suffix`, the names of `parents`).
 * A path is the string `str(path)`; its parts are recovered by splitting on '/'.
 */
module PathText {
  import opened Wrappers

  // ---------------------------------------------------------------------------
  // Case

  /** Lower-casing of one character (ASCII letters only). */
  function LowerChar(c: char): char
  {
    if 'A' <= c <= 'Z' then (c as int + 32) as char else c
  }

  function Lower(s: string): (r: string)
    ensures |r| == |s|
    ensures forall i :: 0 <= i < |s| ==> r[i] == LowerChar(s[i])
  {
    seq(|s|, i requires 0 <= i < |s| => LowerChar(s[i]))
  }

  lemma LowerAppend(a: string, b: string)
    ensures Lower(a + b) == Lower(a) + Lower(b)
  {
  }

  /** Lower-casing a path keeps its separators where they were. */
  lemma LowerAroundSegment(a: string, c: string, b: string)
    ensures Lower(a + "/" + c + "/" + b) == Lower(a) + "/" + Lower(c) + "/" + Lower(b)
  {
    LowerAppend(a + "/" + c + "/", b);
    LowerAppend(a + "/" + c, "/");
    LowerAppend(a + "/", c);
    LowerAppend(a, "/");
  }

  // ---------------------------------------------------------------------------
  // Substring test: Python's `pat in text`

  predicate OccursAt(pat: string, text: string, i: int)
  {
    0 <= i && i + |pat| <= |text| && text[i..i + |pat|] == pat
  }

  lemma OccursShift(pat: string, text: string)
    requires |text| > 0
    ensures forall i :: 0 <= i ==> (OccursAt(pat, text[1..], i) <==> OccursAt(pat, text, i + 1))
  {
    forall i | 0 <= i
      ensures OccursAt(pat, text[1..], i) <==> OccursAt(pat, text, i + 1)
    {
      if 0 <= i && i + |pat| <= |text[1..]| {
        assert text[1..][i..i + |pat|] == text[i + 1..i + 1 + |pat|];
      }
    }
  }

  /** `pat in text`: true exactly when `pat` occurs at some position of `text`. */
  function Contains(text: string, pat: string): (b: bool)
    ensures b <==> exists i :: OccursAt(pat, text, i)
    decreases |text|
  {
    if |pat| > |text| then
      false
    else if text[..|pat|] == pat then
      assert OccursAt(pat, text, 0);
      true
    else
      OccursShift(pat, text);
      assert !OccursAt(pat, text, 0);
      assert forall i :: OccursAt(pat, text, i) ==> i >= 1 && OccursAt(pat, text[1..], i - 1);
      Contains(text[1..], pat)
  }

  /** A witness position makes `Contains` true. */
  lemma ContainsAt(text: string, pat: string, i: nat)
    requires OccursAt(pat, text, i)
    ensures Contains(text, pat)
  {
  }

  /** `pat` occurs in a text built around it. */
  lemma ContainsInfix(a: string, pat: string, b: string)
    ensures Contains(a + pat + b, pat)
  {
    assert (a + pat + b)[|a|..|a| + |pat|] == pat;
    ContainsAt(a + pat + b, pat, |a|);
  }

  // ---------------------------------------------------------------------------
  // First and last position of an element: `list.index`, `str.find`, `str.rfind`

  function FirstIndex<T(==)>(s: seq<T>, x: T): (r: Option<nat>)
    ensures r.Some? ==> r.value < |s| && s[r.value] == x && x !in s[..r.value]
    ensures r.None? <==> x !in s
  {
    if s == [] then None
    else if s[0] == x then Some(0)
    else
      match FirstIndex(s[1..], x)
      case None => None
      case Some(i) =>
        assert s[..i + 1] == [s[0]] + s[1..][..i];
        Some(i + 1)
  }

  /** The first index is the only index that satisfies `FirstIndex`'s ensures. */
  lemma FirstIndexUnique<T>(s: seq<T>, x: T, i: nat)
    requires i < |s| && s[i] == x && x !in s[..i]
    ensures FirstIndex(s, x) == Some(i)
  {
    assert s[i] in s;
  }

  /** The first index of `x` in `s + t` when `x` is not in `s`. */
  lemma FirstIndexAfter<T>(s: seq<T>, t: seq<T>, x: T)
    requires x !in s
    ensures FirstIndex(s + t, x) == match FirstIndex(t, x) case None => None case Some(i) => Some(|s| + i)
  {
    match FirstIndex(t, x)
    case None =>
      assert x !in s + t;
    case Some(i) =>
      assert (s + t)[..|s| + i] == s + t[..i];
      FirstIndexUnique(s + t, x, |s| + i);
  }

  function LastIndex<T(==)>(s: seq<T>, x: T): (r: Option<nat>)
    ensures r.Some? ==> r.value < |s| && s[r.value] == x && x !in s[r.value + 1..]
    ensures r.None? <==> x !in s
  {
    if s == [] then None
    else if s[|s| - 1] == x then Some(|s| - 1)
    else
      assert s == s[..|s| - 1] + [s[|s| - 1]];
      match LastIndex(s[..|s| - 1], x)
      case None => None
      case Some(i) =>
        assert s[i + 1..] == s[..|s| - 1][i + 1..] + [s[|s| - 1]];
        Some(i)
  }

  // ---------------------------------------------------------------------------
  // Splitting a path string into its parts

  /** The pieces of `s` between '/' separators, empty pieces included. */
  function Split(s: string): (r: seq<string>)
    ensures |r| >= 1
    ensures forall k :: 0 <= k < |r| ==> '/' !in r[k]
    decreases |s|
  {
    match FirstIndex(s, '/')
    case None => [s]
    case Some(i) => [s[..i]] + Split(s[i + 1..])
  }

  lemma SplitAtSlash(a: string, b: string)
    requires '/' !in a
    ensures Split(a + "/" + b) == [a] + Split(b)
  {
    var s := a + "/" + b;
    assert s[..|a|] == a;
    FirstIndexUnique(s, '/', |a|);
    assert s[|a| + 1..] == b;
  }

  lemma {:induction false} SplitConcat(a: string, b: string)
    ensures Split(a + "/" + b) == Split(a) + Split(b)
    decreases |a|
  {
    match FirstIndex(a, '/')
    case None =>
      SplitAtSlash(a, b);
    case Some(i) =>
      ConcatAt(a, b, i);
      SplitFirst(a + "/" + b, i);
      SplitConcat(a[i + 1..], b);
  }

  /** Splitting at the first '/'. */
  lemma SplitFirst(s: string, i: nat)
    requires i < |s| && s[i] == '/' && '/' !in s[..i]
    ensures Split(s) == [s[..i]] + Split(s[i + 1..])
  {
    FirstIndexUnique(s, '/', i);
  }

  /** The pieces of `a + "/" + b` around a position inside `a`. */
  lemma ConcatAt(a: string, b: string, i: nat)
    requires i < |a|
    ensures (a + "/" + b)[..i] == a[..i] && (a + "/" + b)[i] == a[i]
    ensures (a + "/" + b)[i + 1..] == a[i + 1..] + "/" + b
  {
  }

  /** A segment that `PurePath` keeps: not empty and not ".". */
  predicate IsComponent(seg: string)
  {
    seg != "" && seg != "."
  }

  /** A segment that can be appended to a path with `/` and read back unchanged. */
  predicate IsSegment(seg: string)
  {
    IsComponent(seg) && '/' !in seg
  }

  function Components(segs: seq<string>): (r: seq<string>)
    ensures forall k :: 0 <= k < |r| ==> IsComponent(r[k]) && r[k] in segs
  {
    if segs == [] then []
    else (if IsComponent(segs[0]) then [segs[0]] else []) + Components(segs[1..])
  }

  lemma {:induction false} ComponentsAppend(x: seq<string>, y: seq<string>)
    ensures Components(x + y) == Components(x) + Components(y)
  {
    if x == [] {
      assert x + y == y;
    } else {
      assert (x + y)[1..] == x[1..] + y;
      ComponentsAppend(x[1..], y);
    }
  }

  lemma {:induction false} ComponentsOfSegments(segs: seq<string>)
    requires forall k :: 0 <= k < |segs| ==> IsComponent(segs[k])
    ensures Components(segs) == segs
  {
    if segs != [] {
      ComponentsOfSegments(segs[1..]);
    }
  }

  /** `PurePath(path).parts`: the root "/" for an absolute path, then the components. */
  function Parts(path: string): seq<string>
  {
    (if |path| > 0 && path[0] == '/' then ["/"] else []) + Components(Split(path))
  }

  /** `PurePath(path).name`: the last component, or "" when there is none. */
  function Name(path: string): string
  {
    var c := Components(Split(path));
    if c == [] then "" else c[|c| - 1]
  }

  /** The components above the last one, outermost first. */
  function DirNames(path: string): seq<string>
  {
    var c := Components(Split(path));
    if c == [] then [] else c[..|c| - 1]
  }

  function Reverse<T>(s: seq<T>): (r: seq<T>)
    ensures |r| == |s|
    ensures forall i :: 0 <= i < |s| ==> r[i] == s[|s| - 1 - i]
  {
    if s == [] then [] else Reverse(s[1..]) + [s[0]]
  }

  /**
   * The names of `PurePath(path).parents`, nearest first. The last parent (the
   * root, or ".") has the empty name, which every caller skips, so it is omitted.
   */
  function AncestorNames(path: string): seq<string>
  {
    Reverse(DirNames(path))
  }

  // ---------------------------------------------------------------------------
  // stem and suffix of a name

  /** `PurePath.suffix` of a name: from its last '.', unless that dot leads or ends the name. */
  function SuffixOf(name: string): (r: string)
    ensures r == "" || (|r| >= 2 && r[0] == '.' && '.' !in r[1..])
  {
    match LastIndex(name, '.')
    case Some(i) =>
      if 0 < i < |name| - 1 then
        assert name[i..][1..] == name[i + 1..];
        name[i..]
      else ""
    case None => ""
  }

  /** `PurePath.stem` of a name: the name without its suffix. */
  function StemOf(name: string): string
  {
    match LastIndex(name, '.')
    case Some(i) => if 0 < i < |name| - 1 then name[..i] else name
    case None => name
  }

  /** Stem and suffix put back together give the name. */
  lemma StemAndSuffix(name: string)
    ensures StemOf(name) + SuffixOf(name) == name
  {
  }

  function PathStem(path: string): string
  {
    StemOf(Name(path))
  }

  function PathSuffix(path: string): string
  {
    SuffixOf(Name(path))
  }

  // ---------------------------------------------------------------------------
  // Joining

  /** Python's `sep.join(parts)`. */
  function JoinWith(parts: seq<string>, sep: string): string
  {
    if parts == [] then ""
    else if |parts| == 1 then parts[0]
    else parts[0] + sep + JoinWith(parts[1..], sep)
  }

  /** `str(PurePath(dir) / segs[0] / ... / segs[n-1])` for a directory string `dir`. */
  function Under(dir: string, segs: seq<string>): string
  {
    dir + "/" + JoinWith(segs, "/")
  }

  lemma {:induction false} SplitJoined(segs: seq<string>)
    requires |segs| >= 1
    requires forall k :: 0 <= k < |segs| ==> '/' !in segs[k]
    ensures Split(JoinWith(segs, "/")) == segs
  {
    if |segs| == 1 {
      assert FirstIndex(segs[0], '/') == None;
    } else {
      SplitAtSlash(segs[0], JoinWith(segs[1..], "/"));
      SplitJoined(segs[1..]);
    }
  }

  /**
   * Appending proper segments to a directory string appends them to its parts,
   * and the last one becomes the name.
   */
  lemma PartsUnder(dir: string, segs: seq<string>)
    requires |dir| > 0 && |segs| >= 1
    requires forall k :: 0 <= k < |segs| ==> IsSegment(segs[k])
    ensures Parts(Under(dir, segs)) == Parts(dir) + segs
    ensures Name(Under(dir, segs)) == segs[|segs| - 1]
  {
    SplitUnder(dir, segs);
    UnderStart(dir, segs);
    PartsOfComponents(Under(dir, segs), dir, segs);
    NameOfComponents(Under(dir, segs), Components(Split(dir)), segs);
  }

  lemma UnderStart(dir: string, segs: seq<string>)
    requires |dir| > 0
    ensures |Under(dir, segs)| > 0 && Under(dir, segs)[0] == dir[0]
  {
  }

  /** Two paths that agree on their root and differ by trailing components. */
  lemma PartsOfComponents(s: string, dir: string, segs: seq<string>)
    requires |s| > 0 && |dir| > 0 && s[0] == dir[0]
    requires Components(Split(s)) == Components(Split(dir)) + segs
    ensures Parts(s) == Parts(dir) + segs
  {
    var root: seq<string> := if dir[0] == '/' then ["/"] else [];
    assert root + (Components(Split(dir)) + segs) == (root + Components(Split(dir))) + segs;
  }

  lemma NameOfComponents(s: string, above: seq<string>, segs: seq<string>)
    requires |segs| >= 1
    requires Components(Split(s)) == above + segs
    ensures Name(s) == segs[|segs| - 1]
  {
    LastOfAppend(above, segs);
  }

  lemma LastOfAppend(a: seq<string>, b: seq<string>)
    requires |b| >= 1
    ensures (a + b)[|a + b| - 1] == b[|b| - 1]
  {
  }

  lemma SplitUnder(dir: string, segs: seq<string>)
    requires |segs| >= 1
    requires forall k :: 0 <= k < |segs| ==> IsSegment(segs[k])
    ensures Components(Split(Under(dir, segs))) == Components(Split(dir)) + segs
  {
    SplitConcat(dir, JoinWith(segs, "/"));
    SplitJoined(segs);
    ComponentsAppend(Split(dir), segs);
    ComponentsOfSegments(segs);
  }
}

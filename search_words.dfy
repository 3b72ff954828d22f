/**
 * The bounded walk up a path's parents that `_categorize` and `_detect_genres`
 * both perform to build their search text: ancestor names are collected nearest
 * first, skipping empty names and structural folder names, until enough words
 * have been gathered.
 */
module SearchWords {
  import opened Wrappers
  import opened PathText

  /** The names of `names` the walk collects: non-empty, and not in `skip` once lower-cased. */
  function Kept(names: seq<string>, skip: set<string>): (r: seq<string>)
    ensures |r| <= |names|
    ensures forall k :: 0 <= k < |r| ==> r[k] != "" && Lower(r[k]) !in skip && r[k] in names
  {
    if names == [] then []
    else
      var rest := Kept(names[..|names| - 1], skip);
      var n := names[|names| - 1];
      assert forall x :: x in names[..|names| - 1] ==> x in names;
      if n != "" && Lower(n) !in skip then rest + [n] else rest
  }

  /** Each name the walk keeps is admitted, and each admitted name is kept. */
  lemma {:induction false} KeptExactly(names: seq<string>, skip: set<string>, x: string)
    ensures x in Kept(names, skip) <==> (x in names && x != "" && Lower(x) !in skip)
  {
    if names != [] {
      var init := names[..|names| - 1];
      assert names == init + [names[|names| - 1]];
      KeptExactly(init, skip, x);
    }
  }

  /** Collecting over a longer list only extends what was collected. */
  lemma {:induction false} KeptPrefix(names: seq<string>, skip: set<string>, i: nat)
    requires i <= |names|
    ensures Kept(names[..i], skip) <= Kept(names, skip)
    decreases |names| - i
  {
    if i < |names| {
      KeptPrefix(names, skip, i + 1);
      assert names[..i + 1][..i] == names[..i];
    } else {
      assert names[..i] == names;
    }
  }

  lemma TakeOfPrefix<T>(p: seq<T>, s: seq<T>, n: nat)
    requires p <= s && |p| >= n
    ensures Take(p, n) == Take(s, n)
  {
  }

  /** The walk's result: `start`, then kept names until `limit` words are reached. */
  function Collected(start: seq<string>, names: seq<string>, skip: set<string>, limit: nat): (r: seq<string>)
    requires |start| < limit
    ensures |start| < |r| <= limit || r == start
    ensures r[..|start|] == start
  {
    start + Take(Kept(names, skip), limit - |start|)
  }

  /**
   * The loop of both classifiers: append each admitted name, stop once `limit`
   * words are collected.
   */
  method CollectNames(start: seq<string>, names: seq<string>, skip: set<string>, limit: nat)
    returns (words: seq<string>)
    requires |start| < limit
    ensures words == Collected(start, names, skip, limit)
  {
    words := start;
    var i := 0;
    while i < |names| && |words| < limit
      invariant 0 <= i <= |names|
      invariant words == start + Take(Kept(names[..i], skip), limit - |start|)
    {
      var n := names[i];
      assert names[..i + 1][..i] == names[..i];
      if n != "" && Lower(n) !in skip {
        words := words + [n];
      }
      i := i + 1;
    }
    if i < |names| {
      KeptPrefix(names, skip, i);
      TakeOfPrefix(Kept(names[..i], skip), Kept(names, skip), limit - |start|);
    } else {
      assert names[..i] == names;
    }
  }
}

/**
 * Where the organiser keeps its links: the folders `All`, `One_Shots`,
 * `Loops` and `Genres` under `~/Splice-Organized`.
 */
module Layout {
  import opened PathText

  const OrganizedFolder: string := "Splice-Organized"

  /** The link folders, in the order `resync` empties them. */
  const LinkFolders: seq<string> := ["All", "One_Shots", "Loops", "Genres"]

  /** `str(ORGANIZED_DIR / segs[0] / ... )` for the home directory `home`. */
  function OrganizedPath(home: string, segs: seq<string>): string
  {
    Under(home, [OrganizedFolder] + segs)
  }

  /** A path below one of the link folders (what `rglob('*')` there visits). */
  predicate InLinkTree(home: string, p: string)
  {
    exists k :: 0 <= k < |LinkFolders| && OrganizedPath(home, [LinkFolders[k]]) + "/" <= p
  }

  /** The parts of an organised path: the home's, then `Splice-Organized`, then the segments. */
  lemma OrganizedParts(home: string, segs: seq<string>)
    requires |home| > 0
    requires forall k :: 0 <= k < |segs| ==> IsSegment(segs[k])
    ensures Parts(OrganizedPath(home, segs)) == Parts(home) + [OrganizedFolder] + segs
  {
    var all := [OrganizedFolder] + segs;
    assert forall k :: 0 <= k < |all| ==> IsSegment(all[k]);
    PartsUnder(home, all);
  }

  /** Every link the organiser files below a link folder lies in the tree `resync` empties. */
  lemma LinkInTree(home: string, k: nat, segs: seq<string>)
    requires k < |LinkFolders| && |segs| >= 1
    ensures InLinkTree(home, OrganizedPath(home, [LinkFolders[k]] + segs))
  {
    var f := LinkFolders[k];
    assert JoinWith([OrganizedFolder, f] + segs, "/") == OrganizedFolder + "/" + JoinWith([f] + segs, "/");
    assert JoinWith([f] + segs, "/") == f + "/" + JoinWith(segs, "/");
    assert JoinWith([OrganizedFolder, f], "/") == OrganizedFolder + "/" + f;
    assert [OrganizedFolder] + ([f] + segs) == [OrganizedFolder, f] + segs;
    assert OrganizedPath(home, [f]) + "/" <= OrganizedPath(home, [f] + segs);
  }
}

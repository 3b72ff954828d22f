/**
 * The part of the file system the organiser touches, as two sets of paths:
 * those that exist (files and links; directories are not tracked) and those
 * that are symbolic links.
 */
module FileSystem {
  import opened Wrappers
  import opened Layout

  datatype Disk = Disk(entries: set<string>, symlinks: set<string>)

  /**
   * `_create_link`: remove whatever is at `link`, then hard-link the source
   * there, so `link` exists and is no symbolic link.
   */
  function CreateLink(d: Disk, link: string): (r: Disk)
    ensures link in r.entries && link !in r.symlinks
  {
    Disk(d.entries + {link}, d.symlinks - {link})
  }

  /** The links of `links` created one after the other. */
  function CreateLinks(d: Disk, links: seq<string>): Disk
  {
    if links == [] then d
    else CreateLink(CreateLinks(d, links[..|links| - 1]), links[|links| - 1])
  }

  /** After creating the links, each exists as a hard link and nothing else changed. */
  lemma {:induction false} CreateLinksEffect(d: Disk, links: seq<string>)
    ensures CreateLinks(d, links).entries == d.entries + Elems(links)
    ensures CreateLinks(d, links).symlinks == d.symlinks - Elems(links)
  {
    if links != [] {
      var init := links[..|links| - 1];
      CreateLinksEffect(d, init);
      assert Elems(links) == Elems(init) + {links[|links| - 1]};
    }
  }

  /** `if link.is_symlink(): link.unlink()`, and whether it unlinked. */
  function UnlinkIfSymlink(d: Disk, link: string): (Disk, bool)
  {
    if link in d.symlinks then (Disk(d.entries - {link}, d.symlinks - {link}), true)
    else (d, false)
  }

  /** The links of `links` unlinked one after the other where they are symbolic, and how many were. */
  function UnlinkSymlinks(d: Disk, links: seq<string>): (Disk, nat)
  {
    if links == [] then (d, 0)
    else
      var (d1, n) := UnlinkSymlinks(d, links[..|links| - 1]);
      var (d2, gone) := UnlinkIfSymlink(d1, links[|links| - 1]);
      (d2, if gone then n + 1 else n)
  }

  /**
   * Unlinking removes exactly the listed symbolic links and counts each one
   * once; everything else, hard links included, stays.
   */
  lemma {:induction false} UnlinkSymlinksEffect(d: Disk, links: seq<string>)
    ensures UnlinkSymlinks(d, links).0.symlinks == d.symlinks - Elems(links)
    ensures UnlinkSymlinks(d, links).0.entries == d.entries - (d.symlinks * Elems(links))
    ensures UnlinkSymlinks(d, links).1 == |d.symlinks * Elems(links)|
  {
    if links != [] {
      var init := links[..|links| - 1];
      var last := links[|links| - 1];
      UnlinkSymlinksEffect(d, init);
      assert Elems(links) == Elems(init) + {last};
      var d1 := UnlinkSymlinks(d, init).0;
      if last in d1.symlinks {
        assert d.symlinks * Elems(links) == (d.symlinks * Elems(init)) + {last};
        assert last !in d.symlinks * Elems(init);
      } else {
        assert d.symlinks * Elems(links) == d.symlinks * Elems(init);
      }
    }
  }

  /** The tree `resync` empties: every file and link below the link folders goes. */
  function ClearLinkTree(home: string, d: Disk): Disk
  {
    Disk(set p | p in d.entries && !InLinkTree(home, p), set p | p in d.symlinks && !InLinkTree(home, p))
  }
}

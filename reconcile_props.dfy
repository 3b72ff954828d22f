/**
 * What the reconciler's steps promise: the guards of `process_file`, the
 * exact key added and the links it records, `remove_file` and `validate`
 * dropping keys while the hard links they leave stay on disk, and the counts
 * of `initial_sync`, `resync` and `validate`.
 */
module ReconcileProperties {
  import opened Wrappers
  import opened PathText
  import opened Genres
  import opened Layout
  import opened Naming
  import opened FileSystem
  import opened Reconcile

  /** The snapshot after a `process_file` outside dry-run mode. */
  function Processed(cfg: Config, w: Snapshot, source: string): Snapshot
  {
    Process(cfg, false, w, source).1
  }

  /** A well-formed dict has as many keys as its key order has entries. */
  lemma KeyCount(order: seq<string>, files: map<string, seq<string>>)
    requires WellFormed(order, files)
    ensures |files| == |order|
  {
    assert files.Keys == Elems(order);
    DistinctCard(order);
  }

  /**
   * The recorded link list: `All/<name>`, then `<Loops|One_Shots>/<category>/<name>`,
   * then one `Genres/<family>/<genre>/<name>` per genre, or `Genres/Other/<name>`
   * when there is none; so 2 + max(1, #genres) links.
   */
  lemma PlanShape(home: string, c: Classification, name: string)
    ensures |LinkPlan(home, c, name)| == 2 + Max(1, |c.genres|)
    ensures LinkPlan(home, c, name)[0] == AllLink(home, name)
    ensures LinkPlan(home, c, name)[1] == OrganizedPath(home, [TypeFolder(c.isLoop), c.category, name])
    ensures c.genres == [] ==> LinkPlan(home, c, name)[2] == OrganizedPath(home, ["Genres", "Other", name])
    ensures forall i :: 0 <= i < |c.genres| ==>
      LinkPlan(home, c, name)[2 + i] == OrganizedPath(home, ["Genres", c.genres[i].family, c.genres[i].genre, name])
  {
  }

  /**
   * `process_file` returns True exactly when its guards pass, and changes
   * nothing when they fail or in dry-run mode.
   */
  lemma ProcessGuards(cfg: Config, dryRun: bool, w: Snapshot, source: string)
    ensures Process(cfg, dryRun, w, source).0 <==> Admits(w, source)
    ensures !Admits(w, source) || dryRun ==> Process(cfg, dryRun, w, source).1 == w
  {
  }

  /**
   * Committing adds exactly the new key, last in order, with the given links,
   * leaves every other key's list alone, creates each link as a hard link and
   * saves the state.
   */
  lemma CommitAdds(w: Snapshot, source: string, plan: seq<string>)
    requires Valid(w) && source !in w.files
    ensures Valid(Commit(w, source, plan))
    ensures Commit(w, source, plan).order == w.order + [source]
    ensures forall k :: k in Commit(w, source, plan).files <==> k in w.files || k == source
    ensures forall k :: k in w.files ==> Commit(w, source, plan).files[k] == w.files[k]
    ensures Commit(w, source, plan).files[source] == plan
    ensures Commit(w, source, plan).disk.entries == w.disk.entries + Elems(plan)
    ensures Commit(w, source, plan).disk.symlinks == w.disk.symlinks - Elems(plan)
    ensures Commit(w, source, plan).saved == Stored(Commit(w, source, plan).order, Commit(w, source, plan).files)
  {
    CreateLinksEffect(w.disk, plan);
    var r := Commit(w, source, plan);
    assert forall i :: 0 <= i < |w.order| ==> r.order[i] == w.order[i];
  }

  /**
   * A successful `process_file` commits the planned links of 2 + max(1, #genres)
   * entries under the new key.
   */
  lemma ProcessAdds(cfg: Config, w: Snapshot, source: string)
    requires Valid(w) && Admits(w, source)
    ensures Processed(cfg, w, source) == Commit(w, source, PlanFor(cfg, w, source))
    ensures |PlanFor(cfg, w, source)| == 2 + Max(1, |Classify(cfg, source).genres|)
  {
    PlanShape(cfg.home, Classify(cfg, source), NameFor(cfg, w, source));
  }

  /**
   * Idempotent naming: once a sample is processed, `_generate_unique_name`
   * gives it the name it got the first time.
   */
  lemma ProcessKeepsName(cfg: Config, w: Snapshot, source: string)
    requires Valid(w) && Admits(w, source)
    requires !cfg.wordChar('/') && |cfg.home| > 0
    ensures NameFor(cfg, Processed(cfg, w, source), source) == NameFor(cfg, w, source)
  {
    var n := NameFor(cfg, w, source);
    var r := Processed(cfg, w, source);
    FreshNameIsSegment(cfg.wordChar, cfg.contentHash, cfg.home, w.files, w.disk.entries, source);
    PlanShape(cfg.home, Classify(cfg, source), n);
    RecordedSourceKeepsName(cfg.wordChar, cfg.contentHash, cfg.home, r.files, r.disk.entries, source, n);
  }

  /**
   * `remove_file` changes nothing for an unknown source or in dry-run mode;
   * otherwise it drops exactly that key, keeping the order of the others,
   * unlinks its recorded symbolic links (they no longer exist) and leaves
   * every other path, its hard links included, where it was.
   */
  lemma RemoveOutcome(dryRun: bool, w: Snapshot, source: string)
    requires Valid(w)
    ensures source !in w.files || dryRun ==> Remove(dryRun, w, source) == w
    ensures source in w.files && !dryRun ==>
      && Valid(Remove(dryRun, w, source))
      && (forall k :: k in Remove(dryRun, w, source).files <==> k in w.files && k != source)
      && (forall k :: k in Remove(dryRun, w, source).files ==> Remove(dryRun, w, source).files[k] == w.files[k])
      && Remove(dryRun, w, source).order == Drop(w.order, {source})
      && (forall p :: p in w.files[source] ==> p !in Remove(dryRun, w, source).disk.symlinks)
      && (forall p :: p in w.files[source] && p in w.disk.symlinks ==> p !in Remove(dryRun, w, source).disk.entries)
      && (forall p :: p in w.disk.entries && !(p in w.disk.symlinks && p in w.files[source]) ==>
            p in Remove(dryRun, w, source).disk.entries)
      && Remove(dryRun, w, source).saved == Stored(Remove(dryRun, w, source).order, Remove(dryRun, w, source).files)
  {
    if source in w.files && !dryRun {
      UnlinkSymlinksEffect(w.disk, w.files[source]);
    }
  }

  /**
   * Processing a sample and then removing it restores the state map and key
   * order, but its links stay on disk: they are hard links, which
   * `remove_file` does not unlink.
   */
  lemma ProcessThenRemove(cfg: Config, w: Snapshot, source: string)
    requires Valid(w) && Admits(w, source)
    ensures Remove(false, Processed(cfg, w, source), source).order == w.order
    ensures Remove(false, Processed(cfg, w, source), source).files == w.files
    ensures forall p :: p in PlanFor(cfg, w, source) ==> p in Remove(false, Processed(cfg, w, source), source).disk.entries
  {
    ProcessAdds(cfg, w, source);
    CommitThenRemove(w, source, PlanFor(cfg, w, source));
  }

  /** Removing a freshly committed key restores the dict; its hard links stay. */
  lemma CommitThenRemove(w: Snapshot, source: string, plan: seq<string>)
    requires Valid(w) && source !in w.files
    ensures Remove(false, Commit(w, source, plan), source).order == w.order
    ensures Remove(false, Commit(w, source, plan), source).files == w.files
    ensures forall p :: p in plan ==> p in Remove(false, Commit(w, source, plan), source).disk.entries
  {
    var p1 := Commit(w, source, plan);
    assert p1.files[source] == plan;
    assert (w.order + [source])[..|w.order|] == w.order;
    DropAbsent(w.order, {source});
    assert p1.files - {source} == w.files;
    LinkThenUnlink(w.disk, plan);
  }

  /** Unlinking the symbolic ones among links just created leaves every one of them. */
  lemma LinkThenUnlink(d: Disk, links: seq<string>)
    ensures forall p :: p in links ==> p in UnlinkSymlinks(CreateLinks(d, links), links).0.entries
  {
    var d1 := CreateLinks(d, links);
    CreateLinksEffect(d, links);
    UnlinkSymlinksEffect(d1, links);
    assert d1.symlinks * Elems(links) == {};
  }

  /** Dropping keys none of which is present changes nothing. */
  lemma {:induction false} DropAbsent(order: seq<string>, gone: set<string>)
    requires forall x :: x in order ==> x !in gone
    ensures Drop(order, gone) == order
  {
    if order != [] {
      var init := order[..|order| - 1];
      var last := order[|order| - 1];
      assert forall x :: x in init ==> x in order;
      assert last !in gone;
      DropAbsent(init, gone);
      assert init + [last] == order;
    }
  }

  /**
   * The scan of `validate`: it unlinks symbolic links only, counting each
   * once; it marks only scanned keys, every key whose source was already
   * missing, and, for sources that are no symbolic links themselves, exactly
   * the keys whose source is missing.
   */
  lemma {:induction false} ScanEffect(files: map<string, seq<string>>, d: Disk, keys: seq<string>)
    requires forall k :: k in keys ==> k in files
    ensures Scan(files, d, keys).0.symlinks <= d.symlinks
    ensures Scan(files, d, keys).0.entries == d.entries - (d.symlinks - Scan(files, d, keys).0.symlinks)
    ensures Scan(files, d, keys).1 == |d.symlinks - Scan(files, d, keys).0.symlinks|
    ensures forall k :: k in Scan(files, d, keys).2 ==> k in keys
    ensures forall k :: k in keys && k !in d.entries ==> k in Scan(files, d, keys).2
    ensures forall k :: k in keys && k !in d.symlinks ==> (k in Scan(files, d, keys).2 <==> k !in d.entries)
  {
    if keys != [] {
      var init := keys[..|keys| - 1];
      var k := keys[|keys| - 1];
      assert forall x :: x in init ==> x in keys;
      assert forall x :: x in keys ==> x in init || x == k;
      ScanEffect(files, d, init);
      var acc := Scan(files, d, init);
      var d1 := acc.0;
      assert Scan(files, d, keys) == ScanStep(files, acc, k);
      if k !in d1.entries {
        var d2 := UnlinkSymlinks(d1, files[k]).0;
        UnlinkSymlinksEffect(d1, files[k]);
        assert d.symlinks - d2.symlinks == (d.symlinks - d1.symlinks) + (d1.symlinks * Elems(files[k]));
        assert (d.symlinks - d1.symlinks) * (d1.symlinks * Elems(files[k])) == {};
      }
    }
  }

  /**
   * `validate` keeps a well-formed dict whose surviving keys keep their lists,
   * drops every key whose source was missing, returns the number of symbolic
   * links it unlinked, and removes nothing from disk but those links.
   */
  lemma ValidateOutcome(dryRun: bool, w: Snapshot)
    requires Valid(w)
    ensures Valid(Validate(dryRun, w).1)
    ensures forall k :: k in Validate(dryRun, w).1.files ==> k in w.files && Validate(dryRun, w).1.files[k] == w.files[k]
    ensures forall k :: k in w.files && k !in w.disk.entries ==> k !in Validate(dryRun, w).1.files
    ensures Validate(dryRun, w).1.disk.symlinks <= w.disk.symlinks
    ensures Validate(dryRun, w).0 == |w.disk.symlinks - Validate(dryRun, w).1.disk.symlinks|
    ensures Validate(dryRun, w).1.disk.entries == w.disk.entries - (w.disk.symlinks - Validate(dryRun, w).1.disk.symlinks)
    ensures Validate(dryRun, w).1.saved == Save(dryRun, w.saved, Validate(dryRun, w).1.order, Validate(dryRun, w).1.files)
  {
    ScanEffect(w.files, w.disk, w.order);
  }

  /**
   * When no recorded source is itself a symbolic link, `validate` keeps
   * exactly the keys whose source still exists.
   */
  lemma ValidateKeepsExisting(dryRun: bool, w: Snapshot)
    requires Valid(w)
    requires forall k :: k in w.files ==> k !in w.disk.symlinks
    ensures forall k :: k in Validate(dryRun, w).1.files <==> k in w.files && k in w.disk.entries
  {
    ScanEffect(w.files, w.disk, w.order);
  }

  /**
   * Dry-run mode does not stop `validate` from unlinking or from dropping
   * keys; it only leaves the state file unwritten.
   */
  lemma ValidateDryRun(w: Snapshot)
    requires Valid(w)
    ensures Validate(true, w).0 == Validate(false, w).0
    ensures Validate(true, w).1 == Validate(false, w).1.(saved := w.saved)
  {
  }

  /**
   * `initial_sync` outside dry-run mode: the dict stays well formed, old keys
   * keep their lists, new keys are given sources, and the returned count is
   * the number of keys added.
   */
  lemma {:induction false} SyncOutcome(cfg: Config, w: Snapshot, sources: seq<string>)
    requires Valid(w)
    ensures Valid(Sync(cfg, false, w, sources).1)
    ensures |Sync(cfg, false, w, sources).1.order| == |w.order| + Sync(cfg, false, w, sources).0
    ensures Sync(cfg, false, w, sources).0 <= |sources|
    ensures forall k :: k in w.files ==>
      k in Sync(cfg, false, w, sources).1.files && Sync(cfg, false, w, sources).1.files[k] == w.files[k]
    ensures forall k :: k in Sync(cfg, false, w, sources).1.files && k !in w.files ==> k in sources
  {
    if sources != [] {
      var init := sources[..|sources| - 1];
      var s := sources[|sources| - 1];
      SyncOutcome(cfg, w, init);
      assert forall x :: x in init ==> x in sources;
      var w1 := Sync(cfg, false, w, init).1;
      if Admits(w1, s) {
        ProcessAdds(cfg, w1, s);
        CommitAdds(w1, s, PlanFor(cfg, w1, s));
      }
    }
  }

  /** The samples among `sources` that `process_file` would accept from `w`. */
  function AdmittedCount(w: Snapshot, sources: seq<string>): nat
  {
    if sources == [] then 0
    else AdmittedCount(w, sources[..|sources| - 1]) + (if Admits(w, sources[|sources| - 1]) then 1 else 0)
  }

  /**
   * `initial_sync` in dry-run mode changes nothing and counts every source
   * `process_file` would accept, repeats included.
   */
  lemma {:induction false} SyncDryRun(cfg: Config, w: Snapshot, sources: seq<string>)
    ensures Sync(cfg, true, w, sources).1 == w
    ensures Sync(cfg, true, w, sources).0 == AdmittedCount(w, sources)
  {
    if sources != [] {
      SyncDryRun(cfg, w, sources[..|sources| - 1]);
    }
  }

  /** `resync` outside dry-run mode returns the number of keys the rebuilt dict holds. */
  lemma ResyncCount(cfg: Config, w: Snapshot, sources: seq<string>)
    ensures Resync(cfg, false, w, sources).0 == |Resync(cfg, false, w, sources).1.files|
    ensures forall k :: k in Resync(cfg, false, w, sources).1.files ==> k in sources
  {
    var cleared := Snapshot([], map[], ClearLinkTree(cfg.home, w.disk), Stored([], map[]));
    SyncOutcome(cfg, cleared, sources);
    var r := Sync(cfg, false, cleared, sources).1;
    KeyCount(r.order, r.files);
  }

  /**
   * In dry-run mode `resync` still empties the link folders and the in-memory
   * dict; only the state file is left as it was.
   */
  lemma ResyncDryRun(cfg: Config, w: Snapshot, sources: seq<string>)
    ensures Resync(cfg, true, w, sources).1 == Snapshot([], map[], ClearLinkTree(cfg.home, w.disk), w.saved)
  {
    SyncDryRun(cfg, Snapshot([], map[], ClearLinkTree(cfg.home, w.disk), w.saved), sources);
  }

  /** Emptying the link folders removes every link the organiser would have recorded. */
  lemma ClearRemovesPlannedLinks(home: string, d: Disk, c: Classification, name: string)
    ensures forall p :: p in LinkPlan(home, c, name) ==> p !in ClearLinkTree(home, d).entries
  {
    var plan := LinkPlan(home, c, name);
    forall p | p in plan
      ensures InLinkTree(home, p)
    {
      var i :| 0 <= i < |plan| && plan[i] == p;
      PlannedLinkInTree(home, c, name, i);
    }
  }

  /** Each planned link lies under one of the four link folders. */
  lemma PlannedLinkInTree(home: string, c: Classification, name: string, i: nat)
    requires i < |LinkPlan(home, c, name)|
    ensures InLinkTree(home, LinkPlan(home, c, name)[i])
  {
    var k, segs := PlanEntry(home, c, name, i);
    LinkInTree(home, k, segs);
  }

  /** The planned link `i` as a link folder and the segments below it. */
  lemma PlanEntry(home: string, c: Classification, name: string, i: nat) returns (k: nat, segs: seq<string>)
    requires i < |LinkPlan(home, c, name)|
    ensures k < |LinkFolders| && |segs| >= 1
    ensures LinkPlan(home, c, name)[i] == OrganizedPath(home, [LinkFolders[k]] + segs)
  {
    PlanShape(home, c, name);
    if i == 0 {
      k, segs := 0, [name];
      assert [LinkFolders[0]] + [name] == ["All", name];
    } else if i == 1 {
      k, segs := if c.isLoop then 2 else 1, [c.category, name];
      assert [LinkFolders[k]] + segs == [TypeFolder(c.isLoop), c.category, name];
    } else if c.genres == [] {
      k, segs := 3, ["Other", name];
      assert [LinkFolders[3]] + segs == ["Genres", "Other", name];
    } else {
      var t := c.genres[i - 2];
      k, segs := 3, [t.family, t.genre, name];
      assert [LinkFolders[3]] + segs == ["Genres", t.family, t.genre, name];
    }
  }
}

/**
 * `SampleOrganizer`: the state dict `self.state["files"]` (kept as its key
 * order and its map), the disk it links on, and the state file, changed in
 * place by `process_file`, `remove_file`, `validate`, `initial_sync` and
 * `resync`. Each method is proved to perform the step of the same name in
 * module `Reconcile`.
 */
module Organizer {
  import opened Wrappers
  import opened PathText
  import opened LoopType
  import opened Category
  import opened Genres
  import opened Layout
  import opened Naming
  import opened FileSystem
  import opened Reconcile
  import opened ReconcileProperties
  import opened Stats

  class SampleOrganizer {
    const dryRun: bool
    const cfg: Config
    var order: seq<string>
    var files: map<string, seq<string>>
    var disk: Disk
    var saved: StateFile

    /** The object's state as a value. */
    function State(): Snapshot
      reads this
    {
      Snapshot(order, files, disk, saved)
    }

    predicate Valid()
      reads this
    {
      WellFormed(order, files)
    }

    /** `__init__`: load the state file (an empty dict when it is missing or malformed). */
    constructor(dryRun: bool, cfg: Config, disk: Disk, saved: StateFile)
      requires saved.Stored? ==> WellFormed(saved.order, saved.files)
      ensures this.dryRun == dryRun && this.cfg == cfg
      ensures State() == Snapshot(LoadState(saved).0, LoadState(saved).1, disk, saved)
      ensures Valid()
    {
      this.dryRun := dryRun;
      this.cfg := cfg;
      this.disk := disk;
      this.saved := saved;
      match saved {
        case Stored(o, f) =>
          order := o;
          files := f;
        case _ =>
          order := [];
          files := map[];
      }
    }

    /** `_save_state`: write the dict unless in dry-run mode. */
    method SaveState()
      modifies this
      ensures State() == old(State()).(saved := Save(dryRun, old(saved), order, files))
    {
      if !dryRun {
        saved := Stored(order, files);
      }
    }

    /** `_create_link`. */
    method CreateLink(link: string)
      modifies this
      ensures State() == old(State()).(disk := FileSystem.CreateLink(old(disk), link))
    {
      disk := Disk(disk.entries + {link}, disk.symlinks - {link});
    }

    /** The loop of `remove_file` and `validate`: unlink the links that are symbolic, counting them. */
    method UnlinkSymlinksOf(links: seq<string>) returns (count: nat)
      modifies this
      ensures State() == old(State()).(disk := UnlinkSymlinks(old(disk), links).0)
      ensures count == UnlinkSymlinks(old(disk), links).1
    {
      count := 0;
      for j := 0 to |links|
        invariant State() == old(State()).(disk := UnlinkSymlinks(old(disk), links[..j]).0)
        invariant count == UnlinkSymlinks(old(disk), links[..j]).1
      {
        assert links[..j + 1][..j] == links[..j];
        if links[j] in disk.symlinks {
          disk := Disk(disk.entries - {links[j]}, disk.symlinks - {links[j]});
          count := count + 1;
        }
      }
      assert links[..|links|] == links;
    }

    /** The link-creating half of `process_file`. */
    method CreatePlannedLinks(c: Classification, name: string) returns (created: seq<string>)
      modifies this
      ensures created == LinkPlan(cfg.home, c, name)
      ensures State() == old(State()).(disk := CreateLinks(old(disk), created))
    {
      var home := cfg.home;
      var allLink := OrganizedPath(home, ["All", name]);
      CreateLink(allLink);
      created := [allLink];
      assert CreateLinks(old(disk), created) == FileSystem.CreateLink(CreateLinks(old(disk), []), allLink);
      var catLink := if c.isLoop then OrganizedPath(home, ["Loops", c.category, name])
                     else OrganizedPath(home, ["One_Shots", c.category, name]);
      CreateLink(catLink);
      LinksStep(old(disk), created, catLink);
      created := created + [catLink];
      if c.genres != [] {
        created := CreateGenreLinks(old(disk), created, c.genres, name);
      } else {
        var genreLink := OrganizedPath(home, ["Genres", "Other", name]);
        CreateLink(genreLink);
        LinksStep(old(disk), created, genreLink);
        created := created + [genreLink];
      }
    }

    /** The genre loop of `process_file`: one `Genres/<family>/<genre>/` link per detected genre. */
    method CreateGenreLinks(ghost d0: Disk, prefix: seq<string>, genres: seq<Tag>, name: string)
      returns (created: seq<string>)
      requires disk == CreateLinks(d0, prefix)
      modifies this
      ensures created == prefix + GenreLinks(cfg.home, genres, name)
      ensures State() == old(State()).(disk := CreateLinks(d0, created))
    {
      created := prefix;
      for i := 0 to |genres|
        invariant created == prefix + GenreLinks(cfg.home, genres[..i], name)
        invariant State() == old(State()).(disk := CreateLinks(d0, created))
      {
        assert genres[..i + 1][..i] == genres[..i];
        var genreLink := OrganizedPath(cfg.home, ["Genres", genres[i].family, genres[i].genre, name]);
        CreateLink(genreLink);
        LinksStep(d0, created, genreLink);
        created := created + [genreLink];
      }
      assert genres[..|genres|] == genres;
    }

    /** The committing half of `process_file`: the links, the new key, the save. */
    method CommitSample(source: string, c: Classification, name: string)
      requires !dryRun
      modifies this
      ensures State() == Commit(old(State()), source, LinkPlan(cfg.home, c, name))
    {
      var created := CreatePlannedLinks(c, name);
      files := files[source := created];
      order := order + [source];
      SaveState();
    }

    /** `process_file`: the guards, the classifiers, the name, then the links and the new key. */
    method ProcessFile(source: string) returns (processed: bool)
      requires Valid()
      modifies this
      ensures Valid()
      ensures (processed, State()) == Process(cfg, dryRun, old(State()), source)
    {
      ProcessGuards(cfg, dryRun, State(), source);
      if Lower(PathSuffix(source)) != ".wav" {
        return false;
      }
      if source !in disk.entries {
        return false;
      }
      if source in files {
        return false;
      }
      var isLoop := IsLoop(source);
      var category := Categorize(cfg.tax, cfg.matches, source, isLoop);
      var genres := DetectGenres(cfg.tax.genres, cfg.matches, source);
      var name := UniqueName(cfg.wordChar, cfg.contentHash, cfg.home, files, disk.entries, source);
      var c := Classification(isLoop, category, genres);
      assert PlanFor(cfg, State(), source) == LinkPlan(cfg.home, c, name);
      if dryRun {
        return true;
      }
      ProcessAdds(cfg, State(), source);
      CommitAdds(State(), source, LinkPlan(cfg.home, c, name));
      CommitSample(source, c, name);
      return true;
    }

    /** `remove_file`: unlink the source's symbolic links and forget it. */
    method RemoveFile(source: string)
      requires Valid()
      modifies this
      ensures Valid()
      ensures State() == Remove(dryRun, old(State()), source)
    {
      if source !in files {
        return;
      }
      if dryRun {
        return;
      }
      var _ := UnlinkSymlinksOf(files[source]);
      files := files - {source};
      order := Drop(order, {source});
      SaveState();
    }

    /**
     * The first loop of `validate`: unlink the symbolic links of each source
     * that no longer exists and collect those sources.
     */
    method ScanMissing() returns (removed: nat, toRemove: seq<string>)
      requires Valid()
      modifies this
      ensures State() == old(State()).(disk := Scan(old(files), old(disk), old(order)).0)
      ensures removed == Scan(old(files), old(disk), old(order)).1
      ensures toRemove == Scan(old(files), old(disk), old(order)).2
    {
      removed := 0;
      toRemove := [];
      for i := 0 to |order|
        invariant order == old(order) && files == old(files) && saved == old(saved)
        invariant (disk, removed, toRemove) == Scan(files, old(disk), order[..i])
      {
        ScanPrefixStep(files, old(disk), order, i);
        var source := order[i];
        if source !in disk.entries {
          var count := UnlinkSymlinksOf(files[source]);
          removed := removed + count;
          toRemove := toRemove + [source];
        }
      }
      assert order[..|order|] == order;
    }

    /** The second loop of `validate`: `del self.state["files"][source]` for each collected source. */
    method DeleteKeys(toRemove: seq<string>)
      modifies this
      ensures order == Drop(old(order), Elems(toRemove)) && files == old(files) - Elems(toRemove)
      ensures disk == old(disk) && saved == old(saved)
    {
      DeleteNone(order, files, toRemove);
      for i := 0 to |toRemove|
        invariant order == Drop(old(order), Elems(toRemove[..i]))
        invariant files == old(files) - Elems(toRemove[..i])
        invariant disk == old(disk) && saved == old(saved)
      {
        DeleteStep(old(order), old(files), toRemove, i);
        files := files - {toRemove[i]};
        order := Drop(order, {toRemove[i]});
      }
      assert toRemove[..|toRemove|] == toRemove;
    }

    /**
     * `validate`: unlink the symbolic links of every source that no longer
     * exists, then delete those keys; returns the count it logs.
     */
    method Validate() returns (removed: nat)
      requires Valid()
      modifies this
      ensures Valid()
      ensures (removed, State()) == Reconcile.Validate(dryRun, old(State()))
    {
      ReconcileProperties.ValidateOutcome(dryRun, State());
      var toRemove;
      removed, toRemove := ScanMissing();
      DeleteKeys(toRemove);
      SaveState();
    }

    /** `show_stats`, its counting loops: one total per key, one counter per counted link. */
    method ShowStats() returns (stats: Stats)
      requires Valid()
      ensures stats == StatsOf(files, order)
    {
      stats := NoStats;
      for i := 0 to |order|
        invariant stats == StatsOf(files, order[..i])
      {
        StatsPrefixStep(files, order, i);
        stats := CountLinks(stats.(total := stats.total + 1), files[order[i]]);
      }
      assert order[..|order|] == order;
    }

    /** `initial_sync` over the given sources: how many `process_file` accepted. */
    method InitialSync(sources: seq<string>) returns (count: nat)
      requires Valid()
      modifies this
      ensures Valid()
      ensures (count, State()) == Sync(cfg, dryRun, old(State()), sources)
    {
      count := 0;
      for i := 0 to |sources|
        invariant Valid()
        invariant (count, State()) == Sync(cfg, dryRun, old(State()), sources[..i])
      {
        SyncPrefixStep(cfg, dryRun, old(State()), sources, i);
        var ok := ProcessFile(sources[i]);
        if ok {
          count := count + 1;
        }
      }
      assert sources[..|sources|] == sources;
    }

    /** `resync`: empty the link folders, clear and save the dict, then sync again. */
    method Resync(sources: seq<string>) returns (count: nat)
      requires Valid()
      modifies this
      ensures Valid()
      ensures (count, State()) == Reconcile.Resync(cfg, dryRun, old(State()), sources)
    {
      disk := ClearLinkTree(cfg.home, disk);
      order := [];
      files := map[];
      SaveState();
      count := InitialSync(sources);
    }
  }

  /** The inner loop of `show_stats`: count each link of one source. */
  method CountLinks(start: Stats, links: seq<string>) returns (stats: Stats)
    ensures stats == TallyLinks(start, links)
  {
    stats := start;
    for j := 0 to |links|
      invariant stats == TallyLinks(start, links[..j])
    {
      assert links[..j + 1][..j] == links[..j];
      stats := CountLink(stats, links[j]);
    }
    assert links[..|links|] == links;
  }

  /** One more key extends the statistics by that key's total and links. */
  lemma StatsPrefixStep(files: map<string, seq<string>>, keys: seq<string>, i: nat)
    requires i < |keys| && forall k :: k in keys ==> k in files
    ensures forall k :: k in keys[..i] ==> k in files
    ensures StatsOf(files, keys[..i + 1])
      == TallyLinks(StatsOf(files, keys[..i]).(total := StatsOf(files, keys[..i]).total + 1), files[keys[i]])
  {
    assert keys[..i + 1][..i] == keys[..i];
    assert forall k :: k in keys[..i + 1] ==> k in keys;
  }

  /** One pass of the inner loop of `show_stats`: the `if`/`elif` chain on one link. */
  function CountLink(stats: Stats, link: string): (r: Stats)
    ensures r == Tally(stats, link)
  {
    var parts := Parts(link);
    match FirstIndex(parts, OrganizedFolder)
    case None => stats
    case Some(i) =>
      if i + 1 < |parts| then
        var typeFolder := parts[i + 1];
        if typeFolder == "One_Shots" && i + 2 < |parts| then stats.(oneShots := Bump(stats.oneShots, parts[i + 2]))
        else if typeFolder == "Loops" && i + 2 < |parts| then stats.(loops := Bump(stats.loops, parts[i + 2]))
        else if typeFolder == "Genres" && i + 2 < |parts| then
          var parent := parts[i + 2];
          if parent == "Electronic" && i + 3 < |parts| then stats.(electronic := Bump(stats.electronic, parts[i + 3]))
          else if parent == "Live" && i + 3 < |parts| then stats.(live := Bump(stats.live, parts[i + 3]))
          else if parent == "Other" then stats.(untagged := stats.untagged + 1)
          else stats
        else stats
      else stats
  }

  /** Creating one more link extends the fold by that link. */
  lemma LinksStep(d: Disk, links: seq<string>, link: string)
    ensures CreateLinks(d, links + [link]) == FileSystem.CreateLink(CreateLinks(d, links), link)
  {
    assert (links + [link])[..|links|] == links;
  }

  /** One more source extends the sync by one `process_file`. */
  lemma SyncPrefixStep(cfg: Config, dryRun: bool, w: Snapshot, sources: seq<string>, i: nat)
    requires i < |sources|
    ensures Sync(cfg, dryRun, w, sources[..i + 1]) == SyncStep(cfg, dryRun, Sync(cfg, dryRun, w, sources[..i]), sources[i])
  {
    assert sources[..i + 1][..i] == sources[..i];
  }

  /** One more key extends the scan of `validate` by one step. */
  lemma ScanPrefixStep(files: map<string, seq<string>>, d: Disk, keys: seq<string>, i: nat)
    requires i < |keys| && forall k :: k in keys ==> k in files
    ensures forall k :: k in keys[..i] ==> k in files
    ensures Scan(files, d, keys[..i + 1]) == ScanStep(files, Scan(files, d, keys[..i]), keys[i])
  {
    assert keys[..i + 1][..i] == keys[..i];
    assert forall k :: k in keys[..i + 1] ==> k in keys;
  }

  /** Before the deleting loop, nothing is deleted. */
  lemma DeleteNone(order: seq<string>, files: map<string, seq<string>>, keys: seq<string>)
    ensures Drop(order, Elems(keys[..0])) == order && files - Elems(keys[..0]) == files
  {
    assert Elems(keys[..0]) == {};
    DropAbsent(order, {});
    assert files - {} == files;
  }

  /** One pass of the deleting loop deletes one more key. */
  lemma DeleteStep(order: seq<string>, files: map<string, seq<string>>, keys: seq<string>, i: nat)
    requires i < |keys|
    ensures Drop(Drop(order, Elems(keys[..i])), {keys[i]}) == Drop(order, Elems(keys[..i + 1]))
    ensures (files - Elems(keys[..i])) - {keys[i]} == files - Elems(keys[..i + 1])
  {
    assert Elems(keys[..i + 1]) == Elems(keys[..i]) + {keys[i]};
    DropTwice(order, Elems(keys[..i]), keys[i]);
  }

  /** Deleting keys one more at a time is deleting them all. */
  lemma {:induction false} DropTwice(order: seq<string>, gone: set<string>, x: string)
    ensures Drop(Drop(order, gone), {x}) == Drop(order, gone + {x})
  {
    if order != [] {
      var init := order[..|order| - 1];
      DropTwice(init, gone, x);
      var d := Drop(init, gone);
      if order[|order| - 1] !in gone {
        assert (d + [order[|order| - 1]])[..|d|] == d;
      }
    }
  }
}

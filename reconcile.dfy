/**
 * The link-state reconciler of `SampleOrganizer` as functions on snapshots:
 * the state map `files` (source path to its ordered list of link paths) with
 * its key order, the disk, and the saved state file. The class in module
 * `Organizer` is proved to perform exactly these steps.
 */
module Reconcile {
  import opened Wrappers
  import opened PathText
  import opened PatternTables
  import opened LoopType
  import opened Category
  import opened Genres
  import opened Layout
  import opened Naming
  import opened FileSystem

  /**
   * What the organiser takes from its environment: the pattern tables, the
   * regular-expression search, Python's `\w` class, the MD5 prefix of a
   * source's bytes, and the home directory.
   */
  datatype Config = Config(
    tax: Taxonomies,
    matches: Matcher,
    wordChar: char -> bool,
    contentHash: string -> Digest8,
    home: string)

  /** The state file: absent, not valid JSON, or a stored map with its key order. */
  datatype StateFile = Missing | Malformed | Stored(order: seq<string>, files: map<string, seq<string>>)

  /** The Python dict: its keys once each, in insertion order, exactly the map's keys. */
  predicate WellFormed(order: seq<string>, files: map<string, seq<string>>)
  {
    && Distinct(order)
    && (forall k :: k in files ==> k in order)
    && (forall k :: k in order ==> k in files)
  }

  datatype Snapshot = Snapshot(
    order: seq<string>,
    files: map<string, seq<string>>,
    disk: Disk,
    saved: StateFile)

  predicate Valid(w: Snapshot)
  {
    WellFormed(w.order, w.files)
  }

  /** `_load_state`: the stored map, or an empty one when the file is missing or malformed. */
  function LoadState(sf: StateFile): (seq<string>, map<string, seq<string>>)
  {
    match sf
    case Stored(order, files) => (order, files)
    case _ => ([], map[])
  }

  /** `_save_state`: write the map unless in dry-run mode. */
  function Save(dryRun: bool, saved: StateFile, order: seq<string>, files: map<string, seq<string>>): StateFile
  {
    if dryRun then saved else Stored(order, files)
  }

  /** `order` without the keys of `gone`: what deleting them from the dict leaves. */
  function Drop(order: seq<string>, gone: set<string>): (r: seq<string>)
    ensures forall x :: x in r <==> x in order && x !in gone
    ensures Distinct(order) ==> Distinct(r)
  {
    if order == [] then []
    else
      var init := order[..|order| - 1];
      var x := order[|order| - 1];
      assert forall y :: y in init ==> y in order;
      assert Distinct(order) ==> Distinct(init) && x !in init;
      if x in gone then Drop(init, gone) else Drop(init, gone) + [x]
  }

  // ---------------------------------------------------------------------------
  // process_file

  /** The three classifier results for one sample. */
  datatype Classification = Classification(isLoop: bool, category: string, genres: seq<Tag>)

  function Classify(cfg: Config, source: string): Classification
  {
    var isLoop := IsLoopPath(source);
    Classification(
      isLoop,
      CategoryOf(TableFor(cfg.tax, isLoop), cfg.matches, CategoryText(source)),
      GenreTags(cfg.tax.genres, cfg.matches, GenreText(source)))
  }

  function TypeFolder(isLoop: bool): string
  {
    if isLoop then "Loops" else "One_Shots"
  }

  /** One `Genres/<family>/<genre>/<name>` link per detected genre, in order. */
  function GenreLinks(home: string, genres: seq<Tag>, name: string): (r: seq<string>)
    ensures |r| == |genres|
    ensures forall i :: 0 <= i < |r| ==> r[i] == OrganizedPath(home, ["Genres", genres[i].family, genres[i].genre, name])
  {
    if genres == [] then []
    else
      var t := genres[|genres| - 1];
      GenreLinks(home, genres[..|genres| - 1], name) + [OrganizedPath(home, ["Genres", t.family, t.genre, name])]
  }

  /** The link list `process_file` records: `All/`, the type folder, then the genre folders. */
  function LinkPlan(home: string, c: Classification, name: string): seq<string>
  {
    [OrganizedPath(home, ["All", name]), OrganizedPath(home, [TypeFolder(c.isLoop), c.category, name])]
      + (if c.genres == [] then [OrganizedPath(home, ["Genres", "Other", name])] else GenreLinks(home, c.genres, name))
  }

  /** The guards of `process_file`: a `.wav` suffix in any case, an existing source, not yet on record. */
  predicate Admits(w: Snapshot, source: string)
  {
    Lower(PathSuffix(source)) == ".wav" && source in w.disk.entries && source !in w.files
  }

  function NameFor(cfg: Config, w: Snapshot, source: string): string
  {
    UniqueName(cfg.wordChar, cfg.contentHash, cfg.home, w.files, w.disk.entries, source)
  }

  function PlanFor(cfg: Config, w: Snapshot, source: string): seq<string>
  {
    LinkPlan(cfg.home, Classify(cfg, source), NameFor(cfg, w, source))
  }

  /**
   * The committing half of `process_file`: create the links, record them under
   * the new key and save (outside dry-run mode, where only this half runs).
   */
  function Commit(w: Snapshot, source: string, plan: seq<string>): Snapshot
  {
    var order := w.order + [source];
    var files := w.files[source := plan];
    Snapshot(order, files, CreateLinks(w.disk, plan), Stored(order, files))
  }

  /** `process_file`: whether it returns True, and the snapshot afterwards. */
  function Process(cfg: Config, dryRun: bool, w: Snapshot, source: string): (bool, Snapshot)
  {
    if !Admits(w, source) then (false, w)
    else if dryRun then (true, w)
    else (true, Commit(w, source, PlanFor(cfg, w, source)))
  }

  // ---------------------------------------------------------------------------
  // remove_file, validate

  /** `remove_file`: unlink the recorded links that are symbolic, then forget the source. */
  function Remove(dryRun: bool, w: Snapshot, source: string): Snapshot
  {
    if source !in w.files || dryRun then w
    else
      var disk := UnlinkSymlinks(w.disk, w.files[source]).0;
      var order := Drop(w.order, {source});
      var files := w.files - {source};
      Snapshot(order, files, disk, Save(dryRun, w.saved, order, files))
  }

  /**
   * The first loop of `validate` over `keys`: a key whose source no longer
   * exists (on the disk as it is when the key is reached) has its symbolic
   * links unlinked and counted, and is marked for removal.
   */
  function Scan(files: map<string, seq<string>>, d: Disk, keys: seq<string>): (Disk, nat, seq<string>)
    requires forall k :: k in keys ==> k in files
  {
    if keys == [] then (d, 0, [])
    else
      var init := keys[..|keys| - 1];
      assert forall x :: x in init ==> x in keys;
      ScanStep(files, Scan(files, d, init), keys[|keys| - 1])
  }

  /** One key of the scan, given the disk, the count and the marked keys so far. */
  function ScanStep(files: map<string, seq<string>>, acc: (Disk, nat, seq<string>), k: string): (Disk, nat, seq<string>)
    requires k in files
  {
    if k in acc.0.entries then acc
    else (UnlinkSymlinks(acc.0, files[k]).0, acc.1 + UnlinkSymlinks(acc.0, files[k]).1, acc.2 + [k])
  }

  /** `validate`: the number of links it unlinks, and the snapshot afterwards. */
  function Validate(dryRun: bool, w: Snapshot): (nat, Snapshot)
    requires Valid(w)
  {
    var (disk, removed, gone) := Scan(w.files, w.disk, w.order);
    var order := Drop(w.order, Elems(gone));
    var files := w.files - Elems(gone);
    (removed, Snapshot(order, files, disk, Save(dryRun, w.saved, order, files)))
  }

  // ---------------------------------------------------------------------------
  // initial_sync, resync

  /** One pass of the loop of `initial_sync`: process a source, count it if accepted. */
  function SyncStep(cfg: Config, dryRun: bool, acc: (nat, Snapshot), source: string): (nat, Snapshot)
  {
    Advance(acc.0, Process(cfg, dryRun, acc.1, source))
  }

  /** The count goes up by one when `process_file` returned True. */
  function Advance(count: nat, r: (bool, Snapshot)): (nat, Snapshot)
  {
    (if r.0 then count + 1 else count, r.1)
  }

  /** `initial_sync` over the given sources: how many `process_file` accepted, and the snapshot. */
  function Sync(cfg: Config, dryRun: bool, w: Snapshot, sources: seq<string>): (nat, Snapshot)
  {
    if sources == [] then (0, w)
    else SyncStep(cfg, dryRun, Sync(cfg, dryRun, w, sources[..|sources| - 1]), sources[|sources| - 1])
  }

  /** `resync`: empty the link folders, clear and save the state, then sync again. */
  function Resync(cfg: Config, dryRun: bool, w: Snapshot, sources: seq<string>): (nat, Snapshot)
  {
    var cleared := Snapshot([], map[], ClearLinkTree(cfg.home, w.disk), Save(dryRun, w.saved, [], map[]));
    Sync(cfg, dryRun, cleared, sources)
  }
}

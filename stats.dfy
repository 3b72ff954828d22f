/**
 * The counting half of `SampleOrganizer.show_stats`: one total per source and,
 * per recorded link, at most one counter chosen by the path segments after
 * `Splice-Organized`.
 */
module Stats {
  import opened Wrappers
  import opened PathText
  import opened Genres
  import opened Layout
  import opened Naming
  import opened Reconcile
  import opened ReconcileProperties

  /** The counter a link feeds. */
  datatype Bucket =
    | OneShotBucket(category: string)
    | LoopBucket(category: string)
    | ElectronicBucket(genre: string)
    | LiveBucket(genre: string)
    | UntaggedBucket

  /** The `if`/`elif` chain on the parts after `Splice-Organized`. */
  function BucketAfter(rest: seq<string>): Option<Bucket>
  {
    if |rest| == 0 then None
    else if rest[0] == "One_Shots" && |rest| > 1 then Some(OneShotBucket(rest[1]))
    else if rest[0] == "Loops" && |rest| > 1 then Some(LoopBucket(rest[1]))
    else if rest[0] == "Genres" && |rest| > 1 then
      if rest[1] == "Electronic" && |rest| > 2 then Some(ElectronicBucket(rest[2]))
      else if rest[1] == "Live" && |rest| > 2 then Some(LiveBucket(rest[2]))
      else if rest[1] == "Other" then Some(UntaggedBucket)
      else None
    else None
  }

  /** The counter of a link path; none when it has no `Splice-Organized` part. */
  function BucketOf(link: string): Option<Bucket>
  {
    var parts := Parts(link);
    match FirstIndex(parts, OrganizedFolder)
    case None => None
    case Some(i) => BucketAfter(parts[i + 1..])
  }

  datatype Stats = Stats(
    oneShots: map<string, nat>,
    loops: map<string, nat>,
    electronic: map<string, nat>,
    live: map<string, nat>,
    untagged: nat,
    total: nat)

  const NoStats := Stats(map[], map[], map[], map[], 0, 0)

  /** `d.get(key, 0)`. */
  function Get(m: map<string, nat>, key: string): nat
  {
    if key in m then m[key] else 0
  }

  /** `d[key] = d.get(key, 0) + 1`. */
  function Bump(m: map<string, nat>, key: string): map<string, nat>
  {
    m[key := Get(m, key) + 1]
  }

  /** The value of one counter. */
  function Count(s: Stats, b: Bucket): nat
  {
    match b
    case OneShotBucket(c) => Get(s.oneShots, c)
    case LoopBucket(c) => Get(s.loops, c)
    case ElectronicBucket(g) => Get(s.electronic, g)
    case LiveBucket(g) => Get(s.live, g)
    case UntaggedBucket => s.untagged
  }

  /** One increment of one counter. */
  function Add(s: Stats, b: Bucket): Stats
  {
    match b
    case OneShotBucket(c) => s.(oneShots := Bump(s.oneShots, c))
    case LoopBucket(c) => s.(loops := Bump(s.loops, c))
    case ElectronicBucket(g) => s.(electronic := Bump(s.electronic, g))
    case LiveBucket(g) => s.(live := Bump(s.live, g))
    case UntaggedBucket => s.(untagged := s.untagged + 1)
  }

  /** The counts of one link. */
  function Tally(s: Stats, link: string): Stats
  {
    match BucketOf(link)
    case None => s
    case Some(b) => Add(s, b)
  }

  function TallyLinks(s: Stats, links: seq<string>): Stats
  {
    if links == [] then s
    else Tally(TallyLinks(s, links[..|links| - 1]), links[|links| - 1])
  }

  /** The statistics over the keys `keys` of the dict, in the dict's order. */
  function StatsOf(files: map<string, seq<string>>, keys: seq<string>): Stats
    requires forall k :: k in keys ==> k in files
  {
    if keys == [] then NoStats
    else
      var init := keys[..|keys| - 1];
      assert forall x :: x in init ==> x in keys;
      var s := StatsOf(files, init);
      TallyLinks(s.(total := s.total + 1), files[keys[|keys| - 1]])
  }

  // ---------------------------------------------------------------------------
  // A reference count: links per bucket

  /** How many of `links` belong to bucket `b`. */
  function LinksIn(links: seq<string>, b: Bucket): nat
  {
    if links == [] then 0
    else LinksIn(links[..|links| - 1], b) + (if BucketOf(links[|links| - 1]) == Some(b) then 1 else 0)
  }

  /** How many links recorded for `keys` belong to bucket `b`. */
  function RecordedIn(files: map<string, seq<string>>, keys: seq<string>, b: Bucket): nat
    requires forall k :: k in keys ==> k in files
  {
    if keys == [] then 0
    else
      var init := keys[..|keys| - 1];
      assert forall x :: x in init ==> x in keys;
      RecordedIn(files, init, b) + LinksIn(files[keys[|keys| - 1]], b)
  }

  /** An increment raises its own counter by one and no other. */
  lemma AddCounts(s: Stats, b: Bucket, other: Bucket)
    ensures Count(Add(s, b), other) == Count(s, other) + (if b == other then 1 else 0)
    ensures Add(s, b).total == s.total
  {
  }

  /** Tallying links raises each counter by the number of links in its bucket. */
  lemma {:induction false} TallyLinksCounts(s: Stats, links: seq<string>, b: Bucket)
    ensures Count(TallyLinks(s, links), b) == Count(s, b) + LinksIn(links, b)
    ensures TallyLinks(s, links).total == s.total
  {
    if links != [] {
      var init := links[..|links| - 1];
      TallyLinksCounts(s, init, b);
      var bucket := BucketOf(links[|links| - 1]);
      if bucket.Some? {
        AddCounts(TallyLinks(s, init), bucket.value, b);
      }
    }
  }

  /**
   * `show_stats` counts: `Total` is the number of keys, and every counter holds
   * the number of recorded links in its bucket (so each link counts at most once).
   */
  lemma {:induction false} StatsCounts(files: map<string, seq<string>>, keys: seq<string>, b: Bucket)
    requires forall k :: k in keys ==> k in files
    ensures StatsOf(files, keys).total == |keys|
    ensures Count(StatsOf(files, keys), b) == RecordedIn(files, keys, b)
  {
    if keys != [] {
      var init := keys[..|keys| - 1];
      assert forall x :: x in init ==> x in keys;
      StatsCounts(files, init, b);
      var s := StatsOf(files, init);
      TallyLinksCounts(s.(total := s.total + 1), files[keys[|keys| - 1]], b);
    }
  }

  /** For the organiser's dict, `Total` is the number of samples on record. */
  lemma TotalIsKeyCount(w: Snapshot)
    requires Valid(w)
    ensures StatsOf(w.files, w.order).total == |w.files|
  {
    StatsCounts(w.files, w.order, UntaggedBucket);
    KeyCount(w.order, w.files);
  }

  /**
   * An organised path below a home without a `Splice-Organized` part is
   * counted by the segments after it.
   */
  lemma BucketOfOrganized(home: string, segs: seq<string>)
    requires |home| > 0 && OrganizedFolder !in Parts(home)
    requires forall k :: 0 <= k < |segs| ==> IsSegment(segs[k])
    ensures BucketOf(OrganizedPath(home, segs)) == BucketAfter(segs)
  {
    OrganizedParts(home, segs);
    var parts := Parts(OrganizedPath(home, segs));
    assert parts == Parts(home) + ([OrganizedFolder] + segs);
    FirstIndexAfter(Parts(home), [OrganizedFolder] + segs, OrganizedFolder);
    assert parts[|Parts(home)| + 1..] == segs;
  }

  /** A path without a `Splice-Organized` part counts nowhere. */
  lemma UnorganizedCountsNowhere(link: string)
    requires OrganizedFolder !in Parts(link)
    ensures BucketOf(link) == None
  {
  }

  /** The counter of a genre link. */
  function TagBucket(t: Tag): Option<Bucket>
  {
    if t.family == "Electronic" then Some(ElectronicBucket(t.genre))
    else if t.family == "Live" then Some(LiveBucket(t.genre))
    else if t.family == "Other" then Some(UntaggedBucket)
    else None
  }

  /** All the segments a classification and a name put into link paths. */
  predicate SegmentsOf(c: Classification, name: string)
  {
    && IsSegment(name) && IsSegment(c.category)
    && forall i :: 0 <= i < |c.genres| ==> IsSegment(c.genres[i].family) && IsSegment(c.genres[i].genre)
  }

  /** An `All/` link counts nowhere. */
  lemma AllLinkBucket(home: string, name: string)
    requires |home| > 0 && OrganizedFolder !in Parts(home) && IsSegment(name)
    ensures BucketOf(OrganizedPath(home, ["All", name])) == None
  {
    BucketOfOrganized(home, ["All", name]);
  }

  /** A type link is counted under its category, as a loop or as a one-shot. */
  lemma TypeLinkBucket(home: string, isLoop: bool, category: string, name: string)
    requires |home| > 0 && OrganizedFolder !in Parts(home) && IsSegment(category) && IsSegment(name)
    ensures BucketOf(OrganizedPath(home, [TypeFolder(isLoop), category, name]))
      == Some(if isLoop then LoopBucket(category) else OneShotBucket(category))
  {
    BucketOfOrganized(home, [TypeFolder(isLoop), category, name]);
  }

  /** A `Genres/Other/` link is counted as untagged. */
  lemma UntaggedLinkBucket(home: string, name: string)
    requires |home| > 0 && OrganizedFolder !in Parts(home) && IsSegment(name)
    ensures BucketOf(OrganizedPath(home, ["Genres", "Other", name])) == Some(UntaggedBucket)
  {
    BucketOfOrganized(home, ["Genres", "Other", name]);
  }

  /** A genre link is counted under its genre, or as untagged in `Genres/Other`. */
  lemma GenreLinkBucket(home: string, t: Tag, name: string)
    requires |home| > 0 && OrganizedFolder !in Parts(home)
    requires IsSegment(t.family) && IsSegment(t.genre) && IsSegment(name)
    ensures BucketOf(OrganizedPath(home, ["Genres", t.family, t.genre, name])) == TagBucket(t)
  {
    BucketOfOrganized(home, ["Genres", t.family, t.genre, name]);
  }

  /**
   * Where a processed sample's links are counted: its `All/` link nowhere,
   * its type link under its category, and each genre link under its genre
   * (or as untagged when no genre was found).
   */
  lemma PlanBuckets(home: string, c: Classification, name: string)
    requires |home| > 0 && OrganizedFolder !in Parts(home)
    requires SegmentsOf(c, name)
    ensures BucketOf(LinkPlan(home, c, name)[0]) == None
    ensures BucketOf(LinkPlan(home, c, name)[1])
      == Some(if c.isLoop then LoopBucket(c.category) else OneShotBucket(c.category))
    ensures c.genres == [] ==> BucketOf(LinkPlan(home, c, name)[2]) == Some(UntaggedBucket)
    ensures forall i :: 0 <= i < |c.genres| ==> BucketOf(LinkPlan(home, c, name)[2 + i]) == TagBucket(c.genres[i])
  {
    PlanShape(home, c, name);
    AllLinkBucket(home, name);
    TypeLinkBucket(home, c.isLoop, c.category, name);
    if c.genres == [] {
      UntaggedLinkBucket(home, name);
    }
    forall i | 0 <= i < |c.genres|
      ensures BucketOf(LinkPlan(home, c, name)[2 + i]) == TagBucket(c.genres[i])
    {
      GenreLinkBucket(home, c.genres[i], name);
    }
  }

  /** Statistics read only the lists of the keys they visit. */
  lemma {:induction false} StatsOfAgree(files: map<string, seq<string>>, other: map<string, seq<string>>, keys: seq<string>)
    requires forall k :: k in keys ==> k in files && k in other && files[k] == other[k]
    ensures StatsOf(files, keys) == StatsOf(other, keys)
  {
    if keys != [] {
      var init := keys[..|keys| - 1];
      assert forall x :: x in init ==> x in keys;
      StatsOfAgree(files, other, init);
    }
  }

  /**
   * After a successful `process_file`, the statistics are the old ones with
   * one more sample and the new links tallied.
   */
  lemma StatsAfterProcess(cfg: Config, w: Snapshot, source: string)
    requires Valid(w) && Admits(w, source)
    ensures StatsOf(Processed(cfg, w, source).files, Processed(cfg, w, source).order)
      == TallyLinks(StatsOf(w.files, w.order).(total := |w.order| + 1), PlanFor(cfg, w, source))
  {
    ProcessAdds(cfg, w, source);
    StatsAfterCommit(w, source, PlanFor(cfg, w, source));
  }

  lemma StatsAfterCommit(w: Snapshot, source: string, plan: seq<string>)
    requires Valid(w) && source !in w.files
    ensures StatsOf(Commit(w, source, plan).files, Commit(w, source, plan).order)
      == TallyLinks(StatsOf(w.files, w.order).(total := |w.order| + 1), plan)
  {
    StatsAppend(w.files, w.order, source, plan);
  }

  /** A key appended to the dict adds one sample and its links to the statistics. */
  lemma StatsAppend(files: map<string, seq<string>>, order: seq<string>, source: string, links: seq<string>)
    requires forall k :: k in order ==> k in files
    requires source !in order
    ensures StatsOf(files[source := links], order + [source])
      == TallyLinks(StatsOf(files, order).(total := |order| + 1), links)
  {
    var files2 := files[source := links];
    var order2 := order + [source];
    assert order2[..|order2| - 1] == order;
    StatsOfAgree(files2, files, order);
    StatsCounts(files, order, UntaggedBucket);
  }
}

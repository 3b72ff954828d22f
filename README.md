# splice-organizer, modelled in Dafny

The model covers the core of `SampleOrganizer` from `splice_organizer.py`. This class takes the `.wav` samples that Splice downloads under `~/Splice/sounds/packs/` and files each one, as hard links, in a browsable tree under `~/Splice-Organized/`:

- `All/<name>`;
- `One_Shots/<category>/<name>` or `Loops/<category>/<name>`;
- one `Genres/<family>/<genre>/<name>` per detected genre, or `Genres/Other/<name>` when none is detected.

A state dict (`self.state["files"]`) maps each source path to the list of links recorded for it.

The model has two halves.

- **The path-text classifiers.** Each is a method written with the source's loops and early returns, and each is proved equal to a specification function. Lemmas then state that function's rules:
  - `LoopType.IsLoop` (`_is_loop`);
  - `Category.Categorize` (`_categorize`);
  - `Genres.DetectGenres` (`_detect_genres`);
  - `Naming.UniqueName` (`_generate_unique_name`, straight-line code, hence a function).

  The search-word walk both classifiers share is `SearchWords.CollectNames`. The pattern tables are ordered data in `PatternTables`. A regular-expression search is an injected `Matcher`.
- **The link-state reconciler.** The class `Organizer.SampleOrganizer` holds four fields:
  - the dict, as its key order plus a map;
  - the disk, as the paths that exist and those that are symbolic links;
  - the state file;
  - the dry-run flag.

  Its methods `ProcessFile`, `RemoveFile`, `Validate`, `InitialSync` and `Resync` update these fields in place with the source's loops. Each is proved to produce exactly the new state that a function of module `Reconcile` gives for the old one. `ShowStats` only reads the dict, and is proved to return `Stats.StatsOf` of it in its order. The properties of those functions are proved in `ReconcileProperties` and `Stats`.

Python dicts iterate in insertion order. The model therefore keeps the dict's key order beside the map, and every loop over the dict walks that order.

Everything outside the program's own logic is a parameter, gathered in `Reconcile.Config`:
- the tables;
- the matcher;
- the word-character class of `\w`;
- the MD5 content digest;
- the home directory.

## Model

| member | source | states |
|---|---|---|
| LoopType.IsLoop | splice_organizer.py:286-313 | The loop-folder scan, then the one-shot scan, then the stem tests, with early returns, compute exactly `IsLoopPath`. |
| LoopType.LoopFolderWins | splice_organizer.py:291-300 | A directory whose lower-cased name is a loop folder makes the sample a loop, whatever else the path says. |
| LoopType.OneShotFolderBeatsStem | splice_organizer.py:295-303 | Without a loop folder, a one-shot folder makes the sample a one-shot even when its stem holds `_loop`. |
| LoopType.LoopTokenInStem | splice_organizer.py:305-308 | Without folder indicators, a `_loop` or `loop_` token in the lower-cased stem makes a loop. |
| LoopType.BpmPrefixMakesLoop | splice_organizer.py:309-311 | Without folder indicators, every lower-cased stem matching `^\d{2,3}_` makes a loop. |
| LoopType.BpmPrefixShapes | splice_organizer.py:310 | The BPM pattern accepts two or three leading digits before `_`, and rejects one digit or four. |
| LoopType.DefaultIsOneShot | splice_organizer.py:313 | With no indicator at all, the sample is a one-shot. |
| LoopType.DrumLoopExample | splice_organizer.py:291-300 | A sample below a `Loops` folder of a pack is a loop. |
| SearchWords.Kept | splice_organizer.py:324-327 | The ancestor names the walk keeps are non-empty, not structural once lower-cased, taken from the walk, and no more than the walk visits. |
| SearchWords.KeptExactly | splice_organizer.py:325-327 | A name is kept exactly when it is an ancestor name, non-empty and not in the skip set. |
| SearchWords.CollectNames | splice_organizer.py:321-329 | The bounded walk over the parents, stopping once the limit is reached, yields the start words followed by the kept names, capped at the limit. |
| Category.CategoryWords | splice_organizer.py:321-329 | The search words are the stem, then up to four kept ancestor names, five at most. |
| Category.FirstMatch | splice_organizer.py:335-338 | The position found is the earliest rule with a matching pattern; none is found only when no rule matches. |
| Category.CategoryOf | splice_organizer.py:333-340 | The category is a key of the consulted table, or "Other". |
| Category.Categorize | splice_organizer.py:315-340 | The nested loop with an early return yields the key of the first matching rule of the loop or one-shot table, else "Other". |
| Category.EarliestMatchWins | splice_organizer.py:335-338 | When rule `i` matches and no earlier rule does, its key is the category, however many later rules match. |
| Category.OtherMeansNoMatch | splice_organizer.py:340 | For a table with no rule keyed "Other", the result is "Other" exactly when no rule matches. |
| Category.KickExample | splice_organizer.py:27-29 | With the program's one-shot table, text matching the first "Kicks" pattern is filed under "Kicks", and so is a one-shot under the program's taxonomies. |
| PatternTables.AnyPatternMatches | splice_organizer.py:336-337 | The pattern loop reports a hit exactly when some pattern of the list matches. |
| Genres.PackWords | splice_organizer.py:350-360 | The pack name, and the part after it when there is one, are searched only when a "packs" part with a successor exists. |
| Genres.GenreWords | splice_organizer.py:348-367 | The genre search words start with the pack words and number six at most. |
| Genres.TagsMeaning | splice_organizer.py:372-379 | A pair is collected exactly when some rule of that pair hits, and pairs appear in the order of their first hitting rule. |
| Genres.TagsMembership | splice_organizer.py:372-378 | A pair is collected exactly when one of its rules has a matching pattern. |
| Genres.TagsDistinct | splice_organizer.py:377-378 | No pair is collected twice. |
| Genres.GenreTagsMeaning | splice_organizer.py:342-381 | The detected genres have no duplicates, contain only pairs declared in the genre table, and contain a pair exactly when one of its patterns matches. |
| Genres.FlattenDeclared | splice_organizer.py:372-373 | Every rule of the flattened genre table carries a declared (family, genre) pair. |
| Genres.ScanFamily | splice_organizer.py:373-379 | The loop over one family's genres appends, in order, each pair that hits and is new. |
| Genres.DetectGenres | splice_organizer.py:342-381 | The triple loop over families, genres and patterns, with `break` and the duplicate test, yields exactly `GenreTags` of the search text. |
| Genres.TechnoExample | splice_organizer.py:78-80 | With the program's genre table, text matching "techno" is tagged (Electronic, Techno). |
| Naming.PackNameAfterPacks | splice_organizer.py:385-388 | The pack name is the part right after the first "packs" part. |
| Naming.PackNameUnknown | splice_organizer.py:389-390 | Without a "packs" part that has a successor, the pack name is "Unknown". |
| Naming.SafePackShape | splice_organizer.py:393 | The sanitised pack has the length of the pack name capped at 30, and each of its characters is the pack's character when that is a word character or '-', else '_'. |
| Naming.SafePackKeepsCleanName | splice_organizer.py:393 | A pack name of at most 30 word characters and dashes is kept as it is. |
| Naming.FreshSourceGetsBaseName | splice_organizer.py:394-399 | A source not on record whose `All/` target is absent gets `safe_pack + "__" + stem + suffix`. |
| Naming.CollisionGetsHashedName | splice_organizer.py:396-409 | A source not on record whose plain name is taken gets the hash-suffixed name, which differs from the plain name. |
| Naming.HashedDiffersFromBase | splice_organizer.py:394-409 | The hashed name is nine characters longer than the plain name. |
| Naming.RecordedSourceKeepsName | splice_organizer.py:401-405 | A source on record whose first link is `All/<n>` gets `n` back, whatever is on disk. |
| Naming.FreshNameIsSegment | splice_organizer.py:393-409 | A new source's name is one path segment: non-empty, not ".", and free of '/'. |
| ReconcileProperties.PlanShape | splice_organizer.py:223-249 | The recorded list is `All/<name>`, then the type folder's category link, then one genre link per genre or `Genres/Other/<name>`, so 2 + max(1, #genres) links. |
| ReconcileProperties.ProcessGuards | splice_organizer.py:186-220 | `process_file` returns True exactly when the suffix is `.wav` in any case, the source exists and is not on record. It changes nothing when a guard fails or in dry-run mode. |
| ReconcileProperties.CommitAdds | splice_organizer.py:222-253 | Committing keeps the dict well formed, adds exactly the new key last with the planned links, leaves every other list alone, creates each link as a hard link, and saves. |
| ReconcileProperties.ProcessAdds | splice_organizer.py:198-253 | A successful `process_file` commits the plan of the classifications and the unique name, which has 2 + max(1, #genres) links. |
| ReconcileProperties.ProcessKeepsName | splice_organizer.py:401-405 | Once a sample is processed, `_generate_unique_name` gives it the same name again. |
| ReconcileProperties.RemoveOutcome | splice_organizer.py:259-277 | An unknown source or dry-run mode changes nothing. Otherwise exactly that key goes, the other keys keep their lists, its symbolic links are unlinked and no longer exist, every other path stays, the other keys keep their order, and the state is saved. |
| ReconcileProperties.ProcessThenRemove | splice_organizer.py:184-284 | Processing then removing a sample restores the dict and its order, but leaves all its links on disk, because they are hard links. |
| ReconcileProperties.CommitThenRemove | splice_organizer.py:251-277 | Removing a freshly committed key restores the dict and its order, and the new links stay. |
| ReconcileProperties.LinkThenUnlink | splice_organizer.py:270-284 | Unlinking the symbolic links among links just created leaves every one of them. |
| ReconcileProperties.ScanEffect | splice_organizer.py:524-533 | The scan unlinks symbolic links only and counts each once. It marks only dict keys, always marks a key whose source was already missing, and, for sources that are not symbolic links, marks exactly the missing ones. |
| ReconcileProperties.ValidateOutcome | splice_organizer.py:517-539 | `validate` keeps the dict well formed, surviving keys keep their lists, every missing source is dropped, the count is the number of symbolic links unlinked, and nothing else leaves the disk. |
| ReconcileProperties.ValidateKeepsExisting | splice_organizer.py:524-536 | When no recorded source is itself a symbolic link, `validate` keeps exactly the keys whose source still exists. |
| ReconcileProperties.ValidateDryRun | splice_organizer.py:517-538 | In dry-run mode `validate` unlinks and drops the same as otherwise; only the state file is left unwritten. |
| ReconcileProperties.SyncOutcome | splice_organizer.py:411-430 | Outside dry-run mode, `initial_sync` keeps the dict well formed, keeps old keys' lists, adds only given sources, and returns the number of keys added, at most the number of sources. |
| ReconcileProperties.SyncDryRun | splice_organizer.py:411-430 | In dry-run mode `initial_sync` changes nothing and counts every source `process_file` would accept. |
| ReconcileProperties.ResyncCount | splice_organizer.py:432-449 | Outside dry-run mode `resync` returns the number of keys of the rebuilt dict, all of them given sources. |
| ReconcileProperties.ResyncDryRun | splice_organizer.py:432-449 | In dry-run mode `resync` still empties the link folders and the dict; only the state file stays as it was. |
| ReconcileProperties.ClearRemovesPlannedLinks | splice_organizer.py:437-442 | Emptying the four link folders removes every link `process_file` would record. |
| ReconcileProperties.KeyCount | splice_organizer.py:462-463 | A well-formed dict has as many keys as its key order has entries. |
| FileSystem.CreateLinksEffect | splice_organizer.py:279-284 | Creating links makes each of them an existing path and no longer a symbolic link. |
| FileSystem.UnlinkSymlinksEffect | splice_organizer.py:528-532 | Unlinking removes exactly the listed paths that are symbolic links and counts them. |
| Stats.StatsCounts | splice_organizer.py:462-493 | `Total` is the number of keys, and every counter holds the number of recorded links in its bucket, so each link counts at most once. |
| Stats.TallyLinksCounts | splice_organizer.py:464-490 | Tallying a link list raises each counter by the number of its links in that bucket. |
| Stats.AddCounts | splice_organizer.py:473-490 | One increment raises its own counter by one and no other. |
| Stats.TotalIsKeyCount | splice_organizer.py:462-463 | For the organiser's dict, `Total` is the number of samples on record. |
| Stats.BucketOfOrganized | splice_organizer.py:466-493 | A link under the organised folder is bucketed by the parts after `Splice-Organized`. |
| Stats.UnorganizedCountsNowhere | splice_organizer.py:468-492 | A link with no `Splice-Organized` part counts nowhere. |
| Stats.AllLinkBucket | splice_organizer.py:470-490 | An `All/` link counts nowhere. |
| Stats.TypeLinkBucket | splice_organizer.py:473-479 | A type link counts under its category, as a loop or as a one-shot. |
| Stats.UntaggedLinkBucket | splice_organizer.py:481-490 | A `Genres/Other/` link counts as untagged. |
| Stats.GenreLinkBucket | splice_organizer.py:481-490 | A genre link counts under its genre when the family is Electronic or Live, as untagged when it is Other, and otherwise nowhere. |
| Stats.PlanBuckets | splice_organizer.py:462-490 | Of a processed sample's links, `All/` counts nowhere, the type link counts under its category, and each genre link counts under its genre, or as untagged. |
| Stats.StatsAfterProcess | splice_organizer.py:462-490 | After a successful `process_file`, the statistics are the old ones plus one sample and its new links. |
| Stats.StatsAppend | splice_organizer.py:462-490 | A key appended to the dict adds one sample and its links to the statistics. |
| Stats.StatsOfAgree | splice_organizer.py:462-464 | The statistics read only the lists of the keys they visit. |
| Organizer.CountLink | splice_organizer.py:465-493 | The `if`/`elif` chain on one link is the tally of that link's bucket. |
| Organizer.CountLinks | splice_organizer.py:464-490 | The inner loop of `show_stats` tallies every link of one source. |
| Organizer.SampleOrganizer.constructor | splice_organizer.py:147-177 | The dict is the stored one, or empty when the state file is missing or malformed. |
| Organizer.SampleOrganizer.SaveState | splice_organizer.py:179-182 | The state file is written with the dict, except in dry-run mode. |
| Organizer.SampleOrganizer.CreateLink | splice_organizer.py:279-284 | An existing entry at the link path is replaced by a hard link. |
| Organizer.SampleOrganizer.UnlinkSymlinksOf | splice_organizer.py:270-273 | Only the listed links that are symbolic are unlinked, and they are counted. |
| Organizer.SampleOrganizer.CreatePlannedLinks | splice_organizer.py:222-249 | The links are created in order and the list of recorded links equals the plan. |
| Organizer.SampleOrganizer.CreateGenreLinks | splice_organizer.py:240-244 | One genre link per detected genre, in order. |
| Organizer.SampleOrganizer.CommitSample | splice_organizer.py:222-253 | Creating the links, recording them and saving is the commit of the plan. |
| Organizer.SampleOrganizer.ProcessFile | splice_organizer.py:184-257 | The return value and the new state are those of `Reconcile.Process`, and the dict stays well formed. |
| Organizer.SampleOrganizer.RemoveFile | splice_organizer.py:259-277 | The new state is that of `Reconcile.Remove`. |
| Organizer.SampleOrganizer.ScanMissing | splice_organizer.py:522-533 | The first loop of `validate` yields the scan's disk, count and marked keys, and changes nothing else. |
| Organizer.SampleOrganizer.DeleteKeys | splice_organizer.py:535-536 | The second loop deletes exactly the marked keys from the dict and its order. |
| Organizer.SampleOrganizer.Validate | splice_organizer.py:517-539 | The count and the new state are those of `Reconcile.Validate`. |
| Organizer.SampleOrganizer.ShowStats | splice_organizer.py:451-493 | The counters are `Stats.StatsOf` of the dict in its order. |
| Organizer.SampleOrganizer.InitialSync | splice_organizer.py:411-430 | The count and the new state are those of `Reconcile.Sync` over the given sources. |
| Organizer.SampleOrganizer.Resync | splice_organizer.py:432-449 | The count and the new state are those of `Reconcile.Resync`. |

## Left out

- The watchdog observer, `SpliceEventHandler`, threading, `argparse`, `main` and logging are not modelled. They are control flow and I/O around the core.
- Reading and writing JSON is not modelled. The state file is a value that is `Missing`, `Malformed` or `Stored`, and `_save_state` stores the dict unless in dry-run mode. `Malformed` stands for the `json.JSONDecodeError` branch only. A file that is valid JSON but has no `"files"` mapping of lists is not modelled, because `Stored` cannot hold one; the program fails on it later, at its first use of `self.state["files"]`.
- `_ensure_directories` is not modelled: creating directories is I/O, and links whose directory would be missing are not a case of this model.
- The regular-expression engine is not modelled. `re.search(pattern, text, re.IGNORECASE)` is the injected `Matcher`, and `\w` is the injected `wordChar`. The `^\d{2,3}_` test of `_is_loop` is written out, with ASCII digits only.
- MD5 is not modelled. The first eight hex characters of a file's digest are the injected `contentHash`.
- `str.lower()` is modelled for ASCII letters only; there is no Unicode case mapping.
- Discovery with `rglob` is not modelled. `initial_sync` and `resync` take the list of found `.wav` files as a parameter, and `resync` removes every path below the four link folders in one step (`FileSystem.ClearLinkTree`). Its removal of directories' contents in `rglob` order is not modelled.
- The disk is the set of paths that exist and the set of paths that are symbolic links. Broken symbolic links, permissions and `os.link` failures are not modelled; neither is the fact that a hard link shares the source's inode.
- Paths are already-normalised strings. `Path` parsing follows `PurePath.parts` for '/'-separated paths; the `//` root and Windows drives are not modelled. A home directory that ends in '/' (such as "/") yields link strings with a doubled "//" where Python's `Path` would write one; their parts are the same.
- `validate` returns nothing in Python. `Organizer.SampleOrganizer.Validate` returns the number of unlinked symbolic links that the Python code logs.
- The progress logging of `initial_sync` and the report that `show_stats` prints are not modelled. `Organizer.SampleOrganizer.ShowStats` returns the counters instead of printing them.
- ReconcileProperties.ValidateKeepsExisting: it assumes that no recorded source is itself a symbolic link. Such a source can be unlinked through another key's links earlier in the same scan, so "exactly the existing keys" does not hold for it. `ReconcileProperties.ScanEffect` covers the general case.
- ReconcileProperties.ProcessKeepsName: it assumes that '/' is not a word character and that the home directory is non-empty. Both hold for the program, but they are parameters here.
- ReconcileProperties.SyncOutcome: it is stated outside dry-run mode only; the dry-run case is `ReconcileProperties.SyncDryRun`.

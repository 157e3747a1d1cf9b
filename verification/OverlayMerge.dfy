/** What a completed overlay run leaves: the three-way merge of base, local and
    incoming, a second preflight with nothing to do, and the limits of both
    the merge and the recovery. */
module OverlayMerge {
  import opened Wrappers
  import opened Overlay
  import opened OverlayRecovery

  /******* The tree after a run *******/

  ghost predicate Delivers(hash: Hash, item: Item, archive: string -> Bytes, moved: set<string>) {
    item.entry.path !in moved && hash(archive(item.entry.path)) == item.entry.sha
  }

  /** What a finished run leaves at the planned paths and elsewhere. */
  ghost predicate Placed(before: Tree, after: Tree, rest: seq<Item>, archive: string -> Bytes) {
    && (forall k :: 0 <= k < |rest| ==>
          NodeAt(after, rest[k].entry.path) == Some(File(archive(rest[k].entry.path), rest[k].entry.mode % CHMOD_BITS)))
    && (forall path :: path !in Paths(rest) ==> NodeAt(after, path) == NodeAt(before, path))
  }

  lemma PlacedStep(before: Tree, middle: Tree, after: Tree, rest: seq<Item>, archive: string -> Bytes)
    requires rest != [] && NoDuplicates(Paths(rest))
    requires Placed(before, middle, rest[..1], archive) && Placed(middle, after, rest[1..], archive)
    ensures Placed(before, after, rest, archive)
  {
    var path := rest[0].entry.path;
    assert Paths(rest) == Paths(rest[..1]) + Paths(rest[1..]);
    assert path !in Paths(rest[1..]) by {
      forall k | 0 <= k < |rest[1..]| ensures Paths(rest[1..])[k] != path {
        assert Paths(rest)[0] != Paths(rest)[k + 1];
      }
    }
    assert rest[..1][0] == rest[0];
    forall k | 0 <= k < |rest|
      ensures NodeAt(after, rest[k].entry.path) == Some(File(archive(rest[k].entry.path), rest[k].entry.mode % CHMOD_BITS))
    {
      if k > 0 { assert rest[1..][k - 1] == rest[k]; }
    }
  }

  lemma ApplyItemPlaces(hash: Hash, p: Progress, item: Item, archive: string -> Bytes, moved: set<string>)
    requires !p.failed
    ensures var q := ApplyItem(hash, p, item, archive(item.entry.path), item.entry.path in moved);
            && (!q.failed <==> Delivers(hash, item, archive, moved))
            && (!q.failed ==> Placed(p.disk.tree, q.disk.tree, [item], archive))
  {
    assert Paths([item]) == [item.entry.path];
  }

  lemma {:induction false} ApplyItemsTree(hash: Hash, p: Progress, rest: seq<Item>, archive: string -> Bytes, moved: set<string>)
    requires NoDuplicates(Paths(rest)) && !p.failed
    ensures var q := ApplyItems(hash, p, rest, archive, moved);
            && (!q.failed <==> forall k :: 0 <= k < |rest| ==> Delivers(hash, rest[k], archive, moved))
            && (!q.failed ==> Placed(p.disk.tree, q.disk.tree, rest, archive))
    decreases |rest|
  {
    if rest != [] {
      var item := rest[0];
      var p' := ApplyItem(hash, p, item, archive(item.entry.path), item.entry.path in moved);
      ApplyItemPlaces(hash, p, item, archive, moved);
      assert rest[..1] == [item];
      if !p'.failed {
        assert Paths(rest[1..]) == Paths(rest)[1..];
        ApplyItemsTree(hash, p', rest[1..], archive, moved);
        assert forall k :: 1 <= k < |rest| ==> rest[k] == rest[1..][k - 1];
        if !ApplyItems(hash, p', rest[1..], archive, moved).failed {
          PlacedStep(p.disk.tree, p'.disk.tree, ApplyItems(hash, p', rest[1..], archive, moved).disk.tree, rest, archive);
        }
      }
    }
  }

  /** A run succeeds exactly when every planned member still has its
      preflight digest and no planned path became a link; then the planned
      paths hold the archive's files and no other path has changed. */
  lemma RunOutcome(hash: Hash, tree: Tree, planned: seq<Item>, archive: string -> Bytes, moved: set<string>)
    requires PlannedFor(hash, tree, planned)
    ensures var run := Run(hash, Disk(tree, map[], {}), planned, archive, moved);
            && (!run.failed <==> forall k :: 0 <= k < |planned| ==> Delivers(hash, planned[k], archive, moved))
            && (!run.failed ==>
                 && run.log != [] && run.log[|run.log| - 1] == run.disk && JournalOf(run.disk).Some?
                 && (forall k :: 0 <= k < |planned| ==>
                       NodeAt(run.disk.tree, planned[k].entry.path)
                       == Some(File(archive(planned[k].entry.path), planned[k].entry.mode % CHMOD_BITS)))
                 && (forall path :: path !in Paths(planned) ==> NodeAt(run.disk.tree, path) == NodeAt(tree, path)))
  {
    ApplyItemsTree(hash, Start(Disk(tree, map[], {}), planned), planned, archive, moved);
  }

  /******* The merge *******/

  datatype Merge = Take(content: Option<Digest>) | Clash

  /** The textbook three-way merge of one path: the side that changed wins. */
  function Diff3(base: Option<Digest>, local: Option<Digest>, incoming: Option<Digest>): Merge {
    if local == incoming then Take(local)
    else if local == base then Take(incoming)
    else if incoming == base then Take(local)
    else Clash
  }

  function DigestOf(local: Local): Option<Digest> {
    if local.Regular? then Some(local.sha) else None
  }

  /** The content a classification leaves at its path. */
  function Outcome(item: Item): Merge {
    match item.classification
    case Add | SafeReplace | ModeChange => Take(Some(item.entry.sha))
    case Unchanged | LocalPreserved => Take(DigestOf(item.local))
    case Conflict | Protected | Unsafe => Clash
  }

  /** The preflight is the textbook merge at every ordinary path but one kind:
      a file the baseline has and the operator deleted is brought back. */
  lemma OutcomeIsDiff3Iff(hash: Hash, tree: Tree, base: map<string, Digest>, protected: set<string>, entry: Entry)
    requires FirstComponent(entry.path) !in protected
    requires !Inspect(hash, tree, entry.path).Unusable?
    ensures var item := ReportItem(hash, tree, base, protected, entry);
            Outcome(item) == Diff3(BaseOf(base, entry.path), DigestOf(item.local), Some(entry.sha))
            <==> !(entry.path in base && entry.path !in tree)
  {
  }

  /** The path is one of the protected names, or lies below one. */
  ghost predicate Protects(protected: set<string>, path: string) {
    exists name :: name in protected && StartsIn(path, name)
  }

  ghost predicate StartsIn(path: string, name: string) {
    '/' !in name && (path == name || name + "/" <= path)
  }

  lemma {:induction false} FirstComponentIff(path: string, name: string)
    ensures StartsIn(path, name) <==> name == FirstComponent(path)
  {
    if path == "" || path[0] == '/' {
      if StartsIn(path, name) && name != "" { assert name[0] in name; }
      assert path != "" ==> "" + "/" <= path;
    } else {
      if name != "" && name[0] == path[0] {
        FirstComponentIff(path[1..], name[1..]);
        assert name == [name[0]] + name[1..] && path == [path[0]] + path[1..];
        assert StartsIn(path, name) <==> StartsIn(path[1..], name[1..]) by {
          assert name + "/" == [name[0]] + (name[1..] + "/");
        }
      }
    }
  }

  lemma ProtectedIff(path: string, protected: set<string>)
    ensures FirstComponent(path) in protected <==> Protects(protected, path)
  {
    FirstComponentIff(path, FirstComponent(path));
    forall name | StartsIn(path, name) ensures name == FirstComponent(path) {
      FirstComponentIff(path, name);
    }
  }

  /** Said of the target, the baseline and the entry alone: the path is free and
      not protected, or holds the incoming content under another mode, or holds
      the baseline's content where the incoming one differs. */
  ghost predicate NeedsWriting(hash: Hash, tree: Tree, base: map<string, Digest>, protected: set<string>, entry: Entry) {
    && !Protects(protected, entry.path)
    && (entry.path in tree ==>
          && tree[entry.path].File?
          && (hash(tree[entry.path].bytes) == entry.sha ==> tree[entry.path].mode % MODE_BITS != entry.mode)
          && (hash(tree[entry.path].bytes) != entry.sha ==>
                entry.path in base && base[entry.path] == hash(tree[entry.path].bytes)))
  }

  /** The path is protected or no file, or both sides changed it, differently. */
  ghost predicate StopsTheRun(hash: Hash, tree: Tree, base: map<string, Digest>, protected: set<string>, entry: Entry) {
    || Protects(protected, entry.path)
    || (entry.path in tree
        && (tree[entry.path].Irregular?
            || (hash(tree[entry.path].bytes) != entry.sha
                && (entry.path in base ==> base[entry.path] != entry.sha && base[entry.path] != hash(tree[entry.path].bytes)))))
  }

  lemma ClassifiedIff(hash: Hash, tree: Tree, base: map<string, Digest>, protected: set<string>, entry: Entry)
    ensures var c := ReportItem(hash, tree, base, protected, entry).classification;
            && (Applies(c) <==> NeedsWriting(hash, tree, base, protected, entry))
            && (Blocks(c) <==> StopsTheRun(hash, tree, base, protected, entry))
  {
    ProtectedIff(entry.path, protected);
  }

  ghost predicate NothingBlocks(items: seq<Item>) {
    forall i :: 0 <= i < |items| ==> !Blocks(items[i].classification)
  }

  /** Pointwise meaning of a run over a report that does not block. */
  ghost predicate MergedAt(hash: Hash, tree: Tree, final: Tree, base: map<string, Digest>, entry: Entry) {
    var b := BaseOf(base, entry.path);
    && entry.path in final && final[entry.path].File?
    && var now := Inspect(hash, final, entry.path);
    && (entry.path !in tree ==> now.sha == entry.sha)
    && (entry.path in tree ==>
         && tree[entry.path].File?
         && var was := Inspect(hash, tree, entry.path);
         && Diff3(b, Some(was.sha), Some(entry.sha)) == Take(Some(now.sha))
         && (now.sha != was.sha ==> b == Some(was.sha))                      // replaced only where local is the baseline
         && (was.sha != entry.sha && b == Some(entry.sha) ==> final[entry.path] == tree[entry.path]))  // local edits kept
    && (now.sha == entry.sha && (entry.path !in tree || final[entry.path] != tree[entry.path]) ==>
          final[entry.path].mode == entry.mode % CHMOD_BITS)
    && (now.sha == entry.sha ==> (now.mode == entry.mode <==> entry.mode < MODE_BITS))  // the incoming mode with the incoming content
  }

  lemma PlannedPath(items: seq<Item>, path: string)
    ensures path in Paths(Planned(items)) <==>
            exists k :: 0 <= k < |items| && items[k].entry.path == path && Applies(items[k].classification)
  {
    if path in Paths(Planned(items)) {
      var i :| 0 <= i < |Planned(items)| && Paths(Planned(items))[i] == path;
      PlannedMember(items, Planned(items)[i]);
    }
    if k :| 0 <= k < |items| && items[k].entry.path == path && Applies(items[k].classification) {
      PlannedMember(items, items[k]);
      var i :| 0 <= i < |Planned(items)| && Planned(items)[i] == items[k];
      assert Paths(Planned(items))[i] == path;
    }
  }

  /** A preflight plans exactly the paths that need writing, and stops the run
      exactly if one of its entries does. */
  lemma PreflightIff(hash: Hash, tree: Tree, base: map<string, Digest>, protected: set<string>, entries: seq<Entry>)
    ensures var items := ReportItems(hash, tree, base, protected, entries);
            && (forall path :: path in Paths(Planned(items)) <==>
                  exists k :: 0 <= k < |entries| && entries[k].path == path && NeedsWriting(hash, tree, base, protected, entries[k]))
            && (NothingBlocks(items) <==>
                forall k :: 0 <= k < |entries| ==> !StopsTheRun(hash, tree, base, protected, entries[k]))
  {
    var items := ReportItems(hash, tree, base, protected, entries);
    forall k | 0 <= k < |entries|
      ensures Applies(items[k].classification) <==> NeedsWriting(hash, tree, base, protected, entries[k])
      ensures Blocks(items[k].classification) <==> StopsTheRun(hash, tree, base, protected, entries[k])
    {
      ClassifiedIff(hash, tree, base, protected, entries[k]);
    }
    forall path
      ensures path in Paths(Planned(items)) <==>
              exists k :: 0 <= k < |entries| && entries[k].path == path && NeedsWriting(hash, tree, base, protected, entries[k])
    {
      PlannedPath(items, path);
    }
  }

  /** What a completed run leaves at a listed path. */
  lemma MergeNode(hash: Hash, tree: Tree, base: map<string, Digest>, protected: set<string>, entries: seq<Entry>,
                  archive: string -> Bytes, moved: set<string>, k: nat)
    requires DistinctEntries(entries) && k < |entries|
    requires !Run(hash, Disk(tree, map[], {}), Planned(ReportItems(hash, tree, base, protected, entries)), archive, moved).failed
    ensures var items := ReportItems(hash, tree, base, protected, entries);
            var final := Run(hash, Disk(tree, map[], {}), Planned(items), archive, moved).disk.tree;
            && NodeAt(final, entries[k].path) ==
               (if Applies(items[k].classification)
                then Some(File(archive(entries[k].path), entries[k].mode % CHMOD_BITS))
                else NodeAt(tree, entries[k].path))
            && (Applies(items[k].classification) ==> hash(archive(entries[k].path)) == entries[k].sha)
  {
    var items := ReportItems(hash, tree, base, protected, entries);
    var planned := Planned(items);
    PlannedOfReport(hash, tree, base, protected, entries);
    RunOutcome(hash, tree, planned, archive, moved);
    PlannedMember(items, items[k]);
    if Applies(items[k].classification) {
      var i :| 0 <= i < |planned| && planned[i] == items[k];
      assert Delivers(hash, planned[i], archive, moved);
    } else {
      PlannedPath(items, entries[k].path);
    }
  }

  /** An item that does not block is merged once its path holds what its classification calls for. */
  lemma MergeOfItem(hash: Hash, tree: Tree, final: Tree, base: map<string, Digest>, protected: set<string>, entry: Entry, content: Bytes)
    requires var item := ReportItem(hash, tree, base, protected, entry);
             && !Blocks(item.classification)
             && (Applies(item.classification) ==> hash(content) == entry.sha)
             && NodeAt(final, entry.path) ==
                if Applies(item.classification) then Some(File(content, entry.mode % CHMOD_BITS)) else NodeAt(tree, entry.path)
    ensures MergedAt(hash, tree, final, base, entry)
  {
    MaskOfChmod(entry.mode);
  }

  lemma MergeAt(hash: Hash, tree: Tree, base: map<string, Digest>, protected: set<string>, entries: seq<Entry>,
                archive: string -> Bytes, moved: set<string>, k: nat)
    requires DistinctEntries(entries) && k < |entries|
    requires NothingBlocks(ReportItems(hash, tree, base, protected, entries))
    requires !Run(hash, Disk(tree, map[], {}), Planned(ReportItems(hash, tree, base, protected, entries)), archive, moved).failed
    ensures var final := Run(hash, Disk(tree, map[], {}), Planned(ReportItems(hash, tree, base, protected, entries)), archive, moved).disk.tree;
            MergedAt(hash, tree, final, base, entries[k])
  {
    var items := ReportItems(hash, tree, base, protected, entries);
    MergeNode(hash, tree, base, protected, entries, archive, moved, k);
    MergeOfItem(hash, tree, Run(hash, Disk(tree, map[], {}), Planned(items), archive, moved).disk.tree, base, protected,
                entries[k], archive(entries[k].path));
  }

  /** Refinement: a completed run over a report that does not block leaves
      the three-way merge at every listed path and every other path as it was. */
  lemma MergeTheorem(hash: Hash, tree: Tree, base: map<string, Digest>, protected: set<string>, entries: seq<Entry>,
                     archive: string -> Bytes, moved: set<string>)
    requires DistinctEntries(entries)
    requires NothingBlocks(ReportItems(hash, tree, base, protected, entries))
    requires !Run(hash, Disk(tree, map[], {}), Planned(ReportItems(hash, tree, base, protected, entries)), archive, moved).failed
    ensures var final := Run(hash, Disk(tree, map[], {}), Planned(ReportItems(hash, tree, base, protected, entries)), archive, moved).disk.tree;
            && (forall k :: 0 <= k < |entries| ==> MergedAt(hash, tree, final, base, entries[k]))
            && (forall path :: (forall k :: 0 <= k < |entries| ==> entries[k].path != path) ==> NodeAt(final, path) == NodeAt(tree, path))
  {
    var items := ReportItems(hash, tree, base, protected, entries);
    var planned := Planned(items);
    forall k | 0 <= k < |entries| {
      MergeAt(hash, tree, base, protected, entries, archive, moved, k);
    }
    PlannedOfReport(hash, tree, base, protected, entries);
    RunOutcome(hash, tree, planned, archive, moved);
    forall path | forall k :: 0 <= k < |entries| ==> entries[k].path != path
      ensures path !in Paths(planned)
    {
      PlannedPath(items, path);
    }
  }

  /** A second preflight never blocks, and it plans nothing exactly when every
      mode that was applied fits in 0o777: inspection masks what chmod sets. */
  lemma SecondPreflight(hash: Hash, tree: Tree, base: map<string, Digest>, protected: set<string>, entries: seq<Entry>,
                        archive: string -> Bytes, moved: set<string>)
    requires DistinctEntries(entries)
    requires NothingBlocks(ReportItems(hash, tree, base, protected, entries))
    requires !Run(hash, Disk(tree, map[], {}), Planned(ReportItems(hash, tree, base, protected, entries)), archive, moved).failed
    ensures var first := ReportItems(hash, tree, base, protected, entries);
            var final := Run(hash, Disk(tree, map[], {}), Planned(first), archive, moved).disk.tree;
            var second := ReportItems(hash, final, base, protected, entries);
            && NothingBlocks(second)
            && (Planned(second) == [] <==>
                forall k :: 0 <= k < |entries| && Applies(first[k].classification) ==> entries[k].mode < MODE_BITS)
  {
    var first := ReportItems(hash, tree, base, protected, entries);
    var final := Run(hash, Disk(tree, map[], {}), Planned(first), archive, moved).disk.tree;
    var second := ReportItems(hash, final, base, protected, entries);
    forall k | 0 <= k < |entries|
      ensures !Blocks(second[k].classification)
      ensures Applies(second[k].classification) <==> Applies(first[k].classification) && entries[k].mode >= MODE_BITS
    {
      assert !Blocks(first[k].classification);
      MergeNode(hash, tree, base, protected, entries, archive, moved, k);
      MaskOfChmod(entries[k].mode);
    }
    if Planned(second) == [] {
      forall k | 0 <= k < |entries| ensures !Applies(second[k].classification) {
        PlannedMember(second, second[k]);
      }
    } else {
      PlannedMember(second, Planned(second)[0]);
    }
  }

  /** One file added with the sticky bit: a completed run, and yet the second preflight plans it again. */
  lemma StickyFileIsPlannedAgain(hash: Hash, path: string, x: Bytes, archive: string -> Bytes)
    requires archive(path) == x
    ensures var entries := [Entry(path, hash(x), 0x3A4)];
            var first := ReportItems(hash, map[], map[], {}, entries);
            var run := Run(hash, Disk(map[], map[], {}), Planned(first), archive, {});
            !run.failed && NothingBlocks(first) && Planned(ReportItems(hash, run.disk.tree, map[], {}, entries)) != []
  {
    var entries := [Entry(path, hash(x), 0x3A4)];
    var first := ReportItems(hash, map[], map[], {}, entries);
    var item := ReportItem(hash, map[], map[], {}, entries[0]);
    assert first == [item];
    PlannedSingle(item);
    PlannedOfReport(hash, map[], map[], {}, entries);
    RunOutcome(hash, map[], Planned(first), archive, {});
    SecondPreflight(hash, map[], map[], {}, entries, archive, {});
    assert Applies(first[0].classification) && entries[0].mode >= MODE_BITS;
  }

  lemma MaskOfChmod(mode: nat)
    ensures (mode % CHMOD_BITS) % MODE_BITS == mode <==> mode < MODE_BITS
  {
    assert mode == mode / CHMOD_BITS * CHMOD_BITS + mode % CHMOD_BITS;
  }

  /******* Limits of the recovery *******/

  /** A planned path the target holds already, whose backup is therefore needed. */
  predicate BackedUp(tree: Tree, planned: seq<Item>, name: string) {
    name in tree && name in Paths(planned)
  }

  /** No backup is needed under a name that the program itself writes to the backup directory. */
  predicate ReservedNamesFree(tree: Tree, planned: seq<Item>) {
    !BackedUp(tree, planned, JOURNAL_NAME) && !BackedUp(tree, planned, REPORT_JSON) && !BackedUp(tree, planned, REPORT_MARKDOWN)
  }

  /** The backup of a replaced path is not there; what replaced it is. */
  lemma LostBackup(hash: Hash, tree: Tree, planned: seq<Item>, archive: string -> Bytes, moved: set<string>, name: string, d: Disk)
    requires PlannedFor(hash, tree, planned) && BackedUp(tree, planned, name)
    requires forall k :: 0 <= k < |planned| ==> planned[k].entry.mode < MODE_BITS
    requires !Run(hash, Disk(tree, map[], {}), planned, archive, moved).failed
    requires d.tree == Run(hash, Disk(tree, map[], {}), planned, archive, moved).disk.tree && JournalOf(d).Some?
    requires name in d.backup && !d.backup[name].Copy?
    ensures Recover(d, planned) != tree
  {
    RunOutcome(hash, tree, planned, archive, moved);
    var k :| 0 <= k < |planned| && Paths(planned)[k] == name;
    assert Delivers(hash, planned[k], archive, moved);
    MaskOfChmod(planned[k].entry.mode);
    NotAdded(hash, tree, planned, name);
    assert RestoredAt(d, JournalOf(d).value, planned, name) == NodeAt(d.tree, name);
    assert NodeAt(Recover(d, planned), name) == NodeAt(d.tree, name) != NodeAt(tree, name);
  }

  lemma NotAdded(hash: Hash, tree: Tree, planned: seq<Item>, name: string)
    requires PlannedFor(hash, tree, planned) && name in tree
    ensures !WasAdded(planned, name)
  {
  }

  /** A completed run is recoverable at all its crash points exactly when no
      existing file it replaces has the journal's name. */
  lemma CrashSafetyIff(hash: Hash, tree: Tree, planned: seq<Item>, archive: string -> Bytes, moved: set<string>)
    requires PlannedFor(hash, tree, planned)
    requires forall k :: 0 <= k < |planned| ==> planned[k].entry.mode < MODE_BITS
    requires !Run(hash, Disk(tree, map[], {}), planned, archive, moved).failed
    ensures AllRecover(tree, Run(hash, Disk(tree, map[], {}), planned, archive, moved).log, planned)
            <==> JournalNameFree(tree, planned)
  {
    if JournalNameFree(tree, planned) {
      CrashSafety(hash, tree, planned, archive, moved);
    } else {
      var run := Run(hash, Disk(tree, map[], {}), planned, archive, moved);
      RunOutcome(hash, tree, planned, archive, moved);
      LostBackup(hash, tree, planned, archive, moved, JOURNAL_NAME, run.disk);
    }
  }

  /** A file under a name that no backup is needed for changes no recovery. */
  lemma ReservedWrite(hash: Hash, tree: Tree, planned: seq<Item>, p: Progress, name: string, file: BackupFile)
    requires PlannedFor(hash, tree, planned) && !BackedUp(tree, planned, name) && name != JOURNAL_NAME && !file.Copy?
    requires AllRecover(tree, p.log, planned) && Restorable(tree, p.disk, p.journal, planned)
    requires forall q :: q in p.journal.backedUp ==> q in Paths(planned)
    ensures var d := p.disk.(backup := p.disk.backup[name := file]);
            Restorable(tree, d, p.journal, planned) && AllRecover(tree, Durable(p, d).log, planned) && Recover(d, planned) == tree
  {
    var d := p.disk.(backup := p.disk.backup[name := file]);
    RestorableRecovers(hash, tree, d, p.journal, planned);
  }

  lemma ReportsKeepRecovery(hash: Hash, tree: Tree, planned: seq<Item>, p: Progress)
    requires PlannedFor(hash, tree, planned) && ReservedNamesFree(tree, planned)
    requires AllRecover(tree, p.log, planned) && Restorable(tree, p.disk, p.journal, planned)
    requires forall q :: q in p.journal.backedUp ==> q in Paths(planned)
    ensures AllRecover(tree, WriteReports(p).log, planned) && Recover(WriteReports(p).disk, planned) == tree
  {
    ReservedWrite(hash, tree, planned, p, REPORT_JSON, Partial);
    var p1 := Durable(p, p.disk.(backup := p.disk.backup[REPORT_JSON := Partial]));
    ReservedWrite(hash, tree, planned, p1, REPORT_JSON, ReportFile);
    var p2 := Durable(p1, p1.disk.(backup := p1.disk.backup[REPORT_JSON := ReportFile]));
    ReservedWrite(hash, tree, planned, p2, REPORT_MARKDOWN, Partial);
    var p3 := Durable(p2, p2.disk.(backup := p2.disk.backup[REPORT_MARKDOWN := Partial]));
    ReservedWrite(hash, tree, planned, p3, REPORT_MARKDOWN, ReportFile);
  }

  lemma {:induction false} BackedUpIsPlanned(hash: Hash, p: Progress, rest: seq<Item>, archive: string -> Bytes, moved: set<string>, q: string)
    requires q in ApplyItems(hash, p, rest, archive, moved).journal.backedUp && q !in p.journal.backedUp
    ensures q in Paths(rest)
    decreases |rest|
  {
    if rest != [] && !p.failed {
      assert Paths(rest) == [rest[0].entry.path] + Paths(rest[1..]);
      var p' := ApplyItem(hash, p, rest[0], archive(rest[0].entry.path), rest[0].entry.path in moved);
      if q !in p'.journal.backedUp {
        BackedUpIsPlanned(hash, p', rest[1..], archive, moved, q);
      }
    }
  }

  /** With the reserved names free the whole branch can be undone at every durable state. */
  lemma BranchSafety(hash: Hash, tree: Tree, planned: seq<Item>, archive: string -> Bytes, moved: set<string>)
    requires PlannedFor(hash, tree, planned) && ReservedNamesFree(tree, planned)
    ensures var branch := Branch(hash, Disk(tree, map[], {}), planned, archive, moved);
            AllRecover(tree, branch.log, planned) && Recover(branch.disk, planned) == tree
  {
    var run := Run(hash, Disk(tree, map[], {}), planned, archive, moved);
    CrashSafety(hash, tree, planned, archive, moved);
    if !run.failed {
      RunRestorable(hash, tree, planned, archive, moved);
      forall q | q in run.journal.backedUp ensures q in Paths(planned) {
        BackedUpIsPlanned(hash, Start(Disk(tree, map[], {}), planned), planned, archive, moved, q);
      }
      ReportsKeepRecovery(hash, tree, planned, run);
    }
  }

  /** A completed apply branch can be undone at every durable state exactly
      when no backup is needed under one of the three reserved names. */
  lemma BranchSafetyIff(hash: Hash, tree: Tree, planned: seq<Item>, archive: string -> Bytes, moved: set<string>)
    requires PlannedFor(hash, tree, planned)
    requires forall k :: 0 <= k < |planned| ==> planned[k].entry.mode < MODE_BITS
    requires !Run(hash, Disk(tree, map[], {}), planned, archive, moved).failed
    ensures AllRecover(tree, Branch(hash, Disk(tree, map[], {}), planned, archive, moved).log, planned)
            <==> ReservedNamesFree(tree, planned)
  {
    var branch := Branch(hash, Disk(tree, map[], {}), planned, archive, moved);
    if ReservedNamesFree(tree, planned) {
      BranchSafety(hash, tree, planned, archive, moved);
    } else {
      RunOutcome(hash, tree, planned, archive, moved);
      var name := if BackedUp(tree, planned, JOURNAL_NAME) then JOURNAL_NAME
                  else if BackedUp(tree, planned, REPORT_JSON) then REPORT_JSON else REPORT_MARKDOWN;
      ReportNames();
      LostBackup(hash, tree, planned, archive, moved, name, branch.disk);
      assert branch.log[|branch.log| - 1] == branch.disk;
    }
  }

  lemma ReportNames()
    ensures JOURNAL_NAME != REPORT_JSON && JOURNAL_NAME != REPORT_MARKDOWN && REPORT_JSON != REPORT_MARKDOWN
  {
    assert JOURNAL_NAME[8] != REPORT_JSON[8] && JOURNAL_NAME[8] != REPORT_MARKDOWN[8] && |REPORT_JSON| != |REPORT_MARKDOWN|;
  }

  /** One file, safely replaced. */
  lemma OneReplaced(hash: Hash, name: string, x: Bytes, y: Bytes, archive: string -> Bytes)
    requires hash(x) != hash(y) && archive(name) == y
    ensures var tree: Tree := map[name := File(x, 0x1A4)];
            var planned := Planned(ReportItems(hash, tree, map[name := hash(x)], {}, [Entry(name, hash(y), 0x1A4)]));
            && PlannedFor(hash, tree, planned) && BackedUp(tree, planned, name)
            && (forall k :: 0 <= k < |planned| ==> planned[k].entry.mode < MODE_BITS)
            && !Run(hash, Disk(tree, map[], {}), planned, archive, {}).failed
  {
    var tree: Tree := map[name := File(x, 0x1A4)];
    var entries, base := [Entry(name, hash(y), 0x1A4)], map[name := hash(x)];
    var item := ReportItem(hash, tree, base, {}, entries[0]);
    assert ReportItems(hash, tree, base, {}, entries) == [item];
    PlannedSingle(item);
    PlannedOfReport(hash, tree, base, {}, entries);
    RunOutcome(hash, tree, [item], archive, {});
    assert Paths([item])[0] == name;
  }

  /** Under a reserved name that is enough: the backup is gone when the branch completes. */
  lemma ReservedNameLosesBackup(hash: Hash, name: string, x: Bytes, y: Bytes, archive: string -> Bytes)
    requires name in {JOURNAL_NAME, REPORT_JSON, REPORT_MARKDOWN}
    requires hash(x) != hash(y) && archive(name) == y
    ensures var tree: Tree := map[name := File(x, 0x1A4)];
            var planned := Planned(ReportItems(hash, tree, map[name := hash(x)], {}, [Entry(name, hash(y), 0x1A4)]));
            var branch := Branch(hash, Disk(tree, map[], {}), planned, archive, {});
            !branch.failed && !AllRecover(tree, branch.log, planned)
  {
    var tree: Tree := map[name := File(x, 0x1A4)];
    var planned := Planned(ReportItems(hash, tree, map[name := hash(x)], {}, [Entry(name, hash(y), 0x1A4)]));
    OneReplaced(hash, name, x, y, archive);
    NamedBackup(tree, planned, name);
    BranchSafetyIff(hash, tree, planned, archive, {});
  }

  lemma NamedBackup(tree: Tree, planned: seq<Item>, name: string)
    requires name in {JOURNAL_NAME, REPORT_JSON, REPORT_MARKDOWN} && BackedUp(tree, planned, name)
    ensures !ReservedNamesFree(tree, planned)
  {
  }

  /** Without the report's classifications no recovery exists: one durable
      state is reached from two different originals, in one run as the added
      file just renamed into place, in the other before anything was touched. */
  lemma JournalAloneIsAmbiguous(hash: Hash, path: string, x: Bytes, y: Bytes, archive: string -> Bytes)
    requires hash(x) != hash(y) && archive(path) == x && path != JOURNAL_NAME
    ensures var added := map[];
            var replaced: Tree := map[path := File(x, 0x1A4)];
            var runA := Run(hash, Disk(added, map[], {}), Planned(ReportItems(hash, added, map[], {}, [Entry(path, hash(x), 0x1A4)])), archive, {});
            var runB := Run(hash, Disk(replaced, map[], {}), Planned(ReportItems(hash, replaced, map[path := hash(x)], {}, [Entry(path, hash(y), 0x1A4)])), archive, {});
            && added != replaced
            && exists i, j :: 0 <= i < |runA.log| && 0 <= j < |runB.log| && runA.log[i] == runB.log[j]
  {
    var added: Tree := map[];
    var replaced: Tree := map[path := File(x, 0x1A4)];
    assert path in replaced && path !in added;
    var itemA := ReportItem(hash, added, map[], {}, Entry(path, hash(x), 0x1A4));
    var itemB := ReportItem(hash, replaced, map[path := hash(x)], {}, Entry(path, hash(y), 0x1A4));
    var plannedA := Planned([itemA]);
    var plannedB := Planned([itemB]);
    assert ReportItems(hash, added, map[], {}, [Entry(path, hash(x), 0x1A4)]) == [itemA];
    assert ReportItems(hash, replaced, map[path := hash(x)], {}, [Entry(path, hash(y), 0x1A4)]) == [itemB];
    PlannedSingle(itemA);
    PlannedSingle(itemB);
    assert Paths(plannedA) == [path] == Paths(plannedB);
    var startA := Start(Disk(added, map[], {}), plannedA);
    var startB := Start(Disk(replaced, map[], {}), plannedB);
    var a := Replace(startA, itemA, x);
    assert a.log[2] == startB.log[0];
    LogGrows(hash, startA, plannedA, archive, {}, 0);
    LogGrows(hash, startB, plannedB, archive, {}, 0);
    var one := ApplyItem(hash, startA, itemA, x, false);
    assert one.log[2] == a.log[2];
    assert plannedA[1..] == [];
    var runA := Run(hash, Disk(added, map[], {}), plannedA, archive, {});
    var runB := Run(hash, Disk(replaced, map[], {}), plannedB, archive, {});
    assert runA.log[2] == runB.log[0];
  }

  lemma PlannedSingle(item: Item)
    requires Applies(item.classification)
    ensures Planned([item]) == [item]
  {
    assert [item][1..] == [];
  }

  /** What the run has recorded stays recorded. */
  lemma {:induction false} LogGrows(hash: Hash, p: Progress, rest: seq<Item>, archive: string -> Bytes, moved: set<string>, i: nat)
    requires i < |p.log|
    ensures var q := ApplyItems(hash, p, rest, archive, moved); i < |q.log| && q.log[i] == p.log[i]
    decreases |rest|
  {
    if rest != [] && !p.failed {
      LogGrows(hash, ApplyItem(hash, p, rest[0], archive(rest[0].entry.path), rest[0].entry.path in moved),
               rest[1..], archive, moved, i);
    }
  }

  /******* The apply branch of the program *******/

  datatype Status = Blocked | Raised | Applied

  /** Every listed path merged, every other path as it was. */
  ghost predicate Merged(hash: Hash, tree: Tree, final: Tree, base: map<string, Digest>, entries: seq<Entry>) {
    && (forall k :: 0 <= k < |entries| ==> MergedAt(hash, tree, final, base, entries[k]))
    && (forall path :: (forall k :: 0 <= k < |entries| ==> entries[k].path != path) ==> NodeAt(final, path) == NodeAt(tree, path))
  }

  /** `--apply`: a blocking report stops before anything is written; otherwise
      the target is merged and the report left beside the backups. Cut short
      at any durable write, the last of them included, or stopped by an error
      of its own, it can be undone as long as the reserved names are free. */
  method ApplyOverlay(hash: Hash, fs: FileSystem, base: map<string, Digest>, protected: set<string>, entries: seq<Entry>,
                      deletions: seq<string>, extraMembers: seq<string>, archive: string -> Bytes, moved: set<string>)
    returns (status: Status, ghost planned: seq<Item>)
    requires DistinctEntries(entries) && fs.temps == {} && fs.log == []
    modifies fs
    ensures planned == Planned(ReportItems(hash, old(fs.tree), base, protected, entries))
    ensures status.Blocked? <==>
              || deletions != [] || extraMembers != []
              || !NothingBlocks(ReportItems(hash, old(fs.tree), base, protected, entries))
    ensures status.Blocked? || old(fs.backup) != map[] ==> !status.Applied? && fs.State() == old(fs.State()) && fs.log == []
    ensures !status.Blocked? && old(fs.backup) == map[] ==>
              var branch := Branch(hash, old(fs.State()), planned, archive, moved);
              fs.State() == branch.disk && fs.log == branch.log && (status.Applied? <==> !branch.failed)
    ensures status.Applied? ==> Merged(hash, old(fs.tree), fs.tree, base, entries)
    ensures ReservedNamesFree(old(fs.tree), planned) ==>
              AllRecover(old(fs.tree), fs.log, planned)
              && (old(fs.backup) == map[] ==> Recover(fs.State(), planned) == old(fs.tree))
    ensures status.Applied? && (forall k :: 0 <= k < |planned| ==> planned[k].entry.mode < MODE_BITS) ==>
              (AllRecover(old(fs.tree), fs.log, planned) <==> ReservedNamesFree(old(fs.tree), planned))
  {
    var report := BuildReport(hash, fs.tree, base, protected, entries, deletions, extraMembers);
    planned := Planned(report.items);
    ghost var tree := fs.tree;
    PlannedOfReport(hash, tree, base, protected, entries);
    if ReservedNamesFree(tree, planned) {
      BranchSafety(hash, tree, planned, archive, moved);
    }
    if report.blocking {
      return Blocked, planned;
    }
    var ok := ApplyReport(hash, fs, report, archive, moved);
    if !ok {
      return Raised, planned;
    }
    MergeTheorem(hash, tree, base, protected, entries, archive, moved);
    if forall k :: 0 <= k < |planned| ==> planned[k].entry.mode < MODE_BITS {
      BranchSafetyIff(hash, tree, planned, archive, moved);
    }
    WriteReport(fs);
    return Applied, planned;
  }
}

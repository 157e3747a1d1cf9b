/** Crash safety of the overlay: from any durable state the run goes through,
    the backup, the journal and the report's classifications restore the
    original tree exactly - as long as no backed-up path has the journal's
    own name. */
module OverlayRecovery {
  import opened Wrappers
  import opened Overlay

  function JournalOf(d: Disk): Option<Journal> {
    if JOURNAL_NAME in d.backup && d.backup[JOURNAL_NAME].JournalFile?
    then Some(d.backup[JOURNAL_NAME].journal) else None
  }

  predicate WasAdded(planned: seq<Item>, path: string) {
    exists i :: 0 <= i < |planned| && planned[i].entry.path == path && planned[i].classification.Add?
  }

  function NodeAt(tree: Tree, path: string): Option<Node> {
    if path in tree then Some(tree[path]) else None
  }

  function RestoredAt(d: Disk, j: Journal, planned: seq<Item>, path: string): Option<Node> {
    if path in j.backedUp && path in d.backup && d.backup[path].Copy? then Some(d.backup[path].node)
    else if WasAdded(planned, path) then None
    else NodeAt(d.tree, path)
  }

  /** What an operator restores: backed-up copies go back, added files go
      away, everything else was never touched. */
  function Recover(d: Disk, planned: seq<Item>): Tree {
    match JournalOf(d)
    case None => d.tree
    case Some(j) =>
      map path | path in d.tree.Keys + d.backup.Keys && RestoredAt(d, j, planned, path).Some? ::
        RestoredAt(d, j, planned, path).value
  }

  /** The planned items come from a preflight of this tree over distinct paths. */
  ghost predicate PlannedFor(hash: Hash, tree: Tree, planned: seq<Item>) {
    && NoDuplicates(Paths(planned))
    && forall i :: 0 <= i < |planned| ==>
         && Applies(planned[i].classification)
         && planned[i].local == Inspect(hash, tree, planned[i].entry.path)
         && !planned[i].local.Unusable?
         && (planned[i].classification.Add? <==> planned[i].entry.path !in tree)
         && (planned[i].local.Regular? ==>
              planned[i].local.sha != planned[i].entry.sha || planned[i].local.mode != planned[i].entry.mode)
  }

  ghost predicate DistinctEntries(entries: seq<Entry>) {
    forall i, j :: 0 <= i < j < |entries| ==> entries[i].path != entries[j].path
  }

  lemma {:induction false} PlannedMember(items: seq<Item>, x: Item)
    ensures x in Planned(items) <==> x in items && Applies(x.classification)
    decreases |items|
  {
    if items != [] {
      PlannedMember(items[1..], x);
      assert x in items <==> x == items[0] || x in items[1..];
    }
  }

  lemma {:induction false} PlannedDistinct(items: seq<Item>)
    requires NoDuplicates(Paths(items))
    ensures NoDuplicates(Paths(Planned(items)))
    decreases |items|
  {
    if items != [] {
      var rest := items[1..];
      assert Paths(rest) == Paths(items)[1..];
      PlannedDistinct(rest);
      if Applies(items[0].classification) {
        forall k | 0 <= k < |Planned(rest)| ensures Paths(Planned(rest))[k] != items[0].entry.path {
          PlannedMember(rest, Planned(rest)[k]);
          var m :| 0 <= m < |rest| && rest[m] == Planned(rest)[k];
          assert Paths(items)[0] != Paths(items)[m + 1];
        }
        assert Paths(Planned(items)) == [items[0].entry.path] + Paths(Planned(rest));
      }
    }
  }

  lemma PlannedOfReport(hash: Hash, tree: Tree, base: map<string, Digest>, protected: set<string>, entries: seq<Entry>)
    requires DistinctEntries(entries)
    ensures PlannedFor(hash, tree, Planned(ReportItems(hash, tree, base, protected, entries)))
  {
    var items := ReportItems(hash, tree, base, protected, entries);
    PlannedDistinct(items);
    var planned := Planned(items);
    forall i | 0 <= i < |planned|
      ensures exists k :: 0 <= k < |entries| && planned[i] == ReportItem(hash, tree, base, protected, entries[k])
      ensures Applies(planned[i].classification)
    {
      PlannedMember(items, planned[i]);
      var k :| 0 <= k < |items| && items[k] == planned[i];
    }
  }

  /******* Every crash point is recoverable *******/

  ghost predicate Restorable(tree: Tree, d: Disk, j: Journal, planned: seq<Item>) {
    && JournalOf(d) == Some(j)
    && (forall q :: q in j.backedUp ==> q in tree && q in d.backup && d.backup[q] == Copy(tree[q]))
    && (forall q :: q !in j.backedUp && !WasAdded(planned, q) ==> NodeAt(d.tree, q) == NodeAt(tree, q))
  }

  lemma RestorableRecovers(hash: Hash, tree: Tree, d: Disk, j: Journal, planned: seq<Item>)
    requires PlannedFor(hash, tree, planned) && Restorable(tree, d, j, planned)
    ensures Recover(d, planned) == tree
  {
    forall q ensures RestoredAt(d, j, planned, q) == NodeAt(tree, q) {
      if q !in j.backedUp && !WasAdded(planned, q) {
        assert NodeAt(d.tree, q) == NodeAt(tree, q);
      }
    }
    forall q ensures q in Recover(d, planned) <==> q in tree {
      assert RestoredAt(d, j, planned, q) == NodeAt(tree, q);
      if q in tree && q !in j.backedUp { assert NodeAt(d.tree, q) == NodeAt(tree, q); }
    }
    forall q | q in tree ensures Recover(d, planned)[q] == tree[q] {
      assert RestoredAt(d, j, planned, q) == NodeAt(tree, q);
    }
  }

  ghost predicate AllRecover(tree: Tree, log: seq<Disk>, planned: seq<Item>) {
    forall i :: 0 <= i < |log| ==> Recover(log[i], planned) == tree
  }

  /** No planned path that already exists is named like the journal. */
  predicate JournalNameFree(tree: Tree, planned: seq<Item>) {
    JOURNAL_NAME in tree ==> JOURNAL_NAME !in Paths(planned)
  }

  ghost predicate Ready(tree: Tree, p: Progress, planned: seq<Item>, rest: seq<Item>) {
    && Restorable(tree, p.disk, p.journal, planned)
    && AllRecover(tree, p.log, planned)
    && forall k :: 0 <= k < |rest| ==>
         && rest[k] in planned
         && rest[k].entry.path !in p.journal.backedUp
         && NodeAt(p.disk.tree, rest[k].entry.path) == NodeAt(tree, rest[k].entry.path)
  }

  lemma LogStep(hash: Hash, tree: Tree, p: Progress, d: Disk, j: Journal, planned: seq<Item>)
    requires PlannedFor(hash, tree, planned)
    requires AllRecover(tree, p.log, planned) && Restorable(tree, d, j, planned)
    ensures AllRecover(tree, Durable(p, d).log, planned)
  {
    RestorableRecovers(hash, tree, d, j, planned);
  }

  lemma BackUpKeeps(hash: Hash, tree: Tree, p: Progress, planned: seq<Item>, rest: seq<Item>)
    requires PlannedFor(hash, tree, planned) && JournalNameFree(tree, planned)
    requires rest != [] && Ready(tree, p, planned, rest) && NoDuplicates(Paths(rest))
    ensures var path := rest[0].entry.path; var q := BackUp(p, path);
            && Ready(tree, q, planned, rest[1..])
            && q.disk.tree == p.disk.tree && q.failed == p.failed
            && (path in q.journal.backedUp <==> path in tree)
  {
    var path := rest[0].entry.path;
    var i :| 0 <= i < |planned| && planned[i] == rest[0];
    assert Paths(planned)[i] == path;
    if path in p.disk.tree {
      assert NodeAt(p.disk.tree, path) == NodeAt(tree, path);
      assert path != JOURNAL_NAME;
      var d1 := p.disk.(backup := p.disk.backup[path := Partial]);
      LogStep(hash, tree, p, d1, p.journal, planned);
      var p1 := Durable(p, d1);
      var d2 := d1.(backup := d1.backup[path := Copy(d1.tree[path])]);
      LogStep(hash, tree, p1, d2, p.journal, planned);
      var p2 := Durable(p1, d2);
      var j := p.journal.(state := BackingUp, backedUp := p.journal.backedUp + [path]);
      var d3 := d2.(backup := d2.backup[JOURNAL_NAME := JournalFile(j)]);
      LogStep(hash, tree, p2, d3, j, planned);
      assert BackUp(p, path) == Durable(p2, d3).(journal := j);
    }
    forall k | 0 <= k < |rest[1..]| ensures rest[1..][k].entry.path != path {
      assert Paths(rest)[0] != Paths(rest)[k + 1];
    }
  }

  lemma ReplaceKeeps(hash: Hash, tree: Tree, p: Progress, planned: seq<Item>, item: Item, rest: seq<Item>, content: Bytes)
    requires PlannedFor(hash, tree, planned) && item in planned
    requires Ready(tree, p, planned, rest)
    requires item.entry.path in p.journal.backedUp <==> item.entry.path in tree
    requires forall k :: 0 <= k < |rest| ==> rest[k].entry.path != item.entry.path
    ensures Ready(tree, Replace(p, item, content), planned, rest)
  {
    var path := item.entry.path;
    var i :| 0 <= i < |planned| && planned[i] == item;
    var d1 := p.disk.(temps := p.disk.temps + {path});
    LogStep(hash, tree, p, d1, p.journal, planned);
    var d2 := d1.(tree := d1.tree[path := File(content, item.entry.mode % CHMOD_BITS)], temps := d1.temps - {path});
    assert path !in p.journal.backedUp ==> WasAdded(planned, path);
    forall q | q !in p.journal.backedUp && !WasAdded(planned, q) ensures NodeAt(d2.tree, q) == NodeAt(tree, q) {
      assert NodeAt(p.disk.tree, q) == NodeAt(tree, q);
    }
    LogStep(hash, tree, Durable(p, d1), d2, p.journal, planned);
  }

  lemma WriteJournalKeeps(hash: Hash, tree: Tree, p: Progress, j: Journal, planned: seq<Item>, rest: seq<Item>)
    requires PlannedFor(hash, tree, planned) && JournalNameFree(tree, planned)
    requires Ready(tree, p, planned, rest) && j.backedUp == p.journal.backedUp
    requires JOURNAL_NAME !in p.journal.backedUp
    ensures Ready(tree, WriteJournal(p, j), planned, rest)
  {
    LogStep(hash, tree, p, p.disk.(backup := p.disk.backup[JOURNAL_NAME := JournalFile(j)]), j, planned);
  }

  lemma {:induction false} ApplyItemsKeeps(hash: Hash, tree: Tree, p: Progress, planned: seq<Item>, rest: seq<Item>,
                                           archive: string -> Bytes, moved: set<string>)
    requires PlannedFor(hash, tree, planned) && JournalNameFree(tree, planned)
    requires Ready(tree, p, planned, rest) && NoDuplicates(Paths(rest))
    ensures Ready(tree, ApplyItems(hash, p, rest, archive, moved), planned, [])
    decreases |rest|
  {
    if rest == [] || p.failed {
    } else {
      var item := rest[0];
      var path := item.entry.path;
      var p' := ApplyItem(hash, p, item, archive(path), path in moved);
      forall k | 0 <= k < |rest[1..]| ensures rest[1..][k].entry.path != path {
        assert Paths(rest)[0] != Paths(rest)[k + 1];
      }
      if path !in moved {
        BackUpKeeps(hash, tree, p, planned, rest);
        var p1 := BackUp(p, path);
        ReplaceKeeps(hash, tree, p1, planned, item, rest[1..], archive(path));
        var p2 := Replace(p1, item, archive(path));
        WriteJournalKeeps(hash, tree, p2, p2.journal.(state := Applying, applied := p2.journal.applied + [path]),
                          planned, rest[1..]);
      }
      assert Ready(tree, p', planned, rest[1..]);
      forall i, j | 0 <= i < j < |rest[1..]| ensures Paths(rest[1..])[i] != Paths(rest[1..])[j] {
        assert Paths(rest)[i + 1] != Paths(rest)[j + 1];
      }
      ApplyItemsKeeps(hash, tree, p', planned, rest[1..], archive, moved);
    }
  }

  /** The disk a run leaves, read with the journal it leaves. */
  lemma RunRestorable(hash: Hash, tree: Tree, planned: seq<Item>, archive: string -> Bytes, moved: set<string>)
    requires PlannedFor(hash, tree, planned) && JournalNameFree(tree, planned)
    ensures var run := Run(hash, Disk(tree, map[], {}), planned, archive, moved);
            Restorable(tree, run.disk, run.journal, planned) && AllRecover(tree, run.log, planned)
  {
    var empty := Disk(tree, map[], {});
    var p := Start(empty, planned);
    LogStep(hash, tree, Progress(empty, p.journal, [], false), p.disk, p.journal, planned);
    assert Ready(tree, p, planned, planned);
    ApplyItemsKeeps(hash, tree, p, planned, planned, archive, moved);
    var q := ApplyItems(hash, p, planned, archive, moved);
    if !q.failed {
      WriteJournalKeeps(hash, tree, q, q.journal.(state := Complete), planned, []);
    }
  }

  /** Stopping the run after any durable write, or by its own error, leaves
      enough to rebuild the original tree, including removal of added files. */
  lemma CrashSafety(hash: Hash, tree: Tree, planned: seq<Item>, archive: string -> Bytes, moved: set<string>)
    requires PlannedFor(hash, tree, planned) && JournalNameFree(tree, planned)
    ensures var run := Run(hash, Disk(tree, map[], {}), planned, archive, moved);
            && AllRecover(tree, run.log, planned)
            && Recover(Disk(tree, map[], {}), planned) == tree
            && Recover(run.disk, planned) == tree
  {
    RunRestorable(hash, tree, planned, archive, moved);
    var run := Run(hash, Disk(tree, map[], {}), planned, archive, moved);
    RestorableRecovers(hash, tree, run.disk, run.journal, planned);
  }
}

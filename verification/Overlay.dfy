/** The three-way source overlay of scripts/apply_overlay.py: the preflight
    report, the apply loop with its backup directory and journal, and the
    recovery that the backup, the journal and the report make possible. */
module Overlay {
  import opened Wrappers

  type Bytes = seq<bv8>
  type Digest = string
  type Hash = Bytes -> Digest

  /** A directory entry of the target. `Irregular` is a symbolic link, a
      directory, a special file or anything reached through a link. The mode
      holds all twelve permission bits. */
  datatype Node = File(bytes: Bytes, mode: nat) | Irregular

  type Tree = map<string, Node>

  datatype Entry = Entry(path: string, sha: Digest, mode: nat)

  datatype Local = Missing | Regular(sha: Digest, mode: nat) | Unusable

  datatype Classification =
    | Unchanged | Add | SafeReplace | ModeChange | LocalPreserved
    | Conflict | Protected | Unsafe

  datatype Item = Item(entry: Entry, local: Local, classification: Classification)

  datatype Report = Report(items: seq<Item>, deletions: seq<string>, archiveErrors: seq<string>, blocking: bool)

  const MODE_BITS := 0x200    // st_mode & 0o777
  const CHMOD_BITS := 0x1000  // 0o7777
  const JOURNAL_NAME := "OVERLAY_JOURNAL.json"
  const REPORT_JSON := "OVERLAY_REPORT.json"
  const REPORT_MARKDOWN := "OVERLAY_REPORT.md"

  /******* Preflight *******/

  function Inspect(hash: Hash, tree: Tree, path: string): Local {
    if path !in tree then Missing
    else match tree[path]
      case File(bytes, mode) => Regular(hash(bytes), mode % MODE_BITS)
      case Irregular => Unusable
  }

  function FirstComponent(path: string): string {
    if path == "" || path[0] == '/' then "" else [path[0]] + FirstComponent(path[1..])
  }

  function Classify(entry: Entry, local: Local, base: Option<Digest>, protected: set<string>): Classification {
    if FirstComponent(entry.path) in protected then Protected
    else match local
      case Unusable => Unsafe
      case Missing => Add
      case Regular(sha, mode) =>
        if sha == entry.sha then (if mode != entry.mode then ModeChange else Unchanged)
        else if base.Some? && sha == base.value && entry.sha != base.value then SafeReplace
        else if base.Some? && entry.sha == base.value && sha != base.value then LocalPreserved
        else Conflict
  }

  predicate Blocks(c: Classification) {
    c.Conflict? || c.Protected? || c.Unsafe?
  }

  predicate Applies(c: Classification) {
    c.Add? || c.SafeReplace? || c.ModeChange?
  }

  function BaseOf(base: map<string, Digest>, path: string): Option<Digest> {
    if path in base then Some(base[path]) else None
  }

  function ReportItem(hash: Hash, tree: Tree, base: map<string, Digest>, protected: set<string>, entry: Entry): Item {
    var local := Inspect(hash, tree, entry.path);
    Item(entry, local, Classify(entry, local, BaseOf(base, entry.path), protected))
  }

  function ReportItems(hash: Hash, tree: Tree, base: map<string, Digest>, protected: set<string>, entries: seq<Entry>): (items: seq<Item>)
    ensures |items| == |entries|
    ensures forall i :: 0 <= i < |entries| ==> items[i] == ReportItem(hash, tree, base, protected, entries[i])
  {
    seq(|entries|, i requires 0 <= i < |entries| => ReportItem(hash, tree, base, protected, entries[i]))
  }

  /** `entries` is the manifest's file list after the library sort by path. */
  method BuildReport(hash: Hash, tree: Tree, base: map<string, Digest>, protected: set<string>,
                     entries: seq<Entry>, deletions: seq<string>, extraMembers: seq<string>)
    returns (report: Report)
    ensures report.items == ReportItems(hash, tree, base, protected, entries)
    ensures report.deletions == deletions && report.archiveErrors == extraMembers
    ensures report.blocking <==>
              || extraMembers != [] || deletions != []
              || exists i :: 0 <= i < |entries| && Blocks(report.items[i].classification)
  {
    var items: seq<Item> := [];
    var blocked := false;
    for i := 0 to |entries|
      invariant items == ReportItems(hash, tree, base, protected, entries)[..i]
      invariant blocked <==> exists k :: 0 <= k < i && Blocks(items[k].classification)
    {
      var item := ReportItem(hash, tree, base, protected, entries[i]);
      items := items + [item];
      blocked := blocked || Blocks(item.classification);
    }
    report := Report(items, deletions, extraMembers, extraMembers != [] || deletions != [] || blocked);
  }

  function Planned(items: seq<Item>): seq<Item>
    decreases |items|
  {
    if items == [] then []
    else if Applies(items[0].classification) then [items[0]] + Planned(items[1..])
    else Planned(items[1..])
  }

  function Paths(items: seq<Item>): (paths: seq<string>)
    ensures |paths| == |items|
    ensures forall i :: 0 <= i < |items| ==> paths[i] == items[i].entry.path
  {
    seq(|items|, i requires 0 <= i < |items| => items[i].entry.path)
  }

  /******* Apply, as the sequence of durable states it goes through *******/

  datatype JournalState = Prepared | BackingUp | Applying | Complete

  datatype Journal = Journal(state: JournalState, planned: seq<string>, backedUp: seq<string>, applied: seq<string>)

  /** The backup directory holds file copies and, under their reserved names,
      the journal and the two forms of the report. */
  datatype BackupFile = Copy(node: Node) | Partial | JournalFile(journal: Journal) | ReportFile

  /** `temps` names the targets that have a temporary file beside them. */
  datatype Disk = Disk(tree: Tree, backup: map<string, BackupFile>, temps: set<string>)

  datatype Progress = Progress(disk: Disk, journal: Journal, log: seq<Disk>, failed: bool)

  function Durable(p: Progress, disk: Disk): Progress {
    p.(disk := disk, log := p.log + [disk])
  }

  function WriteJournal(p: Progress, journal: Journal): Progress {
    Durable(p, p.disk.(backup := p.disk.backup[JOURNAL_NAME := JournalFile(journal)])).(journal := journal)
  }

  function BackUp(p: Progress, path: string): Progress {
    if path !in p.disk.tree then p
    else
      var p1 := Durable(p, p.disk.(backup := p.disk.backup[path := Partial]));
      var p2 := Durable(p1, p1.disk.(backup := p1.disk.backup[path := Copy(p1.disk.tree[path])]));
      WriteJournal(p2, p2.journal.(state := BackingUp, backedUp := p2.journal.backedUp + [path]))
  }

  function Replace(p: Progress, item: Item, content: Bytes): Progress {
    var path := item.entry.path;
    var p1 := Durable(p, p.disk.(temps := p.disk.temps + {path}));
    Durable(p1, p1.disk.(tree := p1.disk.tree[path := File(content, item.entry.mode % CHMOD_BITS)],
                         temps := p1.disk.temps - {path}))
  }

  function ApplyItem(hash: Hash, p: Progress, item: Item, content: Bytes, moved: bool): Progress {
    if moved then p.(failed := true)
    else
      var p1 := Replace(BackUp(p, item.entry.path), item, content);
      if hash(content) != item.entry.sha then p1.(failed := true)
      else WriteJournal(p1, p1.journal.(state := Applying, applied := p1.journal.applied + [item.entry.path]))
  }

  /** `archive` is what the open archive yields now, `moved` the paths that
      became reachable only through a link after the preflight. */
  function ApplyItems(hash: Hash, p: Progress, items: seq<Item>, archive: string -> Bytes, moved: set<string>): Progress
    decreases |items|
  {
    if items == [] || p.failed then p
    else ApplyItems(hash, ApplyItem(hash, p, items[0], archive(items[0].entry.path), items[0].entry.path in moved),
                    items[1..], archive, moved)
  }

  function Start(disk: Disk, planned: seq<Item>): Progress {
    var journal := Journal(Prepared, Paths(planned), [], []);
    WriteJournal(Progress(disk, journal, [], false), journal)
  }

  function Run(hash: Hash, disk: Disk, planned: seq<Item>, archive: string -> Bytes, moved: set<string>): Progress {
    var p := ApplyItems(hash, Start(disk, planned), planned, archive, moved);
    if p.failed then p else WriteJournal(p, p.journal.(state := Complete))
  }

  /** write_report into the backup directory: two files, neither replaced atomically. */
  function WriteReports(p: Progress): Progress {
    var p1 := Durable(p, p.disk.(backup := p.disk.backup[REPORT_JSON := Partial]));
    var p2 := Durable(p1, p1.disk.(backup := p1.disk.backup[REPORT_JSON := ReportFile]));
    var p3 := Durable(p2, p2.disk.(backup := p2.disk.backup[REPORT_MARKDOWN := Partial]));
    Durable(p3, p3.disk.(backup := p3.disk.backup[REPORT_MARKDOWN := ReportFile]))
  }

  /** The apply branch of the program, from the first durable write to the last. */
  function Branch(hash: Hash, disk: Disk, planned: seq<Item>, archive: string -> Bytes, moved: set<string>): Progress {
    var run := Run(hash, disk, planned, archive, moved);
    if run.failed then run else WriteReports(run)
  }

  /** The file system the overlay changes in place; every durable write is recorded. */
  class FileSystem {
    var tree: Tree
    var backup: map<string, BackupFile>
    var temps: set<string>
    ghost var log: seq<Disk>

    constructor (tree: Tree, backup: map<string, BackupFile>)
      ensures State() == Disk(tree, backup, {}) && log == []
    {
      this.tree, this.backup, this.temps, this.log := tree, backup, {}, [];
    }

    ghost function State(): Disk
      reads this
    {
      Disk(tree, backup, temps)
    }

    method WriteBackup(path: string, file: BackupFile)
      modifies this
      ensures State() == old(State()).(backup := old(backup)[path := file])
      ensures log == old(log) + [State()]
    {
      backup := backup[path := file];
      log := log + [State()];
    }

    method CreateTemporary(path: string)
      modifies this
      ensures State() == old(State()).(temps := old(temps) + {path})
      ensures log == old(log) + [State()]
    {
      temps := temps + {path};
      log := log + [State()];
    }

    method RenameTemporary(path: string, node: Node)
      modifies this
      ensures State() == old(State()).(tree := old(tree)[path := node], temps := old(temps) - {path})
      ensures log == old(log) + [State()]
    {
      tree := tree[path := node];
      temps := temps - {path};
      log := log + [State()];
    }
  }

  /** One turn of the apply loop; false where the program raises. */
  method ApplyPlannedItem(hash: Hash, fs: FileSystem, item: Item, content: Bytes, moved: bool, journal: Journal)
    returns (ok: bool, journal': Journal)
    modifies fs
    ensures var p := ApplyItem(hash, Progress(old(fs.State()), journal, old(fs.log), false), item, content, moved);
            fs.State() == p.disk && fs.log == p.log && journal' == p.journal && ok == !p.failed
  {
    var path := item.entry.path;
    journal' := journal;
    if moved {
      return false, journal';
    }
    if path in fs.tree {
      fs.WriteBackup(path, Partial);
      fs.WriteBackup(path, Copy(fs.tree[path]));
      journal' := journal'.(state := BackingUp, backedUp := journal'.backedUp + [path]);
      fs.WriteBackup(JOURNAL_NAME, JournalFile(journal'));
    }
    fs.CreateTemporary(path);
    fs.RenameTemporary(path, File(content, item.entry.mode % CHMOD_BITS));
    if hash(content) != item.entry.sha {
      return false, journal';
    }
    journal' := journal'.(state := Applying, applied := journal'.applied + [path]);
    fs.WriteBackup(JOURNAL_NAME, JournalFile(journal'));
    ok := true;
  }

  /** Returns false where the program raises, with the disk as the error leaves it. */
  method ApplyReport(hash: Hash, fs: FileSystem, report: Report, archive: string -> Bytes, moved: set<string>)
    returns (ok: bool)
    requires fs.log == []
    modifies fs
    ensures old(fs.backup) != map[] ==> !ok && fs.State() == old(fs.State()) && fs.log == []
    ensures old(fs.backup) == map[] ==>
              var run := Run(hash, old(fs.State()), Planned(report.items), archive, moved);
              ok == !run.failed && fs.State() == run.disk && fs.log == run.log
  {
    if fs.backup != map[] {  // the backup directory must be new or empty
      return false;
    }
    var planned := Planned(report.items);
    var journal := Journal(Prepared, Paths(planned), [], []);
    ghost var start := Start(fs.State(), planned);
    fs.WriteBackup(JOURNAL_NAME, JournalFile(journal));
    ghost var p := start;
    for i := 0 to |planned|
      invariant p == Progress(fs.State(), journal, fs.log, false)
      invariant ApplyItems(hash, start, planned, archive, moved) == ApplyItems(hash, p, planned[i..], archive, moved)
    {
      assert planned[i..][1..] == planned[i + 1..];
      var path := planned[i].entry.path;
      p := ApplyItem(hash, p, planned[i], archive(path), path in moved);
      var step;
      step, journal := ApplyPlannedItem(hash, fs, planned[i], archive(path), path in moved, journal);
      if !step {
        return false;
      }
    }
    fs.WriteBackup(JOURNAL_NAME, JournalFile(journal.(state := Complete)));
    ok := true;
  }

  method WriteReport(fs: FileSystem)
    modifies fs
    ensures forall journal, failed :: var p := WriteReports(Progress(old(fs.State()), journal, old(fs.log), failed));
                                      fs.State() == p.disk && fs.log == p.log
  {
    fs.WriteBackup(REPORT_JSON, Partial);
    fs.WriteBackup(REPORT_JSON, ReportFile);
    fs.WriteBackup(REPORT_MARKDOWN, Partial);
    fs.WriteBackup(REPORT_MARKDOWN, ReportFile);
  }
}

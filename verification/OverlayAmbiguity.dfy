/** How far the target, the backup and the journal tell the original tree
    without the report: at every durable state but those in which the first
    unapplied path is in the target and not in the backup. There it may as
    well have been added as found. */
module OverlayAmbiguity {
  import opened Wrappers
  import opened Overlay
  import opened OverlayRecovery

  /** A run: the tree it started from, and all it met. */
  datatype Case = Case(tree: Tree, planned: seq<Item>, archive: string -> Bytes, moved: set<string>)

  ghost predicate TwelveBits(tree: Tree) {
    forall path :: path in tree && tree[path].File? ==> tree[path].mode < CHMOD_BITS
  }

  /** The durable state `d` is one that this run goes through. */
  ghost predicate Leads(hash: Hash, c: Case, d: Disk) {
    && PlannedFor(hash, c.tree, c.planned) && JournalNameFree(c.tree, c.planned) && TwelveBits(c.tree)
    && d in Run(hash, Disk(c.tree, map[], {}), c.planned, c.archive, c.moved).log
  }

  /** The first planned path that the journal does not hold as applied is in
      the target, and the backup says nothing of it. */
  predicate Ambiguous(d: Disk) {
    match JournalOf(d)
    case None => false
    case Some(j) =>
      |j.applied| < |j.planned| && j.planned[|j.applied|] in d.tree && j.planned[|j.applied|] !in d.backup
  }

  /** What the state alone suggests of a path. */
  function GuessAt(d: Disk, j: Journal, path: string): Option<Node> {
    if path in j.backedUp then (if path in d.backup && d.backup[path].Copy? then Some(d.backup[path].node) else None)
    else if path in j.applied || (path == JOURNAL_NAME && path in j.planned) then None
    else NodeAt(d.tree, path)
  }

  /******* The states of a run *******/

  function Begun(c: Case): Progress {
    Start(Disk(c.tree, map[], {}), c.planned)
  }

  /** The run after its first `k` items. */
  function Reached(hash: Hash, c: Case, k: nat): Progress
    requires k <= |c.planned|
  {
    ApplyItems(hash, Begun(c), c.planned[..k], c.archive, c.moved)
  }

  function Turn(hash: Hash, c: Case, p: Progress, k: nat): Progress
    requires k < |c.planned|
  {
    var path := c.planned[k].entry.path;
    ApplyItem(hash, p, c.planned[k], c.archive(path), path in c.moved)
  }

  lemma {:induction false} ApplyOneMore(hash: Hash, p: Progress, items: seq<Item>, item: Item, archive: string -> Bytes, moved: set<string>)
    ensures var q := ApplyItems(hash, p, items, archive, moved);
            ApplyItems(hash, p, items + [item], archive, moved) ==
            if q.failed then q else ApplyItem(hash, q, item, archive(item.entry.path), item.entry.path in moved)
    decreases |items|
  {
    if items == [] {
      assert [] + [item] == [item] && [item][1..] == [];
    } else if !p.failed {
      assert (items + [item])[1..] == items[1..] + [item];
      ApplyOneMore(hash, ApplyItem(hash, p, items[0], archive(items[0].entry.path), items[0].entry.path in moved),
                   items[1..], item, archive, moved);
    }
  }

  lemma NextReached(hash: Hash, c: Case, k: nat)
    requires k < |c.planned|
    ensures Reached(hash, c, k + 1) == if Reached(hash, c, k).failed then Reached(hash, c, k) else Turn(hash, c, Reached(hash, c, k), k)
  {
    assert c.planned[..k + 1] == c.planned[..k] + [c.planned[k]];
    ApplyOneMore(hash, Begun(c), c.planned[..k], c.planned[k], c.archive, c.moved);
  }

  /** The durable states within one turn, before its last journal. */
  function WhileBackingUp(d: Disk, j: Journal, path: string): seq<Disk>
    requires path in d.tree
  {
    var d1 := d.(backup := d.backup[path := Partial]);
    var d2 := d1.(backup := d1.backup[path := Copy(d.tree[path])]);
    [d1, d2, d2.(backup := d2.backup[JOURNAL_NAME := JournalFile(BackedUpTo(j, path))])]
  }

  function BackedUpTo(j: Journal, path: string): Journal {
    j.(state := BackingUp, backedUp := j.backedUp + [path])
  }

  function WithTemporary(d: Disk, path: string): Disk {
    d.(temps := d.temps + {path})
  }

  function Renamed(d: Disk, path: string, node: Node): Disk {
    d.(tree := d.tree[path := node], temps := (d.temps + {path}) - {path})
  }

  function Placed(item: Item, content: Bytes): Node {
    File(content, item.entry.mode % CHMOD_BITS)
  }

  /** The disk from which the temporary file is made. */
  function Secured(d: Disk, j: Journal, path: string): Disk {
    if path in d.tree then WhileBackingUp(d, j, path)[2] else d
  }

  ghost predicate Within(d: Disk, p: Progress, item: Item, content: Bytes) {
    var path := item.entry.path;
    || (path in p.disk.tree && d in WhileBackingUp(p.disk, p.journal, path))
    || d == WithTemporary(Secured(p.disk, p.journal, path), path)
    || d == Renamed(Secured(p.disk, p.journal, path), path, Placed(item, content))
  }

  lemma BackUpStates(p: Progress, path: string)
    ensures var q := BackUp(p, path);
            && q.disk == Secured(p.disk, p.journal, path) && q.failed == p.failed
            && q.journal == (if path in p.disk.tree then BackedUpTo(p.journal, path) else p.journal)
            && q.log == p.log + if path in p.disk.tree then WhileBackingUp(p.disk, p.journal, path) else []
  {
  }

  lemma ReplaceStates(p: Progress, item: Item, content: Bytes)
    ensures var q := Replace(p, item, content);
            && q.disk == Renamed(p.disk, item.entry.path, Placed(item, content))
            && q.log == p.log + [WithTemporary(p.disk, item.entry.path), q.disk]
            && q.journal == p.journal && q.failed == p.failed
  {
  }

  /** What one turn leaves, and what it goes through. */
  lemma TurnStates(hash: Hash, p: Progress, item: Item, content: Bytes, moved: bool)
    requires !p.failed
    ensures var q := ApplyItem(hash, p, item, content, moved);
            && (forall d :: d in q.log ==> d in p.log || Within(d, p, item, content) || (!q.failed && d == q.disk))
            && p.log <= q.log
            && (!q.failed ==> q.disk in q.log)
            && (!moved ==> Renamed(Secured(p.disk, p.journal, item.entry.path), item.entry.path, Placed(item, content)) in q.log)
  {
    if !moved {
      BackUpStates(p, item.entry.path);
      ReplaceStates(BackUp(p, item.entry.path), item, content);
    }
  }

  lemma TurnLeaves(hash: Hash, p: Progress, item: Item, content: Bytes, moved: bool)
    requires !p.failed && !ApplyItem(hash, p, item, content, moved).failed
    ensures var path := item.entry.path;
            var q := ApplyItem(hash, p, item, content, moved);
            var done := Renamed(Secured(p.disk, p.journal, path), path, Placed(item, content));
            && !moved
            && q.journal == Journal(Applying, p.journal.planned,
                 if path in p.disk.tree then p.journal.backedUp + [path] else p.journal.backedUp, p.journal.applied + [path])
            && q.disk == done.(backup := done.backup[JOURNAL_NAME := JournalFile(q.journal)])
  {
    BackUpStates(p, item.entry.path);
    ReplaceStates(BackUp(p, item.entry.path), item, content);
  }

  ghost predicate StepState(hash: Hash, c: Case, k: nat, d: Disk) {
    && k <= |c.planned| && !Reached(hash, c, k).failed
    && (d == Reached(hash, c, k).disk ||
        (k < |c.planned| && Within(d, Reached(hash, c, k), c.planned[k], c.archive(c.planned[k].entry.path))))
  }

  lemma {:induction false} LogIsSteps(hash: Hash, c: Case, n: nat, d: Disk)
    requires n <= |c.planned| && d in Reached(hash, c, n).log
    ensures exists k :: 0 <= k <= n && StepState(hash, c, k, d)
    decreases n
  {
    if n == 0 {
      assert c.planned[..0] == [];
      assert StepState(hash, c, 0, d);
    } else {
      NextReached(hash, c, n - 1);
      var p := Reached(hash, c, n - 1);
      if d in p.log {
        LogIsSteps(hash, c, n - 1, d);
      } else {
        var path := c.planned[n - 1].entry.path;
        TurnStates(hash, p, c.planned[n - 1], c.archive(path), path in c.moved);
        assert StepState(hash, c, if Within(d, p, c.planned[n - 1], c.archive(path)) then n - 1 else n, d);
      }
    }
  }

  lemma {:induction false} LogOnlyGrows(hash: Hash, p: Progress, rest: seq<Item>, archive: string -> Bytes, moved: set<string>)
    ensures p.log <= ApplyItems(hash, p, rest, archive, moved).log
    decreases |rest|
  {
    if rest != [] && !p.failed {
      var path := rest[0].entry.path;
      TurnStates(hash, p, rest[0], archive(path), path in moved);
      LogOnlyGrows(hash, ApplyItem(hash, p, rest[0], archive(path), path in moved), rest[1..], archive, moved);
    }
  }

  lemma {:induction false} ApplyConcat(hash: Hash, p: Progress, first: seq<Item>, second: seq<Item>, archive: string -> Bytes, moved: set<string>)
    ensures ApplyItems(hash, p, first + second, archive, moved)
            == ApplyItems(hash, ApplyItems(hash, p, first, archive, moved), second, archive, moved)
    decreases |first|
  {
    if first == [] {
      assert first + second == second;
    } else if p.failed {
    } else {
      assert (first + second)[1..] == first[1..] + second;
      ApplyConcat(hash, ApplyItem(hash, p, first[0], archive(first[0].entry.path), first[0].entry.path in moved),
                  first[1..], second, archive, moved);
    }
  }

  /** Whatever an early part of the run has recorded is in the record of the whole. */
  lemma RunContains(hash: Hash, c: Case, k: nat, d: Disk)
    requires k <= |c.planned| && d in Reached(hash, c, k).log
    ensures d in Run(hash, Disk(c.tree, map[], {}), c.planned, c.archive, c.moved).log
  {
    assert c.planned == c.planned[..k] + c.planned[k..];
    ApplyConcat(hash, Begun(c), c.planned[..k], c.planned[k..], c.archive, c.moved);
    LogOnlyGrows(hash, Reached(hash, c, k), c.planned[k..], c.archive, c.moved);
  }

  /******* What the states hold *******/

  ghost predicate Facts(c: Case, k: nat, p: Progress)
    requires k <= |c.planned|
  {
    var done := Paths(c.planned)[..k];
    && JournalOf(p.disk) == Some(p.journal)
    && p.journal.planned == Paths(c.planned) && p.journal.applied == done
    && p.disk.temps == {}
    && (forall q :: q in p.journal.backedUp <==> q in done && q in c.tree)
    && (forall q :: q in p.disk.backup <==> q == JOURNAL_NAME || q in p.journal.backedUp)
    && (forall q :: q in p.journal.backedUp ==> p.disk.backup[q] == Copy(c.tree[q]))
    && (forall q :: q !in done ==> NodeAt(p.disk.tree, q) == NodeAt(c.tree, q))
  }

  lemma Ahead(c: Case, k: nat)
    requires NoDuplicates(Paths(c.planned)) && k < |c.planned|
    ensures c.planned[k].entry.path !in Paths(c.planned)[..k]
    ensures Paths(c.planned)[..k + 1] == Paths(c.planned)[..k] + [c.planned[k].entry.path]
  {
  }

  /** What a finished turn does to journal, backup and target. */
  ghost predicate Turned(p: Progress, q: Progress, path: string, node: Node) {
    && JournalOf(q.disk) == Some(q.journal) && q.disk.temps == (p.disk.temps + {path}) - {path}
    && q.journal.planned == p.journal.planned && q.journal.applied == p.journal.applied + [path]
    && q.journal.backedUp == (if path in p.disk.tree then p.journal.backedUp + [path] else p.journal.backedUp)
    && q.disk.tree == p.disk.tree[path := node]
    && (forall r :: r != JOURNAL_NAME && r != path ==>
          (r in q.disk.backup <==> r in p.disk.backup) && (r in p.disk.backup ==> q.disk.backup[r] == p.disk.backup[r]))
    && (path != JOURNAL_NAME ==>
          if path in p.disk.tree then path in q.disk.backup && q.disk.backup[path] == Copy(p.disk.tree[path])
          else (path in q.disk.backup <==> path in p.disk.backup))
  }

  lemma TurnTurns(hash: Hash, p: Progress, item: Item, content: Bytes, moved: bool)
    requires !p.failed && !ApplyItem(hash, p, item, content, moved).failed
    ensures Turned(p, ApplyItem(hash, p, item, content, moved), item.entry.path, Placed(item, content))
  {
    TurnLeaves(hash, p, item, content, moved);
  }

  lemma FactsTurn(c: Case, k: nat, p: Progress, q: Progress, node: Node)
    requires JournalNameFree(c.tree, c.planned) && k < |c.planned| && NoDuplicates(Paths(c.planned))
    requires Facts(c, k, p) && Turned(p, q, c.planned[k].entry.path, node)
    ensures Facts(c, k + 1, q)
  {
    var path := c.planned[k].entry.path;
    Ahead(c, k);
    assert path in Paths(c.planned) by { assert Paths(c.planned)[k] == path; }
    assert NodeAt(p.disk.tree, path) == NodeAt(c.tree, path);
    FactsBackup(c, k, p, q, node);
    forall r | r !in Paths(c.planned)[..k + 1] ensures NodeAt(q.disk.tree, r) == NodeAt(c.tree, r) {
      assert NodeAt(p.disk.tree, r) == NodeAt(c.tree, r);
    }
  }

  lemma FactsBackup(c: Case, k: nat, p: Progress, q: Progress, node: Node)
    requires JournalNameFree(c.tree, c.planned) && k < |c.planned| && c.planned[k].entry.path in Paths(c.planned)
    requires Facts(c, k, p) && Turned(p, q, c.planned[k].entry.path, node)
    requires c.planned[k].entry.path !in Paths(c.planned)[..k]
    requires NodeAt(p.disk.tree, c.planned[k].entry.path) == NodeAt(c.tree, c.planned[k].entry.path)
    ensures forall r :: r in q.disk.backup <==> r == JOURNAL_NAME || r in q.journal.backedUp
    ensures forall r :: r in q.journal.backedUp ==> q.disk.backup[r] == Copy(c.tree[r])
  {
  }

  lemma FactsNext(hash: Hash, c: Case, k: nat, p: Progress)
    requires PlannedFor(hash, c.tree, c.planned) && JournalNameFree(c.tree, c.planned) && k < |c.planned|
    requires !p.failed && Facts(c, k, p) && !Turn(hash, c, p, k).failed
    ensures Facts(c, k + 1, Turn(hash, c, p, k))
  {
    var path := c.planned[k].entry.path;
    TurnTurns(hash, p, c.planned[k], c.archive(path), path in c.moved);
    FactsTurn(c, k, p, Turn(hash, c, p, k), Placed(c.planned[k], c.archive(path)));
  }

  lemma {:induction false} FactsHold(hash: Hash, c: Case, k: nat)
    requires PlannedFor(hash, c.tree, c.planned) && JournalNameFree(c.tree, c.planned)
    requires k <= |c.planned| && !Reached(hash, c, k).failed
    ensures Facts(c, k, Reached(hash, c, k))
    decreases k
  {
    if k == 0 {
      assert c.planned[..0] == [] && Paths(c.planned)[..0] == [];
    } else {
      NextReached(hash, c, k - 1);
      FactsHold(hash, c, k - 1);
      FactsNext(hash, c, k - 1, Reached(hash, c, k - 1));
    }
  }

  /******* The unambiguous states *******/

  ghost predicate Guessed(d: Disk, tree: Tree) {
    JournalOf(d).Some? && forall q :: GuessAt(d, JournalOf(d).value, q) == NodeAt(tree, q)
  }

  lemma GuessAtRest(c: Case, k: nat, p: Progress)
    requires k <= |c.planned| && Facts(c, k, p) && JournalNameFree(c.tree, c.planned)
    ensures Guessed(p.disk, c.tree)
  {
  }

  lemma GuessBackingUp(c: Case, k: nat, p: Progress, i: nat)
    requires k < |c.planned| && Facts(c, k, p) && JournalNameFree(c.tree, c.planned) && NoDuplicates(Paths(c.planned))
    requires c.planned[k].entry.path in p.disk.tree && i < 3
    ensures Guessed(WhileBackingUp(p.disk, p.journal, c.planned[k].entry.path)[i], c.tree)
    ensures c.planned[k].entry.path in WhileBackingUp(p.disk, p.journal, c.planned[k].entry.path)[i].backup
  {
    var path := c.planned[k].entry.path;
    Ahead(c, k);
    assert path in Paths(c.planned) by { assert Paths(c.planned)[k] == path; }
    assert NodeAt(p.disk.tree, path) == NodeAt(c.tree, path);
    assert path != JOURNAL_NAME;
  }

  /** Making the temporary file changes no guess, and neither does renaming it onto a path that is backed up. */
  lemma GuessReplacing(d: Disk, tree: Tree, path: string, node: Node)
    requires Guessed(d, tree)
    ensures Guessed(WithTemporary(d, path), tree)
    ensures path in JournalOf(d).value.backedUp ==> Guessed(Renamed(d, path, node), tree)
  {
    assert JournalOf(WithTemporary(d, path)) == JournalOf(d);
    assert JournalOf(Renamed(d, path, node)) == JournalOf(d);
  }

  /** A file added under the journal's own name is known not to have been there. */
  lemma GuessAddedJournal(c: Case, k: nat, p: Progress, node: Node)
    requires k < |c.planned| && Facts(c, k, p) && JournalNameFree(c.tree, c.planned)
    requires c.planned[k].entry.path == JOURNAL_NAME && JOURNAL_NAME !in p.disk.tree && NoDuplicates(Paths(c.planned))
    ensures Guessed(Renamed(p.disk, JOURNAL_NAME, node), c.tree)
  {
    GuessAtRest(c, k, p);
    assert JOURNAL_NAME in Paths(c.planned) by { assert Paths(c.planned)[k] == JOURNAL_NAME; }
    Ahead(c, k);
    assert JournalOf(Renamed(p.disk, JOURNAL_NAME, node)) == JournalOf(p.disk);
  }

  lemma GuessWithin(hash: Hash, c: Case, k: nat, p: Progress, d: Disk)
    requires PlannedFor(hash, c.tree, c.planned) && JournalNameFree(c.tree, c.planned) && k < |c.planned| && Facts(c, k, p)
    requires Within(d, p, c.planned[k], c.archive(c.planned[k].entry.path)) && !Ambiguous(d)
    ensures Guessed(d, c.tree)
  {
    var path := c.planned[k].entry.path;
    var node := Placed(c.planned[k], c.archive(path));
    GuessAtRest(c, k, p);
    if path in p.disk.tree {
      GuessBackingUp(c, k, p, 0);
      GuessBackingUp(c, k, p, 1);
      GuessBackingUp(c, k, p, 2);
      SecuredJournal(c, k, p);
      GuessReplacing(Secured(p.disk, p.journal, path), c.tree, path, node);
    } else {
      GuessReplacing(p.disk, c.tree, path, node);
      if d == Renamed(p.disk, path, node) {
        AddedIsAmbiguous(c, k, p, node);
        if path == JOURNAL_NAME { GuessAddedJournal(c, k, p, node); }
      }
    }
  }

  lemma SecuredJournal(c: Case, k: nat, p: Progress)
    requires k < |c.planned| && c.planned[k].entry.path in p.disk.tree && Facts(c, k, p) && JournalNameFree(c.tree, c.planned)
    ensures var path := c.planned[k].entry.path;
            JournalOf(Secured(p.disk, p.journal, path)) == Some(BackedUpTo(p.journal, path))
            && path in BackedUpTo(p.journal, path).backedUp
  {
    var path := c.planned[k].entry.path;
    assert (p.journal.backedUp + [path])[|p.journal.backedUp|] == path;
  }

  /** Just renamed into place, an added file is ambiguous, unless it has the journal's name. */
  lemma AddedIsAmbiguous(c: Case, k: nat, p: Progress, node: Node)
    requires k < |c.planned| && Facts(c, k, p) && c.planned[k].entry.path !in p.disk.tree && NoDuplicates(Paths(c.planned))
    ensures Ambiguous(Renamed(p.disk, c.planned[k].entry.path, node)) <==> c.planned[k].entry.path != JOURNAL_NAME
  {
    var path := c.planned[k].entry.path;
    Ahead(c, k);
    assert JournalOf(Renamed(p.disk, path, node)) == JournalOf(p.disk);
    assert Paths(c.planned)[k] == path;
  }

  lemma GuessCompleted(c: Case, p: Progress)
    requires Facts(c, |c.planned|, p) && JournalNameFree(c.tree, c.planned)
    ensures Guessed(WriteJournal(p, p.journal.(state := Complete)).disk, c.tree)
  {
    GuessAtRest(c, |c.planned|, p);
  }

  /** Where a state is not ambiguous, it gives the original tree away. */
  lemma UnambiguousIsGuessed(hash: Hash, c: Case, d: Disk)
    requires Leads(hash, c, d) && !Ambiguous(d)
    ensures Guessed(d, c.tree)
  {
    var n := |c.planned|;
    assert c.planned[..n] == c.planned;
    if d in Reached(hash, c, n).log {
      LogIsSteps(hash, c, n, d);
      var k :| 0 <= k <= n && StepState(hash, c, k, d);
      FactsHold(hash, c, k);
      if d == Reached(hash, c, k).disk {
        GuessAtRest(c, k, Reached(hash, c, k));
      } else {
        GuessWithin(hash, c, k, Reached(hash, c, k), d);
      }
    } else {
      FactsHold(hash, c, n);
      GuessCompleted(c, Reached(hash, c, n));
    }
  }

  lemma GuessIsUnique(d: Disk, a: Tree, b: Tree)
    requires Guessed(d, a) && Guessed(d, b)
    ensures a == b
  {
    forall q ensures NodeAt(a, q) == NodeAt(b, q) {
      assert GuessAt(d, JournalOf(d).value, q) == NodeAt(a, q);
      assert GuessAt(d, JournalOf(d).value, q) == NodeAt(b, q);
    }
    forall q ensures q in a <==> q in b { assert NodeAt(a, q) == NodeAt(b, q); }
    forall q | q in a ensures a[q] == b[q] { assert NodeAt(a, q) == NodeAt(b, q); }
  }

  /******* The ambiguous states *******/

  /** The tree with this node, or none, at one path. */
  function Put(tree: Tree, path: string, node: Option<Node>): Tree {
    match node
    case None => tree - {path}
    case Some(n) => tree[path := n]
  }

  ghost predicate Twins(p: Progress, q: Progress, path: string, node: Option<Node>) {
    && q.journal == p.journal && q.failed == p.failed
    && q.disk.backup == p.disk.backup && q.disk.temps == p.disk.temps
    && q.disk.tree == Put(p.disk.tree, path, node)
  }

  /** A turn at another path does the same to both. */
  lemma TwinTurn(hash: Hash, p: Progress, q: Progress, item: Item, content: Bytes, moved: bool, path: string, node: Option<Node>)
    requires Twins(p, q, path, node) && !p.failed && item.entry.path != path
    ensures Twins(ApplyItem(hash, p, item, content, moved), ApplyItem(hash, q, item, content, moved), path, node)
  {
    var other := item.entry.path;
    PutElsewhere(p.disk.tree, path, node, other, Placed(item, content));
    if !moved {
      BackUpStates(p, other);
      BackUpStates(q, other);
      ReplaceStates(BackUp(p, other), item, content);
      ReplaceStates(BackUp(q, other), item, content);
    }
  }

  lemma PutElsewhere(tree: Tree, path: string, node: Option<Node>, other: string, n: Node)
    requires other != path
    ensures Put(tree, path, node)[other := n] == Put(tree[other := n], path, node)
    ensures other in Put(tree, path, node) <==> other in tree
    ensures other in tree ==> Put(tree, path, node)[other] == tree[other]
  {
  }

  /** A second case that differs from the first only in what item `k` is and finds. */
  ghost predicate Varies(c: Case, c': Case, k: nat, node: Option<Node>) {
    && k < |c.planned| && |c'.planned| == |c.planned|
    && (forall i :: 0 <= i < |c.planned| && i != k ==> c'.planned[i] == c.planned[i])
    && c'.planned[k].entry.path == c.planned[k].entry.path
    && c'.tree == Put(c.tree, c.planned[k].entry.path, node)
    && (forall path :: path != c.planned[k].entry.path ==> c'.archive(path) == c.archive(path) && (path in c'.moved <==> path in c.moved))
  }

  lemma {:induction false} TwinRuns(hash: Hash, c: Case, c': Case, k: nat, node: Option<Node>, i: nat)
    requires Varies(c, c', k, node) && NoDuplicates(Paths(c.planned)) && i <= k && !Reached(hash, c, i).failed
    ensures Twins(Reached(hash, c, i), Reached(hash, c', i), c.planned[k].entry.path, node)
    decreases i
  {
    var path := c.planned[k].entry.path;
    if i == 0 {
      assert c.planned[..0] == [] && c'.planned[..0] == [];
      assert Paths(c'.planned) == Paths(c.planned);
    } else {
      NextReached(hash, c, i - 1);
      NextReached(hash, c', i - 1);
      TwinRuns(hash, c, c', k, node, i - 1);
      var other := c.planned[i - 1].entry.path;
      assert other != path by { assert Paths(c.planned)[i - 1] != Paths(c.planned)[k]; }
      TwinTurn(hash, Reached(hash, c, i - 1), Reached(hash, c', i - 1), c.planned[i - 1], c.archive(other), other in c.moved, path, node);
    }
  }

  /** The variant is as good a case, if its item `k` is fit for what it finds. */
  lemma VariantFits(hash: Hash, c: Case, c': Case, k: nat, node: Option<Node>)
    requires PlannedFor(hash, c.tree, c.planned) && JournalNameFree(c.tree, c.planned) && TwelveBits(c.tree)
    requires Varies(c, c', k, node) && c.planned[k].entry.path != JOURNAL_NAME
    requires node.Some? && node.value.File? ==> node.value.mode < CHMOD_BITS
    requires var item := c'.planned[k];
             && Applies(item.classification) && item.local == Inspect(hash, c'.tree, item.entry.path) && !item.local.Unusable?
             && (item.classification.Add? <==> item.entry.path !in c'.tree)
             && (item.local.Regular? ==> item.local.sha != item.entry.sha || item.local.mode != item.entry.mode)
    ensures PlannedFor(hash, c'.tree, c'.planned) && JournalNameFree(c'.tree, c'.planned) && TwelveBits(c'.tree)
  {
    var path := c.planned[k].entry.path;
    assert Paths(c'.planned) == Paths(c.planned);
    forall i | 0 <= i < |c.planned| && i != k
      ensures c'.planned[i].local == Inspect(hash, c'.tree, c'.planned[i].entry.path)
      ensures c'.planned[i].entry.path in c'.tree <==> c.planned[i].entry.path in c.tree
    {
      OtherPath(c, i, k);
    }
  }

  lemma OtherPath(c: Case, i: nat, k: nat)
    requires NoDuplicates(Paths(c.planned)) && i < |c.planned| && k < |c.planned| && i != k
    ensures c.planned[i].entry.path != c.planned[k].entry.path
  {
    assert Paths(c.planned)[i] != Paths(c.planned)[k];
  }

  /** The state after `k` items is recorded. */
  lemma {:induction false} ReachedIsLogged(hash: Hash, c: Case, k: nat)
    requires k <= |c.planned| && !Reached(hash, c, k).failed
    ensures Reached(hash, c, k).disk in Reached(hash, c, k).log
    decreases k
  {
    if k == 0 {
      assert c.planned[..0] == [];
    } else {
      NextReached(hash, c, k - 1);
      var path := c.planned[k - 1].entry.path;
      TurnStates(hash, Reached(hash, c, k - 1), c.planned[k - 1], c.archive(path), path in c.moved);
    }
  }

  /** An added file just renamed may as well be a file found there: one whose
      mode was to change, and that was not yet backed up. */
  lemma MayBeFound(hash: Hash, c: Case, k: nat, d: Disk) returns (c': Case)
    requires Leads(hash, c, d) && k < |c.planned| && !Reached(hash, c, k).failed && Facts(c, k, Reached(hash, c, k))
    requires var path := c.planned[k].entry.path;
             && path !in c.tree && path != JOURNAL_NAME
             && d == Renamed(Reached(hash, c, k).disk, path, Placed(c.planned[k], c.archive(path)))
    ensures Leads(hash, c', d) && c'.tree != c.tree
  {
    var path := c.planned[k].entry.path;
    var node := Placed(c.planned[k], c.archive(path));
    var tree' := Put(c.tree, path, Some(node));
    var mode := node.mode % MODE_BITS;
    var item' := Item(Entry(path, hash(node.bytes), mode + 1), Regular(hash(node.bytes), mode), ModeChange);
    c' := Case(tree', c.planned[k := item'], c.archive, c.moved);
    VariantFits(hash, c, c', k, Some(node));
    TwinRuns(hash, c, c', k, Some(node), k);
    ReachedIsLogged(hash, c', k);
    assert d == Reached(hash, c', k).disk;
    RunContains(hash, c', k, d);
    assert path in tree';
  }

  lemma RenameRestores(d: Disk, d': Disk, j: Journal, path: string, was: Node)
    requires path in d.tree && d.tree[path] == was && d.temps == {}
    requires d'.tree == Put(d.tree, path, None) && d'.backup == d.backup && d'.temps == d.temps
    ensures Renamed(Secured(d', j, path), path, was) == d
  {
    assert (d.tree - {path})[path := was] == d.tree;
  }

  /** The item that adds the file found at `path`. */
  function Adding(hash: Hash, path: string, was: Node): Item
    requires was.File?
  {
    Item(Entry(path, hash(was.bytes), was.mode), Missing, Add)
  }

  function AddedInstead(hash: Hash, c: Case, k: nat): Case
    requires k < |c.planned| && c.planned[k].entry.path in c.tree && c.tree[c.planned[k].entry.path].File?
  {
    var path := c.planned[k].entry.path;
    var was := c.tree[path];
    Case(Put(c.tree, path, None), c.planned[k := Adding(hash, path, was)],
         other => if other == path then was.bytes else c.archive(other), c.moved - {path})
  }

  lemma AddedInsteadFits(hash: Hash, c: Case, k: nat)
    requires PlannedFor(hash, c.tree, c.planned) && JournalNameFree(c.tree, c.planned) && TwelveBits(c.tree)
    requires k < |c.planned| && c.planned[k].entry.path in c.tree && c.planned[k].entry.path != JOURNAL_NAME
    ensures c.tree[c.planned[k].entry.path].File?
    ensures var c' := AddedInstead(hash, c, k);
            && Varies(c, c', k, None)
            && PlannedFor(hash, c'.tree, c'.planned) && JournalNameFree(c'.tree, c'.planned) && TwelveBits(c'.tree)
  {
    VariantFits(hash, c, AddedInstead(hash, c, k), k, None);
  }

  /** The turn that adds the file goes through the disk on which it was found. */
  lemma AddingPasses(hash: Hash, c': Case, k: nat, d: Disk, was: Node)
    requires k < |c'.planned| && !Reached(hash, c', k).failed
    requires was.File? && was.mode < CHMOD_BITS
    requires c'.planned[k] == Adding(hash, c'.planned[k].entry.path, was)
    requires c'.archive(c'.planned[k].entry.path) == was.bytes && c'.planned[k].entry.path !in c'.moved
    requires var p' := Reached(hash, c', k); Renamed(Secured(p'.disk, p'.journal, c'.planned[k].entry.path), c'.planned[k].entry.path, was) == d
    ensures d in Run(hash, Disk(c'.tree, map[], {}), c'.planned, c'.archive, c'.moved).log
  {
    NextReached(hash, c', k);
    assert Placed(c'.planned[k], was.bytes) == was;
    TurnStates(hash, Reached(hash, c', k), c'.planned[k], was.bytes, false);
    RunContains(hash, c', k + 1, d);
  }

  /** A file found there, not yet backed up, may as well have been added. */
  lemma MayBeAdded(hash: Hash, c: Case, k: nat, d: Disk) returns (c': Case)
    requires Leads(hash, c, d) && k < |c.planned| && !Reached(hash, c, k).failed && Facts(c, k, Reached(hash, c, k))
    requires var path := c.planned[k].entry.path; path in c.tree && path != JOURNAL_NAME && d == Reached(hash, c, k).disk
    ensures Leads(hash, c', d) && c'.tree != c.tree
  {
    var path := c.planned[k].entry.path;
    AddedInsteadFits(hash, c, k);
    var was := c.tree[path];
    c' := AddedInstead(hash, c, k);
    FoundStill(c, k, Reached(hash, c, k));
    TwinRuns(hash, c, c', k, None, k);
    RenameRestores(d, Reached(hash, c', k).disk, Reached(hash, c', k).journal, path, was);
    AddingPasses(hash, c', k, d, was);
    assert path !in c'.tree;
  }

  lemma FoundStill(c: Case, k: nat, p: Progress)
    requires k < |c.planned| && Facts(c, k, p) && NoDuplicates(Paths(c.planned)) && c.planned[k].entry.path in c.tree
    ensures c.planned[k].entry.path in p.disk.tree && p.disk.tree[c.planned[k].entry.path] == c.tree[c.planned[k].entry.path]
  {
    Ahead(c, k);
    assert NodeAt(p.disk.tree, c.planned[k].entry.path) == NodeAt(c.tree, c.planned[k].entry.path);
  }

  /** An ambiguous state is either of the two. */
  lemma AmbiguousStates(hash: Hash, c: Case, d: Disk) returns (k: nat)
    requires Leads(hash, c, d) && Ambiguous(d)
    ensures k < |c.planned| && !Reached(hash, c, k).failed && Facts(c, k, Reached(hash, c, k))
    ensures var path := c.planned[k].entry.path;
            && path != JOURNAL_NAME
            && if path in c.tree then d == Reached(hash, c, k).disk
               else d == Renamed(Reached(hash, c, k).disk, path, Placed(c.planned[k], c.archive(path)))
  {
    var n := |c.planned|;
    k := n;
    assert c.planned[..n] == c.planned;
    if d in Reached(hash, c, n).log {
      LogIsSteps(hash, c, n, d);
      k :| 0 <= k <= n && StepState(hash, c, k, d);
      FactsHold(hash, c, k);
      WhichAmbiguous(hash, c, k, Reached(hash, c, k), d);
    } else {
      FactsHold(hash, c, n);
      CompletedIsUnambiguous(c, Reached(hash, c, n));
    }
  }

  lemma CompletedIsUnambiguous(c: Case, p: Progress)
    requires Facts(c, |c.planned|, p)
    ensures !Ambiguous(WriteJournal(p, p.journal.(state := Complete)).disk)
  {
  }

  lemma WhichAmbiguous(hash: Hash, c: Case, k: nat, p: Progress, d: Disk)
    requires PlannedFor(hash, c.tree, c.planned) && JournalNameFree(c.tree, c.planned) && k <= |c.planned| && Facts(c, k, p)
    requires d == p.disk || (k < |c.planned| && Within(d, p, c.planned[k], c.archive(c.planned[k].entry.path)))
    requires Ambiguous(d)
    ensures k < |c.planned|
    ensures var path := c.planned[k].entry.path;
            && path != JOURNAL_NAME
            && if path in c.tree then d == p.disk else d == Renamed(p.disk, path, Placed(c.planned[k], c.archive(path)))
  {
    if k < |c.planned| {
      var path := c.planned[k].entry.path;
      Ahead(c, k);
      assert Paths(c.planned)[k] == path;
      assert NodeAt(p.disk.tree, path) == NodeAt(c.tree, path);
      if d != p.disk {
        WithinIsAmbiguous(c, k, p, d, Placed(c.planned[k], c.archive(path)));
      }
    }
  }

  lemma WithinIsAmbiguous(c: Case, k: nat, p: Progress, d: Disk, node: Node)
    requires k < |c.planned| && Facts(c, k, p) && JournalNameFree(c.tree, c.planned) && NoDuplicates(Paths(c.planned))
    requires var path := c.planned[k].entry.path;
             || (path in p.disk.tree && d in WhileBackingUp(p.disk, p.journal, path))
             || d == WithTemporary(Secured(p.disk, p.journal, path), path)
             || d == Renamed(Secured(p.disk, p.journal, path), path, node)
    requires Ambiguous(d)
    ensures var path := c.planned[k].entry.path;
            path !in p.disk.tree && path != JOURNAL_NAME && d == Renamed(p.disk, path, node)
  {
    var path := c.planned[k].entry.path;
    Ahead(c, k);
    assert Paths(c.planned)[k] == path;
    if path in p.disk.tree {
      GuessBackingUp(c, k, p, 0);
      GuessBackingUp(c, k, p, 1);
      GuessBackingUp(c, k, p, 2);
      SecuredJournal(c, k, p);
    }
  }

  /** The target, the backup and the journal of a durable state determine the
      tree the run started from exactly if the state is not ambiguous. */
  lemma DeterminedIff(hash: Hash, c: Case, d: Disk)
    requires Leads(hash, c, d)
    ensures (forall c' :: Leads(hash, c', d) ==> c'.tree == c.tree) <==> !Ambiguous(d)
  {
    if Ambiguous(d) {
      var k := AmbiguousStates(hash, c, d);
      var c';
      if c.planned[k].entry.path in c.tree {
        c' := MayBeAdded(hash, c, k, d);
      } else {
        c' := MayBeFound(hash, c, k, d);
      }
      assert Leads(hash, c', d);
    } else {
      UnambiguousIsGuessed(hash, c, d);
      forall c' | Leads(hash, c', d) ensures c'.tree == c.tree {
        UnambiguousIsGuessed(hash, c', d);
        GuessIsUnique(d, c'.tree, c.tree);
      }
    }
  }
}

/** Artifact lineage: a committed result's links are projected into a source
    catalog that may fail at any call, and a repeated run repairs them. */
module Lineage {
  import opened Wrappers
  import opened OperationIds

  datatype Output = Output(relationshipId: string, sourceVersion: string, available: bool, facts: string)

  /** What the catalog keeps under one operation id. */
  datatype Link = Link(resultId: string, output: Output)

  type Links = map<string, Link>

  /** A call may fail before or after the catalog has committed it. */
  datatype Fault = NoFault | BeforeCommit | AfterCommit

  /** The result, how it names the operation of a relationship, and which
      links the catalog's own rules refuse for good. */
  datatype AcceptanceResult = AcceptanceResult(resultId: string, outputs: seq<Output>, operationOf: string -> string, refused: Output -> bool)

  datatype Readback = Readback(recorded: seq<string>, pending: seq<string>)

  function LinkOf(r: AcceptanceResult, o: Output): Link {
    Link(r.resultId, o)
  }

  function Operation(r: AcceptanceResult, o: Output): string {
    r.operationOf(o.relationshipId)
  }

  /** What a call leaves in the catalog: the first link under an operation id stays. */
  function Record(links: Links, r: AcceptanceResult, o: Output, fault: Fault): Links {
    var op := Operation(r, o);
    if op in links || fault.BeforeCommit? || r.refused(o) then links else links[op := LinkOf(r, o)]
  }

  /** Whether it answers Ok; a repeated operation is answered by what it left the first time. */
  predicate Accepted(links: Links, r: AcceptanceResult, o: Output, fault: Fault) {
    var op := Operation(r, o);
    fault.NoFault? && if op in links then links[op] == LinkOf(r, o) else !r.refused(o)
  }

  /** The source catalog, as far as its idempotence by operation id goes. */
  class SourceCatalog {
    var links: Links

    constructor ()
      ensures links == map[]
    {
      links := map[];
    }

    method RecordArtifactRelationship(r: AcceptanceResult, o: Output, fault: Fault) returns (ok: bool)
      modifies this
      ensures links == Record(old(links), r, o, fault) && (ok <==> Accepted(old(links), r, o, fault))
    {
      ok := Accepted(links, r, o, fault);
      links := Record(links, r, o, fault);
    }
  }

  function Project(links: Links, r: AcceptanceResult, outputs: seq<Output>, faults: seq<Fault>): (Links, Readback)
    requires |faults| == |outputs|
    decreases |outputs|
  {
    if outputs == [] then (links, Readback([], []))
    else
      var o, fault := outputs[0], faults[0];
      var ok := o.available && Accepted(links, r, o, fault);
      var (links', rest) := Project(if o.available then Record(links, r, o, fault) else links, r, outputs[1..], faults[1..]);
      (links', if ok then rest.(recorded := [o.relationshipId] + rest.recorded)
               else rest.(pending := [o.sourceVersion] + rest.pending))
  }

  /** One list in front of another, both ways. */
  function Before(a: Readback, b: Readback): Readback {
    Readback(a.recorded + b.recorded, a.pending + b.pending)
  }

  lemma ProjectStep(links: Links, r: AcceptanceResult, outputs: seq<Output>, faults: seq<Fault>, i: nat, done: Readback)
    requires i < |outputs| == |faults|
    ensures var o := outputs[i];
            var ok := o.available && Accepted(links, r, o, faults[i]);
            var links' := if o.available then Record(links, r, o, faults[i]) else links;
            var done' := if ok then done.(recorded := done.recorded + [o.relationshipId])
                         else done.(pending := done.pending + [o.sourceVersion]);
            var now, later := Project(links, r, outputs[i..], faults[i..]), Project(links', r, outputs[i + 1..], faults[i + 1..]);
            now.0 == later.0 && Before(done, now.1) == Before(done', later.1)
  {
    assert outputs[i..][1..] == outputs[i + 1..] && faults[i..][1..] == faults[i + 1..];
  }

  /** write_result_lineage. `faults` says how the catalog fails at each output. */
  method WriteResultLineage(catalog: SourceCatalog, r: AcceptanceResult, faults: seq<Fault>) returns (readback: Readback)
    requires |faults| == |r.outputs|
    modifies catalog
    ensures (catalog.links, readback) == Project(old(catalog.links), r, r.outputs, faults)
  {
    readback := Readback([], []);
    ghost var goal := Project(catalog.links, r, r.outputs, faults);
    assert r.outputs[0..] == r.outputs && faults[0..] == faults;
    assert Before(readback, goal.1) == goal.1;
    var i := 0;
    while i < |r.outputs|
      invariant 0 <= i <= |r.outputs|
      invariant Project(catalog.links, r, r.outputs[i..], faults[i..]).0 == goal.0
      invariant Before(readback, Project(catalog.links, r, r.outputs[i..], faults[i..]).1) == goal.1
    {
      var o := r.outputs[i];
      ProjectStep(catalog.links, r, r.outputs, faults, i, readback);
      var ok := false;
      if o.available {
        ok := catalog.RecordArtifactRelationship(r, o, faults[i]);
      }
      if ok {
        readback := readback.(recorded := readback.recorded + [o.relationshipId]);
      } else {
        readback := readback.(pending := readback.pending + [o.sourceVersion]);
      }
      i := i + 1;
    }
    assert r.outputs[i..] == [] && Before(readback, Readback([], [])) == readback;
  }

  /******* Where each output goes *******/

  /** The outputs at which `marks` is `which`, in order. */
  function Pick(outputs: seq<Output>, marks: seq<bool>, which: bool): seq<Output>
    requires |marks| == |outputs|
  {
    if outputs == [] then []
    else (if marks[0] == which then [outputs[0]] else []) + Pick(outputs[1..], marks[1..], which)
  }

  function Ids(outputs: seq<Output>): seq<string> {
    seq(|outputs|, i requires 0 <= i < |outputs| => outputs[i].relationshipId)
  }

  function Versions(outputs: seq<Output>): seq<string> {
    seq(|outputs|, i requires 0 <= i < |outputs| => outputs[i].sourceVersion)
  }

  ghost predicate DistinctOperations(r: AcceptanceResult, outputs: seq<Output>) {
    forall i, j :: 0 <= i < j < |outputs| ==> Operation(r, outputs[i]) != Operation(r, outputs[j])
  }

  /** Each output on its own, judged by the catalog as it was before the run. */
  function Mark(links: Links, r: AcceptanceResult, o: Output, fault: Fault): bool {
    o.available && Accepted(links, r, o, fault)
  }

  function Marks(links: Links, r: AcceptanceResult, outputs: seq<Output>, faults: seq<Fault>): (m: seq<bool>)
    requires |faults| == |outputs|
    ensures |m| == |outputs|
  {
    seq(|outputs|, i requires 0 <= i < |outputs| => Mark(links, r, outputs[i], faults[i]))
  }

  function Entry(links: Links, op: string): Option<Link> {
    if op in links then Some(links[op]) else None
  }

  /** The catalog after the run, entry by entry. */
  ghost predicate Projected(links: Links, r: AcceptanceResult, outputs: seq<Output>, faults: seq<Fault>, after: Links)
    requires |faults| == |outputs|
  {
    && (forall i :: 0 <= i < |outputs| ==>
          Entry(after, Operation(r, outputs[i])) ==
          Entry(if outputs[i].available then Record(links, r, outputs[i], faults[i]) else links, Operation(r, outputs[i])))
    && (forall op :: (forall i :: 0 <= i < |outputs| ==> Operation(r, outputs[i]) != op) ==> Entry(after, op) == Entry(links, op))
  }

  ghost predicate PartitionedBy(outputs: seq<Output>, readback: Readback, marks: seq<bool>) {
    |marks| == |outputs| && readback == Readback(Ids(Pick(outputs, marks, true)), Versions(Pick(outputs, marks, false)))
  }

  lemma PartitionStep(outputs: seq<Output>, later: Readback, marks: seq<bool>, ok: bool)
    requires outputs != [] && PartitionedBy(outputs[1..], later, marks)
    ensures PartitionedBy(outputs, if ok then later.(recorded := [outputs[0].relationshipId] + later.recorded)
                                   else later.(pending := [outputs[0].sourceVersion] + later.pending), [ok] + marks)
  {
    assert ([ok] + marks)[1..] == marks;
    PickStep(outputs, [ok] + marks);
  }

  lemma IdsCons(o: Output, rest: seq<Output>)
    ensures Ids([o] + rest) == [o.relationshipId] + Ids(rest)
  {
  }

  lemma VersionsCons(o: Output, rest: seq<Output>)
    ensures Versions([o] + rest) == [o.sourceVersion] + Versions(rest)
  {
  }

  lemma PickStep(outputs: seq<Output>, marks: seq<bool>)
    requires |marks| == |outputs| > 0
    ensures Ids(Pick(outputs, marks, true)) == (if marks[0] then [outputs[0].relationshipId] else []) + Ids(Pick(outputs[1..], marks[1..], true))
    ensures Versions(Pick(outputs, marks, false)) == (if marks[0] then [] else [outputs[0].sourceVersion]) + Versions(Pick(outputs[1..], marks[1..], false))
  {
    if marks[0] {
      IdsCons(outputs[0], Pick(outputs[1..], marks[1..], true));
      assert Pick(outputs, marks, false) == Pick(outputs[1..], marks[1..], false);
    } else {
      VersionsCons(outputs[0], Pick(outputs[1..], marks[1..], false));
      assert Pick(outputs, marks, true) == Pick(outputs[1..], marks[1..], true);
    }
  }

  /** With distinct operations every output lands in exactly one of the two
      lists, in order, as the catalog before the run decides. */
  lemma {:induction false} ProjectMeans(links: Links, r: AcceptanceResult, outputs: seq<Output>, faults: seq<Fault>)
    requires |faults| == |outputs| && DistinctOperations(r, outputs)
    ensures var (after, readback) := Project(links, r, outputs, faults);
            var marks := Marks(links, r, outputs, faults);
            && readback.recorded == Ids(Pick(outputs, marks, true))
            && readback.pending == Versions(Pick(outputs, marks, false))
            && Projected(links, r, outputs, faults, after)
    decreases |outputs|
  {
    if outputs != [] {
      var o, fault := outputs[0], faults[0];
      var links1 := if o.available then Record(links, r, o, fault) else links;
      ProjectMeans(links1, r, outputs[1..], faults[1..]);
      forall i | 1 <= i < |outputs|
        ensures Entry(links1, Operation(r, outputs[i])) == Entry(links, Operation(r, outputs[i]))
        ensures Mark(links1, r, outputs[i], faults[i]) == Mark(links, r, outputs[i], faults[i])
      {
        assert Operation(r, outputs[0]) != Operation(r, outputs[i]);
      }
      MarksStep(links, links1, r, outputs, faults);
      PickStep(outputs, Marks(links, r, outputs, faults));
      ProjectedStep(links, links1, r, outputs, faults, Project(links, r, outputs, faults).0);
    }
  }

  lemma MarksStep(links: Links, links1: Links, r: AcceptanceResult, outputs: seq<Output>, faults: seq<Fault>)
    requires |faults| == |outputs| > 0
    requires forall i :: 1 <= i < |outputs| ==> Mark(links1, r, outputs[i], faults[i]) == Mark(links, r, outputs[i], faults[i])
    ensures var marks := Marks(links, r, outputs, faults);
            marks[1..] == Marks(links1, r, outputs[1..], faults[1..]) && marks[0] == Mark(links, r, outputs[0], faults[0])
  {
  }

  lemma ProjectedStep(links: Links, links1: Links, r: AcceptanceResult, outputs: seq<Output>, faults: seq<Fault>, after: Links)
    requires |faults| == |outputs| > 0 && DistinctOperations(r, outputs)
    requires links1 == if outputs[0].available then Record(links, r, outputs[0], faults[0]) else links
    requires Projected(links1, r, outputs[1..], faults[1..], after)
    ensures Projected(links, r, outputs, faults, after)
  {
    var op0 := Operation(r, outputs[0]);
    forall i | 0 <= i < |outputs[1..]| ensures Operation(r, outputs[1..][i]) != op0 {
      assert outputs[1..][i] == outputs[i + 1];
    }
    assert Entry(after, op0) == Entry(links1, op0);
    forall i | 0 <= i < |outputs|
      ensures Entry(after, Operation(r, outputs[i])) ==
              Entry(if outputs[i].available then Record(links, r, outputs[i], faults[i]) else links, Operation(r, outputs[i]))
    {
      if i > 0 {
        assert outputs[i] == outputs[1..][i - 1] && faults[i] == faults[1..][i - 1];
        assert Operation(r, outputs[0]) != Operation(r, outputs[i]);
      }
    }
    forall op | forall i :: 0 <= i < |outputs| ==> Operation(r, outputs[i]) != op
      ensures Entry(after, op) == Entry(links, op)
    {
      assert Operation(r, outputs[0]) != op;
      forall i | 0 <= i < |outputs[1..]| ensures Operation(r, outputs[1..][i]) != op {
        assert outputs[1..][i] == outputs[i + 1];
      }
    }
  }

  /******* What is reported is there *******/

  /** The marks that the catalog after the run justifies. */
  function Justified(r: AcceptanceResult, outputs: seq<Output>, faults: seq<Fault>, after: Links): (m: seq<bool>)
    requires |faults| == |outputs|
    ensures |m| == |outputs|
  {
    seq(|outputs|, i requires 0 <= i < |outputs| =>
      outputs[i].available && faults[i].NoFault? && Entry(after, Operation(r, outputs[i])) == Some(Link(r.resultId, outputs[i])))
  }

  lemma {:induction false} RefusedNeverThere(links: Links, r: AcceptanceResult, outputs: seq<Output>, faults: seq<Fault>, o: Output)
    requires |faults| == |outputs| && r.refused(o) && Entry(links, Operation(r, o)) != Some(LinkOf(r, o))
    ensures Entry(Project(links, r, outputs, faults).0, Operation(r, o)) != Some(LinkOf(r, o))
    decreases |outputs|
  {
    if outputs != [] {
      RefusedNeverThere(if outputs[0].available then Record(links, r, outputs[0], faults[0]) else links, r, outputs[1..], faults[1..], o);
    }
  }

  /** An answer of Ok means that the link is in the catalog for good. */
  lemma AcceptedIffThere(links: Links, r: AcceptanceResult, o: Output, fault: Fault, outputs: seq<Output>, faults: seq<Fault>)
    requires |faults| == |outputs| && fault.NoFault?
    ensures var after := Project(Record(links, r, o, fault), r, outputs, faults).0;
            Accepted(links, r, o, fault) <==> Entry(after, Operation(r, o)) == Some(Link(r.resultId, o))
  {
    var op, links1 := Operation(r, o), Record(links, r, o, fault);
    if op in links1 {
      EntryStays(links1, r, outputs, faults, op);
    } else {
      RefusedNeverThere(links1, r, outputs, faults, o);
    }
  }

  lemma JustifiedStep(r: AcceptanceResult, outputs: seq<Output>, faults: seq<Fault>, after: Links, ok: bool)
    requires |faults| == |outputs| > 0
    requires ok <==> outputs[0].available && faults[0].NoFault?
                     && Entry(after, Operation(r, outputs[0])) == Some(Link(r.resultId, outputs[0]))
    ensures Justified(r, outputs, faults, after) == [ok] + Justified(r, outputs[1..], faults[1..], after)
  {
  }

  /** In every run, whatever fails and whatever contends: an output is reported
      as recorded exactly if the call succeeded and the catalog in the end holds
      its link, and as pending otherwise. */
  lemma {:induction false} RecordedIffThere(links: Links, r: AcceptanceResult, outputs: seq<Output>, faults: seq<Fault>)
    requires |faults| == |outputs|
    ensures var (after, readback) := Project(links, r, outputs, faults);
            PartitionedBy(outputs, readback, Justified(r, outputs, faults, after))
    decreases |outputs|
  {
    var (after, readback) := Project(links, r, outputs, faults);
    if outputs == [] {
      assert Pick(outputs, [], true) == [] && Pick(outputs, [], false) == [] && Ids([]) == [] && Versions([]) == [];
      assert Justified(r, outputs, faults, after) == [];
    } else {
      var o := outputs[0];
      var ok := o.available && Accepted(links, r, o, faults[0]);
      var links1 := if o.available then Record(links, r, o, faults[0]) else links;
      RecordedIffThere(links1, r, outputs[1..], faults[1..]);
      if o.available && faults[0].NoFault? { AcceptedIffThere(links, r, o, faults[0], outputs[1..], faults[1..]); }
      JustifiedStep(r, outputs, faults, after, ok);
      PartitionStep(outputs, Project(links1, r, outputs[1..], faults[1..]).1, Justified(r, outputs[1..], faults[1..], after), ok);
    }
  }

  /******* Repair *******/

  function Clean(n: nat): (faults: seq<Fault>)
    ensures |faults| == n
  {
    seq(n, i => NoFault)
  }

  /** A catalog reached from `links` by runs for this result: what was there
      stays, and what was added is the link a clean run adds. */
  ghost predicate Between(links: Links, r: AcceptanceResult, now: Links) {
    && (forall op :: op in links ==> op in now && now[op] == links[op])
    && (forall op :: op in now && op !in links ==>
          exists i :: 0 <= i < |r.outputs| && r.outputs[i].available && !r.refused(r.outputs[i])
                      && Operation(r, r.outputs[i]) == op && now[op] == LinkOf(r, r.outputs[i]))
  }

  lemma RecordStaysBetween(links: Links, r: AcceptanceResult, now: Links, o: Output, fault: Fault)
    requires Between(links, r, now) && o in r.outputs && o.available
    ensures Between(links, r, Record(now, r, o, fault))
  {
    var i :| 0 <= i < |r.outputs| && r.outputs[i] == o;
  }

  lemma {:induction false} RunStaysBetween(links: Links, r: AcceptanceResult, now: Links, outputs: seq<Output>, faults: seq<Fault>)
    requires |faults| == |outputs| && Between(links, r, now) && forall o :: o in outputs ==> o in r.outputs
    ensures Between(links, r, Project(now, r, outputs, faults).0)
    decreases |outputs|
  {
    if outputs != [] {
      if outputs[0].available { RecordStaysBetween(links, r, now, outputs[0], faults[0]); }
      RunStaysBetween(links, r, if outputs[0].available then Record(now, r, outputs[0], faults[0]) else now, outputs[1..], faults[1..]);
    }
  }

  /** No two outputs that the catalog would take contend for one operation id
      that it does not hold yet. Relationship ids are distinct when a result is
      bound, so only equal truncated digests can bring two outputs there. */
  ghost predicate Compatible(links: Links, r: AcceptanceResult) {
    forall i, j :: 0 <= i < |r.outputs| && 0 <= j < |r.outputs| && Contend(links, r, r.outputs[i], r.outputs[j]) ==>
      r.outputs[i] == r.outputs[j]
  }

  predicate Contend(links: Links, r: AcceptanceResult, o: Output, o': Output) {
    && o.available && o'.available && !r.refused(o) && !r.refused(o')
    && Operation(r, o) == Operation(r, o') && Operation(r, o) !in links
  }

  /** Every link a clean run adds is there. */
  ghost predicate Covers(r: AcceptanceResult, outputs: seq<Output>, now: Links) {
    forall i :: 0 <= i < |outputs| && outputs[i].available && !r.refused(outputs[i]) ==> Operation(r, outputs[i]) in now
  }

  /** The answer to an output does not depend on which earlier runs got how far. */
  lemma AcceptedAlike(links: Links, r: AcceptanceResult, now: Links, o: Output)
    requires Compatible(links, r) && Between(links, r, now) && o in r.outputs && o.available
    ensures Accepted(now, r, o, NoFault) == Accepted(links, r, o, NoFault)
  {
    var k :| 0 <= k < |r.outputs| && r.outputs[k] == o;
    var op := Operation(r, o);
    if op in now && op !in links {
      var i :| 0 <= i < |r.outputs| && r.outputs[i].available && !r.refused(r.outputs[i])
               && Operation(r, r.outputs[i]) == op && now[op] == LinkOf(r, r.outputs[i]);
      if !r.refused(o) { assert Contend(links, r, r.outputs[i], r.outputs[k]); }
    }
  }

  lemma {:induction false} EntryStays(links: Links, r: AcceptanceResult, outputs: seq<Output>, faults: seq<Fault>, op: string)
    requires |faults| == |outputs| && op in links
    ensures op in Project(links, r, outputs, faults).0 && Project(links, r, outputs, faults).0[op] == links[op]
    decreases |outputs|
  {
    if outputs != [] {
      EntryStays(if outputs[0].available then Record(links, r, outputs[0], faults[0]) else links, r, outputs[1..], faults[1..], op);
    }
  }

  lemma {:induction false} CleanRunCovers(links: Links, r: AcceptanceResult, outputs: seq<Output>)
    ensures Covers(r, outputs, Project(links, r, outputs, Clean(|outputs|)).0)
    decreases |outputs|
  {
    if outputs != [] {
      var o := outputs[0];
      assert Clean(|outputs|)[1..] == Clean(|outputs[1..]|);
      var links1 := if o.available then Record(links, r, o, NoFault) else links;
      CleanRunCovers(links1, r, outputs[1..]);
      if o.available && !r.refused(o) {
        EntryStays(links1, r, outputs[1..], Clean(|outputs[1..]|), Operation(r, o));
      }
      forall i | 1 <= i < |outputs| && outputs[i].available && !r.refused(outputs[i])
        ensures Operation(r, outputs[i]) in Project(links, r, outputs, Clean(|outputs|)).0
      {
        assert outputs[1..][i - 1] == outputs[i];
      }
    }
  }

  lemma {:induction false} SameReadback(links: Links, r: AcceptanceResult, now: Links, other: Links, outputs: seq<Output>)
    requires Compatible(links, r) && Between(links, r, now) && Between(links, r, other) && forall o :: o in outputs ==> o in r.outputs
    ensures Project(now, r, outputs, Clean(|outputs|)).1 == Project(other, r, outputs, Clean(|outputs|)).1
    decreases |outputs|
  {
    if outputs != [] {
      var o := outputs[0];
      assert Clean(|outputs|)[1..] == Clean(|outputs[1..]|);
      if o.available {
        AcceptedAlike(links, r, now, o);
        AcceptedAlike(links, r, other, o);
        RecordStaysBetween(links, r, now, o, NoFault);
        RecordStaysBetween(links, r, other, o, NoFault);
        SameReadback(links, r, Record(now, r, o, NoFault), Record(other, r, o, NoFault), outputs[1..]);
      } else {
        SameReadback(links, r, now, other, outputs[1..]);
      }
    }
  }

  lemma SameEntry(links: Links, r: AcceptanceResult, a: Links, b: Links, op: string)
    requires Compatible(links, r) && Between(links, r, a) && Between(links, r, b)
    requires Covers(r, r.outputs, a) && Covers(r, r.outputs, b)
    ensures op in a ==> op in b && a[op] == b[op]
  {
    if op in a && op !in links {
      var i :| 0 <= i < |r.outputs| && r.outputs[i].available && !r.refused(r.outputs[i])
               && Operation(r, r.outputs[i]) == op && a[op] == LinkOf(r, r.outputs[i]);
      assert op in b;
      var j :| 0 <= j < |r.outputs| && r.outputs[j].available && !r.refused(r.outputs[j])
               && Operation(r, r.outputs[j]) == op && b[op] == LinkOf(r, r.outputs[j]);
      assert Contend(links, r, r.outputs[i], r.outputs[j]);
    }
  }

  lemma SameLinks(a: Links, b: Links)
    requires forall op :: op in a ==> op in b && a[op] == b[op]
    requires forall op :: op in b ==> op in a
    ensures a == b
  {
  }

  /** What a clean run reaches is determined by where the runs began. */
  lemma SameCatalog(links: Links, r: AcceptanceResult, a: Links, b: Links)
    requires Compatible(links, r) && Between(links, r, a) && Between(links, r, b)
    requires Covers(r, r.outputs, a) && Covers(r, r.outputs, b)
    ensures a == b
  {
    forall op | op in a ensures op in b && a[op] == b[op] { SameEntry(links, r, a, b, op); }
    forall op | op in b ensures op in a { SameEntry(links, r, b, a, op); }
    SameLinks(a, b);
  }

  lemma CleanCatalog(links: Links, r: AcceptanceResult, now: Links)
    requires Between(links, r, now)
    ensures var after := Project(now, r, r.outputs, Clean(|r.outputs|)).0; Between(links, r, after) && Covers(r, r.outputs, after)
  {
    RunStaysBetween(links, r, now, r.outputs, Clean(|r.outputs|));
    CleanRunCovers(now, r, r.outputs);
  }

  /** A clean run does what it would have done at the start. */
  lemma CleanRunAgrees(links: Links, r: AcceptanceResult, now: Links)
    requires Compatible(links, r) && Between(links, r, now)
    ensures Project(now, r, r.outputs, Clean(|r.outputs|)) == Project(links, r, r.outputs, Clean(|r.outputs|))
  {
    var n := |r.outputs|;
    SameReadback(links, r, now, links, r.outputs);
    CleanCatalog(links, r, now);
    CleanCatalog(links, r, links);
    SameCatalog(links, r, Project(now, r, r.outputs, Clean(n)).0, Project(links, r, r.outputs, Clean(n)).0);
  }

  function Runs(links: Links, r: AcceptanceResult, runs: seq<seq<Fault>>): Links
    requires forall k :: 0 <= k < |runs| ==> |runs[k]| == |r.outputs|
    decreases |runs|
  {
    if runs == [] then links else Runs(Project(links, r, r.outputs, runs[0]).0, r, runs[1..])
  }

  lemma {:induction false} RunsStayBetween(links: Links, r: AcceptanceResult, now: Links, runs: seq<seq<Fault>>)
    requires (forall k :: 0 <= k < |runs| ==> |runs[k]| == |r.outputs|) && Between(links, r, now)
    ensures Between(links, r, Runs(now, r, runs))
    decreases |runs|
  {
    if runs != [] {
      RunStaysBetween(links, r, now, r.outputs, runs[0]);
      RunsStayBetween(links, r, Project(now, r, r.outputs, runs[0]).0, runs[1..]);
    }
  }

  /** After these runs, failed in any way, one clean run gives the catalog and
      the answer of a single clean run. */
  ghost predicate Repaired(links: Links, r: AcceptanceResult, runs: seq<seq<Fault>>) {
    (forall k :: 0 <= k < |runs| ==> |runs[k]| == |r.outputs|) ==>
      Project(Runs(links, r, runs), r, r.outputs, Clean(|r.outputs|)) == Project(links, r, r.outputs, Clean(|r.outputs|))
  }

  lemma RepairIsComplete(links: Links, r: AcceptanceResult, runs: seq<seq<Fault>>)
    requires Compatible(links, r)
    ensures Repaired(links, r, runs)
  {
    if forall k :: 0 <= k < |runs| ==> |runs[k]| == |r.outputs| {
      RunsStayBetween(links, r, links, runs);
      CleanRunAgrees(links, r, Runs(links, r, runs));
    }
  }

  /** Repeating a clean run changes nothing and says the same. */
  lemma RepairIsIdempotent(links: Links, r: AcceptanceResult)
    requires Compatible(links, r)
    ensures var once := Project(links, r, r.outputs, Clean(|r.outputs|));
            Project(once.0, r, r.outputs, Clean(|r.outputs|)) == once
  {
    RunStaysBetween(links, r, links, r.outputs, Clean(|r.outputs|));
    CleanRunAgrees(links, r, Project(links, r, r.outputs, Clean(|r.outputs|)).0);
  }

  /** A run in which only one output gets through. */
  function Only(n: nat, k: nat): (faults: seq<Fault>)
    ensures |faults| == n
  {
    seq(n, i => if i == k then NoFault else BeforeCommit)
  }

  lemma {:induction false} OnlyOneRecorded(links: Links, r: AcceptanceResult, outputs: seq<Output>, faults: seq<Fault>, k: nat)
    requires |faults| == |outputs| && k < |outputs| && faults[k].NoFault?
    requires forall i :: 0 <= i < |outputs| && i != k ==> faults[i].BeforeCommit?
    requires outputs[k].available && !r.refused(outputs[k]) && Operation(r, outputs[k]) !in links
    ensures var after := Project(links, r, outputs, faults).0;
            Operation(r, outputs[k]) in after && after[Operation(r, outputs[k])] == LinkOf(r, outputs[k])
    decreases |outputs|
  {
    if k == 0 {
      EntryStays(Record(links, r, outputs[0], faults[0]), r, outputs[1..], faults[1..], Operation(r, outputs[0]));
    } else {
      OnlyOneRecorded(links, r, outputs[1..], faults[1..], k - 1);
    }
  }

  /** Two different outputs that contend: if only the one that a clean run
      passes over gets through, it keeps the place for ever. */
  lemma CollisionDefeatsRepair(links: Links, r: AcceptanceResult, i: nat, j: nat)
    requires i < |r.outputs| && j < |r.outputs| && r.outputs[i] != r.outputs[j]
    requires Contend(links, r, r.outputs[i], r.outputs[j])
    ensures exists runs :: !Repaired(links, r, runs)
  {
    var n, op := |r.outputs|, Operation(r, r.outputs[i]);
    var clean := Project(links, r, r.outputs, Clean(n)).0;
    CleanRunCovers(links, r, r.outputs);
    assert op in clean;
    var k := if clean[op] == LinkOf(r, r.outputs[i]) then j else i;
    var broken := Project(links, r, r.outputs, Only(n, k)).0;
    OnlyOneRecorded(links, r, r.outputs, Only(n, k), k);
    EntryStays(broken, r, r.outputs, Clean(n), op);
    var runs := [Only(n, k)];
    assert runs[1..] == [] && Runs(links, r, runs) == broken;
    assert Project(broken, r, r.outputs, Clean(n)).0[op] != clean[op];
    assert !Repaired(links, r, runs);
  }

  /** reconcile_artifact_lineage repairs every pattern of failures exactly if
      no two outputs contend for one operation id. */
  lemma RepairIsCompleteIff(links: Links, r: AcceptanceResult)
    ensures (forall runs :: Repaired(links, r, runs)) <==> Compatible(links, r)
  {
    if Compatible(links, r) {
      forall runs ensures Repaired(links, r, runs) { RepairIsComplete(links, r, runs); }
    } else {
      var i, j :| 0 <= i < |r.outputs| && 0 <= j < |r.outputs| && Contend(links, r, r.outputs[i], r.outputs[j]) && r.outputs[i] != r.outputs[j];
      CollisionDefeatsRepair(links, r, i, j);
    }
  }

  /** With distinct operation ids, as distinct relationship ids have unless
      their truncated digests agree, every pattern of failures is repaired,
      whatever the catalog held. */
  lemma DistinctIsRepaired(links: Links, r: AcceptanceResult, runs: seq<seq<Fault>>)
    requires DistinctOperations(r, r.outputs)
    ensures Repaired(links, r, runs)
  {
    forall i, j | 0 <= i < |r.outputs| && 0 <= j < |r.outputs| && Contend(links, r, r.outputs[i], r.outputs[j])
      ensures r.outputs[i] == r.outputs[j]
    {
      SameOperation(r, i, j);
    }
    RepairIsComplete(links, r, runs);
  }

  lemma SameOperation(r: AcceptanceResult, i: nat, j: nat)
    requires DistinctOperations(r, r.outputs) && i < |r.outputs| && j < |r.outputs|
    requires Operation(r, r.outputs[i]) == Operation(r, r.outputs[j])
    ensures i == j
  {
  }

  /******* Criteria *******/

  /** A criterion's fields, None where they are not of the type the code reads. */
  datatype Criterion = Criterion(kind: Option<string>, value: Option<nat>, text: Option<string>)

  datatype CriterionResult = CriterionResult(criterionId: string, passed: bool, observed: string)

  /** The bytes of an artifact and what two decoders make of them. */
  datatype Content = Content(length: nat, isJson: bool, utf8: Option<string>)

  datatype Invalid = NoCriteria | NoKind | NoValue | NoText | UnknownKind

  predicate Contains(s: string, t: string) {
    exists i :: 0 <= i <= |s| && t <= s[i..]
  }

  function Inspect(c: Criterion, content: Content): Result<CriterionResult, Invalid> {
    if c.kind.None? then Err(NoKind)
    else if c.kind.value in {"min_bytes", "max_bytes"} then
      (if c.value.None? then Err(NoValue)
       else Ok(CriterionResult(c.kind.value,
                       if c.kind.value == "min_bytes" then content.length >= c.value.value else content.length <= c.value.value,
                       Numeral(content.length, 10))))
    else if c.kind.value == "json_document" then
      Ok(CriterionResult(c.kind.value, content.isJson, if content.isJson then "valid_json" else "invalid_json"))
    else if c.kind.value == "text_contains" then
      (if c.text.None? then Err(NoText)
       else
         var passed := content.utf8.Some? && Contains(content.utf8.value, c.text.value);
         Ok(CriterionResult("text_contains:" + c.text.value, passed,
                    if content.utf8.None? then "not_utf8" else if passed then "matched" else "not_found")))
    else Err(UnknownKind)
  }

  function Unavailable(c: Criterion, reason: string): Result<CriterionResult, Invalid> {
    if c.kind.None? then Err(NoKind)
    else if c.kind.value in {"min_bytes", "max_bytes", "json_document"} then Ok(CriterionResult(c.kind.value, false, reason))
    else if c.kind.value == "text_contains" then
      (if c.text.None? then Err(NoText) else Ok(CriterionResult("text_contains:" + c.text.value, false, reason)))
    else Err(UnknownKind)
  }

  /** `iter().map(f).collect()`: all verdicts, or the first error. */
  function Collect(criteria: seq<Criterion>, f: Criterion -> Result<CriterionResult, Invalid>): Result<seq<CriterionResult>, Invalid> {
    if criteria == [] then Ok([])
    else
      match f(criteria[0])
      case Err(e) => Err(e)
      case Ok(v) =>
        match Collect(criteria[1..], f)
        case Err(e) => Err(e)
        case Ok(rest) => Ok([v] + rest)
  }

  function InspectCriteria(criteria: Option<seq<Criterion>>, content: Content): Result<seq<CriterionResult>, Invalid> {
    if criteria.None? then Err(NoCriteria) else Collect(criteria.value, c => Inspect(c, content))
  }

  function UnavailableCriteria(criteria: Option<seq<Criterion>>, reason: string): Result<seq<CriterionResult>, Invalid> {
    if criteria.None? then Err(NoCriteria) else Collect(criteria.value, c => Unavailable(c, reason))
  }

  lemma {:induction false} CollectMeans(criteria: seq<Criterion>, f: Criterion -> Result<CriterionResult, Invalid>)
    ensures var all := Collect(criteria, f);
            && (all.Ok? <==> forall i :: 0 <= i < |criteria| ==> f(criteria[i]).Ok?)
            && (all.Ok? ==> |all.value| == |criteria| && forall i :: 0 <= i < |criteria| ==> f(criteria[i]) == Ok(all.value[i]))
  {
    if criteria != [] {
      CollectMeans(criteria[1..], f);
      assert forall i :: 1 <= i < |criteria| ==> criteria[i] == criteria[1..][i - 1];
    }
  }

  predicate ByteCriterion(c: Criterion) {
    c.kind == Some("min_bytes") || c.kind == Some("max_bytes")
  }

  /** Where inspection gives verdicts, so does the unavailable form: the same
      criteria in the same order, all failed. It also answers where a byte
      criterion has no value, and only there does inspection fail alone. */
  lemma InspectionAndUnavailability(criteria: Option<seq<Criterion>>, content: Content, reason: string)
    ensures var seen, unseen := InspectCriteria(criteria, content), UnavailableCriteria(criteria, reason);
            && (seen.Ok? <==> unseen.Ok? && forall i :: 0 <= i < |criteria.value| && ByteCriterion(criteria.value[i]) ==> criteria.value[i].value.Some?)
            && (seen.Ok? ==> |unseen.value| == |seen.value| == |criteria.value|
                             && forall i :: 0 <= i < |seen.value| ==>
                                  && unseen.value[i].criterionId == seen.value[i].criterionId
                                  && !unseen.value[i].passed && unseen.value[i].observed == reason)
  {
    if criteria.Some? {
      CollectMeans(criteria.value, c => Inspect(c, content));
      CollectMeans(criteria.value, c => Unavailable(c, reason));
      forall i | 0 <= i < |criteria.value| {
        OneCriterion(criteria.value[i], content, reason);
      }
    }
  }

  lemma OneCriterion(c: Criterion, content: Content, reason: string)
    ensures Inspect(c, content).Ok? <==> Unavailable(c, reason).Ok? && (ByteCriterion(c) ==> c.value.Some?)
    ensures Inspect(c, content).Ok? ==>
              && Unavailable(c, reason).value.criterionId == Inspect(c, content).value.criterionId
              && !Unavailable(c, reason).value.passed && Unavailable(c, reason).value.observed == reason
  {
  }

  /** What the artifact must be for the criterion to pass. */
  ghost predicate Satisfies(c: Criterion, content: Content) {
    || (c.kind == Some("min_bytes") && c.value.Some? && c.value.value <= content.length)
    || (c.kind == Some("max_bytes") && c.value.Some? && content.length <= c.value.value)
    || (c.kind == Some("json_document") && content.isJson)
    || (c.kind == Some("text_contains") && c.text.Some? && content.utf8.Some?
        && exists before, after :: content.utf8.value == before + c.text.value + after)
  }

  lemma ContainsIff(s: string, t: string)
    ensures Contains(s, t) <==> exists before, after :: s == before + t + after
  {
    if Contains(s, t) {
      var i :| 0 <= i <= |s| && t <= s[i..];
      assert s == s[..i] + t + s[i..][|t|..];
    }
    if before, after :| s == before + t + after {
      assert s[|before|..] == t + after;
    }
  }

  /** Inspection gives one verdict a criterion, in order, and each passes
      exactly if the artifact satisfies its criterion. */
  lemma PassesIffSatisfied(criteria: seq<Criterion>, content: Content)
    ensures var seen := InspectCriteria(Some(criteria), content);
            seen.Ok? ==> |seen.value| == |criteria|
                         && forall i :: 0 <= i < |criteria| ==> (seen.value[i].passed <==> Satisfies(criteria[i], content))
  {
    CollectMeans(criteria, c => Inspect(c, content));
    forall i | 0 <= i < |criteria| && Inspect(criteria[i], content).Ok?
      ensures Inspect(criteria[i], content).value.passed <==> Satisfies(criteria[i], content)
    {
      OnePasses(criteria[i], content);
    }
  }

  lemma OnePasses(c: Criterion, content: Content)
    requires Inspect(c, content).Ok?
    ensures Inspect(c, content).value.passed <==> Satisfies(c, content)
  {
    if c.text.Some? && content.utf8.Some? { ContainsIff(content.utf8.value, c.text.value); }
  }

  /** The criteria that can be judged: of a known kind, with what that kind compares. */
  predicate WellFormed(c: Criterion) {
    (ByteCriterion(c) && c.value.Some?) || c.kind == Some("json_document") || (c.kind == Some("text_contains") && c.text.Some?)
  }

  /** All criteria are judged if all are well formed; otherwise none is. */
  lemma JudgedIffWellFormed(criteria: seq<Criterion>, content: Content)
    ensures InspectCriteria(Some(criteria), content).Ok? <==> forall i :: 0 <= i < |criteria| ==> WellFormed(criteria[i])
  {
    CollectMeans(criteria, c => Inspect(c, content));
    forall i | 0 <= i < |criteria| ensures Inspect(criteria[i], content).Ok? <==> WellFormed(criteria[i]) { }
  }

  /** What a verdict names and reports: the criterion with its text, the length
      that was compared, and why a text was not found. */
  lemma VerdictReports(criteria: seq<Criterion>, content: Content, i: nat)
    requires InspectCriteria(Some(criteria), content).Ok? && i < |criteria|
    ensures var c, seen := criteria[i], InspectCriteria(Some(criteria), content).value;
            && i < |seen| && WellFormed(c)
            && (c.kind != Some("text_contains") ==> Some(seen[i].criterionId) == c.kind)
            && (c.kind == Some("text_contains") ==> seen[i].criterionId == "text_contains:" + c.text.value)
            && (ByteCriterion(c) ==> seen[i].observed == Numeral(content.length, 10))
            && (c.kind == Some("json_document") ==> seen[i].observed == if Satisfies(c, content) then "valid_json" else "invalid_json")
            && (c.kind == Some("text_contains") ==>
                  seen[i].observed == if content.utf8.None? then "not_utf8" else if Satisfies(c, content) then "matched" else "not_found")
  {
    CollectMeans(criteria, c => Inspect(c, content));
    JudgedIffWellFormed(criteria, content);
    PassesIffSatisfied(criteria, content);
    assert Inspect(criteria[i], content) == Ok(InspectCriteria(Some(criteria), content).value[i]);
  }
}

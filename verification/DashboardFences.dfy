/** What an unresolved operation keeps from being sent, and what a finish may send. */
module DashboardFences {
  import opened Wrappers
  import opened ServiceCall
  import opened Controller
  import opened Dashboard
  import opened DashboardSafety
  import Coordinator

  /******* The fence of an unresolved operation *******/

  /** The step frees this operation: a readback of that very id whose envelope
      is neither unknown nor busy and asks for no further readback - or whose
      transport failed, which the program cannot tell apart. */
  predicate Frees(w: World, e: Event, id: string) {
    && e.ReadbackAnswer?
    && e.read in w.loop.readbacks && w.loop.readbacks[e.read] == id
    && (e.wire.Lost? || (Trusted(e.readId, Some(w.project), e.wire) && Terminal(e.wire.envelope)))
  }

  lemma SentIsNotPending(c: Core, sent: string, id: string)
    requires Ledger(c) && sent in c.sent && id in c.ctl.pending
    ensures sent != id
  {
    assert c.past.verdicts[id].Doubted?;
  }

  lemma MovePendingFrame(project: string, c: Core, m: Move, id: string)
    requires Ledger(c) && id in c.ctl.pending
    ensures var c' := Make(project, c, m);
            if m.ReadsBack? && m.target == id && Terminal(m.envelope) then id !in c'.ctl.pending
            else id in c'.ctl.pending && c'.ctl.pending[id] == c.ctl.pending[id]
  {
    match m
    case Sends(intent, time, drawn) => SendFrame(project, c, intent, time, drawn);
    case HearsAnswer(other, wire) =>
      if other in c.sent {
        SentIsNotPending(c, other, id);
        AnswerFrame(project, c, other, wire);
      }
    case HearsThrow(other) =>
      if other in c.sent { SentIsNotPending(c, other, id); }
    case ReadsBack(target, e) => ReadbackFrame(project, c, target, e);
    case _ => QuietFrame(project, c, m);
  }

  lemma MoveFrees(w: World, e: Event, id: string)
    ensures var m := MoveOf(w, e);
            m.ReadsBack? && m.target == id && Terminal(m.envelope) <==> Frees(w, e, id)
  {
  }

  /** A pending operation leaves in exactly those steps, and nothing rewrites its entry. */
  lemma PendingUntilFreed(w: World, e: Event, id: string)
    requires Ledger(w.core) && id in w.core.ctl.pending
    ensures var ctl' := Next(w, e).core.ctl;
            if Frees(w, e, id) then id !in ctl'.pending
            else id in ctl'.pending && ctl'.pending[id] == w.core.ctl.pending[id]
  {
    MoveFrees(w, e, id);
    MovePendingFrame(w.project, w.core, MoveOf(w, e), id);
  }

  ghost predicate NeverFrees(w: World, events: seq<Event>, id: string)
    decreases |events|
  {
    events == [] || (!Frees(w, events[0], id) && NeverFrees(Next(w, events[0]), events[1..], id))
  }

  lemma {:induction false} PendingThroughout(w: World, events: seq<Event>, id: string)
    requires Ledger(w.core) && id in w.core.ctl.pending && NeverFrees(w, events, id)
    ensures var ctl' := Run(w, events).core.ctl;
            id in ctl'.pending && ctl'.pending[id] == w.core.ctl.pending[id]
    decreases |events|
  {
    if events != [] {
      PendingUntilFreed(w, events[0], id);
      LedgerMove(w.project, w.core, MoveOf(w, events[0]));
      PendingThroughout(Next(w, events[0]), events[1..], id);
    }
  }

  /** What `Begin` refuses while an operation is pending. */
  lemma BeginFence(s: State, intent: Intent, id: string, sequence: nat, held: string)
    requires held in s.pending && Begin(s, intent, id, sequence).Some?
    ensures var r := Begin(s, intent, id, sequence).value.1;
            r.mutation.Lifecycle? && (s.pending[held].workId.Some? ==> r.workId != s.pending[held].workId)
  {
    match intent
    case Create(action, input) =>
    case OnWork(action, workId, payload, input) =>
      FoundItemHasId(if s.model.Some? then s.model.value.items else [], workId);
    case InWorkspace(name, workId, input) =>
  }

  lemma {:induction false} FoundItemHasId(items: seq<WorkItem>, workId: string)
    ensures FindItem(items, workId).Some? ==> FindItem(items, workId).value.workId == workId
                                              && FindItem(items, workId).value in items
  {
    if items != [] && items[0].workId != workId {
      FoundItemHasId(items[1..], workId);
    }
  }

  /** A move sends at most one request, and none that a pending operation fences. */
  ghost predicate SendsOnlyUnfenced(past: Past, past': Past, held: Pending) {
    && past.issued <= past'.issued && |past'.issued| <= |past.issued| + 1
    && (|past'.issued| > |past.issued| ==>
         var r := past'.issued[|past.issued|];
         r.mutation.Lifecycle? && (held.workId.Some? ==> r.workId != held.workId))
  }

  lemma MoveSendsOnlyUnfenced(project: string, c: Core, m: Move, id: string)
    requires id in c.ctl.pending
    ensures SendsOnlyUnfenced(c.past, Make(project, c, m).past, c.ctl.pending[id])
  {
    match m
    case Sends(intent, time, drawn) =>
      SendFrame(project, c, intent, time, drawn);
      var newId, n := NextId(c.ctl, time, drawn), c.ctl.sequence + drawn + 1;
      if Begin(c.ctl, intent, newId, n).Some? { BeginFence(c.ctl, intent, newId, n, id); }
    case HearsAnswer(_, _) =>
    case HearsThrow(_) =>
    case ReadsBack(target, envelope) => ReadbackFrame(project, c, target, envelope);
    case _ => QuietFrame(project, c, m);
  }

  /** In every run: from the step that leaves an operation pending until the
      step that frees it, whatever happens in between, no lifecycle request for
      the same work and no workspace request at all is sent. */
  lemma FencedUntilReadback(project: string, before: seq<Event>, between: seq<Event>, e: Event, id: string)
    requires id in Run(Initial(project), before).core.ctl.pending && NeverFrees(Run(Initial(project), before), between, id)
    ensures var held := Run(Initial(project), before);
            var w := Run(held, between);
            SendsOnlyUnfenced(w.core.past, Next(w, e).core.past, held.core.ctl.pending[id])
  {
    var held := Run(Initial(project), before);
    LedgerAlways(Initial(project), before);
    PendingThroughout(held, between, id);
    var w := Run(held, between);
    MoveSendsOnlyUnfenced(w.project, w.core, MoveOf(w, e), id);
  }

  lemma LostCreation(w: World)
    requires var s := w.core.ctl;
             s == INITIAL.(model := Some(Snapshot(1, None, [], {CreateWork}, None)), mounted := true, authorityFresh := true, floor := 1)
    ensures var id := NextId(w.core.ctl, 0, 0);
            id in Next(Next(w, Start(Create(CreateWork, ""), 0, 0)), MutationAnswer(id, Lost)).core.ctl.pending
  {
    var id := NextId(w.core.ctl, 0, 0);
    var w' := Next(w, Start(Create(CreateWork, ""), 0, 0));
    assert Begin(w.core.ctl, Create(CreateWork, ""), id, 1).Some?;
    assert id in w'.core.sent && w'.core.sent[id].operationId == id;
    AnswerFrame(w.project, w'.core, id, Lost);
  }

  /** Such a run exists: a first snapshot, a creation, and a lost answer. */
  lemma LostAnswerLeavesPending(project: string)
    ensures exists events, id :: id in Run(Initial(project), events).core.ctl.pending
  {
    var snapshot := Snapshot(1, None, [], {CreateWork}, None);
    var e1, e2, e3, e4 := Mount, ReadAnswer(Some(snapshot)), Deliver(0), Start(Create(CreateWork, ""), 0, 0);
    var w0 := Initial(project);
    var w3 := Next(Next(Next(w0, e1), e2), e3);
    FirstSnapshot(project, snapshot);
    LostCreation(w3);
    var e5 := MutationAnswer(NextId(w3.core.ctl, 0, 0), Lost);
    RunSplits(Next(w3, e4), e5, []);
    RunSplits(w3, e4, [e5]);
    RunSplits(Next(Next(w0, e1), e2), e3, [e4] + [e5]);
    RunSplits(Next(w0, e1), e2, [e3] + ([e4] + [e5]));
    RunSplits(w0, e1, [e2] + ([e3] + ([e4] + [e5])));
    assert [e5] + [] == [e5];
  }

  /** A commit takes the snapshot's authority away, and the mutation waits for
      a refresh: it joins the read in flight or starts one, and its action
      stays busy at least until that refresh has been delivered. */
  lemma CommitWaitsForRefresh(w: World, id: string, wire: Wire)
    requires id in w.core.sent && w.core.ctl.mounted && Success(HeardEnvelope(w.project, id, wire).outcome)
    ensures var w' := Next(w, MutationAnswer(id, wire));
            && !w'.core.ctl.authorityFresh && w'.core.ctl.busy == w.core.ctl.busy
            && id in w'.loop.settling && w'.loop.settling[id].waiter.Some?
            && w'.loop.settling[id].waiter.value in w'.loop.waiters
            && w'.loop.co.inFlight == Some(w'.loop.waiters[w'.loop.settling[id].waiter.value].read)
            && !MayFinish(w'.loop, id)
  {
    RefreshJoins(w.loop);
  }

  lemma RefreshIsJoined(c: Coordinator.Coord<Snapshot>)
    ensures var (c', served) := Coordinator.Refresh(c, false);
            && served.Joined? && c'.inFlight == Some(served.read)
            && (c.inFlight.Some? ==> c'.inFlight == c.inFlight)
  {
  }

  lemma RefreshJoins(l: Loop)
    ensures var l' := Refreshing(l);
            && l.next in l'.waiters && l'.co.inFlight == Some(l'.waiters[l.next].read)
            && (l.co.inFlight.Some? ==> l'.co.inFlight == l.co.inFlight)
  {
    RefreshIsJoined(l.co);
  }

  /** A request that ended in doubt is recorded with its mutation, and with the
      work it fences: that of a lifecycle request, unless its id is empty. */
  lemma DoubtFencesItsWork(project: string, c: Core, id: string, wire: Wire)
    requires Ledger(c) && id in c.sent && !Trusted(id, Some(project), wire)
    ensures var c' := Make(project, c, HearsAnswer(id, wire));
            && id in c'.ctl.pending
            && c'.ctl.pending[id].operationId == id && c'.ctl.pending[id].mutation == c.sent[id].mutation
            && (c'.ctl.pending[id].workId.Some? <==>
                c.sent[id].mutation.Lifecycle? && c.sent[id].workId.Some? && c.sent[id].workId != Some(""))
            && (c'.ctl.pending[id].workId.Some? ==> c'.ctl.pending[id].workId == c.sent[id].workId)
  {
    AnswerFrame(project, c, id, wire);
  }

  /** One work item, which the service lets this caller claim and release. */
  function OneItem(workId: string, attempt: Attempt): WorkItem {
    WorkItem(workId, Some(attempt), false, Some({Claim, Release}))
  }

  function OneWork(workId: string, attempt: Attempt): Snapshot {
    Snapshot(1, None, [OneItem(workId, attempt)], {}, None)
  }

  function ClaimOf(workId: string): Event {
    Start(OnWork(Claim, workId, Opaque(""), ""), 0, 0)
  }

  function ReleaseOf(workId: string): Event {
    Start(OnWork(Release, workId, Opaque(""), ""), 0, 0)
  }

  /** The controller with this snapshot, fresh, before anything was sent. */
  function Looking(workId: string, attempt: Attempt): State {
    INITIAL.(model := Some(OneWork(workId, attempt)), mounted := true, authorityFresh := true, floor := 1)
  }

  function ClaimRequest(workId: string, id: string): Request {
    Request(id, Lifecycle(Claim), Some(workId), 1, None, None, "")
  }

  /** The controller once the claim's answer is lost. */
  function Doubting(workId: string, attempt: Attempt, id: string): State {
    Looking(workId, attempt).(busy := {Claim}, authorityFresh := false, sequence := 1,
                              pending := map[id := PendingOf(ClaimRequest(workId, id))])
  }

  lemma ClaimBegins(workId: string, attempt: Attempt, id: string)
    ensures Begin(Looking(workId, attempt), OnWork(Claim, workId, Opaque(""), ""), id, 1)
            == Some((Looking(workId, attempt).(busy := {Claim}, sequence := 1), ClaimRequest(workId, id)))
  {
    var s, item := Looking(workId, attempt), OneItem(workId, attempt);
    assert FindItem([item], workId) == Some(item);
    assert ItemOf(s, workId) == Some(item) && Enabled(s, item, Claim);
    assert {} + {Claim} == {Claim};
  }

  lemma ClaimLost(w: World, workId: string, attempt: Attempt)
    requires w.core.ctl == Looking(workId, attempt)
    ensures var id := NextId(w.core.ctl, 0, 0);
            var w' := Next(Next(w, ClaimOf(workId)), MutationAnswer(id, Lost));
            && w'.core.ctl == Doubting(workId, attempt, id)
            && w'.core.past.issued == w.core.past.issued + [ClaimRequest(workId, id)]
            && w'.loop.co == w.loop.co
  {
    var id := NextId(w.core.ctl, 0, 0);
    ClaimBegins(workId, attempt, id);
    var w1 := Next(w, ClaimOf(workId));
    assert id in w1.core.sent && w1.loop == w.loop && w1.core.sent[id] == ClaimRequest(workId, id);
    assert HeardEnvelope(w.project, id, Lost) == FailureEnvelope(id, "unknown_outcome", Unknown);
  }

  /** A refresh that has begun and reads the installed snapshot again gives authority back. */
  lemma ReadAgain(w: World, l: Loop, snapshot: Snapshot)
    requires w.loop == Refreshing(l) && l.co.inFlight.None? && w.core.ctl.mounted && w.core.ctl.model == Some(snapshot)
    requires snapshot.projectId.None? && snapshot.revision == w.core.ctl.floor
    ensures Next(Next(w, ReadAnswer(Some(snapshot))), Deliver(l.next)).core == w.core.(ctl := w.core.ctl.(authorityFresh := true))
  {
    var waiter, read := l.next, l.co.readCount;
    assert w.loop.waiters[waiter] == Waiter(read, false) && w.loop.co.inFlight == Some(read);
    var w2 := Next(w, ReadAnswer(Some(snapshot)));
    assert w2.core == w.core && w2.loop.statusReads[read] == Resolved(snapshot) && w2.loop.waiters == w.loop.waiters;
    assert MoveOf(w2, Deliver(waiter)) == Installs(snapshot, true);
  }

  /** With authority, the action free, and nothing pending under its work id, a release goes out. */
  lemma ReleaseSent(w: World, workId: string, attempt: Attempt)
    requires var s := w.core.ctl;
             && s.model == Some(OneWork(workId, attempt)) && s.mounted && s.authorityFresh
             && s.busy == {Claim} && !HasPending(s, workId) && !HasPendingMutation(s, Lifecycle(Release))
    ensures var w' := Next(w, ReleaseOf(workId));
            && w'.core.ctl.pending == w.core.ctl.pending && |w'.core.past.issued| == |w.core.past.issued| + 1
            && w.core.past.issued <= w'.core.past.issued
            && w'.core.past.issued[|w.core.past.issued|].mutation == Lifecycle(Release)
            && w'.core.past.issued[|w.core.past.issued|].workId == Some(workId)
  {
    var s, item := w.core.ctl, OneItem(workId, attempt);
    assert FindItem([item], workId) == Some(item);
    assert ItemOf(s, workId) == Some(item) && Enabled(s, item, Release);
    SendFrame(w.project, w.core, OnWork(Release, workId, Opaque(""), ""), 0, 0);
    assert Begin(s, OnWork(Release, workId, Opaque(""), ""), NextId(s, 0, 0), s.sequence + 1).Some?;
  }

  /** A claim and then a release of one work went out, the claim never answered. */
  predicate ReleasedInDoubt(c: Core, workId: string) {
    && |c.past.issued| == 2
    && c.past.issued[0].mutation == Lifecycle(Claim) && c.past.issued[0].workId == Some(workId)
    && c.past.issued[1].mutation == Lifecycle(Release) && c.past.issued[1].workId == Some(workId)
  }

  ghost predicate Reaches(w: World, w': World) {
    exists events :: Run(w, events) == w'
  }

  lemma OneMore(w: World, w1: World, e: Event)
    requires Reaches(w, w1)
    ensures Reaches(w, Next(w1, e))
  {
    var before :| Run(w, before) == w1;
    RunConcat(w, before, [e] + []);
    RunSplits(w1, e, []);
  }

  lemma {:induction false} RunConcat(w: World, first: seq<Event>, second: seq<Event>)
    ensures Run(w, first + second) == Run(Run(w, first), second)
    decreases |first|
  {
    if first == [] {
      assert first + second == second;
    } else {
      assert (first + second)[1..] == first[1..] + second;
      RunConcat(Next(w, first[0]), first[1..], second);
    }
  }

  /** From the initial state to a claim whose answer is lost. */
  lemma DoubtReached(project: string, workId: string, attempt: Attempt) returns (w: World, id: string)
    ensures Reaches(Initial(project), w) && w.project == project
    ensures w.core.ctl == Doubting(workId, attempt, id) && w.core.past.issued == [ClaimRequest(workId, id)]
    ensures w.loop.co.inFlight.None?
  {
    var w0, snapshot := Initial(project), OneWork(workId, attempt);
    assert Reaches(w0, w0) by { assert Run(w0, []) == w0; }
    OneMore(w0, w0, Mount);
    OneMore(w0, Next(w0, Mount), ReadAnswer(Some(snapshot)));
    OneMore(w0, Next(Next(w0, Mount), ReadAnswer(Some(snapshot))), Deliver(0));
    FirstSnapshot(project, snapshot);
    var w3 := Next(Next(Next(w0, Mount), ReadAnswer(Some(snapshot))), Deliver(0));
    id := NextId(w3.core.ctl, 0, 0);
    OneMore(w0, w3, ClaimOf(workId));
    OneMore(w0, Next(w3, ClaimOf(workId)), MutationAnswer(id, Lost));
    ClaimLost(w3, workId, attempt);
    w := Next(Next(w3, ClaimOf(workId)), MutationAnswer(id, Lost));
  }

  /** A refresh that has begun, a fresh snapshot, and the release: three more steps. */
  lemma ReleaseReached(w0: World, w: World, l: Loop, workId: string, attempt: Attempt, pending: map<string, Pending>, id: string) returns (w': World)
    requires Reaches(w0, w) && w.loop == Refreshing(l) && l.co.inFlight.None?
    requires w.core.ctl == Doubting(workId, attempt, id).(pending := pending) && w.core.past.issued == [ClaimRequest(workId, id)]
    requires forall p :: p in pending ==> pending[p].workId != Some(workId) && pending[p].mutation != Lifecycle(Release)
    ensures Reaches(w0, w') && ReleasedInDoubt(w'.core, workId) && w'.core.ctl.pending == pending
    ensures w'.core.past.issued[0] == ClaimRequest(workId, id)
  {
    var snapshot := OneWork(workId, attempt);
    ReadAgain(w, l, snapshot);
    OneMore(w0, w, ReadAnswer(Some(snapshot)));
    OneMore(w0, Next(w, ReadAnswer(Some(snapshot))), Deliver(l.next));
    var w2 := Next(Next(w, ReadAnswer(Some(snapshot))), Deliver(l.next));
    ReleaseSent(w2, workId, attempt);
    OneMore(w0, w2, ReleaseOf(workId));
    w' := Next(w2, ReleaseOf(workId));
  }

  /** A run in which a claim on the empty work id is pending and a release of the same work is sent. */
  lemma EmptyWorkIdIsNotFenced(project: string, attempt: Attempt)
    ensures exists events :: var c := Run(Initial(project), events).core;
              ReleasedInDoubt(c, "") && c.past.issued[0].operationId in c.ctl.pending
  {
    var w, id := DoubtReached(project, "", attempt);
    OneMore(Initial(project), w, CallRefresh);
    var w' := ReleaseReached(Initial(project), Next(w, CallRefresh), w.loop, "", attempt, w.core.ctl.pending, id);
  }

  /** A readback whose transport fails frees its operation, and asks for a refresh. */
  lemma LostReadbackFrees(w: World, workId: string, attempt: Attempt, id: string)
    requires w.core.ctl == Doubting(workId, attempt, id)
    ensures var w1 := Next(w, AskReadback(id));
            var w2 := Next(w1, ReadbackAnswer(w.loop.next, "", Lost));
            && w2.core.ctl == Doubting(workId, attempt, id).(pending := map[])
            && w2.core.past.issued == w.core.past.issued
            && w2.loop == Refreshing(w1.loop.(readbacks := w1.loop.readbacks - {w.loop.next}))
            && w1.loop.co == w.loop.co
  {
    var w1 := Next(w, AskReadback(id));
    assert w.loop.next in w1.loop.readbacks && w1.loop.readbacks[w.loop.next] == id && w1.core == w.core;
    assert ReadbackEnvelope(w1, "", Lost) == Some(FailureEnvelope("", "service_unavailable", Failed));
    assert map[id := PendingOf(ClaimRequest(workId, id))] - {id} == map[];
  }

  /** So a run exists in which a claim ends in doubt, its readback is lost as
      well, and a release of the same work is sent: nobody has heard what became of the claim. */
  lemma LostReadbackUnfences(project: string, workId: string, attempt: Attempt)
    ensures exists events :: var c := Run(Initial(project), events).core;
              ReleasedInDoubt(c, workId) && c.ctl.pending == map[]
  {
    var w, id := DoubtReached(project, workId, attempt);
    var w1 := Next(w, AskReadback(id));
    LostReadbackFrees(w, workId, attempt, id);
    OneMore(Initial(project), w, AskReadback(id));
    OneMore(Initial(project), w1, ReadbackAnswer(w.loop.next, "", Lost));
    var w' := ReleaseReached(Initial(project), Next(w1, ReadbackAnswer(w.loop.next, "", Lost)),
                             w1.loop.(readbacks := w1.loop.readbacks - {w.loop.next}), workId, attempt, map[], id);
  }

  /******* Receipts *******/

  /** A receipt the service acknowledged as evidence for this attempt of this work. */
  ghost predicate AcknowledgedEvidence(past: Past, workId: string, attempt: Attempt, payload: Payload) {
    exists i :: 0 <= i < |past.issued|
      && past.issued[i].mutation == Lifecycle(Evidence) && past.issued[i].workId == Some(workId)
      && past.issued[i].attempt == Some(attempt) && past.issued[i].payload == Some(payload)
      && past.issued[i].operationId in past.verdicts && past.verdicts[past.issued[i].operationId].Acknowledged?
  }

  /** A receipt selected from the loaded history of this attempt, whose own
      payload names the same receipt, work, attempt and fence. */
  ghost predicate SelectedReceipt(past: Past, project: string, workId: string, attempt: Attempt, payload: Payload) {
    exists record :: record in past.selections
      && record.projectId == project && record.workId == workId && record.attempt == attempt
      && record.payload == Some(payload)
      && payload.Receipt? && payload.receiptId == record.receiptId && payload.workId == workId && payload.attempt == attempt
  }

  ghost predicate Provenance(past: Past, project: string, workId: string, attempt: Attempt, payload: Payload) {
    AcknowledgedEvidence(past, workId, attempt, payload) || SelectedReceipt(past, project, workId, attempt, payload)
  }

  /** The request carries what the snapshot it was based on says. */
  ghost predicate BasedOn(s: State, r: Request) {
    && s.model.Some? && r.expectedRevision == s.model.value.revision
    && (r.attempt.Some? ==> r.workId.Some? && ItemOf(s, r.workId.value).Some?
                            && ItemOf(s, r.workId.value).value.attempt == r.attempt)
    && (r.mutation == Lifecycle(Finish) ==>
          && r.workId.Some? && r.attempt.Some? && r.payload.Some?
          && r.workId.value in s.receipts
          && s.receipts[r.workId.value].attempt == r.attempt.value && s.receipts[r.workId.value].payload == r.payload.value)
  }

  lemma BeginBasis(s: State, intent: Intent, id: string, sequence: nat)
    requires Begin(s, intent, id, sequence).Some?
    ensures BasedOn(s, Begin(s, intent, id, sequence).value.1)
  {
    match intent
    case Create(action, input) =>
    case OnWork(action, workId, payload, input) =>
      FoundItemHasId(if s.model.Some? then s.model.value.items else [], workId);
    case InWorkspace(name, workId, input) =>
  }

  /** History is only added to. */
  ghost predicate Extends(past: Past, past': Past) {
    && past.issued <= past'.issued && past.selections <= past'.selections
    && (forall id :: id in past.verdicts ==> id in past'.verdicts && past'.verdicts[id] == past.verdicts[id])
  }

  lemma MoveExtends(project: string, c: Core, m: Move)
    requires Accounted(c)
    ensures Extends(c.past, Make(project, c, m).past)
  {
    match m
    case Sends(intent, time, drawn) => SendFrame(project, c, intent, time, drawn);
    case HearsAnswer(id, wire) => if id in c.sent { AnswerFrame(project, c, id, wire); }
    case HearsThrow(_) =>
    case ReadsBack(target, envelope) => ReadbackFrame(project, c, target, envelope);
    case PicksReceipt(workId, receiptId) =>
    case _ => QuietFrame(project, c, m);
  }

  lemma ProvenanceExtends(past: Past, past': Past, project: string, workId: string, attempt: Attempt, payload: Payload)
    requires Extends(past, past') && Provenance(past, project, workId, attempt, payload)
    ensures Provenance(past', project, workId, attempt, payload)
  {
    if AcknowledgedEvidence(past, workId, attempt, payload) {
      var i :| 0 <= i < |past.issued|
        && past.issued[i].mutation == Lifecycle(Evidence) && past.issued[i].workId == Some(workId)
        && past.issued[i].attempt == Some(attempt) && past.issued[i].payload == Some(payload)
        && past.issued[i].operationId in past.verdicts && past.verdicts[past.issued[i].operationId].Acknowledged?;
      assert past'.issued[i] == past.issued[i];
    }
  }

  ghost predicate StoredTraced(project: string, s: State, past: Past) {
    forall workId :: workId in s.receipts ==>
      Provenance(past, project, workId, s.receipts[workId].attempt, s.receipts[workId].payload)
  }

  /** Every request went out on its snapshot, every finish with a traced receipt. */
  ghost predicate RequestsTraced(project: string, past: Past) {
    && |past.basis| == |past.issued|
    && forall i :: 0 <= i < |past.issued| ==>
         && BasedOn(past.basis[i], past.issued[i])
         && (past.issued[i].mutation == Lifecycle(Finish) ==>
               Provenance(past, project, past.issued[i].workId.value, past.issued[i].attempt.value, past.issued[i].payload.value))
  }

  ghost predicate CoreTraced(project: string, c: Core) {
    StoredTraced(project, c.ctl, c.past) && RequestsTraced(project, c.past)
  }

  ghost predicate IsAcknowledged(past: Past, r: Request) {
    r in past.issued && r.operationId in past.verdicts && past.verdicts[r.operationId].Acknowledged?
  }

  ghost predicate LoopTraced(w: World) {
    && (forall id :: id in w.loop.settling && w.loop.settling[id].acknowledged ==>
          IsAcknowledged(w.core.past, w.loop.settling[id].request))
    && (forall id :: id in w.loop.acknowledged ==> IsAcknowledged(w.core.past, w.loop.acknowledged[id]))
  }

  lemma StoredExtends(project: string, s: State, past: Past, s': State, past': Past)
    requires StoredTraced(project, s, past) && Extends(past, past')
    requires forall workId :: workId in s'.receipts ==> workId in s.receipts && s'.receipts[workId] == s.receipts[workId]
    ensures StoredTraced(project, s', past')
  {
    forall workId | workId in s'.receipts
      ensures Provenance(past', project, workId, s'.receipts[workId].attempt, s'.receipts[workId].payload)
    {
      ProvenanceExtends(past, past', project, workId, s.receipts[workId].attempt, s.receipts[workId].payload);
    }
  }

  lemma RequestsExtend(project: string, past: Past, past': Past)
    requires RequestsTraced(project, past) && Extends(past, past')
    requires past'.issued == past.issued && past'.basis == past.basis
    ensures RequestsTraced(project, past')
  {
    forall i | 0 <= i < |past'.issued| && past'.issued[i].mutation == Lifecycle(Finish)
      ensures Provenance(past', project, past.issued[i].workId.value, past.issued[i].attempt.value, past.issued[i].payload.value)
    {
      ProvenanceExtends(past, past', project, past.issued[i].workId.value, past.issued[i].attempt.value, past.issued[i].payload.value);
    }
  }

  lemma TracedSend(project: string, c: Core, intent: Intent, time: nat, drawn: nat)
    requires Ledger(c) && CoreTraced(project, c)
    ensures CoreTraced(project, Make(project, c, Sends(intent, time, drawn)))
  {
    var id, n := NextId(c.ctl, time, drawn), c.ctl.sequence + drawn + 1;
    var c' := Make(project, c, Sends(intent, time, drawn));
    SendFrame(project, c, intent, time, drawn);
    MoveExtends(project, c, Sends(intent, time, drawn));
    if Begin(c.ctl, intent, id, n).Some? {
      var r := Begin(c.ctl, intent, id, n).value.1;
      BeginBasis(c.ctl, intent, id, n);
      assert c'.ctl.receipts == c.ctl.receipts;
      StoredExtends(project, c.ctl, c.past, c'.ctl, c'.past);
      forall i | 0 <= i < |c'.past.issued|
        ensures BasedOn(c'.past.basis[i], c'.past.issued[i])
        ensures c'.past.issued[i].mutation == Lifecycle(Finish) ==>
                  Provenance(c'.past, project, c'.past.issued[i].workId.value, c'.past.issued[i].attempt.value, c'.past.issued[i].payload.value)
      {
        if i < |c.past.issued| {
          assert c'.past.issued[i] == c.past.issued[i] && c'.past.basis[i] == c.past.basis[i];
          if c.past.issued[i].mutation == Lifecycle(Finish) {
            ProvenanceExtends(c.past, c'.past, project, c.past.issued[i].workId.value, c.past.issued[i].attempt.value, c.past.issued[i].payload.value);
          }
        } else {
          assert c'.past.issued[i] == r && c'.past.basis[i] == c.ctl;
        }
      }
    }
  }

  lemma TracedKeep(project: string, c: Core, r: Request)
    requires CoreTraced(project, c) && IsAcknowledged(c.past, r)
    ensures CoreTraced(project, Make(project, c, KeepsReceipt(r)))
  {
    var c' := Make(project, c, KeepsReceipt(r));
    if r.mutation == Lifecycle(Evidence) && r.workId.Some? && r.attempt.Some? && r.payload.Some? {
      var i :| 0 <= i < |c.past.issued| && c.past.issued[i] == r;
      assert AcknowledgedEvidence(c.past, r.workId.value, r.attempt.value, r.payload.value);
    }
  }

  lemma TracedPick(project: string, c: Core, workId: string, receiptId: string)
    requires Accounted(c) && CoreTraced(project, c)
    ensures CoreTraced(project, Make(project, c, PicksReceipt(workId, receiptId)))
  {
    var c' := Make(project, c, PicksReceipt(workId, receiptId));
    MoveExtends(project, c, PicksReceipt(workId, receiptId));
    RequestsExtend(project, c.past, c'.past);
    var record := Selected(c.ctl, project, workId, receiptId);
    if record.Some? {
      assert record.value in c'.past.selections;
      assert SelectedReceipt(c'.past, project, workId, record.value.attempt, record.value.payload.value);
      forall other | other in c'.ctl.receipts
        ensures Provenance(c'.past, project, other, c'.ctl.receipts[other].attempt, c'.ctl.receipts[other].payload)
      {
        if other != workId {
          ProvenanceExtends(c.past, c'.past, project, other, c.ctl.receipts[other].attempt, c.ctl.receipts[other].payload);
        }
      }
    }
  }

  lemma AnsweredReceipts(s: State, r: Request, e: Envelope)
    ensures Answered(s, r, e).0.receipts == s.receipts
  {
  }

  lemma OtherMovesKeepReceipts(project: string, c: Core, m: Move)
    requires !m.Sends? && !m.KeepsReceipt? && !m.PicksReceipt?
    ensures var c' := Make(project, c, m);
            c'.ctl.receipts == c.ctl.receipts && c'.past.issued == c.past.issued && c'.past.basis == c.past.basis
  {
    match m
    case MergesReceipts(workId, attempt, page) => ReceiptsReadFrame(c.ctl, project, workId, attempt, page);
    case ReadsBack(target, e) => ReadbackFrame(project, c, target, e);
    case HearsAnswer(id, wire) => if id in c.sent { AnsweredReceipts(c.ctl, c.sent[id], HeardEnvelope(project, id, wire)); }
    case _ =>
  }

  lemma TracedMove(project: string, c: Core, m: Move)
    requires Ledger(c) && CoreTraced(project, c)
    requires m.KeepsReceipt? ==> IsAcknowledged(c.past, m.request)
    ensures CoreTraced(project, Make(project, c, m))
  {
    match m
    case Sends(intent, time, drawn) => TracedSend(project, c, intent, time, drawn);
    case KeepsReceipt(request) => TracedKeep(project, c, request);
    case PicksReceipt(workId, receiptId) => TracedPick(project, c, workId, receiptId);
    case _ =>
      var c' := Make(project, c, m);
      OtherMovesKeepReceipts(project, c, m);
      MoveExtends(project, c, m);
      StoredExtends(project, c.ctl, c.past, c'.ctl, c'.past);
      RequestsExtend(project, c.past, c'.past);
  }

  lemma AcknowledgedExtends(past: Past, past': Past, r: Request)
    requires Extends(past, past') && IsAcknowledged(past, r)
    ensures IsAcknowledged(past', r)
  {
    var i :| 0 <= i < |past.issued| && past.issued[i] == r;
    assert past'.issued[i] == r;
  }

  lemma RefreshingFrame(l: Loop)
    ensures Refreshing(l).settling == l.settling && Refreshing(l).acknowledged == l.acknowledged
  {
  }

  /** What a step may add to the two queues of acknowledged requests. */
  ghost predicate QueuesFrom(w: World, e: Event, l': Loop) {
    var l := w.loop;
    && (forall id :: id in l'.acknowledged ==>
          || (id in l.acknowledged && l'.acknowledged[id] == l.acknowledged[id])
          || (id in l.settling && l.settling[id].acknowledged && l'.acknowledged[id] == l.settling[id].request))
    && (forall id :: id in l'.settling && l'.settling[id].acknowledged ==>
          || (id in l.settling && l'.settling[id] == l.settling[id])
          || (e.MutationAnswer? && id == e.id && id in w.core.sent
              && l'.settling[id].request == w.core.sent[id] && Success(HeardEnvelope(w.project, id, e.wire).outcome)))
  }

  /** An answer adds one settling request, under its id. */
  lemma AnswerQueueFrame(w: World, id: string, wire: Wire)
    requires id in w.core.sent
    ensures var l' := AfterAnswer(w, id, wire);
            && l'.acknowledged == w.loop.acknowledged && id in l'.settling
            && l'.settling == w.loop.settling[id := l'.settling[id]]
            && l'.settling[id].request == w.core.sent[id]
            && l'.settling[id].acknowledged == Success(HeardEnvelope(w.project, id, wire).outcome)
  {
    var e := HeardEnvelope(w.project, id, wire);
    if Answered(w.core.ctl, w.core.sent[id], e).1 {
      RefreshingFrame(w.loop);
    } else {
      assert AfterAnswer(w, id, wire).settling == w.loop.settling[id := Settling(w.core.sent[id], Success(e.outcome), None)];
    }
  }

  lemma AnswerQueues(w: World, id: string, wire: Wire)
    ensures QueuesFrom(w, MutationAnswer(id, wire), LoopAfter(w, MutationAnswer(id, wire)))
  {
    if id in w.core.sent {
      AnswerQueueFrame(w, id, wire);
    }
  }

  ghost predicate SameQueues(l: Loop, l': Loop) {
    l'.settling == l.settling && l'.acknowledged == l.acknowledged
  }

  lemma DeliverQueues(l: Loop, waiter: nat)
    ensures SameQueues(l, Delivered(l, waiter))
  {
  }

  lemma PageQueues(l: Loop, page: nat, answer: PageResult)
    ensures SameQueues(l, AfterPage(l, page, answer))
  {
    if page in l.pages { RefreshingFrame(l.(pages := l.pages - {page})); }
  }

  lemma ReadbackQueues(w: World, read: nat, readId: string, wire: Wire)
    ensures SameQueues(w.loop, AfterReadback(w, read, readId, wire))
  {
    if read in w.loop.readbacks { RefreshingFrame(w.loop.(readbacks := w.loop.readbacks - {read})); }
  }

  /** The steps that leave both queues alone. */
  lemma IdleQueues(w: World, e: Event)
    requires !e.MutationAnswer? && !e.MutationThrow? && !e.Finally? && !e.Acknowledge?
    ensures SameQueues(w.loop, LoopAfter(w, e))
  {
    match e
    case Deliver(waiter) => DeliverQueues(w.loop, waiter);
    case PageAnswer(page, answer) => PageQueues(w.loop, page, answer);
    case ReadbackAnswer(read, readId, wire) => ReadbackQueues(w, read, readId, wire);
    case Mount | CallRefresh => RefreshingFrame(w.loop);
    case _ =>
  }

  lemma OtherQueues(w: World, e: Event)
    requires !e.MutationAnswer?
    ensures QueuesFrom(w, e, LoopAfter(w, e))
  {
    if e.MutationThrow? || e.Finally? || e.Acknowledge? {
      BusyQueues(w, e);
    } else {
      IdleQueues(w, e);
    }
  }

  lemma BusyQueues(w: World, e: Event)
    requires e.MutationThrow? || e.Finally? || e.Acknowledge?
    ensures QueuesFrom(w, e, LoopAfter(w, e))
  {
  }

  lemma LoopTracedStep(w: World, e: Event)
    requires Ledger(w.core) && LoopTraced(w)
    ensures LoopTraced(Next(w, e))
  {
    var w' := Next(w, e);
    if e.MutationAnswer? { AnswerQueues(w, e.id, e.wire); } else { OtherQueues(w, e); }
    MoveExtends(w.project, w.core, MoveOf(w, e));
    forall id | id in w'.loop.settling && w'.loop.settling[id].acknowledged
      ensures IsAcknowledged(w'.core.past, w'.loop.settling[id].request)
    {
      if id in w.loop.settling && w'.loop.settling[id] == w.loop.settling[id] {
        AcknowledgedExtends(w.core.past, w'.core.past, w.loop.settling[id].request);
      } else {
        AnswerFrame(w.project, w.core, id, e.wire);
      }
    }
    forall id | id in w'.loop.acknowledged ensures IsAcknowledged(w'.core.past, w'.loop.acknowledged[id]) {
      AcknowledgedExtends(w.core.past, w'.core.past, w'.loop.acknowledged[id]);
    }
  }

  lemma {:induction false} TracedAlways(w: World, events: seq<Event>)
    requires Ledger(w.core) && CoreTraced(w.project, w.core) && LoopTraced(w)
    ensures CoreTraced(w.project, Run(w, events).core)
    decreases |events|
  {
    if events != [] {
      TracedMove(w.project, w.core, MoveOf(w, events[0]));
      LedgerMove(w.project, w.core, MoveOf(w, events[0]));
      LoopTracedStep(w, events[0]);
      TracedAlways(Next(w, events[0]), events[1..]);
    }
  }

  /** After any run every request was sent on the snapshot it names - its
      expected revision, and its attempt and fence - and every finish carried
      a receipt that the service acknowledged for that attempt, or that was
      selected from that attempt's history under matching identities. */
  lemma FinishSendsTracedReceipts(project: string, events: seq<Event>)
    ensures RequestsTraced(project, Run(Initial(project), events).core.past)
  {
    TracedAlways(Initial(project), events);
  }
}

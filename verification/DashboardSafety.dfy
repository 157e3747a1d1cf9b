/** What every interleaving of the dashboard keeps: revisions never go back,
    a fresh snapshot is never older than an acknowledged change, operations
    are conserved, and an unresolved operation fences its work. */
module DashboardSafety {
  import opened Wrappers
  import opened OperationIds
  import opened ServiceCall
  import opened Controller
  import opened Dashboard

  /******* Revisions *******/

  ghost predicate AckedAt(past: Past, id: string, revision: nat) {
    id in past.verdicts && past.verdicts[id] == Acknowledged(Some(revision))
  }

  /** The floor is never below the installed revision, and whenever the
      snapshot's authority is fresh it is at least as new as every revision
      acknowledged as changed or unchanged. */
  ghost predicate Revisions(c: Core) {
    && (c.ctl.model.Some? ==> c.ctl.model.value.revision <= c.ctl.floor)
    && (c.ctl.authorityFresh ==> c.ctl.model.Some?)
    && forall id, r: nat :: AckedAt(c.past, id, r) ==>
         r <= c.ctl.floor && (c.ctl.authorityFresh ==> r <= c.ctl.model.value.revision)
  }

  ghost predicate Advances(s: State, s': State) {
    && s.floor <= s'.floor
    && (s.model.Some? ==> s'.model.Some? && s.model.value.revision <= s'.model.value.revision)
  }

  lemma RevisionsAnswer(project: string, c: Core, id: string, wire: Wire)
    requires Revisions(c)
    ensures Revisions(Make(project, c, HearsAnswer(id, wire))) && Advances(c.ctl, Make(project, c, HearsAnswer(id, wire)).ctl)
  {
    if id in c.sent {
      var c' := Make(project, c, HearsAnswer(id, wire));
      forall other, r: nat | AckedAt(c'.past, other, r)
        ensures r <= c'.ctl.floor && (c'.ctl.authorityFresh ==> r <= c'.ctl.model.value.revision)
      {
        if other != id { assert AckedAt(c.past, other, r); }
      }
    }
  }

  lemma RevisionsThrow(project: string, c: Core, id: string)
    requires Revisions(c)
    ensures Revisions(Make(project, c, HearsThrow(id))) && Advances(c.ctl, Make(project, c, HearsThrow(id)).ctl)
  {
    var c' := Make(project, c, HearsThrow(id));
    forall other, r: nat | AckedAt(c'.past, other, r) ensures AckedAt(c.past, other, r) { }
  }

  lemma RevisionsSend(project: string, c: Core, intent: Intent, time: nat, drawn: nat)
    requires Revisions(c)
    ensures var c' := Make(project, c, Sends(intent, time, drawn)); Revisions(c') && Advances(c.ctl, c'.ctl)
  {
    var c' := Make(project, c, Sends(intent, time, drawn));
    assert c'.ctl.model == c.ctl.model && c'.ctl.floor == c.ctl.floor && c'.past.verdicts == c.past.verdicts;
    forall id, r: nat | AckedAt(c'.past, id, r) ensures AckedAt(c.past, id, r) { }
  }

  lemma RevisionsInstall(project: string, c: Core, model: Snapshot, viaRefresh: bool)
    requires Revisions(c)
    ensures var c' := Make(project, c, Installs(model, viaRefresh)); Revisions(c') && Advances(c.ctl, c'.ctl)
  {
    var c' := Make(project, c, Installs(model, viaRefresh));
    forall id, r: nat | AckedAt(c'.past, id, r) ensures AckedAt(c.past, id, r) { }
  }

  lemma RevisionsReadback(project: string, c: Core, target: string, e: Envelope)
    requires Revisions(c)
    ensures var c' := Make(project, c, ReadsBack(target, e)); Revisions(c') && Advances(c.ctl, c'.ctl)
  {
    var c' := Make(project, c, ReadsBack(target, e));
    forall id, r: nat | AckedAt(c'.past, id, r) ensures AckedAt(c.past, id, r) { }
  }

  lemma RevisionsFrame(c: Core, c': Core)
    requires Revisions(c) && c'.past.verdicts == c.past.verdicts
    requires c'.ctl.model == c.ctl.model && c'.ctl.floor == c.ctl.floor && (c'.ctl.authorityFresh ==> c.ctl.authorityFresh)
    ensures Revisions(c') && Advances(c.ctl, c'.ctl)
  {
    forall id, r: nat | AckedAt(c'.past, id, r) ensures AckedAt(c.past, id, r) { }
  }

  lemma RevisionsMove(project: string, c: Core, m: Move)
    requires Revisions(c)
    ensures Revisions(Make(project, c, m)) && Advances(c.ctl, Make(project, c, m).ctl)
  {
    match m
    case HearsAnswer(id, wire) => RevisionsAnswer(project, c, id, wire);
    case HearsThrow(id) => RevisionsThrow(project, c, id);
    case Sends(intent, time, drawn) => RevisionsSend(project, c, intent, time, drawn);
    case Installs(model, viaRefresh) => RevisionsInstall(project, c, model, viaRefresh);
    case ReadsBack(target, e) => RevisionsReadback(project, c, target, e);
    case MergesReceipts(workId, attempt, page) =>
      ReceiptsReadFrame(c.ctl, project, workId, attempt, page);
      RevisionsFrame(c, Make(project, c, m));
    case _ => RevisionsFrame(c, Make(project, c, m));
  }

  /** Along every run: an installed revision and the floor never go back, and
      authority never rests on a snapshot older than an acknowledged change,
      even when a post-commit refresh has joined an older read. */
  lemma {:induction false} RevisionsAlways(w: World, events: seq<Event>)
    requires Revisions(w.core)
    ensures Revisions(Run(w, events).core) && Advances(w.core.ctl, Run(w, events).core.ctl)
    decreases |events|
  {
    if events != [] {
      RevisionsMove(w.project, w.core, MoveOf(w, events[0]));
      RevisionsAlways(Next(w, events[0]), events[1..]);
    }
  }

  /** The tempting stronger invariant, that a fresh snapshot reaches the floor. */
  predicate AtFloor(s: State) {
    s.authorityFresh ==> s.model.Some? && s.floor <= s.model.value.revision
  }

  /** The answer carries a revision newer than the installed snapshot. */
  predicate Newer(s: State, e: Envelope) {
    e.revision.Some? && e.revision.value > ModelRevision(s)
  }

  /** It is lost by exactly two moves, both of which raise the floor and leave
      the authority alone: a definite refusal and a readback that report a
      newer revision. */
  predicate OvertakesFloor(project: string, c: Core, m: Move) {
    match m
    case HearsAnswer(id, wire) =>
      var e := HeardEnvelope(project, id, wire);
      id in c.sent && VerdictOf(e).Refused? && Newer(c.ctl, e)
    case ReadsBack(_, e) => Newer(c.ctl, e)
    case _ => false
  }

  lemma AtFloorAfterAnswer(project: string, c: Core, id: string, wire: Wire)
    requires Revisions(c) && AtFloor(c.ctl)
    ensures !AtFloor(Make(project, c, HearsAnswer(id, wire)).ctl) <==>
            c.ctl.authorityFresh && OvertakesFloor(project, c, HearsAnswer(id, wire))
  {
  }

  lemma AtFloorAfterInstall(project: string, c: Core, model: Snapshot, viaRefresh: bool)
    requires Revisions(c) && AtFloor(c.ctl)
    ensures AtFloor(Make(project, c, Installs(model, viaRefresh)).ctl)
  {
  }

  lemma AtFloorAfterReadback(project: string, c: Core, target: string, e: Envelope)
    requires Revisions(c) && AtFloor(c.ctl)
    ensures !AtFloor(Make(project, c, ReadsBack(target, e)).ctl) <==>
            c.ctl.authorityFresh && OvertakesFloor(project, c, ReadsBack(target, e))
  {
    assert Make(project, c, ReadsBack(target, e)).ctl.floor == RaiseFloor(c.ctl, e).floor;
  }

  lemma AtFloorFrame(s: State, s': State)
    requires AtFloor(s) && s'.model == s.model && s'.floor == s.floor && (s'.authorityFresh ==> s.authorityFresh)
    ensures AtFloor(s')
  {
  }

  lemma AtFloorAfterSend(project: string, c: Core, intent: Intent, time: nat, drawn: nat)
    requires AtFloor(c.ctl)
    ensures AtFloor(Make(project, c, Sends(intent, time, drawn)).ctl)
  {
  }

  lemma AtFloorAfterRest(project: string, c: Core, m: Move)
    requires AtFloor(c.ctl)
    requires !m.HearsAnswer? && !m.ReadsBack? && !m.Installs? && !m.Sends? && !m.MergesReceipts?
    ensures AtFloor(Make(project, c, m).ctl)
  {
    AtFloorFrame(c.ctl, Make(project, c, m).ctl);
  }

  lemma AtFloorLostIff(project: string, c: Core, m: Move)
    requires Revisions(c) && AtFloor(c.ctl)
    ensures !AtFloor(Make(project, c, m).ctl) <==> c.ctl.authorityFresh && OvertakesFloor(project, c, m)
  {
    match m
    case HearsAnswer(id, wire) => AtFloorAfterAnswer(project, c, id, wire);
    case ReadsBack(target, e) => AtFloorAfterReadback(project, c, target, e);
    case Installs(model, viaRefresh) => AtFloorAfterInstall(project, c, model, viaRefresh);
    case Sends(intent, time, drawn) => AtFloorAfterSend(project, c, intent, time, drawn);
    case MergesReceipts(workId, attempt, page) => ReceiptsReadFrame(c.ctl, project, workId, attempt, page);
    case _ => AtFloorAfterRest(project, c, m);
  }

  /** A refused creation that reports a newer revision. */
  function Refusal(id: string): Wire {
    Wire.Answer(id, true, Envelope(id, Some(7), Rejected, Some("denied"), false, None), true)
  }

  lemma RefusedCreation(w: World)
    requires var s := w.core.ctl;
             s == INITIAL.(model := Some(Snapshot(1, None, [], {CreateWork}, None)), mounted := true, authorityFresh := true, floor := 1)
    ensures var id := NextId(w.core.ctl, 0, 0);
            !AtFloor(Next(Next(w, Start(Create(CreateWork, ""), 0, 0)), MutationAnswer(id, Refusal(id))).core.ctl)
  {
    var id := NextId(w.core.ctl, 0, 0);
    var w' := Next(w, Start(Create(CreateWork, ""), 0, 0));
    assert Begin(w.core.ctl, Create(CreateWork, ""), id, 1).Some?;
    assert id in w'.core.sent && w'.core.ctl.floor == 1 && w'.core.ctl.authorityFresh;
    assert HeardEnvelope(w.project, id, Refusal(id)) == Refusal(id).envelope;
  }

  lemma FirstSnapshot(project: string, snapshot: Snapshot)
    requires snapshot.projectId.None?
    ensures var w := Next(Next(Next(Initial(project), Mount), ReadAnswer(Some(snapshot))), Deliver(0));
            && w.core == Initial(project).core.(ctl := INITIAL.(
                 model := Some(snapshot), mounted := true, authorityFresh := true, floor := snapshot.revision))
            && w.loop.co.inFlight.None?
  {
    var w1 := Next(Initial(project), Mount);
    assert w1.loop.waiters[0] == Waiter(0, false) && w1.loop.co.inFlight == Some(0);
    var w2 := Next(w1, ReadAnswer(Some(snapshot)));
    assert w2.loop.statusReads[0] == Resolved(snapshot) && w2.loop.waiters == w1.loop.waiters;
  }

  /** A reachable run in which the floor passes a fresh snapshot. */
  lemma FloorPassesFreshSnapshot(project: string)
    ensures exists events :: !AtFloor(Run(Initial(project), events).core.ctl)
  {
    var snapshot := Snapshot(1, None, [], {CreateWork}, None);
    var e1, e2, e3, e4 := Mount, ReadAnswer(Some(snapshot)), Deliver(0), Start(Create(CreateWork, ""), 0, 0);
    var w0 := Initial(project);
    var w3 := Next(Next(Next(w0, e1), e2), e3);
    FirstSnapshot(project, snapshot);
    RefusedCreation(w3);
    var id := NextId(w3.core.ctl, 0, 0);
    var e5 := MutationAnswer(id, Refusal(id));
    RunSplits(Next(w3, e4), e5, []);
    RunSplits(w3, e4, [e5]);
    RunSplits(Next(Next(w0, e1), e2), e3, [e4] + [e5]);
    RunSplits(Next(w0, e1), e2, [e3] + ([e4] + [e5]));
    RunSplits(w0, e1, [e2] + ([e3] + ([e4] + [e5])));
    assert [e5] + [] == [e5];
  }

  lemma RunSplits(w: World, e: Event, rest: seq<Event>)
    ensures Run(w, [e] + rest) == Run(Next(w, e), rest)
  {
    assert ([e] + rest)[1..] == rest;
  }

  /******* Conservation of operations *******/

  ghost predicate WasIssued(past: Past, id: string) {
    exists i :: 0 <= i < |past.issued| && past.issued[i].operationId == id
  }

  ghost predicate DrawnBefore(id: string, sequence: nat) {
    exists time: nat, n: nat :: n <= sequence && id == OperationId(time, n)
  }

  /** The pending entry is the one its request calls for. */
  ghost predicate PendingMatches(past: Past, id: string, p: Pending) {
    exists i :: 0 <= i < |past.issued| && past.issued[i].operationId == id && p == PendingOf(past.issued[i])
  }

  ghost predicate IdsDrawn(c: Core) {
    && |c.past.basis| == |c.past.issued|
    && (forall i, j :: 0 <= i < j < |c.past.issued| ==> c.past.issued[i].operationId != c.past.issued[j].operationId)
    && (forall i :: 0 <= i < |c.past.issued| ==> DrawnBefore(c.past.issued[i].operationId, c.ctl.sequence))
  }

  ghost predicate Accounted(c: Core) {
    && (forall id :: id in c.sent ==> c.sent[id].operationId == id && c.sent[id] in c.past.issued && id !in c.past.verdicts)
    && (forall id :: id in c.past.verdicts ==> WasIssued(c.past, id))
    && (forall i :: 0 <= i < |c.past.issued| ==>
          c.past.issued[i].operationId in c.sent || c.past.issued[i].operationId in c.past.verdicts)
  }

  ghost predicate DoubtsPending(c: Core) {
    && (forall id :: id in c.ctl.pending || id in c.past.resolved <==> id in c.past.verdicts && c.past.verdicts[id].Doubted?)
    && (forall id :: id in c.ctl.pending ==> id !in c.past.resolved && PendingMatches(c.past, id, c.ctl.pending[id]))
  }

  ghost predicate Ledger(c: Core) {
    IdsDrawn(c) && Accounted(c) && DoubtsPending(c)
  }

  ghost predicate Grows(c: Core, c': Core, r: Request) {
    && c'.past == c.past.(issued := c.past.issued + [r], basis := c.past.basis + [c.ctl])
    && c'.sent == c.sent[r.operationId := r] && c'.ctl.pending == c.ctl.pending
    && c'.ctl.sequence >= c.ctl.sequence
  }

  lemma IssuedBefore(c: Core, c': Core, r: Request, id: string)
    requires Grows(c, c', r) && WasIssued(c.past, id)
    ensures WasIssued(c'.past, id)
  {
    var i :| 0 <= i < |c.past.issued| && c.past.issued[i].operationId == id;
    assert c'.past.issued[i] == c.past.issued[i];
  }

  lemma IdsGrow(c: Core, c': Core, r: Request, time: nat)
    requires IdsDrawn(c) && Grows(c, c', r) && !WasIssued(c.past, r.operationId)
    requires r.operationId == OperationId(time, c'.ctl.sequence)
    ensures IdsDrawn(c')
  {
    var issued, issued' := c.past.issued, c'.past.issued;
    forall i | 0 <= i < |issued'| ensures DrawnBefore(issued'[i].operationId, c'.ctl.sequence) {
      if i < |issued| {
        assert DrawnBefore(issued[i].operationId, c.ctl.sequence);
        var t: nat, k: nat :| k <= c.ctl.sequence && issued[i].operationId == OperationId(t, k);
      }
    }
    forall i, j | 0 <= i < j < |issued'| ensures issued'[i].operationId != issued'[j].operationId {
      assert issued'[i] == issued[i];
    }
  }

  lemma AccountsGrow(c: Core, c': Core, r: Request)
    requires Accounted(c) && Grows(c, c', r) && !WasIssued(c.past, r.operationId)
    ensures Accounted(c')
  {
    forall id | id in c'.past.verdicts ensures WasIssued(c'.past, id) { IssuedBefore(c, c', r, id); }
    forall id | id in c'.sent
      ensures c'.sent[id].operationId == id && c'.sent[id] in c'.past.issued && id !in c'.past.verdicts
    {
      assert c'.past.issued[|c.past.issued|] == r;
    }
  }

  lemma DoubtsGrow(c: Core, c': Core, r: Request)
    requires DoubtsPending(c) && Grows(c, c', r)
    ensures DoubtsPending(c')
  {
    forall id | id in c'.ctl.pending ensures PendingMatches(c'.past, id, c'.ctl.pending[id]) {
      assert PendingMatches(c.past, id, c.ctl.pending[id]);
      var i :| 0 <= i < |c.past.issued| && c.past.issued[i].operationId == id && c.ctl.pending[id] == PendingOf(c.past.issued[i]);
      assert c'.past.issued[i] == c.past.issued[i];
    }
  }

  lemma SendFrame(project: string, c: Core, intent: Intent, time: nat, drawn: nat)
    ensures var begun := Begin(c.ctl, intent, NextId(c.ctl, time, drawn), c.ctl.sequence + drawn + 1);
            var c' := Make(project, c, Sends(intent, time, drawn));
            if begun.None? then c' == c
            else
              && begun.value.1.operationId == NextId(c.ctl, time, drawn)
              && Grows(c, c', begun.value.1)
              && c'.ctl.sequence == c.ctl.sequence + drawn + 1
  {
  }

  lemma NextIdIsNew(c: Core, time: nat, drawn: nat)
    requires IdsDrawn(c)
    ensures !WasIssued(c.past, NextId(c.ctl, time, drawn))
  {
    var id := NextId(c.ctl, time, drawn);
    if WasIssued(c.past, id) {
      var i :| 0 <= i < |c.past.issued| && c.past.issued[i].operationId == id;
      assert DrawnBefore(id, c.ctl.sequence);
      var t: nat, k: nat :| k <= c.ctl.sequence && id == OperationId(t, k);
      OperationIdInjective(time, c.ctl.sequence + drawn + 1, t, k);
    }
  }

  lemma LedgerSend(project: string, c: Core, intent: Intent, time: nat, drawn: nat)
    requires Ledger(c)
    ensures Ledger(Make(project, c, Sends(intent, time, drawn)))
  {
    var begun := Begin(c.ctl, intent, NextId(c.ctl, time, drawn), c.ctl.sequence + drawn + 1);
    SendFrame(project, c, intent, time, drawn);
    if begun.Some? {
      LedgerGrows(c, Make(project, c, Sends(intent, time, drawn)), begun.value.1, time, drawn);
    }
  }

  lemma LedgerGrows(c: Core, c': Core, r: Request, time: nat, drawn: nat)
    requires Ledger(c) && Grows(c, c', r)
    requires r.operationId == NextId(c.ctl, time, drawn) && c'.ctl.sequence == c.ctl.sequence + drawn + 1
    ensures Ledger(c')
  {
    NextIdIsNew(c, time, drawn);
    IdsGrow(c, c', r, time);
    AccountsGrow(c, c', r);
    DoubtsGrow(c, c', r);
  }

  /** The answer or the failure of a sent request moves it to its verdict. */
  ghost predicate Judges(c: Core, c': Core, id: string, verdict: Verdict) {
    && id in c.sent
    && c'.sent == c.sent - {id} && c'.past == c.past.(verdicts := c.past.verdicts[id := verdict])
    && c'.ctl.sequence == c.ctl.sequence
    && c'.ctl.pending == (if verdict.Doubted? then c.ctl.pending[id := PendingOf(c.sent[id])] else c.ctl.pending)
  }

  lemma LedgerVerdict(c: Core, c': Core, id: string, verdict: Verdict)
    requires Ledger(c) && Judges(c, c', id, verdict)
    ensures Ledger(c')
  {
    assert IdsDrawn(c');
    AccountsJudged(c, c', id, verdict);
    DoubtsJudged(c, c', id, verdict);
  }

  lemma AccountsJudged(c: Core, c': Core, id: string, verdict: Verdict)
    requires Accounted(c) && Judges(c, c', id, verdict)
    ensures Accounted(c')
  {
    var i :| 0 <= i < |c.past.issued| && c.past.issued[i] == c.sent[id];
    assert c'.past.issued[i].operationId == id;
    forall other | other in c'.past.verdicts ensures WasIssued(c'.past, other) {
      if other != id { assert WasIssued(c.past, other); }
    }
  }

  lemma DoubtsJudged(c: Core, c': Core, id: string, verdict: Verdict)
    requires Accounted(c) && DoubtsPending(c) && Judges(c, c', id, verdict)
    ensures DoubtsPending(c')
  {
    var i :| 0 <= i < |c.past.issued| && c.past.issued[i] == c.sent[id];
    assert c'.past.issued[i].operationId == id;
    forall other | other in c'.ctl.pending ensures PendingMatches(c'.past, other, c'.ctl.pending[other]) {
      if !(other == id && verdict.Doubted?) { assert PendingMatches(c.past, other, c.ctl.pending[other]); }
    }
  }

  lemma LedgerReadback(c: Core, c': Core, target: string)
    requires Ledger(c) && target in c.ctl.pending
    requires c'.sent == c.sent && c'.past == c.past.(resolved := c.past.resolved + {target})
    requires c'.ctl.sequence == c.ctl.sequence && c'.ctl.pending == c.ctl.pending - {target}
    ensures Ledger(c')
  {
    forall id | id in c'.past.verdicts ensures WasIssued(c'.past, id) { assert WasIssued(c.past, id); }
    forall id | id in c'.ctl.pending ensures PendingMatches(c'.past, id, c'.ctl.pending[id]) {
      assert PendingMatches(c.past, id, c.ctl.pending[id]);
    }
  }

  /** A move that leaves requests, verdicts and pending operations alone. */
  lemma LedgerQuiet(c: Core, c': Core)
    requires Ledger(c)
    requires c'.sent == c.sent && c'.past == c.past.(selections := c'.past.selections)
    requires c'.ctl.sequence == c.ctl.sequence && c'.ctl.pending == c.ctl.pending
    ensures Ledger(c')
  {
    forall id | id in c'.past.verdicts ensures WasIssued(c'.past, id) { assert WasIssued(c.past, id); }
    forall id | id in c'.ctl.pending ensures PendingMatches(c'.past, id, c'.ctl.pending[id]) {
      assert PendingMatches(c.past, id, c.ctl.pending[id]);
    }
  }

  /** The moves that neither send, hear nor read back. */
  predicate Quiet(m: Move) {
    !m.Sends? && !m.HearsAnswer? && !m.HearsThrow? && !m.ReadsBack?
  }

  lemma ReceiptsReadFrame(s: State, project: string, workId: string, attempt: Attempt, page: ReceiptPage)
    ensures ReceiptsRead(s, project, workId, attempt, page)
            == s.(history := ReceiptsRead(s, project, workId, attempt, page).history)
  {
  }

  lemma QuietFrame(project: string, c: Core, m: Move)
    requires Quiet(m)
    ensures var c' := Make(project, c, m);
            && c'.sent == c.sent && c'.past == c.past.(selections := c'.past.selections)
            && c'.ctl.sequence == c.ctl.sequence && c'.ctl.pending == c.ctl.pending
  {
    match m
    case MergesReceipts(workId, attempt, page) => ReceiptsReadFrame(c.ctl, project, workId, attempt, page);
    case _ =>
  }

  lemma AnswerFrame(project: string, c: Core, id: string, wire: Wire)
    requires id in c.sent && c.sent[id].operationId == id
    ensures Judges(c, Make(project, c, HearsAnswer(id, wire)), id, VerdictOf(HeardEnvelope(project, id, wire)))
  {
  }

  lemma ReadbackFrame(project: string, c: Core, target: string, e: Envelope)
    ensures var c' := Make(project, c, ReadsBack(target, e));
            && c'.sent == c.sent && c'.ctl.sequence == c.ctl.sequence
            && c'.ctl.pending == (if Terminal(e) then c.ctl.pending - {target} else c.ctl.pending)
            && c'.past == c.past.(resolved := c'.past.resolved)
            && c'.past.resolved == (if Terminal(e) && target in c.ctl.pending then c.past.resolved + {target} else c.past.resolved)
  {
  }

  lemma LedgerMove(project: string, c: Core, m: Move)
    requires Ledger(c)
    ensures Ledger(Make(project, c, m))
  {
    var c' := Make(project, c, m);
    match m
    case Sends(intent, time, drawn) => LedgerSend(project, c, intent, time, drawn);
    case HearsAnswer(id, wire) => LedgerAnswer(project, c, id, wire);
    case HearsThrow(id) => if id in c.sent { LedgerVerdict(c, c', id, Doubted); }
    case ReadsBack(target, e) => LedgerReadsBack(project, c, target, e);
    case _ =>
      QuietFrame(project, c, m);
      LedgerQuiet(c, c');
  }

  lemma LedgerAnswer(project: string, c: Core, id: string, wire: Wire)
    requires Ledger(c)
    ensures Ledger(Make(project, c, HearsAnswer(id, wire)))
  {
    if id in c.sent {
      AnswerFrame(project, c, id, wire);
      LedgerVerdict(c, Make(project, c, HearsAnswer(id, wire)), id, VerdictOf(HeardEnvelope(project, id, wire)));
    }
  }

  /** What a readback does to the parts of the state the ledger speaks of. */
  lemma ReadbackParts(c: Core, c': Core, target: string, e: Envelope)
    requires Ledger(c) && c'.sent == c.sent && c'.ctl.sequence == c.ctl.sequence
    requires c'.ctl.pending == if Terminal(e) then c.ctl.pending - {target} else c.ctl.pending
    requires c'.past == c.past.(resolved := c'.past.resolved)
    requires c'.past.resolved == if Terminal(e) && target in c.ctl.pending then c.past.resolved + {target} else c.past.resolved
    ensures Ledger(c')
  {
    if Terminal(e) && target in c.ctl.pending {
      LedgerReadback(c, c', target);
    } else {
      assert c'.ctl.pending == c.ctl.pending;
      LedgerQuiet(c, c');
    }
  }

  lemma LedgerReadsBack(project: string, c: Core, target: string, e: Envelope)
    requires Ledger(c)
    ensures Ledger(Make(project, c, ReadsBack(target, e)))
  {
    ReadbackFrame(project, c, target, e);
    ReadbackParts(c, Make(project, c, ReadsBack(target, e)), target, e);
  }

  lemma {:induction false} LedgerAlways(w: World, events: seq<Event>)
    requires Ledger(w.core)
    ensures Ledger(Run(w, events).core)
    decreases |events|
  {
    if events != [] {
      LedgerMove(w.project, w.core, MoveOf(w, events[0]));
      LedgerAlways(Next(w, events[0]), events[1..]);
    }
  }

  function One(b: bool): nat {
    if b then 1 else 0
  }

  /** The five fates of an operation, counted. */
  function Fates(c: Core, id: string): nat {
    One(id in c.sent)
    + One(id in c.past.verdicts && c.past.verdicts[id].Acknowledged?)
    + One(id in c.past.verdicts && c.past.verdicts[id].Refused?)
    + One(id in c.ctl.pending)
    + One(id in c.past.resolved)
  }

  lemma OneFate(c: Core, i: nat)
    requires Accounted(c) && DoubtsPending(c) && i < |c.past.issued|
    ensures Fates(c, c.past.issued[i].operationId) == 1
  {
    var id := c.past.issued[i].operationId;
    assert id in c.sent || id in c.past.verdicts;
    assert id in c.sent ==> id !in c.past.verdicts;
  }

  lemma PendingIsItsRequest(c: Core, i: nat)
    requires IdsDrawn(c) && DoubtsPending(c) && i < |c.past.issued| && c.past.issued[i].operationId in c.ctl.pending
    ensures c.ctl.pending[c.past.issued[i].operationId] == PendingOf(c.past.issued[i])
  {
    var id := c.past.issued[i].operationId;
    assert PendingMatches(c.past, id, c.ctl.pending[id]);
    var k :| 0 <= k < |c.past.issued| && c.past.issued[k].operationId == id && c.ctl.pending[id] == PendingOf(c.past.issued[k]);
    assert k == i;
  }

  /** Conservation: after any run every issued operation id is distinct from
      the others and is exactly one of in flight, acknowledged, definitely
      refused, pending under that id, or resolved by readback. */
  lemma OperationsConserved(project: string, events: seq<Event>)
    ensures var c := Run(Initial(project), events).core;
            && (forall i, j :: 0 <= i < j < |c.past.issued| ==> c.past.issued[i].operationId != c.past.issued[j].operationId)
            && (forall i :: 0 <= i < |c.past.issued| ==>
                  && Fates(c, c.past.issued[i].operationId) == 1
                  && (c.past.issued[i].operationId in c.ctl.pending ==>
                        c.ctl.pending[c.past.issued[i].operationId] == PendingOf(c.past.issued[i])))
  {
    LedgerAlways(Initial(project), events);
    var c := Run(Initial(project), events).core;
    forall i | 0 <= i < |c.past.issued|
      ensures Fates(c, c.past.issued[i].operationId) == 1
      ensures c.past.issued[i].operationId in c.ctl.pending ==>
                c.ctl.pending[c.past.issued[i].operationId] == PendingOf(c.past.issued[i])
    {
      OneFate(c, i);
      if c.past.issued[i].operationId in c.ctl.pending { PendingIsItsRequest(c, i); }
    }
  }

  /** An answer that is lost, uncorrelated or invalid always leaves the
      operation pending under the id that was sent, and of the answers only
      such a one, or the service's own word of doubt, does. */
  lemma DoubtIsPending(project: string, c: Core, id: string, wire: Wire)
    requires Ledger(c) && id in c.sent
    ensures var c' := Make(project, c, HearsAnswer(id, wire));
            id in c'.ctl.pending <==> !Trusted(id, Some(project), wire) || Doubtful(wire.envelope)
  {
    AnswerFrame(project, c, id, wire);
    assert id !in c.ctl.pending;
  }

  /** The move leaves this operation in doubt: such an answer, or an exception
      in its place - even one that a committed answer raised because its data
      did not fit the request, as a bound result's may. */
  predicate LeavesInDoubt(project: string, c: Core, m: Move, id: string) {
    id in c.sent &&
    match m
    case HearsAnswer(other, wire) => other == id && (!Trusted(id, Some(project), wire) || Doubtful(wire.envelope))
    case HearsThrow(other) => other == id
    case _ => false
  }

  /** An operation becomes pending by exactly these moves. */
  lemma BecomesPendingIff(project: string, c: Core, m: Move, id: string)
    requires Ledger(c) && id !in c.ctl.pending
    ensures id in Make(project, c, m).ctl.pending <==> LeavesInDoubt(project, c, m, id)
  {
    match m
    case HearsAnswer(other, wire) =>
      if other in c.sent {
        AnswerFrame(project, c, other, wire);
        DoubtIsPending(project, c, other, wire);
      }
    case HearsThrow(other) =>
    case Sends(intent, time, drawn) => SendFrame(project, c, intent, time, drawn);
    case ReadsBack(target, e) => ReadbackFrame(project, c, target, e);
    case _ => QuietFrame(project, c, m);
  }
}

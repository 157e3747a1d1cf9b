/** The dashboard does not jam: an action is busy exactly while a request of it
    is outstanding, and a commit, its refresh and its readback always lead on. */
module DashboardProgress {
  import opened Wrappers
  import opened ServiceCall
  import opened Controller
  import opened Dashboard
  import opened DashboardSafety
  import opened DashboardFences
  import opened DashboardExclusion
  import Coordinator

  /******* What is busy has a request *******/

  ghost predicate Requested(requests: map<string, Request>, mutation: Mutation) {
    exists id :: id in requests && requests[id].mutation == mutation
  }

  ghost predicate Backed(s: State, requests: map<string, Request>) {
    && (forall action :: action in s.busy ==> Requested(requests, Lifecycle(action)))
    && (forall name :: name in s.workspaceBusy ==> Requested(requests, Workspace(name)))
  }

  lemma RequestedStays(requests: map<string, Request>, id: string, r: Request, mutation: Mutation)
    requires id !in requests && Requested(requests, mutation)
    ensures Requested(requests[id := r], mutation)
  {
    var other :| other in requests && requests[other].mutation == mutation;
    assert other in requests[id := r];
  }

  lemma BackedSend(s: State, requests: map<string, Request>, intent: Intent, id: string, sequence: nat)
    requires Backed(s, requests) && id !in requests && Begin(s, intent, id, sequence).Some?
    ensures var (s', r) := Begin(s, intent, id, sequence).value; Backed(s', requests[id := r])
  {
    var (s', r) := Begin(s, intent, id, sequence).value;
    BeginTakes(s, intent, id, sequence);
    assert id in requests[id := r];
    forall action | action in s'.busy ensures Requested(requests[id := r], Lifecycle(action)) {
      if action in s.busy { RequestedStays(requests, id, r, Lifecycle(action)); }
    }
    forall name | name in s'.workspaceBusy ensures Requested(requests[id := r], Workspace(name)) {
      if name in s.workspaceBusy { RequestedStays(requests, id, r, Workspace(name)); }
    }
  }

  lemma RequestedWithout(requests: map<string, Request>, id: string, mutation: Mutation)
    requires id in requests && Requested(requests, mutation) && requests[id].mutation != mutation
    ensures Requested(requests - {id}, mutation)
  {
    var other :| other in requests && requests[other].mutation == mutation;
    assert other in requests - {id};
  }

  lemma BackedRelease(s: State, requests: map<string, Request>, id: string)
    requires Backed(s, requests) && id in requests
    ensures Backed(Released(s, requests[id]), requests - {id})
  {
    var s' := Released(s, requests[id]);
    forall action | action in s'.busy ensures Requested(requests - {id}, Lifecycle(action)) {
      RequestedWithout(requests, id, Lifecycle(action));
    }
    forall name | name in s'.workspaceBusy ensures Requested(requests - {id}, Workspace(name)) {
      RequestedWithout(requests, id, Workspace(name));
    }
  }

  lemma OutstandingWasIssued(w: World, id: string)
    requires Ledger(w.core) && SettlingAnswered(w) && id in Outstanding(w)
    ensures WasIssued(w.core.past, id)
  {
    if id in w.core.sent {
      var i :| 0 <= i < |w.core.past.issued| && w.core.past.issued[i] == w.core.sent[id];
    }
  }

  lemma NextIdIsFree(w: World, time: nat, drawn: nat)
    requires Ledger(w.core) && SettlingAnswered(w)
    ensures NextId(w.core.ctl, time, drawn) !in Outstanding(w)
  {
    NextIdIsNew(w.core, time, drawn);
    forall id | id in Outstanding(w) ensures WasIssued(w.core.past, id) {
      OutstandingWasIssued(w, id);
    }
  }

  lemma BackedStart(w: World, intent: Intent, time: nat, drawn: nat)
    requires Ledger(w.core) && SettlingAnswered(w) && Backed(w.core.ctl, Outstanding(w))
    ensures var w' := Next(w, Start(intent, time, drawn)); Backed(w'.core.ctl, Outstanding(w'))
  {
    var w' := Next(w, Start(intent, time, drawn));
    var id, n := NextId(w.core.ctl, time, drawn), w.core.ctl.sequence + drawn + 1;
    StartMeans(w, intent, time, drawn);
    if Begin(w.core.ctl, intent, id, n).Some? {
      NextIdIsFree(w, time, drawn);
      OutstandingSent(w, w', id, Begin(w.core.ctl, intent, id, n).value.1);
      BackedSend(w.core.ctl, Outstanding(w), intent, id, n);
    } else {
      assert Outstanding(w') == Outstanding(w);
    }
  }

  lemma BackedFinally(w: World, id: string)
    requires Backed(w.core.ctl, Outstanding(w)) && MayFinish(w.loop, id) && id !in w.core.sent
    ensures var w' := Next(w, Finally(id)); Backed(w'.core.ctl, Outstanding(w'))
  {
    var w' := Next(w, Finally(id));
    assert Outstanding(w)[id] == w.loop.settling[id].request;
    BackedRelease(w.core.ctl, Outstanding(w), id);
    assert Outstanding(w') == Outstanding(w) - {id};
  }

  lemma BackedFrame(s: State, s': State, requests: map<string, Request>)
    requires Backed(s, requests) && SameBusy(s, s')
    ensures Backed(s', requests)
  {
  }

  lemma BackedAnswer(w: World, id: string, wire: Wire)
    requires Backed(w.core.ctl, Outstanding(w)) && id in w.core.sent && w.core.sent[id].operationId == id
    ensures var w' := Next(w, MutationAnswer(id, wire)); Backed(w'.core.ctl, Outstanding(w'))
  {
    AnswerMoves(w, id, wire);
    BusyFrame(w.project, w.core, HearsAnswer(id, wire));
    BackedFrame(w.core.ctl, Next(w, MutationAnswer(id, wire)).core.ctl, Outstanding(w));
  }

  lemma BackedThrow(w: World, id: string)
    requires Backed(w.core.ctl, Outstanding(w)) && id in w.core.sent
    ensures var w' := Next(w, MutationThrow(id)); Backed(w'.core.ctl, Outstanding(w'))
  {
    ThrowMoves(w, id);
    OutstandingMoved(w, Next(w, MutationThrow(id)), id);
    BusyFrame(w.project, w.core, HearsThrow(id));
    BackedFrame(w.core.ctl, Next(w, MutationThrow(id)).core.ctl, Outstanding(w));
  }

  lemma BackedStep(w: World, e: Event)
    requires Ledger(w.core) && SettlingAnswered(w) && Backed(w.core.ctl, Outstanding(w))
    ensures Backed(Next(w, e).core.ctl, Outstanding(Next(w, e)))
  {
    if Aside(w, e) {
      AsideFrame(w, e);
      assert Outstanding(Next(w, e)) == Outstanding(w);
      BackedFrame(w.core.ctl, Next(w, e).core.ctl, Outstanding(w));
    } else {
      match e
      case Start(intent, time, drawn) => BackedStart(w, intent, time, drawn);
      case Finally(id) => BackedFinally(w, id);
      case MutationAnswer(id, wire) => BackedAnswer(w, id, wire);
      case MutationThrow(id) => BackedThrow(w, id);
    }
  }

  lemma {:induction false} BackedAlways(w: World, events: seq<Event>)
    requires Ledger(w.core) && SettlingAnswered(w) && Backed(w.core.ctl, Outstanding(w))
    ensures Backed(Run(w, events).core.ctl, Outstanding(Run(w, events)))
    decreases |events|
  {
    if events != [] {
      BackedStep(w, events[0]);
      AnsweredStep(w, events[0]);
      LedgerMove(w.project, w.core, MoveOf(w, events[0]));
      BackedAlways(Next(w, events[0]), events[1..]);
    }
  }

  /** After any run an action is busy exactly while a request of it is
      outstanding, and so is the workspace: nothing stays busy for good. */
  lemma BusyIffOutstanding(project: string, events: seq<Event>)
    ensures var w := Run(Initial(project), events);
            && (forall action :: action in w.core.ctl.busy <==> Requested(Outstanding(w), Lifecycle(action)))
            && (forall name :: name in w.core.ctl.workspaceBusy <==> Requested(Outstanding(w), Workspace(name)))
  {
    BackedAlways(Initial(project), events);
    ExclusiveAlways(Initial(project), events);
  }

  /******* What follows a commit *******/

  /** The answer is in, and its mutation waits for a read of the status. */
  ghost predicate AwaitsRead(w: World, id: string, waiter: nat, read: nat) {
    && id in w.loop.settling && w.loop.settling[id].waiter == Some(waiter)
    && waiter in w.loop.waiters && w.loop.waiters[waiter] == Waiter(read, false)
    && w.loop.co.inFlight == Some(read)
  }

  /** A plain refresh waits, unchained, for the read that is then in flight. */
  lemma PlainRefresh(c: Coordinator.Coord<Snapshot>)
    ensures var (c', served) := Coordinator.Refresh(c, false);
            && served.Joined? && !served.chained && c'.inFlight == Some(served.read)
            && (c.inFlight.Some? ==> c'.inFlight == c.inFlight && served.started.None?)
  {
  }

  lemma RefreshWaits(l: Loop)
    ensures var l' := Refreshing(l);
            && l'.co == Coordinator.Refresh(l.co, false).0
            && l'.co.inFlight.Some? && l.next in l'.waiters && l'.waiters[l.next] == Waiter(l'.co.inFlight.value, false)
  {
    PlainRefresh(l.co);
  }

  /** An answer after which the mutation waits for a refresh: a commit, and a
      definite refusal that says the snapshot was stale. */
  predicate Refreshes(s: State, e: Envelope) {
    s.mounted && (Success(e.outcome) || (Stale(e) && !Doubtful(e)))
  }

  lemma AnswerSettles(w: World, id: string, wire: Wire)
    requires id in w.core.sent
    ensures var e := HeardEnvelope(w.project, id, wire);
            AfterAnswer(w, id, wire)
            == if Refreshes(w.core.ctl, e)
               then (var l := Refreshing(w.loop);
                     l.(settling := l.settling[id := Settling(w.core.sent[id], Success(e.outcome), Some(w.loop.next))]))
               else w.loop.(settling := w.loop.settling[id := Settling(w.core.sent[id], Success(e.outcome), None)])
  {
  }

  lemma AnswerAuthority(s: State, r: Request, e: Envelope)
    ensures var s' := Answered(s, r, e).0;
            && (s'.authorityFresh <==> s.authorityFresh && !Success(e.outcome) && !Doubtful(e))
            && s'.floor == (if e.revision.Some? then Max(s.floor, e.revision.value) else s.floor)
            && s'.model == s.model && s'.mounted == s.mounted
  {
  }

  /** Which answers are followed by a refresh, and what an answer does to
      authority: only a definite refusal leaves it standing. */
  lemma AnswerLeadsTo(w: World, id: string, wire: Wire)
    requires id in w.core.sent
    ensures var e := HeardEnvelope(w.project, id, wire);
            var w' := Next(w, MutationAnswer(id, wire));
            && id in w'.loop.settling && w'.loop.settling[id].request == w.core.sent[id]
            && (w'.loop.settling[id].acknowledged <==> Success(e.outcome))
            && (w'.loop.settling[id].waiter.Some? <==> Refreshes(w.core.ctl, e))
            && (w'.loop.settling[id].waiter.Some? ==>
                  w'.loop.co.inFlight.Some? && AwaitsRead(w', id, w.loop.next, w'.loop.co.inFlight.value))
            && (w'.core.ctl.authorityFresh <==> w.core.ctl.authorityFresh && !Success(e.outcome) && !Doubtful(e))
            && w'.core.ctl.floor == (if e.revision.Some? then Max(w.core.ctl.floor, e.revision.value) else w.core.ctl.floor)
  {
    var e := HeardEnvelope(w.project, id, wire);
    AnswerSettles(w, id, wire);
    RefreshWaits(w.loop);
    AnswerAuthority(w.core.ctl, w.core.sent[id], e);
  }

  /** Where an exception took the place of the answer: authority is gone, the
      operation is pending, and its action can be released without a refresh. */
  lemma ThrowLeadsTo(w: World, id: string)
    requires id in w.core.sent && w.core.sent[id].operationId == id
    ensures var r, w' := w.core.sent[id], Next(w, MutationThrow(id));
            && w'.core.ctl == w.core.ctl.(authorityFresh := false, pending := w.core.ctl.pending[id := PendingOf(r)])
            && id in w'.loop.settling && w'.loop.settling[id] == Settling(r, false, None)
            && MayFinish(w'.loop, id) && w'.loop.co == w.loop.co
  {
  }

  /** The read ends, its waiter is told, and the mutation is done. */
  function Concluded(w: World, id: string, waiter: nat, result: Option<Snapshot>): World {
    Next(Next(Next(w, ReadAnswer(result)), Deliver(waiter)), Finally(id))
  }

  lemma ReadEnds(w: World, id: string, waiter: nat, read: nat, result: Option<Snapshot>)
    requires AwaitsRead(w, id, waiter, read)
    ensures var w' := Next(w, ReadAnswer(result));
            && w'.core == w.core && w'.project == w.project
            && w'.loop.settling == w.loop.settling && w'.loop.waiters == w.loop.waiters && w'.loop.acknowledged == w.loop.acknowledged
            && SettledRead(w'.loop, waiter) == if result.Some? then Resolved(result.value) else ReadFailed
  {
  }

  lemma WaiterIsTold(w: World, waiter: nat, result: Option<Snapshot>)
    requires waiter in w.loop.waiters && !w.loop.waiters[waiter].chained
    requires SettledRead(w.loop, waiter) == if result.Some? then Resolved(result.value) else ReadFailed
    ensures var w' := Next(w, Deliver(waiter));
            && w'.core == Make(w.project, w.core, if result.Some? then Installs(result.value, true) else LosesConnection)
            && w'.project == w.project && w'.loop == w.loop.(waiters := w.loop.waiters - {waiter})
  {
  }

  /** The snapshot is of this project and not older than anything observed. */
  predicate Acceptable(project: string, s: State, result: Option<Snapshot>) {
    && result.Some? && (result.value.projectId.Some? ==> result.value.projectId.value in {"", project})
    && result.value.revision >= s.floor
  }

  /** A read gives authority exactly if it brought an acceptable snapshot, and
      then that is what is shown; otherwise the rows that are shown stay. */
  lemma TellingInstalls(project: string, c: Core, result: Option<Snapshot>)
    requires Revisions(c) && c.ctl.mounted
    ensures var s' := Make(project, c, if result.Some? then Installs(result.value, true) else LosesConnection).ctl;
            && (s'.authorityFresh <==> Acceptable(project, c.ctl, result))
            && s'.model == (if Acceptable(project, c.ctl, result) then result else c.ctl.model)
            && SameBusy(c.ctl, s') && s'.mounted
  {
  }

  lemma FinallyReleases(w: World, id: string, waiter: nat)
    requires id in w.loop.settling && w.loop.settling[id].waiter == Some(waiter) && waiter !in w.loop.waiters
    ensures var w' := Next(w, Finally(id));
            && w'.core.ctl == Released(w.core.ctl, w.loop.settling[id].request)
            && w'.loop.settling == w.loop.settling - {id}
            && (w.loop.settling[id].acknowledged ==> id in w'.loop.acknowledged && w'.loop.acknowledged[id] == w.loop.settling[id].request)
  {
  }

  /** Once the read that a mutation waits for has ended, whichever way, the
      mutation can conclude: its action is free again, and if the read brought
      an acceptable snapshot, that is shown and new requests may go out. */
  lemma ReadConcludes(w: World, id: string, waiter: nat, read: nat, result: Option<Snapshot>)
    requires Revisions(w.core) && w.core.ctl.mounted && AwaitsRead(w, id, waiter, read)
    ensures var w' := Concluded(w, id, waiter, result);
            var r := w.loop.settling[id].request;
            && id !in w'.loop.settling
            && w'.core.ctl.busy == (if r.mutation.Lifecycle? then w.core.ctl.busy - {r.mutation.action} else w.core.ctl.busy)
            && w'.core.ctl.workspaceBusy ==
               (if r.mutation.Workspace? then w.core.ctl.workspaceBusy - {r.mutation.name} else w.core.ctl.workspaceBusy)
            && (w'.core.ctl.authorityFresh <==> Acceptable(w.project, w.core.ctl, result))
            && w'.core.ctl.model == (if Acceptable(w.project, w.core.ctl, result) then result else w.core.ctl.model)
            && (w.loop.settling[id].acknowledged ==> id in w'.loop.acknowledged && w'.loop.acknowledged[id] == r)
  {
    var w1 := Next(w, ReadAnswer(result));
    var w2 := Next(w1, Deliver(waiter));
    ReadEnds(w, id, waiter, read, result);
    WaiterIsTold(w1, waiter, result);
    TellingInstalls(w.project, w.core, result);
    FinallyReleases(w2, id, waiter);
  }

  /******* What follows a readback *******/

  /** A readback asked for and answered. */
  function LookedUp(w: World, id: string, readId: string, wire: Wire): World {
    Next(Next(w, AskReadback(id)), ReadbackAnswer(w.loop.next, readId, wire))
  }

  /** The answer resolves the operation: a trusted terminal one, or the lost
      transport that cannot be told from it. */
  predicate Resolves(project: string, readId: string, wire: Wire) {
    wire.Lost? || (Trusted(readId, Some(project), wire) && Terminal(wire.envelope))
  }

  lemma ReadbackAsked(w: World, id: string)
    requires id in w.core.ctl.pending
    ensures var w' := Next(w, AskReadback(id));
            && w'.core == w.core && w'.project == w.project && w'.loop.co == w.loop.co
            && w.loop.next in w'.loop.readbacks && w'.loop.readbacks[w.loop.next] == id
  {
  }

  lemma ReadbackHeard(w: World, read: nat, readId: string, wire: Wire)
    requires read in w.loop.readbacks
    ensures var w' := Next(w, ReadbackAnswer(read, readId, wire));
            var id := w.loop.readbacks[read];
            && w'.core.ctl.pending == (if Resolves(w.project, readId, wire) then w.core.ctl.pending - {id} else w.core.ctl.pending)
            && w'.core.ctl.authorityFresh == w.core.ctl.authorityFresh && w'.core.ctl.model == w.core.ctl.model
            && w'.loop.co == if Resolves(w.project, readId, wire) && w.core.ctl.mounted
                             then Coordinator.Refresh(w.loop.co, false).0 else w.loop.co
  {
    var e := ReadbackEnvelope(w, readId, wire);
    if e.Some? {
      ReadbackFrame(w.project, w.core, w.loop.readbacks[read], e.value);
      RefreshWaits(w.loop.(readbacks := w.loop.readbacks - {read}));
    }
  }

  /** A readback resolves its operation or leaves it pending, and leaves
      authority alone: when it resolves, a status read is in flight that can
      give authority back. */
  lemma ReadbackLeadsTo(w: World, id: string, readId: string, wire: Wire)
    requires id in w.core.ctl.pending
    ensures var w' := LookedUp(w, id, readId, wire);
            && w'.core.ctl.pending == (if Resolves(w.project, readId, wire) then w.core.ctl.pending - {id} else w.core.ctl.pending)
            && w'.core.ctl.authorityFresh == w.core.ctl.authorityFresh
            && if Resolves(w.project, readId, wire) && w.core.ctl.mounted then w'.loop.co.inFlight.Some? else w'.loop.co == w.loop.co
  {
    ReadbackAsked(w, id);
    ReadbackHeard(Next(w, AskReadback(id)), w.loop.next, readId, wire);
    PlainRefresh(w.loop.co);
  }

  /******* What follows a page *******/

  /** A further page asked for and answered. */
  function Paged(w: World, answer: PageResult): World {
    Next(Next(w, AskPage), PageAnswer(w.loop.next, answer))
  }

  lemma PageAsked(w: World)
    requires w.core.ctl.model.Some? && w.core.ctl.model.value.nextOffset.Some?
    ensures var w' := Next(w, AskPage);
            && w'.core == w.core && w'.project == w.project && w'.loop.co == w.loop.co
            && w.loop.next in w'.loop.pages && w'.loop.pages[w.loop.next] == w.core.ctl.model.value
  {
  }

  lemma PageHeard(w: World, page: nat, answer: PageResult)
    requires page in w.loop.pages
    ensures var w' := Next(w, PageAnswer(page, answer));
            && w'.loop.co == (if answer.Page? && answer.model.revision != w.loop.pages[page].revision
                              then Coordinator.Refresh(w.loop.co, false).0 else w.loop.co)
            && w'.core == Make(w.project, w.core,
                 if answer.PageRejected? then LosesConnection
                 else if answer.Page? && answer.model.revision == w.loop.pages[page].revision then Installs(answer.model, false)
                 else Idle)
  {
    RefreshWaits(w.loop.(pages := w.loop.pages - {page}));
  }

  /** A page of the revision that is shown replaces it, if it is acceptable; a
      page of another revision is not shown and a status read is in flight
      instead; a rejected read takes authority away. */
  lemma PageLeadsTo(w: World, answer: PageResult)
    requires Revisions(w.core) && w.core.ctl.mounted && w.core.ctl.model.Some? && w.core.ctl.model.value.nextOffset.Some?
    ensures var s, w' := w.core.ctl, Paged(w, answer);
            if answer.Page? && answer.model.revision == s.model.value.revision && Acceptable(w.project, s, Some(answer.model))
            then w'.core.ctl.model == Some(answer.model) && w'.core.ctl.authorityFresh
            else
              && w'.core.ctl.model == s.model && (w'.core.ctl.authorityFresh ==> s.authorityFresh)
              && (answer.PageRejected? ==> !w'.core.ctl.authorityFresh)
              && (answer.Page? && answer.model.revision != s.model.value.revision ==> w'.loop.co.inFlight.Some?)
  {
    PageAsked(w);
    PageHeard(Next(w, AskPage), w.loop.next, answer);
    PlainRefresh(w.loop.co);
  }

  /** Both are answers to the same page, readback or receipt read. */
  predicate SameQuestion(e: Event, e': Event) {
    match e
    case PageAnswer(page, _) => e'.PageAnswer? && e'.page == page
    case ReadbackAnswer(read, _, _) => e'.ReadbackAnswer? && e'.read == read
    case ReceiptsAnswer(read, _) => e'.ReceiptsAnswer? && e'.read == read
    case _ => false
  }

  lemma QuestionsLeft(l: Loop)
    ensures Refreshing(l).pages == l.pages && Refreshing(l).readbacks == l.readbacks && Refreshing(l).receiptReads == l.receiptReads
  {
  }

  /** No question is answered twice: a second answer moves nothing. */
  lemma AnsweredOnce(w: World, e: Event, e': Event)
    requires SameQuestion(e, e')
    ensures var w' := Next(w, e); MoveOf(w', e').Idle? && Next(w', e') == w'
  {
    match e
    case PageAnswer(page, answer) => if page in w.loop.pages { QuestionsLeft(w.loop.(pages := w.loop.pages - {page})); }
    case ReadbackAnswer(read, readId, wire) =>
      if read in w.loop.readbacks { QuestionsLeft(w.loop.(readbacks := w.loop.readbacks - {read})); }
    case ReceiptsAnswer(read, rows) => SecondReceipts(w, read, rows);
  }

  lemma SecondReceipts(w: World, read: nat, rows: ReceiptPage)
    ensures var w' := Next(w, ReceiptsAnswer(read, rows)); read !in w'.loop.receiptReads && w'.loop.receiptReads - {read} == w'.loop.receiptReads
  {
  }

  /******* While unmounted *******/

  lemma UnmountedMove(project: string, c: Core, m: Move)
    requires !c.ctl.mounted && !c.ctl.authorityFresh && !m.Mounts?
    ensures var c' := Make(project, c, m);
            && !c'.ctl.mounted && !c'.ctl.authorityFresh && c'.ctl.model == c.ctl.model && c'.past.issued == c.past.issued
  {
    match m
    case Sends(intent, time, drawn) =>
      SendFrame(project, c, intent, time, drawn);
    case MergesReceipts(workId, attempt, page) => ReceiptsReadFrame(c.ctl, project, workId, attempt, page);
    case ReadsBack(target, e) => ReadbackFrame(project, c, target, e);
    case HearsAnswer(id, wire) => if id in c.sent { AnswerAuthority(c.ctl, c.sent[id], HeardEnvelope(project, id, wire)); }
    case _ =>
  }

  /** Once unmounted, whatever answers still arrive, nothing is installed, no
      authority comes back and nothing is sent - until the next mount. */
  lemma {:induction false} UnmountedStays(w: World, events: seq<Event>)
    requires !w.core.ctl.mounted && !w.core.ctl.authorityFresh && forall k :: 0 <= k < |events| ==> !events[k].Mount?
    ensures var c := Run(w, events).core;
            !c.ctl.mounted && !c.ctl.authorityFresh && c.ctl.model == w.core.ctl.model && c.past.issued == w.core.past.issued
    decreases |events|
  {
    if events != [] {
      UnmountedMove(w.project, w.core, MoveOf(w, events[0]));
      UnmountedStays(Next(w, events[0]), events[1..]);
    }
  }

  lemma UnmountIsQuiet(w: World, events: seq<Event>)
    requires forall k :: 0 <= k < |events| ==> !events[k].Mount?
    ensures var c := Run(Next(w, Unmount), events).core;
            !c.ctl.mounted && !c.ctl.authorityFresh && c.ctl.model == w.core.ctl.model && c.past.issued == w.core.past.issued
  {
    UnmountedStays(Next(w, Unmount), events);
  }
}

/** How many requests the dashboard has outstanding: one for each action, and
    one for the whole workspace, however the answers fall. */
module DashboardExclusion {
  import opened Wrappers
  import opened ServiceCall
  import opened Controller
  import opened Dashboard
  import opened DashboardSafety
  import opened DashboardFences

  /** Requests whose mutation has not reached its `finally`: unanswered, or waiting for their refresh. */
  function Outstanding(w: World): map<string, Request> {
    map id | id in w.core.sent.Keys + w.loop.settling.Keys ::
      if id in w.core.sent then w.core.sent[id] else w.loop.settling[id].request
  }

  predicate Clash(r: Request, r': Request) {
    r.mutation == r'.mutation || (r.mutation.Workspace? && r'.mutation.Workspace?)
  }

  predicate Holds(s: State, r: Request) {
    match r.mutation
    case Lifecycle(action) => action in s.busy
    case Workspace(name) => name in s.workspaceBusy
  }

  /** No two outstanding requests clash, and each holds its action. */
  ghost predicate Exclusive(s: State, requests: map<string, Request>) {
    && (forall id :: id in requests ==> Holds(s, requests[id]))
    && (forall id, id' :: id in requests && id' in requests && id != id' ==> !Clash(requests[id], requests[id']))
  }

  /** An answered request is no longer among the unanswered. */
  ghost predicate SettlingAnswered(w: World) {
    forall id :: id in w.loop.settling ==> id in w.core.past.verdicts
  }

  lemma BeginTakes(s: State, intent: Intent, id: string, sequence: nat)
    requires Begin(s, intent, id, sequence).Some?
    ensures var (s', r) := Begin(s, intent, id, sequence).value;
            match r.mutation
            case Lifecycle(action) => action !in s.busy && s'.busy == s.busy + {action} && s'.workspaceBusy == s.workspaceBusy
            case Workspace(name) => s.workspaceBusy == {} && s'.workspaceBusy == {name} && s'.busy == s.busy
  {
  }

  lemma ExclusiveSend(s: State, requests: map<string, Request>, intent: Intent, id: string, sequence: nat)
    requires Exclusive(s, requests) && Begin(s, intent, id, sequence).Some?
    ensures var (s', r) := Begin(s, intent, id, sequence).value; Exclusive(s', requests[id := r])
  {
    BeginTakes(s, intent, id, sequence);
  }

  lemma ExclusiveRelease(s: State, requests: map<string, Request>, id: string)
    requires Exclusive(s, requests) && id in requests
    ensures Exclusive(Released(s, requests[id]), requests - {id})
  {
  }

  lemma ExclusiveFrame(s: State, s': State, requests: map<string, Request>)
    requires Exclusive(s, requests) && s'.busy == s.busy && s'.workspaceBusy == s.workspaceBusy
    ensures Exclusive(s', requests)
  {
  }

  ghost predicate SameBusy(s: State, s': State) {
    s'.busy == s.busy && s'.workspaceBusy == s.workspaceBusy
  }

  lemma AnsweredBusy(s: State, r: Request, e: Envelope)
    ensures SameBusy(s, Answered(s, r, e).0)
  {
  }

  lemma ReadBackBusy(s: State, id: string, e: Envelope)
    ensures SameBusy(s, ReadBack(s, id, e).0)
  {
  }

  lemma BusyFrame(project: string, c: Core, m: Move)
    requires !m.Sends? && !m.Releases?
    ensures SameBusy(c.ctl, Make(project, c, m).ctl)
  {
    match m
    case HearsAnswer(id, wire) => if id in c.sent { AnsweredBusy(c.ctl, c.sent[id], HeardEnvelope(project, id, wire)); }
    case ReadsBack(target, e) => ReadBackBusy(c.ctl, target, e);
    case MergesReceipts(workId, attempt, page) => ReceiptsReadBusy(c.ctl, project, workId, attempt, page);
    case _ =>
  }

  lemma ReceiptsReadBusy(s: State, project: string, workId: string, attempt: Attempt, page: ReceiptPage)
    ensures var s' := ReceiptsRead(s, project, workId, attempt, page); s'.busy == s.busy && s'.workspaceBusy == s.workspaceBusy
  {
  }

  lemma StartMeans(w: World, intent: Intent, time: nat, drawn: nat)
    ensures var id := NextId(w.core.ctl, time, drawn);
            var begun := Begin(w.core.ctl, intent, id, w.core.ctl.sequence + drawn + 1);
            var w' := Next(w, Start(intent, time, drawn));
            if begun.None? then w'.core == w.core && w'.loop == w.loop
            else w'.core.ctl == begun.value.0 && w'.core.sent == w.core.sent[id := begun.value.1] && w'.loop == w.loop
  {
    SendFrame(w.project, w.core, intent, time, drawn);
  }

  lemma OutstandingSent(w: World, w': World, id: string, r: Request)
    requires w'.core.sent == w.core.sent[id := r] && w'.loop.settling == w.loop.settling
    ensures Outstanding(w') == Outstanding(w)[id := r]
  {
  }

  /** The controller and the outstanding requests after a request has gone out. */
  lemma ExclusiveAfter(s: State, requests: map<string, Request>, intent: Intent, id: string, sequence: nat, s': State, requests': map<string, Request>)
    requires Exclusive(s, requests) && Begin(s, intent, id, sequence).Some?
    requires s' == Begin(s, intent, id, sequence).value.0 && requests' == requests[id := Begin(s, intent, id, sequence).value.1]
    ensures Exclusive(s', requests')
  {
    ExclusiveSend(s, requests, intent, id, sequence);
  }

  lemma StartKeeps(w: World, intent: Intent, time: nat, drawn: nat)
    requires Exclusive(w.core.ctl, Outstanding(w))
    ensures var w' := Next(w, Start(intent, time, drawn)); Exclusive(w'.core.ctl, Outstanding(w'))
  {
    var w' := Next(w, Start(intent, time, drawn));
    var id, n := NextId(w.core.ctl, time, drawn), w.core.ctl.sequence + drawn + 1;
    StartMeans(w, intent, time, drawn);
    if Begin(w.core.ctl, intent, id, n).Some? {
      OutstandingSent(w, w', id, Begin(w.core.ctl, intent, id, n).value.1);
      ExclusiveAfter(w.core.ctl, Outstanding(w), intent, id, n, w'.core.ctl, Outstanding(w'));
    } else {
      assert Outstanding(w') == Outstanding(w);
    }
  }

  ghost predicate Moved(w: World, w': World, id: string) {
    && id in w.core.sent && w'.core.sent == w.core.sent - {id}
    && w'.loop.settling.Keys == w.loop.settling.Keys + {id} && w'.loop.settling[id].request == w.core.sent[id]
    && forall other :: other in w.loop.settling && other != id ==> w'.loop.settling[other] == w.loop.settling[other]
  }

  lemma OutstandingMoved(w: World, w': World, id: string)
    requires Moved(w, w', id)
    ensures Outstanding(w') == Outstanding(w)
  {
  }

  /** An answer moves its request from the unanswered to the settling. */
  lemma AnswerMoves(w: World, id: string, wire: Wire)
    requires id in w.core.sent && w.core.sent[id].operationId == id
    ensures var w' := Next(w, MutationAnswer(id, wire));
            && Outstanding(w') == Outstanding(w)
            && id in w'.core.past.verdicts && w'.loop.settling.Keys == w.loop.settling.Keys + {id}
  {
    AnswerQueueFrame(w, id, wire);
    AnswerFrame(w.project, w.core, id, wire);
    OutstandingMoved(w, Next(w, MutationAnswer(id, wire)), id);
  }

  lemma AnswerKeeps(w: World, id: string, wire: Wire)
    requires Exclusive(w.core.ctl, Outstanding(w)) && id in w.core.sent && w.core.sent[id].operationId == id
    ensures var w' := Next(w, MutationAnswer(id, wire)); Exclusive(w'.core.ctl, Outstanding(w'))
  {
    AnswerMoves(w, id, wire);
    BusyFrame(w.project, w.core, HearsAnswer(id, wire));
    ExclusiveFrame(w.core.ctl, Next(w, MutationAnswer(id, wire)).core.ctl, Outstanding(w));
  }

  lemma ThrowMoves(w: World, id: string)
    requires id in w.core.sent
    ensures var w' := Next(w, MutationThrow(id)); Moved(w, w', id) && id in w'.core.past.verdicts
  {
  }

  lemma ThrowKeeps(w: World, id: string)
    requires Exclusive(w.core.ctl, Outstanding(w)) && id in w.core.sent
    ensures var w' := Next(w, MutationThrow(id)); Exclusive(w'.core.ctl, Outstanding(w'))
  {
    var w' := Next(w, MutationThrow(id));
    ThrowMoves(w, id);
    OutstandingMoved(w, w', id);
    BusyFrame(w.project, w.core, HearsThrow(id));
    ExclusiveFrame(w.core.ctl, w'.core.ctl, Outstanding(w));
  }

  lemma FinallyKeeps(w: World, id: string)
    requires Exclusive(w.core.ctl, Outstanding(w)) && MayFinish(w.loop, id) && id !in w.core.sent
    ensures var w' := Next(w, Finally(id)); Exclusive(w'.core.ctl, Outstanding(w'))
  {
    var w' := Next(w, Finally(id));
    assert Outstanding(w)[id] == w.loop.settling[id].request;
    ExclusiveRelease(w.core.ctl, Outstanding(w), id);
    assert Outstanding(w') == Outstanding(w) - {id};
  }

  /** The steps that neither send nor settle anything. */
  predicate Aside(w: World, e: Event) {
    match e
    case Start(_, _, _) => false
    case MutationAnswer(id, _) => id !in w.core.sent
    case MutationThrow(id) => id !in w.core.sent
    case Finally(id) => !MayFinish(w.loop, id)
    case _ => true
  }

  lemma AsideFrame(w: World, e: Event)
    requires Aside(w, e)
    ensures var w' := Next(w, e);
            && w'.core.sent == w.core.sent && w'.loop.settling == w.loop.settling
            && w'.core.ctl.busy == w.core.ctl.busy && w'.core.ctl.workspaceBusy == w.core.ctl.workspaceBusy
  {
    BusyFrame(w.project, w.core, MoveOf(w, e));
    AsideSent(w.project, w.core, MoveOf(w, e));
    if !e.MutationAnswer? && !e.MutationThrow? && !e.Finally? && !e.Acknowledge? {
      IdleQueues(w, e);
    }
  }

  lemma AsideSent(project: string, c: Core, m: Move)
    requires !m.Sends? && !m.Releases?
    requires (m.HearsAnswer? ==> m.id !in c.sent) && (m.HearsThrow? ==> m.id !in c.sent)
    ensures Make(project, c, m).sent == c.sent
  {
    match m
    case ReadsBack(target, e) => ReadbackFrame(project, c, target, e);
    case HearsAnswer(_, _) =>
    case HearsThrow(_) =>
    case _ => QuietFrame(project, c, m);
  }

  lemma ExclusiveStep(w: World, e: Event)
    requires Ledger(w.core) && SettlingAnswered(w) && Exclusive(w.core.ctl, Outstanding(w))
    ensures Exclusive(Next(w, e).core.ctl, Outstanding(Next(w, e)))
  {
    if Aside(w, e) {
      AsideFrame(w, e);
      assert Outstanding(Next(w, e)) == Outstanding(w);
      ExclusiveFrame(w.core.ctl, Next(w, e).core.ctl, Outstanding(w));
    } else {
      match e
      case Start(intent, time, drawn) => StartKeeps(w, intent, time, drawn);
      case MutationAnswer(id, wire) => AnswerKeeps(w, id, wire);
      case MutationThrow(id) => ThrowKeeps(w, id);
      case Finally(id) => FinallyKeeps(w, id);
    }
  }

  /** What a step may add to the settling requests. */
  lemma NewlySettling(w: World, e: Event)
    requires Ledger(w.core)
    ensures var w' := Next(w, e);
            forall id :: id in w'.loop.settling && id !in w.loop.settling ==> id in w'.core.past.verdicts
  {
    if Aside(w, e) {
      AsideFrame(w, e);
    } else {
      match e
      case Start(intent, time, drawn) => StartMeans(w, intent, time, drawn);
      case MutationAnswer(id, wire) => AnswerMoves(w, id, wire);
      case MutationThrow(id) => ThrowMoves(w, id);
      case Finally(id) =>
    }
  }

  lemma AnsweredStep(w: World, e: Event)
    requires Ledger(w.core) && SettlingAnswered(w)
    ensures SettlingAnswered(Next(w, e))
  {
    NewlySettling(w, e);
    MoveExtends(w.project, w.core, MoveOf(w, e));
  }

  lemma {:induction false} ExclusiveAlways(w: World, events: seq<Event>)
    requires Ledger(w.core) && SettlingAnswered(w) && Exclusive(w.core.ctl, Outstanding(w))
    ensures Exclusive(Run(w, events).core.ctl, Outstanding(Run(w, events)))
    decreases |events|
  {
    if events != [] {
      ExclusiveStep(w, events[0]);
      AnsweredStep(w, events[0]);
      LedgerMove(w.project, w.core, MoveOf(w, events[0]));
      ExclusiveAlways(Next(w, events[0]), events[1..]);
    }
  }

  /** After any run, two unanswered requests are never for the same action,
      and never both for the workspace. */
  lemma OneOutstandingPerAction(project: string, events: seq<Event>, id: string, id': string)
    requires id in Run(Initial(project), events).core.sent && id' in Run(Initial(project), events).core.sent && id != id'
    ensures var sent := Run(Initial(project), events).core.sent; !Clash(sent[id], sent[id'])
  {
    ExclusiveAlways(Initial(project), events);
    var w := Run(Initial(project), events);
    assert Outstanding(w)[id] == w.core.sent[id] && Outstanding(w)[id'] == w.core.sent[id'];
  }
}

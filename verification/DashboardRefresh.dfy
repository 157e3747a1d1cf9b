/** The refresh coordinator inside the dashboard: every run of the dashboard is
    a run of the coordinator, so what holds for all of those holds here. */
module DashboardRefresh {
  import opened Wrappers
  import opened ServiceCall
  import opened Controller
  import opened Dashboard
  import opened DashboardProgress
  import Coordinator

  /** Equal but for the numbers that tell reads apart. */
  predicate Same(c: Coordinator.Coord<Snapshot>, d: Coordinator.Coord<Snapshot>) {
    && (c.inFlight.Some? <==> d.inFlight.Some?) && c.revision == d.revision && c.model == d.model
    && c.resnapshotRequested == d.resnapshotRequested
  }

  /** What the coordinator is asked or told by a step of the dashboard. */
  function CallOf(w: World, e: Event): Option<Coordinator.Step<Snapshot>> {
    match e
    case Mount | CallRefresh => Some(Coordinator.CallRefresh(false))
    case Notified(observed) => Some(Coordinator.CallNotify(observed))
    case ReadAnswer(result) =>
      Some(Coordinator.Answer(if result.Some? then Some((result.value.revision, result.value)) else None))
    case Deliver(waiter) =>
      if SettledRead(w.loop, waiter).Resolved? && w.loop.waiters[waiter].chained then Some(Coordinator.CallRefresh(true)) else None
    case MutationAnswer(id, wire) =>
      if id in w.core.sent && Refreshes(w.core.ctl, HeardEnvelope(w.project, id, wire)) then Some(Coordinator.CallRefresh(false)) else None
    case PageAnswer(page, answer) =>
      if page in w.loop.pages && answer.Page? && answer.model.revision != w.loop.pages[page].revision
      then Some(Coordinator.CallRefresh(false)) else None
    case ReadbackAnswer(read, readId, wire) =>
      if read in w.loop.readbacks && Resolves(w.project, readId, wire) && w.core.ctl.mounted
      then Some(Coordinator.CallRefresh(false)) else None
    case _ => None
  }

  function Called(c: Coordinator.Coord<Snapshot>, call: Option<Coordinator.Step<Snapshot>>): Coordinator.Coord<Snapshot> {
    if call.Some? then Coordinator.Next(c, call.value) else c
  }

  lemma DeliverCalls(l: Loop, waiter: nat)
    ensures Delivered(l, waiter).co
            == if SettledRead(l, waiter).Resolved? && l.waiters[waiter].chained then Coordinator.Refresh(l.co, true).0 else l.co
  {
  }

  lemma AnswerCalls(w: World, id: string, wire: Wire)
    ensures Same(LoopAfter(w, MutationAnswer(id, wire)).co, Called(w.loop.co, CallOf(w, MutationAnswer(id, wire))))
  {
    if id in w.core.sent {
      AnswerSettles(w, id, wire);
      RefreshWaits(w.loop);
    }
  }

  lemma PageCalls(w: World, page: nat, answer: PageResult)
    ensures Same(LoopAfter(w, PageAnswer(page, answer)).co, Called(w.loop.co, CallOf(w, PageAnswer(page, answer))))
  {
    if page in w.loop.pages { PageHeard(w, page, answer); }
  }

  lemma ReadbackCalls(w: World, read: nat, readId: string, wire: Wire)
    ensures Same(LoopAfter(w, ReadbackAnswer(read, readId, wire)).co, Called(w.loop.co, CallOf(w, ReadbackAnswer(read, readId, wire))))
  {
    if read in w.loop.readbacks { ReadbackHeard(w, read, readId, wire); }
  }

  /** The steps that neither call the coordinator nor answer it. */
  predicate Elsewhere(e: Event) {
    || e.AskPage? || e.AskReadback? || e.AskReceipts? || e.MutationThrow? || e.Finally? || e.Acknowledge?
    || e.ReceiptsAnswer? || e.Unmount? || e.Start? || e.PickReceipt?
  }

  lemma ElsewhereCallsNothing(w: World, e: Event)
    requires Elsewhere(e)
    ensures LoopAfter(w, e).co == w.loop.co && CallOf(w, e).None?
  {
  }

  lemma WaitKeeps(l: Loop, co: Coordinator.Coord<Snapshot>, served: Coordinator.Served<Snapshot>)
    ensures Same(Wait(l, co, served).co, co)
  {
  }

  lemma NotifiedCalls(w: World, observed: Option<nat>)
    ensures Same(LoopAfter(w, Notified(observed)).co, Called(w.loop.co, CallOf(w, Notified(observed))))
  {
    var (co, served) := Coordinator.NotifyRevision(w.loop.co, observed);
    WaitKeeps(w.loop, co, served);
    assert LoopAfter(w, Notified(observed)) == Wait(w.loop, co, served);
  }

  lemma ReadAnswerCalls(w: World, result: Option<Snapshot>)
    ensures LoopAfter(w, ReadAnswer(result)).co == Called(w.loop.co, CallOf(w, ReadAnswer(result)))
  {
  }

  lemma RefreshCalls(w: World, e: Event)
    requires e.Mount? || e.CallRefresh?
    ensures LoopAfter(w, e).co == Called(w.loop.co, CallOf(w, e))
  {
    RefreshWaits(w.loop);
  }

  lemma StepCalls(w: World, e: Event)
    ensures Same(LoopAfter(w, e).co, Called(w.loop.co, CallOf(w, e)))
  {
    if Elsewhere(e) {
      ElsewhereCallsNothing(w, e);
    } else if e.Deliver? {
      DeliverCalls(w.loop, e.waiter);
    } else if e.MutationAnswer? {
      AnswerCalls(w, e.id, e.wire);
    } else if e.PageAnswer? {
      PageCalls(w, e.page, e.answer);
    } else if e.ReadbackAnswer? {
      ReadbackCalls(w, e.read, e.readId, e.wire);
    } else if e.Notified? {
      NotifiedCalls(w, e.observed);
    } else if e.ReadAnswer? {
      ReadAnswerCalls(w, e.result);
    } else {
      RefreshCalls(w, e);
    }
  }

  lemma SameNext(c: Coordinator.Coord<Snapshot>, d: Coordinator.Coord<Snapshot>, call: Option<Coordinator.Step<Snapshot>>)
    requires Same(c, d)
    ensures Same(Called(c, call), Called(d, call))
  {
  }

  /** The calls of a whole run. */
  function Calls(w: World, events: seq<Event>): seq<Coordinator.Step<Snapshot>>
    decreases |events|
  {
    if events == [] then []
    else
      var call := CallOf(w, events[0]);
      (if call.Some? then [call.value] else []) + Calls(Next(w, events[0]), events[1..])
  }

  lemma AfterCall(d: Coordinator.Coord<Snapshot>, call: Option<Coordinator.Step<Snapshot>>, rest: seq<Coordinator.Step<Snapshot>>)
    ensures Coordinator.After(d, (if call.Some? then [call.value] else []) + rest) == Coordinator.After(Called(d, call), rest)
  {
    if call.Some? {
      assert ([call.value] + rest)[1..] == rest;
    } else {
      assert [] + rest == rest;
    }
  }

  lemma {:induction false} RunIsCoordinatorRun(w: World, events: seq<Event>, d: Coordinator.Coord<Snapshot>)
    requires Same(w.loop.co, d)
    ensures Same(Run(w, events).loop.co, Coordinator.After(d, Calls(w, events)))
    decreases |events|
  {
    if events != [] {
      var call := CallOf(w, events[0]);
      StepCalls(w, events[0]);
      SameNext(w.loop.co, d, call);
      RunIsCoordinatorRun(Next(w, events[0]), events[1..], Called(d, call));
      AfterCall(d, call, Calls(Next(w, events[0]), events[1..]));
    }
  }

  /** The last snapshot that a status read has brought along the run. */
  function LastSnapshot(project: string, events: seq<Event>): Option<(nat, Snapshot)> {
    Coordinator.LastRead(Coordinator.Fresh(), Calls(Initial(project), events), None)
  }

  /** How the continuation of a call is kept. */
  lemma WaitMeans(l: Loop, co: Coordinator.Coord<Snapshot>, served: Coordinator.Served<Snapshot>)
    ensures var l' := Wait(l, co, served);
            && l.next in l'.waiters && l'.co.inFlight == co.inFlight
            && match served
               case Joined(read, _, chained) => l'.waiters[l.next] == Waiter(read, chained)
               case Immediate(model) => SettledRead(l', l.next) == Resolved(model) && !l'.waiters[l.next].chained
  {
  }

  lemma NotificationWaits(w: World, observed: Option<nat>, last: Option<(nat, Snapshot)>)
    requires Coordinator.Holds(w.loop.co, last)
    ensures var w' := Next(w, Notified(observed));
            && w'.core == w.core && w.loop.next in w'.loop.waiters
            && if observed.Some? && last.Some? && observed.value == last.value.0 then
                 && SettledRead(w'.loop, w.loop.next) == Resolved(last.value.1) && !w'.loop.waiters[w.loop.next].chained
                 && w'.loop.co.inFlight == w.loop.co.inFlight
               else
                 && w'.loop.co.inFlight == Some(w'.loop.waiters[w.loop.next].read)
                 && (w.loop.co.inFlight.Some? ==> w'.loop.co.inFlight == w.loop.co.inFlight)
                 && (w'.loop.waiters[w.loop.next].chained <==> w.loop.co.inFlight.Some? && Coordinator.Skips(last, observed))
  {
    Coordinator.NotifyServed(w.loop.co, observed, last);
    var (co, served) := Coordinator.NotifyRevision(w.loop.co, observed);
    WaitMeans(w.loop, co, served);
  }

  /** In every run of the dashboard: a notification that names the revision of
      the last status read has that snapshot delivered at once; any other one
      has its continuation wait for the read in flight, which it starts if need be. */
  lemma NotificationInRun(project: string, events: seq<Event>, observed: Option<nat>)
    ensures var w := Run(Initial(project), events);
            var last := LastSnapshot(project, events);
            var w' := Next(w, Notified(observed));
            && w'.core == w.core && w.loop.next in w'.loop.waiters
            && if observed.Some? && last.Some? && observed.value == last.value.0 then
                 && SettledRead(w'.loop, w.loop.next) == Resolved(last.value.1) && !w'.loop.waiters[w.loop.next].chained
                 && w'.loop.co.inFlight == w.loop.co.inFlight
               else
                 && w'.loop.co.inFlight == Some(w'.loop.waiters[w.loop.next].read)
                 && (w.loop.co.inFlight.Some? ==> w'.loop.co.inFlight == w.loop.co.inFlight)
                 && (w'.loop.waiters[w.loop.next].chained <==> w.loop.co.inFlight.Some? && Coordinator.Skips(last, observed))
  {
    var w := Run(Initial(project), events);
    var calls := Calls(Initial(project), events);
    RunIsCoordinatorRun(Initial(project), events, Coordinator.Fresh());
    Coordinator.HoldsLastRead(Coordinator.Fresh<Snapshot>(), calls, None);
    NotificationWaits(w, observed, LastSnapshot(project, events));
  }

  /** A continuation that asked for a resnapshot while another read was in
      flight is not served by that read: it asks again, and waits for a read
      that is owed as a resnapshot or starts with a null cursor. */
  lemma ChainedAsksAgain(w: World, waiter: nat)
    requires SettledRead(w.loop, waiter).Resolved? && w.loop.waiters[waiter].chained
    ensures var w' := Next(w, Deliver(waiter));
            && w'.core == w.core && waiter in w'.loop.waiters
            && w'.loop.co.inFlight == Some(w'.loop.waiters[waiter].read)
            && if w.loop.co.inFlight.Some? then w'.loop.co.resnapshotRequested && w'.loop.waiters[waiter].chained
               else Coordinator.StartedBy(w.loop.co, Coordinator.CallRefresh(true)) == Some(None) && !w'.loop.waiters[waiter].chained
  {
  }

  /** A failed read takes authority away and leaves nothing waiting for it. */
  lemma FailureIsDelivered(w: World, waiter: nat)
    requires SettledRead(w.loop, waiter).ReadFailed?
    ensures var w' := Next(w, Deliver(waiter));
            && !w'.core.ctl.authorityFresh && w'.core.ctl == w.core.ctl.(authorityFresh := false)
            && w'.loop == w.loop.(waiters := w.loop.waiters - {waiter})
  {
  }
}

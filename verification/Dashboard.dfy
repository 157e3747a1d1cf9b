/** The project dashboard as an event loop: the controller, the refresh
    coordinator, and every continuation that waits for an answer. Each await
    ends a step, answers are arbitrary, and any enabled step may come next.
    A step does two things: it makes one move of the controller (Core), and it
    rearranges the continuations (Loop). */
module Dashboard {
  import opened Wrappers
  import opened OperationIds
  import opened ServiceCall
  import opened Controller
  import Coordinator

  /******* The controller and the record of what it did *******/

  /** What the answer of a mutation said, in the words of the service call. */
  datatype Verdict = Acknowledged(revision: Option<nat>) | Refused | Doubted

  /** History, which no step of the program reads. `basis[i]` is the controller
      at the moment `issued[i]` was sent. */
  datatype Past = Past(
    issued: seq<Request>, basis: seq<State>, verdicts: map<string, Verdict>,
    resolved: set<string>, selections: set<Record>)

  /** `sent` holds the mutations whose answer has not come. */
  datatype Core = Core(ctl: State, sent: map<string, Request>, past: Past)

  datatype Move =
    | Idle | Mounts | Unmounts | LosesConnection
    | Installs(model: Snapshot, viaRefresh: bool)
    | Sends(intent: Intent, time: nat, drawn: nat)
    | HearsAnswer(id: string, wire: Wire)
    | HearsThrow(id: string)
    | Releases(request: Request)
    | KeepsReceipt(request: Request)
    | ReadsBack(target: string, envelope: Envelope)
    | MergesReceipts(workId: string, attempt: Attempt, page: ReceiptPage)
    | PicksReceipt(workId: string, receiptId: string)

  function VerdictOf(e: Envelope): Verdict {
    if Success(e.outcome) then Acknowledged(e.revision) else if Doubtful(e) then Doubted else Refused
  }

  function HeardEnvelope(project: string, id: string, wire: Wire): (e: Envelope)
    ensures e.operationId == id
  {
    Call(id, true, Some(project), wire).value
  }

  function NextId(s: State, time: nat, drawn: nat): string {
    OperationId(time, s.sequence + drawn + 1)
  }

  function Make(project: string, c: Core, m: Move): Core {
    match m
    case Idle => c
    case Mounts => c.(ctl := c.ctl.(mounted := true))
    case Unmounts => c.(ctl := c.ctl.(mounted := false, authorityFresh := false))
    case LosesConnection => c.(ctl := c.ctl.(authorityFresh := false))
    case Installs(model, viaRefresh) =>
      var (ctl, outcome) := Install(c.ctl, project, model);
      c.(ctl := if outcome.WrongProject? && viaRefresh then ctl.(authorityFresh := false) else ctl)
    case Sends(intent, time, drawn) =>
      (match Begin(c.ctl, intent, NextId(c.ctl, time, drawn), c.ctl.sequence + drawn + 1)
       case None => c
       case Some((ctl, request)) =>
         Core(ctl, c.sent[request.operationId := request],
              c.past.(issued := c.past.issued + [request], basis := c.past.basis + [c.ctl])))
    case HearsAnswer(id, wire) =>
      if id !in c.sent then c
      else
        var e := HeardEnvelope(project, id, wire);
        Core(Answered(c.ctl, c.sent[id], e).0, c.sent - {id}, c.past.(verdicts := c.past.verdicts[id := VerdictOf(e)]))
    case HearsThrow(id) =>
      if id !in c.sent then c
      else Core(Threw(c.ctl, c.sent[id]), c.sent - {id}, c.past.(verdicts := c.past.verdicts[id := Doubted]))
    case Releases(request) => c.(ctl := Released(c.ctl, request))
    case KeepsReceipt(r) =>
      if r.mutation == Lifecycle(Evidence) && r.workId.Some? && r.attempt.Some? && r.payload.Some? then
        c.(ctl := StoreEvidence(c.ctl, r.workId.value, r.attempt.value, r.payload.value))
      else if r.mutation == Lifecycle(Finish) && r.workId.Some? then c.(ctl := DropReceipt(c.ctl, r.workId.value))
      else c
    case ReadsBack(target, e) =>
      c.(ctl := ReadBack(c.ctl, target, e).0,
         past := if Terminal(e) && target in c.ctl.pending then c.past.(resolved := c.past.resolved + {target}) else c.past)
    case MergesReceipts(workId, attempt, page) => c.(ctl := ReceiptsRead(c.ctl, project, workId, attempt, page))
    case PicksReceipt(workId, receiptId) =>
      var record := Selected(c.ctl, project, workId, receiptId);
      c.(ctl := Select(c.ctl, project, workId, receiptId),
         past := if record.Some? then c.past.(selections := c.past.selections + {record.value}) else c.past)
  }

  /******* The continuations *******/

  datatype Read = Unanswered | Resolved(model: Snapshot) | ReadFailed

  /** A refresh or notification waiting for `read`; a chained one asks again. */
  datatype Waiter = Waiter(read: nat, chained: bool)

  /** A mutation whose answer has come, waiting for its refresh to settle. */
  datatype Settling = Settling(request: Request, acknowledged: bool, waiter: Option<nat>)

  datatype ReceiptRead = ReceiptRead(workId: string, attempt: Attempt)

  datatype Loop = Loop(
    co: Coordinator.Coord<Snapshot>,
    statusReads: map<nat, Read>,
    waiters: map<nat, Waiter>,
    settling: map<string, Settling>,
    acknowledged: map<string, Request>,   // back in the action method, receipts not yet updated
    pages: map<nat, Snapshot>,
    readbacks: map<nat, string>,
    receiptReads: map<nat, ReceiptRead>,
    next: nat)

  datatype PageResult = PageRejected | PageUnreadable | Page(model: Snapshot)

  datatype Event =
    | Mount | Unmount | CallRefresh | Notified(observed: Option<nat>)
    | ReadAnswer(result: Option<Snapshot>) | Deliver(waiter: nat)
    | Start(intent: Intent, time: nat, drawn: nat) | MutationAnswer(id: string, wire: Wire) | MutationThrow(id: string)
    | Finally(id: string) | Acknowledge(id: string)
    | AskPage | PageAnswer(page: nat, answer: PageResult)
    | AskReadback(target: string) | ReadbackAnswer(read: nat, readId: string, wire: Wire)
    | AskReceipts(workId: string) | ReceiptsAnswer(read: nat, rows: ReceiptPage)
    | PickReceipt(workId: string, receiptId: string)

  datatype World = World(project: string, core: Core, loop: Loop)

  function Initial(project: string): World {
    World(project, Core(INITIAL, map[], Past([], [], map[], {}, {})),
          Loop(Coordinator.Fresh(), map[], map[], map[], map[], map[], map[], map[], 0))
  }

  /** The answer of a readback as `readback` sees it; None where the call throws. */
  function ReadbackEnvelope(w: World, readId: string, wire: Wire): Option<Envelope> {
    match Call(readId, false, Some(w.project), wire)
    case Ok(e) => Some(e)
    case Err(_) => None
  }

  function SettledRead(l: Loop, waiter: nat): Read {
    if waiter in l.waiters && l.waiters[waiter].read in l.statusReads then l.statusReads[l.waiters[waiter].read]
    else Unanswered
  }

  predicate MayFinish(l: Loop, id: string) {
    id in l.settling && (l.settling[id].waiter.Some? ==> l.settling[id].waiter.value !in l.waiters)
  }

  /** The move of the controller that a step makes; a step that is not enabled makes none. */
  function MoveOf(w: World, e: Event): Move {
    match e
    case Mount => Mounts
    case Unmount => Unmounts
    case Deliver(waiter) =>
      (match SettledRead(w.loop, waiter)
       case Unanswered => Idle
       case ReadFailed => LosesConnection
       case Resolved(model) => if w.loop.waiters[waiter].chained then Idle else Installs(model, true))
    case Start(intent, time, drawn) => Sends(intent, time, drawn)
    case MutationAnswer(id, wire) => HearsAnswer(id, wire)
    case MutationThrow(id) => HearsThrow(id)
    case Finally(id) => if MayFinish(w.loop, id) then Releases(w.loop.settling[id].request) else Idle
    case Acknowledge(id) => if id in w.loop.acknowledged then KeepsReceipt(w.loop.acknowledged[id]) else Idle
    case PageAnswer(page, answer) =>
      if page !in w.loop.pages then Idle
      else (match answer
            case PageRejected => LosesConnection
            case PageUnreadable => Idle
            case Page(model) => if model.revision == w.loop.pages[page].revision then Installs(model, false) else Idle)
    case ReadbackAnswer(read, readId, wire) =>
      if read !in w.loop.readbacks || ReadbackEnvelope(w, readId, wire).None? then Idle
      else ReadsBack(w.loop.readbacks[read], ReadbackEnvelope(w, readId, wire).value)
    case ReceiptsAnswer(read, rows) =>
      if read !in w.loop.receiptReads then Idle
      else MergesReceipts(w.loop.receiptReads[read].workId, w.loop.receiptReads[read].attempt, rows)
    case PickReceipt(workId, receiptId) => PicksReceipt(workId, receiptId)
    case CallRefresh | Notified(_) | ReadAnswer(_) | AskPage | AskReadback(_) | AskReceipts(_) => Idle
  }

  /** A call of the coordinator, with the continuation that waits for it. */
  function Wait(l: Loop, co: Coordinator.Coord<Snapshot>, served: Coordinator.Served<Snapshot>): Loop {
    match served
    case Joined(read, started, chained) =>
      l.(co := co, statusReads := if started.Some? then l.statusReads[read := Unanswered] else l.statusReads,
         waiters := l.waiters[l.next := Waiter(read, chained)], next := l.next + 1)
    case Immediate(model) =>
      l.(co := co.(readCount := co.readCount + 1), statusReads := l.statusReads[co.readCount := Resolved(model)],
         waiters := l.waiters[l.next := Waiter(co.readCount, false)], next := l.next + 1)
  }

  function Refreshing(l: Loop): Loop {
    var (co, served) := Coordinator.Refresh(l.co, false);
    Wait(l, co, served)
  }

  function Settle(l: Loop, result: Option<Snapshot>): Loop {
    if l.co.inFlight.None? then l
    else
      l.(co := Coordinator.ReadSettled(l.co, if result.Some? then Some((result.value.revision, result.value)) else None),
         statusReads := l.statusReads[l.co.inFlight.value := if result.Some? then Resolved(result.value) else ReadFailed])
  }

  /** A delivered waiter is done; a chained one calls refresh({resnapshot: true})
      and its promise keeps waiting. */
  function Delivered(l: Loop, waiter: nat): Loop {
    match SettledRead(l, waiter)
    case Unanswered => l
    case ReadFailed => l.(waiters := l.waiters - {waiter})
    case Resolved(_) =>
      if !l.waiters[waiter].chained then l.(waiters := l.waiters - {waiter})
      else
        var (co, served) := Coordinator.Refresh(l.co, true);
        if served.Immediate? then l
        else l.(co := co, statusReads := if served.started.Some? then l.statusReads[served.read := Unanswered] else l.statusReads,
                waiters := l.waiters[waiter := Waiter(served.read, served.chained)])
  }

  function AfterAnswer(w: World, id: string, wire: Wire): Loop {
    if id !in w.core.sent then w.loop
    else
      var e := HeardEnvelope(w.project, id, wire);
      if Answered(w.core.ctl, w.core.sent[id], e).1 then
        var l := Refreshing(w.loop);
        l.(settling := l.settling[id := Settling(w.core.sent[id], Success(e.outcome), Some(w.loop.next))])
      else w.loop.(settling := w.loop.settling[id := Settling(w.core.sent[id], Success(e.outcome), None)])
  }

  function AfterFinally(l: Loop, id: string): Loop {
    if !MayFinish(l, id) then l
    else
      var s := l.settling[id];
      l.(settling := l.settling - {id},
         acknowledged := if s.acknowledged then l.acknowledged[id := s.request] else l.acknowledged)
  }

  function AfterPage(l: Loop, page: nat, answer: PageResult): Loop {
    if page !in l.pages then l
    else
      var l1 := l.(pages := l.pages - {page});
      if answer.Page? && answer.model.revision != l.pages[page].revision then Refreshing(l1) else l1
  }

  function AfterReadback(w: World, read: nat, readId: string, wire: Wire): Loop {
    if read !in w.loop.readbacks then w.loop
    else
      var l := w.loop.(readbacks := w.loop.readbacks - {read});
      var e := ReadbackEnvelope(w, readId, wire);
      if e.Some? && ReadBack(w.core.ctl, w.loop.readbacks[read], e.value).1 then Refreshing(l) else l
  }

  function AfterReceiptAsk(w: World, workId: string): Loop {
    var item := ItemOf(w.core.ctl, workId);
    if !w.core.ctl.mounted || item.None? || item.value.attempt.None? then w.loop
    else w.loop.(receiptReads := w.loop.receiptReads[w.loop.next := ReceiptRead(workId, item.value.attempt.value)],
                 next := w.loop.next + 1)
  }

  function LoopAfter(w: World, e: Event): Loop {
    match e
    case Mount | CallRefresh => Refreshing(w.loop)
    case Notified(observed) =>
      var (co, served) := Coordinator.NotifyRevision(w.loop.co, observed);
      Wait(w.loop, co, served)
    case ReadAnswer(result) => Settle(w.loop, result)
    case Deliver(waiter) => Delivered(w.loop, waiter)
    case MutationAnswer(id, wire) => AfterAnswer(w, id, wire)
    case MutationThrow(id) =>
      if id !in w.core.sent then w.loop
      else w.loop.(settling := w.loop.settling[id := Settling(w.core.sent[id], false, None)])
    case Finally(id) => AfterFinally(w.loop, id)
    case Acknowledge(id) => w.loop.(acknowledged := w.loop.acknowledged - {id})
    case AskPage =>
      if w.core.ctl.model.None? || w.core.ctl.model.value.nextOffset.None? then w.loop
      else w.loop.(pages := w.loop.pages[w.loop.next := w.core.ctl.model.value], next := w.loop.next + 1)
    case PageAnswer(page, answer) => AfterPage(w.loop, page, answer)
    case AskReadback(target) =>
      if target !in w.core.ctl.pending then w.loop
      else w.loop.(readbacks := w.loop.readbacks[w.loop.next := target], next := w.loop.next + 1)
    case ReadbackAnswer(read, readId, wire) => AfterReadback(w, read, readId, wire)
    case AskReceipts(workId) => AfterReceiptAsk(w, workId)
    case ReceiptsAnswer(read, _) => w.loop.(receiptReads := w.loop.receiptReads - {read})
    case Unmount | Start(_, _, _) | PickReceipt(_, _) => w.loop
  }

  function Next(w: World, e: Event): World {
    World(w.project, Make(w.project, w.core, MoveOf(w, e)), LoopAfter(w, e))
  }

  function Run(w: World, events: seq<Event>): World
    decreases |events|
  {
    if events == [] then w else Run(Next(w, events[0]), events[1..])
  }
}

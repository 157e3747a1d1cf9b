/** The full-screen dashboard's confirmation pipeline: a dialog records what it
    shows, Enter queues it, and the queue sends it - on the dashboard of
    Dashboard.dfy, whose own steps may come at any point between. */
module FullScreen {
  import opened Wrappers
  import opened OperationIds
  import opened Controller
  import Dashboard
  import DashboardSafety
  import DashboardFences

  /** `number` tells dialogs apart. `shown` is the controller when the dialog opened. */
  datatype Dialog = Dialog(number: nat, intent: Intent, revision: Option<nat>, attempt: Option<string>, offset: nat)

  datatype Task = Mutating(dialog: Dialog) | Refreshing | Reading

  datatype Ui = Ui(
    accepting: bool, shutdownTimedOut: bool,
    queue: seq<Task>, active: Option<Task>,
    mutationQueued: bool, refreshQueued: bool, refreshDirty: bool,
    frozen: bool, laterPage: bool,
    modal: Option<Dialog>, dialogs: nat)

  const OPENED := Ui(true, false, [], None, false, false, false, false, false, None, 0)

  /** attemptIdentity's text. */
  function Identity(a: Attempt): string {
    a.id + " \U{B7} generation" + [' '] + Numeral(a.fence, 10)
  }

  /** The work an intent is bound to; an empty work id is none. */
  function BoundWork(intent: Intent): Option<string> {
    match intent
    case Create(_, _) => None
    case OnWork(_, workId, _, _) => WorkRef(workId)
    case InWorkspace(_, workId, _) => WorkRef(workId)
  }

  function ShownAttempt(s: State, workId: string): Option<Attempt> {
    if ItemOf(s, workId).Some? then ItemOf(s, workId).value.attempt else None
  }

  function AttemptIdentity(s: State, workId: Option<string>): Option<string> {
    if workId.None? || ShownAttempt(s, workId.value).None? then None
    else Some(Identity(ShownAttempt(s, workId.value).value))
  }

  function ShownRevision(s: State): Option<nat> {
    if s.model.Some? then Some(s.model.value.revision) else None
  }

  function DialogFor(s: State, number: nat, intent: Intent): Dialog {
    Dialog(number, intent, ShownRevision(s), AttemptIdentity(s, BoundWork(intent)), 0)
  }

  /** `execute`: the snapshot must still be the one the dialog showed. */
  predicate StillAsShown(s: State, d: Dialog) {
    && ShownRevision(s) == d.revision
    && (BoundWork(d.intent).Some? ==> AttemptIdentity(s, BoundWork(d.intent)) == d.attempt)
  }

  /** The text names one attempt and fence only. */
  lemma IdentityInjective(a: Attempt, b: Attempt)
    requires Identity(a) == Identity(b)
    ensures a == b
  {
    var mid := " \U{B7} generation";
    assert !IsDigit(' ');
    LastSeparator(a.id + mid, Numeral(a.fence, 10), b.id + mid, Numeral(b.fence, 10), ' ');
    NumeralInjective(a.fence, b.fence);
    assert |a.id| == |b.id|;
    assert a.id == (a.id + mid)[..|a.id|] && b.id == (b.id + mid)[..|b.id|];
  }

  /******* The interface's own steps, as functions *******/

  function Enqueue(u: Ui, t: Task): Ui {
    if !u.accepting then u else u.(queue := u.queue + [t])
  }

  function Confirm(u: Ui, s: State, intent: Intent): Ui {
    u.(modal := Some(DialogFor(s, u.dialogs, intent)), dialogs := u.dialogs + 1)
  }

  function Min(a: int, b: int): int {
    if a < b then a else b
  }

  /** Enter in a confirm dialog whose text has `maximum` as its last offset. */
  function PressEnter(u: Ui, roomy: bool, maximum: nat, capacity: nat): Ui {
    if u.modal.None? then u
    else
      var d := u.modal.value.(offset := Min(u.modal.value.offset, maximum));
      if !roomy then u.(modal := Some(d))
      else if d.offset < maximum then u.(modal := Some(d.(offset := Min(maximum, d.offset + capacity))))
      else if u.mutationQueued then u.(modal := Some(d))
      else Enqueue(u.(modal := None, mutationQueued := true), Mutating(d))
  }

  function Refresh(u: Ui, manual: bool): Ui {
    if !u.accepting || (!manual && (u.frozen || u.modal.Some? || u.laterPage)) then u
    else if u.refreshQueued then u.(laterPage := u.laterPage && !manual, refreshDirty := true)
    else u.(laterPage := u.laterPage && !manual, refreshQueued := true, queue := u.queue + [Refreshing])
  }

  function TakeTask(u: Ui): Ui {
    if u.active.Some? || u.queue == [] then u
    else if u.shutdownTimedOut || !u.accepting then u.(queue := u.queue[1..])
    else u.(active := Some(u.queue[0]), queue := u.queue[1..])
  }

  function TaskEnded(u: Ui): Ui {
    if u.active.None? then u
    else match u.active.value
      case Mutating(_) => u.(active := None, mutationQueued := false)
      case Reading => u.(active := None)
      case Refreshing =>
        if u.refreshDirty && u.accepting then Refresh(u.(active := None, refreshQueued := false, refreshDirty := false), false)
        else u.(active := None, refreshQueued := false)
  }

  function Stop(u: Ui): Ui {
    if u.accepting then u.(accepting := false, modal := None) else u
  }

  class Screen {
    var accepting: bool
    var shutdownTimedOut: bool
    var work: seq<Task>
    var active: Option<Task>
    var mutationQueued: bool
    var refreshQueued: bool
    var refreshDirty: bool
    var frozen: bool
    var browsingLaterPage: bool
    var modal: Option<Dialog>
    var dialogs: nat

    ghost function Fields(): Ui
      reads this
    {
      Ui(accepting, shutdownTimedOut, work, active, mutationQueued, refreshQueued, refreshDirty, frozen, browsingLaterPage, modal, dialogs)
    }

    constructor ()
      ensures Fields() == OPENED
    {
      accepting, shutdownTimedOut, work, active := true, false, [], None;
      mutationQueued, refreshQueued, refreshDirty, frozen, browsingLaterPage := false, false, false, false, false;
      modal, dialogs := None, 0;
    }

    method EnqueueTask(t: Task)
      modifies this
      ensures Fields() == Enqueue(old(Fields()), t)
    {
      if !accepting {
        return;
      }
      work := work + [t];
    }

    method ShowDialog(s: State, intent: Intent)
      modifies this
      ensures Fields() == Confirm(old(Fields()), s, intent)
    {
      modal := Some(DialogFor(s, dialogs, intent));
      dialogs := dialogs + 1;
    }

    method EnterKey(roomy: bool, maximum: nat, capacity: nat)
      modifies this
      ensures Fields() == PressEnter(old(Fields()), roomy, maximum, capacity)
    {
      if modal.None? {
        return;
      }
      var d := modal.value;
      d := d.(offset := Min(d.offset, maximum));
      modal := Some(d);
      if !roomy {
        return;
      }
      if d.offset < maximum {
        modal := Some(d.(offset := Min(maximum, d.offset + capacity)));
        return;
      }
      if mutationQueued {
        return;
      }
      modal := None;
      mutationQueued := true;
      EnqueueTask(Mutating(d));
    }

    method AskRefresh(manual: bool)
      modifies this
      ensures Fields() == Refresh(old(Fields()), manual)
    {
      if !accepting || (!manual && (frozen || modal.Some? || browsingLaterPage)) {
        return;
      }
      if manual {
        browsingLaterPage := false;
      }
      if refreshQueued {
        refreshDirty := true;
        return;
      }
      refreshQueued := true;
      EnqueueTask(Refreshing);
    }

    /** The head of the promise chain, when nothing runs before it any more. */
    method StartNext()
      modifies this
      ensures Fields() == TakeTask(old(Fields()))
    {
      if active.Some? || work == [] {
        return;
      }
      if !(shutdownTimedOut || !accepting) {
        active := Some(work[0]);
      }
      work := work[1..];
    }

    method EndActive()
      modifies this
      ensures Fields() == TaskEnded(old(Fields()))
    {
      if active.None? {
        return;
      }
      var task := active.value;
      active := None;
      match task {
        case Mutating(_) => mutationQueued := false;
        case Reading =>
        case Refreshing =>
          refreshQueued := false;
          if refreshDirty && accepting {
            refreshDirty := false;
            AskRefresh(false);
          }
      }
    }

    method StopAccepting()
      modifies this
      ensures Fields() == Stop(old(Fields()))
    {
      if !accepting {
        return;
      }
      accepting := false;
      modal := None;
    }
  }

  /******* The whole program *******/

  /** A request that went out, and the dialog whose confirmation sent it. */
  datatype Sending = Sending(dialog: Dialog, request: Request, basis: State)

  /** `openings` remembers the controller behind each dialog, `confirmed` the dialogs that Enter queued. */
  datatype Program = Program(
    world: Dashboard.World, ui: Ui, openings: seq<State>, confirmed: set<nat>, log: seq<Sending>)

  datatype Input =
    | Opens(intent: Intent)
    | Enter(roomy: bool, maximum: nat, capacity: nat)
    | Scrolls(offset: nat) | Dismisses | AsksRefresh(manual: bool) | AsksRead | Freezes(frozen: bool) | TurnsPage
    | Starts(time: nat, drawn: nat, ruleEnabled: bool) | Ends
    | Stops | TimesOut
    | Background(event: Dashboard.Event)

  function Launch(project: string): Program {
    Program(Dashboard.Initial(project), OPENED, [], {}, [])
  }

  /** The synchronous part of a task: `execute` up to the request, or the start of a refresh. */
  function RunTask(p: Program, t: Task, time: nat, drawn: nat, ruleEnabled: bool): Program {
    match t
    case Reading => p
    case Refreshing => p.(world := Dashboard.Next(p.world, Dashboard.CallRefresh))
    case Mutating(d) =>
      var s := p.world.core.ctl;
      if !StillAsShown(s, d) || !ruleEnabled then p
      else
        match Begin(s, d.intent, Dashboard.NextId(s, time, drawn), s.sequence + drawn + 1)
        case None => p
        case Some((_, request)) =>
          p.(world := Dashboard.Next(p.world, Dashboard.Start(d.intent, time, drawn)),
             log := p.log + [Sending(d, request, s)])
  }

  /** The inputs that change the interface alone. */
  function Interface(u: Ui, i: Input): Ui {
    match i
    case Scrolls(offset) => if u.modal.None? then u else u.(modal := Some(u.modal.value.(offset := offset)))
    case Dismisses => u.(modal := None)
    case AsksRefresh(manual) => Refresh(u, manual)
    case AsksRead => Enqueue(u, Reading)
    case Freezes(frozen) => u.(frozen := frozen)
    case TurnsPage => u.(laterPage := true, frozen := true)
    case Ends => TaskEnded(u)
    case Stops => Stop(u)
    case TimesOut => if u.accepting then u else u.(shutdownTimedOut := true)
    case Opens(_) | Enter(_, _, _) | Starts(_, _, _) | Background(_) => u
  }

  function Take(p: Program, i: Input): Program {
    match i
    case Opens(intent) => p.(ui := Confirm(p.ui, p.world.core.ctl, intent), openings := p.openings + [p.world.core.ctl])
    case Enter(roomy, maximum, capacity) =>
      var u := PressEnter(p.ui, roomy, maximum, capacity);
      p.(ui := u, confirmed := if p.ui.modal.Some? && u.modal.None? then p.confirmed + {p.ui.modal.value.number} else p.confirmed)
    case Starts(time, drawn, ruleEnabled) =>
      var u := TakeTask(p.ui);
      if p.ui.active.None? && u.active.Some? then RunTask(p.(ui := u), u.active.value, time, drawn, ruleEnabled)
      else p.(ui := u)
    case Background(event) => if event.Start? then p else p.(world := Dashboard.Next(p.world, event))
    case _ => p.(ui := Interface(p.ui, i))
  }

  function TakeAll(p: Program, inputs: seq<Input>): Program
    decreases |inputs|
  {
    if inputs == [] then p else TakeAll(Take(p, inputs[0]), inputs[1..])
  }

  /******* Dialogs and the queue *******/

  /** The same dialog, scrolled anywhere. */
  ghost predicate SameDialog(d: Dialog, e: Dialog) {
    d.number == e.number && d.intent == e.intent && d.revision == e.revision && d.attempt == e.attempt
  }

  /** The dialog records what the controller showed when it opened. */
  ghost predicate RecordsOpening(openings: seq<State>, d: Dialog) {
    d.number < |openings| && SameDialog(d, DialogFor(openings[d.number], d.number, d.intent))
  }

  /** At most one mutation waits or runs. */
  ghost predicate OneMutation(u: Ui) {
    && (forall i, j :: 0 <= i < j < |u.queue| && u.queue[i].Mutating? ==> !u.queue[j].Mutating?)
    && (u.active.Some? && u.active.value.Mutating? ==> u.mutationQueued && forall i :: 0 <= i < |u.queue| ==> !u.queue[i].Mutating?)
    && (!u.mutationQueued ==> forall i :: 0 <= i < |u.queue| ==> !u.queue[i].Mutating?)
  }

  lemma OneMutationEnqueue(u: Ui, t: Task)
    requires OneMutation(u) && (t.Mutating? ==> false)
    ensures OneMutation(Enqueue(u, t))
  {
  }

  lemma OneMutationRefresh(u: Ui, manual: bool)
    requires OneMutation(u)
    ensures OneMutation(Refresh(u, manual))
  {
  }

  lemma OneMutationEnter(u: Ui, roomy: bool, maximum: nat, capacity: nat)
    requires OneMutation(u)
    ensures OneMutation(PressEnter(u, roomy, maximum, capacity))
  {
  }

  lemma OneMutationTake(u: Ui)
    requires OneMutation(u)
    ensures OneMutation(TakeTask(u))
  {
  }

  lemma OneMutationEnded(u: Ui)
    requires OneMutation(u)
    ensures OneMutation(TaskEnded(u))
  {
    if u.active.Some? && u.active.value.Refreshing? && u.refreshDirty && u.accepting {
      OneMutationRefresh(u.(active := None, refreshQueued := false, refreshDirty := false), false);
    }
  }

  lemma OneMutationInterface(u: Ui, i: Input)
    requires OneMutation(u)
    ensures OneMutation(Interface(u, i))
  {
    match i
    case AsksRefresh(manual) => OneMutationRefresh(u, manual);
    case AsksRead => OneMutationEnqueue(u, Reading);
    case Ends => OneMutationEnded(u);
    case _ =>
  }

  lemma OneMutationKept(p: Program, i: Input)
    requires OneMutation(p.ui)
    ensures OneMutation(Take(p, i).ui)
  {
    OneMutationInterface(p.ui, i);
    match i
    case Enter(roomy, maximum, capacity) => OneMutationEnter(p.ui, roomy, maximum, capacity);
    case Starts(time, drawn, ruleEnabled) => OneMutationTake(p.ui);
    case _ =>
  }

  /** Where dialogs may be: each was opened as recorded, a queued one was
      confirmed and is newer than all that were sent, the open one is the newest of all. */
  ghost predicate Queued(p: Program) {
    && |p.openings| == p.ui.dialogs
    && (forall n :: n in p.confirmed ==> n < p.ui.dialogs)
    && (forall i :: 0 <= i < |p.ui.queue| && p.ui.queue[i].Mutating? ==>
          RecordsOpening(p.openings, p.ui.queue[i].dialog) && NewerThanSent(p, p.ui.queue[i].dialog.number))
    && (p.ui.modal.Some? ==>
          && RecordsOpening(p.openings, p.ui.modal.value)
          && p.ui.modal.value.number == p.ui.dialogs - 1 && p.ui.modal.value.number !in p.confirmed)
  }

  ghost predicate NewerThanSent(p: Program, n: nat) {
    n in p.confirmed && forall x :: 0 <= x < |p.log| ==> p.log[x].dialog.number < n
  }

  /** One entry of the log: a confirmed dialog that still held when its request went out. */
  ghost predicate Confirmed(p: Program, x: nat)
    requires x < |p.log|
  {
    var d, s := p.log[x].dialog, p.log[x].basis;
    && d.number in p.confirmed && RecordsOpening(p.openings, d) && StillAsShown(s, d)
    && exists id, sequence :: Began(s, d.intent, id, sequence, p.log[x].request)
  }

  ghost predicate Began(s: State, intent: Intent, id: string, sequence: nat, r: Request) {
    Begin(s, intent, id, sequence).Some? && Begin(s, intent, id, sequence).value.1 == r
  }

  ghost predicate Logged(p: Program) {
    && |p.log| == |p.world.core.past.issued| == |p.world.core.past.basis|
    && (forall x :: 0 <= x < |p.log| ==>
          && p.log[x].request == p.world.core.past.issued[x] && p.log[x].basis == p.world.core.past.basis[x]
          && Confirmed(p, x))
    && (forall x, y :: 0 <= x < y < |p.log| ==> p.log[x].dialog.number < p.log[y].dialog.number)
  }

  lemma OnlyStartsIssue(w: Dashboard.World, e: Dashboard.Event)
    requires !e.Start?
    ensures var past := Dashboard.Next(w, e).core.past;
            past.issued == w.core.past.issued && past.basis == w.core.past.basis
  {
    var m := Dashboard.MoveOf(w, e);
    assert !m.Sends?;
    match m
    case MergesReceipts(workId, attempt, page) =>
    case _ =>
  }

  /** Steps that neither send nor touch a dialog that is queued or sent. */
  lemma LogStays(p: Program, p': Program)
    requires Logged(p) && p'.log == p.log
    requires p'.world.core.past.issued == p.world.core.past.issued && p'.world.core.past.basis == p.world.core.past.basis
    requires p.openings <= p'.openings && p.confirmed <= p'.confirmed
    ensures Logged(p')
  {
    forall x | 0 <= x < |p'.log| ensures Confirmed(p', x) {
      assert Confirmed(p, x);
    }
  }

  lemma QueueStays(p: Program, p': Program)
    requires Queued(p) && p'.log == p.log && p.openings <= p'.openings && p.confirmed <= p'.confirmed
    requires |p'.openings| == p'.ui.dialogs && forall n :: n in p'.confirmed ==> n < p'.ui.dialogs
    requires forall t :: t in p'.ui.queue && t.Mutating? ==>
      t in p.ui.queue || (RecordsOpening(p'.openings, t.dialog) && NewerThanSent(p', t.dialog.number))
    requires p'.ui.modal.Some? ==>
      && RecordsOpening(p'.openings, p'.ui.modal.value)
      && p'.ui.modal.value.number == p'.ui.dialogs - 1 && p'.ui.modal.value.number !in p'.confirmed
    ensures Queued(p')
  {
    forall i | 0 <= i < |p'.ui.queue| && p'.ui.queue[i].Mutating?
      ensures RecordsOpening(p'.openings, p'.ui.queue[i].dialog) && NewerThanSent(p', p'.ui.queue[i].dialog.number)
    {
      var t := p'.ui.queue[i];
      if t in p.ui.queue {
        var j :| 0 <= j < |p.ui.queue| && p.ui.queue[j] == t;
        assert NewerThanSent(p, t.dialog.number);
      }
    }
  }

  lemma OpenDialogIsNewest(p: Program)
    requires Queued(p) && Logged(p) && p.ui.modal.Some?
    ensures forall x :: 0 <= x < |p.log| ==> p.log[x].dialog.number < p.ui.modal.value.number
  {
    forall x | 0 <= x < |p.log| ensures p.log[x].dialog.number < p.ui.modal.value.number {
      assert Confirmed(p, x);
    }
  }

  lemma PressMeans(u: Ui, roomy: bool, maximum: nat, capacity: nat)
    requires u.modal.Some?
    ensures var u' := PressEnter(u, roomy, maximum, capacity);
            && u'.dialogs == u.dialogs
            && (u'.modal.Some? ==> u'.queue == u.queue && SameDialog(u'.modal.value, u.modal.value))
            && (u'.modal.None? && u'.queue != u.queue ==>
                  exists d: Dialog :: SameDialog(d, u.modal.value) && u'.queue == u.queue + [Mutating(d)])
  {
    var d := u.modal.value.(offset := Min(u.modal.value.offset, maximum));
    assert SameDialog(d, u.modal.value);
  }

  lemma EnterKeeps(p: Program, roomy: bool, maximum: nat, capacity: nat)
    requires Queued(p) && Logged(p)
    ensures Queued(Take(p, Enter(roomy, maximum, capacity))) && Logged(Take(p, Enter(roomy, maximum, capacity)))
  {
    var p' := Take(p, Enter(roomy, maximum, capacity));
    LogStays(p, p');
    if p.ui.modal.Some? {
      OpenDialogIsNewest(p);
      PressMeans(p.ui, roomy, maximum, capacity);
    }
    QueueStays(p, p');
  }

  lemma OpenKeeps(p: Program, intent: Intent)
    requires Queued(p) && Logged(p)
    ensures Queued(Take(p, Opens(intent))) && Logged(Take(p, Opens(intent)))
  {
    var p' := Take(p, Opens(intent));
    LogStays(p, p');
    QueueStays(p, p');
  }

  lemma LogExtends(p: Program, p': Program, d: Dialog, r: Request, id: string, sequence: nat)
    requires Logged(p) && RecordsOpening(p.openings, d) && NewerThanSent(p, d.number)
    requires var s := p.world.core.ctl;
             && StillAsShown(s, d) && Began(s, d.intent, id, sequence, r)
             && p'.log == p.log + [Sending(d, r, s)]
             && p'.world.core.past.issued == p.world.core.past.issued + [r]
             && p'.world.core.past.basis == p.world.core.past.basis + [s]
    requires p'.openings == p.openings && p'.confirmed == p.confirmed
    ensures Logged(p')
  {
    forall x | 0 <= x < |p'.log|
      ensures p'.log[x].request == p'.world.core.past.issued[x] && p'.log[x].basis == p'.world.core.past.basis[x]
      ensures Confirmed(p', x)
    {
      if x < |p.log| {
        assert p'.log[x] == p.log[x] && Confirmed(p, x);
      } else {
        assert p'.log[x] == Sending(d, r, p.world.core.ctl);
      }
    }
  }

  lemma SendKeeps(p: Program, d: Dialog, time: nat, drawn: nat, ruleEnabled: bool)
    requires Logged(p) && RecordsOpening(p.openings, d) && NewerThanSent(p, d.number)
    ensures Logged(RunTask(p, Mutating(d), time, drawn, ruleEnabled))
  {
    var s := p.world.core.ctl;
    var id, n := Dashboard.NextId(s, time, drawn), s.sequence + drawn + 1;
    if StillAsShown(s, d) && ruleEnabled && Begin(s, d.intent, id, n).Some? {
      DashboardSafety.SendFrame(p.world.project, p.world.core, d.intent, time, drawn);
      LogExtends(p, RunTask(p, Mutating(d), time, drawn, ruleEnabled), d, Begin(s, d.intent, id, n).value.1, id, n);
    }
  }

  lemma DropKeeps(p: Program, u: Ui)
    requires Queued(p) && p.ui.queue != [] && u.queue == p.ui.queue[1..] && u.modal == p.ui.modal && u.dialogs == p.ui.dialogs
    ensures Queued(p.(ui := u))
  {
    QueueStays(p, p.(ui := u));
  }

  lemma StartMutation(p: Program, u: Ui, time: nat, drawn: nat, ruleEnabled: bool)
    requires Queued(p) && OneMutation(p.ui) && Logged(p)
    requires p.ui.queue != [] && p.ui.queue[0].Mutating?
    requires u.queue == p.ui.queue[1..] && u.modal == p.ui.modal && u.dialogs == p.ui.dialogs
    ensures var p' := RunTask(p.(ui := u), p.ui.queue[0], time, drawn, ruleEnabled); Queued(p') && Logged(p')
  {
    var p1 := p.(ui := u);
    LogStays(p, p1);
    assert NewerThanSent(p1, p.ui.queue[0].dialog.number) by { assert NewerThanSent(p, p.ui.queue[0].dialog.number); }
    SendKeeps(p1, p.ui.queue[0].dialog, time, drawn, ruleEnabled);
    assert forall i :: 0 <= i < |u.queue| ==> u.queue[i] == p.ui.queue[i + 1] && !u.queue[i].Mutating?;
    StartedQueue(p1, RunTask(p1, p.ui.queue[0], time, drawn, ruleEnabled));
  }

  lemma RefreshKeeps(p: Program)
    requires Queued(p) && Logged(p)
    ensures var p' := p.(world := Dashboard.Next(p.world, Dashboard.CallRefresh)); Queued(p') && Logged(p')
  {
    var p' := p.(world := Dashboard.Next(p.world, Dashboard.CallRefresh));
    OnlyStartsIssue(p.world, Dashboard.CallRefresh);
    LogStays(p, p');
    QueueStays(p, p');
  }

  lemma StartTask(p: Program, u: Ui, time: nat, drawn: nat, ruleEnabled: bool)
    requires Queued(p) && OneMutation(p.ui) && Logged(p) && p.ui.queue != []
    requires u.queue == p.ui.queue[1..] && u.modal == p.ui.modal && u.dialogs == p.ui.dialogs
    ensures var p' := RunTask(p.(ui := u), p.ui.queue[0], time, drawn, ruleEnabled); Queued(p') && Logged(p')
  {
    DropKeeps(p, u);
    LogStays(p, p.(ui := u));
    match p.ui.queue[0]
    case Mutating(_) => StartMutation(p, u, time, drawn, ruleEnabled);
    case Refreshing => RefreshKeeps(p.(ui := u));
    case Reading =>
  }

  /** Either nothing is taken, or the head of the queue starts, or it is dropped. */
  lemma TakeMeans(u: Ui)
    ensures var u' := TakeTask(u);
            && u'.modal == u.modal && u'.dialogs == u.dialogs
            && if u.active.Some? || u.queue == [] then u' == u
               else u'.queue == u.queue[1..] && (u'.active.None? || u'.active == Some(u.queue[0]))
  {
  }

  lemma TakenStarts(p: Program, time: nat, drawn: nat, ruleEnabled: bool)
    ensures var u := TakeTask(p.ui);
            Take(p, Starts(time, drawn, ruleEnabled))
            == if p.ui.active.None? && u.active.Some? then RunTask(p.(ui := u), u.active.value, time, drawn, ruleEnabled) else p.(ui := u)
  {
  }

  lemma StartKeeps(p: Program, time: nat, drawn: nat, ruleEnabled: bool)
    requires Queued(p) && OneMutation(p.ui) && Logged(p)
    ensures Queued(Take(p, Starts(time, drawn, ruleEnabled))) && Logged(Take(p, Starts(time, drawn, ruleEnabled)))
  {
    var u := TakeTask(p.ui);
    TakeMeans(p.ui);
    TakenStarts(p, time, drawn, ruleEnabled);
    if p.ui.active.None? && p.ui.queue != [] {
      if u.active.Some? {
        StartTask(p, u, time, drawn, ruleEnabled);
      } else {
        DropKeeps(p, u);
        LogStays(p, p.(ui := u));
      }
    } else {
      assert p.(ui := u) == p;
    }
  }

  /** With no mutation left in the queue, sending one leaves nothing to check there. */
  lemma StartedQueue(p1: Program, p': Program)
    requires p'.ui == p1.ui && p'.openings == p1.openings && p'.confirmed == p1.confirmed
    requires forall i :: 0 <= i < |p1.ui.queue| ==> !p1.ui.queue[i].Mutating?
    requires |p1.openings| == p1.ui.dialogs && (forall n :: n in p1.confirmed ==> n < p1.ui.dialogs)
    requires p1.ui.modal.Some? ==>
      && RecordsOpening(p1.openings, p1.ui.modal.value)
      && p1.ui.modal.value.number == p1.ui.dialogs - 1 && p1.ui.modal.value.number !in p1.confirmed
    ensures Queued(p')
  {
  }

  lemma BackgroundKeeps(p: Program, event: Dashboard.Event)
    requires Queued(p) && Logged(p)
    ensures Queued(Take(p, Background(event))) && Logged(Take(p, Background(event)))
  {
    if !event.Start? {
      OnlyStartsIssue(p.world, event);
      LogStays(p, Take(p, Background(event)));
      QueueStays(p, Take(p, Background(event)));
    }
  }

  /** The interface's own inputs open no dialog and queue no mutation. */
  ghost predicate Quiet(u: Ui, u': Ui) {
    && u'.dialogs == u.dialogs
    && (u'.modal.Some? ==> u.modal.Some? && SameDialog(u'.modal.value, u.modal.value))
    && (u'.queue == u.queue || exists t :: u'.queue == u.queue + [t] && !t.Mutating?)
    && (!u.accepting ==> !u'.accepting)
  }

  /** Nothing but, perhaps, a refresh joins the queue. */
  ghost predicate OnlyRefreshes(u: Ui, u': Ui) {
    && u'.dialogs == u.dialogs && u'.modal == u.modal && u'.accepting == u.accepting
    && (u'.queue == u.queue || u'.queue == u.queue + [Refreshing])
  }

  lemma RefreshOnlyRefreshes(u: Ui, manual: bool)
    ensures OnlyRefreshes(u, Refresh(u, manual))
  {
  }

  lemma EndedRefresh(u: Ui)
    requires u.active == Some(Refreshing)
    ensures OnlyRefreshes(u, TaskEnded(u))
  {
    RefreshOnlyRefreshes(u.(active := None, refreshQueued := false, refreshDirty := false), false);
  }

  lemma EndingOnlyRefreshes(u: Ui)
    ensures OnlyRefreshes(u, TaskEnded(u))
  {
    if u.active == Some(Refreshing) { EndedRefresh(u); }
  }

  lemma InterfaceIsQuiet(u: Ui, i: Input)
    ensures Quiet(u, Interface(u, i))
  {
    match i
    case AsksRefresh(manual) => RefreshOnlyRefreshes(u, manual);
    case Ends => EndingOnlyRefreshes(u);
    case _ =>
  }

  lemma QuietKeeps(p: Program, u: Ui)
    requires Queued(p) && Logged(p) && Quiet(p.ui, u)
    ensures Queued(p.(ui := u)) && Logged(p.(ui := u))
  {
    LogStays(p, p.(ui := u));
    QueueStays(p, p.(ui := u));
  }

  lemma StepKeeps(p: Program, i: Input)
    requires Queued(p) && OneMutation(p.ui) && Logged(p)
    ensures Queued(Take(p, i)) && OneMutation(Take(p, i).ui) && Logged(Take(p, i))
  {
    OneMutationKept(p, i);
    match i
    case Opens(intent) => OpenKeeps(p, intent);
    case Enter(roomy, maximum, capacity) => EnterKeeps(p, roomy, maximum, capacity);
    case Starts(time, drawn, ruleEnabled) => StartKeeps(p, time, drawn, ruleEnabled);
    case Background(event) => BackgroundKeeps(p, event);
    case _ =>
      InterfaceIsQuiet(p.ui, i);
      QuietKeeps(p, Interface(p.ui, i));
  }

  lemma {:induction false} RunKeeps(p: Program, inputs: seq<Input>)
    requires Queued(p) && OneMutation(p.ui) && Logged(p)
    ensures var p' := TakeAll(p, inputs); Queued(p') && OneMutation(p'.ui) && Logged(p')
    decreases |inputs|
  {
    if inputs != [] {
      StepKeeps(p, inputs[0]);
      RunKeeps(Take(p, inputs[0]), inputs[1..]);
    }
  }

  /******* What reaches the service *******/

  /** The request answers one confirmed dialog: on the revision that dialog
      showed, and for a work-bound action on the attempt it showed. */
  ghost predicate AsConfirmed(d: Dialog, before: State, r: Request) {
    && SameDialog(d, DialogFor(before, d.number, d.intent))
    && before.model.Some? && r.expectedRevision == before.model.value.revision && d.revision == Some(r.expectedRevision)
    && r.input == d.intent.input
    && (match d.intent
        case Create(action, input) => r.mutation == Lifecycle(action) && r.workId.None?
        case OnWork(action, workId, payload, input) =>
          && r.mutation == Lifecycle(action) && r.workId == Some(workId)
          && (action.Evidence? ==> r.payload == Some(payload))
        case InWorkspace(name, _, input) => r.mutation == Workspace(name))
    && (r.attempt.Some? && r.workId != Some("") ==> r.workId.Some? && ShownAttempt(before, r.workId.value) == r.attempt)
  }

  lemma SameAttempt(a: State, b: State, work: string)
    requires AttemptIdentity(a, Some(work)) == AttemptIdentity(b, Some(work))
    ensures ShownAttempt(a, work) == ShownAttempt(b, work)
  {
    if ShownAttempt(a, work).Some? {
      IdentityInjective(ShownAttempt(a, work).value, ShownAttempt(b, work).value);
    }
  }

  lemma BeginCarries(s: State, intent: Intent, id: string, sequence: nat)
    requires Begin(s, intent, id, sequence).Some?
    ensures var r := Begin(s, intent, id, sequence).value.1;
            r.input == intent.input &&
            match intent
            case Create(action, _) => r.mutation == Lifecycle(action) && r.workId.None? && r.attempt.None?
            case OnWork(action, workId, payload, input) =>
              && r.mutation == Lifecycle(action) && r.workId == Some(workId)
              && (action.Evidence? ==> r.payload == Some(payload))
            case InWorkspace(name, workId, input) =>
              r.mutation == Workspace(name) && (r.attempt.Some? ==> r.workId == Some(workId))
  {
    match intent
    case OnWork(action, workId, payload, input) =>
      DashboardFences.FoundItemHasId(if s.model.Some? then s.model.value.items else [], workId);
    case _ =>
  }

  lemma SendingAsConfirmed(openings: seq<State>, d: Dialog, s: State, id: string, sequence: nat)
    requires RecordsOpening(openings, d) && StillAsShown(s, d) && Begin(s, d.intent, id, sequence).Some?
    ensures AsConfirmed(d, openings[d.number], Begin(s, d.intent, id, sequence).value.1)
  {
    var before, r := openings[d.number], Begin(s, d.intent, id, sequence).value.1;
    DashboardFences.BeginBasis(s, d.intent, id, sequence);
    BeginCarries(s, d.intent, id, sequence);
    if BoundWork(d.intent).Some? {
      SameAttempt(before, s, BoundWork(d.intent).value);
    }
  }

  /** End to end: whatever the operator presses, whatever the service answers
      and however the dashboard's own steps fall between, every request that
      went out answers a dialog that Enter confirmed at the end of its text,
      as that dialog showed it, and no dialog is answered twice. */
  lemma ConfirmedSends(project: string, inputs: seq<Input>)
    ensures var p := TakeAll(Launch(project), inputs);
            && |p.log| == |p.world.core.past.issued|
            && (forall x :: 0 <= x < |p.log| ==>
                  && p.log[x].request == p.world.core.past.issued[x]
                  && p.log[x].dialog.number in p.confirmed && p.log[x].dialog.number < |p.openings|
                  && AsConfirmed(p.log[x].dialog, p.openings[p.log[x].dialog.number], p.log[x].request))
            && (forall x, y :: 0 <= x < y < |p.log| ==> p.log[x].dialog.number != p.log[y].dialog.number)
  {
    var p := TakeAll(Launch(project), inputs);
    RunKeeps(Launch(project), inputs);
    forall x | 0 <= x < |p.log|
      ensures AsConfirmed(p.log[x].dialog, p.openings[p.log[x].dialog.number], p.log[x].request)
    {
      assert Confirmed(p, x);
      var id, n :| Began(p.log[x].basis, p.log[x].dialog.intent, id, n, p.log[x].request);
      SendingAsConfirmed(p.openings, p.log[x].dialog, p.log[x].basis, id, n);
    }
  }

  /** Enter confirms only on the last page of the dialog. */
  lemma ConfirmedAtTheEnd(u: Ui, roomy: bool, maximum: nat, capacity: nat)
    ensures u.modal.Some? && PressEnter(u, roomy, maximum, capacity).modal.None? <==>
            u.modal.Some? && roomy && u.modal.value.offset >= maximum && !u.mutationQueued
  {
  }

  lemma StoppedUi(u: Ui, roomy: bool, maximum: nat, capacity: nat)
    requires !u.accepting
    ensures !PressEnter(u, roomy, maximum, capacity).accepting
    ensures !TakeTask(u).accepting && TakeTask(u).active == u.active
  {
  }

  lemma StoppedStep(p: Program, i: Input)
    requires !p.ui.accepting
    ensures var p' := Take(p, i);
            !p'.ui.accepting && p'.log == p.log && p'.world.core.past.issued == p.world.core.past.issued
  {
    match i
    case Background(event) => if !event.Start? { OnlyStartsIssue(p.world, event); }
    case Opens(_) =>
    case Enter(roomy, maximum, capacity) => StoppedUi(p.ui, roomy, maximum, capacity);
    case Starts(_, _, _) => StoppedUi(p.ui, true, 0, 0);
    case _ => InterfaceIsQuiet(p.ui, i);
  }

  /** Once the operator has left, no queued mutation starts. */
  lemma {:induction false} NothingSentAfterStop(p: Program, inputs: seq<Input>)
    requires !p.ui.accepting
    ensures TakeAll(p, inputs).world.core.past.issued == p.world.core.past.issued && TakeAll(p, inputs).log == p.log
    decreases |inputs|
  {
    if inputs != [] {
      StoppedStep(p, inputs[0]);
      NothingSentAfterStop(Take(p, inputs[0]), inputs[1..]);
    }
  }

  /** A refresh asked for while one was running is queued again when that one
      ends - unless the view is frozen or on a later page, or a dialog is
      open: then the request is forgotten. */
  lemma RefreshForgottenIff(u: Ui)
    requires u.active == Some(Refreshing) && u.refreshDirty && u.accepting
    ensures var u' := TaskEnded(u);
            && !u'.refreshDirty
            && u'.queue == (if u.frozen || u.modal.Some? || u.laterPage then u.queue else u.queue + [Refreshing])
            && (u'.refreshQueued <==> !(u.frozen || u.modal.Some? || u.laterPage))
  {
  }

  lemma TakeFirst(p: Program, i: Input, rest: seq<Input>)
    ensures TakeAll(p, [i] + rest) == TakeAll(Take(p, i), rest)
  {
    assert ([i] + rest)[1..] == rest;
  }

  lemma TakeThree(p: Program, a: Input, b: Input, c: Input)
    ensures TakeAll(p, [a] + ([b] + ([c] + []))) == Take(Take(Take(p, a), b), c)
  {
    TakeFirst(p, a, [b] + ([c] + []));
    TakeFirst(Take(p, a), b, [c] + []);
    TakeFirst(Take(Take(p, a), b), c, []);
  }

  lemma {:induction false} TakeConcat(p: Program, first: seq<Input>, second: seq<Input>)
    ensures TakeAll(p, first + second) == TakeAll(TakeAll(p, first), second)
    decreases |first|
  {
    if first == [] {
      assert first + second == second;
    } else {
      assert (first + second)[1..] == first[1..] + second;
      TakeConcat(Take(p, first[0]), first[1..], second);
    }
  }

  /** A refresh is running when another is asked for. */
  function AskedTwice(project: string): Program {
    Take(Take(Take(Launch(project), AsksRefresh(true)), Starts(0, 0, true)), AsksRefresh(true))
  }

  lemma AskedTwiceUi(project: string)
    ensures AskedTwice(project).ui == OPENED.(refreshQueued := true, active := Some(Refreshing), refreshDirty := true)
  {
    var p1 := Take(Launch(project), AsksRefresh(true));
    assert p1.ui == OPENED.(refreshQueued := true, queue := [Refreshing]);
    var p2 := Take(p1, Starts(0, 0, true));
    assert p2.ui == OPENED.(refreshQueued := true, active := Some(Refreshing));
  }

  lemma EndedUnderDialog(p: Program)
    requires p.ui == OPENED.(refreshQueued := true, active := Some(Refreshing), refreshDirty := true)
    ensures var u := Take(Take(p, Opens(Create(CreateWork, ""))), Ends).ui;
            u.accepting && u.active.None? && u.queue == [] && !u.refreshQueued && !u.refreshDirty
  {
    RefreshForgottenIff(Take(p, Opens(Create(CreateWork, ""))).ui);
  }

  /** A run from the launch that forgets one: a refresh is running, another is
      asked for, and a dialog opens before the first one ends. */
  lemma RefreshForgotten(project: string)
    ensures exists before, after ::
              && TakeAll(Launch(project), before).ui.refreshDirty
              && var u := TakeAll(Launch(project), before + after).ui;
                 u.accepting && u.active.None? && u.queue == [] && !u.refreshQueued && !u.refreshDirty
  {
    var before := [AsksRefresh(true)] + ([Starts(0, 0, true)] + ([AsksRefresh(true)] + []));
    var after := [Opens(Create(CreateWork, ""))] + ([Ends] + []);
    var p := AskedTwice(project);
    TakeThree(Launch(project), AsksRefresh(true), Starts(0, 0, true), AsksRefresh(true));
    AskedTwiceUi(project);
    TakeConcat(Launch(project), before, after);
    TakeFirst(p, Opens(Create(CreateWork, "")), [Ends] + []);
    TakeFirst(Take(p, Opens(Create(CreateWork, ""))), Ends, []);
    EndedUnderDialog(p);
  }
}

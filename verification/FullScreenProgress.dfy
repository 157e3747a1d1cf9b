/** The full-screen dashboard's queue does not jam: its two flags say exactly
    what waits or runs, so that a finished mutation makes room for the next
    one, and what is confirmed and still holds is sent when its turn comes. */
module FullScreenProgress {
  import opened Wrappers
  import opened Controller
  import opened FullScreen
  import Dashboard
  import DashboardSafety
  import DashboardAuthority

  /** What runs, followed by what waits. */
  function About(u: Ui): seq<Task> {
    (if u.active.Some? then [u.active.value] else []) + u.queue
  }

  /** The tasks that have a flag: mutations and refreshes. */
  predicate Flagged(t: Task, mutates: bool) {
    if mutates then t.Mutating? else t.Refreshing?
  }

  /** The flag says whether there is such a task, and there are never two. */
  ghost predicate Flags(tasks: seq<Task>, flag: bool, mutates: bool) {
    && (flag <==> exists i :: 0 <= i < |tasks| && Flagged(tasks[i], mutates))
    && forall i, j :: 0 <= i < j < |tasks| && Flagged(tasks[i], mutates) ==> !Flagged(tasks[j], mutates)
  }

  ghost predicate Exact(u: Ui) {
    u.accepting ==>
      && Flags(About(u), u.mutationQueued, true) && Flags(About(u), u.refreshQueued, false)
      && (u.refreshDirty ==> u.refreshQueued) && !u.shutdownTimedOut
  }

  /******* Every step keeps the flags exact *******/

  lemma FlagsAppend(tasks: seq<Task>, flag: bool, mutates: bool, t: Task)
    requires Flags(tasks, flag, mutates) && (Flagged(t, mutates) ==> !flag)
    ensures Flags(tasks + [t], flag || Flagged(t, mutates), mutates)
  {
    var tasks' := tasks + [t];
    if Flagged(t, mutates) { assert tasks'[|tasks|] == t; }
    if flag {
      var i :| 0 <= i < |tasks| && Flagged(tasks[i], mutates);
      assert tasks'[i] == tasks[i];
    }
  }

  lemma FlagsTail(tasks: seq<Task>, flag: bool, mutates: bool)
    requires Flags(tasks, flag, mutates) && tasks != []
    ensures Flags(tasks[1..], flag && !Flagged(tasks[0], mutates), mutates)
  {
    if flag && !Flagged(tasks[0], mutates) {
      var i :| 0 <= i < |tasks| && Flagged(tasks[i], mutates);
      assert tasks[1..][i - 1] == tasks[i];
    }
  }

  lemma ExactRefresh(u: Ui, manual: bool)
    requires Exact(u)
    ensures Exact(Refresh(u, manual))
  {
    var u' := Refresh(u, manual);
    if u.accepting && u'.queue != u.queue {
      assert About(u') == About(u) + [Refreshing];
      FlagsAppend(About(u), u.mutationQueued, true, Refreshing);
      FlagsAppend(About(u), u.refreshQueued, false, Refreshing);
    } else {
      assert About(u') == About(u);
    }
  }

  lemma ExactEnter(u: Ui, roomy: bool, maximum: nat, capacity: nat)
    requires Exact(u)
    ensures Exact(PressEnter(u, roomy, maximum, capacity))
  {
    var u' := PressEnter(u, roomy, maximum, capacity);
    if u.accepting && u'.queue != u.queue {
      var t := u'.queue[|u.queue|];
      assert About(u') == About(u) + [t];
      FlagsAppend(About(u), u.mutationQueued, true, t);
      FlagsAppend(About(u), u.refreshQueued, false, t);
    } else {
      assert About(u') == About(u);
    }
  }

  lemma ExactTake(u: Ui)
    requires Exact(u)
    ensures Exact(TakeTask(u))
  {
    if u.accepting && u.active.None? && u.queue != [] {
      assert About(TakeTask(u)) == [u.queue[0]] + u.queue[1..] == About(u);
    }
  }

  /** The interface between the end of a task and what its end asks for. */
  function Cleared(u: Ui): Ui
    requires u.active.Some?
  {
    var t := u.active.value;
    Ui(u.accepting, u.shutdownTimedOut, u.queue, None, u.mutationQueued && !t.Mutating?,
       u.refreshQueued && !t.Refreshing?, u.refreshDirty && !t.Refreshing?, u.frozen, u.laterPage, u.modal, u.dialogs)
  }

  lemma ExactWith(u: Ui, mutationQueued: bool, refreshQueued: bool)
    requires u.active.None? && !u.shutdownTimedOut && u.mutationQueued == mutationQueued && u.refreshQueued == refreshQueued
    requires Flags(u.queue, mutationQueued, true) && Flags(u.queue, refreshQueued, false) && (u.refreshDirty ==> refreshQueued)
    ensures Exact(u)
  {
    assert About(u) == u.queue;
  }

  lemma ExactCleared(u: Ui)
    requires Exact(u) && u.active.Some?
    ensures Exact(Cleared(u))
  {
    if u.accepting {
      var t := u.active.value;
      assert About(u) == [t] + u.queue && About(u)[1..] == u.queue;
      FlagsTail(About(u), u.mutationQueued, true);
      FlagsTail(About(u), u.refreshQueued, false);
      ExactWith(Cleared(u), u.mutationQueued && !t.Mutating?, u.refreshQueued && !t.Refreshing?);
    }
  }

  lemma EndedIsCleared(u: Ui)
    requires u.accepting && u.active.Some?
    ensures TaskEnded(u) == if u.active.value.Refreshing? && u.refreshDirty then Refresh(Cleared(u), false) else Cleared(u)
  {
  }

  lemma ExactEnded(u: Ui)
    requires Exact(u)
    ensures Exact(TaskEnded(u))
  {
    if u.accepting && u.active.Some? {
      ExactCleared(u);
      ExactRefresh(Cleared(u), false);
      EndedIsCleared(u);
    }
  }

  lemma ExactInterface(u: Ui, i: Input)
    requires Exact(u)
    ensures Exact(Interface(u, i))
  {
    match i
    case AsksRefresh(manual) => ExactRefresh(u, manual);
    case AsksRead =>
      if u.accepting {
        assert About(Enqueue(u, Reading)) == About(u) + [Reading];
        FlagsAppend(About(u), u.mutationQueued, true, Reading);
        FlagsAppend(About(u), u.refreshQueued, false, Reading);
      }
    case Ends => ExactEnded(u);
    case _ => assert Interface(u, i).accepting ==> About(Interface(u, i)) == About(u);
  }

  lemma ExactStep(p: Program, i: Input)
    requires Exact(p.ui)
    ensures Exact(Take(p, i).ui)
  {
    match i
    case Enter(roomy, maximum, capacity) => ExactEnter(p.ui, roomy, maximum, capacity);
    case Starts(time, drawn, ruleEnabled) => ExactTake(p.ui);
    case Opens(intent) => assert About(Take(p, i).ui) == About(p.ui);
    case Background(event) =>
    case _ => ExactInterface(p.ui, i);
  }

  lemma {:induction false} ExactThroughout(p: Program, inputs: seq<Input>)
    requires Exact(p.ui)
    ensures Exact(TakeAll(p, inputs).ui)
    decreases |inputs|
  {
    if inputs != [] {
      ExactStep(p, inputs[0]);
      ExactThroughout(Take(p, inputs[0]), inputs[1..]);
    }
  }

  /** In every run, while the operator has not left: a mutation counts as
      queued exactly if one waits or runs, and so does a refresh. */
  lemma FlagsAreExact(project: string, inputs: seq<Input>)
    ensures var u := TakeAll(Launch(project), inputs).ui;
            u.accepting ==>
              && (u.mutationQueued <==> exists i :: 0 <= i < |About(u)| && About(u)[i].Mutating?)
              && (u.refreshQueued <==> exists i :: 0 <= i < |About(u)| && About(u)[i].Refreshing?)
  {
    ExactThroughout(Launch(project), inputs);
    var u := TakeAll(Launch(project), inputs).ui;
    if u.accepting {
      assert forall i :: 0 <= i < |About(u)| ==> Flagged(About(u)[i], true) == About(u)[i].Mutating?;
      assert forall i :: 0 <= i < |About(u)| ==> Flagged(About(u)[i], false) == About(u)[i].Refreshing?;
    }
  }

  /******* What the exact flags give the operator *******/

  /** In every run: when no mutation waits or runs, Enter at the end of a dialog
      that has room confirms it and queues its mutation. */
  lemma NextMutationConfirms(project: string, inputs: seq<Input>, maximum: nat, capacity: nat)
    requires var u := TakeAll(Launch(project), inputs).ui;
             && u.accepting && u.modal.Some? && u.modal.value.offset >= maximum
             && forall i :: 0 <= i < |About(u)| ==> !About(u)[i].Mutating?
    ensures var p := TakeAll(Launch(project), inputs);
            var p' := Take(p, Enter(true, maximum, capacity));
            && p'.ui.modal.None? && p'.ui.queue == p.ui.queue + [Mutating(p.ui.modal.value.(offset := maximum))]
            && p'.confirmed == p.confirmed + {p.ui.modal.value.number}
  {
    FlagsAreExact(project, inputs);
  }

  /** In every run: a refresh that the operator asks for runs, waits, or follows the one that does. */
  lemma ManualRefreshIsServed(project: string, inputs: seq<Input>)
    requires TakeAll(Launch(project), inputs).ui.accepting
    ensures var p := TakeAll(Launch(project), inputs);
            var u, u' := p.ui, Take(p, AsksRefresh(true)).ui;
            && !u'.laterPage
            && if exists i :: 0 <= i < |About(u)| && About(u)[i].Refreshing? then u'.refreshDirty && About(u') == About(u)
               else u'.queue == u.queue + [Refreshing]
  {
    FlagsAreExact(project, inputs);
  }

  /** A page is asked for in its turn, behind everything that waits. */
  lemma ReadIsQueued(p: Program)
    requires p.ui.accepting
    ensures Take(p, AsksRead).ui.queue == p.ui.queue + [Reading] && About(Take(p, AsksRead).ui) == About(p.ui) + [Reading]
  {
  }

  /** The controller shows what it showed when the dialog opened: the same
      revision, and the same attempt of the work that the intent is bound to. */
  predicate SameView(before: State, s: State, intent: Intent) {
    && (before.model.Some? <==> s.model.Some?)
    && (s.model.Some? ==> s.model.value.revision == before.model.value.revision)
    && (BoundWork(intent).Some? ==> ShownAttempt(s, BoundWork(intent).value) == ShownAttempt(before, BoundWork(intent).value))
  }

  lemma StillAsShownIff(openings: seq<State>, d: Dialog, s: State)
    requires RecordsOpening(openings, d)
    ensures StillAsShown(s, d) <==> SameView(openings[d.number], s, d.intent)
  {
    if StillAsShown(s, d) && BoundWork(d.intent).Some? {
      SameAttempt(s, openings[d.number], BoundWork(d.intent).value);
    }
  }

  /** What starting a task does to the rest of the program. */
  ghost predicate Started(p: Program, p': Program, t: Task, ruleEnabled: bool) {
    var s := p.world.core.ctl;
    match t
    case Reading => p'.world == p.world && p'.log == p.log
    case Refreshing => p'.log == p.log && p'.world.core == p.world.core && p'.world.loop.co.inFlight.Some?
    case Mutating(d) =>
      && d.number < |p.openings|
      && if ruleEnabled && SameView(p.openings[d.number], s, d.intent) && DashboardAuthority.Permitted(s, d.intent) then
           && |p'.log| == |p.log| + 1 && p.log <= p'.log && p'.log[|p.log|].dialog == d
           && DashboardAuthority.Asks(s, d.intent, p'.log[|p.log|].request)
         else p'.world == p.world && p'.log == p.log
  }

  lemma MutationStarts(p: Program, d: Dialog, time: nat, drawn: nat, ruleEnabled: bool)
    requires RecordsOpening(p.openings, d)
    ensures Started(p, RunTask(p, Mutating(d), time, drawn, ruleEnabled), Mutating(d), ruleEnabled)
  {
    var s := p.world.core.ctl;
    var id, n := Dashboard.NextId(s, time, drawn), s.sequence + drawn + 1;
    StillAsShownIff(p.openings, d, s);
    DashboardAuthority.BeginIffPermitted(s, d.intent, id, n);
    if Begin(s, d.intent, id, n).Some? { DashboardAuthority.BeginAsks(s, d.intent, id, n); }
  }

  lemma RefreshStarts(p: Program)
    ensures Started(p, p.(world := Dashboard.Next(p.world, Dashboard.CallRefresh)), Refreshing, true)
  {
  }

  lemma HeadIsTaken(p: Program, time: nat, drawn: nat, ruleEnabled: bool)
    requires p.ui.accepting && !p.ui.shutdownTimedOut && p.ui.active.None? && p.ui.queue != []
    ensures Take(p, Starts(time, drawn, ruleEnabled))
            == RunTask(p.(ui := p.ui.(active := Some(p.ui.queue[0]), queue := p.ui.queue[1..])), p.ui.queue[0], time, drawn, ruleEnabled)
  {
  }

  lemma RunningKeepsUi(p: Program, t: Task, time: nat, drawn: nat, ruleEnabled: bool)
    ensures var p' := RunTask(p, t, time, drawn, ruleEnabled); p'.ui == p.ui && p'.confirmed == p.confirmed
  {
  }

  lemma StartedFrom(p: Program, u: Ui, t: Task, time: nat, drawn: nat, ruleEnabled: bool)
    requires t.Mutating? ==> RecordsOpening(p.openings, t.dialog)
    ensures Started(p, RunTask(p.(ui := u), t, time, drawn, ruleEnabled), t, ruleEnabled)
  {
    match t
    case Mutating(d) => MutationStarts(p.(ui := u), d, time, drawn, ruleEnabled);
    case Refreshing => RefreshStarts(p.(ui := u));
    case Reading =>
  }

  lemma HeadStarts(p: Program, time: nat, drawn: nat, ruleEnabled: bool)
    requires Queued(p) && p.ui.accepting && !p.ui.shutdownTimedOut && p.ui.active.None? && p.ui.queue != []
    ensures var p' := Take(p, Starts(time, drawn, ruleEnabled));
            && p'.ui.active == Some(p.ui.queue[0]) && p'.ui.queue == p.ui.queue[1..]
            && Started(p, p', p.ui.queue[0], ruleEnabled)
  {
    var t, u := p.ui.queue[0], p.ui.(active := Some(p.ui.queue[0]), queue := p.ui.queue[1..]);
    HeadIsTaken(p, time, drawn, ruleEnabled);
    RunningKeepsUi(p.(ui := u), t, time, drawn, ruleEnabled);
    StartedFrom(p, u, t, time, drawn, ruleEnabled);
  }

  /** In every run, while the operator has not left: when nothing runs, the
      head of the queue starts. A confirmed mutation is sent exactly if the view
      is the one its dialog showed, its rule is still enabled and the
      controller permits it. */
  lemma HeadOfQueueStarts(project: string, inputs: seq<Input>, time: nat, drawn: nat, ruleEnabled: bool)
    requires var u := TakeAll(Launch(project), inputs).ui; u.accepting && u.active.None? && u.queue != []
    ensures var p := TakeAll(Launch(project), inputs);
            var p' := Take(p, Starts(time, drawn, ruleEnabled));
            && p'.ui.active == Some(p.ui.queue[0]) && p'.ui.queue == p.ui.queue[1..]
            && Started(p, p', p.ui.queue[0], ruleEnabled)
  {
    var p := TakeAll(Launch(project), inputs);
    ExactThroughout(Launch(project), inputs);
    RunKeeps(Launch(project), inputs);
    HeadStarts(p, time, drawn, ruleEnabled);
  }

  /******* Reading a dialog, and leaving it *******/

  /** Enter pressed `n` times. */
  function Presses(u: Ui, maximum: nat, capacity: nat, n: nat): Ui
    decreases n
  {
    if n == 0 then u else Presses(PressEnter(u, true, maximum, capacity), maximum, capacity, n - 1)
  }

  /** A dialog is read page by page: each Enter moves it on by no more than what
      fits on the screen, and some number of them brings it to its end, still
      unconfirmed. */
  lemma {:induction false} EnterPages(u: Ui, maximum: nat, capacity: nat) returns (n: nat)
    requires u.modal.Some? && u.modal.value.offset <= maximum && capacity > 0
    ensures n <= maximum - u.modal.value.offset
    ensures Presses(u, maximum, capacity, n) == u.(modal := Some(u.modal.value.(offset := maximum)))
    ensures n > 0 ==> var next := PressEnter(u, true, maximum, capacity).modal;
                      next.Some? && u.modal.value.offset < next.value.offset <= u.modal.value.offset + capacity
                      && (next.value.offset < maximum ==> next.value.offset == u.modal.value.offset + capacity)
    decreases maximum - u.modal.value.offset
  {
    var offset := u.modal.value.offset;
    if offset == maximum {
      n := 0;
      assert u.modal.value.(offset := maximum) == u.modal.value;
    } else {
      var u' := PressEnter(u, true, maximum, capacity);
      var k := EnterPages(u', maximum, capacity);
      n := k + 1;
    }
  }

  /** The dialog was neither confirmed nor is it open. */
  ghost predicate Discarded(p: Program, number: nat) {
    number < p.ui.dialogs && number !in p.confirmed && (p.ui.modal.Some? ==> p.ui.modal.value.number != number)
  }

  lemma DiscardedStep(p: Program, i: Input, number: nat)
    requires Queued(p) && Discarded(p, number)
    ensures Discarded(Take(p, i), number)
  {
    match i
    case Enter(roomy, maximum, capacity) => if p.ui.modal.Some? { PressMeans(p.ui, roomy, maximum, capacity); }
    case Starts(time, drawn, ruleEnabled) => StartsKeepsDialogs(p, time, drawn, ruleEnabled);
    case Opens(_) =>
    case Background(_) =>
    case _ => InterfaceIsQuiet(p.ui, i);
  }

  lemma StartsKeepsDialogs(p: Program, time: nat, drawn: nat, ruleEnabled: bool)
    ensures var p' := Take(p, Starts(time, drawn, ruleEnabled));
            p'.ui.dialogs == p.ui.dialogs && p'.ui.modal == p.ui.modal && p'.confirmed == p.confirmed
  {
    var u := TakeTask(p.ui);
    TakeMeans(p.ui);
    TakenStarts(p, time, drawn, ruleEnabled);
    if u.active.Some? { RunningKeepsUi(p.(ui := u), u.active.value, time, drawn, ruleEnabled); }
  }

  lemma {:induction false} DiscardedStays(p: Program, inputs: seq<Input>, number: nat)
    requires Queued(p) && OneMutation(p.ui) && Logged(p) && Discarded(p, number)
    ensures var p' := TakeAll(p, inputs);
            forall x :: 0 <= x < |p'.log| ==> p'.log[x].dialog.number != number
    decreases |inputs|
  {
    if inputs == [] {
      forall x | 0 <= x < |p.log| ensures p.log[x].dialog.number != number { assert Confirmed(p, x); }
    } else {
      StepKeeps(p, inputs[0]);
      DiscardedStep(p, inputs[0], number);
      DiscardedStays(Take(p, inputs[0]), inputs[1..], number);
      assert TakeAll(p, inputs) == TakeAll(Take(p, inputs[0]), inputs[1..]);
    }
  }

  /** In every run: a dialog that is dismissed, or that another one replaces, is
      never sent, whatever is pressed later. */
  lemma DismissedIsNeverSent(project: string, before: seq<Input>, i: Input, later: seq<Input>)
    requires TakeAll(Launch(project), before).ui.modal.Some? && (i.Dismisses? || i.Opens?)
    ensures var p := TakeAll(Launch(project), before);
            var p' := TakeAll(Take(p, i), later);
            forall x :: 0 <= x < |p'.log| ==> p'.log[x].dialog.number != p.ui.modal.value.number
  {
    var p := TakeAll(Launch(project), before);
    RunKeeps(Launch(project), before);
    StepKeeps(p, i);
    DiscardedStays(Take(p, i), later, p.ui.modal.value.number);
  }

  /** Leaving closes the dialog, so that Enter has nothing left to confirm, and
      keeps what runs and waits. */
  lemma NothingToConfirmAfterStop(u: Ui, roomy: bool, maximum: nat, capacity: nat)
    requires u.accepting
    ensures PressEnter(Stop(u), roomy, maximum, capacity) == Stop(u) && About(Stop(u)) == About(u)
  {
  }

  /** A later page is not refreshed away: only a manual refresh is queued there. */
  lemma LaterPageIsKept(p: Program)
    ensures var p' := Take(p, TurnsPage); Take(p', AsksRefresh(false)) == p'
  {
    var p' := Take(p, TurnsPage);
    assert Interface(p'.ui, AsksRefresh(false)) == p'.ui;
    assert p'.(ui := p'.ui) == p';
  }
}

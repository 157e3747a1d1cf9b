/** When the dashboard may send a request: stated over the state alone, proved
    equivalent to what the action methods accept, and carried over every run. */
module DashboardAuthority {
  import opened Wrappers
  import opened Controller
  import opened Dashboard
  import opened DashboardSafety
  import opened DashboardFences

  /******* What a request needs *******/

  /** Mounted, with a snapshot whose permissions still stand. */
  predicate Current(s: State) {
    s.mounted && s.authorityFresh && s.model.Some?
  }

  /** The work is shown at this place of the snapshot, and at no place before it. */
  ghost predicate ShownAt(s: State, workId: string, i: nat) {
    && s.model.Some? && i < |s.model.value.items| && s.model.value.items[i].workId == workId
    && forall j :: 0 <= j < i ==> s.model.value.items[j].workId != workId
  }

  ghost predicate MayCreate(s: State, action: Action) {
    && Current(s) && action in {CreateProject, CreateWork} && action in s.model.value.creations && action !in s.busy
    && forall id :: id in s.pending ==> s.pending[id].mutation != Lifecycle(action)
  }

  /** The service allows the action on a readable item, neither the action nor
      the work has an operation outstanding or in doubt, and there is an
      attempt where the action needs one. */
  ghost predicate Unhindered(s: State, action: Action, item: WorkItem) {
    && Current(s) && action !in {CreateProject, CreateWork}
    && !item.corrupt && item.allowed.Some? && action in item.allowed.value
    && action !in s.busy
    && (forall id :: id in s.pending ==>
          && s.pending[id].workId != Some(item.workId)
          && (item.workId == "" ==> s.pending[id].mutation != Lifecycle(action)))
    && (action != Claim ==> item.attempt.Some?)
  }

  /** A finish also needs a receipt of the very attempt. */
  ghost predicate MayWork(s: State, action: Action, item: WorkItem) {
    && Unhindered(s, action, item)
    && (action == Finish ==> item.workId in s.receipts && item.attempt == Some(s.receipts[item.workId].attempt))
  }

  ghost predicate Permitted(s: State, intent: Intent) {
    match intent
    case Create(action, _) => MayCreate(s, action)
    case OnWork(action, workId, _, _) =>
      exists i: nat :: ShownAt(s, workId, i) && MayWork(s, action, s.model.value.items[i])
    case InWorkspace(name, workId, _) =>
      && Current(s) && s.pending == map[] && s.workspaceBusy == {}
      && (name == "bind_final_result" ==> exists i: nat :: ShownAt(s, workId, i) && s.model.value.items[i].attempt.Some?)
  }

  lemma {:induction false} FoundIsShown(items: seq<WorkItem>, workId: string, i: nat)
    requires i < |items| && items[i].workId == workId && forall j :: 0 <= j < i ==> items[j].workId != workId
    ensures FindItem(items, workId) == Some(items[i])
  {
    if i > 0 {
      FoundIsShown(items[1..], workId, i - 1);
    }
  }

  lemma {:induction false} FoundIsSomewhere(items: seq<WorkItem>, workId: string) returns (i: nat)
    requires FindItem(items, workId).Some?
    ensures i < |items| && items[i].workId == workId && forall j :: 0 <= j < i ==> items[j].workId != workId
  {
    if items[0].workId == workId {
      i := 0;
    } else {
      var k := FoundIsSomewhere(items[1..], workId);
      i := k + 1;
      forall j | 0 <= j < i ensures items[j].workId != workId {
        if j > 0 { assert items[j] == items[1..][j - 1]; }
      }
    }
  }

  /** The item a work id stands for is the first one shown under it. */
  lemma ItemIsShown(s: State, workId: string)
    ensures ItemOf(s, workId).Some? <==> exists i: nat :: ShownAt(s, workId, i)
    ensures forall i: nat :: ShownAt(s, workId, i) ==> ItemOf(s, workId) == Some(s.model.value.items[i])
  {
    forall i: nat | ShownAt(s, workId, i) ensures ItemOf(s, workId) == Some(s.model.value.items[i]) {
      FoundIsShown(s.model.value.items, workId, i);
    }
    if ItemOf(s, workId).Some? {
      var i := FoundIsSomewhere(s.model.value.items, workId);
      assert ShownAt(s, workId, i);
    }
  }

  /******* What is accepted *******/

  lemma WorkBegins(s: State, action: Action, workId: string, payload: Payload, input: string, id: string, sequence: nat)
    requires ItemOf(s, workId).Some?
    ensures Begin(s, OnWork(action, workId, payload, input), id, sequence).Some? <==> MayWork(s, action, ItemOf(s, workId).value)
  {
    FoundItemHasId(s.model.value.items, workId);
  }

  /** A request goes out exactly if it is permitted: nothing else is sent, and nothing else is refused. */
  lemma BeginIffPermitted(s: State, intent: Intent, id: string, sequence: nat)
    ensures Begin(s, intent, id, sequence).Some? <==> Permitted(s, intent)
  {
    match intent
    case Create(action, input) =>
    case OnWork(action, workId, payload, input) =>
      ItemIsShown(s, workId);
      if ItemOf(s, workId).Some? { WorkBegins(s, action, workId, payload, input, id, sequence); }
    case InWorkspace(name, workId, input) => ItemIsShown(s, workId);
  }

  /******* What is sent *******/

  /** The request is the one that was asked for, on the snapshot that is shown. */
  ghost predicate Asks(s: State, intent: Intent, r: Request) {
    && s.model.Some? && r.expectedRevision == s.model.value.revision && r.input == intent.input
    && match intent
       case Create(action, _) => r.mutation == Lifecycle(action) && r.workId.None? && r.attempt.None? && r.payload.None?
       case OnWork(action, workId, payload, _) =>
         && r.mutation == Lifecycle(action) && r.workId == Some(workId) && ItemOf(s, workId).Some?
         && r.attempt == (if action == Claim then None else ItemOf(s, workId).value.attempt)
         && (action == Evidence ==> r.payload == Some(payload))
         && (action == Finish ==> workId in s.receipts && r.payload == Some(s.receipts[workId].payload))
         && (action !in {Evidence, Finish} ==> r.payload.None?)
       case InWorkspace(name, workId, _) =>
         && r.mutation == Workspace(name) && r.payload.None?
         && (name == "bind_final_result" ==> r.workId == Some(workId) && r.attempt.Some? && ItemOf(s, workId).Some?
                                             && ItemOf(s, workId).value.attempt == r.attempt)
         && (name != "bind_final_result" ==> r.workId.None? && r.attempt.None?)
  }

  lemma BeginAsks(s: State, intent: Intent, id: string, sequence: nat)
    requires Begin(s, intent, id, sequence).Some?
    ensures var (s', r) := Begin(s, intent, id, sequence).value;
            && r.operationId == id && Asks(s, intent, r)
            && s' == s.(busy := s'.busy, workspaceBusy := s'.workspaceBusy, sequence := sequence)
  {
    match intent
    case Create(action, input) =>
    case OnWork(action, workId, payload, input) => FoundItemHasId(s.model.value.items, workId);
    case InWorkspace(name, workId, input) =>
  }

  /******* Every run *******/

  /** The past after a step: one more request, permitted and as it was asked
      for, if the operator asked for something that is permitted; none otherwise. */
  ghost predicate SendsWhatIsPermitted(w: World, e: Event, past': Past) {
    var s, past := w.core.ctl, w.core.past;
    if e.Start? && Permitted(s, e.intent) then
      && |past'.issued| == |past.issued| + 1 && past.issued <= past'.issued
      && past'.issued[|past.issued|].operationId == NextId(s, e.time, e.drawn)
      && Asks(s, e.intent, past'.issued[|past.issued|])
    else past'.issued == past.issued
  }

  lemma StepSends(w: World, e: Event)
    requires Ledger(w.core)
    ensures SendsWhatIsPermitted(w, e, Next(w, e).core.past)
  {
    var m := MoveOf(w, e);
    match m
    case Sends(intent, time, drawn) =>
      var id, n := NextId(w.core.ctl, time, drawn), w.core.ctl.sequence + drawn + 1;
      SendFrame(w.project, w.core, intent, time, drawn);
      BeginIffPermitted(w.core.ctl, intent, id, n);
      if Permitted(w.core.ctl, intent) { BeginAsks(w.core.ctl, intent, id, n); }
    case KeepsReceipt(request) => assert Make(w.project, w.core, m).past == w.core.past;
    case PicksReceipt(workId, receiptId) =>
    case _ => OtherMovesKeepReceipts(w.project, w.core, m);
  }

  /** Along every run, whatever the interleaving: a step sends a request exactly
      if what was asked for is permitted at that moment, and the snapshot it
      names is at least as new as every change acknowledged before. */
  lemma NothingSentOnOldAuthority(project: string, before: seq<Event>, e: Event)
    ensures var w := Run(Initial(project), before);
            && SendsWhatIsPermitted(w, e, Next(w, e).core.past)
            && (e.Start? && Permitted(w.core.ctl, e.intent) ==>
                  forall id, r: nat :: AckedAt(w.core.past, id, r) ==>
                    r <= Next(w, e).core.past.issued[|w.core.past.issued|].expectedRevision)
  {
    var w := Run(Initial(project), before);
    LedgerAlways(Initial(project), before);
    RevisionsAlways(Initial(project), before);
    StepSends(w, e);
  }

  /** What stood when the request was sent: the snapshot was current, and the
      service allowed the action on that very item, which was readable. */
  ghost predicate Authorized(s: State, r: Request) {
    && Current(s)
    && match r.mutation
       case Workspace(_) => s.pending == map[]
       case Lifecycle(action) =>
         if r.workId.None? then action in s.model.value.creations
         else exists i: nat :: ShownAt(s, r.workId.value, i)
                && !s.model.value.items[i].corrupt
                && s.model.value.items[i].allowed.Some? && action in s.model.value.items[i].allowed.value
  }

  ghost predicate AllAuthorized(past: Past) {
    && |past.basis| == |past.issued|
    && forall i :: 0 <= i < |past.issued| ==> Authorized(past.basis[i], past.issued[i])
  }

  lemma PermittedIsAuthorized(s: State, intent: Intent, r: Request)
    requires Permitted(s, intent) && Asks(s, intent, r)
    ensures Authorized(s, r)
  {
    if intent.OnWork? {
      var i: nat :| ShownAt(s, intent.workId, i) && MayWork(s, intent.action, s.model.value.items[i]);
    }
  }

  lemma AuthorizedMove(project: string, c: Core, m: Move)
    requires AllAuthorized(c.past)
    ensures AllAuthorized(Make(project, c, m).past)
  {
    var past' := Make(project, c, m).past;
    match m
    case Sends(intent, time, drawn) =>
      var id, n := NextId(c.ctl, time, drawn), c.ctl.sequence + drawn + 1;
      SendFrame(project, c, intent, time, drawn);
      if Begin(c.ctl, intent, id, n).Some? {
        BeginIffPermitted(c.ctl, intent, id, n);
        BeginAsks(c.ctl, intent, id, n);
        PermittedIsAuthorized(c.ctl, intent, Begin(c.ctl, intent, id, n).value.1);
      }
    case KeepsReceipt(request) => assert past' == c.past;
    case PicksReceipt(workId, receiptId) =>
    case _ => OtherMovesKeepReceipts(project, c, m);
  }

  lemma {:induction false} AuthorizedAlways(w: World, events: seq<Event>)
    requires AllAuthorized(w.core.past)
    ensures AllAuthorized(Run(w, events).core.past)
    decreases |events|
  {
    if events != [] {
      AuthorizedMove(w.project, w.core, MoveOf(w, events[0]));
      AuthorizedAlways(Next(w, events[0]), events[1..]);
    }
  }

  /** After any run every request ever sent was authorized when it was sent. */
  lemma EveryRequestWasAuthorized(project: string, events: seq<Event>)
    ensures AllAuthorized(Run(Initial(project), events).core.past)
  {
    AuthorizedAlways(Initial(project), events);
  }
}

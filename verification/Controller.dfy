/** TuiWorkflowController: the state the dashboard keeps, and one method for
    each stretch of code that runs between two awaits. The methods change the
    object's fields; every one of them is a function of the old fields, so
    that Dashboard.dfy can reason about all interleavings of those stretches. */
module Controller {
  import opened Wrappers
  import opened OperationIds
  import opened ServiceCall

  datatype Action = CreateProject | CreateWork | Claim | AcceptStart | Evidence | Finish | Release

  datatype Mutation = Lifecycle(action: Action) | Workspace(name: string)

  datatype Attempt = Attempt(id: string, fence: nat)

  /** `allowed` holds the actions the service allows; None when it sent no permissions. */
  datatype WorkItem = WorkItem(workId: string, attempt: Option<Attempt>, corrupt: bool, allowed: Option<set<Action>>)

  /** `creations` holds the project actions the service allows at this revision for this caller. */
  datatype Snapshot = Snapshot(
    revision: nat, projectId: Option<string>, items: seq<WorkItem>, creations: set<Action>, nextOffset: Option<nat>)

  /** A receipt payload; only a structured one names what it was issued for. */
  datatype Payload = Opaque(text: string) | Receipt(receiptId: string, workId: string, attempt: Attempt, text: string)

  datatype Record = Record(projectId: string, receiptId: string, workId: string, attempt: Attempt, payload: Option<Payload>)

  datatype Stored = Stored(attempt: Attempt, receiptId: Option<string>, payload: Payload)

  datatype Pending = Pending(operationId: string, mutation: Mutation, workId: Option<string>)

  datatype Request = Request(
    operationId: string, mutation: Mutation, workId: Option<string>,
    expectedRevision: nat, attempt: Option<Attempt>, payload: Option<Payload>, input: string)

  datatype State = State(
    model: Option<Snapshot>,
    mounted: bool,
    authorityFresh: bool,
    floor: nat,              // minimumObservedRevision
    busy: set<Action>,
    workspaceBusy: set<string>,
    pending: map<string, Pending>,
    receipts: map<string, Stored>,
    history: map<string, map<string, Record>>,
    sequence: nat)           // operationSequence

  const INITIAL := State(None, false, false, 0, {}, {}, map[], map[], map[], 0)

  /******* Reading the state *******/

  function Max(a: nat, b: nat): nat {
    if a < b then b else a
  }

  function ModelRevision(s: State): nat {
    if s.model.Some? then s.model.value.revision else 0
  }

  function FindItem(items: seq<WorkItem>, workId: string): Option<WorkItem> {
    if items == [] then None
    else if items[0].workId == workId then Some(items[0])
    else FindItem(items[1..], workId)
  }

  function ItemOf(s: State, workId: string): Option<WorkItem> {
    if s.model.Some? then FindItem(s.model.value.items, workId) else None
  }

  predicate HasPending(s: State, workId: string) {
    exists id :: id in s.pending && s.pending[id].workId == Some(workId)
  }

  predicate HasPendingMutation(s: State, mutation: Mutation) {
    exists id :: id in s.pending && s.pending[id].mutation == mutation
  }

  function CurrentReceipt(s: State, item: WorkItem): Option<Payload> {
    if item.workId in s.receipts && item.attempt == Some(s.receipts[item.workId].attempt)
    then Some(s.receipts[item.workId].payload) else None
  }

  /** actionAvailability: the service's permission, and nothing local standing against it. */
  predicate Enabled(s: State, item: WorkItem, action: Action) {
    && s.authorityFresh
    && !item.corrupt
    && item.allowed.Some? && action in item.allowed.value
    && action !in s.busy
    && !HasPending(s, item.workId)
    && (action.Finish? ==> CurrentReceipt(s, item).Some?)
  }

  predicate CreationEnabled(s: State, action: Action) {
    s.mounted && s.authorityFresh && !HasPendingMutation(s, Lifecycle(action))
    && s.model.Some? && action in s.model.value.creations
  }

  /** Key of a receipt history; different attempts may share one. */
  function HistoryKey(workId: string, attempt: Attempt): string {
    workId + ":" + attempt.id + ":" + Numeral(attempt.fence, 10)
  }

  /** An empty work id is recorded as no work id at all. */
  function WorkRef(workId: string): Option<string> {
    if workId == "" then None else Some(workId)
  }

  /******* Stretches between awaits, as functions *******/

  datatype Installed = Installed | Discarded | WrongProject

  function Install(s: State, project: string, m: Snapshot): (State, Installed) {
    if m.projectId.Some? && m.projectId.value != "" && m.projectId.value != project then (s, WrongProject)
    else if !s.mounted then (s, Discarded)
    else if m.revision < Max(s.floor, ModelRevision(s)) then (s.(authorityFresh := false), Discarded)
    else (s.(floor := Max(s.floor, m.revision), model := Some(m), authorityFresh := true), Installed.Installed)
  }

  /** What an operator asks for. `payload` is the evidence to attach, `input`
      everything else that was typed: a draft, a claim's configuration, a
      summary, a reason, a command's fields. */
  datatype Intent =
    | Create(action: Action, input: string)
    | OnWork(action: Action, workId: string, payload: Payload, input: string)
    | InWorkspace(name: string, workId: string, input: string)

  function WorkRequest(s: State, id: string, action: Action, item: WorkItem, payload: Payload, input: string): Option<Request>
    requires s.model.Some?
  {
    var revision := s.model.value.revision;
    if action.Claim? then Some(Request(id, Lifecycle(action), Some(item.workId), revision, None, None, input))
    else if item.attempt.None? then None
    else if action.Evidence? then
      Some(Request(id, Lifecycle(action), Some(item.workId), revision, item.attempt, Some(payload), input))
    else if action.Finish? then
      (match CurrentReceipt(s, item)
       case None => None
       case Some(receipt) => Some(Request(id, Lifecycle(action), Some(item.workId), revision, item.attempt, Some(receipt), input)))
    else Some(Request(id, Lifecycle(action), Some(item.workId), revision, item.attempt, None, input))
  }

  /** The guards of the action methods and of `mutate` and `mutateWorkspace`;
      None where the code throws before anything is sent. */
  function Begin(s: State, intent: Intent, id: string, sequence: nat): Option<(State, Request)> {
    match intent
    case Create(action, input) =>
      if !(action.CreateProject? || action.CreateWork?) || !CreationEnabled(s, action) || action in s.busy then None
      else Some((s.(busy := s.busy + {action}, sequence := sequence),
                 Request(id, Lifecycle(action), None, s.model.value.revision, None, None, input)))
    case OnWork(action, workId, payload, input) =>
      if action.CreateProject? || action.CreateWork? || ItemOf(s, workId).None? || !Enabled(s, ItemOf(s, workId).value, action)
         || WorkRequest(s, id, action, ItemOf(s, workId).value, payload, input).None? || !s.mounted
         || (workId == "" && HasPendingMutation(s, Lifecycle(action))) then None
      else Some((s.(busy := s.busy + {action}, sequence := sequence),
                 WorkRequest(s, id, action, ItemOf(s, workId).value, payload, input).value))
    case InWorkspace(name, workId, input) =>
      if !s.mounted || !s.authorityFresh || s.model.None? || s.pending != map[] || s.workspaceBusy != {} then None
      else if name == "bind_final_result" then
        (if ItemOf(s, workId).None? || ItemOf(s, workId).value.attempt.None? then None
         else Some((s.(workspaceBusy := {name}, sequence := sequence),
                    Request(id, Workspace(name), Some(workId), s.model.value.revision, ItemOf(s, workId).value.attempt, None, input))))
      else Some((s.(workspaceBusy := {name}, sequence := sequence),
                 Request(id, Workspace(name), None, s.model.value.revision, None, None, input)))
  }

  function PendingOf(r: Request): Pending {
    Pending(r.operationId, r.mutation, if r.mutation.Workspace? || r.workId.None? then None else WorkRef(r.workId.value))
  }

  function RaiseFloor(s: State, e: Envelope): State {
    if e.revision.Some? then s.(floor := Max(s.floor, e.revision.value)) else s
  }

  /** After the answer: acknowledged and stale answers go on to a refresh. */
  function Answered(s: State, r: Request, e: Envelope): (State, bool) {
    var s1 := RaiseFloor(s, e);
    if Success(e.outcome) then (s1.(authorityFresh := false), s1.mounted)
    else if Doubtful(e) then
      (s1.(authorityFresh := false, pending := s1.pending[e.operationId := PendingOf(r).(operationId := e.operationId)]), false)
    else (s1, Stale(e) && s1.mounted)
  }

  /** The service method itself threw. */
  function Threw(s: State, r: Request): State {
    s.(authorityFresh := false, pending := s.pending[r.operationId := PendingOf(r)])
  }

  /** The `finally` of the mutation. */
  function Released(s: State, r: Request): State {
    match r.mutation
    case Lifecycle(action) => s.(busy := s.busy - {action})
    case Workspace(name) => s.(workspaceBusy := s.workspaceBusy - {name})
  }

  function ReadBack(s: State, id: string, e: Envelope): (State, bool) {
    var s1 := RaiseFloor(s, e);
    if Terminal(e) then (s1.(pending := s1.pending - {id}), s1.mounted) else (s1, false)
  }

  /** addEvidence after an acknowledged mutation. */
  function StoreEvidence(s: State, workId: string, attempt: Attempt, payload: Payload): State {
    s.(history := s.history - {HistoryKey(workId, attempt)},
       receipts := s.receipts[workId := Stored(attempt, if payload.Receipt? then Some(payload.receiptId) else None, payload)])
  }

  function DropReceipt(s: State, workId: string): State {
    s.(receipts := s.receipts - {workId})
  }

  datatype ReceiptPage = ReceiptPage(projectId: string, workId: string, attempt: Attempt, rows: seq<Record>)

  predicate RowsMatch(rows: seq<Record>, project: string, workId: string, attempt: Attempt) {
    forall i :: 0 <= i < |rows| ==>
      rows[i].projectId == project && rows[i].workId == workId && rows[i].attempt == attempt
  }

  /** Rows merged into a history; None where a known receipt changed. */
  function MergeRows(history: map<string, Record>, rows: seq<Record>): Option<map<string, Record>>
    decreases |rows|
  {
    if rows == [] then Some(history)
    else if rows[0].receiptId in history && history[rows[0].receiptId] != rows[0] then None
    else MergeRows(history[rows[0].receiptId := rows[0]], rows[1..])
  }

  function HistoryAt(s: State, key: string): map<string, Record> {
    if key in s.history then s.history[key] else map[]
  }

  /** A late page, a foreign page and a changed row are all refused; what a
      refused page had merged before its changed row stays only when that
      history was already installed. */
  function ReceiptsRead(s: State, project: string, workId: string, attempt: Attempt, page: ReceiptPage): State {
    var key := HistoryKey(workId, attempt);
    if page.projectId != project || page.workId != workId || page.attempt != attempt then s
    else if !RowsMatch(page.rows, project, workId, attempt) then s
    else if ItemOf(s, workId).None? || ItemOf(s, workId).value.attempt != Some(attempt) then s
    else match MergeRows(HistoryAt(s, key), page.rows)
      case Some(merged) => s.(history := s.history[key := merged])
      case None => if key in s.history then s.(history := s.history[key := MergedPrefix(s.history[key], page.rows)]) else s
  }

  function MergedPrefix(history: map<string, Record>, rows: seq<Record>): map<string, Record>
    decreases |rows|
  {
    if rows == [] || (rows[0].receiptId in history && history[rows[0].receiptId] != rows[0]) then history
    else MergedPrefix(history[rows[0].receiptId := rows[0]], rows[1..])
  }

  /** selectReceiptForAttempt: the record selected, or None where it throws. */
  function Selected(s: State, project: string, workId: string, receiptId: string): Option<Record> {
    if ItemOf(s, workId).None? || ItemOf(s, workId).value.attempt.None? then None
    else
      var attempt := ItemOf(s, workId).value.attempt.value;
      var history := HistoryAt(s, HistoryKey(workId, attempt));
      if receiptId !in history then None
      else
        var record := history[receiptId];
        if record.projectId != project || record.workId != workId || record.attempt != attempt then None
        else if record.payload.None? || record.payload.value.Opaque? then None
        else if record.payload.value.receiptId != record.receiptId || record.payload.value.workId != workId
                || record.payload.value.attempt != attempt then None
        else Some(record)
  }

  function Select(s: State, project: string, workId: string, receiptId: string): State {
    match Selected(s, project, workId, receiptId)
    case None => s
    case Some(record) =>
      s.(receipts := s.receipts[workId := Stored(record.attempt, Some(receiptId), record.payload.value)])
  }

  /******* The controller object *******/

  class TuiWorkflowController {
    const project: string
    var model: Option<Snapshot>
    var mounted: bool
    var authorityFresh: bool
    var minimumObservedRevision: nat
    var busy: set<Action>
    var workspaceBusy: set<string>
    var pending: map<string, Pending>
    var receipts: map<string, Stored>
    var receiptHistory: map<string, map<string, Record>>
    var operationSequence: nat

    ghost function Fields(): State
      reads this
    {
      State(model, mounted, authorityFresh, minimumObservedRevision, busy, workspaceBusy,
            pending, receipts, receiptHistory, operationSequence)
    }

    constructor (project: string)
      ensures Fields() == INITIAL && this.project == project
    {
      this.project := project;
      model, mounted, authorityFresh, minimumObservedRevision := None, false, false, 0;
      busy, workspaceBusy, pending, receipts, receiptHistory, operationSequence := {}, {}, map[], map[], map[], 0;
    }

    method Mount()
      modifies this
      ensures Fields() == old(Fields()).(mounted := true)
    {
      mounted := true;
    }

    method Unmount()
      modifies this
      ensures Fields() == old(Fields()).(mounted := false, authorityFresh := false)
    {
      mounted := false;
      authorityFresh := false;
    }

    method ConnectionFailed()
      modifies this
      ensures Fields() == old(Fields()).(authorityFresh := false)
    {
      authorityFresh := false;
    }

    method InstallSnapshot(m: Snapshot) returns (outcome: Installed)
      modifies this
      ensures (Fields(), outcome) == Install(old(Fields()), project, m)
    {
      if m.projectId.Some? && m.projectId.value != "" && m.projectId.value != project {
        return WrongProject;
      }
      if !mounted {
        return Discarded;
      }
      var installed := if model.Some? then model.value.revision else 0;
      if m.revision < Max(minimumObservedRevision, installed) {
        authorityFresh := false;
        return Discarded;
      }
      minimumObservedRevision := Max(minimumObservedRevision, m.revision);
      model := Some(m);
      authorityFresh := true;
      outcome := Installed.Installed;
    }

    /** From the action method through `mutate` to the call of the service.
        `admitted` holds the checks made before, which only refuse: on what was
        typed, on what the service offers, and on the item's own project. */
    method StartMutation(intent: Intent, admitted: bool, id: string, sequence: nat) returns (sent: Option<Request>)
      modifies this
      ensures var begun := Begin(old(Fields()), intent, id, sequence);
              if !admitted || begun.None? then sent.None? && Fields() == old(Fields())
              else sent == Some(begun.value.1) && Fields() == begun.value.0
    {
      ghost var before := Fields();
      if !admitted {
        return None;
      }
      match intent
      case Create(action, input) =>
        var refused := exists p | p in pending :: pending[p].mutation == Lifecycle(action);
        if !(action.CreateProject? || action.CreateWork?) || !mounted || !authorityFresh || refused
           || model.None? || action !in model.value.creations || action in busy {
          return None;
        }
        busy := busy + {action};
        operationSequence := sequence;
        sent := Some(Request(id, Lifecycle(action), None, model.value.revision, None, None, input));
      case OnWork(action, workId, payload, input) =>
        if action.CreateProject? || action.CreateWork? || model.None? {
          return None;
        }
        var found := FindItem(model.value.items, workId);
        if found.None? {
          return None;
        }
        var item := found.value;
        var unresolved := exists p | p in pending :: pending[p].workId == Some(item.workId);
        var hasReceipt := item.workId in receipts && item.attempt == Some(receipts[item.workId].attempt);
        if !authorityFresh || item.corrupt || item.allowed.None? || action !in item.allowed.value || action in busy
           || unresolved || (action.Finish? && !hasReceipt) {
          return None;
        }
        if !action.Claim? && item.attempt.None? {
          return None;
        }
        var sameAction := exists p | p in pending :: pending[p].mutation == Lifecycle(action);
        if !mounted || (workId == "" && sameAction) {
          return None;
        }
        var body := if action.Evidence? then Some(payload)
                    else if action.Finish? then Some(receipts[item.workId].payload) else None;
        sent := Some(Request(id, Lifecycle(action), Some(item.workId), model.value.revision,
                             if action.Claim? then None else item.attempt, body, input));
        busy := busy + {action};
        operationSequence := sequence;
      case InWorkspace(name, workId, input) =>
        if !mounted || !authorityFresh || model.None? || pending != map[] || workspaceBusy != {} {
          return None;
        }
        var attempt: Option<Attempt> := None;
        if name == "bind_final_result" {
          var found := FindItem(model.value.items, workId);
          if found.None? || found.value.attempt.None? {
            return None;
          }
          attempt := found.value.attempt;
        }
        workspaceBusy := {name};
        operationSequence := sequence;
        sent := Some(Request(id, Workspace(name), if name == "bind_final_result" then Some(workId) else None,
                             model.value.revision, attempt, None, input));
    }

    /** The service's envelope for a mutation; true when a refresh follows. */
    method MutationAnswered(r: Request, e: Envelope) returns (refreshes: bool)
      modifies this
      ensures (Fields(), refreshes) == Answered(old(Fields()), r, e)
    {
      if e.revision.Some? {
        minimumObservedRevision := Max(minimumObservedRevision, e.revision.value);
      }
      if Success(e.outcome) {
        authorityFresh := false;
        return mounted;
      }
      if Doubtful(e) {
        authorityFresh := false;
        pending := pending[e.operationId := PendingOf(r).(operationId := e.operationId)];
        return false;
      }
      refreshes := Stale(e) && mounted;
    }

    method MutationThrew(r: Request)
      modifies this
      ensures Fields() == Threw(old(Fields()), r)
    {
      authorityFresh := false;
      pending := pending[r.operationId := PendingOf(r)];
    }

    method ReleaseMutation(r: Request)
      modifies this
      ensures Fields() == Released(old(Fields()), r)
    {
      match r.mutation
      case Lifecycle(action) => busy := busy - {action};
      case Workspace(name) => workspaceBusy := workspaceBusy - {name};
    }

    method ReadbackAnswered(id: string, e: Envelope) returns (refreshes: bool)
      modifies this
      ensures (Fields(), refreshes) == ReadBack(old(Fields()), id, e)
    {
      if e.revision.Some? {
        minimumObservedRevision := Max(minimumObservedRevision, e.revision.value);
      }
      if Terminal(e) {
        pending := pending - {id};
        return mounted;
      }
      refreshes := false;
    }

    method KeepEvidence(workId: string, attempt: Attempt, payload: Payload)
      modifies this
      ensures Fields() == StoreEvidence(old(Fields()), workId, attempt, payload)
    {
      receiptHistory := receiptHistory - {HistoryKey(workId, attempt)};
      receipts := receipts[workId := Stored(attempt, if payload.Receipt? then Some(payload.receiptId) else None, payload)];
    }

    method ForgetReceipt(workId: string)
      modifies this
      ensures Fields() == DropReceipt(old(Fields()), workId)
    {
      receipts := receipts - {workId};
    }

    /** The continuation of readReceiptsForAttempt, merging rows one by one. */
    method ReceiptsAnswered(workId: string, attempt: Attempt, page: ReceiptPage)
      modifies this
      ensures Fields() == ReceiptsRead(old(Fields()), project, workId, attempt, page)
    {
      var key := HistoryKey(workId, attempt);
      if page.projectId != project || page.workId != workId || page.attempt != attempt {
        return;
      }
      if !RowsMatch(page.rows, project, workId, attempt) || model.None? {
        return;
      }
      var current := FindItem(model.value.items, workId);
      if current.None? || current.value.attempt != Some(attempt) {
        return;
      }
      var known := key in receiptHistory;
      var start := if known then receiptHistory[key] else map[];
      var history := start;
      ghost var before := Fields();
      for i := 0 to |page.rows|
        invariant Fields() == before.(history := receiptHistory)
        invariant receiptHistory == if known then before.history[key := history] else before.history
        invariant MergeRows(start, page.rows) == MergeRows(history, page.rows[i..])
        invariant MergedPrefix(start, page.rows) == MergedPrefix(history, page.rows[i..])
      {
        assert page.rows[i..][1..] == page.rows[i + 1..];
        var row := page.rows[i];
        if row.receiptId in history && history[row.receiptId] != row {
          return;
        }
        history := history[row.receiptId := row];
        if known {  // the stored map is the one being filled
          receiptHistory := receiptHistory[key := history];
        }
      }
      receiptHistory := receiptHistory[key := history];
    }

    method SelectReceiptForAttempt(workId: string, receiptId: string) returns (ok: bool)
      modifies this
      ensures Fields() == Select(old(Fields()), project, workId, receiptId)
      ensures ok <==> Selected(old(Fields()), project, workId, receiptId).Some?
    {
      if model.None? {
        return false;
      }
      var found := FindItem(model.value.items, workId);
      if found.None? || found.value.attempt.None? {
        return false;
      }
      var attempt := found.value.attempt.value;
      var key := HistoryKey(workId, attempt);
      if key !in receiptHistory || receiptId !in receiptHistory[key] {
        return false;
      }
      var record := receiptHistory[key][receiptId];
      if record.projectId != project || record.workId != workId || record.attempt != attempt
         || record.payload.None? || record.payload.value.Opaque? {
        return false;
      }
      var payload := record.payload.value;
      if payload.receiptId != record.receiptId || payload.workId != workId || payload.attempt != attempt {
        return false;
      }
      receipts := receipts[workId := Stored(attempt, Some(receiptId), payload)];
      ok := true;
    }
  }
}

/** From a page of receipts to the receipt that a finish sends: what merging,
    selecting and acknowledging evidence achieve together. */
module DashboardReceipts {
  import opened Wrappers
  import opened OperationIds
  import opened Controller
  import opened Dashboard
  import opened DashboardFences
  import opened DashboardAuthority

  /******* Keys *******/

  /** The history of one work is kept apart by attempt and fence. */
  lemma HistoryKeyIff(workId: string, a: Attempt, b: Attempt)
    ensures HistoryKey(workId, a) == HistoryKey(workId, b) <==> a == b
  {
    if HistoryKey(workId, a) == HistoryKey(workId, b) {
      assert !IsDigit(':');
      assert HistoryKey(workId, a) == (workId + ":" + a.id) + [':'] + Numeral(a.fence, 10);
      assert HistoryKey(workId, b) == (workId + ":" + b.id) + [':'] + Numeral(b.fence, 10);
      LastSeparator(workId + ":" + a.id, Numeral(a.fence, 10), workId + ":" + b.id, Numeral(b.fence, 10), ':');
      NumeralInjective(a.fence, b.fence);
      assert a.id == (workId + ":" + a.id)[|workId| + 1..] && b.id == (workId + ":" + b.id)[|workId| + 1..];
    }
  }

  /** Two works may share a history; only the rows' own identities keep them apart. */
  lemma HistoriesCollide(fence: nat)
    ensures HistoryKey("a:b", Attempt("c", fence)) == HistoryKey("a", Attempt("b:c", fence))
  {
    assert "a:b" + ":" + "c" == "a" + ":" + "b:c";
  }

  /******* Merging rows *******/

  /** No receipt appears in two forms, neither among the rows nor between them and the history. */
  ghost predicate Consistent(history: map<string, Record>, rows: seq<Record>) {
    && (forall i :: 0 <= i < |rows| && rows[i].receiptId in history ==> history[rows[i].receiptId] == rows[i])
    && forall i, j :: 0 <= i < j < |rows| && rows[i].receiptId == rows[j].receiptId ==> rows[i] == rows[j]
  }

  /** The old rows and the new ones, and nothing else. */
  ghost predicate Union(history: map<string, Record>, rows: seq<Record>, merged: map<string, Record>) {
    && (forall id :: id in history ==> id in merged && merged[id] == history[id])
    && (forall i :: 0 <= i < |rows| ==> rows[i].receiptId in merged && merged[rows[i].receiptId] == rows[i])
    && forall id :: id in merged ==> id in history || exists i :: 0 <= i < |rows| && rows[i].receiptId == id
  }

  lemma ConsistentStep(history: map<string, Record>, rows: seq<Record>)
    requires rows != []
    ensures Consistent(history, rows) <==>
            && (rows[0].receiptId in history ==> history[rows[0].receiptId] == rows[0])
            && Consistent(history[rows[0].receiptId := rows[0]], rows[1..])
  {
    var rest, history' := rows[1..], history[rows[0].receiptId := rows[0]];
    assert forall i :: 0 < i < |rows| ==> rows[i] == rest[i - 1];
    if Consistent(history, rows) {
      forall i | 0 <= i < |rest| && rest[i].receiptId in history' ensures history'[rest[i].receiptId] == rest[i] {
        assert rest[i] == rows[i + 1];
      }
      forall i, j | 0 <= i < j < |rest| && rest[i].receiptId == rest[j].receiptId ensures rest[i] == rest[j] {
        assert rest[i] == rows[i + 1] && rest[j] == rows[j + 1];
      }
    }
    if (rows[0].receiptId in history ==> history[rows[0].receiptId] == rows[0]) && Consistent(history', rest) {
      forall i | 0 <= i < |rows| && rows[i].receiptId in history ensures history[rows[i].receiptId] == rows[i] {
        if i > 0 { assert rest[i - 1].receiptId in history'; }
      }
      forall i, j | 0 <= i < j < |rows| && rows[i].receiptId == rows[j].receiptId ensures rows[i] == rows[j] {
        if i == 0 { assert rest[j - 1].receiptId in history'; } else { assert rest[i - 1].receiptId == rest[j - 1].receiptId; }
      }
    }
  }

  lemma UnionStep(history: map<string, Record>, rows: seq<Record>, merged: map<string, Record>)
    requires rows != [] && Consistent(history, rows) && Union(history[rows[0].receiptId := rows[0]], rows[1..], merged)
    ensures Union(history, rows, merged)
  {
    var rest, history' := rows[1..], history[rows[0].receiptId := rows[0]];
    forall id | id in history ensures id in merged && merged[id] == history[id] { assert id in history'; }
    forall i | 0 <= i < |rows| ensures rows[i].receiptId in merged && merged[rows[i].receiptId] == rows[i] {
      if i == 0 { assert rows[0].receiptId in history'; } else { assert rows[i] == rest[i - 1]; }
    }
    forall id | id in merged ensures id in history || exists i :: 0 <= i < |rows| && rows[i].receiptId == id {
      if id !in history && id != rows[0].receiptId {
        assert id !in history';
        var i :| 0 <= i < |rest| && rest[i].receiptId == id;
        assert rows[i + 1].receiptId == id;
      }
    }
  }

  lemma {:induction false} MergeIff(history: map<string, Record>, rows: seq<Record>)
    ensures MergeRows(history, rows).Some? <==> Consistent(history, rows)
    ensures MergeRows(history, rows).Some? ==> Union(history, rows, MergeRows(history, rows).value)
    decreases |rows|
  {
    if rows != [] {
      ConsistentStep(history, rows);
      MergeIff(history[rows[0].receiptId := rows[0]], rows[1..]);
      if Consistent(history, rows) { UnionStep(history, rows, MergeRows(history, rows).value); }
    }
  }

  /** The rows contradict what came before for the first time at place `n`, and
      what is kept is the union with those before it. */
  ghost predicate StopsAt(history: map<string, Record>, rows: seq<Record>, kept: map<string, Record>, n: nat) {
    n < |rows| && Consistent(history, rows[..n]) && !Consistent(history, rows[..n + 1]) && Union(history, rows[..n], kept)
  }

  lemma StopsLater(history: map<string, Record>, rows: seq<Record>, kept: map<string, Record>, k: nat)
    requires rows != [] && (rows[0].receiptId in history ==> history[rows[0].receiptId] == rows[0])
    requires StopsAt(history[rows[0].receiptId := rows[0]], rows[1..], kept, k)
    ensures StopsAt(history, rows, kept, k + 1)
  {
    assert rows[..k + 1][1..] == rows[1..][..k] && rows[..k + 2][1..] == rows[1..][..k + 1];
    ConsistentStep(history, rows[..k + 1]);
    ConsistentStep(history, rows[..k + 2]);
    UnionStep(history, rows[..k + 1], kept);
  }

  lemma StopsAtOnce(history: map<string, Record>, rows: seq<Record>)
    requires FirstClashes(history, rows)
    ensures StopsAt(history, rows, history, 0)
  {
    assert rows[..1][0] == rows[0];
  }

  predicate FirstClashes(history: map<string, Record>, rows: seq<Record>) {
    rows != [] && rows[0].receiptId in history && history[rows[0].receiptId] != rows[0]
  }

  lemma ClashesLater(history: map<string, Record>, rows: seq<Record>)
    requires !Consistent(history, rows) && !FirstClashes(history, rows)
    ensures rows != []
    ensures var history' := history[rows[0].receiptId := rows[0]];
            !Consistent(history', rows[1..]) && MergedPrefix(history, rows) == MergedPrefix(history', rows[1..])
  {
    ConsistentStep(history, rows);
  }

  /** What stays of a refused page: its rows before the first that clashes. */
  lemma {:induction false} PrefixMerged(history: map<string, Record>, rows: seq<Record>) returns (n: nat)
    requires !Consistent(history, rows)
    ensures StopsAt(history, rows, MergedPrefix(history, rows), n)
    decreases |rows|
  {
    if FirstClashes(history, rows) {
      n := 0;
      StopsAtOnce(history, rows);
    } else {
      ClashesLater(history, rows);
      var k := PrefixMerged(history[rows[0].receiptId := rows[0]], rows[1..]);
      n := k + 1;
      StopsLater(history, rows, MergedPrefix(history, rows), k);
    }
  }

  /******* One page *******/

  /** The page and all its rows are of this attempt, which is still the one that is shown. */
  ghost predicate Fitting(s: State, project: string, workId: string, attempt: Attempt, page: ReceiptPage) {
    && page.projectId == project && page.workId == workId && page.attempt == attempt
    && (forall i :: 0 <= i < |page.rows| ==>
          page.rows[i].projectId == project && page.rows[i].workId == workId && page.rows[i].attempt == attempt)
    && exists i: nat :: ShownAt(s, workId, i) && s.model.value.items[i].attempt == Some(attempt)
  }

  lemma UnfitPage(s: State, project: string, workId: string, attempt: Attempt, page: ReceiptPage)
    requires !Fitting(s, project, workId, attempt, page)
    ensures ReceiptsRead(s, project, workId, attempt, page) == s
  {
    ItemIsShown(s, workId);
  }

  lemma FittingPage(s: State, project: string, workId: string, attempt: Attempt, page: ReceiptPage)
    requires Fitting(s, project, workId, attempt, page)
    ensures var key := HistoryKey(workId, attempt);
            var merged := MergeRows(HistoryAt(s, key), page.rows);
            ReceiptsRead(s, project, workId, attempt, page)
            == if merged.Some? then s.(history := s.history[key := merged.value])
               else if key in s.history then s.(history := s.history[key := MergedPrefix(s.history[key], page.rows)]) else s
  {
    ItemIsShown(s, workId);
  }

  /** What a fitting page makes of the history of its attempt: all of it where
      nothing contradicts, otherwise the rows before the first contradiction,
      and those only where there was a history already. */
  ghost predicate Merged(before: map<string, map<string, Record>>, after: map<string, map<string, Record>>, key: string, rows: seq<Record>) {
    var known := if key in before then before[key] else map[];
    if Consistent(known, rows) then key in after && Union(known, rows, after[key])
    else
      && (key in after <==> key in before)
      && (key in before ==> exists n: nat :: StopsAt(known, rows, after[key], n))
  }

  lemma FittingIsMerged(s: State, project: string, workId: string, attempt: Attempt, page: ReceiptPage)
    requires Fitting(s, project, workId, attempt, page)
    ensures Merged(s.history, ReceiptsRead(s, project, workId, attempt, page).history, HistoryKey(workId, attempt), page.rows)
  {
    var key := HistoryKey(workId, attempt);
    FittingPage(s, project, workId, attempt, page);
    MergeIff(HistoryAt(s, key), page.rows);
    if !Consistent(HistoryAt(s, key), page.rows) {
      var n := PrefixMerged(HistoryAt(s, key), page.rows);
    }
  }

  /** A page changes no history but that of its attempt, and an unfit page not even that. */
  lemma PageIsMerged(s: State, project: string, workId: string, attempt: Attempt, page: ReceiptPage)
    ensures var key := HistoryKey(workId, attempt);
            var s' := ReceiptsRead(s, project, workId, attempt, page);
            && s' == s.(history := s'.history)
            && (forall other :: other != key ==> (other in s'.history <==> other in s.history))
            && (forall other :: other != key && other in s.history ==> s'.history[other] == s.history[other])
            && if Fitting(s, project, workId, attempt, page) then Merged(s.history, s'.history, key, page.rows) else s' == s
  {
    if Fitting(s, project, workId, attempt, page) {
      FittingIsMerged(s, project, workId, attempt, page);
      FittingPage(s, project, workId, attempt, page);
    } else {
      UnfitPage(s, project, workId, attempt, page);
    }
  }

  /******* From the page to the finish *******/

  /** The row's own payload names the row, the work and the attempt. */
  predicate Selectable(row: Record) {
    && row.payload.Some? && row.payload.value.Receipt? && row.payload.value.receiptId == row.receiptId
    && row.payload.value.workId == row.workId && row.payload.value.attempt == row.attempt
  }

  /** A receipt can be selected exactly if the history of the attempt that is
      shown holds it, for this project, work and attempt, with a payload that
      names itself; it then is the receipt of this work and no other changes. */
  lemma SelectIff(s: State, project: string, workId: string, receiptId: string, row: Record)
    ensures Selected(s, project, workId, receiptId) == Some(row) <==>
            exists i: nat ::
              && ShownAt(s, workId, i) && s.model.value.items[i].attempt == Some(row.attempt)
              && HistoryKey(workId, row.attempt) in s.history && receiptId in s.history[HistoryKey(workId, row.attempt)]
              && s.history[HistoryKey(workId, row.attempt)][receiptId] == row
              && row.projectId == project && row.workId == workId && Selectable(row)
    ensures Selected(s, project, workId, receiptId) == Some(row) ==>
              var s' := Select(s, project, workId, receiptId);
              && s' == s.(receipts := s'.receipts) && s'.receipts.Keys == s.receipts.Keys + {workId}
              && s'.receipts[workId] == Stored(row.attempt, Some(receiptId), row.payload.value)
              && forall other :: other in s.receipts && other != workId ==> s'.receipts[other] == s.receipts[other]
  {
    ItemIsShown(s, workId);
  }

  /** With this receipt stored for the attempt that is shown, a finish goes out
      exactly if nothing else hinders it, and carries this receipt. */
  lemma StoredIsFinished(s: State, workId: string, i: nat, stored: Stored, unused: Payload, input: string, id: string, sequence: nat)
    requires ShownAt(s, workId, i) && s.model.value.items[i].attempt == Some(stored.attempt)
    requires workId in s.receipts && s.receipts[workId] == stored
    ensures var begun := Begin(s, OnWork(Finish, workId, unused, input), id, sequence);
            && (begun.Some? <==> Unhindered(s, Finish, s.model.value.items[i]))
            && (begun.Some? ==> begun.value.1.payload == Some(stored.payload) && begun.value.1.attempt == Some(stored.attempt))
  {
    ItemIsShown(s, workId);
    WorkBegins(s, Finish, workId, unused, input, id, sequence);
    if Begin(s, OnWork(Finish, workId, unused, input), id, sequence).Some? {
      BeginAsks(s, OnWork(Finish, workId, unused, input), id, sequence);
    }
  }

  /** From a page to the finish: a row of a fitting page that names itself can
      be selected once the page is merged, and the next finish sends it. */
  lemma RowReachesFinish(
      s: State, project: string, workId: string, attempt: Attempt, page: ReceiptPage, k: nat, i: nat,
      unused: Payload, input: string, id: string, sequence: nat)
    requires Fitting(s, project, workId, attempt, page) && Consistent(HistoryAt(s, HistoryKey(workId, attempt)), page.rows)
    requires k < |page.rows| && Selectable(page.rows[k]) && ShownAt(s, workId, i)
    ensures var s1 := ReceiptsRead(s, project, workId, attempt, page);
            var s2 := Select(s1, project, workId, page.rows[k].receiptId);
            var begun := Begin(s2, OnWork(Finish, workId, unused, input), id, sequence);
            && Selected(s1, project, workId, page.rows[k].receiptId) == Some(page.rows[k])
            && (begun.Some? <==> Unhindered(s, Finish, s.model.value.items[i]))
            && (begun.Some? ==> begun.value.1.payload == page.rows[k].payload && begun.value.1.attempt == Some(attempt))
  {
    var row := page.rows[k];
    var s1 := ReceiptsRead(s, project, workId, attempt, page);
    var s2 := Select(s1, project, workId, row.receiptId);
    PageIsMerged(s, project, workId, attempt, page);
    ItemIsShown(s, workId);
    assert ShownAt(s1, workId, i) && s1.model.value.items[i].attempt == Some(row.attempt);
    SelectIff(s1, project, workId, row.receiptId, row);
    assert ShownAt(s2, workId, i);
    StoredIsFinished(s2, workId, i, s2.receipts[workId], unused, input, id, sequence);
  }

  /** Evidence that was acknowledged for the attempt that is shown is what the
      next finish sends; the history of that attempt has to be read again, and
      nothing else is forgotten. */
  lemma EvidenceReachesFinish(
      s: State, workId: string, attempt: Attempt, payload: Payload, i: nat, unused: Payload, input: string, id: string, sequence: nat)
    requires ShownAt(s, workId, i) && s.model.value.items[i].attempt == Some(attempt)
    ensures var s' := StoreEvidence(s, workId, attempt, payload);
            var begun := Begin(s', OnWork(Finish, workId, unused, input), id, sequence);
            && (begun.Some? <==> Unhindered(s, Finish, s.model.value.items[i]))
            && (begun.Some? ==> begun.value.1.payload == Some(payload) && begun.value.1.attempt == Some(attempt))
            && s'.history == s.history - {HistoryKey(workId, attempt)}
            && (s'.receipts[workId].receiptId.Some? <==> payload.Receipt?)
            && (payload.Receipt? ==> s'.receipts[workId].receiptId == Some(payload.receiptId))
            && forall other :: other != workId ==>
                 (other in s'.receipts <==> other in s.receipts) && (other in s.receipts ==> s'.receipts[other] == s.receipts[other])
  {
    var s' := StoreEvidence(s, workId, attempt, payload);
    assert ShownAt(s', workId, i);
    StoredIsFinished(s', workId, i, s'.receipts[workId], unused, input, id, sequence);
  }

  /******* The same, as steps of the dashboard *******/

  lemma ReceiptsAsked(w: World, workId: string, i: nat, attempt: Attempt)
    requires w.core.ctl.mounted && ShownAt(w.core.ctl, workId, i) && w.core.ctl.model.value.items[i].attempt == Some(attempt)
    ensures var w' := Next(w, AskReceipts(workId));
            && w'.core == w.core && w'.project == w.project
            && w.loop.next in w'.loop.receiptReads && w'.loop.receiptReads[w.loop.next] == ReceiptRead(workId, attempt)
  {
    ItemIsShown(w.core.ctl, workId);
  }

  lemma ReceiptsHeard(w: World, read: nat, workId: string, attempt: Attempt, page: ReceiptPage)
    requires read in w.loop.receiptReads && w.loop.receiptReads[read] == ReceiptRead(workId, attempt)
    ensures var w' := Next(w, ReceiptsAnswer(read, page));
            && w'.core == w.core.(ctl := ReceiptsRead(w.core.ctl, w.project, workId, attempt, page)) && w'.project == w.project
  {
  }

  lemma ReceiptPicked(w: World, workId: string, receiptId: string)
    ensures var w' := Next(w, PickReceipt(workId, receiptId));
            && w'.core.ctl == Select(w.core.ctl, w.project, workId, receiptId)
            && w'.core.past.issued == w.core.past.issued && w'.project == w.project
  {
  }

  /** The receipts of the attempt that is shown are asked for, a page comes, one
      row is picked and the work is finished. */
  function Finished(w: World, workId: string, page: ReceiptPage, receiptId: string, finish: Event): World {
    Next(Next(Next(Next(w, AskReceipts(workId)), ReceiptsAnswer(w.loop.next, page)), PickReceipt(workId, receiptId)), finish)
  }

  /** The operator's way to a finish: the receipt that is sent is the row that
      was picked, and the request goes out exactly if nothing else hinders it. */
  lemma PickedRowIsSent(
      w: World, workId: string, attempt: Attempt, page: ReceiptPage, k: nat, i: nat, unused: Payload, input: string, time: nat, drawn: nat)
    requires w.core.ctl.mounted && ShownAt(w.core.ctl, workId, i) && w.core.ctl.model.value.items[i].attempt == Some(attempt)
    requires Fitting(w.core.ctl, w.project, workId, attempt, page)
    requires Consistent(HistoryAt(w.core.ctl, HistoryKey(workId, attempt)), page.rows)
    requires k < |page.rows| && Selectable(page.rows[k])
    ensures var finish := Start(OnWork(Finish, workId, unused, input), time, drawn);
            var issued, issued' := w.core.past.issued, Finished(w, workId, page, page.rows[k].receiptId, finish).core.past.issued;
            if Unhindered(w.core.ctl, Finish, w.core.ctl.model.value.items[i]) then
              && |issued'| == |issued| + 1 && issued <= issued'
              && issued'[|issued|].payload == page.rows[k].payload && issued'[|issued|].attempt == Some(attempt)
            else issued' == issued
  {
    var row := page.rows[k];
    var w1 := Next(w, AskReceipts(workId));
    var w2 := Next(w1, ReceiptsAnswer(w.loop.next, page));
    var w3 := Next(w2, PickReceipt(workId, row.receiptId));
    ReceiptsAsked(w, workId, i, attempt);
    ReceiptsHeard(w1, w.loop.next, workId, attempt, page);
    ReceiptPicked(w2, workId, row.receiptId);
    var id, n := NextId(w3.core.ctl, time, drawn), w3.core.ctl.sequence + drawn + 1;
    RowReachesFinish(w.core.ctl, w.project, workId, attempt, page, k, i, unused, input, id, n);
    FinishStarts(w3, OnWork(Finish, workId, unused, input), time, drawn);
  }

  lemma FinishStarts(w: World, intent: Intent, time: nat, drawn: nat)
    ensures var begun := Begin(w.core.ctl, intent, NextId(w.core.ctl, time, drawn), w.core.ctl.sequence + drawn + 1);
            Next(w, Start(intent, time, drawn)).core.past.issued
            == if begun.Some? then w.core.past.issued + [begun.value.1] else w.core.past.issued
  {
  }

  /** Back in the action method after its mutation was acknowledged: evidence
      becomes the receipt of its work, a finish uses it up. */
  lemma AcknowledgedIsKept(w: World, id: string, workId: string)
    requires id in w.loop.acknowledged && w.loop.acknowledged[id].workId == Some(workId)
    ensures var r, w' := w.loop.acknowledged[id], Next(w, Acknowledge(id));
            && id !in w'.loop.acknowledged
            && (r.mutation == Lifecycle(Evidence) && r.attempt.Some? && r.payload.Some? ==>
                  w'.core.ctl == StoreEvidence(w.core.ctl, workId, r.attempt.value, r.payload.value))
            && (r.mutation == Lifecycle(Finish) ==> w'.core.ctl == w.core.ctl.(receipts := w.core.ctl.receipts - {workId}))
            && (r.mutation !in {Lifecycle(Evidence), Lifecycle(Finish)} ==> w'.core == w.core)
  {
  }
}

/** GlobalController.completeChoices: a capped summary is filled from service
    pages. The service is arbitrary: `answers[k]` is what it says to the k-th
    request, and the call is still waiting when it has nothing more to say. */
module Choices {
  import opened Wrappers

  datatype Collection = Projects | Items | Statuses

  datatype Row = Row(key: string, project: Option<string>, archived: bool)

  /** Where the next page starts: nowhere, at a safe integer, or at something else. */
  datatype Cursor = End | At(offset: int) | Malformed

  /** `total` is None when it is not a safe integer. */
  datatype Page = Page(
    rows: seq<Row>, total: Option<int>, limit: int, offset: int, hasMore: bool,
    next: Cursor, revision: nat, resnapshot: bool)

  datatype Answer = Unavailable | Paged(page: Page)

  datatype Request = Request(offset: int, expectedRevision: nat)

  datatype Error = NoSnapshot | ServiceFailed | RevisionChanged | RefreshFailed | InvalidPage | TotalChanged | Incomplete | InvalidCursor

  datatype Outcome = Loaded(rows: seq<Row>) | Failed(error: Error) | Waiting

  /** The summary of one collection in the installed snapshot. */
  datatype Summary = Summary(revision: nat, visible: seq<Row>, knownTotal: Option<int>, limit: Option<int>)

  predicate Capped(s: Summary) {
    if s.knownTotal.Some? then s.knownTotal.value > |s.visible|
    else s.limit.Some? && |s.visible| >= s.limit.value
  }

  /** `project` is None when the caller did not restrict the choices; Some(None) asks for the personal ones. */
  predicate Offered(c: Collection, project: Option<Option<string>>, row: Row) {
    && (c.Projects? || project.None? || row.project == project.value)
    && (c.Statuses? || !row.archived)
  }

  function Choosable(c: Collection, project: Option<Option<string>>, rows: seq<Row>): seq<Row> {
    if rows == [] then []
    else (if Offered(c, project, rows[0]) then [rows[0]] else []) + Choosable(c, project, rows[1..])
  }

  /** How one page is taken. */
  datatype Step = Reject(error: Error) | Finish | Continue

  function Check(revision: nat, offset: int, loaded: nat, total: Option<int>, p: Page): Step {
    if p.resnapshot || p.revision != revision then Reject(RevisionChanged)
    else if p.offset != offset || p.total.None? || p.total.value < 0 || |p.rows| > p.limit || p.limit < 1 then Reject(InvalidPage)
    else if total.Some? && p.total != total then Reject(TotalChanged)
    else match p.next
      case End => if loaded + |p.rows| != p.total.value then Reject(Incomplete) else Finish
      case Malformed => Reject(InvalidCursor)
      case At(next) => if next <= offset || next != offset + |p.rows| || !p.hasMore then Reject(InvalidCursor) else Continue
  }

  /** The paging loop: all rows so far, or why it stopped. */
  function Fill(revision: nat, offset: int, total: Option<int>, rows: seq<Row>, answers: seq<Answer>): Outcome
    decreases |answers|
  {
    if answers == [] then Waiting
    else match answers[0]
      case Unavailable => Failed(ServiceFailed)
      case Paged(p) =>
        match Check(revision, offset, |rows|, total, p)
        case Reject(error) => Failed(error)
        case Finish => Loaded(rows + p.rows)
        case Continue => Fill(revision, p.next.offset, p.total, rows + p.rows, answers[1..])
  }

  /******* What a successful load means *******/

  function Rows(pages: seq<Page>): seq<Row> {
    if pages == [] then [] else Rows(pages[..|pages| - 1]) + pages[|pages| - 1].rows
  }

  function PagesOf(answers: seq<Answer>): (pages: seq<Page>)
    requires forall k :: 0 <= k < |answers| ==> answers[k].Paged?
    ensures |pages| == |answers| && forall k :: 0 <= k < |pages| ==> pages[k] == answers[k].page
  {
    seq(|answers|, k requires 0 <= k < |answers| => answers[k].page)
  }

  /** Page `k` is of this revision and total and starts where the rows before it end. */
  ghost predicate PageAt(revision: nat, total: Option<int>, pages: seq<Page>, k: nat) {
    && k < |pages|
    && pages[k].revision == revision && !pages[k].resnapshot && pages[k].total == total
    && 1 <= pages[k].limit && |pages[k].rows| <= pages[k].limit
    && pages[k].offset == |Rows(pages[..k])|
  }

  /** Page `k` is not empty and names the start of the next one. */
  ghost predicate Leads(pages: seq<Page>, k: nat) {
    k < |pages| && pages[k].rows != [] && pages[k].hasMore && pages[k].next == At(|Rows(pages[..k + 1])|)
  }

  /** One consistent reading of a collection: every page at the snapshot's
      revision and with the same total, each starting where the rows before it
      end, only the last without a cursor, `total` rows in all. */
  ghost predicate Complete(revision: nat, pages: seq<Page>) {
    && pages != []
    && (forall k :: 0 <= k < |pages| ==> PageAt(revision, Some(|Rows(pages)|), pages, k))
    && (forall k :: 0 <= k < |pages| - 1 ==> Leads(pages, k))
    && pages[|pages| - 1].next.End?
  }

  ghost predicate Reading(revision: nat, answers: seq<Answer>, n: nat) {
    && n <= |answers| && (forall k :: 0 <= k < n ==> answers[k].Paged?)
    && Complete(revision, PagesOf(answers[..n]))
  }

  /** Pages taken so far by a loop that has not ended. */
  ghost predicate Begun(revision: nat, total: Option<int>, pages: seq<Page>) {
    && (total.None? <==> pages == [])
    && (total.Some? ==> 0 <= total.value)
    && forall k :: 0 <= k < |pages| ==> PageAt(revision, total, pages, k) && Leads(pages, k)
  }

  lemma RowsPrefix(pages: seq<Page>, k: nat)
    requires k < |pages|
    ensures Rows(pages[..k + 1]) == Rows(pages[..k]) + pages[k].rows
  {
    assert pages[..k + 1][..k] == pages[..k];
  }

  lemma PrefixPage(revision: nat, total: Option<int>, pages: seq<Page>, k: nat, j: nat)
    requires j < k <= |pages|
    ensures PageAt(revision, total, pages[..k], j) == PageAt(revision, total, pages, j)
    ensures Leads(pages[..k], j) == Leads(pages, j)
  {
    assert pages[..k][..j] == pages[..j] && pages[..k][..j + 1] == pages[..j + 1];
  }

  lemma BegunTotal(revision: nat, total: Option<int>, pages: seq<Page>, k: nat)
    requires 0 < k <= |pages| && Begun(revision, total, pages[..k])
    ensures PageAt(revision, total, pages, 0)
  {
    PrefixPage(revision, total, pages, k, 0);
    assert PageAt(revision, total, pages[..k], 0);
  }

  lemma ChecksOut(revision: nat, taken: nat, total: Option<int>, p: Page, all: nat, last: bool)
    requires p.revision == revision && !p.resnapshot && p.offset == taken && p.total == Some(all)
    requires (total.Some? ==> total == Some(all)) && 1 <= p.limit && |p.rows| <= p.limit
    requires if last then p.next.End? && taken + |p.rows| == all else p.rows != [] && p.hasMore && p.next == At(taken + |p.rows|)
    ensures Check(revision, taken, taken, total, p) == if last then Finish else Continue
  {
  }

  /** In a complete reading every page passes the loop's checks. */
  lemma CompleteChecks(revision: nat, total: Option<int>, pages: seq<Page>, k: nat)
    requires Complete(revision, pages) && k < |pages| && Begun(revision, total, pages[..k])
    ensures Check(revision, |Rows(pages[..k])|, |Rows(pages[..k])|, total, pages[k])
            == if k == |pages| - 1 then Finish else Continue
  {
    var taken, all := |Rows(pages[..k])|, |Rows(pages)|;
    RowsPrefix(pages, k);
    assert PageAt(revision, Some(all), pages, k);
    if k > 0 {
      BegunTotal(revision, total, pages, k);
      assert PageAt(revision, Some(all), pages, 0);
    }
    if k == |pages| - 1 {
      assert pages[..k + 1] == pages;
      ChecksOut(revision, taken, total, pages[k], all, true);
    } else {
      assert Leads(pages, k);
      ChecksOut(revision, taken, total, pages[k], all, false);
    }
  }

  lemma FinishCompletes(revision: nat, total: Option<int>, pages: seq<Page>, k: nat)
    requires k + 1 == |pages| && Begun(revision, total, pages[..k])
    requires Check(revision, |Rows(pages[..k])|, |Rows(pages[..k])|, total, pages[k]).Finish?
    ensures Complete(revision, pages)
  {
    RowsPrefix(pages, k);
    assert pages[..k + 1] == pages;
    forall j | 0 <= j < |pages|
      ensures PageAt(revision, Some(|Rows(pages)|), pages, j)
      ensures j < k ==> Leads(pages, j)
    {
      if j < k {
        PrefixPage(revision, total, pages, k, j);
        assert PageAt(revision, total, pages[..k], j);
      }
    }
  }

  lemma ContinueBegins(revision: nat, total: Option<int>, pages: seq<Page>, k: nat)
    requires k + 1 == |pages| && Begun(revision, total, pages[..k])
    requires Check(revision, |Rows(pages[..k])|, |Rows(pages[..k])|, total, pages[k]).Continue?
    ensures Begun(revision, pages[k].total, pages)
  {
    RowsPrefix(pages, k);
    assert pages[..k + 1] == pages;
    forall j | 0 <= j < |pages|
      ensures PageAt(revision, pages[k].total, pages, j) && Leads(pages, j)
    {
      if j < k {
        PrefixPage(revision, total, pages, k, j);
        assert PageAt(revision, total, pages[..k], j);
      }
    }
  }

  ghost predicate EndsIn(revision: nat, answers: seq<Answer>, k: nat, r: seq<Row>) {
    exists n :: k < n <= |answers| && Reading(revision, answers, n) && r == Rows(PagesOf(answers[..n]))
  }

  ghost predicate TakenUpTo(revision: nat, total: Option<int>, answers: seq<Answer>, k: nat) {
    && k <= |answers| && (forall j :: 0 <= j < k ==> answers[j].Paged?)
    && Begun(revision, total, PagesOf(answers[..k]))
  }

  ghost function Taken(answers: seq<Answer>, k: nat): seq<Row>
    requires k <= |answers| && forall j :: 0 <= j < k ==> answers[j].Paged?
  {
    Rows(PagesOf(answers[..k]))
  }

  lemma ReadingChecks(revision: nat, total: Option<int>, answers: seq<Answer>, k: nat, n: nat)
    requires TakenUpTo(revision, total, answers, k) && k < n && Reading(revision, answers, n)
    ensures answers[k].Paged?
    ensures var taken := |Taken(answers, k)|;
            Check(revision, taken, taken, total, answers[k].page) == if n == k + 1 then Finish else Continue
  {
    assert PagesOf(answers[..n])[..k] == PagesOf(answers[..k]);
    CompleteChecks(revision, total, PagesOf(answers[..n]), k);
  }

  lemma NextPage(revision: nat, total: Option<int>, answers: seq<Answer>, k: nat)
    requires TakenUpTo(revision, total, answers, k) && k < |answers| && answers[k].Paged?
    ensures Taken(answers, k + 1) == Taken(answers, k) + answers[k].page.rows
    ensures var taken := |Taken(answers, k)|;
            var step := Check(revision, taken, taken, total, answers[k].page);
            && (step.Finish? ==> Reading(revision, answers, k + 1))
            && (step.Continue? ==> TakenUpTo(revision, answers[k].page.total, answers, k + 1))
  {
    var pages := PagesOf(answers[..k + 1]);
    assert pages[..k] == PagesOf(answers[..k]) && pages[k] == answers[k].page && pages[..k + 1] == pages;
    RowsPrefix(pages, k);
    var taken := |Taken(answers, k)|;
    match Check(revision, taken, taken, total, answers[k].page)
    case Reject(_) =>
    case Finish => FinishCompletes(revision, total, pages, k);
    case Continue => ContinueBegins(revision, total, pages, k);
  }

  lemma EndsOrGoesOn(revision: nat, total: Option<int>, answers: seq<Answer>, k: nat, r: seq<Row>)
    requires TakenUpTo(revision, total, answers, k)
    requires k < |answers| && answers[k].Paged?
    ensures var taken := |Taken(answers, k)|;
            EndsIn(revision, answers, k, r) <==>
            match Check(revision, taken, taken, total, answers[k].page)
            case Reject(_) => false
            case Finish => r == Taken(answers, k + 1)
            case Continue => EndsIn(revision, answers, k + 1, r)
  {
    forall n | k < n <= |answers| && Reading(revision, answers, n)
      ensures var taken := |Taken(answers, k)|;
              Check(revision, taken, taken, total, answers[k].page) == if n == k + 1 then Finish else Continue
    {
      ReadingChecks(revision, total, answers, k, n);
    }
    NextPage(revision, total, answers, k);
  }

  lemma {:induction false} FillFrom(revision: nat, total: Option<int>, answers: seq<Answer>, k: nat, r: seq<Row>)
    requires TakenUpTo(revision, total, answers, k)
    ensures var rows := Taken(answers, k);
            Fill(revision, |rows|, total, rows, answers[k..]) == Loaded(r) <==> EndsIn(revision, answers, k, r)
    decreases |answers| - k
  {
    if k == |answers| {
    } else if answers[k].Unavailable? {
      forall n | k < n <= |answers| ensures !Reading(revision, answers, n) { }
    } else {
      assert answers[k..][0] == answers[k] && answers[k..][1..] == answers[k + 1..];
      NextPage(revision, total, answers, k);
      EndsOrGoesOn(revision, total, answers, k, r);
      var taken := |Taken(answers, k)|;
      if Check(revision, taken, taken, total, answers[k].page).Continue? {
        NextOffset(revision, taken, total, answers[k].page);
        FillFrom(revision, answers[k].page.total, answers, k + 1, r);
      }
    }
  }

  lemma NextOffset(revision: nat, taken: nat, total: Option<int>, p: Page)
    requires Check(revision, taken, taken, total, p).Continue?
    ensures p.next == At(taken + |p.rows|)
  {
  }

  /** The choices loaded from pages are the rows of one complete reading, and
      every complete reading is loaded. */
  lemma LoadedIffComplete(revision: nat, answers: seq<Answer>, r: seq<Row>)
    ensures Fill(revision, 0, None, [], answers) == Loaded(r) <==> EndsIn(revision, answers, 0, r)
  {
    assert PagesOf(answers[..0]) == [];
    assert answers[0..] == answers;
    FillFrom(revision, None, answers, 0, r);
  }

  /******* A service that serves slices *******/

  /** Any slice that starts where it was asked to and is not empty before the end. */
  ghost predicate SliceAt(data: seq<Row>, revision: nat, offset: nat, p: Page) {
    && p.revision == revision && !p.resnapshot && p.total == Some(|data|)
    && p.offset == offset && 1 <= p.limit && |p.rows| <= p.limit
    && offset + |p.rows| <= |data| && p.rows == data[offset..offset + |p.rows|]
    && (if offset + |p.rows| == |data| then p.next == End
        else p.rows != [] && p.hasMore && p.next == At(offset + |p.rows|))
  }

  /** The answers to the offsets that the cursors of the earlier answers name. */
  ghost predicate ServesSlices(data: seq<Row>, revision: nat, offset: nat, answers: seq<Answer>)
    decreases |answers|
  {
    answers != [] ==>
      && answers[0].Paged? && SliceAt(data, revision, offset, answers[0].page)
      && (answers[0].page.next.At? ==> ServesSlices(data, revision, offset + |answers[0].page.rows|, answers[1..]))
  }

  /** Each page brings the end nearer: as many answers as rows remain, and at
      least one, are enough, however the service cuts its pages. */
  lemma {:induction false} SlicesLoad(data: seq<Row>, revision: nat, offset: nat, total: Option<int>, answers: seq<Answer>)
    requires offset <= |data| && ServesSlices(data, revision, offset, answers)
    requires total.Some? ==> total.value == |data|
    requires |answers| >= |data| - offset && answers != []
    ensures Fill(revision, offset, total, data[..offset], answers) == Loaded(data)
    decreases |data| - offset
  {
    var p := answers[0].page;
    assert data[..offset] + p.rows == data[..offset + |p.rows|];
    if p.next.At? {
      SlicesLoad(data, revision, offset + |p.rows|, p.total, answers[1..]);
    }
  }

  /******* When the loop keeps asking *******/

  lemma {:induction false} WaitsFrom(revision: nat, total: Option<int>, answers: seq<Answer>, k: nat)
    requires TakenUpTo(revision, total, answers, k)
    ensures var rows := Taken(answers, k);
            Fill(revision, |rows|, total, rows, answers[k..]).Waiting? <==> exists t :: TakenUpTo(revision, t, answers, |answers|)
    decreases |answers| - k
  {
    if k < |answers| {
      assert answers[k..][0] == answers[k] && answers[k..][1..] == answers[k + 1..];
      if answers[k].Paged? {
        NextPage(revision, total, answers, k);
        var taken, p := |Taken(answers, k)|, answers[k].page;
        if Check(revision, taken, taken, total, p).Continue? {
          NextOffset(revision, taken, total, p);
          WaitsFrom(revision, p.total, answers, k + 1);
        } else {
          StoppedIsNotBegun(revision, total, answers, k);
        }
      }
    }
  }

  /** A page of a reading that goes on passes the checks. */
  lemma BegunChecks(revision: nat, total: Option<int>, t: Option<int>, answers: seq<Answer>, k: nat)
    requires TakenUpTo(revision, total, answers, k) && TakenUpTo(revision, t, answers, |answers|) && k < |answers|
    ensures var taken := |Taken(answers, k)|;
            Check(revision, taken, taken, total, answers[k].page).Continue?
  {
    var pages := PagesOf(answers[..|answers|]);
    assert pages[..k] == PagesOf(answers[..k]) && pages[k] == answers[k].page;
    RowsPrefix(pages, k);
    assert PageAt(revision, t, pages, k) && Leads(pages, k);
    if k > 0 {
      BegunTotal(revision, total, pages, k);
      assert PageAt(revision, t, pages, 0);
    }
  }

  lemma StoppedIsNotBegun(revision: nat, total: Option<int>, answers: seq<Answer>, k: nat)
    requires TakenUpTo(revision, total, answers, k) && k < |answers| && answers[k].Paged?
    requires !Check(revision, |Taken(answers, k)|, |Taken(answers, k)|, total, answers[k].page).Continue?
    ensures forall t :: !TakenUpTo(revision, t, answers, |answers|)
  {
    forall t ensures !TakenUpTo(revision, t, answers, |answers|) {
      if TakenUpTo(revision, t, answers, |answers|) { BegunChecks(revision, total, t, answers, k); }
    }
  }

  /** The loop still waits exactly if all answers so far are pages of this
      revision with one total, each starting where the last one ended, none
      empty, and each naming the next. That total is any natural number:
      nothing compares it with the rows taken. */
  lemma WaitsIff(revision: nat, answers: seq<Answer>)
    ensures Fill(revision, 0, None, [], answers).Waiting? <==>
            && (forall k :: 0 <= k < |answers| ==> answers[k].Paged?)
            && exists total :: Begun(revision, total, PagesOf(answers))
  {
    assert PagesOf(answers[..0]) == [] && answers[0..] == answers && answers[..|answers|] == answers;
    assert TakenUpTo(revision, None, answers, 0) && Taken(answers, 0) == [];
    WaitsFrom(revision, None, answers, 0);
    if t :| TakenUpTo(revision, t, answers, |answers|) {
      assert Begun(revision, t, PagesOf(answers));
    }
    if (forall k :: 0 <= k < |answers| ==> answers[k].Paged?) && exists total :: Begun(revision, total, PagesOf(answers)) {
      var total :| Begun(revision, total, PagesOf(answers));
      assert TakenUpTo(revision, total, answers, |answers|);
    }
  }

  /******* Why a load fails *******/

  /** What is wrong with the answer to the request for the rows after the first
      `taken`, at this revision and, from the second page on, with this total. */
  ghost predicate Fault(revision: nat, total: Option<int>, taken: nat, a: Answer, e: Error) {
    match e
    case ServiceFailed => a.Unavailable?
    case RevisionChanged => a.Paged? && (a.page.resnapshot || a.page.revision != revision)
    case InvalidPage =>
      a.Paged? && a.page.revision == revision
      && (a.page.offset != taken || a.page.total.None? || a.page.total.value < 0 || a.page.limit < 1 || a.page.limit < |a.page.rows|)
    case TotalChanged => a.Paged? && a.page.revision == revision && total.Some? && a.page.total != total
    case Incomplete => a.Paged? && a.page.revision == revision && a.page.next.End? && a.page.total != Some(taken + |a.page.rows|)
    case InvalidCursor =>
      a.Paged? && a.page.revision == revision && !a.page.next.End?
      && (a.page.rows == [] || !a.page.hasMore || a.page.next != At(taken + |a.page.rows|))
    case NoSnapshot | RefreshFailed => false
  }

  /** Everything before answer `k` was taken as it came, and that answer is at fault. */
  ghost predicate FaultAt(revision: nat, t: Option<int>, answers: seq<Answer>, k: nat, e: Error) {
    k < |answers| && TakenUpTo(revision, t, answers, k) && Fault(revision, t, |Taken(answers, k)|, answers[k], e)
  }

  /** A failed load names what was wrong with the answer that ended it, and the
      answers before that one were consistent. */
  lemma {:induction false} FailsAt(revision: nat, total: Option<int>, answers: seq<Answer>, k: nat)
    requires TakenUpTo(revision, total, answers, k)
    ensures var r := Fill(revision, |Taken(answers, k)|, total, Taken(answers, k), answers[k..]);
            r.Failed? ==> exists n, t :: FaultAt(revision, t, answers, n, r.error)
    decreases |answers| - k
  {
    if k < |answers| {
      assert answers[k..][0] == answers[k] && answers[k..][1..] == answers[k + 1..];
      if answers[k].Unavailable? {
        assert FaultAt(revision, total, answers, k, ServiceFailed);
      } else {
        NextPage(revision, total, answers, k);
        var taken, p := |Taken(answers, k)|, answers[k].page;
        match Check(revision, taken, taken, total, p)
        case Reject(error) => assert FaultAt(revision, total, answers, k, error);
        case Finish =>
        case Continue =>
          NextOffset(revision, taken, total, p);
          FailsAt(revision, p.total, answers, k + 1);
      }
    }
  }

  /** One row a page, each page naming a next one. */
  function Endless(revision: nat, total: nat, row: Row, offset: nat, n: nat): seq<Answer>
    decreases n
  {
    if n == 0 then []
    else [Paged(Page([row], Some(total), 100, offset, true, At(offset + 1), revision, false))]
         + Endless(revision, total, row, offset + 1, n - 1)
  }

  /** For every total and every number of pages there is such a service. Past
      `total` rows the loop can no longer succeed, and still waits. */
  lemma {:induction false} EndlessKeepsWaiting(revision: nat, total: nat, row: Row, known: Option<int>, rows: seq<Row>, n: nat)
    requires known.None? || known == Some(total)
    ensures |Endless(revision, total, row, |rows|, n)| == n
    ensures Fill(revision, |rows|, known, rows, Endless(revision, total, row, |rows|, n)).Waiting?
    decreases n
  {
    if n > 0 {
      EndlessKeepsWaiting(revision, total, row, Some(total), rows + [row], n - 1);
      assert Endless(revision, total, row, |rows|, n)[1..] == Endless(revision, total, row, |rows + [row]|, n - 1);
    }
  }

  /** Once more rows are taken than the total, no answers whatever end the load well. */
  lemma {:induction false} PastTheTotal(revision: nat, total: int, rows: seq<Row>, answers: seq<Answer>)
    requires |rows| > total
    ensures !Fill(revision, |rows|, Some(total), rows, answers).Loaded?
    decreases |answers|
  {
    if answers != [] && answers[0].Paged? {
      var p := answers[0].page;
      if Check(revision, |rows|, |rows|, Some(total), p).Continue? {
        NextOffset(revision, |rows|, Some(total), p);
        PastTheTotal(revision, total, rows + p.rows, answers[1..]);
      }
    }
  }

  /******* completeChoices *******/

  function Choices(s: Option<Summary>, c: Collection, project: Option<Option<string>>, answers: seq<Answer>, refreshFails: bool): Outcome {
    if s.None? then Failed(NoSnapshot)
    else if !Capped(s.value) then Loaded(Choosable(c, project, s.value.visible))
    else match Fill(s.value.revision, 0, None, [], answers)
      case Waiting => Waiting
      case Loaded(rows) => Loaded(Choosable(c, project, rows))
      case Failed(error) => Failed(if error.RevisionChanged? && refreshFails then RefreshFailed else error)
  }

  /** The requests the loop makes, each after the answer to the one before. */
  function Asked(revision: nat, offset: int, total: Option<int>, loaded: nat, answers: seq<Answer>): seq<Request>
    decreases |answers|
  {
    [Request(offset, revision)] +
    if answers == [] || answers[0].Unavailable? then []
    else
      var p := answers[0].page;
      if Check(revision, offset, loaded, total, p).Continue?
      then Asked(revision, p.next.offset, p.total, loaded + |p.rows|, answers[1..])
      else []
  }

  ghost predicate Follows(asked: seq<Request>, answers: seq<Answer>, k: nat) {
    && k + 1 < |asked| && k < |answers| && answers[k].Paged? && answers[k].page.rows != []
    && asked[k + 1] == asked[k].(offset := asked[k].offset + |answers[k].page.rows|)
  }

  /** Requests are contiguous and pinned to one revision, whatever is answered. */
  lemma {:induction false} AskedInSequence(revision: nat, offset: int, total: Option<int>, loaded: nat, answers: seq<Answer>)
    ensures var asked := Asked(revision, offset, total, loaded, answers);
            && 1 <= |asked| <= |answers| + 1 && asked[0] == Request(offset, revision)
            && forall k :: 0 <= k < |asked| - 1 ==> Follows(asked, answers, k)
    decreases |answers|
  {
    if answers != [] && answers[0].Paged? {
      var p := answers[0].page;
      if Check(revision, offset, loaded, total, p).Continue? {
        AskedInSequence(revision, p.next.offset, p.total, loaded + |p.rows|, answers[1..]);
        var rest := Asked(revision, p.next.offset, p.total, loaded + |p.rows|, answers[1..]);
        var asked := Asked(revision, offset, total, loaded, answers);
        assert asked == [Request(offset, revision)] + rest;
        forall k | 0 < k < |asked| - 1 ensures Follows(asked, answers, k) {
          assert Follows(rest, answers[1..], k - 1);
        }
      }
    }
  }

  lemma OneAnswer(revision: nat, offset: int, total: Option<int>, rows: seq<Row>, answers: seq<Answer>, before: seq<Request>)
    requires answers != []
    ensures Fill(revision, offset, total, rows, answers) == (match answers[0]
              case Unavailable => Failed(ServiceFailed)
              case Paged(p) =>
                match Check(revision, offset, |rows|, total, p)
                case Reject(error) => Failed(error)
                case Finish => Loaded(rows + p.rows)
                case Continue => Fill(revision, p.next.offset, p.total, rows + p.rows, answers[1..]))
    ensures before + Asked(revision, offset, total, |rows|, answers) == before + [Request(offset, revision)] +
              if answers[0].Paged? && Check(revision, offset, |rows|, total, answers[0].page).Continue?
              then Asked(revision, answers[0].page.next.offset, answers[0].page.total, |rows + answers[0].page.rows|, answers[1..])
              else []
  {
  }

  /** The paging loop of completeChoices. */
  method FillPages(revision: nat, answers: seq<Answer>) returns (r: Outcome, asked: seq<Request>)
    ensures r == Fill(revision, 0, None, [], answers)
    ensures asked == Asked(revision, 0, None, 0, answers)
  {
    asked := [];
    var offset, total, rows, rest := 0, None, [], answers;
    while rest != []
      invariant Fill(revision, 0, None, [], answers) == Fill(revision, offset, total, rows, rest)
      invariant Asked(revision, 0, None, 0, answers) == asked + Asked(revision, offset, total, |rows|, rest)
      decreases |rest|
    {
      OneAnswer(revision, offset, total, rows, rest, asked);
      asked := asked + [Request(offset, revision)];
      if rest[0].Unavailable? {
        return Failed(ServiceFailed), asked;
      }
      var page := rest[0].page;
      var step := Check(revision, offset, |rows|, total, page);
      if step.Reject? {
        return Failed(step.error), asked;
      }
      if step.Finish? {
        return Loaded(rows + page.rows), asked;
      }
      offset, total, rows, rest := page.next.offset, page.total, rows + page.rows, rest[1..];
    }
    r, asked := Waiting, asked + [Request(offset, revision)];
  }

  /** Against a service that serves slices of one sequence, a capped summary is
      filled with exactly the rows of that sequence that may be offered. */
  lemma SlicesAreOffered(
      s: Summary, c: Collection, project: Option<Option<string>>, data: seq<Row>, answers: seq<Answer>, refreshFails: bool)
    requires Capped(s) && ServesSlices(data, s.revision, 0, answers) && |answers| >= |data| && answers != []
    ensures Choices(Some(s), c, project, answers, refreshFails) == Loaded(Choosable(c, project, data))
  {
    assert data[..0] == [];
    SlicesLoad(data, s.revision, 0, None, answers);
  }

  /******* What may be chosen *******/

  /** `picked` holds the rows at the places `at`, in their order, and these are
      exactly the places of rows that belong to the requested project, where
      one was requested and the rows have one, and are not archived. */
  ghost predicate Picks(c: Collection, project: Option<Option<string>>, rows: seq<Row>, picked: seq<Row>, at: seq<nat>) {
    && |at| == |picked|
    && (forall i, j :: 0 <= i < j < |at| ==> at[i] < at[j])
    && (forall j :: 0 <= j < |at| ==> at[j] < |rows| && picked[j] == rows[at[j]])
    && forall i: nat :: i < |rows| ==>
         (i in at <==> (project.Some? && c != Projects ==> rows[i].project == project.value) && (c != Statuses ==> !rows[i].archived))
  }

  /** The places after one more row in front. */
  function After(first: bool, at: seq<nat>): seq<nat> {
    (if first then [0] else []) + seq(|at|, j requires 0 <= j < |at| => at[j] + 1)
  }

  lemma AfterHas(first: bool, at: seq<nat>, i: nat)
    ensures i in After(first, at) <==> if i == 0 then first else i - 1 in at
  {
    var at', n := After(first, at), if first then 1 else 0;
    if i in at' && i > 0 {
      var j :| 0 <= j < |at'| && at'[j] == i;
      assert at[j - n] == i - 1;
    }
    if i > 0 && i - 1 in at {
      var j :| 0 <= j < |at| && at[j] == i - 1;
      assert at'[j + n] == i;
    }
  }

  /** The rows stay at their places, and the places in their order. */
  lemma AfterPlaces(first: bool, rows: seq<Row>, picked: seq<Row>, at: seq<nat>)
    requires rows != [] && |at| == |picked| && (forall i, j :: 0 <= i < j < |at| ==> at[i] < at[j])
    requires forall j :: 0 <= j < |at| ==> at[j] < |rows| - 1 && picked[j] == rows[1..][at[j]]
    ensures var at', picked' := After(first, at), (if first then [rows[0]] else []) + picked;
            && |at'| == |picked'| && (forall i, j :: 0 <= i < j < |at'| ==> at'[i] < at'[j])
            && forall j :: 0 <= j < |at'| ==> at'[j] < |rows| && picked'[j] == rows[at'[j]]
  {
    var at', picked', n := After(first, at), (if first then [rows[0]] else []) + picked, if first then 1 else 0;
    forall j | n <= j < |at'| ensures at'[j] == at[j - n] + 1 && picked'[j] == rows[at'[j]] { }
  }

  lemma PicksOneMore(c: Collection, project: Option<Option<string>>, rows: seq<Row>, picked: seq<Row>, at: seq<nat>)
    requires rows != [] && Picks(c, project, rows[1..], picked, at)
    ensures var first := Offered(c, project, rows[0]);
            Picks(c, project, rows, (if first then [rows[0]] else []) + picked, After(first, at))
  {
    var first := Offered(c, project, rows[0]);
    AfterPlaces(first, rows, picked, at);
    forall i: nat | i < |rows|
      ensures i in After(first, at) <==>
              (project.Some? && c != Projects ==> rows[i].project == project.value) && (c != Statuses ==> !rows[i].archived)
    {
      AfterHas(first, at, i);
      if i > 0 { assert rows[i] == rows[1..][i - 1]; }
    }
  }

  lemma {:induction false} ChoosablePicks(c: Collection, project: Option<Option<string>>, rows: seq<Row>) returns (at: seq<nat>)
    ensures Picks(c, project, rows, Choosable(c, project, rows), at)
  {
    if rows == [] {
      at := [];
    } else {
      var rest := ChoosablePicks(c, project, rows[1..]);
      PicksOneMore(c, project, rows, Choosable(c, project, rows[1..]), rest);
      at := After(Offered(c, project, rows[0]), rest);
    }
  }

  /** The rows that are there to choose from: those of a summary known to show
      them all, otherwise those of one complete reading. */
  ghost predicate Available(s: Summary, answers: seq<Answer>, rows: seq<Row>) {
    if (s.knownTotal.Some? && s.knownTotal.value <= |s.visible|)
       || (s.knownTotal.None? && (s.limit.Some? ==> |s.visible| < s.limit.value))
    then rows == s.visible else EndsIn(s.revision, answers, 0, rows)
  }

  /** The choices load exactly if there are rows to choose from, and then they
      are those of the requested project that are not archived: every one of
      them, as often as it occurs, in the order of the rows. */
  lemma ChoicesArePicked(s: Summary, c: Collection, project: Option<Option<string>>, answers: seq<Answer>, refreshFails: bool)
    ensures var r := Choices(Some(s), c, project, answers, refreshFails);
            && (r.Loaded? <==> exists rows :: Available(s, answers, rows))
            && (r.Loaded? ==> exists rows, at :: Available(s, answers, rows) && Picks(c, project, rows, r.rows, at))
  {
    if Capped(s) {
      var filled := Fill(s.revision, 0, None, [], answers);
      forall rows ensures filled == Loaded(rows) <==> EndsIn(s.revision, answers, 0, rows) {
        LoadedIffComplete(s.revision, answers, rows);
      }
      if filled.Loaded? {
        var at := ChoosablePicks(c, project, filled.rows);
        assert Available(s, answers, filled.rows);
      }
    } else {
      var at := ChoosablePicks(c, project, s.visible);
      assert Available(s, answers, s.visible);
    }
  }

  /** What a failed load reports is the fault of the answer that ended it, except
      that a changed revision whose refresh fails too is reported as that. */
  lemma ReportsTheFault(s: Summary, c: Collection, project: Option<Option<string>>, answers: seq<Answer>, refreshFails: bool)
    ensures var r := Choices(Some(s), c, project, answers, refreshFails);
            r.Failed? ==> exists k, t, e :: FaultAt(s.revision, t, answers, k, e)
                                            && r.error == if e == RevisionChanged && refreshFails then RefreshFailed else e
  {
    assert PagesOf(answers[..0]) == [] && answers[0..] == answers;
    assert TakenUpTo(s.revision, None, answers, 0) && Taken(answers, 0) == [];
    FailsAt(s.revision, None, answers, 0);
  }

  class ChoiceLoader {
    var pageLoading: bool
    var pageError: Option<Error>

    constructor ()
      ensures !pageLoading && pageError.None?
    {
      pageLoading, pageError := false, None;
    }

    /** `refreshing` tells whether another refresh is under way when the
        revision turns out to have changed; otherwise this call refreshes, and
        `refreshFails` tells how that ends. */
    method CompleteChoices(
        s: Option<Summary>, c: Collection, project: Option<Option<string>>, answers: seq<Answer>,
        refreshing: bool, refreshFails: bool)
      returns (r: Outcome, asked: seq<Request>)
      modifies this
      ensures r == Choices(s, c, project, answers, refreshFails && !refreshing)
      ensures asked == if s.Some? && Capped(s.value) then Asked(s.value.revision, 0, None, 0, answers) else []
      ensures s.Some? ==> pageError == if r.Failed? then Some(r.error) else None
      ensures s.Some? && Capped(s.value) ==> (pageLoading <==> r.Waiting?)
    {
      asked := [];
      if s.None? {
        return Failed(NoSnapshot), [];
      }
      pageError := None;
      if !Capped(s.value) {
        return Loaded(Choosable(c, project, s.value.visible)), [];
      }
      pageLoading := true;
      r, asked := FillPages(s.value.revision, answers);
      match r {
        case Waiting =>
        case Loaded(rows) =>
          r := Loaded(Choosable(c, project, rows));
          pageLoading := false;
        case Failed(error) =>
          if error.RevisionChanged? && !refreshing && refreshFails {
            r := Failed(RefreshFailed);
          }
          pageError := Some(r.error);
          pageLoading := false;
      }
    }
  }
}

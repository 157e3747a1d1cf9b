/** RevisionRefreshCoordinator: many refresh requests, one status read at a
    time, and a resnapshot request that no interleaving can lose. Generic in
    the snapshot, of which only the revision matters here. */
module Coordinator {
  import opened Wrappers

  datatype Coord<S> = Coord(
    inFlight: Option<nat>,      // the promise of the current read
    revision: Option<nat>,
    model: Option<S>,
    resnapshotRequested: bool,
    readCount: nat)                 // reads started so far

  /** How a request is served: `read` settles it, or `model` does at once.
      `started` is the cursor of a newly started read; `chained` requests call
      refresh again when `read` resolves. */
  datatype Served<S> =
    | Joined(read: nat, started: Option<Option<nat>>, chained: bool)
    | Immediate(model: S)

  function Fresh<S>(): Coord<S> {
    Coord(None, None, None, false, 0)
  }

  function Refresh<S>(c: Coord<S>, resnapshot: bool): (Coord<S>, Served<S>) {
    var c1 := if resnapshot then c.(resnapshotRequested := true) else c;
    if c1.inFlight.Some? then (c1, Joined(c1.inFlight.value, None, resnapshot))
    else
      var cursor := if c1.resnapshotRequested then None else c1.revision;
      (c1.(inFlight := Some(c1.readCount), resnapshotRequested := false, readCount := c1.readCount + 1),
       Joined(c1.readCount, Some(cursor), false))
  }

  predicate Missed<S>(c: Coord<S>, observed: nat) {
    c.revision.Some? && (observed < c.revision.value || observed > c.revision.value + 1)
  }

  function NotifyRevision<S>(c: Coord<S>, observed: Option<nat>): (Coord<S>, Served<S>) {
    if observed.Some? && c.revision == observed && c.model.Some? then (c, Immediate(c.model.value))
    else Refresh(c, observed.Some? && Missed(c, observed.value))
  }

  function ReadSettled<S>(c: Coord<S>, result: Option<(nat, S)>): Coord<S> {
    match result
    case Some((revision, model)) => c.(revision := Some(revision), model := Some(model), inFlight := None)
    case None => c.(inFlight := None)
  }

  class RevisionRefreshCoordinator<S(!new)> {
    var inFlight: Option<nat>
    var revision: Option<nat>
    var model: Option<S>
    var resnapshotRequested: bool
    var readCount: nat

    ghost function State(): Coord<S>
      reads this
    {
      Coord(inFlight, revision, model, resnapshotRequested, readCount)
    }

    constructor ()
      ensures State() == Fresh()
    {
      inFlight, revision, model, resnapshotRequested, readCount := None, None, None, false, 0;
    }

    method RefreshNow(resnapshot: bool) returns (served: Served<S>)
      modifies this
      ensures (State(), served) == Refresh(old(State()), resnapshot)
    {
      if resnapshot {
        resnapshotRequested := true;
      }
      if inFlight.Some? {
        return Joined(inFlight.value, None, resnapshot);
      }
      var cursor := if resnapshotRequested then None else revision;
      resnapshotRequested := false;
      inFlight := Some(readCount);
      readCount := readCount + 1;
      served := Joined(readCount - 1, Some(cursor), false);
    }

    method Notify(observed: Option<nat>) returns (served: Served<S>)
      modifies this
      ensures (State(), served) == NotifyRevision(old(State()), observed)
    {
      if observed.Some? && revision == observed && model.Some? {
        return Immediate(model.value);
      }
      var missed := observed.Some? && revision.Some?
                    && (observed.value < revision.value || observed.value > revision.value + 1);
      served := RefreshNow(missed);
    }

    /** The continuation of the awaited read; failures arrive as rejections. */
    method Settle(result: Option<(nat, S)>)
      modifies this
      ensures State() == ReadSettled(old(State()), result)
    {
      if result.Some? {
        revision := Some(result.value.0);
        model := Some(result.value.1);
      }
      inFlight := None;
    }
  }

  /******* Every sequence of calls and answers *******/

  datatype Step<S> = CallRefresh(resnapshot: bool) | CallNotify(observed: Option<nat>) | Answer(result: Option<(nat, S)>)

  function Next<S>(c: Coord<S>, s: Step<S>): Coord<S> {
    match s
    case CallRefresh(resnapshot) => Refresh(c, resnapshot).0
    case CallNotify(observed) => NotifyRevision(c, observed).0
    case Answer(result) => if c.inFlight.Some? then ReadSettled(c, result) else c
  }

  function StartedBy<S>(c: Coord<S>, s: Step<S>): Option<Option<nat>> {
    match s
    case CallRefresh(resnapshot) => Refresh(c, resnapshot).1.started
    case CallNotify(observed) =>
      var served := NotifyRevision(c, observed).1;
      if served.Joined? then served.started else None
    case Answer(_) => None
  }

  /** The step asks for a resnapshot: directly, or by a notification that skips a revision. */
  predicate Resnapshots<S>(c: Coord<S>, s: Step<S>) {
    match s
    case CallRefresh(resnapshot) => resnapshot
    case CallNotify(observed) =>
      observed.Some? && Missed(c, observed.value)
    case Answer(_) => false
  }

  function After<S>(c: Coord<S>, steps: seq<Step<S>>): Coord<S>
    decreases |steps|
  {
    if steps == [] then c else After(Next(c, steps[0]), steps[1..])
  }

  /** The cursors of the reads started along a run, in order. */
  function Starts<S>(c: Coord<S>, steps: seq<Step<S>>): seq<Option<nat>>
    decreases |steps|
  {
    if steps == [] then []
    else
      var started := StartedBy(c, steps[0]);
      (if started.Some? then [started.value] else []) + Starts(Next(c, steps[0]), steps[1..])
  }

  function AnsweredReads<S>(c: Coord<S>, steps: seq<Step<S>>): nat
    decreases |steps|
  {
    if steps == [] then 0
    else (if steps[0].Answer? && c.inFlight.Some? then 1 else 0) + AnsweredReads(Next(c, steps[0]), steps[1..])
  }

  /** A requested resnapshot stays owed through any failures and plain
      refreshes: the first read that starts carries a null cursor. */
  lemma {:induction false} OwedUntilStarted<S>(c: Coord<S>, steps: seq<Step<S>>)
    requires c.resnapshotRequested
    ensures var started := Starts(c, steps);
            if started != [] then started[0].None? else After(c, steps).resnapshotRequested
    decreases |steps|
  {
    if steps != [] {
      if StartedBy(c, steps[0]).None? {
        OwedUntilStarted(Next(c, steps[0]), steps[1..]);
      }
    }
  }

  lemma ResnapshotNeverLost<S>(c: Coord<S>, request: Step<S>, later: seq<Step<S>>)
    requires Resnapshots(c, request)
    ensures var started := Starts(c, [request] + later);
            if started != [] then started[0].None? else After(c, [request] + later).resnapshotRequested
  {
    assert ([request] + later)[1..] == later;
    if StartedBy(c, request).None? {
      OwedUntilStarted(Next(c, request), later);
    }
  }

  /** At most one status read is outstanding at any point of any run. */
  lemma {:induction false} OneReadAtATime<S>(c: Coord<S>, steps: seq<Step<S>>)
    ensures |Starts(c, steps)| + (if c.inFlight.Some? then 1 else 0)
            == AnsweredReads(c, steps) + (if After(c, steps).inFlight.Some? then 1 else 0)
    decreases |steps|
  {
    if steps != [] {
      OneReadAtATime(Next(c, steps[0]), steps[1..]);
    }
  }

  /******* What a caller is given *******/

  /** The last answer that a read brought back along a run. */
  function LastRead<S>(c: Coord<S>, steps: seq<Step<S>>, last: Option<(nat, S)>): Option<(nat, S)>
    decreases |steps|
  {
    if steps == [] then last
    else
      LastRead(Next(c, steps[0]), steps[1..],
               if steps[0].Answer? && steps[0].result.Some? && c.inFlight.Some? then steps[0].result else last)
  }

  ghost predicate Holds<S>(c: Coord<S>, last: Option<(nat, S)>) {
    if last.None? then c.revision.None? && c.model.None?
    else c.revision == Some(last.value.0) && c.model == Some(last.value.1)
  }

  lemma {:induction false} HoldsLastRead<S>(c: Coord<S>, steps: seq<Step<S>>, last: Option<(nat, S)>)
    requires Holds(c, last)
    ensures Holds(After(c, steps), LastRead(c, steps, last))
    decreases |steps|
  {
    if steps != [] {
      HoldsLastRead(Next(c, steps[0]), steps[1..],
                    if steps[0].Answer? && steps[0].result.Some? && c.inFlight.Some? then steps[0].result else last);
    }
  }

  /** The observed revision is neither the last one read nor the one after it. */
  predicate Skips<S>(last: Option<(nat, S)>, observed: Option<nat>) {
    observed.Some? && last.Some? && observed.value != last.value.0 && observed.value != last.value.0 + 1
  }

  /** The request waits for a status read: the one in flight, or one it starts. */
  ghost predicate WaitsForRead<S>(c: Coord<S>, c': Coord<S>, served: Served<S>, last: Option<(nat, S)>, skips: bool) {
    && served.Joined? && c'.inFlight == Some(served.read) && c'.revision == c.revision && c'.model == c.model
    && if c.inFlight.Some? then
         && served.read == c.inFlight.value && served.started.None? && c'.readCount == c.readCount
         && served.chained == skips && c'.resnapshotRequested == (c.resnapshotRequested || skips)
       else
         && served.read == c.readCount && c'.readCount == c.readCount + 1 && !served.chained && !c'.resnapshotRequested
         && served.started == Some(if c.resnapshotRequested || skips || last.None? then None else Some(last.value.0))
  }

  lemma NotifyServed<S>(c: Coord<S>, observed: Option<nat>, last: Option<(nat, S)>)
    requires Holds(c, last)
    ensures var (c', served) := NotifyRevision(c, observed);
            if observed.Some? && last.Some? && observed.value == last.value.0 then served == Immediate(last.value.1) && c' == c
            else WaitsForRead(c, c', served, last, Skips(last, observed))
  {
  }

  /** In every run a notification is answered without a read exactly if it names
      the revision of the last answer that a read brought back, and then with
      that answer. Any other waits for a read; one that it starts carries that
      revision as its cursor unless a resnapshot is owed or a revision was skipped. */
  lemma NotificationServed<S>(steps: seq<Step<S>>, observed: Option<nat>)
    ensures var c := After(Fresh<S>(), steps);
            var last := LastRead(Fresh<S>(), steps, None);
            var (c', served) := NotifyRevision(c, observed);
            if observed.Some? && last.Some? && observed.value == last.value.0 then served == Immediate(last.value.1) && c' == c
            else WaitsForRead(c, c', served, last, Skips(last, observed))
  {
    HoldsLastRead(Fresh<S>(), steps, None);
    NotifyServed(After(Fresh<S>(), steps), observed, LastRead(Fresh<S>(), steps, None));
  }

  /** A refresh always waits for a read, and skips nothing. */
  lemma RefreshServed<S>(steps: seq<Step<S>>, resnapshot: bool)
    ensures var c := After(Fresh<S>(), steps);
            var (c', served) := Refresh(c, resnapshot);
            WaitsForRead(c, c', served, LastRead(Fresh<S>(), steps, None), resnapshot)
  {
    HoldsLastRead(Fresh<S>(), steps, None);
  }

  /** A resnapshot was asked for, and no read has started since. */
  function Owes<S>(c: Coord<S>, steps: seq<Step<S>>, owed: bool): bool
    decreases |steps|
  {
    if steps == [] then owed
    else Owes(Next(c, steps[0]), steps[1..], StartedBy(c, steps[0]).None? && (owed || Resnapshots(c, steps[0])))
  }

  lemma {:induction false} OwedIffAskedSince<S>(c: Coord<S>, steps: seq<Step<S>>)
    ensures After(c, steps).resnapshotRequested <==> Owes(c, steps, c.resnapshotRequested)
    decreases |steps|
  {
    if steps != [] {
      OwedIffAskedSince(Next(c, steps[0]), steps[1..]);
    }
  }
}

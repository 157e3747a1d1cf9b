/** GlobalController.refresh: calls made while a read runs share its promise
    and have the loop read once more. */
module GlobalRefresh {
  /** Finishing: the loop has ended, its promise is not yet cleared. */
  datatype Phase = Idle | Reading | Finishing(ok: bool)

  /** `readCount` counts the snapshot reads started. */
  datatype Loop = Loop(phase: Phase, queued: bool, readCount: nat)

  datatype Step = Call | ReadEnds(ok: bool) | Clear

  function Take(l: Loop, s: Step): Loop {
    match s
    case Call => if l.phase.Idle? then Loop(Reading, false, l.readCount + 1) else l.(queued := true)
    case ReadEnds(ok) =>
      if !l.phase.Reading? then l
      else if ok && l.queued then Loop(Reading, false, l.readCount + 1)
      else l.(phase := Finishing(ok))
    case Clear => if l.phase.Finishing? then l.(phase := Idle) else l
  }

  function TakeAll(l: Loop, steps: seq<Step>): Loop
    decreases |steps|
  {
    if steps == [] then l else TakeAll(Take(l, steps[0]), steps[1..])
  }

  class Refresher {
    var refreshing: bool           // refreshingPromise is set
    var running: bool              // the loop inside it has not ended
    var refreshQueued: bool
    var succeeded: bool
    ghost var readCount: nat

    ghost predicate Valid()
      reads this
    {
      running ==> refreshing
    }

    ghost function State(): Loop
      reads this
    {
      Loop(if running then Reading else if refreshing then Finishing(succeeded) else Idle, refreshQueued, this.readCount)
    }

    constructor ()
      ensures Valid() && State() == Loop(Idle, false, 0)
    {
      refreshing, running, refreshQueued, succeeded, readCount := false, false, false, false, 0;
    }

    method Refresh() returns (started: bool)
      requires Valid()
      modifies this
      ensures Valid() && State() == Take(old(State()), Call)
      ensures started <==> State().readCount == old(State()).readCount + 1
    {
      refreshQueued := true;
      if refreshing {
        return false;
      }
      refreshing, running := true, true;
      refreshQueued := false;
      readCount := readCount + 1;
      started := true;
    }

    /** The rest of one turn of the loop, and the start of the next. */
    method OnRead(ok: bool) returns (again: bool)
      requires Valid()
      modifies this
      ensures Valid() && State() == Take(old(State()), ReadEnds(ok))
      ensures again <==> State().readCount == old(State()).readCount + 1
    {
      if !running {
        return false;
      }
      if ok && refreshQueued {
        refreshQueued := false;
        readCount := readCount + 1;
        return true;
      }
      running, succeeded := false, ok;
      again := false;
    }

    method ClearPromise()
      requires Valid()
      modifies this
      ensures Valid() && State() == Take(old(State()), Clear)
    {
      if !running {
        refreshing := false;
      }
    }
  }

  /** The promise a caller holds settles with the last of these steps. */
  ghost predicate Settles(l: Loop, steps: seq<Step>, ok: bool)
    decreases |steps|
  {
    if l.phase.Finishing? then steps == [] && l.phase.ok == ok
    else l.phase.Reading? && steps != [] && Settles(Take(l, steps[0]), steps[1..], ok)
  }

  lemma {:induction false} QueuedIsRead(l: Loop, steps: seq<Step>, before: nat)
    requires Settles(l, steps, true) && l.readCount >= before && (l.readCount > before || (l.phase.Reading? && l.queued))
    ensures TakeAll(l, steps).readCount > before
    decreases |steps|
  {
    if steps != [] {
      QueuedIsRead(Take(l, steps[0]), steps[1..], before);
    }
  }

  /** A call whose promise resolves had a read started at it or after it -
      exactly unless it came when the loop had ended and its promise was not yet cleared. */
  lemma CallIsServedIff(l: Loop, steps: seq<Step>)
    requires Settles(Take(l, Call), steps, true)
    ensures TakeAll(Take(l, Call), steps).readCount > l.readCount <==> !l.phase.Finishing?
  {
    if !l.phase.Finishing? {
      QueuedIsRead(Take(l, Call), steps, l.readCount);
    }
  }

  /** And what such a call queued is forgotten: no read follows from it. */
  lemma LateCallIsForgotten(l: Loop)
    requires l.phase.Finishing?
    ensures TakeAll(l, [Call, Clear]).readCount == l.readCount && TakeAll(l, [Call, Clear]).phase.Idle?
    ensures TakeAll(l, [Call, Clear, Call]) == TakeAll(l, [Clear, Call])
  {
    assert [Call, Clear][1..] == [Clear] && [Clear][1..] == [];
    assert [Call, Clear, Call][1..] == [Clear, Call] && [Clear, Call][1..] == [Call] && [Call][1..] == [];
    assert TakeAll(l, [Call, Clear]) == TakeAll(Take(Take(l, Call), Clear), []);
    assert TakeAll(l, [Call, Clear, Call]) == TakeAll(Take(Take(Take(l, Call), Clear), Call), []);
    assert TakeAll(l, [Clear, Call]) == TakeAll(Take(Take(l, Clear), Call), []);
  }

  /** A call that came while a read ran has one more read started when that one
      succeeds, and only one: with no further call the loop ends after it. A
      failed read ends the loop at once. */
  lemma LoopEnds(l: Loop, ok: bool, again: bool)
    requires l.phase.Reading?
    ensures TakeAll(l, [ReadEnds(ok), ReadEnds(again)])
            == if ok && l.queued then Loop(Finishing(again), false, l.readCount + 1)
               else Loop(Finishing(ok), l.queued, l.readCount)
  {
    assert [ReadEnds(ok), ReadEnds(again)][1..] == [ReadEnds(again)] && [ReadEnds(again)][1..] == [];
    assert TakeAll(l, [ReadEnds(ok), ReadEnds(again)]) == TakeAll(Take(Take(l, ReadEnds(ok)), ReadEnds(again)), []);
  }

  function CallsIn(steps: seq<Step>): nat {
    if steps == [] then 0 else (if steps[0].Call? then 1 else 0) + CallsIn(steps[1..])
  }

  /** The read that the running loop still owes. */
  function Owed(l: Loop): nat {
    if l.phase.Reading? && l.queued then 1 else 0
  }

  /** No reading without being asked: in every run the reads started, and the
      one still owed, are no more than the calls made. */
  lemma {:induction false} ReadsAreAskedFor(l: Loop, steps: seq<Step>)
    ensures var l' := TakeAll(l, steps); l'.readCount + Owed(l') <= l.readCount + Owed(l) + CallsIn(steps)
    decreases |steps|
  {
    if steps != [] {
      ReadsAreAskedFor(Take(l, steps[0]), steps[1..]);
    }
  }
}

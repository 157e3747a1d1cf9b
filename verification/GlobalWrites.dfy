/** Writes of the Global manager: one request per connection, never retried,
    and a write whose answer cannot be trusted freezes all further writes
    until the operation is looked up. */
module GlobalWrites {
  import opened Wrappers
  import opened Framing

  const MAX_FRAME_BYTES := 0x10_0000

  /** What the reader of an error may rely on (GlobalProtocolError). */
  datatype ProtocolError = ProtocolError(unknownOutcome: bool, operationId: Option<string>, readbackRequired: bool, errorCode: Option<string>)

  const PLAIN := ProtocolError(false, None, false, None)

  function Untrusted(id: string): ProtocolError {
    ProtocolError(true, Some(id), true, None)
  }

  /** deliveryFailure. */
  function DeliveryFailure(id: string, mutation: bool): ProtocolError {
    if mutation then Untrusted(id) else PLAIN
  }

  /******* One connection *******/

  datatype SocketEvent = Connected | Chunk(bytes: Bytes) | WriteFailed | SocketError | SocketEnd | SocketTimeout

  /** A response body read as JSON, as far as the client looks at it. */
  datatype Response = Response(
    requestId: Option<string>, knownFields: bool, hasError: bool, payload: Option<Envelope>)

  datatype Detail = NoDetail | Malformed | Detailed(code: string)

  /** The text fields are None when they are not strings. `wellVersioned`
      covers the field names and the two version strings. */
  datatype Envelope = Envelope(
    wellVersioned: bool, operationId: Option<string>, outcome: Option<string>, transport: Option<string>,
    error: Detail, revisionOk: bool, timeOk: bool, hasData: bool)

  type Json = Bytes -> Option<Response>

  datatype Conn = Conn(received: Bytes, wrote: bool, settled: Option<Result<Response, ProtocolError>>)

  const OPENING := Conn([], false, None)

  /** `finish(error)`: once bytes were written, every failure of a mutation is untrusted. */
  function Fail(c: Conn, id: string, mutation: bool): Conn {
    if c.settled.Some? then c
    else c.(settled := Some(Err(if c.wrote && mutation then Untrusted(id) else PLAIN)))
  }

  /** The `data` handler: exactly one frame, nothing after it in the same read. */
  function Consume(c: Conn, id: string, mutation: bool, json: Json): Conn {
    if |c.received| < HEADER then c
    else
      var size := ReadHeader(c.received);
      if size > MAX_FRAME_BYTES then Fail(c, id, mutation)
      else if |c.received| < size + HEADER then c
      else if |c.received| != size + HEADER then Fail(c, id, mutation)
      else match json(c.received[HEADER..])
        case None => Fail(c, id, mutation)
        case Some(response) =>
          if response.requestId != Some(id) then Fail(c, id, mutation)
          else if c.settled.Some? then c
          else c.(settled := Some(Ok(response)))
  }

  function OnSocket(c: Conn, e: SocketEvent, id: string, mutation: bool, json: Json): Conn {
    match e
    case Connected => c.(wrote := true)
    case Chunk(bytes) => Consume(c.(received := c.received + bytes), id, mutation, json)
    case WriteFailed | SocketError | SocketEnd | SocketTimeout => Fail(c, id, mutation)
  }

  function Traffic(c: Conn, events: seq<SocketEvent>, id: string, mutation: bool, json: Json): Conn
    decreases |events|
  {
    if events == [] then c else Traffic(OnSocket(c, events[0], id, mutation, json), events[1..], id, mutation, json)
  }

  /** Bytes arrive only after the connection is made. */
  ghost predicate Plausible(events: seq<SocketEvent>, wrote: bool)
    decreases |events|
  {
    events == [] || ((events[0].Chunk? ==> wrote) && Plausible(events[1..], wrote || events[0].Connected?))
  }

  /******* One answer *******/

  datatype Answered = Done | Refused(failure: ProtocolError)

  /** `execute` after the round trip, in the order of its tests. */
  function Judge(id: string, mutation: bool, r: Response): Answered {
    var untrusted := Refused(DeliveryFailure(id, mutation));
    if !r.knownFields || r.requestId != Some(id) || r.hasError || r.payload.None? then untrusted
    else
      var e := r.payload.value;
      if !e.wellVersioned || e.operationId != Some(id) || e.outcome.None? || e.transport.None? then untrusted
      else if e.error.Malformed? || !e.revisionOk || !e.timeOk || e.transport != Some("ok") then untrusted
      else if e.outcome == Some("conflict") || e.outcome == Some("busy") then
        (if e.error.NoDetail? then untrusted else Refused(PLAIN.(errorCode := Some(e.error.code))))
      else if e.outcome != Some("changed") && e.outcome != Some("unchanged") && e.outcome != Some("rejected") then untrusted
      else if e.outcome == Some("rejected") then
        (if e.error.NoDetail? then untrusted else Refused(PLAIN.(errorCode := Some(e.error.code))))
      else if !e.hasData then untrusted
      else Done
  }

  /** A definite refusal of this very operation, with its reason. */
  predicate DefiniteRefusal(id: string, r: Response) {
    && r.knownFields && r.requestId == Some(id) && !r.hasError && r.payload.Some?
    && var e := r.payload.value;
       && e.wellVersioned && e.operationId == Some(id) && e.transport == Some("ok")
       && e.revisionOk && e.timeOk && e.error.Detailed?
       && e.outcome.Some? && e.outcome.value in {"conflict", "busy", "rejected"}
  }

  predicate DefiniteSuccess(id: string, r: Response) {
    && r.knownFields && r.requestId == Some(id) && !r.hasError && r.payload.Some?
    && var e := r.payload.value;
       && e.wellVersioned && e.operationId == Some(id) && e.transport == Some("ok")
       && e.revisionOk && e.timeOk && !e.error.Malformed? && e.hasData
       && e.outcome.Some? && e.outcome.value in {"changed", "unchanged"}
  }

  /** `execute`: `body` is the length of the encoded request. None while no event has settled it. */
  function Execute(id: string, mutation: bool, body: nat, events: seq<SocketEvent>, json: Json): Option<Answered> {
    if body > MAX_FRAME_BYTES then Some(Refused(PLAIN))
    else match Traffic(OPENING, events, id, mutation, json).settled
      case None => None
      case Some(Err(failure)) => Some(Refused(failure))
      case Some(Ok(response)) => Some(Judge(id, mutation, response))
  }

  predicate Freezes(f: ProtocolError) {
    f.unknownOutcome || f.readbackRequired
  }

  lemma JudgeMeans(id: string, r: Response)
    ensures Judge(id, true, r).Done? <==> DefiniteSuccess(id, r)
    ensures Judge(id, true, r).Refused? ==>
              if DefiniteRefusal(id, r) then Judge(id, true, r).failure == PLAIN.(errorCode := Some(r.payload.value.error.code))
              else Judge(id, true, r).failure == Untrusted(id)
    ensures DefiniteRefusal(id, r) ==> Judge(id, true, r).Refused?
  {
  }

  /** The request had been written when the connection settled, or when the events ended. */
  ghost predicate WroteInTime(c: Conn, events: seq<SocketEvent>, id: string, json: Json)
    decreases |events|
  {
    if c.settled.Some? || events == [] then c.wrote
    else WroteInTime(OnSocket(c, events[0], id, true, json), events[1..], id, json)
  }

  /** A mutation's connection fails with an ordinary error only while nothing
      was written; after the write every failure names the operation. */
  lemma {:induction false} TrafficMeans(c: Conn, events: seq<SocketEvent>, id: string, json: Json)
    requires c.settled.None? && Plausible(events, c.wrote) && (|c.received| > 0 ==> c.wrote)
    ensures var settled := Traffic(c, events, id, true, json).settled;
            var wrote := WroteInTime(c, events, id, json);
            && (settled.Some? && settled.value.Err? ==> settled.value.error == if wrote then Untrusted(id) else PLAIN)
            && (settled.Some? && settled.value.Ok? ==> wrote && settled.value.value.requestId == Some(id))
    decreases |events|
  {
    if events != [] {
      var c' := OnSocket(c, events[0], id, true, json);
      if c'.settled.Some? {
        StaysSettled(c', events[1..], id, true, json);
      } else {
        TrafficMeans(c', events[1..], id, json);
      }
    }
  }

  /** The bytes that arrived. */
  function Arrived(events: seq<SocketEvent>): Bytes {
    if events == [] then []
    else (if events[0].Chunk? then events[0].bytes else []) + Arrived(events[1..])
  }

  /** One event settles the connection with a response only where all that has
      arrived is one whole frame. */
  lemma EventTakesFrame(c: Conn, e: SocketEvent, id: string, mutation: bool, json: Json, r: Response)
    requires c.settled.None? && OnSocket(c, e, id, mutation, json).settled == Some(Ok(r))
    ensures e.Chunk? && FrameFor(c.received + e.bytes, id, json, r)
  {
  }

  lemma EventReceives(c: Conn, e: SocketEvent, id: string, mutation: bool, json: Json)
    ensures OnSocket(c, e, id, mutation, json).received == c.received + Arrived([e])
  {
  }

  /** What one event adds comes in front of what the later ones add. */
  lemma ReceivedLater(c: Conn, events: seq<SocketEvent>, k: nat, id: string, mutation: bool, json: Json)
    requires 0 < k <= |events|
    ensures c.received + Arrived(events[..k]) == OnSocket(c, events[0], id, mutation, json).received + Arrived(events[1..][..k - 1])
  {
    var first, later := Arrived([events[0]]), Arrived(events[1..][..k - 1]);
    EventReceives(c, events[0], id, mutation, json);
    assert events[..k][1..] == events[1..][..k - 1];
    assert Arrived(events[..k]) == first + later && c.received + (first + later) == (c.received + first) + later;
  }

  /** Whatever happens on its connection, a response is taken only where the
      bytes that have arrived at some point are one whole frame within the
      limit and nothing else, and correlate. */
  lemma {:induction false} TakesOneFrame(c: Conn, events: seq<SocketEvent>, id: string, mutation: bool, json: Json, r: Response) returns (k: nat)
    requires c.settled.None? && Traffic(c, events, id, mutation, json).settled == Some(Ok(r))
    ensures k <= |events| && FrameFor(c.received + Arrived(events[..k]), id, json, r)
    decreases |events|
  {
    var c' := OnSocket(c, events[0], id, mutation, json);
    if c'.settled.Some? {
      StaysSettled(c', events[1..], id, mutation, json);
      EventTakesFrame(c, events[0], id, mutation, json, r);
      EventReceives(c, events[0], id, mutation, json);
      k := 1;
      assert events[..1] == [events[0]];
    } else {
      var n := TakesOneFrame(c', events[1..], id, mutation, json, r);
      k := n + 1;
      ReceivedLater(c, events, k, id, mutation, json);
    }
  }

  lemma {:induction false} StaysSettled(c: Conn, events: seq<SocketEvent>, id: string, mutation: bool, json: Json)
    requires c.settled.Some?
    ensures Traffic(c, events, id, mutation, json).settled == c.settled
    decreases |events|
  {
    if events != [] {
      StaysSettled(OnSocket(c, events[0], id, mutation, json), events[1..], id, mutation, json);
    }
  }

  /** A frame announced as larger than the limit fails the connection with its header. */
  lemma OversizedFails(c: Conn, bytes: Bytes, id: string, json: Json)
    requires c.settled.None? && |c.received + bytes| >= HEADER && ReadHeader(c.received + bytes) > MAX_FRAME_BYTES
    ensures var settled := OnSocket(c, Chunk(bytes), id, true, json).settled;
            settled == Some(Err(if c.wrote then Untrusted(id) else PLAIN))
  {
  }

  function Arrivals(chunks: seq<Bytes>): seq<SocketEvent> {
    seq(|chunks|, k requires 0 <= k < |chunks| => Chunk(chunks[k]))
  }

  ghost predicate FrameFor(frame: Bytes, id: string, json: Json, r: Response) {
    && |frame| >= HEADER && ReadHeader(frame) <= MAX_FRAME_BYTES && |frame| == HEADER + ReadHeader(frame)
    && json(frame[HEADER..]) == Some(r) && r.requestId == Some(id)
  }

  lemma ConcatFirst(chunks: seq<Bytes>, k: nat)
    requires 0 < k <= |chunks|
    ensures Concat(chunks[..k]) == chunks[0] + Concat(chunks[1..][..k - 1])
  {
    assert chunks[..k][1..] == chunks[1..][..k - 1];
  }

  /** Some chunk ends where the frame ends. */
  ghost predicate CutAtEnd(before: Bytes, chunks: seq<Bytes>, frame: Bytes) {
    exists k :: 0 < k <= |chunks| && before + Concat(chunks[..k]) == frame
  }

  lemma CutMoves(before: Bytes, chunks: seq<Bytes>, frame: Bytes)
    requires chunks != []
    ensures CutAtEnd(before, chunks, frame) <==> before + chunks[0] == frame || CutAtEnd(before + chunks[0], chunks[1..], frame)
  {
    var rest := chunks[1..];
    assert before + Concat(chunks[..1]) == before + chunks[0] by { ConcatFirst(chunks, 1); }
    forall k | 0 < k <= |rest|
      ensures before + chunks[0] + Concat(rest[..k]) == before + Concat(chunks[..k + 1])
    {
      ConcatFirst(chunks, k + 1);
    }
    if k :| 0 < k <= |chunks| && before + Concat(chunks[..k]) == frame {
      if k > 1 {
        assert before + chunks[0] + Concat(rest[..k - 1]) == before + Concat(chunks[..k]);
      }
    }
    if k :| 0 < k <= |rest| && before + chunks[0] + Concat(rest[..k]) == frame {
      assert before + Concat(chunks[..k + 1]) == frame;
    }
  }

  lemma PastTheEnd(before: Bytes, chunks: seq<Bytes>, frame: Bytes)
    requires |before| > |frame|
    ensures !CutAtEnd(before, chunks, frame)
  {
  }

  /** A frame, with or without bytes after it, is read exactly when some chunk
      ends where the frame ends; otherwise the connection fails. */
  lemma {:induction false} TrailingBytes(c: Conn, frame: Bytes, extra: Bytes, chunks: seq<Bytes>, id: string, json: Json, r: Response)
    requires c.settled.None? && FrameFor(frame, id, json, r)
    requires |c.received| < |frame| && c.received + Concat(chunks) == frame + extra
    ensures var settled := Traffic(c, Arrivals(chunks), id, true, json).settled;
            && settled.Some?
            && (if CutAtEnd(c.received, chunks, frame) then settled == Some(Ok(r)) else settled.value.Err?)
    decreases |chunks|
  {
    assert chunks != [];
    var received := c.received + chunks[0];
    assert received + Concat(chunks[1..]) == frame + extra;
    assert Arrivals(chunks)[1..] == Arrivals(chunks[1..]);
    var c' := OnSocket(c, Chunk(chunks[0]), id, true, json);
    CutMoves(c.received, chunks, frame);
    SameHeader(received, frame, frame + extra);
    if |received| >= |frame| {
      assert (frame + extra)[..|frame|] == frame;
      if |received| > |frame| { PastTheEnd(received, chunks[1..], frame); }
      StaysSettled(c', Arrivals(chunks[1..]), id, true, json);
    } else {
      TrailingBytes(c', frame, extra, chunks[1..], id, json, r);
    }
  }

  lemma SameHeader(received: Bytes, frame: Bytes, all: Bytes)
    requires received <= all && frame <= all && |frame| >= HEADER
    ensures |received| >= HEADER ==> ReadHeader(received) == ReadHeader(frame)
    ensures |received| == |frame| ==> received == frame
  {
    if |received| >= HEADER {
      assert forall k :: 0 <= k < HEADER ==> received[k] == frame[k];
    }
  }

  /** In particular a response that ends with its frame is read whatever its chunks. */
  lemma WholeFrame(frame: Bytes, chunks: seq<Bytes>, id: string, json: Json, r: Response)
    requires FrameFor(frame, id, json, r) && Concat(chunks) == frame
    ensures Traffic(OPENING, Arrivals(chunks), id, true, json).settled == Some(Ok(r))
  {
    assert [] + Concat(chunks) == frame + [] && chunks[..|chunks|] == chunks;
    TrailingBytes(OPENING, frame, [], chunks, id, json, r);
  }

  /******* The freeze *******/

  /** One write with everything that happens to it. */
  datatype Write = Write(id: string, body: nat, events: seq<SocketEvent>)

  ghost predicate Sent(w: Write, json: Json) {
    w.body <= MAX_FRAME_BYTES && WroteInTime(OPENING, w.events, w.id, json)
  }

  /** The response of this write, if one arrived and correlated. */
  function ResponseTo(w: Write, mutation: bool, json: Json): Option<Response> {
    if w.body > MAX_FRAME_BYTES then None
    else match Traffic(OPENING, w.events, w.id, mutation, json).settled
      case Some(Ok(response)) => Some(response)
      case _ => None
  }

  function Outcome(w: Write, mutation: bool, json: Json): Option<Answered> {
    Execute(w.id, mutation, w.body, w.events, json)
  }

  /** The operation this answer leaves unresolved. */
  function FrozenBy(a: Answered): Option<string> {
    if a.Refused? && Freezes(a.failure)
    then Some(if a.failure.operationId.Some? then a.failure.operationId.value else "unknown")
    else None
  }

  predicate IsKnown(id: string, r: Option<Response>) {
    r.Some? && (DefiniteSuccess(id, r.value) || DefiniteRefusal(id, r.value))
  }

  /** A write that has settled is frozen under the very id it carried, unless
      it was never written to the socket, or a correlated answer said
      definitely that it succeeded or was refused. */
  lemma FrozenIff(w: Write, json: Json)
    requires Plausible(w.events, false) && Outcome(w, true, json).Some?
    ensures FrozenBy(Outcome(w, true, json).value)
            == if Sent(w, json) && !IsKnown(w.id, ResponseTo(w, true, json)) then Some(w.id) else None
    ensures Outcome(w, true, json).value.Done? ==> Sent(w, json) && ResponseTo(w, true, json).Some?
                                                   && DefiniteSuccess(w.id, ResponseTo(w, true, json).value)
  {
    if w.body <= MAX_FRAME_BYTES {
      TrafficMeans(OPENING, w.events, w.id, json);
      var settled := Traffic(OPENING, w.events, w.id, true, json).settled.value;
      if settled.Ok? {
        JudgeMeans(w.id, settled.value);
      }
    }
  }

  /******* Looking an operation up *******/

  function Lower(c: char): char {
    if 'A' <= c <= 'Z' then (c as int - 'A' as int + 'a' as int) as char else c
  }

  function Normalized(code: string): (r: string)
    ensures |r| == |code|
  {
    seq(|code|, k requires 0 <= k < |code| => if code[k] == '-' then '_' else Lower(code[k]))
  }

  predicate SaysNotFound(a: Answered) {
    a.Refused? && a.failure.errorCode.Some? && Normalized(a.failure.errorCode.value) in {"not_found", "notfound"}
  }

  predicate Resolves(a: Answered) {
    a.Done? || SaysNotFound(a)
  }

  /** The code is this word in lower case with underscores, up to ASCII letter
      case and hyphens in place of underscores. */
  ghost predicate Spells(code: string, word: string) {
    && |code| == |word|
    && forall k :: 0 <= k < |word| ==>
         || code[k] == word[k]
         || (word[k] == '_' && code[k] == '-')
         || ('a' <= word[k] <= 'z' && code[k] as int == word[k] as int - 32)
  }

  ghost predicate NamesNotFound(code: string) {
    Spells(code, "not_found") || Spells(code, "notfound")
  }

  lemma NormalizedIs(code: string, word: string)
    requires forall k :: 0 <= k < |word| ==> 'a' <= word[k] <= 'z' || word[k] == '_'
    ensures Normalized(code) == word <==> Spells(code, word)
  {
    if Spells(code, word) {
      forall k | 0 <= k < |word| ensures Normalized(code)[k] == word[k] { }
    }
  }

  lemma NotFoundIff(code: string)
    ensures Normalized(code) in {"not_found", "notfound"} <==> NamesNotFound(code)
  {
    NormalizedIs(code, "not_found");
    NormalizedIs(code, "notfound");
  }

  lemma LookupMeans(id: string, r: Response)
    ensures Resolves(Judge(id, false, r)) <==>
            DefiniteSuccess(id, r) || (DefiniteRefusal(id, r) && NamesNotFound(r.payload.value.error.code))
    ensures FrozenBy(Judge(id, false, r)).None?
  {
    if DefiniteRefusal(id, r) { NotFoundIff(r.payload.value.error.code); }
  }

  lemma {:induction false} ReadTraffic(c: Conn, events: seq<SocketEvent>, id: string, json: Json)
    requires c.settled.Some? && c.settled.value.Err? ==> c.settled.value.error == PLAIN
    ensures var settled := Traffic(c, events, id, false, json).settled;
            settled.Some? && settled.value.Err? ==> settled.value.error == PLAIN
    decreases |events|
  {
    if events != [] {
      ReadTraffic(OnSocket(c, events[0], id, false, json), events[1..], id, json);
    }
  }

  /** A lookup unfreezes exactly when a correlated answer to it says that the
      operation was recorded, or is not found; no failure to reach the service does. */
  lemma ResolvedIff(w: Write, json: Json)
    requires Outcome(w, false, json).Some?
    ensures Resolves(Outcome(w, false, json).value) <==>
            var r := ResponseTo(w, false, json);
            r.Some? && (DefiniteSuccess(w.id, r.value)
                        || (DefiniteRefusal(w.id, r.value) && NamesNotFound(r.value.payload.value.error.code)))
    ensures FrozenBy(Outcome(w, false, json).value).None?
  {
    if w.body <= MAX_FRAME_BYTES {
      ReadTraffic(OPENING, w.events, w.id, json);
      var settled := Traffic(OPENING, w.events, w.id, false, json).settled.value;
      if settled.Ok? {
        LookupMeans(w.id, settled.value);
      }
    }
  }

  /******* The controller *******/

  /** `open` holds the writes whose answer has not come and `asked` the
      lookups, one entry for each. The rest is history that the program does
      not read: the ids sent, the writes that ended untrusted, and those whose
      own lookup resolved. */
  datatype Writes = Writes(
    unresolved: Option<string>, open: set<string>, asked: multiset<string>,
    sent: seq<string>, unknown: set<string>, confirmed: set<string>)

  const UNFROZEN := Writes(None, {}, multiset{}, [], {}, {})

  /** Each await ends a step, so that calls may overlap. */
  datatype Step = Begin(id: string) | End(id: string, answer: Answered) | Ask | Hear(id: string, answer: Answered)

  function Take(w: Writes, s: Step): Writes {
    match s
    case Begin(id) => if w.unresolved.Some? then w else w.(open := w.open + {id}, sent := w.sent + [id])
    case End(id, a) =>
      if id !in w.open then w
      else if FrozenBy(a).None? then w.(open := w.open - {id})
      else w.(open := w.open - {id}, unresolved := FrozenBy(a), unknown := w.unknown + {id})
    case Ask => if w.unresolved.None? then w else w.(asked := w.asked + multiset{w.unresolved.value})
    case Hear(id, a) =>
      if id !in w.asked then w
      else if !Resolves(a) then w.(asked := w.asked - multiset{id})
      else w.(asked := w.asked - multiset{id}, unresolved := None, confirmed := w.confirmed + {id})
  }

  function TakeAll(w: Writes, steps: seq<Step>): Writes
    decreases |steps|
  {
    if steps == [] then w else TakeAll(Take(w, steps[0]), steps[1..])
  }

  class GlobalController {
    var unresolvedOperation: Option<string>
    var lastMutationRefreshFailed: bool
    ghost var history: Writes

    ghost function State(): Writes
      reads this
    {
      history.(unresolved := unresolvedOperation)
    }

    constructor ()
      ensures State() == UNFROZEN
    {
      unresolvedOperation, lastMutationRefreshFailed, history := None, false, UNFROZEN;
    }

    /** mutate up to its await; false where it throws. */
    method StartMutation(id: string) returns (sent: bool)
      modifies this
      ensures State() == Take(old(State()), Begin(id)) && sent == old(unresolvedOperation).None?
    {
      if unresolvedOperation.Some? {
        return false;
      }
      lastMutationRefreshFailed := false;
      history := Take(State(), Begin(id));
      sent := true;
    }

    /** The rest of mutate, once its request has settled. */
    method EndMutation(id: string, a: Answered, refreshFails: bool)
      requires id in State().open
      modifies this
      ensures State() == Take(old(State()), End(id, a))
      ensures unresolvedOperation ==
              if a.Refused? && (a.failure.unknownOutcome || a.failure.readbackRequired)
              then Some(if a.failure.operationId.Some? then a.failure.operationId.value else "unknown") else old(unresolvedOperation)
      ensures State().open == old(State()).open - {id}
      ensures lastMutationRefreshFailed <==> old(lastMutationRefreshFailed) || (a.Done? && refreshFails)
    {
      history := Take(State(), End(id, a));
      match a {
        case Refused(failure) =>
          if failure.unknownOutcome || failure.readbackRequired {
            unresolvedOperation := Some(if failure.operationId.Some? then failure.operationId.value else "unknown");
          }
        case Done =>
          if refreshFails {
            lastMutationRefreshFailed := true;
          }
      }
    }

    /** resolveUnknownOperation up to its await: the id it will look up. */
    method AskOperation() returns (id: Option<string>)
      modifies this
      ensures State() == Take(old(State()), Ask) && id == old(unresolvedOperation)
    {
      id := unresolvedOperation;
      if id.Some? {
        history := Take(State(), Ask);
      }
    }

    /** The rest of it: a resolving answer clears the field, whatever it holds by now. */
    method HearOperation(id: string, a: Answered, refreshFails: bool)
      requires id in State().asked
      modifies this
      ensures State() == Take(old(State()), Hear(id, a)) && State().asked == old(State()).asked - multiset{id}
    {
      history := Take(State(), Hear(id, a));
      if a.Done? {
        unresolvedOperation := None;
        lastMutationRefreshFailed := refreshFails;
      } else if SaysNotFound(a) {
        unresolvedOperation := None;
      }
    }
  }

  /******* Every sequence of calls *******/

  /** No id is used twice, and an answer freezes the id of its own write or nothing (FrozenIff). */
  ghost predicate Faithful(w: Writes, s: Step) {
    match s
    case Begin(id) => id !in w.sent
    case End(id, a) => FrozenBy(a).Some? ==> FrozenBy(a) == Some(id)
    case _ => true
  }

  ghost predicate FaithfulAll(w: Writes, steps: seq<Step>)
    decreases |steps|
  {
    steps == [] || (Faithful(w, steps[0]) && FaithfulAll(Take(w, steps[0]), steps[1..]))
  }

  /** What faithful steps keep. */
  ghost predicate Kept(w: Writes) {
    && (forall id :: id in w.open || id in w.unknown ==> id in w.sent)
    && (forall id :: id in w.open ==> id !in w.unknown)
    && (forall id :: id in w.asked || id in w.confirmed ==> id in w.unknown)
    && (w.unresolved.Some? ==> w.unresolved.value in w.unknown)
  }

  lemma KeptStep(w: Writes, s: Step)
    requires Kept(w) && Faithful(w, s)
    ensures Kept(Take(w, s))
  {
    if s.Begin? && w.unresolved.None? {
      assert forall x :: x in w.sent ==> x in w.sent + [s.id];
    }
  }

  /** An untrusted write that is neither unresolved nor confirmed by a lookup of its own. */
  predicate Forgotten(w: Writes, x: string) {
    x in w.unknown && w.unresolved != Some(x) && x !in w.confirmed
  }

  /** The step replaces or clears the unresolved operation without having looked it up. */
  predicate Forgets(w: Writes, s: Step) {
    && w.unresolved.Some? && w.unresolved.value !in w.confirmed
    && match s
       case End(id, a) => id in w.open && FrozenBy(a).Some? && FrozenBy(a) != w.unresolved
       case Hear(id, a) => id in w.asked && Resolves(a) && Some(id) != w.unresolved
       case _ => false
  }

  /** A step forgets an operation exactly if, while it is unresolved, another
      write ends untrusted or the late lookup of another operation resolves;
      and it is that operation it forgets. */
  lemma ForgottenByStep(w: Writes, s: Step, x: string)
    requires Kept(w) && Faithful(w, s) && !Forgotten(w, x)
    ensures Forgotten(Take(w, s), x) <==> Forgets(w, s) && w.unresolved == Some(x)
  {
  }

  ghost predicate ForgetsNothing(w: Writes) {
    forall x :: !Forgotten(w, x)
  }

  /** All states of the run, the last one included, remember every untrusted write. */
  ghost predicate RemembersAll(w: Writes, steps: seq<Step>)
    decreases |steps|
  {
    ForgetsNothing(w) && (steps == [] || RemembersAll(Take(w, steps[0]), steps[1..]))
  }

  ghost predicate NeverForgets(w: Writes, steps: seq<Step>)
    decreases |steps|
  {
    steps == [] || (!Forgets(w, steps[0]) && NeverForgets(Take(w, steps[0]), steps[1..]))
  }

  /** A run remembers every untrusted write throughout exactly if it takes no such step. */
  lemma {:induction false} RemembersIff(w: Writes, steps: seq<Step>)
    requires Kept(w) && FaithfulAll(w, steps) && ForgetsNothing(w)
    ensures RemembersAll(w, steps) <==> NeverForgets(w, steps)
    decreases |steps|
  {
    if steps != [] {
      var w' := Take(w, steps[0]);
      KeptStep(w, steps[0]);
      forall x ensures Forgotten(w', x) <==> Forgets(w, steps[0]) && w.unresolved == Some(x) {
        ForgottenByStep(w, steps[0], x);
      }
      if Forgets(w, steps[0]) {
        assert Forgotten(w', w.unresolved.value);
      } else {
        RemembersIff(w', steps[1..]);
      }
    }
  }

  /** When a lookup clears the field, the operation released is the one it
      looked up exactly if the field still holds it. */
  lemma ReleasedIsLookedUpIff(w: Writes, id: string, a: Answered)
    requires Kept(w) && id in w.asked && Resolves(a) && w.unresolved.Some?
    ensures var w' := Take(w, Hear(id, a));
            && w'.unresolved.None?
            && (w.unresolved.value in w'.confirmed <==> w.unresolved == Some(id) || w.unresolved.value in w.confirmed)
  {
  }

  /** One call at a time: the earlier ones have ended. */
  ghost predicate Sequential(w: Writes, steps: seq<Step>)
    decreases |steps|
  {
    steps != [] ==>
      && (steps[0].Begin? || steps[0].Ask? ==> w.open == {} && w.asked == multiset{})
      && Sequential(Take(w, steps[0]), steps[1..])
  }

  /** At most one call is under way, and a lookup is for the unresolved operation. */
  ghost predicate OneCall(w: Writes) {
    && |w.open| + |w.asked| <= 1
    && (w.open != {} ==> w.unresolved.None?)
    && (forall id :: id in w.asked ==> w.unresolved == Some(id))
  }

  lemma OneCallStep(w: Writes, s: Step)
    requires OneCall(w) && (s.Begin? || s.Ask? ==> w.open == {} && w.asked == multiset{})
    ensures OneCall(Take(w, s)) && !Forgets(w, s)
  {
    match s
    case Begin(id) =>
      assert w.unresolved.None? ==> |{id}| == 1;
    case End(id, a) => if id in w.open { OnlyOpen(w, id); }
    case Ask =>
    case Hear(id, a) => if id in w.asked { OnlyAsked(w, id); }
  }

  lemma OnlyOpen(w: Writes, id: string)
    requires OneCall(w) && id in w.open
    ensures w.open - {id} == {} && w.asked == multiset{}
  {
    assert |w.open - {id}| == |w.open| - 1;
  }

  lemma OnlyAsked(w: Writes, id: string)
    requires OneCall(w) && id in w.asked
    ensures w.asked - multiset{id} == multiset{} && w.open == {}
  {
    assert |w.asked - multiset{id}| == |w.asked| - 1;
  }

  /** So with one call at a time nothing is ever forgotten: each untrusted
      write blocks all writes until a lookup of its own releases it. */
  lemma {:induction false} NothingForgotten(w: Writes, steps: seq<Step>)
    requires Kept(w) && OneCall(w) && ForgetsNothing(w) && FaithfulAll(w, steps) && Sequential(w, steps)
    ensures RemembersAll(w, steps)
    decreases |steps|
  {
    if steps != [] {
      KeptStep(w, steps[0]);
      OneCallStep(w, steps[0]);
      forall x ensures !Forgotten(Take(w, steps[0]), x) {
        ForgottenByStep(w, steps[0], x);
      }
      NothingForgotten(Take(w, steps[0]), steps[1..]);
    }
  }

  /** While an operation is unresolved nothing is sent, whatever the steps. */
  lemma {:induction false} FrozenSendsNothing(w: Writes, steps: seq<Step>)
    requires w.unresolved.Some? && forall k :: 0 <= k < |steps| ==> !(steps[k].Hear? && Resolves(steps[k].answer))
    ensures TakeAll(w, steps).sent == w.sent && TakeAll(w, steps).unresolved.Some?
    decreases |steps|
  {
    if steps != [] {
      FrozenSendsNothing(Take(w, steps[0]), steps[1..]);
    }
  }

  lemma TakeFirst(w: Writes, s: Step, rest: seq<Step>)
    ensures TakeAll(w, [s] + rest) == TakeAll(Take(w, s), rest)
  {
    assert ([s] + rest)[1..] == rest;
  }

  /** Two writes that overlap and both end untrusted: the first is forgotten. */
  lemma OverlappingWritesForget(a: string, b: string)
    requires a != b
    ensures var lost, lost' := End(a, Refused(Untrusted(a))), End(b, Refused(Untrusted(b)));
            Forgotten(TakeAll(UNFROZEN, [Begin(a)] + ([Begin(b)] + ([lost] + [lost']))), a)
  {
    var lost, lost' := End(a, Refused(Untrusted(a))), End(b, Refused(Untrusted(b)));
    TakeFirst(UNFROZEN, Begin(a), [Begin(b)] + ([lost] + [lost']));
    TakeFirst(Take(UNFROZEN, Begin(a)), Begin(b), [lost] + [lost']);
    var w := Take(Take(UNFROZEN, Begin(a)), Begin(b));
    TakeFirst(w, lost, [lost']);
    assert [lost'] == [lost'] + [];
    TakeFirst(Take(w, lost), lost', []);
  }

  lemma LostWriteFreezes(a: string)
    ensures Take(Take(UNFROZEN, Begin(a)), End(a, Refused(Untrusted(a)))) == Writes(Some(a), {}, multiset{}, [a], {a}, {})
  {
    var w := Take(UNFROZEN, Begin(a));
    assert w == Writes(None, {a}, multiset{}, [a], {}, {});
    assert FrozenBy(Refused(Untrusted(a))) == Some(a);
  }

  lemma TwoLookups(a: string)
    ensures var frozen := Writes(Some(a), {}, multiset{}, [a], {a}, {});
            Take(Take(Take(frozen, Ask), Ask), Hear(a, Done)) == Writes(None, {}, multiset{a}, [a], {a}, {a})
  {
    var frozen := Writes(Some(a), {}, multiset{}, [a], {a}, {});
    assert Take(Take(frozen, Ask), Ask) == frozen.(asked := multiset{a, a});
    assert multiset{a, a} - multiset{a} == multiset{a};
  }

  lemma SecondLookupStillOut(a: string)
    ensures var lost := End(a, Refused(Untrusted(a)));
            Take(Take(Take(Take(Take(UNFROZEN, Begin(a)), lost), Ask), Ask), Hear(a, Done))
            == Writes(None, {}, multiset{a}, [a], {a}, {a})
  {
    LostWriteFreezes(a);
    TwoLookups(a);
  }

  lemma LateAnswerReleases(w: Writes, a: string, b: string)
    requires w == Writes(None, {}, multiset{a}, [a], {a}, {a}) && a != b
    ensures Forgotten(Take(Take(Take(w, Begin(b)), End(b, Refused(Untrusted(b)))), Hear(a, Done)), b)
  {
    assert Take(Take(w, Begin(b)), End(b, Refused(Untrusted(b)))) == Writes(Some(b), {}, multiset{a}, [a, b], {a, b}, {a});
  }

  /** Two lookups of one operation that overlap: the later answer releases a
      write that was frozen after the earlier one, and never looked up. */
  lemma LateLookupForgets(a: string, b: string)
    requires a != b
    ensures var lost, lost' := End(a, Refused(Untrusted(a))), End(b, Refused(Untrusted(b)));
            var frozen := Take(Take(Take(Take(UNFROZEN, Begin(a)), lost), Ask), Ask);
            Forgotten(TakeAll(frozen, [Hear(a, Done)] + ([Begin(b)] + ([lost'] + [Hear(a, Done)]))), b)
  {
    var lost, lost' := End(a, Refused(Untrusted(a))), End(b, Refused(Untrusted(b)));
    var frozen := Take(Take(Take(Take(UNFROZEN, Begin(a)), lost), Ask), Ask);
    var w := Take(frozen, Hear(a, Done));
    SecondLookupStillOut(a);
    LateAnswerReleases(w, a, b);
    TakeFirst(frozen, Hear(a, Done), [Begin(b)] + ([lost'] + [Hear(a, Done)]));
    TakeFirst(w, Begin(b), [lost'] + [Hear(a, Done)]);
    TakeFirst(Take(w, Begin(b)), lost', [Hear(a, Done)]);
    assert [Hear(a, Done)] == [Hear(a, Done)] + [];
    TakeFirst(Take(Take(w, Begin(b)), lost'), Hear(a, Done), []);
  }
}

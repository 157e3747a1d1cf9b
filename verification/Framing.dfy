/** Length-delimited frames: a four-byte big-endian length and the payload,
    rebuilt from whatever chunks a socket delivers. */
module Framing {
  import opened Wrappers

  type byte = b: int | 0 <= b < 0x100

  type Bytes = seq<byte>

  const HEADER := 4
  const WORD := 0x1_0000_0000

  datatype FrameError = BadLimit | TooLong | Short | LengthMismatch

  /** DataView.setUint32(0, n): the length modulo 2^32. */
  function Header(n: nat): (h: Bytes)
    ensures |h| == HEADER
  {
    var (n1, n2, n3) := (n / 0x100, n / 0x100 / 0x100, n / 0x100 / 0x100 / 0x100);
    [n3 % 0x100, n2 % 0x100, n1 % 0x100, n % 0x100]
  }

  /** DataView.getUint32(0). */
  function ReadHeader(b: Bytes): (n: nat)
    requires |b| >= HEADER
    ensures n < WORD
  {
    var (b0: int, b1: int, b2: int, b3: int) := (b[0], b[1], b[2], b[3]);
    ((b0 * 0x100 + b1) * 0x100 + b2) * 0x100 + b3
  }

  lemma Remainder(n: int, k: int, r: int)
    requires n == WORD * k + r && 0 <= r < WORD
    ensures n % WORD == r
  {
  }

  lemma HeaderRoundTrip(n: nat, rest: Bytes)
    ensures ReadHeader(Header(n) + rest) == n % WORD
  {
    var h := Header(n) + rest;
    var (n1, n2, n3) := (n / 0x100, n / 0x100 / 0x100, n / 0x100 / 0x100 / 0x100);
    assert h[0] == n3 % 0x100 && h[1] == n2 % 0x100 && h[2] == n1 % 0x100 && h[3] == n % 0x100;
    var k := n3 / 0x100;
    var r := ReadHeader(h);
    assert n == WORD * k + r;
    Remainder(n, k, r);
  }

  /** encodeJsonFrame on the payload's bytes. */
  function Encode(payload: Bytes, max: int): Result<Bytes, FrameError> {
    if max <= 0 then Err(BadLimit)
    else if |payload| > max then Err(TooLong)
    else Ok(Header(|payload|) + payload)
  }

  /** decodeJsonFrame up to the text decoder. */
  function Decode(frame: Bytes, max: int): Result<Bytes, FrameError> {
    if |frame| < HEADER then Err(Short)
    else if ReadHeader(frame) > max then Err(TooLong)
    else if |frame| != HEADER + ReadHeader(frame) then Err(LengthMismatch)
    else Ok(frame[HEADER..])
  }

  /** Decoding inverts encoding exactly for the payloads whose length fits the
      four bytes; a longer one that the limit lets through is refused, never
      mistaken for another payload. */
  lemma DecodeInvertsEncode(payload: Bytes, max: int)
    requires Encode(payload, max).Ok?
    ensures var back := Decode(Encode(payload, max).value, max);
            if |payload| < WORD then back == Ok(payload) else back == Err(LengthMismatch)
  {
    HeaderRoundTrip(|payload|, payload);
    var frame := Header(|payload|) + payload;
    assert frame[HEADER..] == payload;
  }

  /** Every frame that decodes is the encoding of what it decodes to. */
  lemma EncodeInvertsDecode(frame: Bytes, max: int)
    requires Decode(frame, max).Ok? && max > 0
    ensures Encode(Decode(frame, max).value, max) == Ok(frame)
  {
    var payload := frame[HEADER..];
    HeaderOf(frame);
    assert frame == frame[..HEADER] + payload;
  }

  lemma HeaderOf(frame: Bytes)
    requires |frame| >= HEADER
    ensures Header(ReadHeader(frame)) == frame[..HEADER]
  {
    var (b0: int, b1: int, b2: int, b3: int) := (frame[0], frame[1], frame[2], frame[3]);
    var (n1, n2) := ((b0 * 0x100 + b1) * 0x100 + b2, b0 * 0x100 + b1);
    var n := ReadHeader(frame);
    assert n == n1 * 0x100 + b3 && n1 == n2 * 0x100 + b2;
    assert n / 0x100 == n1 && n % 0x100 == b3;
    assert n1 / 0x100 == n2 && n1 % 0x100 == b2;
    assert n2 / 0x100 == b0 && n2 % 0x100 == b1;
  }

  /** The unwrapped application frame, or the error text. */
  type Reply = Result<Bytes, string>

  /** `consume`: what the bytes received so far settle; None while they do not.
      `unwrap` reads the outer response and builds the application frame. */
  function ReplyTo(bytes: Bytes, max: nat, unwrap: Bytes -> Reply): Option<Reply> {
    if |bytes| < HEADER then None
    else if ReadHeader(bytes) > max then Some(Err("oversized response"))
    else if |bytes| < HEADER + ReadHeader(bytes) then None
    else Some(unwrap(bytes[HEADER..HEADER + ReadHeader(bytes)]))
  }

  datatype Trip = Trip(requestId: string, received: Bytes, settled: Option<Reply>)

  datatype Event = Data(chunk: Bytes) | Failure(reason: string)

  function Opened(requestId: string): Trip {
    Trip(requestId, [], None)
  }

  function Handle(t: Trip, e: Event, max: nat, unwrap: Bytes -> Reply): Trip {
    match e
    case Data(chunk) =>
      var received := t.received + chunk;
      t.(received := received, settled := if t.settled.Some? then t.settled else ReplyTo(received, max, unwrap))
    case Failure(reason) => if t.settled.Some? then t else t.(settled := Some(Err(reason)))
  }

  function HandleAll(t: Trip, events: seq<Event>, max: nat, unwrap: Bytes -> Reply): Trip
    decreases |events|
  {
    if events == [] then t else HandleAll(Handle(t, events[0], max, unwrap), events[1..], max, unwrap)
  }

  function Chunks(chunks: seq<Bytes>): seq<Event> {
    seq(|chunks|, k requires 0 <= k < |chunks| => Data(chunks[k]))
  }

  function Concat(chunks: seq<Bytes>): Bytes {
    if chunks == [] then [] else chunks[0] + Concat(chunks[1..])
  }

  /** More bytes never change what a prefix has settled. */
  lemma ReplyStands(bytes: Bytes, more: Bytes, max: nat, unwrap: Bytes -> Reply)
    requires ReplyTo(bytes, max, unwrap).Some?
    ensures ReplyTo(bytes + more, max, unwrap) == ReplyTo(bytes, max, unwrap)
  {
    var n := ReadHeader(bytes);
    assert ReadHeader(bytes + more) == n;
    if n <= max {
      assert (bytes + more)[HEADER..HEADER + n] == bytes[HEADER..HEADER + n];
    }
  }

  lemma {:induction false} ChunksFrom(t: Trip, chunks: seq<Bytes>, max: nat, unwrap: Bytes -> Reply)
    requires t.settled == ReplyTo(t.received, max, unwrap)
    ensures HandleAll(t, Chunks(chunks), max, unwrap)
            == Trip(t.requestId, t.received + Concat(chunks), ReplyTo(t.received + Concat(chunks), max, unwrap))
    decreases |chunks|
  {
    if chunks == [] {
      assert t.received + [] == t.received;
    } else {
      assert Chunks(chunks)[1..] == Chunks(chunks[1..]);
      if t.settled.Some? { ReplyStands(t.received, chunks[0], max, unwrap); }
      ChunksFrom(Handle(t, Data(chunks[0]), max, unwrap), chunks[1..], max, unwrap);
      assert t.received + chunks[0] + Concat(chunks[1..]) == t.received + Concat(chunks);
    }
  }

  /** How a stream of bytes was cut into chunks makes no difference. */
  lemma ChunkingIsIrrelevant(id: string, chunks: seq<Bytes>, max: nat, unwrap: Bytes -> Reply)
    ensures HandleAll(Opened(id), Chunks(chunks), max, unwrap).settled == ReplyTo(Concat(chunks), max, unwrap)
  {
    ChunksFrom(Opened(id), chunks, max, unwrap);
    assert [] + Concat(chunks) == Concat(chunks);
  }

  lemma FrameLength(payload: Bytes, trailing: Bytes)
    requires |payload| < WORD
    ensures ReadHeader(Header(|payload|) + payload + trailing) == |payload|
  {
    var h := Header(|payload|);
    assert h + payload + trailing == h + (payload + trailing);
    HeaderRoundTrip(|payload|, payload + trailing);
    WordRemainder(|payload|);
  }

  lemma WordRemainder(n: nat)
    requires n < WORD
    ensures n % WORD == n
  {
  }

  lemma FrameBody(header: Bytes, payload: Bytes, trailing: Bytes)
    requires |header| == HEADER
    ensures (header + payload + trailing)[HEADER..HEADER + |payload|] == payload
  {
  }

  lemma FrameShape(payload: Bytes, trailing: Bytes)
    requires |payload| < WORD
    ensures var bytes := Header(|payload|) + payload + trailing;
            && |bytes| == HEADER + |payload| + |trailing| && ReadHeader(bytes) == |payload|
            && bytes[HEADER..HEADER + |payload|] == payload
  {
    FrameLength(payload, trailing);
    FrameBody(Header(|payload|), payload, trailing);
  }

  lemma HeaderOfPrefix(bytes: Bytes, frame: Bytes)
    requires HEADER <= |bytes| && bytes <= frame
    ensures ReadHeader(bytes) == ReadHeader(frame)
  {
  }

  /** Every cut of one frame, with or without bytes after it, settles with that frame's payload. */
  lemma FrameSettles(id: string, payload: Bytes, trailing: Bytes, chunks: seq<Bytes>, max: nat, unwrap: Bytes -> Reply)
    requires Encode(payload, max).Ok? && |payload| < WORD
    requires Concat(chunks) == Encode(payload, max).value + trailing
    ensures HandleAll(Opened(id), Chunks(chunks), max, unwrap).settled == Some(unwrap(payload))
  {
    ChunkingIsIrrelevant(id, chunks, max, unwrap);
    FrameShape(payload, trailing);
  }

  /** No strict prefix of a frame settles anything, however it is cut; if the
      connection then fails, the round trip fails for that reason. */
  lemma PrefixNeverSettles(id: string, payload: Bytes, chunks: seq<Bytes>, reason: string, max: nat, unwrap: Bytes -> Reply)
    requires Encode(payload, max).Ok? && |payload| < WORD
    requires Concat(chunks) < Encode(payload, max).value
    ensures HandleAll(Opened(id), Chunks(chunks), max, unwrap).settled.None?
    ensures HandleAll(Opened(id), Chunks(chunks) + [Failure(reason)], max, unwrap).settled == Some(Err(reason))
  {
    ChunkingIsIrrelevant(id, chunks, max, unwrap);
    PrefixGivesNoReply(payload, Concat(chunks), max, unwrap);
    HandleAppend(Opened(id), Chunks(chunks), Failure(reason), max, unwrap);
  }

  lemma PrefixGivesNoReply(payload: Bytes, bytes: Bytes, max: nat, unwrap: Bytes -> Reply)
    requires |payload| < WORD && |payload| <= max && bytes < Header(|payload|) + payload
    ensures ReplyTo(bytes, max, unwrap).None?
  {
    FrameShape(payload, []);
    assert Header(|payload|) + payload + [] == Header(|payload|) + payload;
    if |bytes| >= HEADER { HeaderOfPrefix(bytes, Header(|payload|) + payload); }
  }

  lemma {:induction false} HandleAppend(t: Trip, events: seq<Event>, e: Event, max: nat, unwrap: Bytes -> Reply)
    ensures HandleAll(t, events + [e], max, unwrap) == Handle(HandleAll(t, events, max, unwrap), e, max, unwrap)
    decreases |events|
  {
    if events == [] {
      assert [e][1..] == [];
    } else {
      assert (events + [e])[1..] == events[1..] + [e];
      HandleAppend(Handle(t, events[0], max, unwrap), events[1..], e, max, unwrap);
    }
  }

  /** What has settled stays, whatever arrives later. */
  lemma {:induction false} SettlesOnce(t: Trip, events: seq<Event>, max: nat, unwrap: Bytes -> Reply)
    requires t.settled.Some?
    ensures HandleAll(t, events, max, unwrap).settled == t.settled
    decreases |events|
  {
    if events != [] {
      SettlesOnce(Handle(t, events[0], max, unwrap), events[1..], max, unwrap);
    }
  }

  /******* The outer response *******/

  /** A response read as JSON, if it is an object. `payload` holds the bytes
      of the application envelope, if that is one. */
  datatype OuterResponse = OuterResponse(
    requestId: Option<string>, knownFields: bool, hasPayload: bool, hasError: bool, payload: Option<Bytes>)

  type Json = Bytes -> Option<OuterResponse>

  /** unwrapResponse, in the order of its tests. */
  function Unwrap(bytes: Bytes, id: string, max: nat, json: Json): Reply {
    match json(bytes)
    case None => Err("not a JSON object")
    case Some(outer) =>
      if !outer.knownFields then Err("unknown field")
      else if outer.requestId != Some(id) then Err("request_id mismatch")
      else if outer.hasPayload == outer.hasError then Err("exactly one of payload or error")
      else if outer.hasError then Err("transport error")
      else if outer.payload.None? then Err("payload is not an object")
      else
        match Encode(outer.payload.value, max)
        case Err(_) => Err("payload too long")
        case Ok(frame) => Ok(frame)
  }

  /** What the closures of one round trip make of the frame they received. */
  function Reader(id: string, max: nat, json: Json): Bytes -> Reply {
    bytes => Unwrap(bytes, id, max, json)
  }

  /** The first whole frame received is a response to this very request, and
      `frame` is its payload. */
  ghost predicate AnsweredBy(received: Bytes, id: string, frame: Bytes, max: nat, json: Json) {
    && |received| >= HEADER && ReadHeader(received) <= max && |received| >= HEADER + ReadHeader(received)
    && var outer := json(received[HEADER..HEADER + ReadHeader(received)]);
       && outer.Some? && outer.value.knownFields && outer.value.requestId == Some(id)
       && outer.value.hasPayload && !outer.value.hasError
       && outer.value.payload.Some? && Encode(outer.value.payload.value, max) == Ok(frame)
  }

  lemma AnsweredByIffReply(received: Bytes, id: string, frame: Bytes, max: nat, json: Json)
    ensures ReplyTo(received, max, Reader(id, max, json)) == Some(Ok(frame)) <==> AnsweredBy(received, id, frame, max, json)
  {
  }

  /** The bytes that arrive before the first failure. */
  function Heard(events: seq<Event>): Bytes {
    if events == [] || events[0].Failure? then [] else events[0].chunk + Heard(events[1..])
  }

  function FirstFailure(events: seq<Event>): Option<string> {
    if events == [] then None
    else if events[0].Failure? then Some(events[0].reason)
    else FirstFailure(events[1..])
  }

  /** What any events settle: what the bytes before the first failure settle,
      and otherwise that failure. */
  lemma {:induction false} SettlesAs(t: Trip, events: seq<Event>, max: nat, unwrap: Bytes -> Reply)
    requires t.settled == ReplyTo(t.received, max, unwrap)
    ensures var reply := ReplyTo(t.received + Heard(events), max, unwrap);
            HandleAll(t, events, max, unwrap).settled ==
            if reply.Some? then reply else if FirstFailure(events).Some? then Some(Err(FirstFailure(events).value)) else None
    decreases |events|
  {
    if events == [] {
      assert t.received + [] == t.received;
    } else {
      var t1 := Handle(t, events[0], max, unwrap);
      match events[0]
      case Data(chunk) =>
        if t.settled.Some? { ReplyStands(t.received, chunk, max, unwrap); }
        SettlesAs(t1, events[1..], max, unwrap);
        assert t.received + chunk + Heard(events[1..]) == t.received + Heard(events);
      case Failure(reason) =>
        assert t.received + [] == t.received;
        SettlesOnce(t1, events[1..], max, unwrap);
    }
  }

  /** Whatever arrives on its socket, a round trip succeeds with a frame
      exactly if, before any failure, the first whole frame received was a
      response that carries its own request id and that frame as its payload. */
  lemma TripAnswersItsRequest(id: string, events: seq<Event>, frame: Bytes, max: nat, json: Json)
    ensures HandleAll(Opened(id), events, max, Reader(id, max, json)).settled == Some(Ok(frame)) <==>
            AnsweredBy(Heard(events), id, frame, max, json)
  {
    assert [] + Heard(events) == Heard(events);
    SettlesAs(Opened(id), events, max, Reader(id, max, json));
    AnsweredByIffReply(Heard(events), id, frame, max, json);
  }

  /******* UnixSocketFramedTransport *******/

  function Aborted(t: Trip): Trip {
    if t.settled.Some? then t else t.(settled := Some(Err("transport closed")))
  }

  /** wrapRequest: the operation id that becomes the request id, and the length of the outer request. */
  datatype Wrapped = Wrapped(requestId: string, length: nat)

  predicate Sendable(request: Bytes, max: nat, wrap: Bytes -> Option<Wrapped>) {
    && Decode(request, max).Ok?
    && wrap(Decode(request, max).value).Some?
    && var wrapped := wrap(Decode(request, max).value).value;
       wrapped.requestId != "" && wrapped.length <= max
  }

  class UnixSocketFramedTransport {
    const max: nat
    const json: Json
    const wrap: Bytes -> Option<Wrapped>   // None where the payload is no object with an operation id
    var closed: bool
    var active: set<nat>         // active_round_trips
    var trips: map<nat, Trip>    // one per connection, settled or not
    var connections: nat

    ghost predicate Valid()
      reads this
    {
      && (forall id :: id in trips ==> id < connections)
      && (forall id :: id in active <==> id in trips && trips[id].settled.None?)
      && (closed ==> active == {})
    }

    constructor (max: nat, json: Json, wrap: Bytes -> Option<Wrapped>)
      ensures Valid() && !closed && trips == map[] && this.max == max && this.json == json && this.wrap == wrap
    {
      this.max, this.json, this.wrap := max, json, wrap;
      closed, active, trips, connections := false, {}, map[], 0;
    }

    /** None where the transport is closed or the request cannot be wrapped. */
    method RoundTrip(request: Bytes) returns (id: Option<nat>)
      requires Valid()
      modifies this
      ensures Valid() && closed == old(closed)
      ensures id.Some? <==> !old(closed) && Sendable(request, max, wrap)
      ensures trips == if id.Some? then old(trips)[id.value := Opened(wrap(Decode(request, max).value).value.requestId)] else old(trips)
      ensures id.Some? ==> id.value !in old(trips)
    {
      if closed || Decode(request, max).Err? {
        return None;
      }
      var wrapped := wrap(Decode(request, max).value);
      if wrapped.None? || wrapped.value.requestId == "" || wrapped.value.length > max {
        return None;
      }
      id := Some(connections);
      trips := trips[connections := Opened(wrapped.value.requestId)];
      active := active + {connections};
      connections := connections + 1;
    }

    /** An event of one connection's socket. */
    method OnEvent(id: nat, e: Event)
      requires Valid() && id in trips
      modifies this`trips, this`active
      ensures Valid()
      ensures trips == old(trips)[id := Handle(old(trips)[id], e, max, Reader(old(trips)[id].requestId, max, json))]
    {
      var t := Handle(trips[id], e, max, Reader(trips[id].requestId, max, json));
      trips := trips[id := t];
      if t.settled.Some? {
        active := active - {id};
      }
    }

    method Close()
      requires Valid()
      modifies this
      ensures Valid() && closed && active == {}
      ensures trips == if old(closed) then old(trips) else map id | id in old(trips) :: Aborted(old(trips)[id])
      ensures forall id :: id in old(trips) && old(trips)[id].settled.Some? ==> trips[id] == old(trips)[id]
      ensures forall id :: id in old(trips) && old(trips)[id].settled.None? ==> trips[id].settled.Some? && trips[id].settled.value.Err?
    {
      if closed {
        return;
      }
      closed := true;
      var todo := active;
      while todo != {}
        invariant todo == active && closed
        invariant forall id :: id in trips ==> id < connections
        invariant forall id :: id in active <==> id in trips && trips[id].settled.None?
        invariant trips.Keys == old(trips).Keys
        invariant forall id :: id in trips ==>
          trips[id] == if id in todo then old(trips)[id] else Aborted(old(trips)[id])
        decreases |todo|
      {
        var id :| id in todo;
        trips := trips[id := Aborted(trips[id])];
        active := active - {id};
        todo := todo - {id};
      }
    }
  }
}

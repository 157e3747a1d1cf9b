/** VersionedServiceClient.call: what a caller is told about one request, for
    every possible fate of its bytes. */
module ServiceCall {
  import opened Wrappers

  datatype Outcome = Changed | Unchanged | Rejected | Conflicting | Busy | Failed | Unknown

  datatype Envelope = Envelope(
    operationId: string,
    revision: Option<nat>,
    outcome: Outcome,
    errorCode: Option<string>,
    readbackRequired: bool,
    projectId: Option<string>)

  /** What the transport hands back: nothing, bytes that are not a response of
      this protocol version, or a response with its two correlation ids.
      `scoped` tells whether the client accepts the database scope it names. */
  datatype Wire = Lost | Undecodable | Answer(outerId: string, transportOk: bool, envelope: Envelope, scoped: bool)

  predicate Success(o: Outcome) {
    o.Changed? || o.Unchanged?
  }

  predicate ValidEnvelope(transportOk: bool, e: Envelope) {
    && (Success(e.outcome) <==> e.errorCode.None?)
    && (!transportOk ==> e.outcome.Failed? || e.outcome.Unknown?)
  }

  /** The answer belongs to this request and this project. */
  predicate Trusted(id: string, project: Option<string>, wire: Wire) {
    && wire.Answer?
    && wire.outerId == id
    && wire.envelope.operationId == id
    && ValidEnvelope(wire.transportOk, wire.envelope)
    && (wire.envelope.projectId.Some? && project.Some? ==> wire.envelope.projectId == project)
    && wire.scoped
  }

  function FailureEnvelope(id: string, code: string, outcome: Outcome): Envelope {
    Envelope(id, None, outcome, Some(code), false, None)
  }

  /** Err where the call throws. A mutation always gets an envelope under the
      id it sent; the envelope is the service's own word exactly when the
      answer is trusted, and is an unknown outcome otherwise. A readback whose
      transport fails is indistinguishable from a terminal answer. */
  function Call(id: string, mutation: bool, project: Option<string>, wire: Wire): (r: Result<Envelope, string>)
    ensures mutation ==>
              && r.Ok? && r.value.operationId == id
              && (Trusted(id, project, wire) ==> r.value == wire.envelope)
              && (!Trusted(id, project, wire) ==> Doubtful(r.value) && r.value.revision.None?)
              && (Success(r.value.outcome) ==> Trusted(id, project, wire) && !Doubtful(r.value))
    ensures !mutation ==>
              && (r.Ok? <==> wire.Lost? || Trusted(id, project, wire))
              && (Trusted(id, project, wire) ==> r.value == wire.envelope)
    ensures !mutation ==>
              (r.Ok? && Terminal(r.value) <==>
               wire.Lost? || (Trusted(id, project, wire) && Terminal(wire.envelope)))
  {
    match wire
    case Lost =>
      Ok(if mutation then FailureEnvelope(id, "unknown_outcome", Unknown)
         else FailureEnvelope(id, "service_unavailable", Failed))
    case Undecodable =>
      if mutation then Ok(FailureEnvelope(id, "unknown_outcome", Unknown)) else Err("response is not decodable")
    case Answer(outerId, transportOk, envelope, scoped) =>
      if outerId != id then
        (if mutation then Ok(FailureEnvelope(id, "unknown_outcome", Unknown)) else Err("operation id mismatch"))
      else if envelope.operationId != id then
        (if mutation then Ok(FailureEnvelope(id, "unknown_outcome", Unknown)) else Err("operation id mismatch"))
      else if !ValidEnvelope(transportOk, envelope) then
        (if mutation then Ok(FailureEnvelope(id, "unknown_outcome", Unknown)) else Err("invalid envelope"))
      else if envelope.projectId.Some? && project.Some? && envelope.projectId != project then
        (if mutation then Ok(FailureEnvelope(id, "unknown_outcome", Unknown)) else Err("another project"))
      else if !scoped then
        (if mutation then Ok(FailureEnvelope(id, "unknown_outcome", Unknown)) else Err("another database"))
      else Ok(envelope)
  }

  /** TuiServiceError.unknown. */
  predicate Doubtful(e: Envelope) {
    e.outcome.Unknown? || e.errorCode == Some("unknown_outcome")
  }

  /** TuiServiceError.stale. */
  predicate Stale(e: Envelope) {
    e.errorCode.Some? && e.errorCode.value in
      {"stale_revision", "revision_conflict", "stale_context", "stale_fence", "stale_receipt"}
  }

  /** The envelope test of `readback`. */
  predicate Terminal(e: Envelope) {
    !e.outcome.Unknown? && !e.outcome.Busy? && !e.readbackRequired
  }

  /******* The database scope *******/

  /** What a response says of the database it came from. Data that is not an
      object can say nothing. */
  datatype Scope = NoObject | Absent | Malformed | Database(identity: string)

  /** Only successes are asked for their scope, and with a credential they must have one. */
  function ScopeCheck(credential: bool, known: Option<string>, outcome: Outcome, scope: Scope): (bool, Option<string>) {
    if !Success(outcome) || scope.NoObject? || (scope.Absent? && !credential) then (true, known)
    else if scope.Absent? || scope.Malformed? || (known.Some? && known != Some(scope.identity)) then (false, known)
    else (true, Some(scope.identity))
  }

  /** The part of VersionedServiceClient that its answers change. */
  class VersionedServiceClient {
    const credential: bool
    var scopeIdentity: Option<string>

    constructor (credential: bool)
      ensures this.credential == credential && scopeIdentity.None?
    {
      this.credential := credential;
      scopeIdentity := None;
    }

    method AcceptScope(outcome: Outcome, scope: Scope) returns (accepted: bool)
      modifies this
      ensures (accepted, scopeIdentity) == ScopeCheck(credential, old(scopeIdentity), outcome, scope)
    {
      if !Success(outcome) || scope.NoObject? {
        return true;
      }
      if scope.Absent? && !credential {
        return true;
      }
      if !scope.Database? {
        return false;
      }
      if scopeIdentity.Some? && scopeIdentity.value != scope.identity {
        return false;
      }
      scopeIdentity := Some(scope.identity);
      accepted := true;
    }
  }

  function Scopes(credential: bool, known: Option<string>, answers: seq<(Outcome, Scope)>): seq<bool>
    decreases |answers|
  {
    if answers == [] then []
    else
      var (accepted, known') := ScopeCheck(credential, known, answers[0].0, answers[0].1);
      [accepted] + Scopes(credential, known', answers[1..])
  }

  predicate Names(answer: (Outcome, Scope)) {
    Success(answer.0) && answer.1.Database?
  }

  lemma {:induction false} KnownDatabaseStays(credential: bool, known: string, answers: seq<(Outcome, Scope)>)
    ensures var accepted := Scopes(credential, Some(known), answers);
            |accepted| == |answers| && forall k :: 0 <= k < |answers| && accepted[k] && Names(answers[k]) ==>
                                         answers[k].1 == Database(known)
    decreases |answers|
  {
    if answers != [] {
      KnownDatabaseStays(credential, known, answers[1..]);
    }
  }

  /** Of all the successes a connection accepts, those that name a database name the same one. */
  lemma {:induction false} OneDatabase(credential: bool, answers: seq<(Outcome, Scope)>)
    ensures var accepted := Scopes(credential, None, answers);
            |accepted| == |answers| && forall j, k :: 0 <= j < k < |answers| && accepted[j] && accepted[k] ==>
                                         Names(answers[j]) && Names(answers[k]) ==> answers[j].1 == answers[k].1
    decreases |answers|
  {
    if answers != [] {
      var known := ScopeCheck(credential, None, answers[0].0, answers[0].1).1;
      if known.Some? {
        KnownDatabaseStays(credential, known.value, answers[1..]);
      } else {
        OneDatabase(credential, answers[1..]);
      }
    }
  }

  /** The first success that names a database names this one. */
  ghost predicate FirstNamed(answers: seq<(Outcome, Scope)>, k: nat) {
    k < |answers| && Names(answers[k]) && forall j :: 0 <= j < k ==> !Names(answers[j])
  }

  /** A connection refuses a success exactly if its scope is malformed, or
      missing though a credential was given, or names another database than
      the first success that named one. */
  ghost predicate Foreign(credential: bool, known: Option<string>, answers: seq<(Outcome, Scope)>, k: nat)
    requires k < |answers|
  {
    && Success(answers[k].0)
    && (|| answers[k].1.Malformed? || (answers[k].1.Absent? && credential)
        || (answers[k].1.Database?
            && if known.Some? then answers[k].1.identity != known.value
               else exists j :: 0 <= j < k && FirstNamed(answers, j) && answers[j].1 != answers[k].1))
  }

  lemma ForeignLater(credential: bool, known: Option<string>, answers: seq<(Outcome, Scope)>, k: nat)
    requires 0 < k < |answers|
    ensures var known' := ScopeCheck(credential, known, answers[0].0, answers[0].1).1;
            Foreign(credential, known', answers[1..], k - 1) <==> Foreign(credential, known, answers, k)
  {
    var rest := answers[1..];
    assert forall j :: 0 < j < |answers| ==> answers[j] == rest[j - 1];
    if known.None? && !Names(answers[0]) {
      forall j | 0 < j < |answers| ensures FirstNamed(answers, j) <==> FirstNamed(rest, j - 1) { }
      if j :| 0 <= j < k - 1 && FirstNamed(rest, j) && rest[j].1 != answers[k].1 { assert FirstNamed(answers, j + 1); }
    }
    if known.None? && Names(answers[0]) {
      assert FirstNamed(answers, 0);
    }
  }

  lemma {:induction false} AcceptedIff(credential: bool, known: Option<string>, answers: seq<(Outcome, Scope)>)
    ensures var accepted := Scopes(credential, known, answers);
            |accepted| == |answers| && forall k :: 0 <= k < |answers| ==> (accepted[k] <==> !Foreign(credential, known, answers, k))
    decreases |answers|
  {
    if answers != [] {
      var known' := ScopeCheck(credential, known, answers[0].0, answers[0].1).1;
      AcceptedIff(credential, known', answers[1..]);
      forall k | 0 <= k < |answers|
        ensures Scopes(credential, known, answers)[k] <==> !Foreign(credential, known, answers, k)
      {
        if k > 0 {
          ForeignLater(credential, known, answers, k);
          assert Scopes(credential, known, answers)[k] == Scopes(credential, known', answers[1..])[k - 1];
        }
      }
    }
  }
}

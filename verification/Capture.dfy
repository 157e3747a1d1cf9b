/** Provenance of Global captures: every item that claims an origin has one
    witness with the exact text, checked over a JSON snapshot. `hash` stands
    for the content digest of a text. */
module Capture {
  import opened Wrappers

  type Hash = string -> string

  datatype Json =
    | Null
    | Bool(b: bool)
    | Number(u64: Option<nat>)       // None for a number that is not an unsigned 64-bit integer
    | String(s: string)
    | Array(rows: seq<Json>)
    | Object(fields: map<string, Json>)

  function Get(v: Json, key: string): Option<Json> {
    if v.Object? && key in v.fields then Some(v.fields[key]) else None
  }

  function GetString(v: Json, key: string): Option<string> {
    match Get(v, key)
    case Some(String(s)) => Some(s)
    case _ => None
  }

  function GetU64(v: Json, key: string): Option<nat> {
    match Get(v, key)
    case Some(Number(n)) => n
    case _ => None
  }

  /******* CaptureOrigin *******/

  datatype Origin = Origin(digest: string, sourceRef: Option<string>)

  predicate IsHexDigit(c: char) {
    '0' <= c <= '9' || 'a' <= c <= 'f'
  }

  predicate ValidDigest(digest: string) {
    && |digest| == 71 && digest[..7] == "sha256:"
    && forall k :: 7 <= k < 71 ==> IsHexDigit(digest[k])
  }

  /** Unicode White_Space. */
  predicate IsSpace(c: char) {
    var n := c as int;
    9 <= n <= 13 || n in {0x20, 0x85, 0xA0, 0x1680, 0x2028, 0x2029, 0x202F, 0x205F, 0x3000} || 0x2000 <= n <= 0x200A
  }

  /** Unicode category Cc. */
  predicate IsControl(c: char) {
    c as int < 0x20 || 0x7F <= c as int < 0xA0
  }

  predicate IsBlank(s: string) {
    forall k :: 0 <= k < |s| ==> IsSpace(s[k])
  }

  function Utf8Length(s: string): nat {
    if s == "" then 0
    else
      var n := s[0] as int;
      (if n < 0x80 then 1 else if n < 0x800 then 2 else if n < 0x1_0000 then 3 else 4) + Utf8Length(s[1..])
  }

  predicate ValidSourceRef(s: string) {
    !IsBlank(s) && Utf8Length(s) <= 4096 && forall k :: 0 <= k < |s| ==> !IsControl(s[k])
  }

  predicate ValidOrigin(o: Origin) {
    ValidDigest(o.digest) && (o.sourceRef.Some? ==> ValidSourceRef(o.sourceRef.value))
  }

  datatype Fault =
    | NoItems | WitnessesNotArray | NoItemId | NoText | BadRevision | NoCapturedAt | MissingItem | CreatedAtDiffers
    | NoDigest | BadSourceRef | InvalidOrigin | DigestDiffers | DuplicateWitness | NoOriginItemId | NoWitness
    | OriginsDisagree | NoMatchingOrigin

  /** origin_for_capture. */
  function OriginForCapture(hash: Hash, text: string, sourceRef: Option<string>): Result<Origin, Fault> {
    var origin := Origin(hash(text), sourceRef);
    if ValidOrigin(origin) then Ok(origin) else Err(InvalidOrigin)
  }

  function RefJson(sourceRef: Option<string>): Json {
    if sourceRef.Some? then String(sourceRef.value) else Null
  }

  function OriginJson(o: Origin): Json {
    Object(map["digest" := String(o.digest), "source_ref" := RefJson(o.sourceRef)])
  }

  function WitnessJson(itemId: string, revision: nat, capturedAt: string, text: string, o: Origin): Json {
    Object(map[
      "item_id" := String(itemId), "revision" := Number(Some(revision)), "captured_at" := String(capturedAt),
      "text" := String(text), "digest" := String(o.digest), "source_ref" := RefJson(o.sourceRef)])
  }

  /** origin_from_object. */
  function OriginFromObject(v: Json): Result<Origin, Fault> {
    var digest := GetString(v, "digest");
    if digest.None? then Err(NoDigest)
    else
      match Get(v, "source_ref")
      case Some(String(s)) => Checked(Origin(digest.value, Some(s)))
      case Some(Null) => Checked(Origin(digest.value, None))
      case None => Checked(Origin(digest.value, None))
      case _ => Err(BadSourceRef)
  }

  function Checked(o: Origin): Result<Origin, Fault> {
    if ValidOrigin(o) then Ok(o) else Err(InvalidOrigin)
  }

  /** Reading an origin back from either of its two JSON forms. */
  lemma OriginRoundTrip(o: Origin, itemId: string, revision: nat, capturedAt: string, text: string)
    requires ValidOrigin(o)
    ensures OriginFromObject(OriginJson(o)) == Ok(o)
    ensures OriginFromObject(WitnessJson(itemId, revision, capturedAt, text, o)) == Ok(o)
  {
    var a, b := OriginJson(o), WitnessJson(itemId, revision, capturedAt, text, o);
    assert Get(a, "digest") == Some(String(o.digest)) && Get(a, "source_ref") == Some(RefJson(o.sourceRef));
    assert Get(b, "digest") == Some(String(o.digest)) && Get(b, "source_ref") == Some(RefJson(o.sourceRef));
  }

  /** The prefix and 64 lower-case hexadecimal digits. */
  ghost predicate DigestText(digest: string) {
    exists hex :: digest == "sha256:" + hex && |hex| == 64 && forall c :: c in hex ==> '0' <= c <= '9' || 'a' <= c <= 'f'
  }

  /** No reference, or one with something to see in it, no control character, and at most 4096 bytes. */
  ghost predicate ReferenceText(sourceRef: Option<string>) {
    sourceRef.Some? ==>
      && (exists c :: c in sourceRef.value && !IsSpace(c)) && (forall c :: c in sourceRef.value ==> !IsControl(c))
      && Utf8Length(sourceRef.value) <= 4096
  }

  lemma DigestIff(digest: string)
    ensures ValidDigest(digest) <==> DigestText(digest)
  {
    if ValidDigest(digest) {
      var hex := digest[7..];
      assert digest == "sha256:" + hex;
      forall c | c in hex ensures IsHexDigit(c) {
        var k :| 0 <= k < |hex| && hex[k] == c;
        assert digest[k + 7] == c;
      }
    }
    if DigestText(digest) {
      var hex :| digest == "sha256:" + hex && |hex| == 64 && forall c :: c in hex ==> '0' <= c <= '9' || 'a' <= c <= 'f';
      forall k | 7 <= k < 71 ensures IsHexDigit(digest[k]) { assert digest[k] == hex[k - 7] && hex[k - 7] in hex; }
    }
  }

  lemma ReferenceIff(sourceRef: Option<string>)
    ensures (sourceRef.Some? ==> ValidSourceRef(sourceRef.value)) <==> ReferenceText(sourceRef)
  {
    if sourceRef.Some? { BlankIff(sourceRef.value); }
  }

  /** An object is read as an origin exactly if its two fields are its digest
      and its reference, null and missing alike, and both are well formed. */
  lemma OriginReadIff(v: Json, o: Origin)
    ensures OriginFromObject(v) == Ok(o) <==>
            && Get(v, "digest") == Some(String(o.digest)) && DigestText(o.digest) && ReferenceText(o.sourceRef)
            && match o.sourceRef
               case Some(text) => Get(v, "source_ref") == Some(String(text))
               case None => Get(v, "source_ref").None? || Get(v, "source_ref") == Some(Null)
  {
    DigestIff(o.digest);
    ReferenceIff(o.sourceRef);
  }

  /******* What a valid snapshot is *******/

  function Items(snapshot: Json): Option<seq<Json>> {
    match Get(snapshot, "items")
    case Some(Array(rows)) => Some(rows)
    case _ => None
  }

  function Witnesses(snapshot: Json): Option<seq<Json>> {
    match Get(snapshot, "capture_witnesses")
    case None => Some([])
    case Some(Array(rows)) => Some(rows)
    case _ => None
  }

  /** The first item with this id. */
  function FirstItem(items: seq<Json>, id: string): Option<Json> {
    if items == [] then None
    else if GetString(items[0], "id") == Some(id) then Some(items[0])
    else FirstItem(items[1..], id)
  }

  predicate RevisionFits(top: Option<nat>, revision: Option<nat>) {
    revision.Some? && revision.value != 0 && (top.Some? ==> revision.value <= top.value)
  }

  /** One witness on its own: it names an existing item, carries that item's
      creation time, and its digest is the hash of its exact text. */
  ghost predicate WitnessHolds(hash: Hash, items: seq<Json>, top: Option<nat>, w: Json) {
    && WitnessId(w).Some?
    && GetString(w, "text").Some?
    && GetU64(w, "revision").Some? && 0 < GetU64(w, "revision").value
    && (top.Some? ==> GetU64(w, "revision").value <= top.value)
    && GetString(w, "captured_at").Some? && GetString(w, "captured_at").value != ""
    && FirstItem(items, WitnessId(w).value).Some?
    && GetString(FirstItem(items, WitnessId(w).value).value, "created_at") == GetString(w, "captured_at")
    && OriginFromObject(w).Ok?
    && OriginFromObject(w).value.digest == hash(GetString(w, "text").value)
  }

  function WitnessId(w: Json): Option<string> {
    var id := GetString(w, "item_id");
    if id.Some? && !IsBlank(id.value) then id else None
  }

  /** The item claims an origin; `null` is no claim. */
  predicate Claims(item: Json) {
    Get(item, "capture_origin").Some? && !Get(item, "capture_origin").value.Null?
  }

  /** The item's claim is this witness's. */
  ghost predicate Pairs(item: Json, w: Json) {
    && Claims(item) && GetString(item, "id").Some? && GetString(item, "id") == WitnessId(w)
    && OriginFromObject(Get(item, "capture_origin").value).Ok?
    && OriginFromObject(Get(item, "capture_origin").value) == OriginFromObject(w)
  }

  /** How a snapshot's two lists are read: the items are required, the witnesses may be missing. */
  lemma ListsIff(snapshot: Json, rows: seq<Json>)
    ensures Items(snapshot) == Some(rows) <==> Get(snapshot, "items") == Some(Array(rows))
    ensures Witnesses(snapshot) == Some(rows) <==>
            Get(snapshot, "capture_witnesses") == Some(Array(rows)) || (Get(snapshot, "capture_witnesses").None? && rows == [])
  {
  }

  /** A witness names the item whose id has something to see in it; an item claims an origin unless that is null. */
  lemma NamesIff(w: Json, id: string, item: Json)
    ensures WitnessId(w) == Some(id) <==> Get(w, "item_id") == Some(String(id)) && exists c :: c in id && !IsSpace(c)
    ensures Claims(item) <==> exists v: Json :: Get(item, "capture_origin") == Some(v) && v != Null
  {
    BlankIff(id);
    if Claims(item) { assert Get(item, "capture_origin") == Some(Get(item, "capture_origin").value); }
  }

  lemma BlankIff(s: string)
    ensures IsBlank(s) <==> forall c :: c in s ==> IsSpace(c)
  {
    if !IsBlank(s) {
      var k :| 0 <= k < |s| && !IsSpace(s[k]);
      assert s[k] in s;
    }
  }

  ghost predicate AllHold(hash: Hash, items: seq<Json>, top: Option<nat>, witnesses: seq<Json>) {
    forall w :: 0 <= w < |witnesses| ==> WitnessHolds(hash, items, top, witnesses[w])
  }

  ghost predicate DistinctItems(witnesses: seq<Json>) {
    forall w, w' :: 0 <= w < w' < |witnesses| ==> WitnessId(witnesses[w]) != WitnessId(witnesses[w'])
  }

  ghost predicate HasWitness(item: Json, witnesses: seq<Json>) {
    exists w :: 0 <= w < |witnesses| && Pairs(item, witnesses[w])
  }

  ghost predicate HasClaim(items: seq<Json>, w: Json) {
    exists i :: 0 <= i < |items| && Pairs(items[i], w)
  }

  ghost predicate ClaimsWitnessed(items: seq<Json>, witnesses: seq<Json>) {
    forall i :: 0 <= i < |items| && Claims(items[i]) ==> HasWitness(items[i], witnesses)
  }

  ghost predicate WitnessesClaimed(items: seq<Json>, witnesses: seq<Json>) {
    forall w :: 0 <= w < |witnesses| ==> HasClaim(items, witnesses[w])
  }

  ghost predicate Consistent(hash: Hash, items: seq<Json>, top: Option<nat>, witnesses: seq<Json>) {
    && AllHold(hash, items, top, witnesses) && DistinctItems(witnesses)
    && ClaimsWitnessed(items, witnesses) && WitnessesClaimed(items, witnesses)
  }

  ghost predicate Provenance(hash: Hash, snapshot: Json) {
    && Items(snapshot).Some? && Witnesses(snapshot).Some?
    && Consistent(hash, Items(snapshot).value, GetU64(snapshot, "revision"), Witnesses(snapshot).value)
  }

  /******* validate_snapshot_provenance *******/

  /** The checks on one witness, in the validator's order. */
  function CheckWitness(hash: Hash, items: seq<Json>, top: Option<nat>, w: Json): (r: Result<(string, Origin), Fault>)
    ensures r.Ok? <==> WitnessHolds(hash, items, top, w)
    ensures r.Ok? ==> WitnessId(w) == Some(r.value.0) && OriginFromObject(w) == Ok(r.value.1)
  {
    var itemId, text, capturedAt := WitnessId(w), GetString(w, "text"), GetString(w, "captured_at");
    if itemId.None? then Err(NoItemId)
    else if text.None? then Err(NoText)
    else if !RevisionFits(top, GetU64(w, "revision")) then Err(BadRevision)
    else if capturedAt.None? || capturedAt.value == "" then Err(NoCapturedAt)
    else if FirstItem(items, itemId.value).None? then Err(MissingItem)
    else if GetString(FirstItem(items, itemId.value).value, "created_at") != capturedAt then Err(CreatedAtDiffers)
    else match OriginFromObject(w)
      case Err(fault) => Err(fault)
      case Ok(origin) => if hash(text.value) != origin.digest then Err(DigestDiffers) else Ok((itemId.value, origin))
  }

  /** The witnesses read so far, by item. */
  ghost predicate Ledger(hash: Hash, items: seq<Json>, top: Option<nat>, read: seq<Json>, byItem: map<string, Origin>) {
    && AllHold(hash, items, top, read) && DistinctItems(read)
    && (forall w :: 0 <= w < |read| ==> Entered(read[w], byItem))
    && (forall id :: id in byItem ==> exists w :: 0 <= w < |read| && WitnessId(read[w]) == Some(id))
  }

  ghost predicate Entered(w: Json, byItem: map<string, Origin>) {
    WitnessId(w).Some? && WitnessId(w).value in byItem && OriginFromObject(w) == Ok(byItem[WitnessId(w).value])
  }

  lemma EnterOthers(read: seq<Json>, byItem: map<string, Origin>, id: string, origin: Origin, w: Json)
    requires (forall k :: 0 <= k < |read| ==> Entered(read[k], byItem)) && id !in byItem
    requires WitnessId(w) == Some(id) && OriginFromObject(w) == Ok(origin)
    ensures forall k :: 0 <= k < |read + [w]| ==> Entered((read + [w])[k], byItem[id := origin])
    ensures DistinctItems(read) ==> DistinctItems(read + [w])
  {
    forall k | 0 <= k < |read| ensures Entered(read[k], byItem[id := origin]) && WitnessId(read[k]) != Some(id) {
      assert Entered(read[k], byItem);
    }
  }

  lemma EnterKnown(read: seq<Json>, byItem: map<string, Origin>, id: string, origin: Origin, w: Json)
    requires WitnessId(w) == Some(id)
    requires forall x :: x in byItem ==> exists k :: 0 <= k < |read| && WitnessId(read[k]) == Some(x)
    ensures forall x :: x in byItem[id := origin] ==> exists k :: 0 <= k < |read + [w]| && WitnessId((read + [w])[k]) == Some(x)
  {
    forall x | x in byItem[id := origin] ensures exists k :: 0 <= k < |read + [w]| && WitnessId((read + [w])[k]) == Some(x) {
      if x == id {
        assert (read + [w])[|read|] == w;
      } else {
        var k :| 0 <= k < |read| && WitnessId(read[k]) == Some(x);
        assert (read + [w])[k] == read[k];
      }
    }
  }

  lemma Enter(hash: Hash, items: seq<Json>, top: Option<nat>, read: seq<Json>, w: Json, byItem: map<string, Origin>, id: string, origin: Origin)
    requires Ledger(hash, items, top, read, byItem) && WitnessHolds(hash, items, top, w)
    requires WitnessId(w) == Some(id) && OriginFromObject(w) == Ok(origin) && id !in byItem
    ensures Ledger(hash, items, top, read + [w], byItem[id := origin])
  {
    EnterOthers(read, byItem, id, origin, w);
    EnterKnown(read, byItem, id, origin, w);
  }

  /** A witness that does not hold, or the second for its item, is a fault of the whole snapshot. */
  lemma BadWitness(hash: Hash, items: seq<Json>, top: Option<nat>, witnesses: seq<Json>, n: nat, byItem: map<string, Origin>)
    requires n < |witnesses| && Ledger(hash, items, top, witnesses[..n], byItem)
    requires !WitnessHolds(hash, items, top, witnesses[n]) || WitnessId(witnesses[n]).value in byItem
    ensures !Consistent(hash, items, top, witnesses)
  {
    if WitnessHolds(hash, items, top, witnesses[n]) {
      var k :| 0 <= k < n && WitnessId(witnesses[..n][k]) == WitnessId(witnesses[n]);
      assert witnesses[..n][k] == witnesses[k];
    }
  }

  /** The first pass: the origins by item, or the fault of some witness. */
  method ReadWitnesses(hash: Hash, items: seq<Json>, top: Option<nat>, witnesses: seq<Json>)
    returns (r: Result<map<string, Origin>, Fault>)
    ensures r.Ok? ==> Ledger(hash, items, top, witnesses, r.value)
    ensures r.Err? ==> !Consistent(hash, items, top, witnesses)
  {
    var byItem: map<string, Origin> := map[];
    for n := 0 to |witnesses|
      invariant Ledger(hash, items, top, witnesses[..n], byItem)
    {
      var entered := EnterNext(hash, items, top, witnesses, n, byItem);
      if entered.Err? {
        return entered;
      }
      byItem := entered.value;
    }
    assert witnesses[..|witnesses|] == witnesses;
    r := Ok(byItem);
  }

  /** One turn of its loop. */
  method EnterNext(hash: Hash, items: seq<Json>, top: Option<nat>, witnesses: seq<Json>, n: nat, byItem: map<string, Origin>)
    returns (r: Result<map<string, Origin>, Fault>)
    requires n < |witnesses| && Ledger(hash, items, top, witnesses[..n], byItem)
    ensures r.Ok? ==> Ledger(hash, items, top, witnesses[..n + 1], r.value)
    ensures r.Err? ==> !Consistent(hash, items, top, witnesses)
  {
    var checked := CheckWitness(hash, items, top, witnesses[n]);
    if checked.Err? {
      BadWitness(hash, items, top, witnesses, n, byItem);
      return Err(checked.error);
    }
    if checked.value.0 in byItem {
      BadWitness(hash, items, top, witnesses, n, byItem);
      return Err(DuplicateWitness);
    }
    Enter(hash, items, top, witnesses[..n], witnesses[n], byItem, checked.value.0, checked.value.1);
    assert witnesses[..n] + [witnesses[n]] == witnesses[..n + 1];
    r := Ok(byItem[checked.value.0 := checked.value.1]);
  }

  /** It accepts exactly the snapshots with provenance. */
  method ValidateSnapshotProvenance(hash: Hash, snapshot: Json) returns (r: Result<(), Fault>)
    ensures r.Ok? <==> Provenance(hash, snapshot)
  {
    if Items(snapshot).None? {
      return Err(NoItems);
    }
    if Witnesses(snapshot).None? {
      return Err(WitnessesNotArray);
    }
    var items, witnesses, top := Items(snapshot).value, Witnesses(snapshot).value, GetU64(snapshot, "revision");
    var byItem := ReadWitnesses(hash, items, top, witnesses);
    if byItem.Err? {
      return Err(byItem.error);
    }
    r := CheckOrigins(hash, items, top, witnesses, byItem.value);
  }

  /** A claim that the ledger answers with its own origin. */
  ghost predicate Answered(item: Json, byItem: map<string, Origin>) {
    && GetString(item, "id").Some? && GetString(item, "id").value in byItem
    && Get(item, "capture_origin").Some?
    && OriginFromObject(Get(item, "capture_origin").value) == Ok(byItem[GetString(item, "id").value])
  }

  ghost predicate Claimed(items: seq<Json>, n: nat, byItem: map<string, Origin>, origins: set<string>)
    requires n <= |items|
  {
    && (forall i :: 0 <= i < n && Claims(items[i]) ==> Answered(items[i], byItem) && GetString(items[i], "id").value in origins)
    && (forall id :: id in origins ==> exists i :: 0 <= i < n && Claims(items[i]) && GetString(items[i], "id") == Some(id))
  }

  /** The checks on one claiming item, in the validator's order. */
  function CheckClaim(item: Json, byItem: map<string, Origin>): (r: Result<string, Fault>)
    requires Claims(item)
    ensures r.Ok? <==> Answered(item, byItem)
    ensures r.Ok? ==> GetString(item, "id") == Some(r.value)
  {
    var itemId := GetString(item, "id");
    if itemId.None? then Err(NoOriginItemId)
    else match OriginFromObject(Get(item, "capture_origin").value)
      case Err(fault) => Err(fault)
      case Ok(origin) =>
        if itemId.value !in byItem then Err(NoWitness)
        else if byItem[itemId.value] != origin then Err(OriginsDisagree) else Ok(itemId.value)
  }

  ghost predicate AllIn(byItem: map<string, Origin>, origins: set<string>) {
    forall id :: id in byItem ==> id in origins
  }

  /** One turn of the second pass: the claim of item `n`, if it makes one. */
  method ClaimNext(hash: Hash, items: seq<Json>, top: Option<nat>, witnesses: seq<Json>, byItem: map<string, Origin>, n: nat, origins: set<string>)
    returns (r: Result<set<string>, Fault>)
    requires n < |items| && Ledger(hash, items, top, witnesses, byItem) && Claimed(items, n, byItem, origins)
    ensures r.Ok? ==> Claimed(items, n + 1, byItem, r.value)
    ensures r.Err? ==> !Consistent(hash, items, top, witnesses)
  {
    if !Claims(items[n]) {
      return Ok(origins);
    }
    var checked := CheckClaim(items[n], byItem);
    if checked.Err? {
      UnansweredClaim(hash, items, top, witnesses, byItem, n);
      return Err(checked.error);
    }
    ClaimedNext(items, n, byItem, origins, checked.value);
    r := Ok(origins + {checked.value});
  }

  lemma ClaimedNext(items: seq<Json>, n: nat, byItem: map<string, Origin>, origins: set<string>, id: string)
    requires n < |items| && Claimed(items, n, byItem, origins)
    requires Claims(items[n]) && Answered(items[n], byItem) && GetString(items[n], "id") == Some(id)
    ensures Claimed(items, n + 1, byItem, origins + {id})
  {
    forall x | x in origins + {id} ensures exists i :: 0 <= i < n + 1 && Claims(items[i]) && GetString(items[i], "id") == Some(x) {
      if x == id { assert Claims(items[n]); }
    }
  }

  /** The second and third passes. */
  method CheckOrigins(hash: Hash, items: seq<Json>, top: Option<nat>, witnesses: seq<Json>, byItem: map<string, Origin>)
    returns (r: Result<(), Fault>)
    requires Ledger(hash, items, top, witnesses, byItem)
    ensures r.Ok? <==> Consistent(hash, items, top, witnesses)
  {
    var origins: set<string> := {};
    for n := 0 to |items|
      invariant Claimed(items, n, byItem, origins)
    {
      var claimed := ClaimNext(hash, items, top, witnesses, byItem, n, origins);
      if claimed.Err? {
        return Err(claimed.error);
      }
      origins := claimed.value;
    }
    AllClaimed(hash, items, top, witnesses, byItem, origins);
    r := MatchAll(byItem, origins);
  }

  /** The third pass: every witness has a claim. */
  method MatchAll(byItem: map<string, Origin>, origins: set<string>) returns (r: Result<(), Fault>)
    ensures r.Ok? <==> AllIn(byItem, origins)
  {
    var unmatched := set id | id in byItem && id !in origins;
    assert forall id :: id in byItem && id !in origins ==> id in unmatched;
    if unmatched != {} {
      var id :| id in unmatched;
      return Err(NoMatchingOrigin);
    }
    r := Ok(());
  }

  lemma UnansweredClaim(hash: Hash, items: seq<Json>, top: Option<nat>, witnesses: seq<Json>, byItem: map<string, Origin>, n: nat)
    requires Ledger(hash, items, top, witnesses, byItem) && n < |items| && Claims(items[n]) && !Answered(items[n], byItem)
    ensures !Consistent(hash, items, top, witnesses)
  {
    AnsweredIffWitnessed(hash, items, top, witnesses, byItem, items[n]);
  }

  lemma AnsweredIffWitnessed(hash: Hash, items: seq<Json>, top: Option<nat>, witnesses: seq<Json>, byItem: map<string, Origin>, item: Json)
    requires Ledger(hash, items, top, witnesses, byItem) && Claims(item)
    ensures Answered(item, byItem) <==> HasWitness(item, witnesses)
  {
    if Answered(item, byItem) {
      var id := GetString(item, "id").value;
      var w :| 0 <= w < |witnesses| && WitnessId(witnesses[w]) == Some(id);
      assert Entered(witnesses[w], byItem);
      assert Pairs(item, witnesses[w]);
    }
    if HasWitness(item, witnesses) {
      var w :| 0 <= w < |witnesses| && Pairs(item, witnesses[w]);
      assert Entered(witnesses[w], byItem);
    }
  }

  lemma AllClaimed(hash: Hash, items: seq<Json>, top: Option<nat>, witnesses: seq<Json>, byItem: map<string, Origin>, origins: set<string>)
    requires Ledger(hash, items, top, witnesses, byItem) && Claimed(items, |items|, byItem, origins)
    ensures Consistent(hash, items, top, witnesses) <==> AllIn(byItem, origins)
  {
    ClaimsAreWitnessed(hash, items, top, witnesses, byItem, origins);
    WitnessesClaimedIff(hash, items, top, witnesses, byItem, origins);
  }

  lemma ClaimsAreWitnessed(hash: Hash, items: seq<Json>, top: Option<nat>, witnesses: seq<Json>, byItem: map<string, Origin>, origins: set<string>)
    requires Ledger(hash, items, top, witnesses, byItem) && Claimed(items, |items|, byItem, origins)
    ensures ClaimsWitnessed(items, witnesses)
  {
    forall i | 0 <= i < |items| && Claims(items[i]) ensures HasWitness(items[i], witnesses) {
      AnsweredIffWitnessed(hash, items, top, witnesses, byItem, items[i]);
    }
  }

  lemma WitnessesClaimedIff(hash: Hash, items: seq<Json>, top: Option<nat>, witnesses: seq<Json>, byItem: map<string, Origin>, origins: set<string>)
    requires Ledger(hash, items, top, witnesses, byItem) && Claimed(items, |items|, byItem, origins)
    ensures WitnessesClaimed(items, witnesses) <==> AllIn(byItem, origins)
  {
    forall w | 0 <= w < |witnesses|
      ensures HasClaim(items, witnesses[w]) <==> WitnessId(witnesses[w]).value in origins
    {
      ClaimedIff(items, byItem, origins, witnesses[w]);
    }
    if WitnessesClaimed(items, witnesses) {
      forall id | id in byItem ensures id in origins {
        var w :| 0 <= w < |witnesses| && WitnessId(witnesses[w]) == Some(id);
        assert HasClaim(items, witnesses[w]);
      }
    }
    if AllIn(byItem, origins) {
      forall w | 0 <= w < |witnesses| ensures HasClaim(items, witnesses[w]) {
        assert Entered(witnesses[w], byItem);
      }
    }
  }

  lemma ClaimedIff(items: seq<Json>, byItem: map<string, Origin>, origins: set<string>, w: Json)
    requires Claimed(items, |items|, byItem, origins) && Entered(w, byItem)
    ensures HasClaim(items, w) <==> WitnessId(w).value in origins
  {
    if WitnessId(w).value in origins {
      var i :| 0 <= i < |items| && Claims(items[i]) && GetString(items[i], "id") == WitnessId(w);
      assert Pairs(items[i], w);
    }
  }

  /******* What provenance gives *******/

  ghost predicate UniqueIds(items: seq<Json>) {
    forall i, j :: 0 <= i < j < |items| && GetString(items[i], "id").Some? ==> GetString(items[i], "id") != GetString(items[j], "id")
  }

  /** With unique item ids a pairing is one to one, ... */
  lemma PairingIsOneToOne(items: seq<Json>, witnesses: seq<Json>, i: nat, i': nat, w: nat, w': nat)
    requires UniqueIds(items) && DistinctItems(witnesses)
    requires i < |items| && i' < |items| && w < |witnesses| && w' < |witnesses|
    requires Pairs(items[i], witnesses[w]) && Pairs(items[i'], witnesses[w'])
    ensures i == i' <==> w == w'
  {
    if i < i' { assert GetString(items[i], "id") != GetString(items[i'], "id"); }
    if i' < i { assert GetString(items[i'], "id") != GetString(items[i], "id"); }
    if w < w' { assert WitnessId(witnesses[w]) != WitnessId(witnesses[w']); }
    if w' < w { assert WitnessId(witnesses[w']) != WitnessId(witnesses[w]); }
  }

  /** ... and total on both sides, and every claimed digest is the hash of the
      exact text its one witness keeps, taken when the item was created. */
  lemma ClaimIsBacked(hash: Hash, snapshot: Json, i: nat)
    requires Provenance(hash, snapshot) && UniqueIds(Items(snapshot).value)
    requires i < |Items(snapshot).value| && Claims(Items(snapshot).value[i])
    ensures var item, witnesses := Items(snapshot).value[i], Witnesses(snapshot).value;
            exists w :: 0 <= w < |witnesses| && Pairs(item, witnesses[w])
              && GetString(witnesses[w], "text").Some?
              && OriginFromObject(Get(item, "capture_origin").value).value.digest == hash(GetString(witnesses[w], "text").value)
              && GetString(item, "created_at") == GetString(witnesses[w], "captured_at")
  {
    var items, witnesses := Items(snapshot).value, Witnesses(snapshot).value;
    assert HasWitness(items[i], witnesses);
    var w :| 0 <= w < |witnesses| && Pairs(items[i], witnesses[w]);
    assert WitnessHolds(hash, items, GetU64(snapshot, "revision"), witnesses[w]);
    OnlyItem(items, i, WitnessId(witnesses[w]).value);
  }

  /** Two claims answered by one witness. */
  ghost predicate Shared(items: seq<Json>, witnesses: seq<Json>, i: nat, i': nat, w: nat) {
    i < i' < |items| && w < |witnesses| && Pairs(items[i], witnesses[w]) && Pairs(items[i'], witnesses[w])
  }

  lemma SameWitness(witnesses: seq<Json>, w: nat, w': nat)
    requires DistinctItems(witnesses) && w < |witnesses| && w' < |witnesses|
    requires WitnessId(witnesses[w]) == WitnessId(witnesses[w'])
    ensures w == w'
  {
  }

  /** Where every claim has its witness, two claims share one exactly if their items have the same id. */
  lemma SharedIffSameId(items: seq<Json>, witnesses: seq<Json>, i: nat, i': nat)
    requires ClaimsWitnessed(items, witnesses) && DistinctItems(witnesses)
    requires i < i' < |items| && Claims(items[i]) && Claims(items[i'])
    ensures (exists w :: Shared(items, witnesses, i, i', w)) <==> GetString(items[i], "id") == GetString(items[i'], "id")
  {
    assert HasWitness(items[i], witnesses) && HasWitness(items[i'], witnesses);
    var w :| 0 <= w < |witnesses| && Pairs(items[i], witnesses[w]);
    var w' :| 0 <= w' < |witnesses| && Pairs(items[i'], witnesses[w']);
    if GetString(items[i], "id") == GetString(items[i'], "id") {
      SameWitness(witnesses, w, w');
      assert Shared(items, witnesses, i, i', w);
    }
  }

  /** So an accepted snapshot gives each claim a witness of its own exactly if
      no two claiming items have the same id. */
  lemma OwnWitnessesIff(hash: Hash, snapshot: Json)
    requires Provenance(hash, snapshot)
    ensures var items, witnesses := Items(snapshot).value, Witnesses(snapshot).value;
            (forall i, i', w :: !Shared(items, witnesses, i, i', w)) <==> DistinctClaims(items)
  {
    var items, witnesses := Items(snapshot).value, Witnesses(snapshot).value;
    forall i: nat, i': nat | i < i' < |items| && Claims(items[i]) && Claims(items[i'])
      ensures (exists w :: Shared(items, witnesses, i, i', w)) <==> GetString(items[i], "id") == GetString(items[i'], "id")
    {
      SharedIffSameId(items, witnesses, i, i');
    }
  }

  ghost predicate DistinctClaims(items: seq<Json>) {
    forall i: nat, i': nat :: i < i' < |items| && Claims(items[i]) && Claims(items[i']) ==>
      GetString(items[i], "id") != GetString(items[i'], "id")
  }

  /** Two items with one id may share a witness: the validator accepts them. */
  lemma SharedWitnessAccepted(hash: Hash, text: string)
    requires ValidDigest(hash(text))
    ensures var origin := Origin(hash(text), None);
            var item := Object(map[]["id" := String("a")]["created_at" := String("now")]["capture_origin" := OriginJson(origin)]);
            Consistent(hash, [item, item], None, [WitnessJson("a", 1, "now", text, origin)])
  {
    var origin := Origin(hash(text), None);
    var item := Object(map[]["id" := String("a")]["created_at" := String("now")]["capture_origin" := OriginJson(origin)]);
    var row := WitnessJson("a", 1, "now", text, origin);
    OriginRoundTrip(origin, "a", 1, "now", text);
    RowFields("a", 1, "now", text, origin);
    ItemFields(map[], "a", "now", origin);
    assert !IsBlank("a") by { assert !IsSpace("a"[0]); }
    TwiceConsistent(hash, item, row, "a");
  }

  lemma TwiceConsistent(hash: Hash, item: Json, row: Json, id: string)
    requires GetString(item, "id") == Some(id) && WitnessId(row) == Some(id) && Pairs(item, row)
    requires GetString(row, "text").Some? && GetU64(row, "revision") == Some(1)
    requires GetString(row, "captured_at").Some? && GetString(row, "captured_at").value != ""
    requires GetString(item, "created_at") == GetString(row, "captured_at")
    requires OriginFromObject(row).Ok? && OriginFromObject(row).value.digest == hash(GetString(row, "text").value)
    ensures Consistent(hash, [item, item], None, [row])
  {
    assert FirstItem([item, item], id) == Some(item);
    assert HasWitness(item, [row]) by { assert Pairs(item, [row][0]); }
    assert HasClaim([item, item], row) by { assert Pairs([item, item][0], row); }
  }

  lemma {:induction false} OnlyItem(items: seq<Json>, i: nat, id: string)
    requires UniqueIds(items) && i < |items| && GetString(items[i], "id") == Some(id)
    ensures FirstItem(items, id) == Some(items[i])
  {
    if GetString(items[0], "id") == Some(id) {
      assert i == 0;
    } else {
      OnlyItem(items[1..], i - 1, id);
    }
  }

  /******* A new capture *******/

  /** The snapshot after one more capture: a new item, and its witness. */
  function WithCapture(snapshot: Json, item: Json, row: Json, revision: nat): Json
    requires Items(snapshot).Some? && Witnesses(snapshot).Some?
  {
    Object(snapshot.fields
      ["items" := Array(Items(snapshot).value + [item])]
      ["capture_witnesses" := Array(Witnesses(snapshot).value + [row])]
      ["revision" := Number(Some(revision))])
  }

  lemma {:induction false} FirstItemAppend(items: seq<Json>, item: Json, id: string)
    ensures FirstItem(items + [item], id) ==
            if FirstItem(items, id).Some? then FirstItem(items, id)
            else if GetString(item, "id") == Some(id) then Some(item) else None
  {
    if items == [] {
      assert items + [item] == [item] && [item][1..] == [];
    } else {
      assert (items + [item])[1..] == items[1..] + [item];
      FirstItemAppend(items[1..], item, id);
    }
  }

  lemma OldWitnessHolds(hash: Hash, items: seq<Json>, item: Json, top: Option<nat>, top': nat, w: Json)
    requires WitnessHolds(hash, items, top, w)
    requires RevisionFits(Some(top'), GetU64(w, "revision"))
    ensures WitnessHolds(hash, items + [item], Some(top'), w)
  {
    FirstItemAppend(items, item, WitnessId(w).value);
  }

  /** A capture of any text under a fresh item id, at a revision that is not
      behind the snapshot, keeps the snapshot valid. */
  lemma CaptureKeepsProvenance(
      hash: Hash, snapshot: Json, fields: map<string, Json>, itemId: string, capturedAt: string,
      text: string, sourceRef: Option<string>, revision: nat)
    requires Provenance(hash, snapshot)
    requires DigestText(hash(text)) && ReferenceText(sourceRef)
    requires !IsBlank(itemId) && FirstItem(Items(snapshot).value, itemId).None? && capturedAt != "" && revision > 0
    requires GetU64(snapshot, "revision").Some? && GetU64(snapshot, "revision").value <= revision
    ensures var origin := Origin(hash(text), sourceRef);
            var item := Object(fields["id" := String(itemId)]["created_at" := String(capturedAt)]["capture_origin" := OriginJson(origin)]);
            && OriginForCapture(hash, text, sourceRef) == Ok(origin)
            && Provenance(hash, WithCapture(snapshot, item, WitnessJson(itemId, revision, capturedAt, text, origin), revision))
  {
    var origin := Origin(hash(text), sourceRef);
    DigestIff(hash(text));
    ReferenceIff(sourceRef);
    var item := Object(fields["id" := String(itemId)]["created_at" := String(capturedAt)]["capture_origin" := OriginJson(origin)]);
    var row := WitnessJson(itemId, revision, capturedAt, text, origin);
    var items, witnesses := Items(snapshot).value, Witnesses(snapshot).value;
    NewPair(hash, items, item, row, fields, itemId, capturedAt, text, origin, revision);
    Extended(hash, snapshot, item, row, revision);
  }

  lemma NewPair(
      hash: Hash, items: seq<Json>, item: Json, row: Json, fields: map<string, Json>,
      itemId: string, capturedAt: string, text: string, origin: Origin, revision: nat)
    requires ValidOrigin(origin) && origin.digest == hash(text)
    requires !IsBlank(itemId) && FirstItem(items, itemId).None? && capturedAt != "" && revision > 0
    requires item == Object(fields["id" := String(itemId)]["created_at" := String(capturedAt)]["capture_origin" := OriginJson(origin)])
    requires row == WitnessJson(itemId, revision, capturedAt, text, origin)
    ensures WitnessHolds(hash, items + [item], Some(revision), row) && Pairs(item, row)
    ensures WitnessId(row) == Some(itemId)
  {
    OriginRoundTrip(origin, itemId, revision, capturedAt, text);
    FirstItemAppend(items, item, itemId);
    RowFields(itemId, revision, capturedAt, text, origin);
    ItemFields(fields, itemId, capturedAt, origin);
  }

  lemma RowFields(itemId: string, revision: nat, capturedAt: string, text: string, origin: Origin)
    ensures var row := WitnessJson(itemId, revision, capturedAt, text, origin);
            && GetString(row, "item_id") == Some(itemId) && GetString(row, "text") == Some(text)
            && GetU64(row, "revision") == Some(revision) && GetString(row, "captured_at") == Some(capturedAt)
  {
    var row := WitnessJson(itemId, revision, capturedAt, text, origin);
    assert Get(row, "item_id") == Some(String(itemId)) && Get(row, "text") == Some(String(text));
    assert Get(row, "revision") == Some(Number(Some(revision))) && Get(row, "captured_at") == Some(String(capturedAt));
  }

  lemma ItemFields(fields: map<string, Json>, itemId: string, capturedAt: string, origin: Origin)
    ensures var item := Object(fields["id" := String(itemId)]["created_at" := String(capturedAt)]["capture_origin" := OriginJson(origin)]);
            && GetString(item, "id") == Some(itemId) && GetString(item, "created_at") == Some(capturedAt)
            && Get(item, "capture_origin") == Some(OriginJson(origin))
  {
    var item := Object(fields["id" := String(itemId)]["created_at" := String(capturedAt)]["capture_origin" := OriginJson(origin)]);
    assert Get(item, "id") == Some(String(itemId)) && Get(item, "created_at") == Some(String(capturedAt));
    assert Get(item, "capture_origin") == Some(OriginJson(origin));
  }

  lemma PairedStill(items: seq<Json>, witnesses: seq<Json>, item: Json, row: Json)
    requires ClaimsWitnessed(items, witnesses) && WitnessesClaimed(items, witnesses) && Pairs(item, row)
    ensures ClaimsWitnessed(items + [item], witnesses + [row]) && WitnessesClaimed(items + [item], witnesses + [row])
  {
    var items', witnesses' := items + [item], witnesses + [row];
    forall i | 0 <= i < |items'| && Claims(items'[i]) ensures HasWitness(items'[i], witnesses') {
      if i < |items| {
        assert HasWitness(items[i], witnesses);
        var w :| 0 <= w < |witnesses| && Pairs(items[i], witnesses[w]);
        assert witnesses'[w] == witnesses[w];
      } else {
        assert witnesses'[|witnesses|] == row;
      }
    }
    forall w | 0 <= w < |witnesses'| ensures HasClaim(items', witnesses'[w]) {
      if w < |witnesses| {
        assert HasClaim(items, witnesses[w]);
        var i :| 0 <= i < |items| && Pairs(items[i], witnesses[w]);
        assert items'[i] == items[i];
      } else {
        assert items'[|items|] == item;
      }
    }
  }

  lemma HoldStill(hash: Hash, items: seq<Json>, top: nat, witnesses: seq<Json>, item: Json, row: Json, revision: nat)
    requires AllHold(hash, items, Some(top), witnesses) && DistinctItems(witnesses) && top <= revision
    requires WitnessHolds(hash, items + [item], Some(revision), row) && FirstItem(items, WitnessId(row).value).None?
    ensures AllHold(hash, items + [item], Some(revision), witnesses + [row]) && DistinctItems(witnesses + [row])
  {
    var witnesses' := witnesses + [row];
    forall w | 0 <= w < |witnesses'| ensures WitnessHolds(hash, items + [item], Some(revision), witnesses'[w]) {
      if w < |witnesses| { OldWitnessHolds(hash, items, item, Some(top), revision, witnesses[w]); }
    }
    forall w, w' | 0 <= w < w' < |witnesses'| ensures WitnessId(witnesses'[w]) != WitnessId(witnesses'[w']) {
      assert WitnessHolds(hash, items, Some(top), witnesses[w]);
    }
  }

  /** Adding an item and its own new witness keeps what held of the others. */
  lemma Extended(hash: Hash, snapshot: Json, item: Json, row: Json, revision: nat)
    requires Provenance(hash, snapshot)
    requires GetU64(snapshot, "revision").Some? && GetU64(snapshot, "revision").value <= revision
    requires WitnessHolds(hash, Items(snapshot).value + [item], Some(revision), row) && Pairs(item, row)
    requires FirstItem(Items(snapshot).value, WitnessId(row).value).None?
    ensures Provenance(hash, WithCapture(snapshot, item, row, revision))
  {
    var items, witnesses := Items(snapshot).value, Witnesses(snapshot).value;
    var after := WithCapture(snapshot, item, row, revision);
    AfterCapture(snapshot, item, row, revision);
    HoldStill(hash, items, GetU64(snapshot, "revision").value, witnesses, item, row, revision);
    PairedStill(items, witnesses, item, row);
  }

  lemma AfterCapture(snapshot: Json, item: Json, row: Json, revision: nat)
    requires Items(snapshot).Some? && Witnesses(snapshot).Some?
    ensures var after := WithCapture(snapshot, item, row, revision);
            && Items(after) == Some(Items(snapshot).value + [item])
            && Witnesses(after) == Some(Witnesses(snapshot).value + [row])
            && GetU64(after, "revision") == Some(revision)
  {
    var after := WithCapture(snapshot, item, row, revision);
    assert Get(after, "items") == Some(Array(Items(snapshot).value + [item]));
    assert Get(after, "capture_witnesses") == Some(Array(Witnesses(snapshot).value + [row]));
    assert Get(after, "revision") == Some(Number(Some(revision)));
  }
}

/** The in-memory artifact store as a value: ordered records, payload bytes and idempotency keys. */
module ArtifactRecords {
  import opened Wrappers

  type Byte = b: int | 0 <= b < 256

  type Bytes = seq<Byte>

  datatype Ownership = Ownership(createdBy: string, workspaceId: string, threadId: string, runId: string)

  datatype Access = Access(userId: string, workspaceId: string, threadId: Option<string>, runId: Option<string>)

  datatype Operation = Create | ReadMetadata | ReadPayload | List | Delete

  datatype Reference = Reference(storageKey: string, contentType: string, byteSize: nat, sha256: string)

  /** A JSON property, as far as the stores look into it. */
  datatype Property = Text(text: string) | Number(number: int) | OtherJson(json: string)

  type Properties = map<string, Property>

  datatype Metadata = Metadata(
    artifactId: string, kind: string, ownership: Ownership, visibility: string,
    payload: Reference, properties: Properties, createdAt: string)

  datatype PutInput = PutInput(
    artifactId: Option<string>, idempotencyKey: string, kind: string, ownership: Ownership, visibility: string,
    contentType: string, payload: Bytes, expectedSha256: Option<string>, properties: Properties)

  datatype ArtifactError =
    AccessDenied | ChecksumMismatch | IdempotencyConflict | PayloadNotFound | InvalidInput | Malformed

  /** What the store is given: who may do what, the hash, and the id drawn at each count of the sequence. */
  datatype Env = Env(
    authorize: (Operation, Access, Option<Metadata>) -> bool,
    sha256: Bytes -> string,
    newId: nat -> string)

  /** Records are listed in the order their ids were first stored; storing an id again keeps its place. */
  datatype State = State(
    records: seq<Metadata>, idempotency: map<string, string>, payloads: map<string, Bytes>, sequence: nat)

  datatype Outcome<T> = Outcome(result: Result<T, ArtifactError>, state: State)

  const EMPTY := State([], map[], map[], 0)

  predicate IsIdChar(c: char) {
    'a' <= c <= 'z' || 'A' <= c <= 'Z' || '0' <= c <= '9' || c == '_' || c == '-'
  }

  predicate IsArtifactId(id: string) {
    && "art_" <= id
    && 10 <= |id| <= 132
    && id[4] != '_' && id[4] != '-'
    && forall i :: 4 <= i < |id| ==> IsIdChar(id[i])
  }

  function StorageKey(id: string): string {
    "artifacts/" + id
  }

  predicate Parses(m: Metadata) {
    IsArtifactId(m.artifactId) && 1 <= |m.payload.contentType| <= 255
  }

  // ----- the ordered record map -----

  function Lookup(records: seq<Metadata>, id: string): Option<Metadata> {
    if records == [] then None
    else if records[0].artifactId == id then Some(records[0])
    else Lookup(records[1..], id)
  }

  function Store(records: seq<Metadata>, m: Metadata): seq<Metadata> {
    if records == [] then [m]
    else if records[0].artifactId == m.artifactId then [m] + records[1..]
    else [records[0]] + Store(records[1..], m)
  }

  function Drop(records: seq<Metadata>, id: string): seq<Metadata> {
    if records == [] then []
    else if records[0].artifactId == id then records[1..]
    else [records[0]] + Drop(records[1..], id)
  }

  /** The idempotency keys that do not lead to this artifact. */
  function Unbind(idempotency: map<string, string>, id: string): map<string, string> {
    map key | key in idempotency && idempotency[key] != id :: idempotency[key]
  }

  // ----- operations -----

  predicate OwnershipMatches(access: Access, o: Ownership) {
    && access.userId == o.createdBy
    && access.workspaceId == o.workspaceId
    && access.threadId == Some(o.threadId)
    && access.runId == Some(o.runId)
  }

  /** The record an idempotency key leads to; the code takes an empty id for no id. */
  function Bound(s: State, key: string): Option<Metadata> {
    if key in s.idempotency && s.idempotency[key] != "" then Lookup(s.records, s.idempotency[key]) else None
  }

  function Build(env: Env, input: PutInput, id: string, now: string): Metadata {
    Metadata(id, input.kind, input.ownership, input.visibility,
             Reference(StorageKey(id), input.contentType, |input.payload|, env.sha256(input.payload)),
             input.properties, now)
  }

  predicate ChecksumFails(env: Env, input: PutInput) {
    input.expectedSha256.Some? && input.expectedSha256.value !in {"", env.sha256(input.payload)}
  }

  function Drawn(s: State, input: PutInput): nat {
    if input.artifactId.Some? then s.sequence else s.sequence + 1
  }

  function ChosenId(s: State, env: Env, input: PutInput): string {
    if input.artifactId.Some? then input.artifactId.value else env.newId(s.sequence + 1)
  }

  function PutTo(s: State, env: Env, input: PutInput, access: Access, now: string): Outcome<Metadata> {
    if !OwnershipMatches(access, input.ownership) then Outcome(Err(AccessDenied), s)
    else if |input.idempotencyKey| < 1 || |input.idempotencyKey| > 256 then Outcome(Err(InvalidInput), s)
    else
      match Bound(s, input.idempotencyKey)
      case Some(m) =>
        if !env.authorize(Create, access, Some(m)) then Outcome(Err(AccessDenied), s)
        else if m.payload.sha256 != env.sha256(input.payload) then Outcome(Err(IdempotencyConflict), s)
        else Outcome(Ok(m), s)
      case None =>
        if !env.authorize(Create, access, None) then Outcome(Err(AccessDenied), s)
        else if ChecksumFails(env, input) then Outcome(Err(ChecksumMismatch), s)
        else
          var m := Build(env, input, ChosenId(s, env, input), now);
          if !Parses(m) then Outcome(Err(Malformed), s.(sequence := Drawn(s, input)))
          else Outcome(Ok(m), Added(s, m, input.idempotencyKey, input.payload, Drawn(s, input)))
  }

  function Added(s: State, m: Metadata, key: string, payload: Bytes, sequence: nat): State {
    State(Store(s.records, m), s.idempotency[key := m.artifactId],
          s.payloads[m.payload.storageKey := payload], sequence)
  }

  function DeleteFrom(s: State, env: Env, id: string, access: Access): Outcome<bool> {
    if !IsArtifactId(id) then Outcome(Err(Malformed), s)
    else
      match Lookup(s.records, id)
      case None => Outcome(Ok(false), s)
      case Some(m) =>
        if !env.authorize(Delete, access, Some(m)) then Outcome(Err(AccessDenied), s)
        else Outcome(Ok(true), Removed(s, m))
  }

  function Removed(s: State, m: Metadata): State {
    s.(records := Drop(s.records, m.artifactId), idempotency := Unbind(s.idempotency, m.artifactId),
       payloads := s.payloads - {m.payload.storageKey})
  }

  function MetadataOf(s: State, env: Env, id: string, access: Access): Result<Option<Metadata>, ArtifactError> {
    if !IsArtifactId(id) then Err(Malformed)
    else
      match Lookup(s.records, id)
      case None => Ok(None)
      case Some(m) => if !env.authorize(ReadMetadata, access, Some(m)) then Err(AccessDenied) else Ok(Some(m))
  }

  function PayloadOf(s: State, env: Env, id: string, access: Access): Result<Option<Bytes>, ArtifactError> {
    if !IsArtifactId(id) then Err(Malformed)
    else
      match Lookup(s.records, id)
      case None => Ok(None)
      case Some(m) =>
        if !env.authorize(ReadPayload, access, Some(m)) then Err(AccessDenied)
        else if m.payload.storageKey !in s.payloads then Err(PayloadNotFound)
        else Ok(Some(s.payloads[m.payload.storageKey]))
  }

  function Visible(records: seq<Metadata>, env: Env, access: Access): seq<Metadata> {
    if records == [] then []
    else
      var rest := Visible(records[1..], env, access);
      var m := records[0];
      if m.ownership.workspaceId == access.workspaceId && env.authorize(ReadMetadata, access, Some(m)) then [m] + rest
      else rest
  }

  function Listing(s: State, env: Env, access: Access): Result<seq<Metadata>, ArtifactError> {
    if !env.authorize(List, access, None) then Err(AccessDenied) else Ok(Visible(s.records, env, access))
  }

  // ----- the invariant -----

  ghost predicate DistinctIds(records: seq<Metadata>) {
    forall i, j :: 0 <= i < j < |records| ==> records[i].artifactId != records[j].artifactId
  }

  /** The payload of a record is there, with the length and the hash that its metadata states. */
  predicate Held(s: State, env: Env, m: Metadata) {
    && m.payload.storageKey == StorageKey(m.artifactId)
    && m.payload.storageKey in s.payloads
    && |s.payloads[m.payload.storageKey]| == m.payload.byteSize
    && env.sha256(s.payloads[m.payload.storageKey]) == m.payload.sha256
    && IsArtifactId(m.artifactId)
  }

  ghost predicate AllHeld(s: State, env: Env) {
    forall m :: m in s.records ==> Held(s, env, m)
  }

  /** Every payload belongs to a record. */
  ghost predicate NoStrayPayload(s: State) {
    forall k :: k in s.payloads ==> OwnsPayload(s.records, k)
  }

  ghost predicate OwnsPayload(records: seq<Metadata>, k: string) {
    exists m :: m in records && StorageKey(m.artifactId) == k
  }

  /** Every idempotency key leads to a record. */
  ghost predicate NoStrayKey(s: State) {
    forall key :: key in s.idempotency ==> Lookup(s.records, s.idempotency[key]).Some?
  }

  ghost predicate Consistent(s: State, env: Env) {
    DistinctIds(s.records) && AllHeld(s, env) && NoStrayPayload(s) && NoStrayKey(s)
  }

  // ----- the record map behaves as a map -----

  lemma {:induction false} LookupMeaning(records: seq<Metadata>, id: string)
    ensures Lookup(records, id).Some? ==>
              Lookup(records, id).value in records && Lookup(records, id).value.artifactId == id
    ensures Lookup(records, id).None? ==> forall m :: m in records ==> m.artifactId != id
  {
    if records != [] { LookupMeaning(records[1..], id); }
  }

  lemma LookupMember(records: seq<Metadata>, m: Metadata)
    requires DistinctIds(records) && m in records
    ensures Lookup(records, m.artifactId) == Some(m)
  {
    LookupMeaning(records, m.artifactId);
    var found := Lookup(records, m.artifactId);
    var i :| 0 <= i < |records| && records[i] == m;
    var j :| 0 <= j < |records| && records[j] == found.value;
    assert records[i].artifactId == records[j].artifactId;
  }

  lemma DistinctTail(records: seq<Metadata>)
    requires records != [] && DistinctIds(records)
    ensures DistinctIds(records[1..]) && forall m :: m in records[1..] ==> m.artifactId != records[0].artifactId
  {
    var tail := records[1..];
    forall m | m in tail ensures m.artifactId != records[0].artifactId {
      var i :| 0 <= i < |tail| && tail[i] == m;
      assert records[i + 1] == m;
    }
  }

  lemma DistinctCons(m: Metadata, records: seq<Metadata>)
    requires DistinctIds(records) && forall x :: x in records ==> x.artifactId != m.artifactId
    ensures DistinctIds([m] + records)
  {
    var all := [m] + records;
    forall i, j | 0 <= i < j < |all| ensures all[i].artifactId != all[j].artifactId {
      assert all[j] == records[j - 1] && records[j - 1] in records;
    }
  }

  lemma {:induction false} StoreMembers(records: seq<Metadata>, m: Metadata)
    requires DistinctIds(records)
    ensures DistinctIds(Store(records, m))
    ensures forall x :: x in Store(records, m) <==> x == m || (x in records && x.artifactId != m.artifactId)
  {
    if records != [] {
      DistinctTail(records);
      assert records == [records[0]] + records[1..];
      if records[0].artifactId == m.artifactId {
        DistinctCons(m, records[1..]);
      } else {
        StoreMembers(records[1..], m);
        DistinctCons(records[0], Store(records[1..], m));
      }
    }
  }

  lemma {:induction false} DropMembers(records: seq<Metadata>, id: string)
    requires DistinctIds(records)
    ensures DistinctIds(Drop(records, id))
    ensures forall x :: x in Drop(records, id) <==> x in records && x.artifactId != id
  {
    if records != [] {
      DistinctTail(records);
      assert records == [records[0]] + records[1..];
      if records[0].artifactId != id {
        DropMembers(records[1..], id);
        DistinctCons(records[0], Drop(records[1..], id));
      }
    }
  }

  /** Storing keeps every id at its place and puts a new one last. */
  lemma {:induction false} StoreKeepsPlaces(records: seq<Metadata>, m: Metadata)
    ensures var n := Store(records, m);
            && |n| == |records| + (if Lookup(records, m.artifactId).Some? then 0 else 1)
            && (forall i :: 0 <= i < |records| ==> n[i].artifactId == records[i].artifactId)
            && (Lookup(records, m.artifactId).None? ==> n == records + [m])
  {
    if records != [] {
      assert records == [records[0]] + records[1..];
      StoreKeepsPlaces(records[1..], m);
      var n, rest := Store(records, m), Store(records[1..], m);
      if records[0].artifactId != m.artifactId {
        assert forall i :: 1 <= i < |n| ==> n[i] == rest[i - 1];
      }
    }
  }

  /** Dropping a record closes the gap and moves nothing else. */
  lemma {:induction false} DropClosesGap(a: seq<Metadata>, m: Metadata, b: seq<Metadata>)
    requires forall x :: x in a ==> x.artifactId != m.artifactId
    ensures Drop(a + [m] + b, m.artifactId) == a + b
  {
    var all := a + [m] + b;
    if a == [] {
      assert all[1..] == b && a + b == b;
    } else {
      assert a[0] in a && all[0] == a[0] && all[1..] == a[1..] + [m] + b;
      DropClosesGap(a[1..], m, b);
      assert a + b == [a[0]] + (a[1..] + b);
    }
  }

  lemma KeysIdentify(a: string, b: string)
    requires StorageKey(a) == StorageKey(b)
    ensures a == b
  {
    assert a == StorageKey(a)[10..] && b == StorageKey(b)[10..];
  }

  // ----- every operation keeps it -----

  lemma AddedKeepsPayloads(s: State, env: Env, m: Metadata, key: string, payload: Bytes, sequence: nat)
    requires DistinctIds(s.records) && AllHeld(s, env) && NoStrayPayload(s)
    requires m.payload == Reference(StorageKey(m.artifactId), m.payload.contentType, |payload|, env.sha256(payload))
    requires IsArtifactId(m.artifactId)
    ensures var n := Added(s, m, key, payload, sequence);
            DistinctIds(n.records) && AllHeld(n, env) && NoStrayPayload(n)
  {
    var n := Added(s, m, key, payload, sequence);
    StoreMembers(s.records, m);
    forall x | x in n.records ensures Held(n, env, x) {
      if x != m {
        assert Held(s, env, x);
        if x.payload.storageKey == m.payload.storageKey { KeysIdentify(x.artifactId, m.artifactId); }
      }
    }
    forall k | k in n.payloads ensures OwnsPayload(n.records, k) {
      if k == m.payload.storageKey {
        assert m in n.records;
      } else {
        assert OwnsPayload(s.records, k);
        var x :| x in s.records && StorageKey(x.artifactId) == k;
        assert x in n.records;
      }
    }
  }

  lemma AddedKeepsKeys(s: State, m: Metadata, key: string, payload: Bytes, sequence: nat)
    requires DistinctIds(s.records) && NoStrayKey(s)
    ensures NoStrayKey(Added(s, m, key, payload, sequence))
  {
    var n := Added(s, m, key, payload, sequence);
    StoreMembers(s.records, m);
    forall k | k in n.idempotency ensures Lookup(n.records, n.idempotency[k]).Some? {
      var id := n.idempotency[k];
      LookupMeaning(n.records, id);
      LookupMeaning(s.records, id);
      if id != m.artifactId { assert Lookup(s.records, id).value in n.records; } else { assert m in n.records; }
    }
  }

  lemma PutKeepsConsistent(s: State, env: Env, input: PutInput, access: Access, now: string)
    requires Consistent(s, env)
    ensures Consistent(PutTo(s, env, input, access, now).state, env)
  {
    var out := PutTo(s, env, input, access, now);
    if out.result.Ok? && Bound(s, input.idempotencyKey).None? {
      AddedKeepsPayloads(s, env, out.result.value, input.idempotencyKey, input.payload, Drawn(s, input));
      AddedKeepsKeys(s, out.result.value, input.idempotencyKey, input.payload, Drawn(s, input));
    } else if out.result == Err(Malformed) {
      SequenceIsSeparate(s, env, Drawn(s, input));
    }
  }

  lemma SequenceIsSeparate(s: State, env: Env, sequence: nat)
    requires Consistent(s, env)
    ensures Consistent(s.(sequence := sequence), env)
  {
    var n := s.(sequence := sequence);
    assert forall m :: m in n.records ==> (Held(s, env, m) <==> Held(n, env, m));
  }

  lemma RemovedKeepsPayloads(s: State, env: Env, m: Metadata)
    requires DistinctIds(s.records) && AllHeld(s, env) && NoStrayPayload(s) && m in s.records
    ensures DistinctIds(Removed(s, m).records) && AllHeld(Removed(s, m), env) && NoStrayPayload(Removed(s, m))
  {
    var n := Removed(s, m);
    DropMembers(s.records, m.artifactId);
    assert Held(s, env, m);
    forall x | x in n.records ensures Held(n, env, x) {
      assert Held(s, env, x);
      if x.payload.storageKey == m.payload.storageKey { KeysIdentify(x.artifactId, m.artifactId); assert false; }
    }
    forall k | k in n.payloads ensures OwnsPayload(n.records, k) {
      assert OwnsPayload(s.records, k);
      var x :| x in s.records && StorageKey(x.artifactId) == k;
      assert x in n.records;
    }
  }

  lemma RemovedKeepsKeys(s: State, m: Metadata)
    requires DistinctIds(s.records) && NoStrayKey(s)
    ensures NoStrayKey(Removed(s, m))
  {
    var n := Removed(s, m);
    DropMembers(s.records, m.artifactId);
    forall k | k in n.idempotency ensures Lookup(n.records, n.idempotency[k]).Some? {
      var id := n.idempotency[k];
      LookupMeaning(n.records, id);
      LookupMeaning(s.records, id);
      assert Lookup(s.records, id).value in n.records;
    }
  }

  lemma DeleteKeepsConsistent(s: State, env: Env, id: string, access: Access)
    requires Consistent(s, env)
    ensures Consistent(DeleteFrom(s, env, id, access).state, env)
  {
    if DeleteFrom(s, env, id, access).result == Ok(true) {
      LookupMeaning(s.records, id);
      RemovedKeepsPayloads(s, env, Lookup(s.records, id).value);
      RemovedKeepsKeys(s, Lookup(s.records, id).value);
    }
  }

  // ----- runs -----

  datatype Call = Put(input: PutInput, access: Access, now: string) | Remove(id: string, access: Access)

  function Step(s: State, env: Env, call: Call): State {
    match call
    case Put(input, access, now) => PutTo(s, env, input, access, now).state
    case Remove(id, access) => DeleteFrom(s, env, id, access).state
  }

  function Run(s: State, env: Env, calls: seq<Call>): State
    decreases |calls|
  {
    if calls == [] then s else Run(Step(s, env, calls[0]), env, calls[1..])
  }

  lemma {:induction false} RunKeepsConsistent(s: State, env: Env, calls: seq<Call>)
    requires Consistent(s, env)
    ensures Consistent(Run(s, env, calls), env)
    decreases |calls|
  {
    if calls != [] {
      match calls[0] {
        case Put(input, access, now) => PutKeepsConsistent(s, env, input, access, now);
        case Remove(id, access) => DeleteKeepsConsistent(s, env, id, access);
      }
      RunKeepsConsistent(Step(s, env, calls[0]), env, calls[1..]);
    }
  }

  /** Any authorizer, any hash, any ids, reused or not: the three maps agree after every run. */
  lemma EveryRunConsistent(env: Env, calls: seq<Call>)
    ensures Consistent(Run(EMPTY, env, calls), env)
  {
    RunKeepsConsistent(EMPTY, env, calls);
  }

  /** A known artifact never lacks its payload, and what is read is what the metadata describes. */
  lemma PayloadIsNeverMissing(s: State, env: Env, id: string, access: Access)
    requires Consistent(s, env)
    ensures PayloadOf(s, env, id, access) != Err(PayloadNotFound)
    ensures var r := PayloadOf(s, env, id, access);
            r.Ok? && r.value.Some? ==>
              && Lookup(s.records, id).Some?
              && |r.value.value| == Lookup(s.records, id).value.payload.byteSize
              && env.sha256(r.value.value) == Lookup(s.records, id).value.payload.sha256
  {
    LookupMeaning(s.records, id);
    var found := Lookup(s.records, id);
    if found.Some? { assert Held(s, env, found.value); }
  }

  /** A deletion that succeeds leaves no trace of the artifact: no record, no bytes, no key. */
  lemma DeletedIsGone(s: State, env: Env, id: string, access: Access)
    requires Consistent(s, env) && DeleteFrom(s, env, id, access).result == Ok(true)
    ensures var n := DeleteFrom(s, env, id, access).state;
            && Lookup(n.records, id).None?
            && (forall m :: m in n.records <==> m in s.records && m.artifactId != id)
            && n.payloads == s.payloads - {"artifacts/" + id} && n.sequence == s.sequence
            && (forall key :: key in n.idempotency ==> n.idempotency[key] != id)
            && (forall key :: key in s.idempotency && s.idempotency[key] != id ==> Bound(n, key) == Bound(s, key))
  {
    var n := DeleteFrom(s, env, id, access).state;
    var m := Lookup(s.records, id).value;
    LookupMeaning(s.records, id);
    assert Held(s, env, m);
    DropMembers(s.records, id);
    LookupMeaning(n.records, id);
    forall key | key in s.idempotency && s.idempotency[key] != id ensures Bound(n, key) == Bound(s, key) {
      var other := s.idempotency[key];
      LookupMeaning(s.records, other);
      LookupMember(n.records, Lookup(s.records, other).value);
    }
  }

  /** A put that fails stores nothing; at most it uses up one number of the sequence. */
  lemma FailedPutStoresNothing(s: State, env: Env, input: PutInput, access: Access, now: string)
    requires PutTo(s, env, input, access, now).result.Err?
    ensures var n := PutTo(s, env, input, access, now).state;
            n == s || (n == s.(sequence := s.sequence + 1) && input.artifactId.None?)
  {
  }

  /** A record is shown exactly to those who may read it, and only an unknown id is answered with nothing. */
  lemma MetadataIsGuarded(s: State, env: Env, id: string, access: Access)
    requires Consistent(s, env)
    ensures var r := MetadataOf(s, env, id, access);
            && (forall m :: r == Ok(Some(m)) <==>
                  m in s.records && m.artifactId == id && env.authorize(ReadMetadata, access, Some(m)))
            && (r == Ok(None) <==> IsArtifactId(id) && forall m :: m in s.records ==> m.artifactId != id)
            && (r == Err(AccessDenied) <==>
                  exists m :: m in s.records && m.artifactId == id && !env.authorize(ReadMetadata, access, Some(m)))
            && (r == Err(Malformed) <==> !IsArtifactId(id))
  {
    hide IsArtifactId;
    IdIsUnique(s, env, id);
  }

  /** Bytes are handed out exactly to those who may read them. */
  lemma PayloadIsGuarded(s: State, env: Env, id: string, access: Access)
    requires Consistent(s, env)
    ensures var r := PayloadOf(s, env, id, access);
            && (forall bytes :: r == Ok(Some(bytes)) <==>
                  && (exists m :: m in s.records && m.artifactId == id && env.authorize(ReadPayload, access, Some(m)))
                  && Get(s.payloads, "artifacts/" + id) == Some(bytes))
            && (r == Ok(None) <==> IsArtifactId(id) && forall m :: m in s.records ==> m.artifactId != id)
            && (r == Err(AccessDenied) <==>
                  exists m :: m in s.records && m.artifactId == id && !env.authorize(ReadPayload, access, Some(m)))
            && (r == Err(Malformed) <==> !IsArtifactId(id))
  {
    hide IsArtifactId;
    IdIsUnique(s, env, id);
  }

  /** Among consistent records an id is well-formed, leads to its record and has its bytes. */
  lemma IdIsUnique(s: State, env: Env, id: string)
    requires Consistent(s, env)
    ensures forall m :: m in s.records && m.artifactId == id ==>
              Lookup(s.records, id) == Some(m) && IsArtifactId(id) && Held(s, env, m)
    ensures Lookup(s.records, id).None? ==> forall m :: m in s.records ==> m.artifactId != id
    ensures Lookup(s.records, id).Some? ==>
              Lookup(s.records, id).value in s.records && Lookup(s.records, id).value.artifactId == id
              && Held(s, env, Lookup(s.records, id).value)
  {
    hide IsArtifactId;
    LookupMeaning(s.records, id);
    forall m | m in s.records && m.artifactId == id
      ensures Lookup(s.records, id) == Some(m) && IsArtifactId(id) && Held(s, env, m)
    {
      LookupMember(s.records, m);
      assert Held(s, env, m);
    }
  }

  /** A listing is refused exactly to those who may not list, and otherwise filters the records in their order. */
  lemma ListingIsGuarded(s: State, env: Env, access: Access)
    ensures Listing(s, env, access)
            == if env.authorize(List, access, None) then Ok(Visible(s.records, env, access)) else Err(AccessDenied)
    ensures forall m :: m in Visible(s.records, env, access)
              <==> && m in s.records && m.ownership.workspaceId == access.workspaceId
                   && env.authorize(ReadMetadata, access, Some(m))
    ensures forall n: nat :: n <= |s.records| ==>
              Visible(s.records, env, access)
              == Visible(s.records[..n], env, access) + Visible(s.records[n..], env, access)
  {
    VisibleMembers(s.records, env, access);
    forall n: nat | n <= |s.records|
      ensures Visible(s.records, env, access)
              == Visible(s.records[..n], env, access) + Visible(s.records[n..], env, access)
    {
      assert s.records == s.records[..n] + s.records[n..];
      VisibleSplits(s.records[..n], s.records[n..], env, access);
    }
  }

  lemma {:induction false} VisibleSplits(a: seq<Metadata>, b: seq<Metadata>, env: Env, access: Access)
    ensures Visible(a + b, env, access) == Visible(a, env, access) + Visible(b, env, access)
  {
    if a == [] {
      assert a + b == b;
    } else {
      assert (a + b)[0] == a[0] && (a + b)[1..] == a[1..] + b;
      VisibleSplits(a[1..], b, env, access);
    }
  }

  /** An artifact is deleted exactly for those who may delete it; every other answer changes nothing. */
  lemma DeleteIsGuarded(s: State, env: Env, id: string, access: Access)
    requires Consistent(s, env)
    ensures var out := DeleteFrom(s, env, id, access);
            && (out.result == Ok(true) <==>
                  exists m :: m in s.records && m.artifactId == id && env.authorize(Delete, access, Some(m)))
            && (out.result == Ok(false) <==> IsArtifactId(id) && forall m :: m in s.records ==> m.artifactId != id)
            && (out.result == Err(AccessDenied) <==>
                  exists m :: m in s.records && m.artifactId == id && !env.authorize(Delete, access, Some(m)))
            && (out.result == Err(Malformed) <==> !IsArtifactId(id))
            && (out.result != Ok(true) ==> out.state == s)
  {
    hide IsArtifactId;
    IdIsUnique(s, env, id);
  }

  /** An artifact id is the prefix `art_`, a letter or digit, and five to 127 letters, digits, underscores or dashes. */
  lemma ArtifactIdForm(id: string)
    ensures IsArtifactId(id) <==> exists suffix :: id == "art_" + suffix && IsSuffix(suffix)
  {
    if IsArtifactId(id) {
      assert id == "art_" + id[4..] && IsSuffix(id[4..]);
    }
    if suffix :| id == "art_" + suffix && IsSuffix(suffix) {
      assert forall i :: 4 <= i < |id| ==> id[i] == suffix[i - 4];
    }
  }

  predicate IsAlphanumeric(c: char) {
    'a' <= c <= 'z' || 'A' <= c <= 'Z' || '0' <= c <= '9'
  }

  predicate IsSuffix(suffix: string) {
    && 6 <= |suffix| <= 128 && IsAlphanumeric(suffix[0])
    && forall i :: 1 <= i < |suffix| ==> IsAlphanumeric(suffix[i]) || suffix[i] == '_' || suffix[i] == '-'
  }

  // ----- what a put is answered with -----

  /** The caller puts the artifact under its own name, in its own workspace, thread and run. */
  predicate IsOwn(access: Access, o: Ownership) {
    access == Access(o.createdBy, o.workspaceId, Some(o.threadId), Some(o.runId))
  }

  /** The record a key leads to, found among the records. */
  ghost predicate Leads(s: State, key: string, m: Metadata) {
    m in s.records && Get(s.idempotency, key) == Some(m.artifactId)
  }

  /** The record that a new artifact gets under an id. */
  predicate IsRecordOf(m: Metadata, id: string, input: PutInput, sha256: string, now: string) {
    && m.artifactId == id && m.kind == input.kind && m.ownership == input.ownership
    && m.visibility == input.visibility && m.properties == input.properties && m.createdAt == now
    && m.payload == Reference("artifacts/" + id, input.contentType, |input.payload|, sha256)
  }

  /** The answer to a put whose key leads nowhere: refusals in their order, or a new record and its bytes. */
  ghost predicate AnswersNew(s: State, env: Env, input: PutInput, now: string, out: Outcome<Metadata>) {
    var sha256 := env.sha256(input.payload);
    var id := if input.artifactId.Some? then input.artifactId.value else env.newId(s.sequence + 1);
    var drawn := if input.artifactId.Some? then s.sequence else s.sequence + 1;
    if input.expectedSha256.Some? && input.expectedSha256.value != "" && input.expectedSha256.value != sha256 then
      out == Outcome(Err(ChecksumMismatch), s)
    else if !IsArtifactId(id) || |input.contentType| == 0 || |input.contentType| > 255 then
      out == Outcome(Err(Malformed), State(s.records, s.idempotency, s.payloads, drawn))
    else
      && out.result.Ok? && IsRecordOf(out.result.value, id, input, sha256, now)
      && out.state.idempotency == s.idempotency[input.idempotencyKey := id]
      && out.state.payloads == s.payloads["artifacts/" + id := input.payload]
      && out.state.sequence == drawn
      && forall m :: m in out.state.records
           <==> m == out.result.value || (m in s.records && m.artifactId != id)
  }

  /** The answer to a put in every case. */
  ghost predicate AnswersPut(
    s: State, env: Env, input: PutInput, access: Access, now: string, out: Outcome<Metadata>)
  {
    if !IsOwn(access, input.ownership) then out == Outcome(Err(AccessDenied), s)
    else if |input.idempotencyKey| == 0 || |input.idempotencyKey| > 256 then out == Outcome(Err(InvalidInput), s)
    else if input.idempotencyKey in s.idempotency then
      exists m :: Leads(s, input.idempotencyKey, m) &&
        out == Outcome(if !env.authorize(Create, access, Some(m)) then Err(AccessDenied)
                       else if m.payload.sha256 != env.sha256(input.payload) then Err(IdempotencyConflict)
                       else Ok(m), s)
    else if !env.authorize(Create, access, None) then out == Outcome(Err(AccessDenied), s)
    else AnswersNew(s, env, input, now, out)
  }

  lemma PutAnswers(s: State, env: Env, input: PutInput, access: Access, now: string)
    requires Consistent(s, env)
    ensures AnswersPut(s, env, input, access, now, PutTo(s, env, input, access, now))
  {
    hide IsArtifactId, Consistent, AnswersNew;
    var key := input.idempotencyKey;
    KeyLeads(s, env, key);
    if key in s.idempotency {
      assert Leads(s, key, Lookup(s.records, s.idempotency[key]).value);
    } else if OwnershipMatches(access, input.ownership) && 1 <= |key| <= 256 && env.authorize(Create, access, None) {
      NewAnswers(s, env, input, access, now);
    }
  }

  /** A key that is filed leads to the one record with its id. */
  lemma KeyLeads(s: State, env: Env, key: string)
    requires Consistent(s, env)
    ensures key in s.idempotency ==>
              && Bound(s, key) == Lookup(s.records, s.idempotency[key]) && Bound(s, key).Some?
              && Leads(s, key, Bound(s, key).value)
    ensures key !in s.idempotency ==> Bound(s, key).None?
  {
    if key in s.idempotency { IdIsUnique(s, env, s.idempotency[key]); }
  }

  lemma NewAnswers(s: State, env: Env, input: PutInput, access: Access, now: string)
    requires Consistent(s, env) && input.idempotencyKey !in s.idempotency
    requires OwnershipMatches(access, input.ownership) && 1 <= |input.idempotencyKey| <= 256
    requires env.authorize(Create, access, None)
    ensures AnswersNew(s, env, input, now, PutTo(s, env, input, access, now))
  {
    hide IsArtifactId;
    StoreMembers(s.records, Build(env, input, ChosenId(s, env, input), now));
  }

  /** A caller sees exactly the records of the workspace that the authoriser lets it read. */
  lemma {:induction false} VisibleMembers(records: seq<Metadata>, env: Env, access: Access)
    ensures forall m :: m in Visible(records, env, access)
              <==> && m in records && m.ownership.workspaceId == access.workspaceId
                   && env.authorize(ReadMetadata, access, Some(m))
  {
    if records != [] { VisibleMembers(records[1..], env, access); }
  }

  /** `key` leads to `m`, which is stored with the given hash. */
  ghost predicate Answers(s: State, key: string, m: Metadata, sha256: string) {
    && Bound(s, key) == Some(m)
    && Lookup(s.records, m.artifactId) == Some(m)
    && m.payload.sha256 == sha256
    && m.payload.storageKey in s.payloads
  }

  /** The record carries everything that was said about the artifact. */
  predicate Describes(m: Metadata, input: PutInput) {
    && m.kind == input.kind && m.ownership == input.ownership && m.visibility == input.visibility
    && m.properties == input.properties
    && m.payload.contentType == input.contentType && m.payload.byteSize == |input.payload|
    && (input.artifactId.Some? ==> m.artifactId == input.artifactId.value)
  }

  lemma StoredIsFound(s: State, env: Env, m: Metadata, key: string)
    requires Consistent(s, env) && m in s.records && key in s.idempotency && s.idempotency[key] == m.artifactId
    ensures Answers(s, key, m, m.payload.sha256)
  {
    LookupMember(s.records, m);
    assert Held(s, env, m);
  }

  /** After a put the key leads to the record returned, whose bytes have the hash of those sent. */
  lemma PutIsReadBack(s: State, env: Env, input: PutInput, access: Access, now: string)
    requires Consistent(s, env) && PutTo(s, env, input, access, now).result.Ok?
    ensures var out := PutTo(s, env, input, access, now);
            && Answers(out.state, input.idempotencyKey, out.result.value, env.sha256(input.payload))
            && (Bound(s, input.idempotencyKey).None? ==>
                  && out.state.payloads[out.result.value.payload.storageKey] == input.payload
                  && Describes(out.result.value, input) && out.result.value.createdAt == now)
  {
    hide Answers, Consistent;
    var out := PutTo(s, env, input, access, now);
    PutKeepsConsistent(s, env, input, access, now);
    DistinctRecords(s, env);
    if Bound(s, input.idempotencyKey).None? {
      StoreMembers(s.records, out.result.value);
    } else {
      LookupMeaning(s.records, s.idempotency[input.idempotencyKey]);
    }
    StoredIsFound(out.state, env, out.result.value, input.idempotencyKey);
  }

  lemma DistinctRecords(s: State, env: Env)
    requires Consistent(s, env)
    ensures DistinctIds(s.records)
  {
  }

  /** Resending what was stored changes nothing and, if still allowed, is answered with the stored record. */
  lemma RetryIsAnswered(s: State, env: Env, input: PutInput, access: Access, now: string, m: Metadata)
    requires Answers(s, input.idempotencyKey, m, env.sha256(input.payload))
    requires OwnershipMatches(access, input.ownership) && 1 <= |input.idempotencyKey| <= 256
    ensures PutTo(s, env, input, access, now)
            == Outcome(if env.authorize(Create, access, Some(m)) then Ok(m) else Err(AccessDenied), s)
  {
  }
}

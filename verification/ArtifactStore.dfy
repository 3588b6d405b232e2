/** The in-memory artifact store: a metadata repository, a payload store and a sequence, updated in place. */
module ArtifactStore {
  import opened Wrappers
  import opened ArtifactRecords

  class MetadataRepository {
    var records: seq<Metadata>
    var idempotency: map<string, string>

    constructor ()
      ensures records == [] && idempotency == map[]
    {
      records, idempotency := [], map[];
    }

    method Put(m: Metadata, key: string)
      modifies this
      ensures records == Store(old(records), m) && idempotency == old(idempotency)[key := m.artifactId]
    {
      records := Store(records, m);
      idempotency := idempotency[key := m.artifactId];
    }

    method Get(id: string) returns (m: Option<Metadata>)
      ensures m == Lookup(records, id)
    {
      for i := 0 to |records|
        invariant Lookup(records, id) == Lookup(records[i..], id)
      {
        assert records[i..][0] == records[i] && records[i..][1..] == records[i + 1..];
        if records[i].artifactId == id {
          return Some(records[i]);
        }
      }
      return None;
    }

    /** Drops every key that leads to the artifact, then its record. */
    method Delete(id: string) returns (existed: bool)
      modifies this
      ensures existed == Lookup(old(records), id).Some?
      ensures records == Drop(old(records), id) && idempotency == Unbind(old(idempotency), id)
    {
      var found := Get(id);
      ghost var before := idempotency;
      var todo := idempotency.Keys;
      while todo != {}
        invariant todo <= before.Keys && records == old(records)
        invariant forall key :: key in idempotency <==> key in before && (key in todo || before[key] != id)
        invariant forall key :: key in idempotency ==> idempotency[key] == before[key]
        decreases todo
      {
        var key :| key in todo;
        if idempotency[key] == id {
          idempotency := idempotency - {key};
        }
        todo := todo - {key};
      }
      assert idempotency == Unbind(before, id);
      records := Drop(records, id);
      existed := found.Some?;
    }
  }

  class PayloadStore {
    var payloads: map<string, Bytes>

    constructor ()
      ensures payloads == map[]
    {
      payloads := map[];
    }

    method Put(reference: Reference, payload: Bytes)
      modifies this
      ensures payloads == old(payloads)[reference.storageKey := payload]
    {
      payloads := payloads[reference.storageKey := payload];
    }

    method Delete(reference: Reference) returns (existed: bool)
      modifies this
      ensures payloads == old(payloads) - {reference.storageKey}
      ensures existed == (reference.storageKey in old(payloads))
    {
      existed := reference.storageKey in payloads;
      payloads := payloads - {reference.storageKey};
    }
  }

  class InMemoryArtifactStore {
    const env: Env
    const metadata: MetadataRepository
    const payloads: PayloadStore
    var sequence: nat

    ghost function Contents(): State
      reads this, metadata, payloads
    {
      State(metadata.records, metadata.idempotency, payloads.payloads, sequence)
    }

    ghost predicate Valid()
      reads this, metadata, payloads
    {
      Consistent(Contents(), env)
    }

    constructor (env: Env)
      ensures this.env == env && fresh(metadata) && fresh(payloads)
      ensures Contents() == EMPTY && Valid()
    {
      this.env := env;
      metadata := new MetadataRepository();
      payloads := new PayloadStore();
      sequence := 0;
    }

    method RecordFor(key: string) returns (m: Option<Metadata>)
      ensures m == Bound(Contents(), key)
    {
      if key in metadata.idempotency && metadata.idempotency[key] != "" {
        m := metadata.Get(metadata.idempotency[key]);
      } else {
        m := None;
      }
    }

    method NextId() returns (id: string)
      modifies this
      ensures sequence == old(sequence) + 1 && id == env.newId(sequence)
    {
      sequence := sequence + 1;
      id := env.newId(sequence);
    }

    method BuildMetadata(input: PutInput, now: string) returns (r: Result<Metadata, ArtifactError>)
      modifies this
      ensures ChecksumFails(env, input) ==> r == Err(ChecksumMismatch) && sequence == old(sequence)
      ensures !ChecksumFails(env, input) ==>
                var m := Build(env, input, ChosenId(old(Contents()), env, input), now);
                r == (if Parses(m) then Ok(m) else Err(Malformed)) && sequence == Drawn(old(Contents()), input)
    {
      if ChecksumFails(env, input) {
        return Err(ChecksumMismatch);
      }
      var id: string;
      if input.artifactId.Some? {
        id := input.artifactId.value;
      } else {
        id := NextId();
      }
      var m := Build(env, input, id, now);
      r := if Parses(m) then Ok(m) else Err(Malformed);
    }

    /** Stores the artifact, or answers a retry with the record its key already leads to. */
    method Put(input: PutInput, access: Access, now: string) returns (r: Result<Metadata, ArtifactError>)
      requires Valid()
      modifies this, metadata, payloads
      ensures Valid()
      ensures Outcome(r, Contents()) == PutTo(old(Contents()), env, input, access, now)
      ensures AnswersPut(old(Contents()), env, input, access, now, Outcome(r, Contents()))
    {
      PutAnswers(Contents(), env, input, access, now);
      hide AnswersPut;
      PutKeepsConsistent(Contents(), env, input, access, now);
      if !OwnershipMatches(access, input.ownership) {
        return Err(AccessDenied);
      }
      if |input.idempotencyKey| < 1 || |input.idempotencyKey| > 256 {
        return Err(InvalidInput);
      }
      var existing := RecordFor(input.idempotencyKey);
      if existing.Some? {
        if !env.authorize(Create, access, existing) {
          return Err(AccessDenied);
        }
        if existing.value.payload.sha256 != env.sha256(input.payload) {
          return Err(IdempotencyConflict);
        }
        return Ok(existing.value);
      }
      if !env.authorize(Create, access, None) {
        return Err(AccessDenied);
      }
      r := BuildMetadata(input, now);
      if r.Ok? {
        payloads.Put(r.value.payload, input.payload);
        metadata.Put(r.value, input.idempotencyKey);
      }
    }

    /** A record is shown exactly to those who may read it. */
    method GetMetadata(id: string, access: Access) returns (r: Result<Option<Metadata>, ArtifactError>)
      requires Valid()
      ensures r == MetadataOf(Contents(), env, id, access)
      ensures forall m :: r == Ok(Some(m)) <==>
                m in metadata.records && m.artifactId == id && env.authorize(ReadMetadata, access, Some(m))
      ensures r == Ok(None) <==> IsArtifactId(id) && forall m :: m in metadata.records ==> m.artifactId != id
    {
      MetadataIsGuarded(Contents(), env, id, access);
      if !IsArtifactId(id) {
        return Err(Malformed);
      }
      var m := metadata.Get(id);
      if m.Some? && !env.authorize(ReadMetadata, access, m) {
        return Err(AccessDenied);
      }
      return Ok(m);
    }

    /** In a valid store the branch for a missing payload is dead. */
    method GetPayload(id: string, access: Access) returns (r: Result<Option<Bytes>, ArtifactError>)
      requires Valid()
      ensures r == PayloadOf(Contents(), env, id, access)
      ensures r != Err(PayloadNotFound)
      ensures forall bytes :: r == Ok(Some(bytes)) <==>
                && (exists m :: m in metadata.records && m.artifactId == id
                                && env.authorize(ReadPayload, access, Some(m)))
                && Get(payloads.payloads, "artifacts/" + id) == Some(bytes)
    {
      PayloadIsGuarded(Contents(), env, id, access);
      PayloadIsNeverMissing(Contents(), env, id, access);
      if !IsArtifactId(id) {
        return Err(Malformed);
      }
      var m := metadata.Get(id);
      if m.None? {
        return Ok(None);
      }
      if !env.authorize(ReadPayload, access, m) {
        return Err(AccessDenied);
      }
      if m.value.payload.storageKey !in payloads.payloads {
        return Err(PayloadNotFound);
      }
      return Ok(Some(payloads.payloads[m.value.payload.storageKey]));
    }

    method ListArtifacts(access: Access) returns (r: Result<seq<Metadata>, ArtifactError>)
      ensures r == Listing(Contents(), env, access)
    {
      if !env.authorize(List, access, None) {
        return Err(AccessDenied);
      }
      var records := metadata.records;
      var authorized: seq<Metadata> := [];
      for i := 0 to |records|
        invariant authorized + Visible(records[i..], env, access) == Visible(records, env, access)
      {
        assert records[i..][0] == records[i] && records[i..][1..] == records[i + 1..];
        var m := records[i];
        if m.ownership.workspaceId == access.workspaceId && env.authorize(ReadMetadata, access, Some(m)) {
          authorized := authorized + [m];
        }
      }
      assert authorized + Visible(records[|records|..], env, access) == authorized;
      return Ok(authorized);
    }

    method Delete(id: string, access: Access) returns (r: Result<bool, ArtifactError>)
      requires Valid()
      modifies this, metadata, payloads
      ensures Valid()
      ensures Outcome(r, Contents()) == DeleteFrom(old(Contents()), env, id, access)
      ensures r == Ok(true) <==>
                exists m :: m in old(metadata.records) && m.artifactId == id
                            && env.authorize(Operation.Delete, access, Some(m))
      ensures r == Err(AccessDenied) <==>
                exists m :: m in old(metadata.records) && m.artifactId == id
                            && !env.authorize(Operation.Delete, access, Some(m))
      ensures r != Ok(true) ==> Contents() == old(Contents())
    {
      DeleteIsGuarded(Contents(), env, id, access);
      DeleteKeepsConsistent(Contents(), env, id, access);
      LookupMeaning(metadata.records, id);
      if !IsArtifactId(id) {
        return Err(Malformed);
      }
      var m := metadata.Get(id);
      if m.None? {
        return Ok(false);
      }
      if !env.authorize(Operation.Delete, access, m) {
        return Err(AccessDenied);
      }
      var _ := payloads.Delete(m.value.payload);
      var existed := metadata.Delete(id);
      return Ok(existed);
    }
  }
}

/** The turn artifact repository, working through an artifact store that it does not own. */
module TurnArtifactStore {
  import opened Wrappers
  import opened ArtifactRecords
  import opened ArtifactStore
  import opened TurnArtifacts

  class DefaultTurnArtifactStore {
    const artifacts: InMemoryArtifactStore
    const codec: Codec

    constructor (artifacts: InMemoryArtifactStore, codec: Codec)
      ensures this.artifacts == artifacts && this.codec == codec
    {
      this.artifacts := artifacts;
      this.codec := codec;
    }

    method StoreSnapshot(call: TurnCall) returns (r: Result<Metadata, ArtifactError>)
      requires call.PutSnapshot? && artifacts.Valid()
      modifies artifacts, artifacts.metadata, artifacts.payloads
      ensures artifacts.Valid()
      ensures Outcome(r, artifacts.Contents()) == Perform(old(artifacts.Contents()), artifacts.env, codec, call)
    {
      r := artifacts.Put(SnapshotInput(codec, call.snapshot, call.ownership), call.access, call.now);
    }

    method StoreDiff(call: TurnCall) returns (r: Result<Metadata, ArtifactError>)
      requires call.PutDiff? && artifacts.Valid()
      modifies artifacts, artifacts.metadata, artifacts.payloads
      ensures artifacts.Valid()
      ensures Outcome(r, artifacts.Contents()) == Perform(old(artifacts.Contents()), artifacts.env, codec, call)
    {
      r := artifacts.Put(DiffInput(codec, call.diff, call.ownership), call.access, call.now);
    }

    method ReadOne(m: Metadata, access: Access) returns (r: Result<StoredDiff, ArtifactError>)
      requires artifacts.Valid()
      ensures r == ReadDiff(artifacts.Contents(), artifacts.env, codec, m, access)
    {
      var payload := artifacts.GetPayload(m.artifactId, access);
      if payload.Err? {
        return Err(payload.error);
      }
      if payload.value.None? {
        return Err(PayloadNotFound);
      }
      var diff := codec.decodeDiff(payload.value.value);
      return if diff.None? then Err(Malformed) else Ok(StoredDiff(m, diff.value));
    }

    method TurnDiffOf(turnId: string, access: Access) returns (r: Result<Option<StoredDiff>, ArtifactError>)
      requires artifacts.Valid()
      ensures r == DiffOfTurn(artifacts.Contents(), artifacts.env, codec, turnId, access)
    {
      var listed := artifacts.ListArtifacts(access);
      if listed.Err? {
        return Err(listed.error);
      }
      var records := listed.value;
      for i := 0 to |records|
        invariant FindDiff(records, turnId) == FindDiff(records[i..], turnId)
      {
        assert records[i..][0] == records[i] && records[i..][1..] == records[i + 1..];
        if IsDiffOf(records[i], turnId) {
          var one := ReadOne(records[i], access);
          return if one.Err? then Err(one.error) else Ok(Some(one.value));
        }
      }
      return Ok(None);
    }

    method ListWorkspaceDiffs(access: Access) returns (r: Result<seq<StoredDiff>, ArtifactError>)
      requires artifacts.Valid()
      ensures r == WorkspaceDiffs(artifacts.Contents(), artifacts.env, codec, access)
    {
      var listed := artifacts.ListArtifacts(access);
      if listed.Err? {
        return Err(listed.error);
      }
      var records := listed.value;
      ghost var s := artifacts.Contents();
      var diffs: seq<StoredDiff> := [];
      ghost var all := ReadDiffs(s, artifacts.env, codec, records, access);
      assert records[0..] == records && (all.Ok? ==> diffs + all.value == all.value);
      for i := 0 to |records|
        invariant s == artifacts.Contents()
        invariant Gathered(s, records, access, i, diffs)
      {
        assert records[i..][0] == records[i] && records[i..][1..] == records[i + 1..];
        if IsTurnDiff(records[i]) {
          var one := ReadOne(records[i], access);
          if one.Err? {
            return Err(one.error);
          }
          ghost var rest := ReadDiffs(s, artifacts.env, codec, records[i + 1..], access);
          assert rest.Ok? ==> diffs + ([one.value] + rest.value) == (diffs + [one.value]) + rest.value;
          diffs := diffs + [one.value];
        }
      }
      assert records[|records|..] == [] && diffs + [] == diffs;
      return Ok(diffs);
    }

    /** The loop has read `records[..i]`, giving `diffs`; what remains decides the outcome. */
    ghost predicate Gathered(s: State, records: seq<Metadata>, access: Access, i: nat, diffs: seq<StoredDiff>)
      requires i <= |records|
    {
      var rest := ReadDiffs(s, artifacts.env, codec, records[i..], access);
      ReadDiffs(s, artifacts.env, codec, records, access) == if rest.Ok? then Ok(diffs + rest.value) else rest
    }
  }
}

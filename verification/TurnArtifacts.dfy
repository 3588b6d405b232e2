/** Snapshots and diffs of turns, kept in the artifact store under one key each: the first diff of a turn wins. */
module TurnArtifacts {
  import opened Wrappers
  import opened Separators
  import opened ArtifactRecords
  import opened Texts

  datatype Phase = Start | Terminal

  /** `body` stands for the fields this layer does not look at. */
  datatype Snapshot = Snapshot(turnId: string, phase: Phase, treeId: string, body: string)

  datatype TurnDiff = TurnDiff(turnId: string, changedFiles: nat, body: string)

  /** Serialisation to bytes and back; decoding fails on bytes that are no diff. */
  datatype Codec = Codec(
    encodeSnapshot: Snapshot -> Bytes, encodeDiff: TurnDiff -> Bytes, decodeDiff: Bytes -> Option<TurnDiff>)

  datatype StoredDiff = StoredDiff(metadata: Metadata, payload: TurnDiff)

  function PhaseName(phase: Phase): string {
    match phase
    case Start => "start"
    case Terminal => "terminal"
  }

  function SnapshotKey(turnId: string, phase: Phase): string {
    "turn:" + turnId + ":snapshot:" + PhaseName(phase)
  }

  function DiffKey(turnId: string): string {
    "turn:" + turnId + ":diff"
  }

  function SnapshotInput(codec: Codec, snapshot: Snapshot, ownership: Ownership): PutInput {
    PutInput(None, SnapshotKey(snapshot.turnId, snapshot.phase), "workspace_snapshot", ownership, "run",
             "application/json", codec.encodeSnapshot(snapshot), None,
             map["role" := Text("turn_snapshot"), "turnId" := Text(snapshot.turnId),
                 "phase" := Text(PhaseName(snapshot.phase)), "treeId" := Text(snapshot.treeId)])
  }

  function DiffInput(codec: Codec, diff: TurnDiff, ownership: Ownership): PutInput {
    PutInput(None, DiffKey(diff.turnId), "diff", ownership, "run",
             "application/json", codec.encodeDiff(diff), None,
             map["role" := Text("turn_diff"), "turnId" := Text(diff.turnId),
                 "changedFileCount" := Number(diff.changedFiles)])
  }

  predicate IsTurnDiff(m: Metadata) {
    Get(m.properties, "role") == Some(Text("turn_diff"))
  }

  predicate IsDiffOf(m: Metadata, turnId: string) {
    IsTurnDiff(m) && Get(m.properties, "turnId") == Some(Text(turnId))
  }

  function FindDiff(records: seq<Metadata>, turnId: string): Option<Metadata> {
    if records == [] then None
    else if IsDiffOf(records[0], turnId) then Some(records[0])
    else FindDiff(records[1..], turnId)
  }

  function ReadDiff(s: State, env: Env, codec: Codec, m: Metadata, access: Access): Result<StoredDiff, ArtifactError> {
    var payload :- PayloadOf(s, env, m.artifactId, access);
    if payload.None? then Err(PayloadNotFound)
    else
      match codec.decodeDiff(payload.value)
      case None => Err(Malformed)
      case Some(diff) => Ok(StoredDiff(m, diff))
  }

  function DiffOfTurn(s: State, env: Env, codec: Codec, turnId: string, access: Access)
    : Result<Option<StoredDiff>, ArtifactError>
  {
    var listed :- Listing(s, env, access);
    match FindDiff(listed, turnId)
    case None => Ok(None)
    case Some(m) =>
      var stored :- ReadDiff(s, env, codec, m, access);
      Ok(Some(stored))
  }

  /** The diffs among the records, in their order; reading fails as soon as one of them cannot be read. */
  function ReadDiffs(s: State, env: Env, codec: Codec, records: seq<Metadata>, access: Access)
    : Result<seq<StoredDiff>, ArtifactError>
  {
    if records == [] then Ok([])
    else if !IsTurnDiff(records[0]) then ReadDiffs(s, env, codec, records[1..], access)
    else
      var first :- ReadDiff(s, env, codec, records[0], access);
      var rest :- ReadDiffs(s, env, codec, records[1..], access);
      Ok([first] + rest)
  }

  function WorkspaceDiffs(s: State, env: Env, codec: Codec, access: Access): Result<seq<StoredDiff>, ArtifactError> {
    var listed :- Listing(s, env, access);
    ReadDiffs(s, env, codec, listed, access)
  }

  // ----- runs of this layer -----

  datatype TurnCall =
    | PutSnapshot(snapshot: Snapshot, ownership: Ownership, access: Access, now: string)
    | PutDiff(diff: TurnDiff, ownership: Ownership, access: Access, now: string)

  function Request(codec: Codec, call: TurnCall): PutInput {
    match call
    case PutSnapshot(snapshot, ownership, _, _) => SnapshotInput(codec, snapshot, ownership)
    case PutDiff(diff, ownership, _, _) => DiffInput(codec, diff, ownership)
  }

  /** What the turn id schema guarantees. */
  predicate WellFormed(call: TurnCall) {
    match call
    case PutSnapshot(snapshot, _, _, _) => ':' !in snapshot.turnId
    case PutDiff(diff, _, _, _) => ':' !in diff.turnId
  }

  function Perform(s: State, env: Env, codec: Codec, call: TurnCall): Outcome<Metadata> {
    PutTo(s, env, Request(codec, call), call.access, call.now)
  }

  function Run(s: State, env: Env, codec: Codec, calls: seq<TurnCall>): State
    decreases |calls|
  {
    if calls == [] then s else Run(Perform(s, env, codec, calls[0]).state, env, codec, calls[1..])
  }

  ghost predicate Permissive(env: Env) {
    forall operation, access, m :: env.authorize(operation, access, m)
  }

  /** The generator never repeats an id. */
  ghost predicate FreshIds(env: Env) {
    forall i: nat, j: nat :: env.newId(i) == env.newId(j) ==> i == j
  }

  // ----- keys tell turns and artifacts apart -----

  lemma DiffKeysIdentify(a: string, b: string)
    requires ':' !in a && ':' !in b && DiffKey(a) == DiffKey(b)
    ensures a == b
  {
    assert DiffKey(a)[5..] == a + ":" + "diff" && DiffKey(b)[5..] == b + ":" + "diff";
    SplitAtColon(a, b, "diff", "diff");
  }

  lemma SnapshotKeySplits(turnId: string, phase: Phase)
    ensures |SnapshotKey(turnId, phase)| > 5
    ensures SnapshotKey(turnId, phase)[5..] == turnId + ":" + ("snapshot:" + PhaseName(phase))
  {
    hide PhaseName;
    var name := PhaseName(phase);
    assert ":snapshot:" == ":" + "snapshot:";
    assert SnapshotKey(turnId, phase) == "turn:" + (turnId + ":" + ("snapshot:" + name));
  }

  lemma SnapshotIsNoDiff(a: string, b: string, phase: Phase)
    requires ':' !in a && ':' !in b
    ensures DiffKey(a) != SnapshotKey(b, phase)
  {
    var tail := "snapshot:" + PhaseName(phase);
    assert |tail| > 4;
    if DiffKey(a) == SnapshotKey(b, phase) {
      SnapshotKeySplits(b, phase);
      assert DiffKey(a)[5..] == a + ":" + "diff";
      SplitAtColon(a, b, "diff", tail);
    }
  }

  /** A put of this layer shares the key of a turn's diff exactly when it is a diff of that turn. */
  lemma KeyOfDiff(codec: Codec, call: TurnCall, turnId: string)
    requires WellFormed(call) && ':' !in turnId
    ensures Request(codec, call).idempotencyKey == DiffKey(turnId) <==> call.PutDiff? && call.diff.turnId == turnId
  {
    match call
    case PutSnapshot(snapshot, _, _, _) => SnapshotIsNoDiff(turnId, snapshot.turnId, snapshot.phase);
    case PutDiff(diff, _, _, _) => if DiffKey(diff.turnId) == DiffKey(turnId) { DiffKeysIdentify(diff.turnId, turnId); }
  }

  /** Two snapshots share a key exactly when they are of the same turn and the same phase. */
  lemma SnapshotKeysIdentify(a: string, p: Phase, b: string, q: Phase)
    requires ':' !in a && ':' !in b
    ensures SnapshotKey(a, p) == SnapshotKey(b, q) <==> a == b && p == q
  {
    if SnapshotKey(a, p) == SnapshotKey(b, q) {
      SnapshotKeySplits(a, p);
      SnapshotKeySplits(b, q);
      SplitAtColon(a, b, "snapshot:" + PhaseName(p), "snapshot:" + PhaseName(q));
      PhaseNamesDiffer(p, q);
    }
  }

  lemma PhaseNamesDiffer(p: Phase, q: Phase)
    ensures "snapshot:" + PhaseName(p) == "snapshot:" + PhaseName(q) <==> p == q
  {
    var x, y := "snapshot:" + PhaseName(p), "snapshot:" + PhaseName(q);
    assert x[9..] == PhaseName(p) && y[9..] == PhaseName(q);
    assert |"start"| != |"terminal"|;
  }

  /** A put of this layer shares the key of a snapshot exactly when it is a snapshot of that turn and phase. */
  lemma KeyOfSnapshot(codec: Codec, call: TurnCall, turnId: string, phase: Phase)
    requires WellFormed(call) && ':' !in turnId
    ensures Request(codec, call).idempotencyKey == SnapshotKey(turnId, phase)
            <==> call.PutSnapshot? && call.snapshot.turnId == turnId && call.snapshot.phase == phase
  {
    hide PhaseName;
    match call
    case PutSnapshot(snapshot, _, _, _) => SnapshotKeysIdentify(snapshot.turnId, snapshot.phase, turnId, phase);
    case PutDiff(diff, _, _, _) => SnapshotIsNoDiff(diff.turnId, turnId, phase);
  }

  // ----- what every run keeps -----

  /** The ids in use were drawn from the generator. */
  ghost predicate Issued(s: State, env: Env) {
    forall m :: m in s.records ==> DrawnFrom(s, env, m.artifactId)
  }

  ghost predicate DrawnFrom(s: State, env: Env, id: string) {
    exists n: nat :: n <= s.sequence && env.newId(n) == id
  }

  /** Every diff is the record that the key of its turn leads to. */
  ghost predicate DiffsKeyed(s: State) {
    forall m :: m in s.records && IsTurnDiff(m) ==> DiffKeyed(s, m)
  }

  ghost predicate DiffKeyed(s: State, m: Metadata) {
    exists t :: ':' !in t && IsDiffOf(m, t) && Get(s.idempotency, DiffKey(t)) == Some(m.artifactId)
  }

  /** The key of a turn's diff leads to nothing but a diff of that turn. */
  ghost predicate KeysLeadToDiffs(s: State) {
    forall t :: ':' !in t ==> KeyLeadsToDiff(s, t)
  }

  ghost predicate KeyLeadsToDiff(s: State, t: string) {
    DiffKey(t) in s.idempotency ==>
      exists m :: m in s.records && m.artifactId == s.idempotency[DiffKey(t)] && IsDiffOf(m, t)
  }

  ghost predicate Orderly(s: State, env: Env) {
    Consistent(s, env) && Issued(s, env) && DiffsKeyed(s) && KeysLeadToDiffs(s)
  }

  lemma {:induction false} StoreNew(records: seq<Metadata>, m: Metadata)
    requires forall x :: x in records ==> x.artifactId != m.artifactId
    ensures Store(records, m) == records + [m]
  {
    if records != [] {
      assert records[0] in records;
      StoreNew(records[1..], m);
      assert records == [records[0]] + records[1..];
    }
  }

  lemma NextIdIsNew(s: State, env: Env)
    requires Issued(s, env) && FreshIds(env)
    ensures forall x :: x in s.records ==> x.artifactId != env.newId(s.sequence + 1)
  {
    forall x | x in s.records ensures x.artifactId != env.newId(s.sequence + 1) {
      assert DrawnFrom(s, env, x.artifactId);
    }
  }

  /** A put of this layer answers a retry, fails, or adds one record under a new id at the end. */
  lemma PerformShape(s: State, env: Env, codec: Codec, call: TurnCall)
    requires Orderly(s, env) && FreshIds(env)
    ensures var out, input := Perform(s, env, codec, call), Request(codec, call);
            || (out.state == s && (out.result.Ok? ==> Bound(s, input.idempotencyKey) == Some(out.result.value)))
            || (out.result.Err? && out.state == s.(sequence := s.sequence + 1))
            || (&& out.result.Ok? && Bound(s, input.idempotencyKey).None?
                && out.result.value == Build(env, input, env.newId(s.sequence + 1), call.now)
                && Appended(s, out.state, out.result.value, input))
  {
    hide Consistent;
    var input := Request(codec, call);
    var m := Build(env, input, env.newId(s.sequence + 1), call.now);
    NextIdIsNew(s, env);
    StoreNew(s.records, m);
  }

  ghost predicate Appended(s: State, n: State, m: Metadata, input: PutInput) {
    && n.records == s.records + [m]
    && n.idempotency == s.idempotency[input.idempotencyKey := m.artifactId]
    && n.payloads == s.payloads[m.payload.storageKey := input.payload]
    && n.sequence == s.sequence + 1
  }

  lemma AppendedKeepsIssued(s: State, env: Env, n: State, m: Metadata, input: PutInput)
    requires Issued(s, env) && Appended(s, n, m, input) && m.artifactId == env.newId(s.sequence + 1)
    ensures Issued(n, env)
  {
    forall x | x in n.records ensures DrawnFrom(n, env, x.artifactId) {
      if x in s.records { assert DrawnFrom(s, env, x.artifactId); }
    }
  }

  lemma AppendedKeepsDiffsKeyed(s: State, codec: Codec, call: TurnCall, n: State, m: Metadata, env: Env)
    requires DiffsKeyed(s) && WellFormed(call) && Request(codec, call).idempotencyKey !in s.idempotency
    requires m == Build(env, Request(codec, call), m.artifactId, call.now) && Appended(s, n, m, Request(codec, call))
    ensures DiffsKeyed(n)
  {
    forall x | x in n.records && IsTurnDiff(x) ensures DiffKeyed(n, x) {
      if x in s.records {
        assert DiffKeyed(s, x);
      } else {
        assert x == m && call.PutDiff? && IsDiffOf(m, call.diff.turnId);
      }
    }
  }

  lemma AppendedKeepsKeys(s: State, codec: Codec, call: TurnCall, n: State, m: Metadata, env: Env)
    requires KeysLeadToDiffs(s) && WellFormed(call)
    requires m == Build(env, Request(codec, call), m.artifactId, call.now) && Appended(s, n, m, Request(codec, call))
    ensures KeysLeadToDiffs(n)
  {
    forall t | ':' !in t ensures KeyLeadsToDiff(n, t) {
      assert KeyLeadsToDiff(s, t);
      KeyOfDiff(codec, call, t);
      assert m in n.records;
    }
  }

  lemma UnboundKeyIsAbsent(s: State, env: Env, key: string)
    requires Consistent(s, env) && Bound(s, key).None?
    ensures key !in s.idempotency
  {
    assert forall m :: m in s.records ==> Held(s, env, m) && m.artifactId != "";
    if key in s.idempotency { LookupMeaning(s.records, s.idempotency[key]); }
  }

  lemma PerformKeepsOrderly(s: State, env: Env, codec: Codec, call: TurnCall)
    requires Orderly(s, env) && FreshIds(env) && WellFormed(call)
    ensures Orderly(Perform(s, env, codec, call).state, env)
  {
    hide Consistent, DiffsKeyed, KeysLeadToDiffs, Issued, FreshIds, PutTo, WellFormed;
    var out, input := Perform(s, env, codec, call), Request(codec, call);
    PutKeepsConsistent(s, env, input, call.access, call.now);
    PerformShape(s, env, codec, call);
    if out.result.Ok? && Bound(s, input.idempotencyKey).None? {
      UnboundKeyIsAbsent(s, env, input.idempotencyKey);
      AppendedKeepsIssued(s, env, out.state, out.result.value, input);
      AppendedKeepsDiffsKeyed(s, codec, call, out.state, out.result.value, env);
      AppendedKeepsKeys(s, codec, call, out.state, out.result.value, env);
    } else if out.result.Err? {
      SkippedKeepsRest(s, env, out.state);
    }
  }

  lemma SkippedKeepsRest(s: State, env: Env, n: State)
    requires Issued(s, env) && DiffsKeyed(s) && KeysLeadToDiffs(s)
    requires n == s || n == s.(sequence := s.sequence + 1)
    ensures Issued(n, env) && DiffsKeyed(n) && KeysLeadToDiffs(n)
  {
    forall x | x in n.records ensures DrawnFrom(n, env, x.artifactId) { assert DrawnFrom(s, env, x.artifactId); }
    forall x | x in n.records && IsTurnDiff(x) ensures DiffKeyed(n, x) { assert DiffKeyed(s, x); }
    forall t | ':' !in t ensures KeyLeadsToDiff(n, t) { assert KeyLeadsToDiff(s, t); }
  }

  lemma {:induction false} RunKeepsOrderly(s: State, env: Env, codec: Codec, calls: seq<TurnCall>)
    requires Orderly(s, env) && FreshIds(env) && forall c :: c in calls ==> WellFormed(c)
    ensures Orderly(Run(s, env, codec, calls), env)
    decreases |calls|
  {
    hide Orderly, Perform, WellFormed, FreshIds;
    if calls != [] {
      PerformKeepsOrderly(s, env, codec, calls[0]);
      RunKeepsOrderly(Perform(s, env, codec, calls[0]).state, env, codec, calls[1..]);
    }
  }

  lemma EveryRunIsOrderly(env: Env, codec: Codec, calls: seq<TurnCall>)
    requires FreshIds(env) && forall c :: c in calls ==> WellFormed(c)
    ensures Orderly(Run(EMPTY, env, codec, calls), env)
  {
    RunKeepsOrderly(EMPTY, env, codec, calls);
  }

  // ----- first diff wins -----

  /** A turn has at most one stored diff. */
  lemma OneDiffPerTurn(s: State, env: Env, turnId: string, a: Metadata, b: Metadata)
    requires Orderly(s, env) && a in s.records && b in s.records && IsDiffOf(a, turnId) && IsDiffOf(b, turnId)
    ensures a == b
  {
    assert DiffKeyed(s, a) && DiffKeyed(s, b);
    LookupMember(s.records, a);
    LookupMember(s.records, b);
  }

  /** Nothing this layer does changes or removes a record or its payload. */
  ghost predicate Preserved(s: State, n: State) {
    s.records <= n.records && forall m :: m in s.records ==> SamePayload(s, n, m)
  }

  ghost predicate SamePayload(s: State, n: State, m: Metadata) {
    m.payload.storageKey in s.payloads ==>
      m.payload.storageKey in n.payloads && n.payloads[m.payload.storageKey] == s.payloads[m.payload.storageKey]
  }

  lemma PerformPreserves(s: State, env: Env, codec: Codec, call: TurnCall)
    requires Orderly(s, env) && FreshIds(env)
    ensures Preserved(s, Perform(s, env, codec, call).state)
  {
    hide DiffsKeyed, KeysLeadToDiffs, Issued, PutTo, NoStrayKey, NoStrayPayload, DistinctIds;
    var out := Perform(s, env, codec, call);
    PerformShape(s, env, codec, call);
    NextIdIsNew(s, env);
    forall m | m in s.records ensures SamePayload(s, out.state, m) {
      assert Held(s, env, m);
      if out.result.Ok? && Bound(s, Request(codec, call).idempotencyKey).None?
         && m.payload.storageKey == out.result.value.payload.storageKey {
        KeysIdentify(m.artifactId, out.result.value.artifactId);
      }
    }
  }

  lemma {:induction false} RunPreserves(s: State, env: Env, codec: Codec, calls: seq<TurnCall>)
    requires Orderly(s, env) && FreshIds(env) && forall c :: c in calls ==> WellFormed(c)
    ensures Preserved(s, Run(s, env, codec, calls))
    decreases |calls|
  {
    hide Orderly, Perform, WellFormed, FreshIds;
    if calls != [] {
      var next := Perform(s, env, codec, calls[0]).state;
      PerformPreserves(s, env, codec, calls[0]);
      assert calls[0] in calls;
      PerformKeepsOrderly(s, env, codec, calls[0]);
      RunPreserves(next, env, codec, calls[1..]);
      assert Run(s, env, codec, calls) == Run(next, env, codec, calls[1..]);
      PreservedTwice(s, next, Run(next, env, codec, calls[1..]));
    }
  }

  lemma PreservedTwice(a: State, b: State, c: State)
    requires Preserved(a, b) && Preserved(b, c)
    ensures Preserved(a, c)
  {
    forall m | m in a.records ensures SamePayload(a, c, m) {
      assert SamePayload(a, b, m) && SamePayload(b, c, m);
    }
  }

  lemma {:induction false} FindDiffMeaning(records: seq<Metadata>, turnId: string)
    ensures FindDiff(records, turnId).Some? ==>
              FindDiff(records, turnId).value in records && IsDiffOf(FindDiff(records, turnId).value, turnId)
    ensures FindDiff(records, turnId).None? ==> forall m :: m in records ==> !IsDiffOf(m, turnId)
  {
    if records != [] { FindDiffMeaning(records[1..], turnId); }
  }

  /** Within its workspace the stored diff of a turn is what a lookup finds; elsewhere it finds nothing. */
  lemma LookupFindsTheDiff(s: State, env: Env, codec: Codec, m: Metadata, turnId: string, access: Access)
    requires Orderly(s, env) && Permissive(env) && m in s.records && IsDiffOf(m, turnId)
    ensures m.payload.storageKey in s.payloads
    ensures DiffOfTurn(s, env, codec, turnId, access)
            == if access.workspaceId != m.ownership.workspaceId then Ok(None)
               else
                 match codec.decodeDiff(s.payloads[m.payload.storageKey])
                 case None => Err(Malformed)
                 case Some(diff) => Ok(Some(StoredDiff(m, diff)))
  {
    hide DiffsKeyed, KeysLeadToDiffs, Issued, NoStrayKey, NoStrayPayload, IsTurnDiff, IsArtifactId;
    var listed := Visible(s.records, env, access);
    VisibleMembers(s.records, env, access);
    FindDiffMeaning(listed, turnId);
    var found := FindDiff(listed, turnId);
    if found.Some? { OneDiffPerTurn(s, env, turnId, m, found.value); }
    LookupMember(s.records, m);
    assert Held(s, env, m);
  }

  /** Diffs are looked up only for those who may list, and shown only to those who may read record and bytes. */
  lemma LookupIsGuarded(s: State, env: Env, codec: Codec, turnId: string, access: Access)
    requires Consistent(s, env)
    ensures !env.authorize(List, access, None) ==>
              && DiffOfTurn(s, env, codec, turnId, access) == Err(AccessDenied)
              && WorkspaceDiffs(s, env, codec, access) == Err(AccessDenied)
    ensures var r := DiffOfTurn(s, env, codec, turnId, access);
            r.Ok? && r.value.Some? ==>
              var m := r.value.value.metadata;
              && m in s.records && IsDiffOf(m, turnId) && m.ownership.workspaceId == access.workspaceId
              && env.authorize(ReadMetadata, access, Some(m)) && env.authorize(ReadPayload, access, Some(m))
  {
    hide IsTurnDiff, IsArtifactId;
    var listed := Visible(s.records, env, access);
    VisibleMembers(s.records, env, access);
    FindDiffMeaning(listed, turnId);
    var found := FindDiff(listed, turnId);
    if found.Some? {
      IdIsUnique(s, env, found.value.artifactId);
      PayloadIsGuarded(s, env, found.value.artifactId, access);
    }
  }

  /**
    First diff wins. The first diff accepted for a turn is what every later lookup in its workspace
    returns, metadata and content, whatever snapshots and diffs are put afterwards.
  */
  lemma FirstDiffWins(s: State, env: Env, codec: Codec, put: TurnCall, rest: seq<TurnCall>, access: Access)
    requires Orderly(s, env) && FreshIds(env) && Permissive(env)
    requires put.PutDiff? && WellFormed(put) && forall c :: c in rest ==> WellFormed(c)
    requires DiffKey(put.diff.turnId) !in s.idempotency && Perform(s, env, codec, put).result.Ok?
    requires access.workspaceId == put.ownership.workspaceId
    requires codec.decodeDiff(codec.encodeDiff(put.diff)) == Some(put.diff)
    ensures var out := Perform(s, env, codec, put);
            DiffOfTurn(Run(out.state, env, codec, rest), env, codec, put.diff.turnId, access)
            == Ok(Some(StoredDiff(out.result.value, put.diff)))
  {
    hide Orderly, FreshIds, Permissive, DiffOfTurn, WellFormed;
    var out := Perform(s, env, codec, put);
    var m, final := out.result.value, Run(out.state, env, codec, rest);
    PerformKeepsOrderly(s, env, codec, put);
    FirstPutIsStored(s, env, codec, put);
    RunKeepsOrderly(out.state, env, codec, rest);
    RunPreserves(out.state, env, codec, rest);
    assert SamePayload(out.state, final, m);
    assert m in final.records;
    LookupFindsTheDiff(final, env, codec, m, put.diff.turnId, access);
  }

  lemma FirstPutIsStored(s: State, env: Env, codec: Codec, put: TurnCall)
    requires Orderly(s, env) && FreshIds(env) && put.PutDiff?
    requires DiffKey(put.diff.turnId) !in s.idempotency && Perform(s, env, codec, put).result.Ok?
    ensures var out := Perform(s, env, codec, put);
            && out.result.value in out.state.records && IsDiffOf(out.result.value, put.diff.turnId)
            && out.result.value.ownership == put.ownership
            && Get(out.state.payloads, out.result.value.payload.storageKey) == Some(codec.encodeDiff(put.diff))
  {
    hide Orderly, FreshIds, PutTo;
    PerformShape(s, env, codec, put);
  }

  /** What is stored for a snapshot: its bytes, filed under its turn and phase, and described by its properties. */
  ghost predicate SnapshotStored(n: State, codec: Codec, snapshot: Snapshot, ownership: Ownership, m: Metadata) {
    var phase := if snapshot.phase.Start? then "start" else "terminal";
    && m in n.records && m.ownership == ownership && m.kind == "workspace_snapshot" && m.visibility == "run"
    && m.payload.contentType == "application/json"
    && m.properties == map["role" := Text("turn_snapshot"), "turnId" := Text(snapshot.turnId),
                           "phase" := Text(phase), "treeId" := Text(snapshot.treeId)]
    && Get(n.payloads, "artifacts/" + m.artifactId) == Some(codec.encodeSnapshot(snapshot))
    && Get(n.idempotency, "turn:" + snapshot.turnId + ":snapshot:" + phase) == Some(m.artifactId)
  }

  /** What is stored for a diff. */
  ghost predicate DiffStored(n: State, codec: Codec, diff: TurnDiff, ownership: Ownership, m: Metadata) {
    && m in n.records && m.ownership == ownership && m.kind == "diff" && m.visibility == "run"
    && m.payload.contentType == "application/json"
    && m.properties == map["role" := Text("turn_diff"), "turnId" := Text(diff.turnId),
                           "changedFileCount" := Property.Number(diff.changedFiles)]
    && Get(n.payloads, "artifacts/" + m.artifactId) == Some(codec.encodeDiff(diff))
    && Get(n.idempotency, "turn:" + diff.turnId + ":diff") == Some(m.artifactId)
  }

  /** What the store asks of a first put of this layer, with everybody authorised. */
  predicate Admissible(s: State, env: Env, codec: Codec, call: TurnCall) {
    && call.access == Access(call.ownership.createdBy, call.ownership.workspaceId,
                             Some(call.ownership.threadId), Some(call.ownership.runId))
    && |Request(codec, call).idempotencyKey| <= 256
    && IsArtifactId(env.newId(s.sequence + 1))
  }

  /**
    The first snapshot of a turn and phase is stored as a record of its own, after all others, whatever
    else the turn has stored; the records that were there stay.
  */
  lemma FirstSnapshotIsStored(s: State, env: Env, codec: Codec, put: TurnCall)
    requires Orderly(s, env) && FreshIds(env) && Permissive(env)
    requires put.PutSnapshot? && Admissible(s, env, codec, put)
    requires SnapshotKey(put.snapshot.turnId, put.snapshot.phase) !in s.idempotency
    ensures var out := Perform(s, env, codec, put);
            && out.result.Ok? && out.state.records == s.records + [out.result.value]
            && SnapshotStored(out.state, codec, put.snapshot, put.ownership, out.result.value)
  {
    hide Orderly, FreshIds, IsArtifactId;
    FirstPutIsAppended(s, env, codec, put);
    assert env.authorize(Create, put.access, None);
  }

  /** So is the first diff of a turn. */
  lemma FirstDiffIsStored(s: State, env: Env, codec: Codec, put: TurnCall)
    requires Orderly(s, env) && FreshIds(env) && Permissive(env)
    requires put.PutDiff? && Admissible(s, env, codec, put) && DiffKey(put.diff.turnId) !in s.idempotency
    ensures var out := Perform(s, env, codec, put);
            && out.result.Ok? && out.state.records == s.records + [out.result.value]
            && DiffStored(out.state, codec, put.diff, put.ownership, out.result.value)
  {
    hide Orderly, FreshIds, IsArtifactId;
    FirstPutIsAppended(s, env, codec, put);
    assert env.authorize(Create, put.access, None);
  }

  lemma FirstPutIsAppended(s: State, env: Env, codec: Codec, put: TurnCall)
    requires Orderly(s, env) && FreshIds(env)
    ensures forall m: Metadata :: m.artifactId == env.newId(s.sequence + 1) ==> Store(s.records, m) == s.records + [m]
  {
    hide Consistent, FreshIds;
    NextIdIsNew(s, env);
    forall m: Metadata | m.artifactId == env.newId(s.sequence + 1) ensures Store(s.records, m) == s.records + [m] {
      StoreNew(s.records, m);
    }
  }

  /**
    Both snapshots of a turn are stored, each under its own key, in either order and with whatever is put
    between them and after them, as long as each is the first of its phase.
  */
  lemma BothPhasesAreStored(
    s: State, env: Env, codec: Codec, first: TurnCall, between: seq<TurnCall>, second: TurnCall)
    requires Orderly(s, env) && FreshIds(env) && Permissive(env)
    requires WellFormed(first) && WellFormed(second) && forall c :: c in between ==> WellFormed(c)
    requires first.PutSnapshot? && second.PutSnapshot? && first.snapshot.turnId == second.snapshot.turnId
    requires first.snapshot.phase != second.snapshot.phase
    requires Admissible(s, env, codec, first)
    requires SnapshotKey(first.snapshot.turnId, first.snapshot.phase) !in s.idempotency
    requires SnapshotKey(second.snapshot.turnId, second.snapshot.phase) !in s.idempotency
    requires forall c :: c in between ==>
               !(c.PutSnapshot? && c.snapshot.turnId == second.snapshot.turnId &&
                 c.snapshot.phase == second.snapshot.phase)
    requires Admissible(Run(Perform(s, env, codec, first).state, env, codec, between), env, codec, second)
    ensures var one := Perform(s, env, codec, first);
            var two := Perform(Run(one.state, env, codec, between), env, codec, second);
            && one.result.Ok? && two.result.Ok? && one.result.value.artifactId != two.result.value.artifactId
            && one.result.value in two.state.records
            && SnapshotStored(two.state, codec, second.snapshot, second.ownership, two.result.value)
  {
    hide Orderly, FreshIds, Permissive, WellFormed, Admissible, Perform, SnapshotStored, SnapshotKey;
    var one := Perform(s, env, codec, first);
    var mid := Run(one.state, env, codec, between);
    FirstSnapshotIsStored(s, env, codec, first);
    PerformKeepsOrderly(s, env, codec, first);
    RunKeepsOrderly(one.state, env, codec, between);
    RunPreserves(one.state, env, codec, between);
    var key := SnapshotKey(second.snapshot.turnId, second.snapshot.phase);
    forall c | c in [first] + between ensures Request(codec, c).idempotencyKey != key {
      assert WellFormed(c) by { if c != first { assert c in between; } }
      KeyOfOther(codec, c, second);
    }
    KeyStaysFree(s, env, codec, first, key);
    RunKeepsKeyFree(one.state, env, codec, between, key);
    FirstSnapshotIsStored(mid, env, codec, second);
    PerformKeepsOrderly(mid, env, codec, second);
    var two := Perform(mid, env, codec, second);
    assert mid.records[|s.records|] == one.state.records[|s.records|] == one.result.value;
    LastIsDistinct(two.state, env, mid.records, two.result.value);
  }

  lemma KeyOfOther(codec: Codec, c: TurnCall, second: TurnCall)
    requires WellFormed(c) && WellFormed(second) && second.PutSnapshot?
    requires !(c.PutSnapshot? && c.snapshot.turnId == second.snapshot.turnId &&
               c.snapshot.phase == second.snapshot.phase)
    ensures Request(codec, c).idempotencyKey != SnapshotKey(second.snapshot.turnId, second.snapshot.phase)
  {
    hide SnapshotKey;
    KeyOfSnapshot(codec, c, second.snapshot.turnId, second.snapshot.phase);
  }

  lemma KeyStaysFree(s: State, env: Env, codec: Codec, call: TurnCall, key: string)
    requires Orderly(s, env) && FreshIds(env) && Request(codec, call).idempotencyKey != key && key !in s.idempotency
    ensures key !in Perform(s, env, codec, call).state.idempotency
  {
    hide Orderly, FreshIds, Request, PutTo;
    PerformShape(s, env, codec, call);
  }

  lemma {:induction false} RunKeepsKeyFree(s: State, env: Env, codec: Codec, calls: seq<TurnCall>, key: string)
    requires Orderly(s, env) && FreshIds(env) && key !in s.idempotency
    requires forall c :: c in calls ==> WellFormed(c) && Request(codec, c).idempotencyKey != key
    ensures key !in Run(s, env, codec, calls).idempotency
    decreases |calls|
  {
    hide Orderly, FreshIds, WellFormed, Perform, Request;
    if calls != [] {
      assert calls[0] in calls;
      KeyStaysFree(s, env, codec, calls[0], key);
      PerformKeepsOrderly(s, env, codec, calls[0]);
      RunKeepsKeyFree(Perform(s, env, codec, calls[0]).state, env, codec, calls[1..], key);
    }
  }

  lemma LastIsDistinct(n: State, env: Env, before: seq<Metadata>, last: Metadata)
    requires Orderly(n, env) && n.records == before + [last]
    ensures forall x :: x in before ==> x.artifactId != last.artifactId
  {
    hide DiffsKeyed, KeysLeadToDiffs, Issued, AllHeld, NoStrayKey, NoStrayPayload;
    forall x | x in before ensures x.artifactId != last.artifactId {
      var i :| 0 <= i < |before| && before[i] == x;
      assert n.records[i] == x && n.records[|before|] == last;
    }
  }

  /** Once a turn has a diff, another put is answered with it if the hashes agree and refused if they differ. */
  lemma LaterDiffIsDecidedByHash(s: State, env: Env, codec: Codec, m: Metadata, put: TurnCall)
    requires Orderly(s, env) && Permissive(env) && put.PutDiff? && WellFormed(put)
    requires m in s.records && IsDiffOf(m, put.diff.turnId)
    requires OwnershipMatches(put.access, put.ownership) && |DiffKey(put.diff.turnId)| <= 256
    ensures Perform(s, env, codec, put)
            == Outcome(if m.payload.sha256 == env.sha256(codec.encodeDiff(put.diff)) then Ok(m)
                       else Err(IdempotencyConflict), s)
  {
    assert DiffKeyed(s, m);
    LookupMember(s.records, m);
    assert Held(s, env, m);
  }

  // ----- all diffs of a workspace -----

  /** The diffs among the records that belong to a workspace, in the order they were accepted. */
  function DiffRecords(records: seq<Metadata>, workspaceId: string): seq<Metadata> {
    if records == [] then []
    else
      var rest := DiffRecords(records[1..], workspaceId);
      if IsTurnDiff(records[0]) && records[0].ownership.workspaceId == workspaceId then [records[0]] + rest else rest
  }

  lemma {:induction false} DiffRecordsMembers(records: seq<Metadata>, workspaceId: string)
    ensures forall m :: m in DiffRecords(records, workspaceId)
              <==> m in records && IsTurnDiff(m) && m.ownership.workspaceId == workspaceId
  {
    if records != [] { DiffRecordsMembers(records[1..], workspaceId); }
  }

  lemma {:induction false} DiffRecordsAppend(a: seq<Metadata>, b: seq<Metadata>, workspaceId: string)
    ensures DiffRecords(a + b, workspaceId) == DiffRecords(a, workspaceId) + DiffRecords(b, workspaceId)
  {
    hide IsTurnDiff;
    if a == [] {
      assert a + b == b;
    } else {
      assert (a + b)[0] == a[0] && (a + b)[1..] == a[1..] + b;
      DiffRecordsAppend(a[1..], b, workspaceId);
    }
  }

  lemma {:induction false} DiffRecordsDistinct(records: seq<Metadata>, workspaceId: string)
    requires DistinctIds(records)
    ensures DistinctIds(DiffRecords(records, workspaceId))
  {
    hide IsTurnDiff;
    if records != [] {
      DistinctTail(records);
      DiffRecordsDistinct(records[1..], workspaceId);
      DiffRecordsMembers(records[1..], workspaceId);
      DistinctCons(records[0], DiffRecords(records[1..], workspaceId));
    }
  }

  /** Every diff of the workspace has bytes that decode. */
  ghost predicate Readable(s: State, codec: Codec, records: seq<Metadata>) {
    forall m :: m in records && IsTurnDiff(m) ==>
      m.payload.storageKey in s.payloads && codec.decodeDiff(s.payloads[m.payload.storageKey]).Some?
  }

  /** A record and the diff its bytes hold. */
  function Reading(s: State, codec: Codec, m: Metadata): StoredDiff
    requires m.payload.storageKey in s.payloads && codec.decodeDiff(s.payloads[m.payload.storageKey]).Some?
  {
    StoredDiff(m, codec.decodeDiff(s.payloads[m.payload.storageKey]).value)
  }

  lemma ReadDiffOf(s: State, env: Env, codec: Codec, m: Metadata, access: Access)
    requires Consistent(s, env) && Permissive(env) && m in s.records
    requires m.payload.storageKey in s.payloads && codec.decodeDiff(s.payloads[m.payload.storageKey]).Some?
    ensures ReadDiff(s, env, codec, m, access) == Ok(Reading(s, codec, m))
  {
    hide IsArtifactId;
    LookupMember(s.records, m);
    assert Held(s, env, m);
  }

  /** The list read for a workspace is one reading for each of its diff records, in their order. */
  ghost predicate Lists(s: State, codec: Codec, records: seq<Metadata>, diffs: seq<StoredDiff>) {
    |diffs| == |records| && forall i :: 0 <= i < |records| ==>
      && records[i].payload.storageKey in s.payloads
      && codec.decodeDiff(s.payloads[records[i].payload.storageKey]).Some?
      && diffs[i] == Reading(s, codec, records[i])
  }

  lemma {:induction false} ReadDiffsMeaning(s: State, env: Env, codec: Codec, records: seq<Metadata>, access: Access)
    requires Consistent(s, env) && Permissive(env) && (forall m :: m in records ==> m in s.records)
    requires Readable(s, codec, DiffRecords(records, access.workspaceId))
    ensures ReadDiffs(s, env, codec, Visible(records, env, access), access).Ok?
    ensures Lists(s, codec, DiffRecords(records, access.workspaceId),
                  ReadDiffs(s, env, codec, Visible(records, env, access), access).value)
    decreases |records|
  {
    hide Consistent, ReadDiff, IsTurnDiff;
    if records != [] {
      var m, rest := records[0], Visible(records[1..], env, access);
      assert m in records;
      ReadDiffsMeaning(s, env, codec, records[1..], access);
      if m.ownership.workspaceId == access.workspaceId {
        assert env.authorize(ReadMetadata, access, Some(m));
        assert Visible(records, env, access) == [m] + rest && ([m] + rest)[1..] == rest;
        if IsTurnDiff(m) {
          assert m in DiffRecords(records, access.workspaceId);
          ReadDiffOf(s, env, codec, m, access);
        }
      }
    }
  }

  ghost predicate Shows(records: seq<Metadata>, turnId: string) {
    exists i :: 0 <= i < |records| && IsDiffOf(records[i], turnId)
  }

  ghost predicate HasDiff(s: State, turnId: string, workspaceId: string) {
    exists m :: m in s.records && IsDiffOf(m, turnId) && m.ownership.workspaceId == workspaceId
  }

  lemma WorkspaceDiffsList(s: State, env: Env, codec: Codec, access: Access)
    requires Orderly(s, env) && Permissive(env)
    requires Readable(s, codec, DiffRecords(s.records, access.workspaceId))
    ensures WorkspaceDiffs(s, env, codec, access).Ok?
    ensures Lists(s, codec, DiffRecords(s.records, access.workspaceId), WorkspaceDiffs(s, env, codec, access).value)
  {
    hide Consistent, DiffsKeyed, KeysLeadToDiffs, Issued, Lists, Readable, ReadDiffs, Visible;
    assert env.authorize(List, access, None);
    ReadDiffsMeaning(s, env, codec, s.records, access);
  }

  /**
    In an orderly store whose diffs decode, listing a workspace returns one entry for each turn that has
    a diff there, in the order the diffs were accepted, and each entry is what a lookup of its turn
    returns.
  */
  lemma WorkspaceDiffsMeaning(s: State, env: Env, codec: Codec, access: Access)
    requires Orderly(s, env) && Permissive(env)
    requires Readable(s, codec, DiffRecords(s.records, access.workspaceId))
    ensures var r, records := WorkspaceDiffs(s, env, codec, access), DiffRecords(s.records, access.workspaceId);
            && r.Ok? && Lists(s, codec, records, r.value)
            && (forall i, j, t :: 0 <= i < j < |records| && IsDiffOf(records[i], t) ==> !IsDiffOf(records[j], t))
            && (forall i, t :: 0 <= i < |records| && IsDiffOf(records[i], t) ==>
                  DiffOfTurn(s, env, codec, t, access) == Ok(Some(r.value[i])))
            && (forall t :: Shows(records, t) <==> HasDiff(s, t, access.workspaceId))
  {
    hide IsTurnDiff, DiffOfTurn, Consistent, DiffsKeyed, KeysLeadToDiffs, Issued;
    var records := DiffRecords(s.records, access.workspaceId);
    WorkspaceDiffsList(s, env, codec, access);
    DiffRecordsMembers(s.records, access.workspaceId);
    DistinctRecords(s, env);
    DiffRecordsDistinct(s.records, access.workspaceId);
    forall i, j, t | 0 <= i < j < |records| && IsDiffOf(records[i], t) ensures !IsDiffOf(records[j], t) {
      assert records[i] in records && records[j] in records;
      if IsDiffOf(records[j], t) { OneDiffPerTurn(s, env, t, records[i], records[j]); }
    }
    forall i, t | 0 <= i < |records| && IsDiffOf(records[i], t)
      ensures DiffOfTurn(s, env, codec, t, access) == Ok(Some(WorkspaceDiffs(s, env, codec, access).value[i]))
    {
      assert records[i] in records;
      LookupFindsTheDiff(s, env, codec, records[i], t, access);
    }
    forall t ensures Shows(records, t) <==> HasDiff(s, t, access.workspaceId) {
      if Shows(records, t) {
        var i :| 0 <= i < |records| && IsDiffOf(records[i], t);
        assert records[i] in records;
      }
      if HasDiff(s, t, access.workspaceId) {
        var m :| m in s.records && IsDiffOf(m, t) && m.ownership.workspaceId == access.workspaceId;
        assert IsTurnDiff(m) && m in records;
        var i :| 0 <= i < |records| && records[i] == m;
      }
    }
  }

  /** Later puts only add to the end of the list: entries keep their place and their content. */
  lemma WorkspaceDiffsGrow(s: State, env: Env, codec: Codec, calls: seq<TurnCall>, access: Access)
    requires Orderly(s, env) && FreshIds(env) && Permissive(env) && forall c :: c in calls ==> WellFormed(c)
    requires Readable(s, codec, DiffRecords(s.records, access.workspaceId))
    requires var n := Run(s, env, codec, calls); Readable(n, codec, DiffRecords(n.records, access.workspaceId))
    ensures var n := Run(s, env, codec, calls);
            && WorkspaceDiffs(s, env, codec, access).Ok? && WorkspaceDiffs(n, env, codec, access).Ok?
            && WorkspaceDiffs(s, env, codec, access).value <= WorkspaceDiffs(n, env, codec, access).value
  {
    hide Orderly, FreshIds, Permissive, WellFormed, Run, WorkspaceDiffs, IsTurnDiff, Lists, Readable, SamePayload;
    var n, w := Run(s, env, codec, calls), access.workspaceId;
    RunPreserves(s, env, codec, calls);
    RunKeepsOrderly(s, env, codec, calls);
    WorkspaceDiffsList(s, env, codec, access);
    WorkspaceDiffsList(n, env, codec, access);
    assert n.records == s.records + n.records[|s.records|..];
    DiffRecordsAppend(s.records, n.records[|s.records|..], w);
    DiffRecordsMembers(s.records, w);
    ListsGrow(s, n, codec, DiffRecords(s.records, w), DiffRecords(n.records, w),
              WorkspaceDiffs(s, env, codec, access).value, WorkspaceDiffs(n, env, codec, access).value);
  }

  lemma ListsGrow(
    s: State, n: State, codec: Codec, a: seq<Metadata>, b: seq<Metadata>,
    before: seq<StoredDiff>, after: seq<StoredDiff>)
    requires Lists(s, codec, a, before) && Lists(n, codec, b, after) && a <= b
    requires forall m :: m in a ==> SamePayload(s, n, m)
    ensures before <= after
  {
    forall i | 0 <= i < |before| ensures before[i] == after[i] {
      assert a[i] in a && a[i] == b[i];
    }
  }

  // ----- the ids the store draws by default -----

  function Padded(s: string): string
    decreases 6 - |s|
  {
    if |s| >= 6 then s else Padded("0" + s)
  }

  function DefaultId(n: nat): string {
    "art_memory_" + Padded(Decimal(n))
  }

  lemma {:induction false} ZeroIsSkipped(s: string)
    ensures NumberOf("0" + s) == NumberOf(s)
  {
    var t := "0" + s;
    if s == [] {
      assert t[..0] == [];
    } else {
      ZeroIsSkipped(s[..|s| - 1]);
      assert t[..|t| - 1] == "0" + s[..|s| - 1];
    }
  }

  lemma {:induction false} PaddingIsSkipped(s: string)
    ensures NumberOf(Padded(s)) == NumberOf(s)
    decreases 6 - |s|
  {
    if |s| < 6 {
      ZeroIsSkipped(s);
      PaddingIsSkipped("0" + s);
    }
  }

  /** A default id is the prefix `art_memory_` and the number in decimal, with zeros in front up to six digits. */
  lemma DefaultIdForm(n: nat)
    ensures exists digits ::
              && DefaultId(n) == "art_memory_" + digits && NumberOf(digits) == n
              && |digits| == (if |Decimal(n)| >= 6 then |Decimal(n)| else 6)
              && forall i :: 0 <= i < |digits| ==> '0' <= digits[i] <= '9'
  {
    DecimalIsRead(n);
    PaddingIsSkipped(Decimal(n));
    PaddingIsDigits(Decimal(n));
  }

  lemma {:induction false} PaddingIsDigits(s: string)
    requires forall i :: 0 <= i < |s| ==> IsDigit(s[i])
    ensures |Padded(s)| == (if |s| >= 6 then |s| else 6)
    ensures forall i :: 0 <= i < |Padded(s)| ==> IsDigit(Padded(s)[i])
    decreases 6 - |s|
  {
    if |s| < 6 { PaddingIsDigits("0" + s); }
  }

  /** The default generator never repeats an id, also beyond six digits. */
  lemma DefaultIdsAreFresh(env: Env)
    requires forall n: nat :: env.newId(n) == DefaultId(n)
    ensures FreshIds(env)
  {
    forall i: nat, j: nat | env.newId(i) == env.newId(j) ensures i == j {
      assert DefaultId(i)[11..] == Padded(Decimal(i)) && DefaultId(j)[11..] == Padded(Decimal(j));
      PaddingIsSkipped(Decimal(i));
      PaddingIsSkipped(Decimal(j));
      DecimalIsRead(i);
      DecimalIsRead(j);
    }
  }
}

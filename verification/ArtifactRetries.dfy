/**
  Resending an artifact. A put answers a resend through its idempotency key, but the key leads to an
  artifact id, and what is stored under an id can be overwritten or deleted in between. This module
  follows a key through a run and says exactly what a resend is answered with.
*/
module ArtifactRetries {
  import opened Wrappers
  import opened ArtifactRecords

  /** What a call changes: it stores a record for a key, drops an artifact, or changes no artifact. */
  datatype Effect = Wrote(key: string, record: Metadata) | Dropped(id: string) | Nothing

  function EffectOf(s: State, env: Env, call: Call): Effect {
    match call
    case Put(input, access, now) =>
      var out := PutTo(s, env, input, access, now);
      if out.result.Ok? && Bound(s, input.idempotencyKey).None? then Wrote(input.idempotencyKey, out.result.value)
      else Nothing
    case Remove(id, access) => if DeleteFrom(s, env, id, access).result == Ok(true) then Dropped(id) else Nothing
  }

  function Effects(s: State, env: Env, calls: seq<Call>): seq<Effect>
    decreases |calls|
  {
    if calls == [] then [] else [EffectOf(s, env, calls[0])] + Effects(Step(s, env, calls[0]), env, calls[1..])
  }

  /** Where a key leads after an effect, given where it led before. */
  function Next(at: Option<Metadata>, key: string, effect: Effect): Option<Metadata> {
    match effect
    case Wrote(k, record) =>
      if k == key || (at.Some? && record.artifactId == at.value.artifactId) then Some(record) else at
    case Dropped(id) => if at.Some? && at.value.artifactId == id then None else at
    case Nothing => at
  }

  function Follow(at: Option<Metadata>, key: string, effects: seq<Effect>): Option<Metadata>
    decreases |effects|
  {
    if effects == [] then at else Follow(Next(at, key, effects[0]), key, effects[1..])
  }

  // ----- one call -----

  /** What a put must meet to store a record. What is already stored under its id plays no part. */
  predicate Admitted(s: State, env: Env, input: PutInput, access: Access, now: string) {
    && OwnershipMatches(access, input.ownership)
    && 1 <= |input.idempotencyKey| <= 256
    && Bound(s, input.idempotencyKey).None?
    && env.authorize(Create, access, None)
    && !ChecksumFails(env, input)
    && Parses(Build(env, input, ChosenId(s, env, input), now))
  }

  lemma WritesIffAdmitted(s: State, env: Env, input: PutInput, access: Access, now: string)
    ensures EffectOf(s, env, Put(input, access, now))
            == if Admitted(s, env, input, access, now)
               then Wrote(input.idempotencyKey, Build(env, input, ChosenId(s, env, input), now)) else Nothing
    ensures EffectOf(s, env, Put(input, access, now)).Nothing? ==>
              PutTo(s, env, input, access, now).state
              in {s, s.(sequence := Drawn(s, input))}
    ensures Admitted(s, env, input, access, now) ==>
              PutTo(s, env, input, access, now)
              == Outcome(Ok(Build(env, input, ChosenId(s, env, input), now)),
                         Added(s, Build(env, input, ChosenId(s, env, input), now), input.idempotencyKey, input.payload,
                               Drawn(s, input)))
  {
    hide Bound, Parses, Build, Added;
  }

  lemma {:induction false} LookupStore(records: seq<Metadata>, m: Metadata, id: string)
    ensures Lookup(Store(records, m), id) == if id == m.artifactId then Some(m) else Lookup(records, id)
  {
    if records != [] { LookupStore(records[1..], m, id); }
  }

  lemma KeyIsReal(s: State, env: Env, key: string)
    requires Consistent(s, env)
    ensures key in s.idempotency ==> s.idempotency[key] != "" && Lookup(s.records, s.idempotency[key]).Some?
    ensures key in s.idempotency ==> Lookup(s.records, s.idempotency[key]).value.artifactId == s.idempotency[key]
    ensures key in s.idempotency <==> Bound(s, key).Some?
  {
    assert forall m :: m in s.records ==> Held(s, env, m) && m.artifactId != "";
    if key in s.idempotency { LookupMeaning(s.records, s.idempotency[key]); }
  }

  lemma PutFollows(s: State, env: Env, input: PutInput, access: Access, now: string, key: string)
    requires Consistent(s, env)
    ensures Bound(PutTo(s, env, input, access, now).state, key)
            == Next(Bound(s, key), key, EffectOf(s, env, Put(input, access, now)))
  {
    hide Consistent, PutTo, Admitted, EffectOf, Build;
    WritesIffAdmitted(s, env, input, access, now);
    KeyIsReal(s, env, key);
    if Admitted(s, env, input, access, now) {
      var m := Build(env, input, ChosenId(s, env, input), now);
      NamesAnArtifact(s, env, input, access, now);
      LookupStore(s.records, m, if key in s.idempotency then s.idempotency[key] else "");
      LookupStore(s.records, m, m.artifactId);
    }
  }

  lemma NamesAnArtifact(s: State, env: Env, input: PutInput, access: Access, now: string)
    requires Admitted(s, env, input, access, now)
    ensures Build(env, input, ChosenId(s, env, input), now).artifactId != ""
  {
  }

  lemma RemoveFollows(s: State, env: Env, id: string, access: Access, key: string)
    requires Consistent(s, env)
    ensures Bound(DeleteFrom(s, env, id, access).state, key)
            == Next(Bound(s, key), key, EffectOf(s, env, Remove(id, access)))
  {
    hide Consistent;
    KeyIsReal(s, env, key);
    if DeleteFrom(s, env, id, access).result == Ok(true) {
      DeletedIsGone(s, env, id, access);
      DeletedKeys(s, env, id, access);
    }
  }

  lemma DeletedKeys(s: State, env: Env, id: string, access: Access)
    requires DeleteFrom(s, env, id, access).result == Ok(true)
    ensures forall key :: key in DeleteFrom(s, env, id, access).state.idempotency
                          <==> key in s.idempotency && s.idempotency[key] != id
  {
    LookupMeaning(s.records, id);
  }

  lemma CallFollows(s: State, env: Env, call: Call, key: string)
    requires Consistent(s, env)
    ensures Bound(Step(s, env, call), key) == Next(Bound(s, key), key, EffectOf(s, env, call))
    ensures Consistent(Step(s, env, call), env)
  {
    hide Consistent, Bound, EffectOf, PutTo, DeleteFrom, Next;
    match call
    case Put(input, access, now) =>
      PutFollows(s, env, input, access, now, key);
      PutKeepsConsistent(s, env, input, access, now);
    case Remove(id, access) =>
      RemoveFollows(s, env, id, access, key);
      DeleteKeepsConsistent(s, env, id, access);
  }

  /** Where a key leads is decided by what the calls in between stored and dropped. */
  lemma {:induction false} RunFollows(s: State, env: Env, calls: seq<Call>, key: string)
    requires Consistent(s, env)
    ensures Bound(Run(s, env, calls), key) == Follow(Bound(s, key), key, Effects(s, env, calls))
    ensures Consistent(Run(s, env, calls), env)
    decreases |calls|
  {
    hide Consistent, Bound, EffectOf, Step, Next;
    if calls != [] {
      CallFollows(s, env, calls[0], key);
      RunFollows(Step(s, env, calls[0]), env, calls[1..], key);
      assert Effects(s, env, calls)[1..] == Effects(Step(s, env, calls[0]), env, calls[1..]);
    }
  }

  // ----- resending -----

  /** What resending a put is answered with, given the record its key leads to. */
  function Answer(env: Env, put: Call, at: Metadata): Result<Metadata, ArtifactError>
    requires put.Put?
  {
    if !env.authorize(Create, put.access, Some(at)) then Err(AccessDenied)
    else if at.payload.sha256 != env.sha256(put.input.payload) then Err(IdempotencyConflict)
    else Ok(at)
  }

  /** Where the key of an accepted put leads after a run of further calls. */
  function LeadsTo(s: State, env: Env, put: Call, calls: seq<Call>): Option<Metadata>
    requires put.Put? && PutTo(s, env, put.input, put.access, put.now).result.Ok?
  {
    var m := PutTo(s, env, put.input, put.access, put.now).result.value;
    Follow(Some(m), put.input.idempotencyKey, Effects(Step(s, env, put), env, calls))
  }

  lemma AcceptedPutPasses(s: State, env: Env, put: Call)
    requires put.Put? && PutTo(s, env, put.input, put.access, put.now).result.Ok?
    ensures OwnershipMatches(put.access, put.input.ownership) && 1 <= |put.input.idempotencyKey| <= 256
  {
    hide Bound, Build, Parses;
  }

  lemma KeyAfterRun(s: State, env: Env, put: Call, calls: seq<Call>)
    requires Consistent(s, env) && put.Put? && PutTo(s, env, put.input, put.access, put.now).result.Ok?
    ensures Bound(Run(Step(s, env, put), env, calls), put.input.idempotencyKey) == LeadsTo(s, env, put, calls)
    ensures Consistent(Run(Step(s, env, put), env, calls), env)
  {
    hide Consistent, Bound, PutTo, Follow, Run;
    PutIsReadBack(s, env, put.input, put.access, put.now);
    PutKeepsConsistent(s, env, put.input, put.access, put.now);
    RunFollows(Step(s, env, put), env, calls, put.input.idempotencyKey);
  }

  /**
    An accepted put, any run of puts and deletes, and the put again, at any later time. If its key still
    leads to a record, that record decides: it is returned, with nothing changed, if its payload has the
    hash of the one resent; otherwise the resend is a conflict. If the key leads nowhere, because the
    artifact was deleted, the resend is a new put and what it stores is described by it alone.
  */
  lemma ResendAfterRun(s: State, env: Env, put: Call, calls: seq<Call>, later: string)
    requires Consistent(s, env) && put.Put? && PutTo(s, env, put.input, put.access, put.now).result.Ok?
    ensures var end := Run(Step(s, env, put), env, calls);
            var again := PutTo(end, env, put.input, put.access, later);
            match LeadsTo(s, env, put, calls)
            case Some(at) => again == Outcome(Answer(env, put, at), end)
            case None =>
              again.result.Ok? ==>
                && EffectOf(end, env, Put(put.input, put.access, later))
                   == Wrote(put.input.idempotencyKey, again.result.value)
                && Describes(again.result.value, put.input) && again.result.value.createdAt == later
  {
    hide Consistent, Follow, Run, Step, Build, Parses, LeadsTo;
    AcceptedPutPasses(s, env, put);
    KeyAfterRun(s, env, put, calls);
    var end := Run(Step(s, env, put), env, calls);
    if LeadsTo(s, env, put, calls).None? {
      if PutTo(end, env, put.input, put.access, later).result.Ok? {
        PutIsReadBack(end, env, put.input, put.access, later);
      }
    }
  }

  /** A resend gets its first record back exactly when its key still leads to that record and it may have it. */
  lemma ResendReturnsFirstIff(s: State, env: Env, put: Call, calls: seq<Call>, later: string)
    requires Consistent(s, env) && put.Put? && PutTo(s, env, put.input, put.access, put.now).result.Ok?
    ensures var m := PutTo(s, env, put.input, put.access, put.now).result.value;
            var end := Run(Step(s, env, put), env, calls);
            PutTo(end, env, put.input, put.access, later) == Outcome(Ok(m), end)
            <==> LeadsTo(s, env, put, calls) == Some(m) && env.authorize(Create, put.access, Some(m))
  {
    hide Consistent, Follow, Run, Step, LeadsTo, PutTo, Answers;
    var m, end := PutTo(s, env, put.input, put.access, put.now).result.value, Run(Step(s, env, put), env, calls);
    PutIsReadBack(s, env, put.input, put.access, put.now);
    FirstHash(s, env, put);
    ResendAfterRun(s, env, put, calls, later);
    KeyAfterRun(s, env, put, calls);
    if LeadsTo(s, env, put, calls).None? && PutTo(end, env, put.input, put.access, later).result.Ok? {
      NewPutBinds(end, env, put.input, put.access, later);
    }
  }

  lemma FirstHash(s: State, env: Env, put: Call)
    requires Consistent(s, env) && put.Put? && PutTo(s, env, put.input, put.access, put.now).result.Ok?
    ensures PutTo(s, env, put.input, put.access, put.now).result.value.payload.sha256 == env.sha256(put.input.payload)
  {
    hide PutTo, Consistent;
    PutIsReadBack(s, env, put.input, put.access, put.now);
  }

  lemma NewPutBinds(s: State, env: Env, input: PutInput, access: Access, now: string)
    requires Consistent(s, env) && PutTo(s, env, input, access, now).result.Ok? && Bound(s, input.idempotencyKey).None?
    ensures PutTo(s, env, input, access, now).state != s
  {
    hide PutTo, Consistent;
    PutIsReadBack(s, env, input, access, now);
  }

  // ----- reading the condition off the history -----

  /** The last record stored under the id of `m`, or `m` itself. */
  function LastWritten(m: Metadata, effects: seq<Effect>): Metadata
    decreases |effects|
  {
    if effects == [] then m
    else
      var e := effects[0];
      LastWritten(if e.Wrote? && e.record.artifactId == m.artifactId then e.record else m, effects[1..])
  }

  lemma BoundKeyIsNotWritten(s: State, env: Env, call: Call, key: string)
    requires Bound(s, key).Some?
    ensures EffectOf(s, env, call).Wrote? ==> EffectOf(s, env, call).key != key
  {
    hide PutTo, Bound;
  }

  lemma {:induction false} UndeletedFollows(s: State, env: Env, calls: seq<Call>, key: string, m: Metadata)
    requires Consistent(s, env) && Bound(s, key) == Some(m) && Dropped(m.artifactId) !in Effects(s, env, calls)
    ensures Follow(Some(m), key, Effects(s, env, calls)) == Some(LastWritten(m, Effects(s, env, calls)))
    decreases |calls|
  {
    hide Consistent, Bound, EffectOf, Step;
    if calls != [] {
      var e, rest := EffectOf(s, env, calls[0]), Effects(Step(s, env, calls[0]), env, calls[1..]);
      assert Effects(s, env, calls) == [e] + rest && ([e] + rest)[1..] == rest;
      CallFollows(s, env, calls[0], key);
      BoundKeyIsNotWritten(s, env, calls[0], key);
      UndeletedFollows(Step(s, env, calls[0]), env, calls[1..], key, Next(Some(m), key, e).value);
    }
  }

  /**
    As long as the artifact is not deleted, its key leads to the last record stored under its id. So the
    resend gets the first record exactly when nothing else was stored there last, another record when
    that one has the same hash, and a conflict when it has another.
  */
  lemma UndeletedResend(s: State, env: Env, put: Call, calls: seq<Call>)
    requires Consistent(s, env) && put.Put? && PutTo(s, env, put.input, put.access, put.now).result.Ok?
    requires Dropped(PutTo(s, env, put.input, put.access, put.now).result.value.artifactId)
             !in Effects(Step(s, env, put), env, calls)
    ensures LeadsTo(s, env, put, calls)
            == Some(LastWritten(PutTo(s, env, put.input, put.access, put.now).result.value,
                                Effects(Step(s, env, put), env, calls)))
  {
    hide Consistent, Bound, PutTo, Follow, Effects, LastWritten;
    PutIsReadBack(s, env, put.input, put.access, put.now);
    PutKeepsConsistent(s, env, put.input, put.access, put.now);
    UndeletedFollows(Step(s, env, put), env, calls, put.input.idempotencyKey,
                     PutTo(s, env, put.input, put.access, put.now).result.value);
  }

  lemma {:induction false} NothingElseWritten(m: Metadata, effects: seq<Effect>)
    requires forall e :: e in effects && e.Wrote? ==> e.record.artifactId != m.artifactId
    ensures LastWritten(m, effects) == m
    decreases |effects|
  {
    if effects != [] {
      assert effects[0] in effects;
      NothingElseWritten(m, effects[1..]);
    }
  }

  /** If nothing was stored under the id or deleted from it, the resend gets the first record. */
  lemma UntouchedResend(s: State, env: Env, put: Call, calls: seq<Call>, later: string)
    requires Consistent(s, env) && put.Put? && PutTo(s, env, put.input, put.access, put.now).result.Ok?
    requires var m := PutTo(s, env, put.input, put.access, put.now).result.value;
             forall e :: e in Effects(Step(s, env, put), env, calls) ==>
               e != Dropped(m.artifactId) && (e.Wrote? ==> e.record.artifactId != m.artifactId)
    ensures var m := PutTo(s, env, put.input, put.access, put.now).result.value;
            var end := Run(Step(s, env, put), env, calls);
            env.authorize(Create, put.access, Some(m)) ==>
              PutTo(end, env, put.input, put.access, later) == Outcome(Ok(m), end)
  {
    hide Consistent, PutTo, Effects, LastWritten, LeadsTo, Step, Run;
    UndeletedResend(s, env, put, calls);
    NothingElseWritten(PutTo(s, env, put.input, put.access, put.now).result.value,
                       Effects(Step(s, env, put), env, calls));
    ResendReturnsFirstIff(s, env, put, calls, later);
  }

  lemma {:induction false} DeletedFollows(at: Option<Metadata>, key: string, effects: seq<Effect>, id: string)
    requires at.Some? ==> at.value.artifactId == id && Dropped(id) in effects
    requires forall e :: e in effects && e.Wrote? ==> e.key != key
    ensures Follow(at, key, effects) == None
    decreases |effects|
  {
    if effects != [] {
      assert effects[0] in effects && effects == [effects[0]] + effects[1..];
      DeletedFollows(Next(at, key, effects[0]), key, effects[1..], id);
    }
  }

  /** Once the artifact was deleted, and unless its key was used again, the resend is a new put. */
  lemma DeletedResend(s: State, env: Env, put: Call, calls: seq<Call>)
    requires put.Put? && PutTo(s, env, put.input, put.access, put.now).result.Ok?
    requires Dropped(PutTo(s, env, put.input, put.access, put.now).result.value.artifactId)
             in Effects(Step(s, env, put), env, calls)
    requires forall e :: e in Effects(Step(s, env, put), env, calls) && e.Wrote? ==> e.key != put.input.idempotencyKey
    ensures LeadsTo(s, env, put, calls) == None
  {
    hide PutTo, Effects, Step;
    var m := PutTo(s, env, put.input, put.access, put.now).result.value;
    DeletedFollows(Some(m), put.input.idempotencyKey, Effects(Step(s, env, put), env, calls), m.artifactId);
  }

  // ----- two ways for it to go wrong -----

  /** A second put stores something else under the caller-named id of the first. */
  predicate Reuses(s: State, env: Env, first: Call, second: Call) {
    && first.Put? && second.Put?
    && Admitted(s, env, first.input, first.access, first.now)
    && Admitted(Step(s, env, first), env, second.input, second.access, second.now)
    && first.input.artifactId.Some? && first.input.artifactId == second.input.artifactId
  }

  function RecordOf(s: State, env: Env, put: Call): Metadata
    requires put.Put?
  {
    Build(env, put.input, ChosenId(s, env, put.input), put.now)
  }

  /**
    Resending the first put is then answered through the second record: a conflict if the payloads have
    different hashes, and otherwise the second record, whatever its kind, owner and properties.
  */
  lemma ReusedIdBreaksRetry(s: State, env: Env, first: Call, second: Call, later: string)
    requires Consistent(s, env) && Reuses(s, env, first, second)
    ensures var theirs, end := RecordOf(Step(s, env, first), env, second), Run(Step(s, env, first), env, [second]);
            PutTo(end, env, first.input, first.access, later) == Outcome(Answer(env, first, theirs), end)
  {
    hide Consistent, Admitted, PutTo, Build, LeadsTo, EffectOf, Step, Run, ChosenId;
    var s1, mine, theirs := Step(s, env, first), RecordOf(s, env, first), RecordOf(Step(s, env, first), env, second);
    WritesIffAdmitted(s, env, first.input, first.access, first.now);
    WritesIffAdmitted(s1, env, second.input, second.access, second.now);
    SameId(s, s1, env, first, second);
    OneEffect(s1, env, second);
    ResendAfterRun(s, env, first, [second], later);
    FollowOne(mine, theirs, first, second, s, env);
  }

  lemma SameId(s: State, s1: State, env: Env, first: Call, second: Call)
    requires first.Put? && second.Put?
    requires first.input.artifactId.Some? && first.input.artifactId == second.input.artifactId
    ensures RecordOf(s, env, first).artifactId == RecordOf(s1, env, second).artifactId
  {
  }

  lemma OneEffect(s: State, env: Env, call: Call)
    ensures Effects(s, env, [call]) == [EffectOf(s, env, call)]
  {
    hide EffectOf, Step;
    assert [call][1..] == [];
    assert Effects(Step(s, env, call), env, []) == [];
  }

  lemma FollowOne(mine: Metadata, theirs: Metadata, first: Call, second: Call, s: State, env: Env)
    requires first.Put? && PutTo(s, env, first.input, first.access, first.now).result == Ok(mine)
    requires second.Put? && mine.artifactId == theirs.artifactId
    requires Effects(Step(s, env, first), env, [second]) == [Wrote(second.input.idempotencyKey, theirs)]
    ensures LeadsTo(s, env, first, [second]) == Some(theirs)
  {
    hide PutTo, Effects, Step;
    var e := Wrote(second.input.idempotencyKey, theirs);
    assert [e][1..] == [];
    assert Follow(Some(mine), first.input.idempotencyKey, [e]) == Follow(Some(theirs), first.input.idempotencyKey, []);
  }

  // ----- whose record a put can replace -----

  /**
    A put changes the owner of a stored record exactly when it is admitted under its own ownership and
    ends up with that record's id. Neither the record nor its owner is asked: authorisation to create
    is requested without it.
  */
  lemma OwnerChangesIff(s: State, env: Env, input: PutInput, access: Access, now: string, m: Metadata)
    requires Consistent(s, env) && m in s.records
    ensures var after := Lookup(PutTo(s, env, input, access, now).state.records, m.artifactId);
            && after.Some?
            && (after.value.ownership != m.ownership
                <==> && Admitted(s, env, input, access, now) && ChosenId(s, env, input) == m.artifactId
                     && input.ownership != m.ownership)
  {
    hide PutTo, Admitted, ChosenId, EffectOf, Bound;
    WritesIffAdmitted(s, env, input, access, now);
    LookupMember(s.records, m);
    LookupStore(s.records, Build(env, input, ChosenId(s, env, input), now), m.artifactId);
  }
}

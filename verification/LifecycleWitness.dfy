/** From events to store to replay: a turn that replay accepts can be stored, and is read back as it was. */
module LifecycleWitness {
  import opened Wrappers
  import opened LifecycleProtocol
  import opened LifecycleReplay
  import opened LifecycleHistory
  import opened LifecycleSettlement
  import opened LifecycleLog
  import opened LifecyclePaging
  import Golden = LifecycleGolden

  /** No two events share an id or an idempotency key. */
  ghost predicate OwnIdentities(es: seq<Event>) {
    forall i, j :: 0 <= i < j < |es| ==> es[i].eventId != es[j].eventId && es[i].idempotencyKey != es[j].idempotencyKey
  }

  /** The events continue the stream of their turn. */
  ghost predicate Continues(log: Log, es: seq<Event>, turnId: string) {
    forall k :: 0 <= k < |es| ==>
      && es[k].turnId == turnId && es[k].sequence == |Stream(log, turnId)| + k + 1 && WellFormed(es[k])
      && (k < |es| - 1 ==> !IsTerminalEvent(es[k]))
  }

  ghost predicate NewTo(log: Log, es: seq<Event>) {
    forall k :: 0 <= k < |es| ==> es[k].eventId !in log.byId && Key(es[k]) !in log.byKey
  }

  ghost predicate OpenFor(log: Log, turnId: string) {
    var s := Stream(log, turnId);
    s == [] || !IsTerminalEvent(s[|s| - 1].event)
  }

  /** One event that continues its turn is appended at the end of the turn's stream. */
  lemma StoresOne(log: Log, fp: Fingerprint, es: seq<Event>, turnId: string)
    requires Sound(log, fp) && es != [] && Continues(log, es, turnId) && NewTo(log, es) && OpenFor(log, turnId)
    ensures AppendOne(log, fp, es[0]) == Ok(Appended(Insert(log, Stored(es[0], fp(es[0]))), es[0]))
    ensures Sound(Insert(log, Stored(es[0], fp(es[0]))), fp)
    ensures Stream(Insert(log, Stored(es[0], fp(es[0]))), turnId) == Stream(log, turnId) + [Stored(es[0], fp(es[0]))]
  {
    StreamOfSoundLog(log, fp, turnId);
    assert AssertAppendable(log, es[0]).Ok?;
    AppendOneKeepsSound(log, fp, es[0]);
  }

  lemma RestContinues(log: Log, fp: Fingerprint, es: seq<Event>, turnId: string)
    requires es != [] && Continues(log, es, turnId) && NewTo(log, es) && OwnIdentities(es)
    ensures var next := Insert(log, Stored(es[0], fp(es[0])));
            && Continues(next, es[1..], turnId) && NewTo(next, es[1..]) && OwnIdentities(es[1..])
            && (|es| > 1 ==> OpenFor(next, turnId))
  {
    var next, rest := Insert(log, Stored(es[0], fp(es[0]))), es[1..];
    forall k | 0 <= k < |rest| ensures rest[k].eventId !in next.byId && Key(rest[k]) !in next.byKey {
      assert rest[k] == es[k + 1] && es[0].idempotencyKey != es[k + 1].idempotencyKey;
      KeyIdentifies(es[0], es[k + 1]);
    }
  }

  lemma {:induction false} StoresAll(log: Log, fp: Fingerprint, es: seq<Event>, turnId: string)
    requires Sound(log, fp) && Continues(log, es, turnId) && NewTo(log, es) && OwnIdentities(es)
    requires es != [] ==> OpenFor(log, turnId)
    ensures AppendAll(log, fp, es).Ok? && AppendAll(log, fp, es).value.events == es
    ensures EventsOf(Stream(AppendAll(log, fp, es).value.log, turnId)) == EventsOf(Stream(log, turnId)) + es
    decreases |es|
  {
    hide Sound, Continues, NewTo, OwnIdentities, OpenFor, AppendOne, AppendAll, Stream, Insert, EventsOf;
    if es == [] {
      StoresNothing(log, fp, turnId);
    } else {
      var stored := Stored(es[0], fp(es[0]));
      StoresOne(log, fp, es, turnId);
      RestContinues(log, fp, es, turnId);
      StoresAll(Insert(log, stored), fp, es[1..], turnId);
      AppendUnfolds(log, fp, es);
      EventsOfAppend(Stream(log, turnId), stored);
      OneByOne(EventsOf(Stream(log, turnId)), es);
    }
  }

  lemma StoresNothing(log: Log, fp: Fingerprint, turnId: string)
    ensures AppendAll(log, fp, []) == Ok(AppendedAll(log, []))
    ensures EventsOf(Stream(log, turnId)) + [] == EventsOf(Stream(log, turnId))
  {
  }

  lemma AppendUnfolds(log: Log, fp: Fingerprint, es: seq<Event>)
    requires es != [] && AppendOne(log, fp, es[0]).Ok?
    requires AppendAll(AppendOne(log, fp, es[0]).value.log, fp, es[1..]).Ok?
    ensures var first := AppendOne(log, fp, es[0]).value;
            var rest := AppendAll(first.log, fp, es[1..]).value;
            AppendAll(log, fp, es) == Ok(AppendedAll(rest.log, [first.event] + rest.events))
  {
    hide AppendOne;
  }

  lemma OneByOne(before: seq<Event>, es: seq<Event>)
    requires es != []
    ensures [es[0]] + es[1..] == es && before + [es[0]] + es[1..] == before + es
  {
  }

  lemma EventsOfAppend(s: seq<Stored>, stored: Stored)
    ensures EventsOf(s + [stored]) == EventsOf(s) + [stored.event]
  {
  }

  /** Nothing is filed under the keys of a turn that the log has no stream for. */
  lemma UnknownTurnHasNoKeys(log: Log, fp: Fingerprint, e: Event)
    requires Sound(log, fp) && WellFormed(e) && Stream(log, e.turnId) == []
    ensures Key(e) !in log.byKey
  {
    if Key(e) in log.byKey {
      var stored := log.byKey[Key(e)];
      StreamOfSoundLog(log, fp, stored.event.turnId);
      KeyIdentifies(stored.event, e);
    }
  }

  /**
    Any turn that replay accepts, with ids and keys of its own, can be stored in one batch in any sound
    log that does not know the turn, and is read back as the stream that was sent.
  */
  lemma AcceptedTurnIsStorable(log: Log, fp: Fingerprint, es: seq<Event>)
    requires Sound(log, fp) && Replay(es).Ok? && OwnIdentities(es)
    requires es != [] ==> Stream(log, es[0].turnId) == [] && ':' !in es[0].turnId && |es| <= MAX_SAFE_INTEGER
    requires forall k :: 0 <= k < |es| ==> es[k].eventId !in log.byId
    ensures es != [] && AppendBatch(log, fp, es).Ok? && AppendBatch(log, fp, es).value.events == es
    ensures EventsOf(Stream(AppendBatch(log, fp, es).value.log, es[0].turnId)) == es
  {
    hide Sound, Replay, AppendAll, OwnIdentities;
    var _, _ := SettlesExactlyOnceInOrder(es);
    var turnId := es[0].turnId;
    assert forall e :: e in es ==> WellFormed(e);
    forall k | 0 <= k < |es| ensures Key(es[k]) !in log.byKey {
      assert es[k] in es;
      UnknownTurnHasNoKeys(log, fp, es[k]);
    }
    assert Continues(log, es, turnId);
    StoresAll(log, fp, es, turnId);
    assert EventsOf(Stream(log, turnId)) + es == es;
  }

  /** The golden scenarios are such turns: appended to an empty store, read back and replayed. */
  lemma GoldenTurnsAreStorable(ids: Golden.Cast, fp: Fingerprint, reason: string, es: seq<Event>)
    requires es in {Golden.ToolInterrupt(ids, reason), Golden.ApprovalTurn(ids), Golden.InputTurn(ids)}
    requires ':' !in ids.turn
    requires forall i: nat, j: nat :: i != j ==> ids.eventId(i) != ids.eventId(j) && ids.key(i) != ids.key(j)
    ensures AppendBatch(EMPTY, fp, es).Ok? && AppendBatch(EMPTY, fp, es).value.events == es
    ensures EventsOf(Stream(AppendBatch(EMPTY, fp, es).value.log, ids.turn)) == es && Replay(es).Ok?
  {
    hide *;
    GoldenTurnsAreAccepted(ids, reason, es);
    EmptyIsSound(fp);
    NumberedIdentities(ids, es);
    AcceptedTurnIsStorable(EMPTY, fp, es);
  }

  lemma EmptyIsSound(fp: Fingerprint)
    ensures Sound(EMPTY, fp) && EMPTY.byId == map[] && forall t :: Stream(EMPTY, t) == []
  {
  }

  lemma GoldenTurnsAreAccepted(ids: Golden.Cast, reason: string, es: seq<Event>)
    requires es in {Golden.ToolInterrupt(ids, reason), Golden.ApprovalTurn(ids), Golden.InputTurn(ids)}
    ensures Replay(es).Ok? && 1 <= |es| <= MAX_SAFE_INTEGER
    ensures forall k :: 0 <= k < |es| ==> es[k].turnId == ids.turn
    ensures forall k :: 0 <= k < |es| ==>
              es[k].eventId == ids.eventId(es[k].sequence) && es[k].idempotencyKey == ids.key(es[k].sequence)
  {
    hide Replay;
    Golden.ToolInterruptIsAccepted(ids, reason);
    Golden.ApprovalTurnIsAccepted(ids);
    Golden.InputTurnIsAccepted(ids);
  }

  lemma NumberedIdentities(ids: Golden.Cast, es: seq<Event>)
    requires Replay(es).Ok?
    requires forall k :: 0 <= k < |es| ==>
               es[k].eventId == ids.eventId(es[k].sequence) && es[k].idempotencyKey == ids.key(es[k].sequence)
    requires forall i: nat, j: nat :: i != j ==> ids.eventId(i) != ids.eventId(j) && ids.key(i) != ids.key(j)
    ensures OwnIdentities(es)
  {
    hide Replay;
    var _, _ := SettlesExactlyOnceInOrder(es);
  }
}

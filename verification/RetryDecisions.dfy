/**
  Retry or conflict: what the two event stores decide when their fingerprint is the stable one. An event
  whose key is known is answered if its JSON value is the stored one up to the order of keys, and is a
  conflict otherwise, with one exception: a stored value with colliding keys can be refused its own
  reordering.
*/
module RetryDecisions {
  import opened Wrappers
  import JsonText
  import Fingerprint
  import Platform = EventLog
  import Lifecycle = LifecycleLog
  import Protocol = LifecycleProtocol

  /** The lifecycle store fingerprints the JSON value of the event. */
  ghost predicate OfEvents(
    fp: Lifecycle.Fingerprint, json: Protocol.Event -> JsonText.Json, le: Fingerprint.KeyOrder)
  {
    forall e :: JsonText.Valid(json(e)) && fp(e) == Fingerprint.Fingerprint(le, json(e))
  }

  /** The platform store fingerprints the JSON value of the input. */
  ghost predicate OfInputs(fp: Platform.Fingerprint, json: Platform.Input -> JsonText.Json, le: Fingerprint.KeyOrder) {
    forall x :: JsonText.Valid(json(x)) && fp(x) == Fingerprint.Fingerprint(le, json(x))
  }

  /** What comparing the fingerprints of two values says about them. */
  lemma Comparison(le: Fingerprint.KeyOrder, v: JsonText.Json, w: JsonText.Json)
    requires Fingerprint.IsCollation(le) && JsonText.Valid(v) && JsonText.Valid(w)
    ensures Fingerprint.Fingerprint(le, v) == Fingerprint.Fingerprint(le, w) ==>
              Fingerprint.Denote(v) == Fingerprint.Denote(w)
    ensures Fingerprint.NoCollision(le, v) && Fingerprint.Denote(v) == Fingerprint.Denote(w) ==>
              Fingerprint.Fingerprint(le, v) == Fingerprint.Fingerprint(le, w)
  {
    hide *;
    if Fingerprint.Fingerprint(le, v) == Fingerprint.Fingerprint(le, w) {
      Fingerprint.EqualFingerprintsAgree(le, v, w);
    }
    if Fingerprint.NoCollision(le, v) && Fingerprint.Denote(v) == Fingerprint.Denote(w) {
      Fingerprint.CanonicalIffNoCollision(le, v);
    }
  }

  /**
    The lifecycle store. A known key is answered with the stored event only if the two events have the
    same JSON value up to key order, and always then if no two keys of the stored value collide.
  */
  lemma LifecycleRetry(
    log: Lifecycle.Log, fp: Lifecycle.Fingerprint, json: Protocol.Event -> JsonText.Json, le: Fingerprint.KeyOrder,
    e: Protocol.Event)
    requires Lifecycle.Sound(log, fp) && Fingerprint.IsCollation(le) && OfEvents(fp, json, le)
    requires Lifecycle.Key(e) in log.byKey
    ensures var stored, r := log.byKey[Lifecycle.Key(e)].event, Lifecycle.AppendOne(log, fp, e);
            var same := Fingerprint.Denote(json(stored)) == Fingerprint.Denote(json(e));
            && r in {Ok(Lifecycle.Appended(log, stored)), Err(Lifecycle.IdempotencyConflict)}
            && (r.Ok? ==> same)
            && (Fingerprint.NoCollision(le, json(stored)) ==> (r.Ok? <==> same))
  {
    hide Fingerprint.Fingerprint, Fingerprint.Denote, Fingerprint.NoCollision, Fingerprint.IsCollation;
    var stored := log.byKey[Lifecycle.Key(e)];
    assert Lifecycle.Holds(log, stored);
    assert Lifecycle.StreamSound(log.byTurn[stored.event.turnId], stored.event.turnId, fp);
    assert stored.fingerprint == fp(stored.event);
    Comparison(le, json(stored.event), json(e));
  }

  /** The platform store decides in the same way. */
  lemma PlatformRetry(
    s: Platform.State, fp: Platform.Fingerprint, json: Platform.Input -> JsonText.Json, le: Fingerprint.KeyOrder,
    input: Platform.Input, ticket: Platform.Ticket)
    requires Platform.Agreed(s, fp) && Fingerprint.IsCollation(le) && OfInputs(fp, json, le)
    requires Platform.IdempotencyKey(input) in s.byKey
    ensures var stored, r := s.byKey[Platform.IdempotencyKey(input)].event, Platform.AppendTo(s, fp, input, ticket);
            var same := Fingerprint.Denote(json(stored.input)) == Fingerprint.Denote(json(input));
            && r in {Ok(Platform.Added(s, stored)), Err(Platform.IdempotencyConflict)}
            && (r.Ok? ==> same)
            && (Fingerprint.NoCollision(le, json(stored.input)) ==> (r.Ok? <==> same))
  {
    hide Fingerprint.Fingerprint, Fingerprint.Denote, Fingerprint.NoCollision, Fingerprint.IsCollation;
    var stored := s.byKey[Platform.IdempotencyKey(input)];
    assert stored in s.events;
    assert stored.fingerprint == fp(stored.event.input);
    Comparison(le, json(stored.event.input), json(input));
  }

  /** Under a collation without ties the exception is gone: the lifecycle store answers exactly the true retries. */
  lemma LifecycleRetryWithoutTies(
    log: Lifecycle.Log, fp: Lifecycle.Fingerprint, json: Protocol.Event -> JsonText.Json, le: Fingerprint.KeyOrder,
    e: Protocol.Event)
    requires Lifecycle.Sound(log, fp) && Fingerprint.IsCollation(le) && OfEvents(fp, json, le)
    requires Lifecycle.Key(e) in log.byKey && forall a, b :: le(a, b) && le(b, a) ==> a == b
    ensures var stored := log.byKey[Lifecycle.Key(e)].event;
            Lifecycle.AppendOne(log, fp, e)
            == if Fingerprint.Denote(json(stored)) == Fingerprint.Denote(json(e))
               then Ok(Lifecycle.Appended(log, stored))
               else Err(Lifecycle.IdempotencyConflict)
  {
    hide Lifecycle.Sound, Lifecycle.AppendOne, OfEvents;
    hide Fingerprint.Denote, Fingerprint.NoCollision, Fingerprint.IsCollation;
    LifecycleRetry(log, fp, json, le, e);
    Fingerprint.StrictNeverCollides(le, json(log.byKey[Lifecycle.Key(e)].event));
  }
}

/** The in-memory lifecycle event store: three maps, appended to through a draft that is swapped in whole. */
module LifecycleStore {
  import opened Wrappers
  import opened LifecycleProtocol
  import opened LifecycleLog
  import opened LifecyclePaging

  class MemoryLifecycleEventStore {
    const fingerprint: Fingerprint
    var eventsByTurn: map<string, array<Stored>>
    var eventsById: map<string, Stored>
    var eventsByIdempotencyKey: map<string, Stored>

    /** The arrays the store refers to; a draft shares them with the store it was cloned from. */
    ghost function Streams(): set<array<Stored>>
      reads this
    {
      set t | t in eventsByTurn :: eventsByTurn[t]
    }

    ghost function Contents(): Log
      reads this, Streams()
    {
      Log(map t | t in eventsByTurn :: eventsByTurn[t][..], eventsById, eventsByIdempotencyKey)
    }

    /** What every public operation keeps. */
    ghost predicate Valid()
      reads this, Streams()
    {
      Sound(Contents(), fingerprint)
    }

    constructor (fingerprint: Fingerprint)
      ensures Contents() == EMPTY && this.fingerprint == fingerprint && Valid()
    {
      this.fingerprint := fingerprint;
      eventsByTurn, eventsById, eventsByIdempotencyKey := map[], map[], map[];
    }

    /** A shallow copy: another object whose map refers to the same arrays. */
    method Clone() returns (draft: MemoryLifecycleEventStore)
      ensures fresh(draft) && draft.eventsByTurn == eventsByTurn
      ensures draft.Contents() == Contents() && draft.fingerprint == fingerprint
    {
      draft := new MemoryLifecycleEventStore(fingerprint);
      draft.eventsByTurn := eventsByTurn;
      draft.eventsById := eventsById;
      draft.eventsByIdempotencyKey := eventsByIdempotencyKey;
    }

    /** Writes no array that exists: a longer one takes the place of the turn's array. */
    method AppendOneTo(e: Event) returns (r: Result<Event, StoreError>)
      modifies this
      ensures fresh(Streams() - old(Streams()))
      ensures var spec := AppendOne(old(Contents()), fingerprint, e);
              && (spec.Ok? ==> r == Ok(spec.value.event) && Contents() == spec.value.log)
              && (spec.Err? ==> r == Err(spec.error) && Contents() == old(Contents()))
    {
      var key := Key(e);
      if key in eventsByIdempotencyKey {
        var existing := eventsByIdempotencyKey[key];
        if existing.fingerprint != fingerprint(e) {
          return Err(IdempotencyConflict);
        }
        return Ok(existing.event);
      }
      var check := CheckAppendable(e);
      if check.Err? {
        return Err(check.error);
      }
      Store(Stored(e, fingerprint(e)));
      return Ok(e);
    }

    method Store(stored: Stored)
      modifies this
      ensures fresh(Streams() - old(Streams())) && Contents() == Insert(old(Contents()), stored)
    {
      var e := stored.event;
      var grown := Grown(e.turnId, stored);
      eventsByTurn := eventsByTurn[e.turnId := grown];
      eventsById := eventsById[e.eventId := stored];
      eventsByIdempotencyKey := eventsByIdempotencyKey[Key(e) := stored];
      assert Contents().byTurn == Insert(old(Contents()), stored).byTurn;
    }

    method CheckAppendable(e: Event) returns (r: Result<(), StoreError>)
      ensures r == AssertAppendable(Contents(), e)
    {
      var length := if e.turnId in eventsByTurn then eventsByTurn[e.turnId].Length else 0;
      if e.eventId in eventsById {
        return Err(EventIdConflict);
      }
      if length > 0 && IsTerminalEvent(eventsByTurn[e.turnId][length - 1].event) {
        return Err(TerminalStream);
      }
      var previous := if length > 0 then eventsByTurn[e.turnId][length - 1].event.sequence else 0;
      return if e.sequence != previous + 1 then Err(SequenceGap) else Ok(());
    }

    /** The turn's events and one more, in a new array. */
    method Grown(turnId: string, stored: Stored) returns (grown: array<Stored>)
      ensures fresh(grown) && grown[..] == Stream(Contents(), turnId) + [stored]
    {
      if turnId !in eventsByTurn {
        grown := new Stored[1](_ => stored);
      } else {
        var events := eventsByTurn[turnId];
        grown := new Stored[events.Length + 1](i requires 0 <= i reads events =>
          if i < events.Length then events[i] else stored);
      }
    }

    /** Appends the events one after the other, until one fails. */
    method AppendEach(events: seq<Event>) returns (r: Result<seq<Event>, StoreError>)
      modifies this
      ensures fresh(Streams() - old(Streams()))
      ensures var spec := AppendAll(old(Contents()), fingerprint, events);
              && (spec.Ok? ==> r == Ok(spec.value.events) && Contents() == spec.value.log)
              && (spec.Err? ==> r == Err(spec.error))
    {
      hide AppendOne, AppendAll, Resumed;
      var appended: seq<Event> := [];
      ghost var before := Contents();
      ResumedStart(before, fingerprint, events);
      for i := 0 to |events|
        invariant fresh(Streams() - old(Streams()))
        invariant Resumed(before, fingerprint, events, i, Contents(), appended)
      {
        ResumedStep(before, fingerprint, events, i, Contents(), appended);
        var one := AppendOneTo(events[i]);
        if one.Err? {
          return Err(one.error);
        }
        appended := appended + [one.value];
      }
      ResumedEnd(before, fingerprint, events, Contents(), appended);
      return Ok(appended);
    }

    /**
      All of the batch or none of it. The draft shares its arrays with the store, yet a failure anywhere
      leaves the store as it was, because no shared array is written.
    */
    method AppendBatchOf(events: seq<Event>) returns (r: Result<seq<Event>, StoreError>)
      requires Valid()
      modifies this
      ensures Valid() && fresh(Streams() - old(Streams()))
      ensures var spec := AppendBatch(old(Contents()), fingerprint, events);
              && (spec.Ok? ==> r == Ok(spec.value.events) && Contents() == spec.value.log)
              && (spec.Err? ==> r == Err(spec.error) && Contents() == old(Contents()))
      ensures r.Err? ==> eventsByTurn == old(eventsByTurn)
    {
      hide Sound, AppendOne, AppendAll, WellFormed, AppendBatch, AfterBatch;
      ghost var before := Contents();
      BatchCases(before, fingerprint, events);
      AfterBatchKeepsSound(before, fingerprint, events);
      if exists e :: e in events && !WellFormed(e) {
        return Err(MalformedEvent);
      }
      var draft := Clone();
      assert Contents() == before && draft.Contents() == before;
      r := draft.AppendEach(events);
      assert Contents() == before;
      if r.Ok? {
        Adopt(draft);
      }
      assert Contents() == AfterBatch(before, fingerprint, events);
    }

    /** The maps of the draft become those of the store. */
    method Adopt(draft: MemoryLifecycleEventStore)
      requires draft != this
      modifies this
      ensures Contents() == old(draft.Contents()) && Streams() == old(draft.Streams())
    {
      eventsByTurn := draft.eventsByTurn;
      eventsById := draft.eventsById;
      eventsByIdempotencyKey := draft.eventsByIdempotencyKey;
    }

    method Append(e: Event) returns (r: Result<Event, StoreError>)
      requires Valid()
      modifies this
      ensures Valid() && fresh(Streams() - old(Streams()))
      ensures !WellFormed(e) ==> r == Err(MalformedEvent) && Contents() == old(Contents())
      ensures WellFormed(e) ==>
                var spec := AppendOne(old(Contents()), fingerprint, e);
                && (spec.Ok? ==> r == Ok(spec.value.event) && Contents() == spec.value.log)
                && (spec.Err? ==> r == Err(spec.error) && Contents() == old(Contents()))
      ensures WellFormed(e) ==> AnswersAppend(old(Contents()), fingerprint, e, r, Contents())
    {
      hide AnswersAppend;
      if WellFormed(e) { AppendAnswers(Contents(), fingerprint, e); }
      BatchOfOne(Contents(), fingerprint, e);
      var batch := AppendBatchOf([e]);
      if batch.Err? {
        return Err(batch.error);
      }
      return Ok(batch.value[0]);
    }

    /** A page of a turn's stream; the loop is the continuity check, which a valid store always passes. */
    method ReplayTurn(turnId: string, after: Option<int>, limit: int) returns (r: Result<Page, StoreError>)
      requires Valid()
      ensures r == ReplayPage(Contents(), turnId, after, limit)
      ensures r == Err(InvalidReplayLimit) <==> !(1 <= limit <= 1000)
      ensures r.Ok? <==> 1 <= limit <= 1000 && (after.None? || 0 <= after.value <= 0x1F_FFFF_FFFF_FFFF)
    {
      ReplayIsDecided(Contents(), fingerprint, turnId, after, limit);
      var check := ValidateReplay(after, limit);
      if check.Err? {
        return Err(check.error);
      }
      PageIsSlice(Contents(), fingerprint, turnId, after, limit);
      var start := Start(after);
      var stream := if turnId in eventsByTurn then eventsByTurn[turnId][..] else [];
      var events := EventsOf(Take(FilterAfter(stream, start), limit));
      for i := 0 to |events|
        invariant forall k :: 0 <= k < i ==> events[k].sequence == start + k + 1
      {
        if events[i].sequence != start + i + 1 {
          return Err(CorruptEventStream);
        }
      }
      return Ok(PageOf(events));
    }
  }

  lemma BatchCases(log: Log, fp: Fingerprint, events: seq<Event>)
    ensures (exists e :: e in events && !WellFormed(e)) ==> AppendBatch(log, fp, events) == Err(MalformedEvent)
    ensures !(exists e :: e in events && !WellFormed(e)) ==> AppendBatch(log, fp, events) == AppendAll(log, fp, events)
    ensures AfterBatch(log, fp, events)
            == if AppendBatch(log, fp, events).Ok? then AppendBatch(log, fp, events).value.log else log
  {
    hide WellFormed, AppendAll;
  }

  /** The loop of a batch has appended `events[..i]`, giving `log` and `done`; the rest decides the verdict. */
  ghost predicate Resumed(before: Log, fp: Fingerprint, events: seq<Event>, i: nat, log: Log, done: seq<Event>)
    requires i <= |events|
  {
    var rest := AppendAll(log, fp, events[i..]);
    AppendAll(before, fp, events) ==
    if rest.Ok? then Ok(AppendedAll(rest.value.log, done + rest.value.events)) else rest
  }

  lemma ResumedStart(before: Log, fp: Fingerprint, events: seq<Event>)
    ensures Resumed(before, fp, events, 0, before, [])
  {
    assert events[0..] == events;
    var rest := AppendAll(before, fp, events);
    if rest.Ok? { assert [] + rest.value.events == rest.value.events; }
  }

  lemma ResumedStep(before: Log, fp: Fingerprint, events: seq<Event>, i: nat, log: Log, done: seq<Event>)
    requires i < |events| && Resumed(before, fp, events, i, log, done)
    ensures var one := AppendOne(log, fp, events[i]);
            if one.Ok? then Resumed(before, fp, events, i + 1, one.value.log, done + [one.value.event])
            else AppendAll(before, fp, events) == Err(one.error)
  {
    assert events[i..][0] == events[i] && events[i..][1..] == events[i + 1..];
    var one := AppendOne(log, fp, events[i]);
    if one.Ok? {
      var rest := AppendAll(one.value.log, fp, events[i + 1..]);
      if rest.Ok? {
        assert done + ([one.value.event] + rest.value.events) == (done + [one.value.event]) + rest.value.events;
      }
    }
  }

  lemma ResumedEnd(before: Log, fp: Fingerprint, events: seq<Event>, log: Log, done: seq<Event>)
    requires Resumed(before, fp, events, |events|, log, done)
    ensures AppendAll(before, fp, events) == Ok(AppendedAll(log, done))
  {
    assert events[|events|..] == [];
    assert done + [] == done;
  }
}

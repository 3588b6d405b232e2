/** The in-memory platform event store: state updated in place by `append`, swapped whole by a batch. */
module EventStore {
  import opened Wrappers
  import opened Paging
  import opened EventLog
  import opened EventPaging

  class MemoryState {
    var events: seq<Stored>
    var byCursor: map<string, Stored>
    var byEventId: map<string, Stored>
    var byIdempotencyKey: map<string, Stored>
    var sequenceByScope: map<string, nat>

    function Value(): State
      reads this
    {
      State(events, byCursor, byEventId, byIdempotencyKey, sequenceByScope)
    }

    constructor ()
      ensures Value() == EMPTY
    {
      events, byCursor, byEventId, byIdempotencyKey, sequenceByScope := [], map[], map[], map[], map[];
    }

    method Clone() returns (draft: MemoryState)
      ensures fresh(draft) && draft.Value() == Value()
    {
      draft := new MemoryState();
      draft.events := events;
      draft.byCursor := byCursor;
      draft.byEventId := byEventId;
      draft.byIdempotencyKey := byIdempotencyKey;
      draft.sequenceByScope := sequenceByScope;
    }

    method Store(stored: Stored)
      modifies this
      ensures Value() == StoreEvent(old(Value()), stored)
    {
      var e := stored.event;
      events := events + [stored];
      byEventId := byEventId[e.eventId := stored];
      byCursor := byCursor[e.cursor := stored];
      byIdempotencyKey := byIdempotencyKey[IdempotencyKey(e.input) := stored];
      sequenceByScope := sequenceByScope[ScopeKey(e.input) := e.sequence];
    }
  }

  class MemoryEventStore {
    const fingerprint: Fingerprint
    const generator: nat -> Ticket
    var issued: nat
    var state: MemoryState

    ghost predicate Valid()
      reads this, state
    {
      Agreed(state.Value(), fingerprint)
    }

    constructor (fingerprint: Fingerprint, generator: nat -> Ticket)
      ensures Valid() && fresh(state) && state.Value() == EMPTY && issued == 0
      ensures this.fingerprint == fingerprint && this.generator == generator
    {
      this.fingerprint := fingerprint;
      this.generator := generator;
      issued := 0;
      state := new MemoryState();
      new;
      EveryRunAgrees(fingerprint, generator, []);
    }

    /** Appends to one state object in place; every check precedes every write, so a failure writes nothing. */
    method AppendToState(target: MemoryState, input: Input) returns (r: Result<PlatformEvent, EventStoreError>)
      modifies target, this`issued
      ensures var spec := AppendTo(old(target.Value()), fingerprint, input, generator(old(issued)));
              && target.Value() == After(old(target.Value()), fingerprint, input, generator(old(issued)))
              && r == (if spec.Ok? then Ok(spec.value.event) else Err(spec.error))
      ensures issued == old(issued) + (if DrawsTicket(old(target.Value()), input) then 1 else 0)
    {
      var key := IdempotencyKey(input);
      if key in target.byIdempotencyKey {
        var existing := target.byIdempotencyKey[key];
        if existing.fingerprint != fingerprint(input) {
          return Err(IdempotencyConflict);
        }
        return Ok(existing.event);
      }
      var ticket := generator(issued);
      issued := issued + 1;
      if !WellFormed(input) {
        return Err(MalformedInput);
      }
      var event := CreateEvent(target.Value(), input, ticket);
      if event.eventId in target.byEventId {
        return Err(EventIdConflict);
      }
      if event.cursor in target.byCursor {
        return Err(CursorConflict);
      }
      target.Store(Stored(event, fingerprint(input)));
      return Ok(event);
    }

    method Append(input: Input) returns (r: Result<PlatformEvent, EventStoreError>)
      requires Valid()
      modifies this`issued, state
      ensures Valid()
      ensures Machine(state.Value(), issued)
              == Step(Machine(old(state.Value()), old(issued)), fingerprint, generator, Single(input))
      ensures Answers(old(state.Value()), fingerprint, input, generator(old(issued)), r)
      ensures r.Ok? ==> Stored(r.value, fingerprint(input)) in state.events
      ensures r.Err? ==> state.Value() == old(state.Value())
      ensures issued == old(issued) + (if IdempotencyKey(input) in old(state.byIdempotencyKey) then 0 else 1)
    {
      AppendAnswers(state.Value(), fingerprint, input, generator(issued));
      hide Answers;
      AppendKeepsAgreed(state.Value(), fingerprint, input, generator(issued));
      AppendedIsStored(state.Value(), fingerprint, input, generator(issued));
      r := AppendToState(state, input);
    }

    /** Appends the inputs to a draft one after the other, until one fails. */
    method AppendEach(draft: MemoryState, inputs: seq<Input>) returns (r: Result<seq<PlatformEvent>, EventStoreError>)
      modifies draft, this`issued
      ensures Outcome(r, draft.Value(), issued)
              == BatchOn(old(draft.Value()), fingerprint, generator, old(issued), inputs)
    {
      ghost var before, first := draft.Value(), issued;
      var events: seq<PlatformEvent> := [];
      ResumedStart(before, fingerprint, generator, first, inputs);
      for i := 0 to |inputs|
        invariant Resumed(before, fingerprint, generator, first, inputs, i, draft.Value(), issued, events)
      {
        ResumedStep(before, fingerprint, generator, first, inputs, i, draft.Value(), issued, events);
        var one := AppendToState(draft, inputs[i]);
        if one.Err? {
          return Err(one.error);
        }
        events := events + [one.value];
      }
      ResumedEnd(before, fingerprint, generator, first, inputs, draft.Value(), issued, events);
      return Ok(events);
    }

    /** All inputs or none: the draft replaces the state only after its last input went in. */
    method AppendBatchOf(inputs: seq<Input>) returns (r: Result<seq<PlatformEvent>, EventStoreError>)
      requires Valid()
      modifies this
      ensures Valid() && (state == old(state) || fresh(state))
      ensures Machine(state.Value(), issued)
              == Step(Machine(old(state.Value()), old(issued)), fingerprint, generator, Batch(inputs))
      ensures r == BatchOn(old(state.Value()), fingerprint, generator, old(issued), inputs).result
      ensures r.Ok? ==>
                && AnswersAll(state.Value(), fingerprint, inputs, r.value)
                && issued == old(issued) + |state.events| - |old(state.events)|
      ensures r.Err? ==> state.Value() == old(state.Value())
    {
      hide AnswersAll, Agreed, BatchOn;
      if BatchOn(state.Value(), fingerprint, generator, issued, inputs).result.Ok? {
        BatchAnswers(state.Value(), fingerprint, generator, issued, inputs);
      }
      BatchKeepsAgreed(state.Value(), fingerprint, generator, issued, inputs);
      var draft := state.Clone();
      r := AppendEach(draft, inputs);
      if r.Ok? {
        state := draft;
      }
    }

    method ReplayScope(scopeType: string, scopeId: string, after: Option<string>, limit: int)
      returns (r: Result<Page, EventStoreError>)
      requires Valid()
      ensures r == ReplayPage(state.Value(), scopeType + ":" + scopeId, after, limit)
      ensures r == Err(InvalidReplayLimit) <==> !(1 <= limit <= 1000)
      ensures r == Err(CursorNotFound)
              <==> 1 <= limit <= 1000 && !HasPlace(state.Value(), scopeType + ":" + scopeId, after)
      ensures r.Ok? <==> 1 <= limit <= 1000 && HasPlace(state.Value(), scopeType + ":" + scopeId, after)
      ensures r.Ok? ==> ReadsOn(state.Value(), scopeType + ":" + scopeId, after, limit, r.value)
    {
      hide HasPlace, ReadsOn, Agreed;
      PageMeaning(state.Value(), fingerprint, scopeType + ":" + scopeId, after, limit);
      if limit < 1 || limit > MAX_REPLAY_LIMIT {
        return Err(InvalidReplayLimit);
      }
      var scoped := Scoped(state.events, scopeType + ":" + scopeId);
      var start := FindReplayStart(scoped, after);
      if start.Err? {
        return Err(start.error);
      }
      return Ok(PageOf(EventsOf(Slice(scoped, start.value, start.value + limit))));
    }
  }

  /** The event an append returns is in the log, with the fingerprint of the input. */
  lemma AppendedIsStored(s: State, fp: Fingerprint, input: Input, ticket: Ticket)
    requires Agreed(s, fp)
    ensures var r := AppendTo(s, fp, input, ticket);
            r.Ok? ==> Stored(r.value.event, fp(input)) in r.value.state.events
  {
    var r := AppendTo(s, fp, input, ticket);
    if r.Ok? && IdempotencyKey(input) in s.byKey {
      var existing := s.byKey[IdempotencyKey(input)];
      assert existing in s.events;
      assert existing == Stored(existing.event, fp(input));
    }
  }

  /** The loop of a batch has appended `inputs[..i]`; what is left decides the outcome. */
  ghost predicate Resumed(
    before: State, fp: Fingerprint, gen: nat -> Ticket, first: nat, inputs: seq<Input>,
    i: nat, draft: State, issued: nat, events: seq<PlatformEvent>)
    requires i <= |inputs|
  {
    var rest := BatchOn(draft, fp, gen, issued, inputs[i..]);
    BatchOn(before, fp, gen, first, inputs)
    == (if rest.result.Ok? then rest.(result := Ok(events + rest.result.value)) else rest)
  }

  lemma ResumedStart(before: State, fp: Fingerprint, gen: nat -> Ticket, first: nat, inputs: seq<Input>)
    ensures Resumed(before, fp, gen, first, inputs, 0, before, first, [])
  {
    assert inputs[0..] == inputs;
    var rest := BatchOn(before, fp, gen, first, inputs);
    if rest.result.Ok? { assert [] + rest.result.value == rest.result.value; }
  }

  lemma ResumedStep(
    before: State, fp: Fingerprint, gen: nat -> Ticket, first: nat, inputs: seq<Input>,
    i: nat, draft: State, issued: nat, events: seq<PlatformEvent>)
    requires i < |inputs| && Resumed(before, fp, gen, first, inputs, i, draft, issued, events)
    ensures var one := AppendTo(draft, fp, inputs[i], gen(issued));
            var m := issued + (if DrawsTicket(draft, inputs[i]) then 1 else 0);
            if one.Ok? then
              Resumed(before, fp, gen, first, inputs, i + 1, one.value.state, m, events + [one.value.event])
            else BatchOn(before, fp, gen, first, inputs) == Outcome(Err(one.error), draft, m)
  {
    assert inputs[i..][0] == inputs[i] && inputs[i..][1..] == inputs[i + 1..];
    var one := AppendTo(draft, fp, inputs[i], gen(issued));
    var m := issued + (if DrawsTicket(draft, inputs[i]) then 1 else 0);
    if one.Ok? {
      var rest := BatchOn(one.value.state, fp, gen, m, inputs[i + 1..]);
      if rest.result.Ok? {
        assert events + ([one.value.event] + rest.result.value) == (events + [one.value.event]) + rest.result.value;
      }
    }
  }

  lemma ResumedEnd(
    before: State, fp: Fingerprint, gen: nat -> Ticket, first: nat, inputs: seq<Input>,
    draft: State, issued: nat, events: seq<PlatformEvent>)
    requires Resumed(before, fp, gen, first, inputs, |inputs|, draft, issued, events)
    ensures BatchOn(before, fp, gen, first, inputs) == Outcome(Ok(events), draft, issued)
  {
    assert inputs[|inputs|..] == [];
    assert events + [] == events;
  }
}

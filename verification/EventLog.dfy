/** The platform event log as a value: one list of events and four indexes derived from it. */
module EventLog {
  import opened Wrappers
  import JsonText

  /** What a producer supplies; `content` stands for the fields the store never reads. */
  datatype Input = Input(scopeType: string, scopeId: string, idempotencyKey: string, content: string)

  /** What the store draws from its id generator and its clock for one new event. */
  datatype Ticket = Ticket(eventId: string, cursor: string, createdAt: string)

  datatype PlatformEvent = PlatformEvent(
    input: Input, eventId: string, cursor: string, sequence: nat, createdAt: string)

  datatype Stored = Stored(event: PlatformEvent, fingerprint: JsonText.Text)

  datatype EventStoreError =
    | MalformedInput
    | IdempotencyConflict
    | EventIdConflict
    | CursorConflict
    | InvalidReplayLimit
    | CursorNotFound

  datatype State = State(
    events: seq<Stored>,
    byCursor: map<string, Stored>,
    byEventId: map<string, Stored>,
    byKey: map<string, Stored>,
    sequenceByScope: map<string, nat>)

  datatype Added = Added(state: State, event: PlatformEvent)

  type Fingerprint = Input -> JsonText.Text

  const EMPTY := State([], map[], map[], map[], map[])

  /** What the event schema guarantees about a scope: neither part holds the separator. */
  predicate WellFormed(input: Input) {
    ':' !in input.scopeType && ':' !in input.scopeId
  }

  function ScopeKey(input: Input): string {
    input.scopeType + ":" + input.scopeId
  }

  function IdempotencyKey(input: Input): string {
    ScopeKey(input) + ":" + input.idempotencyKey
  }

  function SequenceOf(state: State, scope: string): nat {
    if scope in state.sequenceByScope then state.sequenceByScope[scope] else 0
  }

  function CreateEvent(state: State, input: Input, ticket: Ticket): PlatformEvent {
    PlatformEvent(input, ticket.eventId, ticket.cursor, SequenceOf(state, ScopeKey(input)) + 1, ticket.createdAt)
  }

  function StoreEvent(state: State, stored: Stored): State {
    var e := stored.event;
    State(state.events + [stored],
          state.byCursor[e.cursor := stored],
          state.byEventId[e.eventId := stored],
          state.byKey[IdempotencyKey(e.input) := stored],
          state.sequenceByScope[ScopeKey(e.input) := e.sequence])
  }

  function AppendTo(state: State, fp: Fingerprint, input: Input, ticket: Ticket): Result<Added, EventStoreError> {
    if IdempotencyKey(input) in state.byKey then
      var existing := state.byKey[IdempotencyKey(input)];
      if existing.fingerprint != fp(input) then Err(IdempotencyConflict) else Ok(Added(state, existing.event))
    else if !WellFormed(input) then Err(MalformedInput)
    else if ticket.eventId in state.byEventId then Err(EventIdConflict)
    else if ticket.cursor in state.byCursor then Err(CursorConflict)
    else
      var event := CreateEvent(state, input, ticket);
      Ok(Added(StoreEvent(state, Stored(event, fp(input))), event))
  }

  /** A retry is answered before the generator is asked; every other append uses up one ticket. */
  predicate DrawsTicket(state: State, input: Input) {
    IdempotencyKey(input) !in state.byKey
  }

  function After(state: State, fp: Fingerprint, input: Input, ticket: Ticket): State {
    var r := AppendTo(state, fp, input, ticket);
    if r.Ok? then r.value.state else state
  }

  // ----- the invariant -----

  /** The events of one scope, in the order they were stored. */
  function Scoped(events: seq<Stored>, scope: string): seq<Stored> {
    if events == [] then []
    else
      var front, last := events[..|events| - 1], events[|events| - 1];
      if ScopeKey(last.event.input) == scope then Scoped(front, scope) + [last] else Scoped(front, scope)
  }

  /** An event is what the three maps hold under its id, its cursor and its key. */
  predicate IndexedEvent(s: State, e: Stored) {
    && Get(s.byEventId, e.event.eventId) == Some(e)
    && Get(s.byCursor, e.event.cursor) == Some(e)
    && Get(s.byKey, IdempotencyKey(e.event.input)) == Some(e)
  }

  ghost predicate Indexed(s: State) {
    forall e :: e in s.events ==> IndexedEvent(s, e)
  }

  /** The three maps hold stored events only, each under its own id, cursor and key. */
  ghost predicate Backed(s: State) {
    && (forall k :: k in s.byEventId ==> s.byEventId[k] in s.events && s.byEventId[k].event.eventId == k)
    && (forall k :: k in s.byCursor ==> s.byCursor[k] in s.events && s.byCursor[k].event.cursor == k)
    && (forall k :: k in s.byKey ==> s.byKey[k] in s.events && IdempotencyKey(s.byKey[k].event.input) == k)
  }

  /** No event is stored twice. */
  ghost predicate Distinct(events: seq<Stored>) {
    forall i, j :: 0 <= i < j < |events| ==> events[i] != events[j]
  }

  /** The nth event of a scope has sequence n, and the counter of the scope is the number of its events. */
  ghost predicate CountedScope(s: State, scope: string) {
    && SequenceOf(s, scope) == |Scoped(s.events, scope)|
    && (scope in s.sequenceByScope <==> Scoped(s.events, scope) != [])
    && (forall n :: 0 <= n < |Scoped(s.events, scope)| ==> Scoped(s.events, scope)[n].event.sequence == n + 1)
  }

  ghost predicate Counted(s: State) {
    forall scope :: CountedScope(s, scope)
  }

  ghost predicate Faithful(s: State, fp: Fingerprint) {
    forall e :: e in s.events ==> WellFormed(e.event.input) && e.fingerprint == fp(e.event.input)
  }

  ghost predicate Agreed(s: State, fp: Fingerprint) {
    Indexed(s) && Backed(s) && Distinct(s.events) && Counted(s) && Faithful(s, fp)
  }

  lemma ScopedAppend(events: seq<Stored>, e: Stored, scope: string)
    ensures Scoped(events + [e], scope) ==
            if ScopeKey(e.event.input) == scope then Scoped(events, scope) + [e] else Scoped(events, scope)
  {
    assert (events + [e])[..|events|] == events;
  }

  lemma StoreKeepsCounted(s: State, e: Stored)
    requires Counted(s) && e.event.sequence == SequenceOf(s, ScopeKey(e.event.input)) + 1
    ensures Counted(StoreEvent(s, e))
  {
    forall scope ensures CountedScope(StoreEvent(s, e), scope) {
      assert CountedScope(s, scope);
      ScopedAppend(s.events, e, scope);
    }
  }

  lemma StoreKeepsIndexed(s: State, e: Stored)
    requires Indexed(s)
    requires e.event.eventId !in s.byEventId && e.event.cursor !in s.byCursor
    requires IdempotencyKey(e.event.input) !in s.byKey
    ensures Indexed(StoreEvent(s, e)) && e !in s.events
  {
    assert e in s.events ==> IndexedEvent(s, e);
    var n := StoreEvent(s, e);
    forall x | x in n.events ensures IndexedEvent(n, x) {
      if x in s.events { assert IndexedEvent(s, x); }
    }
  }

  lemma StoreKeepsBacked(s: State, e: Stored)
    requires Backed(s)
    ensures Backed(StoreEvent(s, e))
  {
    var n := StoreEvent(s, e);
    assert e in n.events;
    assert forall x :: x in s.events ==> x in n.events;
  }

  lemma StoreKeepsDistinct(events: seq<Stored>, e: Stored)
    requires Distinct(events) && e !in events
    ensures Distinct(events + [e])
  {
  }

  lemma StoreKeepsAgreed(s: State, fp: Fingerprint, input: Input, ticket: Ticket)
    requires Agreed(s, fp) && WellFormed(input) && IdempotencyKey(input) !in s.byKey
    requires ticket.eventId !in s.byEventId && ticket.cursor !in s.byCursor
    ensures Agreed(StoreEvent(s, Stored(CreateEvent(s, input, ticket), fp(input))), fp)
  {
    var stored := Stored(CreateEvent(s, input, ticket), fp(input));
    StoreKeepsIndexed(s, stored);
    StoreKeepsBacked(s, stored);
    StoreKeepsDistinct(s.events, stored);
    StoreKeepsCounted(s, stored);
  }

  lemma AppendKeepsAgreed(s: State, fp: Fingerprint, input: Input, ticket: Ticket)
    requires Agreed(s, fp)
    ensures Agreed(After(s, fp, input, ticket), fp)
  {
    if AppendTo(s, fp, input, ticket).Ok? && IdempotencyKey(input) !in s.byKey {
      StoreKeepsAgreed(s, fp, input, ticket);
    }
  }

  /** A new event carries what was sent and drawn, and is the next of its scope by count. */
  lemma NewEventIsNext(s: State, fp: Fingerprint, input: Input, ticket: Ticket)
    requires Agreed(s, fp) && AppendTo(s, fp, input, ticket).Ok? && DrawsTicket(s, input)
    ensures AppendTo(s, fp, input, ticket).value.event
            == PlatformEvent(input, ticket.eventId, ticket.cursor,
                             |Scoped(s.events, ScopeKey(input))| + 1, ticket.createdAt)
  {
    hide Indexed, Backed, Distinct, Faithful;
    assert CountedScope(s, ScopeKey(input));
  }

  /**
    The answer to an append, said of the log that receives it. A known key is answered with the event it
    leads to, or is a conflict. A new one is refused for a malformed input, a taken id or a taken cursor,
    in this order, and is otherwise answered with the next event of its scope.
  */
  ghost predicate Answers(
    s: State, fp: Fingerprint, input: Input, ticket: Ticket, r: Result<PlatformEvent, EventStoreError>)
  {
    if exists e :: e in s.events && IdempotencyKey(e.event.input) == IdempotencyKey(input) then
      exists e :: e in s.events && IdempotencyKey(e.event.input) == IdempotencyKey(input)
                  && r == (if e.fingerprint == fp(input) then Ok(e.event) else Err(IdempotencyConflict))
    else if ':' in input.scopeType || ':' in input.scopeId then r == Err(MalformedInput)
    else if exists e :: e in s.events && e.event.eventId == ticket.eventId then r == Err(EventIdConflict)
    else if exists e :: e in s.events && e.event.cursor == ticket.cursor then r == Err(CursorConflict)
    else
      r == Ok(PlatformEvent(input, ticket.eventId, ticket.cursor,
                            |Scoped(s.events, ScopeKey(input))| + 1, ticket.createdAt))
  }

  function AnswerOf(s: State, fp: Fingerprint, input: Input, ticket: Ticket): Result<PlatformEvent, EventStoreError> {
    var r := AppendTo(s, fp, input, ticket);
    if r.Ok? then Ok(r.value.event) else Err(r.error)
  }

  /** The indexes are asked in place of the list, and give the answers that the list would. */
  lemma IndexesAnswerForTheList(s: State, fp: Fingerprint, input: Input, ticket: Ticket)
    requires Agreed(s, fp)
    ensures IdempotencyKey(input) in s.byKey
            <==> exists e :: e in s.events && IdempotencyKey(e.event.input) == IdempotencyKey(input)
    ensures ticket.eventId in s.byEventId <==> exists e :: e in s.events && e.event.eventId == ticket.eventId
    ensures ticket.cursor in s.byCursor <==> exists e :: e in s.events && e.event.cursor == ticket.cursor
    ensures IdempotencyKey(input) in s.byKey ==>
              s.byKey[IdempotencyKey(input)] in s.events
              && IdempotencyKey(s.byKey[IdempotencyKey(input)].event.input) == IdempotencyKey(input)
  {
    hide IdempotencyKey, Counted, Faithful, Distinct;
    assert forall e :: e in s.events ==> IndexedEvent(s, e);
  }

  /** Every append to an agreed log is answered so. */
  lemma AppendAnswers(s: State, fp: Fingerprint, input: Input, ticket: Ticket)
    requires Agreed(s, fp)
    ensures Answers(s, fp, input, ticket, AnswerOf(s, fp, input, ticket))
  {
    hide Agreed, Scoped, ScopeKey, IdempotencyKey;
    IndexesAnswerForTheList(s, fp, input, ticket);
    SequenceCounts(s, fp, ScopeKey(input));
  }

  lemma SequenceCounts(s: State, fp: Fingerprint, scope: string)
    requires Agreed(s, fp)
    ensures SequenceOf(s, scope) == |Scoped(s.events, scope)|
  {
    hide Indexed, Backed, Distinct, Faithful;
    assert CountedScope(s, scope);
  }

  /** Two different positions of an agreed log differ in event id, in cursor and in idempotency key. */
  lemma PositionsAreDistinct(s: State, fp: Fingerprint, i: nat, j: nat)
    requires Agreed(s, fp) && i < j < |s.events|
    ensures s.events[i].event.eventId != s.events[j].event.eventId
    ensures s.events[i].event.cursor != s.events[j].event.cursor
    ensures IdempotencyKey(s.events[i].event.input) != IdempotencyKey(s.events[j].event.input)
  {
    var a, b := s.events[i], s.events[j];
    assert IndexedEvent(s, a) && IndexedEvent(s, b) && a != b;
  }

  // ----- batches and runs -----

  datatype Outcome = Outcome(result: Result<seq<PlatformEvent>, EventStoreError>, state: State, issued: nat)

  /** Appending to a draft, drawing tickets from number `n` on, until an input fails. */
  function BatchOn(draft: State, fp: Fingerprint, gen: nat -> Ticket, n: nat, inputs: seq<Input>): Outcome
    decreases |inputs|
  {
    if inputs == [] then Outcome(Ok([]), draft, n)
    else
      var r := AppendTo(draft, fp, inputs[0], gen(n));
      var m := if DrawsTicket(draft, inputs[0]) then n + 1 else n;
      if r.Err? then Outcome(Err(r.error), draft, m)
      else
        var rest := BatchOn(r.value.state, fp, gen, m, inputs[1..]);
        if rest.result.Ok? then rest.(result := Ok([r.value.event] + rest.result.value)) else rest
  }

  datatype Call = Single(input: Input) | Batch(inputs: seq<Input>)

  datatype Machine = Machine(state: State, issued: nat)

  /** One call on the store. A failed batch drops its draft but not the tickets it has drawn. */
  function Step(m: Machine, fp: Fingerprint, gen: nat -> Ticket, call: Call): Machine {
    match call
    case Single(input) =>
      Machine(After(m.state, fp, input, gen(m.issued)), if DrawsTicket(m.state, input) then m.issued + 1 else m.issued)
    case Batch(inputs) =>
      var out := BatchOn(m.state, fp, gen, m.issued, inputs);
      Machine(if out.result.Ok? then out.state else m.state, out.issued)
  }

  function Run(m: Machine, fp: Fingerprint, gen: nat -> Ticket, calls: seq<Call>): Machine
    decreases |calls|
  {
    if calls == [] then m else Run(Step(m, fp, gen, calls[0]), fp, gen, calls[1..])
  }

  lemma BatchStep(s: State, fp: Fingerprint, gen: nat -> Ticket, n: nat, inputs: seq<Input>)
    requires inputs != []
    ensures var m := if DrawsTicket(s, inputs[0]) then n + 1 else n;
            BatchOn(s, fp, gen, n, inputs).state ==
            if AppendTo(s, fp, inputs[0], gen(n)).Err? then s
            else BatchOn(After(s, fp, inputs[0], gen(n)), fp, gen, m, inputs[1..]).state
  {
  }

  lemma {:induction false} BatchKeepsAgreed(s: State, fp: Fingerprint, gen: nat -> Ticket, n: nat, inputs: seq<Input>)
    requires Agreed(s, fp)
    ensures Agreed(BatchOn(s, fp, gen, n, inputs).state, fp)
    decreases |inputs|
  {
    if inputs != [] {
      var next, m := After(s, fp, inputs[0], gen(n)), if DrawsTicket(s, inputs[0]) then n + 1 else n;
      AppendKeepsAgreed(s, fp, inputs[0], gen(n));
      BatchKeepsAgreed(next, fp, gen, m, inputs[1..]);
      BatchStep(s, fp, gen, n, inputs);
    }
  }

  /** `e` answers `input`: it is stored with the fingerprint of the input, under the input's key. */
  ghost predicate AnswersInput(s: State, fp: Fingerprint, input: Input, e: PlatformEvent) {
    Stored(e, fp(input)) in s.events && IdempotencyKey(e.input) == IdempotencyKey(input)
  }

  lemma AppendAnswersInput(s: State, fp: Fingerprint, input: Input, ticket: Ticket)
    requires Agreed(s, fp) && AppendTo(s, fp, input, ticket).Ok?
    ensures var a := AppendTo(s, fp, input, ticket).value;
            && AnswersInput(a.state, fp, input, a.event) && s.events <= a.state.events
            && |a.state.events| == |s.events| + (if DrawsTicket(s, input) then 1 else 0)
  {
    hide IdempotencyKey, Counted, Distinct, Scoped;
    if IdempotencyKey(input) in s.byKey {
      var e := s.byKey[IdempotencyKey(input)];
      assert e in s.events && e == Stored(e.event, fp(input));
    }
  }

  /** The kth event that a batch returns answers its kth input. */
  ghost predicate AnswersAll(s: State, fp: Fingerprint, inputs: seq<Input>, events: seq<PlatformEvent>) {
    |events| == |inputs| && forall k :: 0 <= k < |inputs| ==> AnswersInput(s, fp, inputs[k], events[k])
  }

  lemma AnswersAllCons(
    s: State, n: State, fp: Fingerprint, inputs: seq<Input>, e: PlatformEvent, rest: seq<PlatformEvent>)
    requires inputs != [] && AnswersInput(s, fp, inputs[0], e) && s.events <= n.events
    requires AnswersAll(n, fp, inputs[1..], rest)
    ensures AnswersAll(n, fp, inputs, [e] + rest)
  {
    hide IdempotencyKey;
    forall k | 0 <= k < |inputs| ensures AnswersInput(n, fp, inputs[k], ([e] + rest)[k]) {
      if k > 0 { assert inputs[1..][k - 1] == inputs[k]; }
    }
  }

  /** A batch that goes in answers its inputs in their order, and draws a ticket for each event it adds. */
  lemma {:induction false} BatchAnswers(s: State, fp: Fingerprint, gen: nat -> Ticket, n: nat, inputs: seq<Input>)
    requires Agreed(s, fp) && BatchOn(s, fp, gen, n, inputs).result.Ok?
    ensures var out := BatchOn(s, fp, gen, n, inputs);
            && AnswersAll(out.state, fp, inputs, out.result.value) && s.events <= out.state.events
            && out.issued == n + |out.state.events| - |s.events|
    decreases |inputs|
  {
    hide Agreed, AppendTo, AnswersInput, AnswersAll, DrawsTicket;
    if inputs == [] {
      NothingAnswered(s, fp);
    } else {
      var a := AppendTo(s, fp, inputs[0], gen(n)).value;
      var m := if DrawsTicket(s, inputs[0]) then n + 1 else n;
      AppendKeepsAgreed(s, fp, inputs[0], gen(n));
      AppendAnswersInput(s, fp, inputs[0], gen(n));
      BatchAnswers(a.state, fp, gen, m, inputs[1..]);
      var rest := BatchOn(a.state, fp, gen, m, inputs[1..]);
      AnswersAllCons(a.state, rest.state, fp, inputs, a.event, rest.result.value);
    }
  }

  lemma NothingAnswered(s: State, fp: Fingerprint)
    ensures AnswersAll(s, fp, [], [])
  {
  }

  lemma {:induction false} RunKeepsAgreed(m: Machine, fp: Fingerprint, gen: nat -> Ticket, calls: seq<Call>)
    requires Agreed(m.state, fp)
    ensures Agreed(Run(m, fp, gen, calls).state, fp)
    decreases |calls|
  {
    if calls != [] {
      match calls[0] {
        case Single(input) => AppendKeepsAgreed(m.state, fp, input, gen(m.issued));
        case Batch(inputs) => BatchKeepsAgreed(m.state, fp, gen, m.issued, inputs);
      }
      RunKeepsAgreed(Step(m, fp, gen, calls[0]), fp, gen, calls[1..]);
    }
  }

  /**
    After every run of appends and batches, with any generator and with every failure included, the
    list and its four indexes agree.
  */
  lemma EveryRunAgrees(fp: Fingerprint, gen: nat -> Ticket, calls: seq<Call>)
    ensures Agreed(Run(Machine(EMPTY, 0), fp, gen, calls).state, fp)
  {
    assert forall scope :: Scoped([], scope) == [];
    RunKeepsAgreed(Machine(EMPTY, 0), fp, gen, calls);
  }
}

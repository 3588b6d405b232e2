/** Scopes of the platform event log do not influence one another: what one append sees and changes. */
module EventIsolation {
  import opened Wrappers
  import JsonText
  import opened Separators
  import opened EventLog
  import opened EventPaging

  /** What remains of a stored event without the parts the store assigns from its generator and clock. */
  datatype Line = Line(input: Input, sequence: nat, fingerprint: JsonText.Text)

  function LineOf(s: Stored): Line {
    Line(s.event.input, s.event.sequence, s.fingerprint)
  }

  function Lines(state: State, scope: string): seq<Line> {
    var scoped := Scoped(state.events, scope);
    seq(|scoped|, i requires 0 <= i < |scoped| => LineOf(scoped[i]))
  }

  /** Well-formed inputs share an idempotency key only within one scope and for one producer key. */
  lemma KeyIdentifies(a: Input, b: Input)
    requires WellFormed(a) && WellFormed(b)
    ensures IdempotencyKey(a) == IdempotencyKey(b)
            <==> ScopeKey(a) == ScopeKey(b) && a.idempotencyKey == b.idempotencyKey
  {
    if IdempotencyKey(a) == IdempotencyKey(b) {
      var x, y := a.scopeId + ":" + a.idempotencyKey, b.scopeId + ":" + b.idempotencyKey;
      assert IdempotencyKey(a) == a.scopeType + ":" + x;
      assert IdempotencyKey(b) == b.scopeType + ":" + y;
      SplitAtColon(a.scopeType, b.scopeType, x, y);
      SplitAtColon(a.scopeId, b.scopeId, a.idempotencyKey, b.idempotencyKey);
    }
  }

  /** A known key leads to an event of the input's own scope, with the producer's key. */
  lemma KnownKeyIsLocal(s: State, fp: Fingerprint, input: Input)
    requires Agreed(s, fp) && WellFormed(input) && IdempotencyKey(input) in s.byKey
    ensures s.byKey[IdempotencyKey(input)] in Scoped(s.events, ScopeKey(input))
    ensures s.byKey[IdempotencyKey(input)].event.input.idempotencyKey == input.idempotencyKey
  {
    var e := s.byKey[IdempotencyKey(input)];
    assert e in s.events;
    KeyIdentifies(e.event.input, input);
    ScopedMembers(s.events, ScopeKey(input));
  }

  /** An event of the scope with the producer's key is what the key leads to. */
  lemma LocalKeyIsKnown(s: State, fp: Fingerprint, input: Input, e: Stored)
    requires Agreed(s, fp) && WellFormed(input) && e in Scoped(s.events, ScopeKey(input))
    requires e.event.input.idempotencyKey == input.idempotencyKey
    ensures Get(s.byKey, IdempotencyKey(input)) == Some(e)
  {
    ScopedMembers(s.events, ScopeKey(input));
    assert IndexedEvent(s, e);
    KeyIdentifies(e.event.input, input);
  }

  /** A known key, read off the lines of its scope. */
  lemma KnownKeyHasLine(s: State, fp: Fingerprint, input: Input) returns (i: nat)
    requires Agreed(s, fp) && WellFormed(input) && IdempotencyKey(input) in s.byKey
    ensures i < |Lines(s, ScopeKey(input))|
    ensures Lines(s, ScopeKey(input))[i] == LineOf(s.byKey[IdempotencyKey(input)])
    ensures Lines(s, ScopeKey(input))[i].input.idempotencyKey == input.idempotencyKey
  {
    var scoped := Scoped(s.events, ScopeKey(input));
    KnownKeyIsLocal(s, fp, input);
    i :| 0 <= i < |scoped| && scoped[i] == s.byKey[IdempotencyKey(input)];
  }

  /** A line with the producer's key makes the key known, and the line is what the key leads to. */
  lemma LineMakesKeyKnown(s: State, fp: Fingerprint, input: Input, i: nat)
    requires Agreed(s, fp) && WellFormed(input) && i < |Lines(s, ScopeKey(input))|
    requires Lines(s, ScopeKey(input))[i].input.idempotencyKey == input.idempotencyKey
    ensures IdempotencyKey(input) in s.byKey
    ensures LineOf(s.byKey[IdempotencyKey(input)]) == Lines(s, ScopeKey(input))[i]
  {
    var scoped := Scoped(s.events, ScopeKey(input));
    assert Lines(s, ScopeKey(input))[i] == LineOf(scoped[i]);
    LocalKeyIsKnown(s, fp, input, scoped[i]);
  }

  lemma SameLookup(s: State, t: State, fp: Fingerprint, input: Input)
    requires Agreed(s, fp) && Agreed(t, fp) && WellFormed(input)
    requires Lines(s, ScopeKey(input)) == Lines(t, ScopeKey(input))
    requires IdempotencyKey(input) in s.byKey
    ensures IdempotencyKey(input) in t.byKey
    ensures LineOf(s.byKey[IdempotencyKey(input)]) == LineOf(t.byKey[IdempotencyKey(input)])
  {
    hide *;
    var i := KnownKeyHasLine(s, fp, input);
    LineMakesKeyKnown(t, fp, input, i);
  }

  /** The answer of the store without what it assigns. */
  function Verdict(r: Result<Added, EventStoreError>): Result<(Input, nat), EventStoreError> {
    match r
    case Ok(a) => Ok((a.event.input, a.event.sequence))
    case Err(e) => Err(e)
  }

  ghost predicate Unused(s: State, ticket: Ticket) {
    ticket.eventId !in s.byEventId && ticket.cursor !in s.byCursor
  }

  lemma LinesAfterStore(s: State, e: Stored, scope: string)
    ensures Lines(StoreEvent(s, e), scope) ==
            if ScopeKey(e.event.input) == scope then Lines(s, scope) + [LineOf(e)] else Lines(s, scope)
  {
    ScopedAppend(s.events, e, scope);
  }

  lemma SameSequence(s: State, t: State, scope: string)
    requires Counted(s) && Counted(t) && Lines(s, scope) == Lines(t, scope)
    ensures SequenceOf(s, scope) == SequenceOf(t, scope)
  {
    assert CountedScope(s, scope) && CountedScope(t, scope);
    assert |Lines(s, scope)| == |Lines(t, scope)|;
  }

  lemma AgreedCounts(s: State, fp: Fingerprint)
    requires Agreed(s, fp)
    ensures Counted(s)
  {
  }

  lemma FreshAppend(s: State, fp: Fingerprint, input: Input, ticket: Ticket)
    requires WellFormed(input) && Unused(s, ticket) && IdempotencyKey(input) !in s.byKey
    ensures var line := Line(input, SequenceOf(s, ScopeKey(input)) + 1, fp(input));
            && Verdict(AppendTo(s, fp, input, ticket)) == Ok((input, line.sequence))
            && Lines(After(s, fp, input, ticket), ScopeKey(input)) == Lines(s, ScopeKey(input)) + [line]
  {
    LinesAfterStore(s, Stored(CreateEvent(s, input, ticket), fp(input)), ScopeKey(input));
  }

  lemma RetriedAppend(s: State, fp: Fingerprint, input: Input, ticket: Ticket)
    requires IdempotencyKey(input) in s.byKey
    ensures var line := LineOf(s.byKey[IdempotencyKey(input)]);
            && Verdict(AppendTo(s, fp, input, ticket))
               == (if line.fingerprint == fp(input) then Ok((line.input, line.sequence)) else Err(IdempotencyConflict))
            && After(s, fp, input, ticket) == s
  {
  }

  /** Two logs that look alike in a scope answer an input of that scope alike and stay alike. */
  lemma ScopeDecidesAppend(s: State, t: State, fp: Fingerprint, input: Input, x: Ticket, y: Ticket)
    requires Agreed(s, fp) && Agreed(t, fp) && WellFormed(input) && Unused(s, x) && Unused(t, y)
    requires Lines(s, ScopeKey(input)) == Lines(t, ScopeKey(input))
    ensures Verdict(AppendTo(s, fp, input, x)) == Verdict(AppendTo(t, fp, input, y))
    ensures Lines(After(s, fp, input, x), ScopeKey(input)) == Lines(After(t, fp, input, y), ScopeKey(input))
  {
    hide *;
    if IdempotencyKey(input) in s.byKey {
      SameLookup(s, t, fp, input);
      RetriedAppend(s, fp, input, x);
      RetriedAppend(t, fp, input, y);
    } else {
      if IdempotencyKey(input) in t.byKey { SameLookup(t, s, fp, input); }
      AgreedCounts(s, fp);
      AgreedCounts(t, fp);
      SameSequence(s, t, ScopeKey(input));
      FreshAppend(s, fp, input, x);
      FreshAppend(t, fp, input, y);
    }
  }

  /** An append to another scope leaves this one as it was. */
  lemma OtherScopeUntouched(s: State, fp: Fingerprint, input: Input, ticket: Ticket, scope: string)
    requires ScopeKey(input) != scope
    ensures Lines(After(s, fp, input, ticket), scope) == Lines(s, scope)
  {
    var r := AppendTo(s, fp, input, ticket);
    if r.Ok? && IdempotencyKey(input) !in s.byKey {
      LinesAfterStore(s, Stored(CreateEvent(s, input, ticket), fp(input)), scope);
    }
  }

  // ----- what runs need -----

  /** No ticket from number `issued` on repeats another or anything the log holds. */
  ghost predicate FreshTickets(m: Machine, gen: nat -> Ticket) {
    && (forall i :: i >= m.issued ==> Unused(m.state, gen(i)))
    && (forall i, j :: m.issued <= i < j ==> gen(i).eventId != gen(j).eventId && gen(i).cursor != gen(j).cursor)
  }

  lemma StepKeepsFresh(m: Machine, fp: Fingerprint, gen: nat -> Ticket, input: Input)
    requires FreshTickets(m, gen)
    ensures FreshTickets(Step(m, fp, gen, Single(input)), gen)
  {
    var next := Step(m, fp, gen, Single(input));
    forall i | i >= next.issued ensures Unused(next.state, gen(i)) {
      assert Unused(m.state, gen(i));
    }
  }

  /** The inputs of one scope, in order. */
  function Lane(inputs: seq<Input>, scope: string): seq<Input> {
    if inputs == [] then []
    else if ScopeKey(inputs[0]) == scope then [inputs[0]] + Lane(inputs[1..], scope)
    else Lane(inputs[1..], scope)
  }
}

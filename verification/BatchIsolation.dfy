/**
  Batches and scopes. A batch is atomic across scopes, so a clash in one scope can undo what the batch
  would have added to another. This module says exactly when that happens, and that otherwise the
  stream of a scope depends on nothing but the calls to that scope.
*/
module BatchIsolation {
  import opened Wrappers
  import opened EventLog
  import opened EventPaging
  import opened EventIsolation

  /** A store in agreement whose generator has only unused tickets left. */
  ghost predicate Ready(m: Machine, fp: Fingerprint, gen: nat -> Ticket) {
    Agreed(m.state, fp) && FreshTickets(m, gen)
  }

  ghost predicate AllWellFormed(inputs: seq<Input>) {
    forall x :: x in inputs ==> WellFormed(x)
  }

  function OnBatch(m: Machine, fp: Fingerprint, gen: nat -> Ticket, inputs: seq<Input>): Outcome {
    BatchOn(m.state, fp, gen, m.issued, inputs)
  }

  function AppendOn(m: Machine, fp: Fingerprint, gen: nat -> Ticket, x: Input): Result<Added, EventStoreError> {
    AppendTo(m.state, fp, x, gen(m.issued))
  }

  /** What the producers of one scope are told by the events a batch returns. */
  function Told(events: seq<PlatformEvent>, scope: string): seq<(Input, nat)> {
    if events == [] then []
    else if ScopeKey(events[0].input) == scope then
      [(events[0].input, events[0].sequence)] + Told(events[1..], scope)
    else Told(events[1..], scope)
  }

  // ----- one input of a batch -----

  lemma StepIsReady(m: Machine, fp: Fingerprint, gen: nat -> Ticket, x: Input)
    requires Ready(m, fp, gen)
    ensures Ready(Step(m, fp, gen, Single(x)), fp, gen)
  {
    hide Agreed, FreshTickets, AppendTo;
    AppendKeepsAgreed(m.state, fp, x, gen(m.issued));
    StepKeepsFresh(m, fp, gen, x);
  }

  lemma BatchUnfolds(m: Machine, fp: Fingerprint, gen: nat -> Ticket, inputs: seq<Input>)
    requires inputs != []
    ensures var r, next := AppendOn(m, fp, gen, inputs[0]), Step(m, fp, gen, Single(inputs[0]));
            var rest := OnBatch(next, fp, gen, inputs[1..]);
            OnBatch(m, fp, gen, inputs)
            == if r.Err? then Outcome(Err(r.error), m.state, next.issued)
               else if rest.result.Ok? then rest.(result := Ok([r.value.event] + rest.result.value))
               else rest
  {
    hide AppendTo;
  }

  lemma SplitFirst(inputs: seq<Input>)
    requires inputs != [] && AllWellFormed(inputs)
    ensures WellFormed(inputs[0]) && AllWellFormed(inputs[1..])
  {
    hide WellFormed;
    assert inputs[0] in inputs;
  }

  lemma NextIsUnused(m: Machine, gen: nat -> Ticket)
    requires FreshTickets(m, gen)
    ensures Unused(m.state, gen(m.issued))
  {
  }

  /** Two logs alike in a scope answer an input of that scope alike and stay alike. */
  lemma SharedStep(
    m: Machine, w: Machine, fp: Fingerprint, gen: nat -> Ticket, other: nat -> Ticket, x: Input)
    requires Ready(m, fp, gen) && Ready(w, fp, other) && WellFormed(x)
    requires Lines(m.state, ScopeKey(x)) == Lines(w.state, ScopeKey(x))
    ensures Verdict(AppendOn(m, fp, gen, x)) == Verdict(AppendOn(w, fp, other, x))
    ensures Lines(Step(m, fp, gen, Single(x)).state, ScopeKey(x))
            == Lines(Step(w, fp, other, Single(x)).state, ScopeKey(x))
  {
    hide Agreed, FreshTickets, AppendTo, Lines, Unused, WellFormed, After;
    NextIsUnused(m, gen);
    NextIsUnused(w, other);
    ScopeDecidesAppend(m.state, w.state, fp, x, gen(m.issued), other(w.issued));
  }

  lemma ForeignStep(m: Machine, fp: Fingerprint, gen: nat -> Ticket, x: Input, scope: string)
    requires ScopeKey(x) != scope
    ensures Lines(Step(m, fp, gen, Single(x)).state, scope) == Lines(m.state, scope)
  {
    hide AppendTo, Lines;
    OtherScopeUntouched(m.state, fp, x, gen(m.issued), scope);
  }

  /** The event an append returns belongs to the scope of its input. */
  lemma ReturnedScope(m: Machine, fp: Fingerprint, gen: nat -> Ticket, x: Input)
    requires Agreed(m.state, fp) && WellFormed(x) && AppendOn(m, fp, gen, x).Ok?
    ensures ScopeKey(AppendOn(m, fp, gen, x).value.event.input) == ScopeKey(x)
  {
    hide Agreed, WellFormed, ScopeKey;
    if IdempotencyKey(x) in m.state.byKey {
      KnownKeyIsLocal(m.state, fp, x);
      ScopedMembers(m.state.events, ScopeKey(x));
    }
  }

  lemma ToldCons(e: PlatformEvent, events: seq<PlatformEvent>, scope: string)
    ensures Told([e] + events, scope)
            == (if ScopeKey(e.input) == scope then [(e.input, e.sequence)] else []) + Told(events, scope)
  {
    assert ([e] + events)[1..] == events;
  }

  lemma LaneCons(inputs: seq<Input>, scope: string)
    requires inputs != []
    ensures ScopeKey(inputs[0]) == scope ==>
              Lane(inputs, scope) != [] && Lane(inputs, scope)[0] == inputs[0]
              && Lane(inputs, scope)[1..] == Lane(inputs[1..], scope)
    ensures ScopeKey(inputs[0]) != scope ==> Lane(inputs, scope) == Lane(inputs[1..], scope)
  {
  }

  // ----- a batch and its lanes -----

  /** A batch that succeeds does to each scope what the lane of that scope does alone, answers included. */
  ghost predicate SameOnLane(whole: Outcome, lane: Outcome, scope: string) {
    whole.result.Ok? ==>
      && lane.result.Ok?
      && Lines(whole.state, scope) == Lines(lane.state, scope)
      && Told(whole.result.value, scope) == Told(lane.result.value, scope)
  }

  lemma {:induction false} LaneFollows(
    m: Machine, w: Machine, fp: Fingerprint, gen: nat -> Ticket, other: nat -> Ticket,
    inputs: seq<Input>, scope: string)
    requires Ready(m, fp, gen) && Ready(w, fp, other) && AllWellFormed(inputs)
    requires Lines(m.state, scope) == Lines(w.state, scope)
    ensures SameOnLane(OnBatch(m, fp, gen, inputs), OnBatch(w, fp, other, Lane(inputs, scope)), scope)
    decreases |inputs|
  {
    hide Ready, AllWellFormed, WellFormed, Lines, Step, AppendOn, Lane, Told, ScopeKey;
    if inputs == [] {
      LaneOfNothing(scope);
    } else {
      var x, next := inputs[0], Step(m, fp, gen, Single(inputs[0]));
      SplitFirst(inputs);
      LaneCons(inputs, scope);
      BatchUnfolds(m, fp, gen, inputs);
      StepIsReady(m, fp, gen, x);
      if ScopeKey(x) == scope {
        SharedStep(m, w, fp, gen, other, x);
        StepIsReady(w, fp, other, x);
        LaneFollows(next, Step(w, fp, other, Single(x)), fp, gen, other, inputs[1..], scope);
        BatchUnfolds(w, fp, other, Lane(inputs, scope));
        SharedTold(m, w, fp, gen, other, inputs, scope);
      } else {
        ForeignStep(m, fp, gen, x, scope);
        LaneFollows(next, w, fp, gen, other, inputs[1..], scope);
        ForeignTold(m, fp, gen, inputs, scope);
      }
    }
  }

  lemma LaneOfNothing(scope: string)
    ensures Lane([], scope) == []
  {
  }

  lemma SharedTold(
    m: Machine, w: Machine, fp: Fingerprint, gen: nat -> Ticket, other: nat -> Ticket,
    inputs: seq<Input>, scope: string)
    requires inputs != [] && ScopeKey(inputs[0]) == scope
    requires Verdict(AppendOn(m, fp, gen, inputs[0])) == Verdict(AppendOn(w, fp, other, inputs[0]))
    ensures forall a, b :: AppendOn(m, fp, gen, inputs[0]).Ok? && Told(a, scope) == Told(b, scope) ==>
              Told([AppendOn(m, fp, gen, inputs[0]).value.event] + a, scope)
              == Told([AppendOn(w, fp, other, inputs[0]).value.event] + b, scope)
  {
    hide AppendOn, Told, ScopeKey;
    var p, q := AppendOn(m, fp, gen, inputs[0]), AppendOn(w, fp, other, inputs[0]);
    if p.Ok? {
      forall a, b | Told(a, scope) == Told(b, scope)
        ensures Told([p.value.event] + a, scope) == Told([q.value.event] + b, scope)
      {
        ToldCons(p.value.event, a, scope);
        ToldCons(q.value.event, b, scope);
      }
    }
  }

  lemma ForeignTold(m: Machine, fp: Fingerprint, gen: nat -> Ticket, inputs: seq<Input>, scope: string)
    requires Ready(m, fp, gen) && inputs != [] && WellFormed(inputs[0]) && ScopeKey(inputs[0]) != scope
    ensures forall a :: AppendOn(m, fp, gen, inputs[0]).Ok? ==>
              Told([AppendOn(m, fp, gen, inputs[0]).value.event] + a, scope) == Told(a, scope)
  {
    hide AppendOn, Told, ScopeKey, Agreed, FreshTickets, WellFormed;
    var p := AppendOn(m, fp, gen, inputs[0]);
    if p.Ok? {
      ReturnedScope(m, fp, gen, inputs[0]);
      forall a ensures Told([p.value.event] + a, scope) == Told(a, scope) {
        ToldCons(p.value.event, a, scope);
      }
    }
  }

  /** The scope of the input at which a batch fails. */
  ghost function Culprit(m: Machine, fp: Fingerprint, gen: nat -> Ticket, inputs: seq<Input>): string
    decreases |inputs|
  {
    if inputs == [] then ""
    else if AppendOn(m, fp, gen, inputs[0]).Err? then ScopeKey(inputs[0])
    else Culprit(Step(m, fp, gen, Single(inputs[0])), fp, gen, inputs[1..])
  }

  /** The lane of the input at which a batch fails also fails alone. */
  lemma {:induction false} CulpritFails(
    m: Machine, w: Machine, fp: Fingerprint, gen: nat -> Ticket, other: nat -> Ticket,
    inputs: seq<Input>, scope: string)
    requires Ready(m, fp, gen) && Ready(w, fp, other) && AllWellFormed(inputs)
    requires Lines(m.state, scope) == Lines(w.state, scope)
    requires OnBatch(m, fp, gen, inputs).result.Err? && scope == Culprit(m, fp, gen, inputs)
    ensures OnBatch(w, fp, other, Lane(inputs, scope)).result.Err?
    decreases |inputs|
  {
    hide Ready, AllWellFormed, WellFormed, Lines, Step, AppendOn, Lane, ScopeKey, OnBatch;
    if inputs == [] {
      NothingSucceeds(m, fp, gen);
    } else {
      var x, next := inputs[0], Step(m, fp, gen, Single(inputs[0]));
      SplitFirst(inputs);
      LaneCons(inputs, scope);
      BatchUnfolds(m, fp, gen, inputs);
      StepIsReady(m, fp, gen, x);
      if ScopeKey(x) == scope {
        SharedStep(m, w, fp, gen, other, x);
        StepIsReady(w, fp, other, x);
        BatchUnfolds(w, fp, other, Lane(inputs, scope));
        if AppendOn(m, fp, gen, x).Ok? {
          CulpritFails(next, Step(w, fp, other, Single(x)), fp, gen, other, inputs[1..], scope);
        }
      } else {
        ForeignStep(m, fp, gen, x, scope);
        CulpritFails(next, w, fp, gen, other, inputs[1..], scope);
      }
    }
  }

  lemma NothingSucceeds(m: Machine, fp: Fingerprint, gen: nat -> Ticket)
    ensures OnBatch(m, fp, gen, []).result.Ok?
  {
  }

  /** A batch fails exactly when one of its lanes, sent alone, fails. */
  lemma BatchFailsIffLaneFails(m: Machine, fp: Fingerprint, gen: nat -> Ticket, inputs: seq<Input>)
    requires Ready(m, fp, gen) && AllWellFormed(inputs)
    ensures OnBatch(m, fp, gen, inputs).result.Err?
            <==> exists scope :: OnBatch(m, fp, gen, Lane(inputs, scope)).result.Err?
  {
    hide Ready, AllWellFormed, Lines, OnBatch, Lane;
    if OnBatch(m, fp, gen, inputs).result.Err? {
      CulpritFails(m, m, fp, gen, gen, inputs, Culprit(m, fp, gen, inputs));
    }
    if scope :| OnBatch(m, fp, gen, Lane(inputs, scope)).result.Err? {
      LaneFollows(m, m, fp, gen, gen, inputs, scope);
    }
  }

  // ----- the condition, as a caller can check it -----

  /** The key of the input is taken by an event that the input does not repeat. */
  predicate Conflicts(s: State, fp: Fingerprint, x: Input) {
    IdempotencyKey(x) in s.byKey && s.byKey[IdempotencyKey(x)].fingerprint != fp(x)
  }

  predicate Differ(fp: Fingerprint, x: Input, y: Input) {
    IdempotencyKey(x) == IdempotencyKey(y) && fp(x) != fp(y)
  }

  predicate ClashAt(s: State, fp: Fingerprint, inputs: seq<Input>, i: nat)
    requires i < |inputs|
  {
    Conflicts(s, fp, inputs[i]) || exists j :: 0 <= j < i && Differ(fp, inputs[j], inputs[i])
  }

  /** Some input reuses a key, of the log or of an earlier input, for something else. */
  predicate Clash(s: State, fp: Fingerprint, inputs: seq<Input>) {
    exists i :: 0 <= i < |inputs| && ClashAt(s, fp, inputs, i)
  }

  /** Some input is new to the log. */
  predicate Adds(s: State, inputs: seq<Input>) {
    exists i :: 0 <= i < |inputs| && IdempotencyKey(inputs[i]) !in s.byKey
  }

  lemma AppendIsDecided(m: Machine, fp: Fingerprint, gen: nat -> Ticket, x: Input)
    requires FreshTickets(m, gen) && WellFormed(x)
    ensures AppendOn(m, fp, gen, x).Err? <==> Conflicts(m.state, fp, x)
    ensures AppendOn(m, fp, gen, x).Err? ==> AppendOn(m, fp, gen, x).error == IdempotencyConflict
  {
    hide FreshTickets;
    NextIsUnused(m, gen);
  }

  /** After an input has gone in, another conflicts if it did before or if it differs from that input. */
  lemma ConflictsAfter(m: Machine, fp: Fingerprint, gen: nat -> Ticket, x: Input, y: Input)
    requires FreshTickets(m, gen) && WellFormed(x) && !Conflicts(m.state, fp, x)
    ensures Conflicts(Step(m, fp, gen, Single(x)).state, fp, y) <==> Conflicts(m.state, fp, y) || Differ(fp, x, y)
  {
    hide FreshTickets, IdempotencyKey;
    NextIsUnused(m, gen);
  }

  lemma ClashStep(m: Machine, fp: Fingerprint, gen: nat -> Ticket, inputs: seq<Input>)
    requires FreshTickets(m, gen) && inputs != [] && WellFormed(inputs[0]) && !Conflicts(m.state, fp, inputs[0])
    ensures Clash(m.state, fp, inputs) <==> Clash(Step(m, fp, gen, Single(inputs[0])).state, fp, inputs[1..])
  {
    hide FreshTickets, WellFormed, Conflicts, Differ, Step;
    var n, rest := Step(m, fp, gen, Single(inputs[0])).state, inputs[1..];
    forall i | 1 <= i < |inputs| ensures ClashAt(m.state, fp, inputs, i) <==> ClashAt(n, fp, rest, i - 1) {
      ConflictsAfter(m, fp, gen, inputs[0], inputs[i]);
      ClashShifts(m.state, fp, inputs, n, i);
    }
    if Clash(n, fp, rest) {
      var k :| 0 <= k < |rest| && ClashAt(n, fp, rest, k);
      assert ClashAt(m.state, fp, inputs, k + 1);
    }
  }

  lemma ClashShifts(s: State, fp: Fingerprint, inputs: seq<Input>, n: State, i: nat)
    requires 1 <= i < |inputs|
    requires Conflicts(n, fp, inputs[i]) <==> Conflicts(s, fp, inputs[i]) || Differ(fp, inputs[0], inputs[i])
    ensures ClashAt(s, fp, inputs, i) <==> ClashAt(n, fp, inputs[1..], i - 1)
  {
    hide Conflicts, Differ;
    var rest := inputs[1..];
    assert rest[i - 1] == inputs[i];
    if j :| 0 <= j < i - 1 && Differ(fp, rest[j], rest[i - 1]) {
      assert Differ(fp, inputs[j + 1], inputs[i]);
    }
    if j :| 0 < j < i && Differ(fp, inputs[j], inputs[i]) {
      assert Differ(fp, rest[j - 1], rest[i - 1]);
    }
  }

  /** A batch fails exactly when some input of it clashes, and then as an idempotency conflict. */
  lemma {:induction false} FailsIffClash(m: Machine, fp: Fingerprint, gen: nat -> Ticket, inputs: seq<Input>)
    requires Ready(m, fp, gen) && AllWellFormed(inputs)
    ensures OnBatch(m, fp, gen, inputs).result.Err? <==> Clash(m.state, fp, inputs)
    ensures OnBatch(m, fp, gen, inputs).result.Err? ==> OnBatch(m, fp, gen, inputs).result.error == IdempotencyConflict
    decreases |inputs|
  {
    hide AllWellFormed, WellFormed, Step, AppendOn, Conflicts, Agreed, FreshTickets;
    if inputs != [] {
      SplitFirst(inputs);
      BatchUnfolds(m, fp, gen, inputs);
      AppendIsDecided(m, fp, gen, inputs[0]);
      if Conflicts(m.state, fp, inputs[0]) {
        assert ClashAt(m.state, fp, inputs, 0);
      } else {
        StepIsReady(m, fp, gen, inputs[0]);
        ClashStep(m, fp, gen, inputs);
        FailsIffClash(Step(m, fp, gen, Single(inputs[0])), fp, gen, inputs[1..]);
      }
    }
  }

  lemma LinesGrow(a: State, b: State, scope: string)
    requires Grows(a, b)
    ensures |Lines(a, scope)| <= |Lines(b, scope)|
  {
    ScopedGrows(a.events, b.events, scope);
  }

  ghost predicate AllOf(inputs: seq<Input>, scope: string) {
    forall x :: x in inputs ==> ScopeKey(x) == scope
  }

  /** A lane that goes in lengthens its scope exactly when one of its inputs is new. */
  lemma {:induction false} LaneAdds(m: Machine, fp: Fingerprint, gen: nat -> Ticket, inputs: seq<Input>, scope: string)
    requires Ready(m, fp, gen) && AllWellFormed(inputs) && AllOf(inputs, scope)
    requires OnBatch(m, fp, gen, inputs).result.Ok?
    ensures Lines(OnBatch(m, fp, gen, inputs).state, scope) == Lines(m.state, scope) <==> !Adds(m.state, inputs)
    decreases |inputs|
  {
    hide Ready, AllWellFormed, WellFormed, Lines, AppendOn, OnBatch, Step, Grows;
    if inputs == [] {
      EmptyBatch(m, fp, gen);
    } else {
      var x, next := inputs[0], Step(m, fp, gen, Single(inputs[0]));
      SplitFirst(inputs);
      BatchUnfolds(m, fp, gen, inputs);
      StepIsReady(m, fp, gen, x);
      LaneAdds(next, fp, gen, inputs[1..], scope);
      AddsCons(m.state, inputs);
      FirstOfLane(m, fp, gen, x);
      RestGrows(next, fp, gen, inputs[1..]);
      LinesGrow(next.state, OnBatch(next, fp, gen, inputs[1..]).state, scope);
    }
  }

  lemma EmptyBatch(m: Machine, fp: Fingerprint, gen: nat -> Ticket)
    ensures OnBatch(m, fp, gen, []) == Outcome(Ok([]), m.state, m.issued)
  {
  }

  lemma RestGrows(m: Machine, fp: Fingerprint, gen: nat -> Ticket, inputs: seq<Input>)
    ensures Grows(m.state, OnBatch(m, fp, gen, inputs).state)
  {
    BatchGrows(m.state, fp, gen, m.issued, inputs);
  }

  lemma AddsCons(s: State, inputs: seq<Input>)
    requires inputs != []
    ensures Adds(s, inputs) <==> IdempotencyKey(inputs[0]) !in s.byKey || Adds(s, inputs[1..])
  {
    if Adds(s, inputs[1..]) {
      var i :| 0 <= i < |inputs| - 1 && IdempotencyKey(inputs[1..][i]) !in s.byKey;
      assert inputs[i + 1] == inputs[1..][i];
    }
    if Adds(s, inputs) {
      var i :| 0 <= i < |inputs| && IdempotencyKey(inputs[i]) !in s.byKey;
      assert i > 0 ==> inputs[1..][i - 1] == inputs[i];
    }
  }

  /** A known input changes nothing; a new one adds a line to its scope. */
  lemma FirstOfLane(m: Machine, fp: Fingerprint, gen: nat -> Ticket, x: Input)
    requires Ready(m, fp, gen) && WellFormed(x)
    ensures IdempotencyKey(x) in m.state.byKey ==> Step(m, fp, gen, Single(x)).state == m.state
    ensures IdempotencyKey(x) !in m.state.byKey ==>
              |Lines(Step(m, fp, gen, Single(x)).state, ScopeKey(x))| == |Lines(m.state, ScopeKey(x))| + 1
  {
    hide Agreed, FreshTickets, Lines, WellFormed, IdempotencyKey, ScopeKey;
    NextIsUnused(m, gen);
    if IdempotencyKey(x) in m.state.byKey {
      RetriedAppend(m.state, fp, x, gen(m.issued));
    } else {
      FreshAppend(m.state, fp, x, gen(m.issued));
    }
  }

  lemma {:induction false} LaneMembers(inputs: seq<Input>, scope: string)
    ensures AllOf(Lane(inputs, scope), scope) && forall x :: x in Lane(inputs, scope) ==> x in inputs
    ensures Lane(Lane(inputs, scope), scope) == Lane(inputs, scope)
  {
    if inputs != [] { LaneMembers(inputs[1..], scope); }
  }

  lemma LaneIsWellFormed(inputs: seq<Input>, scope: string)
    requires AllWellFormed(inputs)
    ensures AllWellFormed(Lane(inputs, scope))
  {
    hide WellFormed, Lane;
    LaneMembers(inputs, scope);
  }

  /** Logs alike in a scope agree on whether a lane of it clashes and on whether it adds anything. */
  lemma LaneIsJudgedAlike(
    m: Machine, w: Machine, fp: Fingerprint, gen: nat -> Ticket, other: nat -> Ticket, lane: seq<Input>, scope: string)
    requires Ready(m, fp, gen) && Ready(w, fp, other) && AllWellFormed(lane) && AllOf(lane, scope)
    requires Lane(lane, scope) == lane && Lines(m.state, scope) == Lines(w.state, scope)
    ensures Clash(m.state, fp, lane) <==> Clash(w.state, fp, lane)
    ensures Adds(m.state, lane) <==> Adds(w.state, lane)
  {
    hide Lines, Clash, OnBatch, Agreed, FreshTickets, WellFormed, ScopeKey, IdempotencyKey, Lane;
    FailsIffClash(m, fp, gen, lane);
    FailsIffClash(w, fp, other, lane);
    LaneFollows(m, w, fp, gen, other, lane, scope);
    LaneFollows(w, m, fp, other, gen, lane, scope);
    forall i | 0 <= i < |lane|
      ensures IdempotencyKey(lane[i]) in m.state.byKey <==> IdempotencyKey(lane[i]) in w.state.byKey
    {
      assert lane[i] in lane;
      if IdempotencyKey(lane[i]) in m.state.byKey { SameLookup(m.state, w.state, fp, lane[i]); }
      if IdempotencyKey(lane[i]) in w.state.byKey { SameLookup(w.state, m.state, fp, lane[i]); }
    }
  }

  /** The batch clashes, though not within the lane of this scope, and that lane had something to add. */
  predicate Undone(s: State, fp: Fingerprint, inputs: seq<Input>, scope: string) {
    Clash(s, fp, inputs) && !Clash(s, fp, Lane(inputs, scope)) && Adds(s, Lane(inputs, scope))
  }

  lemma BatchStepState(m: Machine, fp: Fingerprint, gen: nat -> Ticket, inputs: seq<Input>)
    ensures Step(m, fp, gen, Batch(inputs)).state
            == if OnBatch(m, fp, gen, inputs).result.Ok? then OnBatch(m, fp, gen, inputs).state else m.state
  {
  }

  /**
    A batch acts on a scope as the lane of that scope would alone, unless the lane is undone: it would
    go in and add a line, while an input of another scope clashes.
  */
  lemma BatchIsolatedIff(
    m: Machine, w: Machine, fp: Fingerprint, gen: nat -> Ticket, other: nat -> Ticket,
    inputs: seq<Input>, scope: string)
    requires Ready(m, fp, gen) && Ready(w, fp, other) && AllWellFormed(inputs)
    requires Lines(m.state, scope) == Lines(w.state, scope)
    ensures Lines(Step(m, fp, gen, Batch(inputs)).state, scope)
            == Lines(Step(w, fp, other, Batch(Lane(inputs, scope))).state, scope)
            <==> !Undone(m.state, fp, inputs, scope)
  {
    hide Ready, AllWellFormed, Lines, Clash, Adds, OnBatch, Step, Lane;
    var lane := Lane(inputs, scope);
    LaneMembers(inputs, scope);
    LaneIsWellFormed(inputs, scope);
    BatchStepState(m, fp, gen, inputs);
    BatchStepState(w, fp, other, lane);
    FailsIffClash(m, fp, gen, inputs);
    FailsIffClash(w, fp, other, lane);
    LaneIsJudgedAlike(m, w, fp, gen, other, lane, scope);
    LaneFollows(m, w, fp, gen, other, inputs, scope);
    if OnBatch(w, fp, other, lane).result.Ok? { LaneAdds(w, fp, other, lane, scope); }
  }

  /** A batch clashes exactly when one of its lanes does, so a lane is undone only by another lane. */
  lemma ClashLiesInALane(m: Machine, fp: Fingerprint, gen: nat -> Ticket, inputs: seq<Input>)
    requires Ready(m, fp, gen) && AllWellFormed(inputs)
    ensures Clash(m.state, fp, inputs) <==> exists scope :: Clash(m.state, fp, Lane(inputs, scope))
  {
    hide Ready, AllWellFormed, Clash, OnBatch, Lane;
    FailsIffClash(m, fp, gen, inputs);
    BatchFailsIffLaneFails(m, fp, gen, inputs);
    forall scope
      ensures OnBatch(m, fp, gen, Lane(inputs, scope)).result.Err? <==> Clash(m.state, fp, Lane(inputs, scope))
    {
      LaneIsWellFormed(inputs, scope);
      FailsIffClash(m, fp, gen, Lane(inputs, scope));
    }
  }

  /**
    The smallest failure: a new input of one scope, batched with an input of another scope that
    clashes with the log. Alone the first would add a line; in the batch it adds none.
  */
  lemma BatchesCoupleScopes(m: Machine, fp: Fingerprint, gen: nat -> Ticket, first: Input, second: Input)
    requires Ready(m, fp, gen) && WellFormed(first) && WellFormed(second)
    requires ScopeKey(first) != ScopeKey(second)
    requires IdempotencyKey(first) !in m.state.byKey && Conflicts(m.state, fp, second)
    ensures var scope := ScopeKey(first);
            && Lines(Step(m, fp, gen, Batch([first, second])).state, scope) == Lines(m.state, scope)
            && Lines(Step(m, fp, gen, Batch(Lane([first, second], scope))).state, scope) != Lines(m.state, scope)
  {
    hide Ready, WellFormed, Lines, OnBatch, Step, Conflicts, ScopeKey, IdempotencyKey;
    var inputs, scope := [first, second], ScopeKey(first);
    LaneOfTwo(first, second);
    assert AllWellFormed(inputs);
    assert ClashAt(m.state, fp, inputs, 1);
    NewIsNoClash(m.state, fp, first);
    assert IdempotencyKey([first][0]) !in m.state.byKey;
    BatchIsolatedIff(m, m, fp, gen, gen, inputs, scope);
    FailsIffClash(m, fp, gen, inputs);
    BatchStepState(m, fp, gen, inputs);
  }

  lemma LaneOfTwo(first: Input, second: Input)
    requires ScopeKey(first) != ScopeKey(second)
    ensures Lane([first, second], ScopeKey(first)) == [first]
  {
    hide ScopeKey;
    var scope := ScopeKey(first);
    assert [first, second][1..] == [second] && [second][1..] == [];
    assert Lane([second], scope) == Lane([], scope);
    assert Lane([first, second], scope) == [first] + Lane([second], scope);
  }

  lemma NewIsNoClash(s: State, fp: Fingerprint, x: Input)
    requires IdempotencyKey(x) !in s.byKey
    ensures !Clash(s, fp, [x])
  {
    hide IdempotencyKey;
  }

  // ----- whole runs -----

  /** What is left of a call when only one scope is addressed. */
  function LaneCall(call: Call, scope: string): Call {
    match call
    case Single(x) => if ScopeKey(x) == scope then call else Batch([])
    case Batch(inputs) => Batch(Lane(inputs, scope))
  }

  function LaneCalls(calls: seq<Call>, scope: string): seq<Call> {
    if calls == [] then [] else [LaneCall(calls[0], scope)] + LaneCalls(calls[1..], scope)
  }

  /** What a call tells the producers of one scope. */
  function Reply(m: Machine, fp: Fingerprint, gen: nat -> Ticket, call: Call, scope: string)
    : Result<seq<(Input, nat)>, EventStoreError>
  {
    match call
    case Single(x) =>
      if ScopeKey(x) != scope then Ok([])
      else
        var told :- Verdict(AppendOn(m, fp, gen, x));
        Ok([told])
    case Batch(inputs) =>
      if Lane(inputs, scope) == [] then Ok([])
      else
        var events :- OnBatch(m, fp, gen, inputs).result;
        Ok(Told(events, scope))
  }

  function Replies(m: Machine, fp: Fingerprint, gen: nat -> Ticket, calls: seq<Call>, scope: string)
    : seq<Result<seq<(Input, nat)>, EventStoreError>>
    decreases |calls|
  {
    if calls == [] then []
    else [Reply(m, fp, gen, calls[0], scope)] + Replies(Step(m, fp, gen, calls[0]), fp, gen, calls[1..], scope)
  }

  ghost predicate CallWellFormed(call: Call) {
    match call
    case Single(x) => WellFormed(x)
    case Batch(inputs) => AllWellFormed(inputs)
  }

  /** No batch of the run undoes a lane of the scope. */
  ghost predicate IsolatedRun(m: Machine, fp: Fingerprint, gen: nat -> Ticket, calls: seq<Call>, scope: string)
    decreases |calls|
  {
    calls != [] ==>
      && (calls[0].Batch? ==> !Undone(m.state, fp, calls[0].inputs, scope))
      && IsolatedRun(Step(m, fp, gen, calls[0]), fp, gen, calls[1..], scope)
  }

  /** A batch that addresses the scope clashes only if its lane of the scope does. */
  predicate Undisturbed(s: State, fp: Fingerprint, call: Call, scope: string) {
    match call
    case Single(_) => true
    case Batch(inputs) =>
      Lane(inputs, scope) != [] && Clash(s, fp, inputs) ==> Clash(s, fp, Lane(inputs, scope))
  }

  ghost predicate UndisturbedRun(m: Machine, fp: Fingerprint, gen: nat -> Ticket, calls: seq<Call>, scope: string)
    decreases |calls|
  {
    calls != [] ==>
      && Undisturbed(m.state, fp, calls[0], scope)
      && UndisturbedRun(Step(m, fp, gen, calls[0]), fp, gen, calls[1..], scope)
  }

  lemma FreshLater(m: Machine, gen: nat -> Ticket, issued: nat)
    requires FreshTickets(m, gen) && m.issued <= issued
    ensures FreshTickets(Machine(m.state, issued), gen)
  {
  }

  /** A batch leaves its draft ready after every input, and the state it started from ready for what it drew. */
  lemma {:induction false} BatchIsReady(m: Machine, fp: Fingerprint, gen: nat -> Ticket, inputs: seq<Input>)
    requires Ready(m, fp, gen)
    ensures var out := OnBatch(m, fp, gen, inputs);
            m.issued <= out.issued && (out.result.Ok? ==> Ready(Machine(out.state, out.issued), fp, gen))
    decreases |inputs|
  {
    hide Ready, AppendOn, OnBatch;
    if inputs == [] {
      EmptyBatch(m, fp, gen);
    } else {
      BatchUnfolds(m, fp, gen, inputs);
      StepIsReady(m, fp, gen, inputs[0]);
      BatchIsReady(Step(m, fp, gen, Single(inputs[0])), fp, gen, inputs[1..]);
    }
  }

  lemma CallIsReady(m: Machine, fp: Fingerprint, gen: nat -> Ticket, call: Call)
    requires Ready(m, fp, gen)
    ensures Ready(Step(m, fp, gen, call), fp, gen)
  {
    hide Agreed, FreshTickets, AppendTo;
    match call
    case Single(x) => StepIsReady(m, fp, gen, x);
    case Batch(inputs) =>
      BatchIsReady(m, fp, gen, inputs);
      FreshLater(m, gen, OnBatch(m, fp, gen, inputs).issued);
  }

  lemma NoCall(m: Machine, fp: Fingerprint, gen: nat -> Ticket)
    ensures Step(m, fp, gen, Batch([])) == m
  {
  }

  /** One call and its lane leave the scope alike, if the lane is not undone. */
  lemma CallIsolated(
    m: Machine, w: Machine, fp: Fingerprint, gen: nat -> Ticket, other: nat -> Ticket, call: Call, scope: string)
    requires Ready(m, fp, gen) && Ready(w, fp, other) && CallWellFormed(call)
    requires Lines(m.state, scope) == Lines(w.state, scope)
    requires call.Batch? ==> !Undone(m.state, fp, call.inputs, scope)
    ensures Lines(Step(m, fp, gen, call).state, scope) == Lines(Step(w, fp, other, LaneCall(call, scope)).state, scope)
  {
    hide Ready, Lines, Step, Undone, WellFormed, AllWellFormed, ScopeKey;
    match call
    case Single(x) =>
      if ScopeKey(x) == scope {
        SharedStep(m, w, fp, gen, other, x);
      } else {
        ForeignStep(m, fp, gen, x, scope);
        NoCall(w, fp, other);
      }
    case Batch(inputs) => BatchIsolatedIff(m, w, fp, gen, other, inputs, scope);
  }

  /**
    Scope isolation. The stream of a scope is that of a run that receives only what the calls address to
    that scope, whatever single appends and batches to other scopes are interleaved, as long as no batch
    undoes a lane of the scope. The two runs may use different generators.
  */
  lemma {:induction false} ScopeIsolation(
    m: Machine, w: Machine, fp: Fingerprint, gen: nat -> Ticket, other: nat -> Ticket,
    calls: seq<Call>, scope: string)
    requires Ready(m, fp, gen) && Ready(w, fp, other) && Lines(m.state, scope) == Lines(w.state, scope)
    requires forall c :: c in calls ==> CallWellFormed(c)
    requires IsolatedRun(m, fp, gen, calls, scope)
    ensures Lines(Run(m, fp, gen, calls).state, scope)
            == Lines(Run(w, fp, other, LaneCalls(calls, scope)).state, scope)
    decreases |calls|
  {
    hide Ready, Lines, Step, Undone, CallWellFormed, LaneCall;
    if calls != [] {
      var lane := LaneCall(calls[0], scope);
      assert calls[0] in calls;
      CallIsolated(m, w, fp, gen, other, calls[0], scope);
      CallIsReady(m, fp, gen, calls[0]);
      CallIsReady(w, fp, other, lane);
      ScopeIsolation(Step(m, fp, gen, calls[0]), Step(w, fp, other, lane), fp, gen, other, calls[1..], scope);
      assert LaneCalls(calls, scope)[0] == lane && LaneCalls(calls, scope)[1..] == LaneCalls(calls[1..], scope);
    }
  }

  lemma NoLaneAddsNothing(s: State, fp: Fingerprint, inputs: seq<Input>, scope: string)
    requires Undisturbed(s, fp, Batch(inputs), scope)
    ensures !Undone(s, fp, inputs, scope)
  {
    hide Clash, Lane;
  }

  /** The producers of a scope are told the same about a call as about its lane, exactly when it is undisturbed. */
  lemma ReplyIsolatedIff(
    m: Machine, w: Machine, fp: Fingerprint, gen: nat -> Ticket, other: nat -> Ticket, call: Call, scope: string)
    requires Ready(m, fp, gen) && Ready(w, fp, other) && CallWellFormed(call)
    requires Lines(m.state, scope) == Lines(w.state, scope)
    ensures Reply(m, fp, gen, call, scope) == Reply(w, fp, other, LaneCall(call, scope), scope)
            <==> Undisturbed(m.state, fp, call, scope)
  {
    hide Ready, Lines, AppendOn, OnBatch, WellFormed, AllWellFormed, ScopeKey, Clash, Lane, Told;
    match call
    case Single(x) =>
      if ScopeKey(x) == scope { SharedStep(m, w, fp, gen, other, x); } else { LaneOfNothing(scope); }
    case Batch(inputs) =>
      var lane := Lane(inputs, scope);
      LaneMembers(inputs, scope);
      LaneIsWellFormed(inputs, scope);
      FailsIffClash(m, fp, gen, inputs);
      FailsIffClash(w, fp, other, lane);
      LaneIsJudgedAlike(m, w, fp, gen, other, lane, scope);
      LaneFollows(m, w, fp, gen, other, inputs, scope);
  }

  /** In a run that no other scope disturbs, the producers of a scope also get the same answers. */
  lemma {:induction false} RepliesAreIsolated(
    m: Machine, w: Machine, fp: Fingerprint, gen: nat -> Ticket, other: nat -> Ticket,
    calls: seq<Call>, scope: string)
    requires Ready(m, fp, gen) && Ready(w, fp, other) && Lines(m.state, scope) == Lines(w.state, scope)
    requires forall c :: c in calls ==> CallWellFormed(c)
    requires UndisturbedRun(m, fp, gen, calls, scope)
    ensures Replies(m, fp, gen, calls, scope) == Replies(w, fp, other, LaneCalls(calls, scope), scope)
    ensures IsolatedRun(m, fp, gen, calls, scope)
    decreases |calls|
  {
    hide Ready, Lines, Step, Undone, Undisturbed, CallWellFormed, LaneCall, Reply;
    if calls != [] {
      var lane := LaneCall(calls[0], scope);
      assert calls[0] in calls;
      if calls[0].Batch? { NoLaneAddsNothing(m.state, fp, calls[0].inputs, scope); }
      CallIsolated(m, w, fp, gen, other, calls[0], scope);
      ReplyIsolatedIff(m, w, fp, gen, other, calls[0], scope);
      CallIsReady(m, fp, gen, calls[0]);
      CallIsReady(w, fp, other, lane);
      RepliesAreIsolated(Step(m, fp, gen, calls[0]), Step(w, fp, other, lane), fp, gen, other, calls[1..], scope);
      assert LaneCalls(calls, scope)[0] == lane && LaneCalls(calls, scope)[1..] == LaneCalls(calls[1..], scope);
    }
  }

  lemma {:induction false} SinglesAreUndisturbed(
    m: Machine, fp: Fingerprint, gen: nat -> Ticket, calls: seq<Call>, scope: string)
    requires forall c :: c in calls ==> c.Single?
    ensures UndisturbedRun(m, fp, gen, calls, scope)
    decreases |calls|
  {
    hide Step;
    if calls != [] {
      assert calls[0] in calls;
      SinglesAreUndisturbed(Step(m, fp, gen, calls[0]), fp, gen, calls[1..], scope);
    }
  }

  /** Without batches isolation has no condition, for the stream and for the answers. */
  lemma SinglesAreIsolated(
    m: Machine, w: Machine, fp: Fingerprint, gen: nat -> Ticket, other: nat -> Ticket,
    calls: seq<Call>, scope: string)
    requires Ready(m, fp, gen) && Ready(w, fp, other) && Lines(m.state, scope) == Lines(w.state, scope)
    requires forall c :: c in calls ==> c.Single? && CallWellFormed(c)
    ensures Lines(Run(m, fp, gen, calls).state, scope)
            == Lines(Run(w, fp, other, LaneCalls(calls, scope)).state, scope)
    ensures Replies(m, fp, gen, calls, scope) == Replies(w, fp, other, LaneCalls(calls, scope), scope)
  {
    hide *;
    SinglesAreUndisturbed(m, fp, gen, calls, scope);
    RepliesAreIsolated(m, w, fp, gen, other, calls, scope);
    ScopeIsolation(m, w, fp, gen, other, calls, scope);
  }
}

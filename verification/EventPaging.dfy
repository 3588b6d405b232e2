/** Reading one scope of the platform event log by opaque cursor, while the log keeps growing. */
module EventPaging {
  import opened Wrappers
  import opened Paging
  import opened EventLog

  datatype Page = Page(events: seq<PlatformEvent>, nextCursor: Option<string>)

  function EventsOf(s: seq<Stored>): seq<PlatformEvent> {
    seq(|s|, i requires 0 <= i < |s| => s[i].event)
  }

  /** The position of the first event with this cursor, or none. */
  function FindCursor(s: seq<Stored>, cursor: string): Option<nat> {
    if s == [] then None
    else if s[0].event.cursor == cursor then Some(0)
    else
      match FindCursor(s[1..], cursor)
      case None => None
      case Some(i) => Some(i + 1)
  }

  function FindReplayStart(s: seq<Stored>, after: Option<string>): Result<nat, EventStoreError> {
    if after.None? then Ok(0)
    else
      match FindCursor(s, after.value)
      case None => Err(CursorNotFound)
      case Some(i) => Ok(i + 1)
  }

  /** Array slicing clips both ends to the array. */
  function Slice(s: seq<Stored>, from: nat, to: nat): seq<Stored>
    requires from <= to
  {
    s[Min(from, |s|)..Min(to, |s|)]
  }

  function PageOf(events: seq<PlatformEvent>): Page {
    Page(events, if events == [] then None else Some(events[|events| - 1].cursor))
  }

  function ReplayPage(state: State, scope: string, after: Option<string>, limit: int): Result<Page, EventStoreError> {
    if limit < 1 || limit > MAX_REPLAY_LIMIT then Err(InvalidReplayLimit)
    else
      var scoped := Scoped(state.events, scope);
      var start :- FindReplayStart(scoped, after);
      Ok(PageOf(EventsOf(Slice(scoped, start, start + limit))))
  }

  // ----- cursors -----

  lemma {:induction false} FindCursorMeaning(s: seq<Stored>, cursor: string)
    ensures FindCursor(s, cursor).None? <==> forall i :: 0 <= i < |s| ==> s[i].event.cursor != cursor
    ensures FindCursor(s, cursor).Some? ==>
              var i := FindCursor(s, cursor).value;
              i < |s| && s[i].event.cursor == cursor && forall j :: 0 <= j < i ==> s[j].event.cursor != cursor
  {
    if s != [] {
      FindCursorMeaning(s[1..], cursor);
      assert forall i :: 1 <= i < |s| ==> s[i] == s[1..][i - 1];
    }
  }

  lemma {:induction false} ScopedMembers(events: seq<Stored>, scope: string)
    ensures forall e :: e in Scoped(events, scope) <==> e in events && ScopeKey(e.event.input) == scope
  {
    if events != [] {
      ScopedMembers(events[..|events| - 1], scope);
      assert events == events[..|events| - 1] + [events[|events| - 1]];
    }
  }

  lemma {:induction false} ScopedDistinct(events: seq<Stored>, scope: string)
    requires Distinct(events)
    ensures Distinct(Scoped(events, scope))
  {
    if events != [] {
      var front, last := events[..|events| - 1], events[|events| - 1];
      ScopedDistinct(front, scope);
      ScopedMembers(front, scope);
      assert forall i :: 0 <= i < |front| ==> front[i] == events[i] && events[i] != last;
    }
  }

  ghost predicate DistinctCursors(s: seq<Stored>) {
    forall i, j :: 0 <= i < j < |s| ==> s[i].event.cursor != s[j].event.cursor
  }

  lemma ScopeHasDistinctCursors(state: State, fp: Fingerprint, scope: string)
    requires Agreed(state, fp)
    ensures DistinctCursors(Scoped(state.events, scope))
  {
    var scoped := Scoped(state.events, scope);
    ScopedMembers(state.events, scope);
    ScopedDistinct(state.events, scope);
    forall i, j | 0 <= i < j < |scoped| ensures scoped[i].event.cursor != scoped[j].event.cursor {
      assert scoped[i] in scoped && scoped[j] in scoped;
      assert IndexedEvent(state, scoped[i]) && IndexedEvent(state, scoped[j]);
    }
  }

  /** A cursor names one position of its scope. */
  lemma CursorNamesPosition(scoped: seq<Stored>, i: nat)
    requires DistinctCursors(scoped) && i < |scoped|
    ensures FindCursor(scoped, scoped[i].event.cursor) == Some(i)
  {
    FindCursorMeaning(scoped, scoped[i].event.cursor);
  }

  /**
    A cursor is accepted in a scope exactly when an event of that scope carries it; in particular the
    cursor of an event of another scope is always rejected.
  */
  lemma CursorBelongsToScope(state: State, fp: Fingerprint, scope: string, cursor: string, limit: int)
    requires Agreed(state, fp) && 1 <= limit <= MAX_REPLAY_LIMIT
    ensures ReplayPage(state, scope, Some(cursor), limit).Ok?
            <==> exists e :: e in state.events && e.event.cursor == cursor && ScopeKey(e.event.input) == scope
    ensures forall e :: e in state.events && e.event.cursor == cursor && ScopeKey(e.event.input) != scope ==>
              ReplayPage(state, scope, Some(cursor), limit) == Err(CursorNotFound)
  {
    hide *;
    PageNeedsCursor(state, scope, cursor, limit);
    CursorInScope(state, scope, cursor);
    forall e | e in state.events && e.event.cursor == cursor && ScopeKey(e.event.input) != scope
      ensures FindCursor(Scoped(state.events, scope), cursor).None?
    {
      if x :| x in state.events && x.event.cursor == cursor && ScopeKey(x.event.input) == scope {
        CursorsAreUnique(state, fp, e, x);
      }
    }
  }

  lemma PageNeedsCursor(state: State, scope: string, cursor: string, limit: int)
    requires 1 <= limit <= MAX_REPLAY_LIMIT
    ensures var r := ReplayPage(state, scope, Some(cursor), limit);
            if FindCursor(Scoped(state.events, scope), cursor).Some? then r.Ok? else r == Err(CursorNotFound)
  {
    hide Scoped, FindCursor, PageOf, EventsOf, Slice;
  }

  lemma CursorInScope(state: State, scope: string, cursor: string)
    ensures FindCursor(Scoped(state.events, scope), cursor).Some?
            <==> exists e :: e in state.events && e.event.cursor == cursor && ScopeKey(e.event.input) == scope
  {
    hide *;
    var scoped := Scoped(state.events, scope);
    FindCursorMeaning(scoped, cursor);
    ScopedMembers(state.events, scope);
    if FindCursor(scoped, cursor).Some? {
      var i := FindCursor(scoped, cursor).value;
      assert scoped[i] in scoped;
    }
  }

  lemma CursorsAreUnique(state: State, fp: Fingerprint, a: Stored, b: Stored)
    requires Agreed(state, fp) && a in state.events && b in state.events && a.event.cursor == b.event.cursor
    ensures a == b
  {
    assert IndexedEvent(state, a) && IndexedEvent(state, b);
  }

  // ----- reading while the log grows -----

  /** Everything the log holds stays where it is. */
  ghost predicate Grows(a: State, b: State) {
    a.events <= b.events
  }

  lemma AppendGrows(s: State, fp: Fingerprint, input: Input, ticket: Ticket)
    ensures Grows(s, After(s, fp, input, ticket))
  {
  }

  lemma {:induction false} BatchGrows(s: State, fp: Fingerprint, gen: nat -> Ticket, n: nat, inputs: seq<Input>)
    ensures Grows(s, BatchOn(s, fp, gen, n, inputs).state)
    decreases |inputs|
  {
    if inputs != [] {
      var next, m := After(s, fp, inputs[0], gen(n)), if DrawsTicket(s, inputs[0]) then n + 1 else n;
      AppendGrows(s, fp, inputs[0], gen(n));
      BatchGrows(next, fp, gen, m, inputs[1..]);
      BatchStep(s, fp, gen, n, inputs);
    }
  }

  /** Every call of the store, failed or not, only adds to the end of the log. */
  lemma CallGrows(m: Machine, fp: Fingerprint, gen: nat -> Ticket, call: Call)
    ensures Grows(m.state, Step(m, fp, gen, call).state)
  {
    match call
    case Single(input) => AppendGrows(m.state, fp, input, gen(m.issued));
    case Batch(inputs) => BatchGrows(m.state, fp, gen, m.issued, inputs);
  }

  lemma {:induction false} ScopedGrows(a: seq<Stored>, b: seq<Stored>, scope: string)
    requires a <= b
    ensures Scoped(a, scope) <= Scoped(b, scope)
    decreases |b|
  {
    if |a| == |b| {
      assert a == b;
    } else {
      ScopedGrows(a, b[..|b| - 1], scope);
    }
  }

  /** A log observed over time: agreed at every moment and only ever growing. */
  ghost predicate Timeline(states: nat -> State, fp: Fingerprint) {
    forall n: nat :: Moment(states, fp, n)
  }

  ghost predicate Moment(states: nat -> State, fp: Fingerprint, n: nat) {
    Agreed(states(n), fp) && Grows(states(n), states(n + 1))
  }

  lemma {:induction false} TimelineGrows(states: nat -> State, fp: Fingerprint, n: nat, m: nat)
    requires Timeline(states, fp) && n <= m
    ensures Grows(states(n), states(m))
    decreases m - n
  {
    if n < m {
      TimelineGrows(states, fp, n, m - 1);
      assert Moment(states, fp, m - 1);
    }
  }

  /** A client's position in the stream of a scope and the cursor that stands for it. */
  ghost predicate At(state: State, scope: string, position: nat, cursor: Option<string>) {
    var scoped := Scoped(state.events, scope);
    && position <= |scoped|
    && cursor == if position == 0 then None else Some(scoped[position - 1].event.cursor)
  }

  /** A position keeps its cursor as the log grows. */
  lemma PositionIsStable(a: State, b: State, scope: string, position: nat, cursor: Option<string>)
    requires Grows(a, b) && At(a, scope, position, cursor)
    ensures At(b, scope, position, cursor)
  {
    ScopedGrows(a.events, b.events, scope);
  }

  /** One page read at a position: the events that follow it, and the cursor of where they end. */
  lemma PageAt(state: State, scope: string, position: nat, cursor: Option<string>, limit: int)
    requires DistinctCursors(Scoped(state.events, scope)) && At(state, scope, position, cursor)
    requires 1 <= limit <= MAX_REPLAY_LIMIT
    ensures var scoped := EventsOf(Scoped(state.events, scope));
            var to := Min(position + limit, |scoped|);
            ReplayPage(state, scope, cursor, limit)
            == Ok(Page(scoped[position..to], if position < to then Some(scoped[to - 1].cursor) else None))
  {
    hide DistinctCursors, Scoped, Slice, FindReplayStart;
    var scoped := Scoped(state.events, scope);
    StartAt(scoped, position, cursor);
    SliceIsSlice(scoped, position, limit);
  }

  lemma StartAt(scoped: seq<Stored>, position: nat, cursor: Option<string>)
    requires DistinctCursors(scoped) && position <= |scoped|
    requires cursor == if position == 0 then None else Some(scoped[position - 1].event.cursor)
    ensures FindReplayStart(scoped, cursor) == Ok(position)
  {
    hide DistinctCursors;
    if position > 0 { CursorNamesPosition(scoped, position - 1); }
  }

  lemma SliceIsSlice(scoped: seq<Stored>, from: nat, limit: nat)
    requires from <= |scoped|
    ensures EventsOf(Slice(scoped, from, from + limit)) == EventsOf(scoped)[from..Min(from + limit, |scoped|)]
  {
  }

  /** The page goes on from the place that `after` names: the beginning, or the event with that cursor. */
  ghost predicate ReadsOn(state: State, scope: string, after: Option<string>, limit: int, page: Page)
    requires limit >= 0
  {
    var all := EventsOf(Scoped(state.events, scope));
    exists position: nat :: At(state, scope, position, after) && position <= |all| &&
      var to := Min(position + limit, |all|);
      page == Page(all[position..to], if position < to then Some(all[to - 1].cursor) else None)
  }

  /** Whether the scope has a place of that name. */
  ghost predicate HasPlace(state: State, scope: string, after: Option<string>) {
    after.None?
    || exists e :: e in state.events && e.event.cursor == after.value && ScopeKey(e.event.input) == scope
  }

  /** A request is answered exactly when its limit is valid and its place exists, with the page that follows it. */
  lemma PageMeaning(state: State, fp: Fingerprint, scope: string, after: Option<string>, limit: int)
    requires Agreed(state, fp)
    ensures var r := ReplayPage(state, scope, after, limit);
            && (r == Err(InvalidReplayLimit) <==> !(1 <= limit <= 1000))
            && (r == Err(CursorNotFound) <==> 1 <= limit <= 1000 && !HasPlace(state, scope, after))
            && (r.Ok? <==> 1 <= limit <= 1000 && HasPlace(state, scope, after))
            && (r.Ok? ==> ReadsOn(state, scope, after, limit, r.value))
  {
    hide Agreed, Scoped, ReadsOn;
    if 1 <= limit <= MAX_REPLAY_LIMIT {
      if after.Some? { PageNeedsCursor(state, scope, after.value, limit); }
      if after.None? {
        ReadFrom(state, fp, scope, 0, after, limit);
      } else {
        CursorBelongsToScope(state, fp, scope, after.value, limit);
        if ReplayPage(state, scope, after, limit).Ok? {
          var scoped := Scoped(state.events, scope);
          FindCursorMeaning(scoped, after.value);
          ReadFrom(state, fp, scope, FindCursor(scoped, after.value).value + 1, after, limit);
        }
      }
    }
  }

  lemma ReadFrom(state: State, fp: Fingerprint, scope: string, position: nat, after: Option<string>, limit: int)
    requires Agreed(state, fp) && At(state, scope, position, after) && 1 <= limit <= MAX_REPLAY_LIMIT
    ensures ReplayPage(state, scope, after, limit).Ok?
    ensures ReadsOn(state, scope, after, limit, ReplayPage(state, scope, after, limit).value)
  {
    hide Agreed, ReplayPage, Scoped;
    ScopeHasDistinctCursors(state, fp, scope);
    PageAt(state, scope, position, after, limit);
  }

  /** The events a client collects with requests `n` to `until`, the nth made when the log is `states(n)`. */
  ghost function Collect(
    states: nat -> State, scope: string, cursor: Option<string>, limits: nat -> int, n: nat, until: nat)
    : seq<PlatformEvent>
    requires n <= until
    decreases until - n
  {
    if n == until then []
    else
      match ReplayPage(states(n), scope, cursor, limits(n))
      case Err(_) => []
      case Ok(page) =>
        var next := if page.nextCursor.Some? then page.nextCursor else cursor;
        page.events + Collect(states, scope, next, limits, n + 1, until)
  }

  /** One request moves the client forward over exactly the events it returns. */
  lemma CollectStep(
    states: nat -> State, fp: Fingerprint, scope: string, position: nat, cursor: Option<string>,
    limits: nat -> int, n: nat, until: nat)
    returns (to: nat, next: Option<string>)
    requires Timeline(states, fp) && At(states(n), scope, position, cursor)
    requires ValidLimits(limits) && n < until
    ensures position <= to <= |EventsOf(Scoped(states(n).events, scope))| && At(states(n + 1), scope, to, next)
    ensures position < to || to == |EventsOf(Scoped(states(n).events, scope))|
    ensures Collect(states, scope, cursor, limits, n, until)
            == EventsOf(Scoped(states(n).events, scope))[position..to]
               + Collect(states, scope, next, limits, n + 1, until)
  {
    hide Timeline, Scoped, ReplayPage, DistinctCursors, Grows, ValidLimits;
    assert 1 <= limits(n) <= MAX_REPLAY_LIMIT by { LimitIsValid(limits, n); }
    MomentFacts(states, fp, scope, n);
    PageAt(states(n), scope, position, cursor, limits(n));
    var page := ReplayPage(states(n), scope, cursor, limits(n)).value;
    to := Min(position + limits(n), |Scoped(states(n).events, scope)|);
    next := if page.nextCursor.Some? then page.nextCursor else cursor;
    PositionIsStable(states(n), states(n + 1), scope, to, next);
  }

  lemma LimitIsValid(limits: nat -> int, n: nat)
    requires ValidLimits(limits)
    ensures 1 <= limits(n) <= MAX_REPLAY_LIMIT
  {
  }

  /** `got` is what the stream holds right after `position`. */
  ghost predicate Follows(stream: seq<PlatformEvent>, position: nat, got: seq<PlatformEvent>) {
    position + |got| <= |stream| && got == stream[position..position + |got|]
  }

  /**
    Whatever is appended between the requests, and whatever the limits, the pages that follow a
    position are the events right after it in the final stream, without a gap or a repeat.
  */
  lemma {:induction false} CollectIsContiguous(
    states: nat -> State, fp: Fingerprint, scope: string, position: nat, cursor: Option<string>,
    limits: nat -> int, n: nat, until: nat)
    requires Timeline(states, fp) && ValidLimits(limits) && n <= until && At(states(n), scope, position, cursor)
    ensures Follows(EventsOf(Scoped(states(until).events, scope)), position,
                    Collect(states, scope, cursor, limits, n, until))
    decreases until - n
  {
    hide *;
    if n < until {
      var final, here := EventsOf(Scoped(states(until).events, scope)), EventsOf(Scoped(states(n).events, scope));
      HereIsPrefix(states, fp, scope, n, until);
      var to, next := CollectStep(states, fp, scope, position, cursor, limits, n, until);
      CollectIsContiguous(states, fp, scope, to, next, limits, n + 1, until);
      Glue(here, final, position, to, Collect(states, scope, next, limits, n + 1, until));
    } else {
      CollectNothing(states, scope, position, cursor, limits, n);
    }
  }

  lemma CollectNothing(
    states: nat -> State, scope: string, position: nat, cursor: Option<string>, limits: nat -> int, n: nat)
    requires At(states(n), scope, position, cursor)
    ensures Follows(EventsOf(Scoped(states(n).events, scope)), position, Collect(states, scope, cursor, limits, n, n))
  {
  }

  lemma HereIsPrefix(states: nat -> State, fp: Fingerprint, scope: string, n: nat, m: nat)
    requires Timeline(states, fp) && n <= m
    ensures EventsOf(Scoped(states(n).events, scope)) <= EventsOf(Scoped(states(m).events, scope))
  {
    TimelineGrows(states, fp, n, m);
    ScopedGrows(states(n).events, states(m).events, scope);
  }

  lemma MomentFacts(states: nat -> State, fp: Fingerprint, scope: string, n: nat)
    requires Timeline(states, fp)
    ensures DistinctCursors(Scoped(states(n).events, scope)) && Grows(states(n), states(n + 1))
  {
    assert Moment(states, fp, n);
    ScopeHasDistinctCursors(states(n), fp, scope);
  }

  lemma Glue(here: seq<PlatformEvent>, final: seq<PlatformEvent>, from: nat, to: nat, rest: seq<PlatformEvent>)
    requires here <= final && from <= to <= |here| && Follows(final, to, rest)
    ensures Follows(final, from, here[from..to] + rest)
  {
  }

  /** Reading a scope from its beginning collects a prefix of what the scope finally holds. */
  lemma CollectIsPrefix(states: nat -> State, fp: Fingerprint, scope: string, limits: nat -> int, until: nat)
    requires Timeline(states, fp) && ValidLimits(limits)
    ensures Collect(states, scope, None, limits, 0, until) <= EventsOf(Scoped(states(until).events, scope))
  {
    CollectIsContiguous(states, fp, scope, 0, None, limits, 0, until);
  }

  // ----- the states of a run are such a timeline -----

  /** When each request is made: after how many of the calls. */
  ghost predicate Schedule(at: nat -> nat, calls: seq<Call>) {
    && (forall k: nat :: at(k) <= |calls|)
    && (forall k: nat, l: nat :: k <= l ==> at(k) <= at(l))
  }

  /** The log as the kth request finds it, in a run of appends and batches on a new store. */
  function StateAt(fp: Fingerprint, gen: nat -> Ticket, calls: seq<Call>, n: nat): State
    requires n <= |calls|
  {
    Run(Machine(EMPTY, 0), fp, gen, calls[..n]).state
  }

  lemma {:induction false} RunSplits(m: Machine, fp: Fingerprint, gen: nat -> Ticket, a: seq<Call>, b: seq<Call>)
    ensures Run(m, fp, gen, a + b) == Run(Run(m, fp, gen, a), fp, gen, b)
    decreases |a|
  {
    hide Step;
    if a == [] {
      assert a + b == b;
    } else {
      assert (a + b)[0] == a[0] && (a + b)[1..] == a[1..] + b;
      RunSplits(Step(m, fp, gen, a[0]), fp, gen, a[1..], b);
    }
  }

  lemma {:induction false} RunGrows(m: Machine, fp: Fingerprint, gen: nat -> Ticket, calls: seq<Call>)
    ensures Grows(m.state, Run(m, fp, gen, calls).state)
    decreases |calls|
  {
    hide Step;
    if calls != [] {
      CallGrows(m, fp, gen, calls[0]);
      RunGrows(Step(m, fp, gen, calls[0]), fp, gen, calls[1..]);
    }
  }

  lemma LaterStateGrows(fp: Fingerprint, gen: nat -> Ticket, calls: seq<Call>, n: nat, m: nat)
    requires n <= m <= |calls|
    ensures Grows(StateAt(fp, gen, calls, n), StateAt(fp, gen, calls, m))
  {
    hide Run, Grows;
    assert calls[..m] == calls[..n] + calls[n..m];
    RunSplits(Machine(EMPTY, 0), fp, gen, calls[..n], calls[n..m]);
    RunGrows(Run(Machine(EMPTY, 0), fp, gen, calls[..n]), fp, gen, calls[n..m]);
  }

  /** The states that a client's requests find during a run of the store form a timeline. */
  lemma RunIsTimeline(
    states: nat -> State, fp: Fingerprint, gen: nat -> Ticket, calls: seq<Call>, at: nat -> nat)
    requires Schedule(at, calls) && forall k: nat :: states(k) == StateAt(fp, gen, calls, at(k))
    ensures Timeline(states, fp)
  {
    hide StateAt, Agreed, Grows;
    forall k: nat ensures Moment(states, fp, k) {
      StateAtAgrees(fp, gen, calls, at(k));
      LaterStateGrows(fp, gen, calls, at(k), at(k + 1));
    }
  }

  lemma StateAtAgrees(fp: Fingerprint, gen: nat -> Ticket, calls: seq<Call>, n: nat)
    requires n <= |calls|
    ensures Agreed(StateAt(fp, gen, calls, n), fp)
  {
    hide Agreed, Run;
    EveryRunAgrees(fp, gen, calls[..n]);
  }

  /**
    Paging a scope of a store while appends and batches go on: whatever calls are made between the
    requests and whatever the limits, the pages collected so far are a prefix of what the scope holds
    at the end of the run.
  */
  lemma PagingDuringARun(
    states: nat -> State, fp: Fingerprint, gen: nat -> Ticket, calls: seq<Call>, at: nat -> nat,
    scope: string, limits: nat -> int, until: nat)
    requires Schedule(at, calls) && ValidLimits(limits)
    requires forall k: nat :: states(k) == StateAt(fp, gen, calls, at(k))
    ensures Collect(states, scope, None, limits, 0, until)
            <= EventsOf(Scoped(Run(Machine(EMPTY, 0), fp, gen, calls).state.events, scope))
  {
    RunIsTimeline(states, fp, gen, calls, at);
    CollectIsPrefix(states, fp, scope, limits, until);
    var now, end := StateAt(fp, gen, calls, at(until)), StateAt(fp, gen, calls, |calls|);
    assert calls[..|calls|] == calls;
    LaterStateGrows(fp, gen, calls, at(until), |calls|);
    EventsGrow(now, end, scope);
  }

  lemma EventsGrow(a: State, b: State, scope: string)
    requires Grows(a, b)
    ensures EventsOf(Scoped(a.events, scope)) <= EventsOf(Scoped(b.events, scope))
  {
    ScopedGrows(a.events, b.events, scope);
  }

  /** Once the log is at rest, every request moves the client on until it is at the end. */
  lemma {:induction false} CollectedLength(
    states: nat -> State, fp: Fingerprint, scope: string, limits: nat -> int,
    position: nat, cursor: Option<string>, n: nat, from: nat, until: nat)
    requires Timeline(states, fp) && ValidLimits(limits) && n <= until && from <= until
    requires At(states(n), scope, position, cursor)
    requires forall k: nat :: from <= k ==> states(k) == states(from)
    ensures var all, got := |Scoped(states(from).events, scope)|, |Collect(states, scope, cursor, limits, n, until)|;
            position + got >= Min(all, if n < from then until - from else position + (until - n))
    decreases until - n
  {
    hide Timeline, At, ValidLimits, Scoped;
    if n < until {
      var to, next := CollectStep(states, fp, scope, position, cursor, limits, n, until);
      CollectedLength(states, fp, scope, limits, to, next, n + 1, from, until);
    }
  }

  /** Enough requests after the last call collect everything: no event of the scope is left out. */
  lemma PagingCatchesUp(states: nat -> State, fp: Fingerprint, scope: string, limits: nat -> int, from: nat, until: nat)
    requires Timeline(states, fp) && ValidLimits(limits) && from <= until
    requires forall k: nat :: from <= k ==> states(k) == states(from)
    requires until - from >= |Scoped(states(from).events, scope)|
    ensures Collect(states, scope, None, limits, 0, until) == EventsOf(Scoped(states(until).events, scope))
  {
    CollectIsPrefix(states, fp, scope, limits, until);
    CollectedLength(states, fp, scope, limits, 0, None, 0, from, until);
  }
}

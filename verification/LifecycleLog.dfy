/** The lifecycle event log as a value: appending, atomic batches and the invariant of its three indexes. */
module LifecycleLog {
  import opened Wrappers
  import JsonText
  import opened LifecycleProtocol
  import opened Separators

  const MAX_SAFE_INTEGER: int := 9007199254740991

  datatype Stored = Stored(event: Event, fingerprint: JsonText.Text)

  datatype StoreError =
    | MalformedEvent
    | IdempotencyConflict
    | EventIdConflict
    | TerminalStream
    | SequenceGap
    | InvalidReplayLimit
    | CursorNotFound
    | CorruptEventStream

  datatype Log = Log(byTurn: map<string, seq<Stored>>, byId: map<string, Stored>, byKey: map<string, Stored>)

  datatype Appended = Appended(log: Log, event: Event)

  datatype AppendedAll = AppendedAll(log: Log, events: seq<Event>)

  type Fingerprint = Event -> JsonText.Text

  const EMPTY := Log(map[], map[], map[])

  /** What the event schema guarantees and the store relies on: no colon in a turn id, a safe sequence. */
  predicate WellFormed(e: Event) {
    ':' !in e.turnId && e.sequence <= MAX_SAFE_INTEGER
  }

  function Key(e: Event): string {
    e.turnId + ":" + e.idempotencyKey
  }

  function Stream(log: Log, turnId: string): seq<Stored> {
    if turnId in log.byTurn then log.byTurn[turnId] else []
  }

  function AppendOne(log: Log, fp: Fingerprint, e: Event): Result<Appended, StoreError> {
    if Key(e) in log.byKey then
      var existing := log.byKey[Key(e)];
      if existing.fingerprint != fp(e) then Err(IdempotencyConflict) else Ok(Appended(log, existing.event))
    else
      var _ :- AssertAppendable(log, e);
      Ok(Appended(Insert(log, Stored(e, fp(e))), e))
  }

  function AssertAppendable(log: Log, e: Event): Result<(), StoreError> {
    var events := Stream(log, e.turnId);
    var previous := if events == [] then 0 else events[|events| - 1].event.sequence;
    if e.eventId in log.byId then Err(EventIdConflict)
    else if events != [] && IsTerminalEvent(events[|events| - 1].event) then Err(TerminalStream)
    else if e.sequence != previous + 1 then Err(SequenceGap)
    else Ok(())
  }

  function Insert(log: Log, stored: Stored): Log {
    var e := stored.event;
    Log(log.byTurn[e.turnId := Stream(log, e.turnId) + [stored]],
        log.byId[e.eventId := stored],
        log.byKey[Key(e) := stored])
  }

  function AppendAll(log: Log, fp: Fingerprint, es: seq<Event>): Result<AppendedAll, StoreError>
    decreases |es|
  {
    if es == [] then Ok(AppendedAll(log, []))
    else
      var first :- AppendOne(log, fp, es[0]);
      var rest :- AppendAll(first.log, fp, es[1..]);
      Ok(AppendedAll(rest.log, [first.event] + rest.events))
  }

  /** A batch is parsed as a whole before any of it is appended. */
  function AppendBatch(log: Log, fp: Fingerprint, es: seq<Event>): Result<AppendedAll, StoreError> {
    if exists e :: e in es && !WellFormed(e) then Err(MalformedEvent) else AppendAll(log, fp, es)
  }

  /** The log a batch leaves behind: the old one unless every event went in. */
  function AfterBatch(log: Log, fp: Fingerprint, es: seq<Event>): Log {
    var r := AppendBatch(log, fp, es);
    if r.Ok? then r.value.log else log
  }

  function RunBatches(log: Log, fp: Fingerprint, batches: seq<seq<Event>>): Log
    decreases |batches|
  {
    if batches == [] then log else RunBatches(AfterBatch(log, fp, batches[0]), fp, batches[1..])
  }

  // ----- the invariant -----

  /** `stored` sits at the position of its own stream that its sequence names. */
  ghost predicate Holds(log: Log, stored: Stored) {
    var s := Stream(log, stored.event.turnId);
    1 <= stored.event.sequence <= |s| && s[stored.event.sequence - 1] == stored
  }

  /** Positions are sequences, one turn per stream, and a terminal event only at the end. */
  ghost predicate StreamSound(s: seq<Stored>, turnId: string, fp: Fingerprint) {
    forall i :: 0 <= i < |s| ==>
      && s[i].event.sequence == i + 1
      && s[i].event.turnId == turnId
      && s[i].fingerprint == fp(s[i].event)
      && WellFormed(s[i].event)
      && (i < |s| - 1 ==> !IsTerminalEvent(s[i].event))
  }

  /** Every position of every stream is what both indexes hold under its id and its key. */
  ghost predicate Indexed(log: Log) {
    forall t, i :: t in log.byTurn && 0 <= i < |log.byTurn[t]| ==>
      && Get(log.byId, log.byTurn[t][i].event.eventId) == Some(log.byTurn[t][i])
      && Get(log.byKey, Key(log.byTurn[t][i].event)) == Some(log.byTurn[t][i])
  }

  /** Both indexes hold nothing but positions of streams. */
  ghost predicate Backed(log: Log) {
    && (forall k :: k in log.byId ==> log.byId[k].event.eventId == k && Holds(log, log.byId[k]))
    && (forall k :: k in log.byKey ==> Key(log.byKey[k].event) == k && Holds(log, log.byKey[k]))
  }

  ghost predicate Sound(log: Log, fp: Fingerprint) {
    && (forall t :: t in log.byTurn ==> StreamSound(log.byTurn[t], t, fp))
    && Indexed(log)
    && Backed(log)
  }

  lemma InsertKeepsStreams(log: Log, fp: Fingerprint, e: Event)
    requires (forall t :: t in log.byTurn ==> StreamSound(log.byTurn[t], t, fp)) && WellFormed(e)
    requires AssertAppendable(log, e).Ok?
    ensures e.sequence == |Stream(log, e.turnId)| + 1
    ensures var next := Insert(log, Stored(e, fp(e)));
            forall t :: t in next.byTurn ==> StreamSound(next.byTurn[t], t, fp)
  {
    var next, prior := Insert(log, Stored(e, fp(e))), Stream(log, e.turnId);
    if e.turnId in log.byTurn { assert StreamSound(log.byTurn[e.turnId], e.turnId, fp); }
    assert next.byTurn[e.turnId] == prior + [Stored(e, fp(e))];
    assert StreamSound(next.byTurn[e.turnId], e.turnId, fp);
  }

  lemma InsertKeepsIndexed(log: Log, stored: Stored)
    requires Indexed(log) && stored.event.eventId !in log.byId && Key(stored.event) !in log.byKey
    ensures Indexed(Insert(log, stored))
  {
    var next, turn := Insert(log, stored), stored.event.turnId;
    forall t, i | t in next.byTurn && 0 <= i < |next.byTurn[t]|
      ensures Get(next.byId, next.byTurn[t][i].event.eventId) == Some(next.byTurn[t][i])
      ensures Get(next.byKey, Key(next.byTurn[t][i].event)) == Some(next.byTurn[t][i])
    {
      if t != turn || i < |Stream(log, turn)| { assert log.byTurn[t][i] == next.byTurn[t][i]; }
    }
  }

  lemma InsertKeepsBacked(log: Log, stored: Stored)
    requires Backed(log) && stored.event.sequence == |Stream(log, stored.event.turnId)| + 1
    ensures Backed(Insert(log, stored))
  {
    forall st | Holds(log, st) ensures Holds(Insert(log, stored), st) { InsertKeepsHeld(log, stored, st); }
  }

  lemma InsertKeepsSound(log: Log, fp: Fingerprint, e: Event)
    requires Sound(log, fp) && WellFormed(e)
    requires Key(e) !in log.byKey && AssertAppendable(log, e).Ok?
    ensures Sound(Insert(log, Stored(e, fp(e))), fp)
  {
    InsertKeepsStreams(log, fp, e);
    InsertKeepsIndexed(log, Stored(e, fp(e)));
    InsertKeepsBacked(log, Stored(e, fp(e)));
  }

  lemma InsertKeepsHeld(log: Log, stored: Stored, st: Stored)
    requires Holds(log, st)
    ensures Holds(Insert(log, stored), st)
  {
  }

  lemma AppendOneKeepsSound(log: Log, fp: Fingerprint, e: Event)
    requires Sound(log, fp) && WellFormed(e) && AppendOne(log, fp, e).Ok?
    ensures Sound(AppendOne(log, fp, e).value.log, fp)
  {
    if Key(e) !in log.byKey { InsertKeepsSound(log, fp, e); }
  }

  lemma {:induction false} AppendAllKeepsSound(log: Log, fp: Fingerprint, es: seq<Event>)
    requires Sound(log, fp) && (forall e :: e in es ==> WellFormed(e)) && AppendAll(log, fp, es).Ok?
    ensures Sound(AppendAll(log, fp, es).value.log, fp)
    decreases |es|
  {
    if es != [] {
      AppendOneKeepsSound(log, fp, es[0]);
      AppendAllKeepsSound(AppendOne(log, fp, es[0]).value.log, fp, es[1..]);
    }
  }

  lemma AfterBatchKeepsSound(log: Log, fp: Fingerprint, es: seq<Event>)
    requires Sound(log, fp)
    ensures Sound(AfterBatch(log, fp, es), fp)
  {
    if AppendBatch(log, fp, es).Ok? { AppendAllKeepsSound(log, fp, es); }
  }

  lemma {:induction false} RunKeepsSound(log: Log, fp: Fingerprint, batches: seq<seq<Event>>)
    requires Sound(log, fp)
    ensures Sound(RunBatches(log, fp, batches), fp)
    decreases |batches|
  {
    if batches != [] {
      AfterBatchKeepsSound(log, fp, batches[0]);
      RunKeepsSound(AfterBatch(log, fp, batches[0]), fp, batches[1..]);
    }
  }

  /** Every log reached by any run of appends and batches, failed ones included, is sound. */
  lemma EveryRunIsSound(fp: Fingerprint, batches: seq<seq<Event>>)
    ensures Sound(RunBatches(EMPTY, fp, batches), fp)
  {
    RunKeepsSound(EMPTY, fp, batches);
  }

  /** No event id and no idempotency key occurs at two positions of a sound log. */
  lemma PositionsHaveOwnIdentity(log: Log, fp: Fingerprint, t: string, i: nat, u: string, j: nat)
    requires Sound(log, fp)
    requires t in log.byTurn && i < |log.byTurn[t]| && u in log.byTurn && j < |log.byTurn[u]|
    requires t != u || i != j
    ensures log.byTurn[t][i].event.eventId != log.byTurn[u][j].event.eventId
    ensures Key(log.byTurn[t][i].event) != Key(log.byTurn[u][j].event)
  {
    assert StreamSound(log.byTurn[t], t, fp) && StreamSound(log.byTurn[u], u, fp);
    var a, b := log.byTurn[t][i], log.byTurn[u][j];
    assert a.event.turnId == t && a.event.sequence == i + 1 && b.event.turnId == u && b.event.sequence == j + 1;
    assert Get(log.byId, a.event.eventId) == Some(a) && Get(log.byId, b.event.eventId) == Some(b);
    assert Get(log.byKey, Key(a.event)) == Some(a) && Get(log.byKey, Key(b.event)) == Some(b);
  }

  /** Two well-formed events share a key only when they share both the turn and the idempotency key. */
  lemma KeyIdentifies(e: Event, f: Event)
    requires WellFormed(e) && WellFormed(f)
    ensures Key(e) == Key(f) <==> e.turnId == f.turnId && e.idempotencyKey == f.idempotencyKey
  {
    if Key(e) == Key(f) { SplitAtColon(e.turnId, f.turnId, e.idempotencyKey, f.idempotencyKey); }
  }

  // ----- what an append is answered with -----

  /** An event of the turn, stored under the idempotency key of `e`. */
  ghost predicate SameKey(log: Log, e: Event, st: Stored) {
    st in Stream(log, e.turnId) && st.event.idempotencyKey == e.idempotencyKey
  }

  ghost predicate HasId(log: Log, eventId: string) {
    exists t, st :: t in log.byTurn && st in log.byTurn[t] && st.event.eventId == eventId
  }

  /** The stream holds the event that settles its turn. */
  ghost predicate HasSettled(log: Log, turnId: string) {
    exists st :: st in Stream(log, turnId) && Settles(st.event.body)
  }

  predicate Settles(body: Body) {
    body.Turn? && !body.turn.Queued? && !body.turn.Started? && !body.turn.BlockingChanged?
  }

  /**
    The answer to an append and the log after it, said of the streams. A known key is answered with its
    event or is a conflict; otherwise the append is refused for a taken id, a settled turn or a wrong
    sequence, in this order, and else the event goes to the end of its stream and nothing else moves.
  */
  ghost predicate AnswersAppend(log: Log, fp: Fingerprint, e: Event, r: Result<Event, StoreError>, n: Log) {
    if exists st :: SameKey(log, e, st) then
      && n == log
      && exists st :: SameKey(log, e, st)
                      && r == (if st.fingerprint == fp(e) then Ok(st.event) else Err(IdempotencyConflict))
    else if HasId(log, e.eventId) then r == Err(EventIdConflict) && n == log
    else if HasSettled(log, e.turnId) then r == Err(TerminalStream) && n == log
    else if e.sequence != |Stream(log, e.turnId)| + 1 then r == Err(SequenceGap) && n == log
    else
      && r == Ok(e)
      && Stream(n, e.turnId) == Stream(log, e.turnId) + [Stored(e, fp(e))]
      && forall t :: t != e.turnId ==> Stream(n, t) == Stream(log, t)
  }

  lemma StreamIsSound(log: Log, fp: Fingerprint, t: string)
    requires Sound(log, fp)
    ensures StreamSound(Stream(log, t), t, fp)
  {
  }

  lemma KeyLeadsToStream(log: Log, fp: Fingerprint, e: Event)
    requires Sound(log, fp) && WellFormed(e) && Key(e) in log.byKey
    ensures SameKey(log, e, log.byKey[Key(e)])
  {
    var st := log.byKey[Key(e)];
    var s := Stream(log, st.event.turnId);
    StreamIsSound(log, fp, st.event.turnId);
    assert s[st.event.sequence - 1] == st;
    KeyIdentifies(st.event, e);
  }

  lemma StreamIsKeyed(log: Log, fp: Fingerprint, e: Event, st: Stored)
    requires Sound(log, fp) && SameKey(log, e, st)
    ensures Key(e) in log.byKey
  {
    StreamIsSound(log, fp, e.turnId);
    var i :| 0 <= i < |log.byTurn[e.turnId]| && log.byTurn[e.turnId][i] == st;
    assert st.event.turnId == e.turnId;
    assert Get(log.byKey, Key(log.byTurn[e.turnId][i].event)) == Some(st);
  }

  lemma KeyIsInStream(log: Log, fp: Fingerprint, e: Event)
    requires Sound(log, fp) && WellFormed(e)
    ensures Key(e) in log.byKey <==> exists st :: SameKey(log, e, st)
    ensures Key(e) in log.byKey ==> SameKey(log, e, log.byKey[Key(e)])
  {
    hide *;
    if Key(e) in log.byKey { KeyLeadsToStream(log, fp, e); }
    if st :| SameKey(log, e, st) { StreamIsKeyed(log, fp, e, st); }
  }

  lemma IdIsInStream(log: Log, fp: Fingerprint, eventId: string)
    requires Sound(log, fp)
    ensures eventId in log.byId <==> HasId(log, eventId)
  {
    if eventId in log.byId {
      var st := log.byId[eventId];
      assert log.byTurn[st.event.turnId][st.event.sequence - 1] == st;
    }
    if t, st :| t in log.byTurn && st in log.byTurn[t] && st.event.eventId == eventId {
      var i :| 0 <= i < |log.byTurn[t]| && log.byTurn[t][i] == st;
    }
  }

  lemma EndTells(log: Log, fp: Fingerprint, e: Event)
    requires Sound(log, fp) && e.eventId !in log.byId
    ensures AssertAppendable(log, e)
            == if HasSettled(log, e.turnId) then Err(TerminalStream)
               else if e.sequence != |Stream(log, e.turnId)| + 1 then Err(SequenceGap)
               else Ok(())
  {
    var s := Stream(log, e.turnId);
    StreamIsSound(log, fp, e.turnId);
    if s != [] { assert s[|s| - 1] in s; }
    if HasSettled(log, e.turnId) {
      var st :| st in s && Settles(st.event.body);
      var i :| 0 <= i < |s| && s[i] == st;
    }
  }

  /** Every append to a sound log is answered so. */
  lemma AppendAnswers(log: Log, fp: Fingerprint, e: Event)
    requires Sound(log, fp) && WellFormed(e)
    ensures var r := AppendOne(log, fp, e);
            && (r.Ok? ==> AnswersAppend(log, fp, e, Ok(r.value.event), r.value.log))
            && (r.Err? ==> AnswersAppend(log, fp, e, Err(r.error), log))
  {
    hide Sound, WellFormed, Key, SameKey, HasId, HasSettled, AssertAppendable;
    KeyIsInStream(log, fp, e);
    if Key(e) !in log.byKey {
      IdIsInStream(log, fp, e.eventId);
      if e.eventId in log.byId { TakenId(log, e); } else { EndTells(log, fp, e); }
    }
  }

  lemma TakenId(log: Log, e: Event)
    requires e.eventId in log.byId
    ensures AssertAppendable(log, e) == Err(EventIdConflict)
  {
  }

  // ----- batches against single appends -----

  /** Appending one event after the other, each with its own call, stopping at the first failure. */
  function AppendSingly(log: Log, fp: Fingerprint, es: seq<Event>): Result<AppendedAll, StoreError>
    decreases |es|
  {
    if es == [] then Ok(AppendedAll(log, []))
    else
      var first :- AppendBatch(log, fp, [es[0]]);
      var rest :- AppendSingly(first.log, fp, es[1..]);
      Ok(AppendedAll(rest.log, first.events + rest.events))
  }

  lemma BatchOfOne(log: Log, fp: Fingerprint, e: Event)
    ensures AppendBatch(log, fp, [e]) ==
            if !WellFormed(e) then Err(MalformedEvent)
            else match AppendOne(log, fp, e)
              case Ok(a) => Ok(AppendedAll(a.log, [a.event]))
              case Err(error) => Err(error)
  {
    assert [e][1..] == [];
    assert e in [e];
    if AppendOne(log, fp, e).Ok? {
      var a := AppendOne(log, fp, e).value;
      assert AppendAll(a.log, fp, []) == Ok(AppendedAll(a.log, []));
      assert [a.event] + [] == [a.event];
    }
  }

  lemma {:induction false} SinglyIsAll(log: Log, fp: Fingerprint, es: seq<Event>)
    requires forall e :: e in es ==> WellFormed(e)
    ensures AppendSingly(log, fp, es) == AppendAll(log, fp, es)
    decreases |es|
  {
    if es != [] {
      var first := AppendOne(log, fp, es[0]);
      BatchOfOne(log, fp, es[0]);
      assert WellFormed(es[0]);
      if first.Ok? {
        SinglyIsAll(first.value.log, fp, es[1..]);
      }
    }
  }

  lemma {:induction false} SinglyRejectsMalformed(log: Log, fp: Fingerprint, es: seq<Event>)
    requires exists e :: e in es && !WellFormed(e)
    ensures AppendSingly(log, fp, es).Err?
    decreases |es|
  {
    BatchOfOne(log, fp, es[0]);
    if WellFormed(es[0]) && AppendOne(log, fp, es[0]).Ok? {
      var e :| e in es && !WellFormed(e);
      assert e in es[1..];
      SinglyRejectsMalformed(AppendOne(log, fp, es[0]).value.log, fp, es[1..]);
    }
  }

  /**
    A batch succeeds exactly when appending its events one at a time does, and then leaves the same
    log and returns the same events; when it fails, the log is the one from before.
  */
  lemma BatchRefinesSingles(log: Log, fp: Fingerprint, es: seq<Event>)
    ensures AppendBatch(log, fp, es).Ok? <==> AppendSingly(log, fp, es).Ok?
    ensures AppendBatch(log, fp, es).Ok? ==> AppendBatch(log, fp, es) == AppendSingly(log, fp, es)
    ensures AppendBatch(log, fp, es).Err? ==> AfterBatch(log, fp, es) == log
  {
    if exists e :: e in es && !WellFormed(e) {
      SinglyRejectsMalformed(log, fp, es);
    } else {
      SinglyIsAll(log, fp, es);
    }
  }

  // ----- exactly-once appends -----

  /** The log holds exactly this event. */
  ghost predicate Held(log: Log, fp: Fingerprint, e: Event) {
    Holds(log, Stored(e, fp(e)))
  }

  lemma ResendReturnsStored(log: Log, fp: Fingerprint, e: Event)
    requires Sound(log, fp) && Held(log, fp, e)
    ensures WellFormed(e)
    ensures AppendOne(log, fp, e) == Ok(Appended(log, e))
  {
    var s := log.byTurn[e.turnId];
    assert StreamSound(s, e.turnId, fp);
    assert Get(log.byKey, Key(s[e.sequence - 1].event)) == Some(s[e.sequence - 1]);
  }

  lemma AppendKeepsHeld(log: Log, fp: Fingerprint, e: Event, f: Event)
    requires AppendOne(log, fp, e).Ok? && Held(log, fp, f)
    ensures Held(AppendOne(log, fp, e).value.log, fp, f)
  {
    if Key(e) !in log.byKey { InsertKeepsHeld(log, Stored(e, fp(e)), Stored(f, fp(f))); }
  }

  lemma AcceptedIsHeld(log: Log, fp: Fingerprint, e: Event)
    requires Sound(log, fp) && AppendOne(log, fp, e).Ok? && Key(e) !in log.byKey
    ensures Held(AppendOne(log, fp, e).value.log, fp, e)
  {
    if e.turnId in log.byTurn { assert StreamSound(log.byTurn[e.turnId], e.turnId, fp); }
  }

  /** A producer's history: events sent for the first time and exact resends of accepted ones. */
  datatype Sent = First(event: Event) | Again(event: Event)

  function Wire(sent: seq<Sent>): seq<Event> {
    if sent == [] then [] else [sent[0].event] + Wire(sent[1..])
  }

  function WithoutResends(sent: seq<Sent>): seq<Event> {
    if sent == [] then []
    else if sent[0].First? then [sent[0].event] + WithoutResends(sent[1..])
    else WithoutResends(sent[1..])
  }

  /** Among the results of a history, those of its first sends. */
  function FirstResults(sent: seq<Sent>, results: seq<Event>): seq<Event>
    requires |results| == |sent|
  {
    if sent == [] then []
    else if sent[0].First? then [results[0]] + FirstResults(sent[1..], results[1..])
    else FirstResults(sent[1..], results[1..])
  }

  function LogAfter(log: Log, fp: Fingerprint, s: Sent): Log {
    var r := AppendOne(log, fp, s.event);
    if r.Ok? then r.value.log else log
  }

  /** Each resend repeats an event that the log holds by the time it is sent. */
  ghost predicate ExactResends(log: Log, fp: Fingerprint, sent: seq<Sent>)
    decreases |sent|
  {
    sent != [] ==>
      && (sent[0].Again? ==> Held(log, fp, sent[0].event))
      && ExactResends(LogAfter(log, fp, sent[0]), fp, sent[1..])
  }

  ghost predicate AllWellFormed(es: seq<Event>) {
    forall e :: e in es ==> WellFormed(e)
  }

  /** The verdict on a history is the verdict on the history without its resends. */
  ghost predicate SameVerdict(sent: seq<Sent>, r: Result<AppendedAll, StoreError>, q: Result<AppendedAll, StoreError>) {
    match r
    case Err(error) => q == Err(error)
    case Ok(a) =>
      && q.Ok? && q.value.log == a.log && |a.events| == |sent|
      && FirstResults(sent, a.events) == q.value.events
      && forall k :: 0 <= k < |sent| && sent[k].Again? ==> a.events[k] == sent[k].event
  }

  lemma {:induction false} ResendsChangeNothing(log: Log, fp: Fingerprint, sent: seq<Sent>)
    requires Sound(log, fp) && AllWellFormed(WithoutResends(sent)) && ExactResends(log, fp, sent)
    ensures SameVerdict(sent, AppendAll(log, fp, Wire(sent)), AppendAll(log, fp, WithoutResends(sent)))
    decreases |sent|
  {
    if sent != [] {
      var e, tail := sent[0].event, sent[1..];
      assert Wire(sent)[0] == e && Wire(sent)[1..] == Wire(tail);
      if sent[0].Again? {
        ResendReturnsStored(log, fp, e);
        ResendsChangeNothing(log, fp, tail);
        PrependResend(sent, AppendAll(log, fp, Wire(tail)), AppendAll(log, fp, WithoutResends(tail)));
      } else {
        assert WithoutResends(sent)[0] == e && WithoutResends(sent)[1..] == WithoutResends(tail);
        if AppendOne(log, fp, e).Ok? {
          AppendOneKeepsSound(log, fp, e);
          var next := AppendOne(log, fp, e).value;
          ResendsChangeNothing(next.log, fp, tail);
          PrependFirst(sent, AppendAll(next.log, fp, Wire(tail)), AppendAll(next.log, fp, WithoutResends(tail)), next);
        }
      }
    }
  }

  lemma PrependResend(sent: seq<Sent>, r: Result<AppendedAll, StoreError>, q: Result<AppendedAll, StoreError>)
    requires sent != [] && sent[0].Again? && SameVerdict(sent[1..], r, q)
    ensures r.Ok? ==> SameVerdict(sent, Ok(AppendedAll(r.value.log, [sent[0].event] + r.value.events)), q)
    ensures r.Err? ==> SameVerdict(sent, r, q)
  {
    if r.Ok? {
      var events := [sent[0].event] + r.value.events;
      assert events[1..] == r.value.events;
      forall k | 0 <= k < |sent| && sent[k].Again? ensures events[k] == sent[k].event {
        if k > 0 { assert sent[1..][k - 1] == sent[k]; }
      }
    }
  }

  lemma PrependFirst(
    sent: seq<Sent>, r: Result<AppendedAll, StoreError>, q: Result<AppendedAll, StoreError>, a: Appended)
    requires sent != [] && sent[0].First? && SameVerdict(sent[1..], r, q)
    ensures r.Ok? ==> SameVerdict(sent, Ok(AppendedAll(r.value.log, [a.event] + r.value.events)),
                                  Ok(AppendedAll(q.value.log, [a.event] + q.value.events)))
    ensures r.Err? ==> q == r
  {
    if r.Ok? {
      var events := [a.event] + r.value.events;
      assert events[1..] == r.value.events;
      forall k | 0 <= k < |sent| && sent[k].Again? ensures events[k] == sent[k].event {
        if k > 0 { assert sent[1..][k - 1] == sent[k]; }
      }
    }
  }

  // ----- whole histories of calls -----

  /** One call of a history carries its events and its resends in one batch. */
  function RunSent(log: Log, fp: Fingerprint, calls: seq<seq<Sent>>): Log
    decreases |calls|
  {
    if calls == [] then log else RunSent(AfterBatch(log, fp, Wire(calls[0])), fp, calls[1..])
  }

  function RunPlain(log: Log, fp: Fingerprint, calls: seq<seq<Sent>>): Log
    decreases |calls|
  {
    if calls == [] then log else RunPlain(AfterBatch(log, fp, WithoutResends(calls[0])), fp, calls[1..])
  }

  ghost predicate ExactHistory(log: Log, fp: Fingerprint, calls: seq<seq<Sent>>)
    decreases |calls|
  {
    calls != [] ==>
      && ExactResends(log, fp, calls[0])
      && ExactHistory(AfterBatch(log, fp, Wire(calls[0])), fp, calls[1..])
  }

  lemma {:induction false} WireMembers(sent: seq<Sent>)
    ensures forall e :: e in WithoutResends(sent) ==> e in Wire(sent)
    ensures forall e :: e in Wire(sent) ==> e in WithoutResends(sent) || Again(e) in sent
  {
    if sent != [] {
      WireMembers(sent[1..]);
      assert sent[0] in sent;
    }
  }

  lemma {:induction false} ResendsAreWellFormed(log: Log, fp: Fingerprint, sent: seq<Sent>)
    requires Sound(log, fp) && AllWellFormed(WithoutResends(sent)) && ExactResends(log, fp, sent)
    ensures AllWellFormed(Wire(sent))
    decreases |sent|
  {
    if sent != [] {
      var e := sent[0].event;
      if sent[0].Again? {
        ResendReturnsStored(log, fp, e);
        ResendsAreWellFormed(log, fp, sent[1..]);
      } else {
        assert e in WithoutResends(sent);
        assert AllWellFormed(WithoutResends(sent[1..])) by {
          assert WithoutResends(sent) == [e] + WithoutResends(sent[1..]);
        }
        if AppendOne(log, fp, e).Ok? { AppendOneKeepsSound(log, fp, e); }
        ResendsAreWellFormed(LogAfter(log, fp, sent[0]), fp, sent[1..]);
      }
    }
  }

  /** One call with exact resends among its events is that call without them, results and errors included. */
  lemma CallIgnoresResends(log: Log, fp: Fingerprint, sent: seq<Sent>)
    requires Sound(log, fp) && ExactResends(log, fp, sent)
    ensures SameVerdict(sent, AppendBatch(log, fp, Wire(sent)), AppendBatch(log, fp, WithoutResends(sent)))
    ensures AfterBatch(log, fp, Wire(sent)) == AfterBatch(log, fp, WithoutResends(sent))
  {
    WireMembers(sent);
    if AllWellFormed(WithoutResends(sent)) {
      ResendsAreWellFormed(log, fp, sent);
      ResendsChangeNothing(log, fp, sent);
    }
  }

  /** What each call of a history is answered with. */
  function SentResults(log: Log, fp: Fingerprint, calls: seq<seq<Sent>>): seq<Result<AppendedAll, StoreError>>
    decreases |calls|
  {
    if calls == [] then []
    else [AppendBatch(log, fp, Wire(calls[0]))] + SentResults(AfterBatch(log, fp, Wire(calls[0])), fp, calls[1..])
  }

  function PlainResults(log: Log, fp: Fingerprint, calls: seq<seq<Sent>>): seq<Result<AppendedAll, StoreError>>
    decreases |calls|
  {
    if calls == [] then []
    else
      [AppendBatch(log, fp, WithoutResends(calls[0]))]
      + PlainResults(AfterBatch(log, fp, WithoutResends(calls[0])), fp, calls[1..])
  }

  /** Call by call: the same error, or the same events for first sends and the stored event for each resend. */
  ghost predicate SameVerdicts(
    calls: seq<seq<Sent>>, sent: seq<Result<AppendedAll, StoreError>>, plain: seq<Result<AppendedAll, StoreError>>)
  {
    && |sent| == |calls| == |plain|
    && forall k :: 0 <= k < |calls| ==> SameVerdict(calls[k], sent[k], plain[k])
  }

  lemma VerdictsCons(
    calls: seq<seq<Sent>>, r: Result<AppendedAll, StoreError>, q: Result<AppendedAll, StoreError>,
    sent: seq<Result<AppendedAll, StoreError>>, plain: seq<Result<AppendedAll, StoreError>>)
    requires calls != [] && SameVerdict(calls[0], r, q) && SameVerdicts(calls[1..], sent, plain)
    ensures SameVerdicts(calls, [r] + sent, [q] + plain)
  {
    hide SameVerdict;
    forall k | 0 <= k < |calls| ensures SameVerdict(calls[k], ([r] + sent)[k], ([q] + plain)[k]) {
      if k > 0 { assert calls[1..][k - 1] == calls[k]; }
    }
  }

  /**
    Exactly once: any number of exact resends, in any call, in any order and after the terminal event
    of their turn too, leave the store exactly as if they had never been sent; every call is answered
    as it would be without them, and every resend with the stored event.
  */
  lemma {:induction false} ExactlyOnce(log: Log, fp: Fingerprint, calls: seq<seq<Sent>>)
    requires Sound(log, fp) && ExactHistory(log, fp, calls)
    ensures RunSent(log, fp, calls) == RunPlain(log, fp, calls)
    ensures SameVerdicts(calls, SentResults(log, fp, calls), PlainResults(log, fp, calls))
    decreases |calls|
  {
    hide Sound, AppendBatch, AfterBatch, SameVerdict, ExactResends;
    if calls != [] {
      var next := AfterBatch(log, fp, Wire(calls[0]));
      CallIgnoresResends(log, fp, calls[0]);
      AfterBatchKeepsSound(log, fp, Wire(calls[0]));
      ExactlyOnce(next, fp, calls[1..]);
      VerdictsCons(calls, AppendBatch(log, fp, Wire(calls[0])), AppendBatch(log, fp, WithoutResends(calls[0])),
                   SentResults(next, fp, calls[1..]), PlainResults(next, fp, calls[1..]));
    }
  }
}

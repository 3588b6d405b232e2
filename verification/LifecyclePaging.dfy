/** Reading a turn's stream back in pages, and resuming a replay from any cursor. */
module LifecyclePaging {
  import opened Wrappers
  import opened Paging
  import opened LifecycleProtocol
  import opened LifecycleReplay
  import opened LifecycleHistory
  import opened LifecycleLog

  datatype Page = Page(events: seq<Event>, nextSequence: Option<nat>)

  function EventsOf(s: seq<Stored>): seq<Event> {
    seq(|s|, i requires 0 <= i < |s| => s[i].event)
  }

  /** The stored events whose sequence exceeds `after`, in order. */
  function FilterAfter(s: seq<Stored>, after: int): seq<Stored> {
    if s == [] then []
    else if s[0].event.sequence > after then [s[0]] + FilterAfter(s[1..], after)
    else FilterAfter(s[1..], after)
  }

  function Take<T>(s: seq<T>, limit: nat): seq<T> {
    if |s| <= limit then s else s[..limit]
  }

  predicate Continuous(events: seq<Event>, after: int) {
    forall i :: 0 <= i < |events| ==> events[i].sequence == after + i + 1
  }

  function ValidateReplay(after: Option<int>, limit: int): Result<(), StoreError> {
    if limit < 1 || limit > MAX_REPLAY_LIMIT then Err(InvalidReplayLimit)
    else if after.Some? && (after.value < 0 || after.value > MAX_SAFE_INTEGER) then Err(CursorNotFound)
    else Ok(())
  }

  /** A missing cursor reads from the beginning. */
  function Start(after: Option<int>): int {
    if after.Some? then after.value else 0
  }

  function ReplayPage(log: Log, turnId: string, after: Option<int>, limit: int): Result<Page, StoreError> {
    var _ :- ValidateReplay(after, limit);
    var start := Start(after);
    var events := EventsOf(Take(FilterAfter(Stream(log, turnId), start), limit));
    if !Continuous(events, start) then Err(CorruptEventStream) else Ok(PageOf(events))
  }

  function PageOf(events: seq<Event>): Page {
    Page(events, if events == [] then None else Some(events[|events| - 1].sequence))
  }

  // ----- what a page holds -----

  lemma {:induction false} FilterIsSuffix(s: seq<Stored>, base: nat, after: nat)
    requires forall i :: 0 <= i < |s| ==> s[i].event.sequence == base + i + 1
    ensures FilterAfter(s, after) == if after <= base then s else s[Min(after - base, |s|)..]
    decreases |s|
  {
    if s != [] {
      FilterIsSuffix(s[1..], base + 1, after);
      if base < after { assert s[1..][Min(after - base - 1, |s| - 1)..] == s[Min(after - base, |s|)..]; }
    }
  }

  /** Positions are sequences, and all of them are safe integers. */
  ghost predicate Numbered(s: seq<Stored>) {
    |s| <= MAX_SAFE_INTEGER && forall i :: 0 <= i < |s| ==> s[i].event.sequence == i + 1
  }

  lemma StreamOfSoundLog(log: Log, fp: Fingerprint, turnId: string)
    requires Sound(log, fp)
    ensures StreamSound(Stream(log, turnId), turnId, fp) && Numbered(Stream(log, turnId))
  {
    var s := Stream(log, turnId);
    assert StreamSound(s, turnId, fp);
    if s != [] { assert WellFormed(s[|s| - 1].event); }
  }

  lemma TakenIsSlice(s: seq<Stored>, start: nat, limit: nat)
    requires Numbered(s)
    ensures Take(FilterAfter(s, start), limit) == s[Min(start, |s|)..Min(Min(start, |s|) + limit, |s|)]
  {
    FilterIsSuffix(s, 0, start);
    var from := Min(start, |s|);
    assert FilterAfter(s, start) == s[from..];
    if |s| - from > limit { assert s[from..][..limit] == s[from..from + limit]; }
  }

  lemma SliceOfEvents(s: seq<Stored>, from: nat, to: nat)
    requires from <= to <= |s|
    ensures EventsOf(s[from..to]) == EventsOf(s)[from..to]
  {
  }

  /**
    Every accepted request on a sound log is answered with the slice that follows the cursor, so the
    continuity check cannot fail; the next cursor is the sequence of the last event of the slice.
  */
  lemma PageIsSlice(log: Log, fp: Fingerprint, turnId: string, after: Option<int>, limit: int)
    requires Sound(log, fp) && ValidateReplay(after, limit).Ok?
    ensures var live := EventsOf(Stream(log, turnId));
            var from := Min(Start(after), |live|);
            var to := Min(from + limit, |live|);
            ReplayPage(log, turnId, after, limit) == Ok(Page(live[from..to], if from < to then Some(to) else None))
  {
    StreamOfSoundLog(log, fp, turnId);
    StreamPage(log, turnId, after, limit);
  }

  lemma StreamPage(log: Log, turnId: string, after: Option<int>, limit: int)
    requires ValidateReplay(after, limit).Ok?
    requires Numbered(Stream(log, turnId))
    ensures var live := EventsOf(Stream(log, turnId));
            var from := Min(Start(after), |live|);
            var to := Min(from + limit, |live|);
            ReplayPage(log, turnId, after, limit) == Ok(Page(live[from..to], if from < to then Some(to) else None))
  {
    var s := Stream(log, turnId);
    var start := Start(after);
    var from := Min(start, |s|);
    var to := Min(from + limit, |s|);
    hide FilterAfter, Take, Numbered, Continuous;
    TakenIsSlice(s, start, limit);
    SliceOfEvents(s, from, to);
    SliceIsContinuous(s, from, to, start);
  }

  lemma SliceIsContinuous(s: seq<Stored>, from: nat, to: nat, start: nat)
    requires Numbered(s) && from <= to <= |s| && (from < to ==> start == from)
    ensures Continuous(EventsOf(s)[from..to], start)
    ensures from < to ==> EventsOf(s)[from..to][to - from - 1].sequence == to
  {
  }

  /** Which requests are refused, and why; all others are answered. */
  lemma ReplayIsDecided(log: Log, fp: Fingerprint, turnId: string, after: Option<int>, limit: int)
    requires Sound(log, fp)
    ensures var r := ReplayPage(log, turnId, after, limit);
            var cursorFits := after.None? || 0 <= after.value <= 0x1F_FFFF_FFFF_FFFF;
            && (r == Err(InvalidReplayLimit) <==> !(1 <= limit <= 1000))
            && (r == Err(CursorNotFound) <==> 1 <= limit <= 1000 && !cursorFits)
            && (r.Ok? <==> 1 <= limit <= 1000 && cursorFits)
  {
    hide Sound;
    if ValidateReplay(after, limit).Ok? { PageIsSlice(log, fp, turnId, after, limit); }
  }

  /** On a sound log no request whatever raises the corrupt-stream error. */
  lemma NeverCorrupt(log: Log, fp: Fingerprint, turnId: string, after: Option<int>, limit: int)
    requires Sound(log, fp)
    ensures ReplayPage(log, turnId, after, limit) != Err(CorruptEventStream)
  {
    if ValidateReplay(after, limit).Ok? { PageIsSlice(log, fp, turnId, after, limit); }
  }

  // ----- chasing the cursor -----

  /** The pages a client reads by following `nextSequence` until a page comes back empty. */
  ghost function Chase(log: Log, turnId: string, after: Option<int>, limits: nat -> int, n: nat): seq<seq<Event>>
    requires Numbered(Stream(log, turnId)) && ValidLimits(limits)
    requires after.Some? ==> 0 <= after.value <= MAX_SAFE_INTEGER
    decreases |Stream(log, turnId)| - Start(after)
  {
    StreamPage(log, turnId, after, limits(n));
    var page := ReplayPage(log, turnId, after, limits(n)).value;
    if page.events == [] then []
    else [page.events] + Chase(log, turnId, Some(page.nextSequence.value), limits, n + 1)
  }

  function Flatten(pages: seq<seq<Event>>): seq<Event> {
    if pages == [] then [] else pages[0] + Flatten(pages[1..])
  }

  /** One request of the chase: nothing left, or the slice up to the limit and the chase from its end. */
  lemma ChaseStep(log: Log, turnId: string, after: Option<int>, limits: nat -> int, n: nat)
    requires Numbered(Stream(log, turnId)) && ValidLimits(limits)
    requires after.Some? ==> 0 <= after.value <= MAX_SAFE_INTEGER
    ensures var live := EventsOf(Stream(log, turnId));
            var from := Min(Start(after), |live|);
            var to := Min(from + limits(n), |live|);
            && 0 <= from <= to <= MAX_SAFE_INTEGER
            && (from == to <==> from == |live|)
            && Chase(log, turnId, after, limits, n)
               == (if from == to then [] else [live[from..to]] + Chase(log, turnId, Some(to), limits, n + 1))
  {
    hide ReplayPage;
    StreamPage(log, turnId, after, limits(n));
  }

  /** The chase ends, and its pages are the rest of the stream without a gap or a repeat. */
  lemma {:induction false} ChaseIsSuffix(log: Log, turnId: string, after: Option<int>, limits: nat -> int, n: nat)
    requires Numbered(Stream(log, turnId)) && ValidLimits(limits)
    requires after.Some? ==> 0 <= after.value <= MAX_SAFE_INTEGER
    ensures var live := EventsOf(Stream(log, turnId));
            Flatten(Chase(log, turnId, after, limits, n)) == live[Min(Start(after), |live|)..]
    decreases |Stream(log, turnId)| - Start(after)
  {
    hide Chase, Numbered, Flatten, ValidLimits;
    var live := EventsOf(Stream(log, turnId));
    var from := Min(Start(after), |live|);
    var to := Min(from + limits(n), |live|);
    ChaseStep(log, turnId, after, limits, n);
    if from == to {
      FlattenNothing();
    } else {
      ChaseIsSuffix(log, turnId, Some(to), limits, n + 1);
      FlattenStep(live[from..to], Chase(log, turnId, Some(to), limits, n + 1));
      assert live[from..] == live[from..to] + live[to..];
    }
  }

  lemma FlattenNothing()
    ensures Flatten([]) == []
  {
  }

  lemma FlattenStep(page: seq<Event>, rest: seq<seq<Event>>)
    ensures Flatten([page] + rest) == page + Flatten(rest)
  {
    assert ([page] + rest)[1..] == rest;
  }

  // ----- resuming -----

  function FoldPages(r: Step, pages: seq<seq<Event>>): Step
    decreases |pages|
  {
    if pages == [] then r else FoldPages(Continue(r, pages[0]), pages[1..])
  }

  lemma {:induction false} FoldPagesIsFold(r: Step, pages: seq<seq<Event>>)
    ensures FoldPages(r, pages) == Continue(r, Flatten(pages))
    decreases |pages|
  {
    if pages == [] {
    } else {
      FoldPagesIsFold(Continue(r, pages[0]), pages[1..]);
      if r.Ok? { ApplyAllSplits(r.value, pages[0], Flatten(pages[1..])); }
    }
  }

  /**
    Resume equals live: folding the stored stream up to any accepted cursor and then, page by page,
    whatever the cursor chase returns gives the state, or the fault, of folding the whole stream at once. The
    recomposed stream is the stored one, so its verdict is the same too.
  */
  lemma ResumeEqualsLive(log: Log, fp: Fingerprint, turnId: string, after: Option<int>, limits: nat -> int)
    requires Sound(log, fp) && ValidLimits(limits) && (after.Some? ==> 0 <= after.value <= MAX_SAFE_INTEGER)
    ensures Numbered(Stream(log, turnId))
    ensures var live := EventsOf(Stream(log, turnId));
            var seen := live[..Min(Start(after), |live|)];
            var pages := Chase(log, turnId, after, limits, 0);
            && seen + Flatten(pages) == live
            && FoldPages(ApplyAll(INITIAL, seen), pages) == ApplyAll(INITIAL, live)
            && Replay(seen + Flatten(pages)) == Replay(live)
  {
    hide Sound, Replay, ApplyAll, FoldPages, Chase;
    StreamOfSoundLog(log, fp, turnId);
    ResumeNumbered(log, turnId, after, limits);
  }

  lemma ResumeNumbered(log: Log, turnId: string, after: Option<int>, limits: nat -> int)
    requires Numbered(Stream(log, turnId)) && ValidLimits(limits)
    requires after.Some? ==> 0 <= after.value <= MAX_SAFE_INTEGER
    ensures var live := EventsOf(Stream(log, turnId));
            var seen := live[..Min(Start(after), |live|)];
            var pages := Chase(log, turnId, after, limits, 0);
            && seen + Flatten(pages) == live
            && FoldPages(ApplyAll(INITIAL, seen), pages) == ApplyAll(INITIAL, live)
  {
    hide Numbered, ApplyAll, FoldPages, Chase;
    var live := EventsOf(Stream(log, turnId));
    var at := Min(Start(after), |live|);
    var pages := Chase(log, turnId, after, limits, 0);
    assert Flatten(pages) == live[at..] by { ChaseIsSuffix(log, turnId, after, limits, 0); }
    assert live[..at] + live[at..] == live;
    FoldPagesIsFold(ApplyAll(INITIAL, live[..at]), pages);
    ApplyAllSplits(INITIAL, live[..at], live[at..]);
  }

  // ----- guards that a stored stream cannot trip -----

  predicate GuardFault(f: Fault) {
    f.SequenceNotContiguous? || f.TurnChanged? || f.TurnIsTerminal?
  }

  lemma SettlementFaults(s: State)
    ensures AssertAcceptedTurnSettled(s).Err? ==> !GuardFault(AssertAcceptedTurnSettled(s).error)
    ensures AssertTerminalSettlement(s).Err? ==> !GuardFault(AssertTerminalSettlement(s).error)
  {
  }

  lemma TerminalFaults(s: State, status: TurnStatus, outcome: Outcome)
    ensures ApplyTerminal(s, status, outcome).Err? ==> !GuardFault(ApplyTerminal(s, status, outcome).error)
  {
    hide AssertTerminalSettlement, TurnTargets;
    SettlementFaults(Advance(s, s.lastSequence + 1)
      .(status := status, terminalOutcome := Some(outcome), terminalEvents := s.terminalEvents + 1));
  }

  lemma TurnFaults(s: State, turn: TurnEvent)
    ensures ApplyTurn(s, turn).Err? ==> !GuardFault(ApplyTurn(s, turn).error)
  {
    hide ApplyTerminal, TurnTargets;
    match turn
    case Completed(outcome) => TerminalFaults(s, TurnStatus.Completed, outcome);
    case Interrupted(outcome) => TerminalFaults(s, TurnStatus.Interrupted, outcome);
    case Failed(outcome) => TerminalFaults(s, TurnStatus.Failed, outcome);
    case _ =>
  }

  lemma ItemFaults(s: State, id: string, item: ItemEvent, sequence: nat)
    ensures ApplyItem(s, id, item, sequence).Err? ==> !GuardFault(ApplyItem(s, id, item, sequence).error)
  {
  }

  lemma ToolFaults(s: State, id: string, c: string, tool: ToolEvent, sequence: nat)
    ensures ApplyTool(s, id, c, tool, sequence).Err? ==> !GuardFault(ApplyTool(s, id, c, tool, sequence).error)
  {
  }

  lemma ApprovalFaults(s: State, id: string, a: string, approval: ApprovalEvent)
    ensures ApplyApproval(s, id, a, approval).Err? ==> !GuardFault(ApplyApproval(s, id, a, approval).error)
  {
  }

  lemma RequestFaults(s: State, id: string, r: string, request: RequestEvent, sequence: nat)
    ensures ApplyRequest(s, id, r, request, sequence).Err? ==>
              !GuardFault(ApplyRequest(s, id, r, request, sequence).error)
  {
  }

  lemma StepAvoidsGuards(s: State, e: Event)
    requires e.sequence == s.lastSequence + 1 && s.terminalEvents == 0
    requires s.turnId.Some? ==> s.turnId == Some(e.turnId)
    ensures Apply(s, e).Err? ==> !GuardFault(Apply(s, e).error)
  {
    var bound := BindScope(s, e);
    if bound.Ok? {
      match e.body
      case Turn(turn) => TurnFaults(bound.value, turn);
      case Run(_) =>
      case Item(id, item) => ItemFaults(bound.value, id, item, e.sequence);
      case Tool(id, c, tool) => ToolFaults(bound.value, id, c, tool, e.sequence);
      case Approval(id, a, approval) => ApprovalFaults(bound.value, id, a, approval);
      case Request(id, r, request) => RequestFaults(bound.value, id, r, request, e.sequence);
      case Other(_) =>
    }
  }

  lemma {:induction false} FoldAvoidsGuards(h: History, s: State, es: History)
    requires Reflects(h, s)
    requires forall k :: 0 <= k < |es| ==> es[k].sequence == |h| + k + 1
    requires forall k :: 0 <= k < |es| ==> es[k].turnId == (h + es)[0].turnId
    requires forall k :: 0 <= k < |es| - 1 ==> !IsTerminalEvent(es[k])
    requires es != [] ==> !HasTerminal(h)
    ensures ApplyAll(s, es).Err? ==> !GuardFault(ApplyAll(s, es).error)
    decreases |es|
  {
    if es != [] {
      StepAvoidsGuards(s, es[0]);
      StepIffLegal(h, s, es[0]);
      if Apply(s, es[0]).Ok? {
        HasAppend(h, es[0]);
        assert (h + [es[0]]) + es[1..] == h + es;
        FoldAvoidsGuards(h + [es[0]], Apply(s, es[0]).value, es[1..]);
      }
    }
  }

  /**
    On any stream read back from a sound log, replay's sequence check, its turn-id check and its
    post-terminal guard never reject: whatever fault replay reports is about the lifecycle itself.
  */
  lemma StoredStreamsPassTheGuards(log: Log, fp: Fingerprint, turnId: string)
    requires Sound(log, fp)
    ensures var r := Replay(EventsOf(Stream(log, turnId)));
            r.Err? ==> !GuardFault(r.error)
  {
    var s := Stream(log, turnId);
    assert StreamSound(s, turnId, fp) by { StreamOfSoundLog(log, fp, turnId); }
    StreamPassesTheGuards(s, turnId, fp);
  }

  lemma StreamPassesTheGuards(s: seq<Stored>, turnId: string, fp: Fingerprint)
    requires StreamSound(s, turnId, fp)
    ensures Replay(EventsOf(s)).Err? ==> !GuardFault(Replay(EventsOf(s)).error)
  {
    hide ApplyAll, Reflects, AssertAcceptedTurnSettled, GuardFault;
    var live := EventsOf(s);
    InitialReflects();
    assert [] + live == live;
    assert forall k :: 0 <= k < |live| ==> live[k].turnId == turnId;
    FoldAvoidsGuards([], INITIAL, live);
    if ApplyAll(INITIAL, live).Ok? { SettlementFaults(ApplyAll(INITIAL, live).value); }
  }
}

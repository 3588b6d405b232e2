/** What the trace specification means for a whole turn: order, settlement, lifetimes and containment. */
module LifecycleSettlement {
  import opened Wrappers
  import opened LifecycleProtocol
  import opened LifecycleReplay
  import opened LifecycleHistory

  /** The last event of an accepted stream is the only terminal one, and nothing is open before it. */
  lemma SettlesLast(es: History)
    requires Replay(es).Ok?
    ensures es != [] && LegalHistory(es)
    ensures forall k :: 0 <= k < |es| ==> (IsTerminalEvent(es[k]) <==> k == |es| - 1)
    ensures HasStarted(es[..|es| - 1]) && NothingOpen(es[..|es| - 1])
  {
    AcceptedIffLegal(es);
    TerminalOnlyAtEnd(es);
    assert LegalStep(es[..|es| - 1], es[|es| - 1]);
  }

  lemma QueuedOnce(es: History, i: nat, k: nat)
    requires LegalHistory(es) && i < k < |es| && IsQueued(es[i])
    ensures !IsQueued(es[k])
  {
    assert LegalStep(es[..k], es[k]);
    assert es[..k][i] == es[i];
  }

  lemma QueuedOnlyAt(es: History, queued: nat)
    requires LegalHistory(es) && queued < |es| && IsQueued(es[queued])
    ensures forall k :: 0 <= k < |es| ==> (IsQueued(es[k]) <==> k == queued)
  {
    forall k | 0 <= k < |es| && k != queued ensures !IsQueued(es[k]) {
      if k < queued && IsQueued(es[k]) { QueuedOnce(es, k, queued); }
      if queued < k { QueuedOnce(es, queued, k); }
    }
  }

  lemma StartedOnce(es: History, j: nat, k: nat)
    requires LegalHistory(es) && j < k < |es| && IsStarted(es[j])
    ensures !IsStarted(es[k])
  {
    assert LegalStep(es[..k], es[k]);
    assert es[..k][j] == es[j];
  }

  lemma StartedOnlyAt(es: History, started: nat)
    requires LegalHistory(es) && started < |es| && IsStarted(es[started])
    ensures forall k :: 0 <= k < |es| ==> (IsStarted(es[k]) <==> k == started)
  {
    forall k | 0 <= k < |es| && k != started ensures !IsStarted(es[k]) {
      if k < started && IsStarted(es[k]) { StartedOnce(es, k, started); }
      if started < k { StartedOnce(es, started, k); }
    }
  }

  predicate NeedsStart(e: Event) {
    (e.body.Item? && e.body.item.Started?) || (e.body.Turn? && e.body.turn.BlockingChanged?)
  }

  lemma AfterStart(es: History, j: nat, k: nat)
    requires LegalHistory(es) && j < |es| && IsStarted(es[j]) && k < |es| && NeedsStart(es[k])
    ensures j < k
  {
    assert LegalStep(es[..k], es[k]);
    var e :| e in es[..k] && IsStarted(e);
    var i :| 0 <= i < k && es[i] == e;
    if i < j { StartedOnce(es, i, j); } else if j < i { StartedOnce(es, j, i); }
  }

  lemma OneScope(es: History, k: nat)
    requires LegalHistory(es) && k < |es|
    ensures es[k].threadId == es[0].threadId && es[k].turnId == es[0].turnId && es[k].sequence == k + 1
  {
    assert LegalStep(es[..k], es[k]);
    if k > 0 { assert es[..k][0] == es[0]; }
  }

  lemma StartIsQueued(es: History, started: nat) returns (queued: nat)
    requires LegalHistory(es) && started < |es| && IsStarted(es[started])
    ensures queued < started && IsQueued(es[queued])
  {
    assert LegalStep(es[..started], es[started]);
    var q :| q in es[..started] && IsQueued(q);
    queued :| 0 <= queued < started && es[queued] == q;
  }

  /**
    In an accepted stream the turn is queued exactly once, later started exactly once, and settles
    exactly once with its last event; items start and the blocking state changes only after the start;
    every event has the scope of the first and its own position as its sequence.
  */
  lemma SettlesExactlyOnceInOrder(es: History) returns (queued: nat, started: nat)
    requires Replay(es).Ok?
    ensures queued < started < |es| - 1
    ensures forall k :: 0 <= k < |es| ==> (IsQueued(es[k]) <==> k == queued)
    ensures forall k :: 0 <= k < |es| ==> (IsStarted(es[k]) <==> k == started)
    ensures forall k :: 0 <= k < |es| ==> (IsTerminalEvent(es[k]) <==> k == |es| - 1)
    ensures forall k :: 0 <= k < |es| && NeedsStart(es[k]) ==> started < k
    ensures forall k :: 0 <= k < |es| ==>
              es[k].threadId == es[0].threadId && es[k].turnId == es[0].turnId && es[k].sequence == k + 1
  {
    SettlesLast(es);
    var e :| e in es[..|es| - 1] && IsStarted(e);
    started :| 0 <= started < |es| - 1 && es[started] == e;
    queued := StartIsQueued(es, started);
    QueuedOnlyAt(es, queued);
    StartedOnlyAt(es, started);
    forall k | 0 <= k < |es| && NeedsStart(es[k]) ensures started < k { AfterStart(es, started, k); }
    forall k | 0 <= k < |es|
      ensures es[k].threadId == es[0].threadId && es[k].turnId == es[0].turnId && es[k].sequence == k + 1
    {
      OneScope(es, k);
    }
  }

  /** The status a terminal turn event asks for and the outcome it carries. */
  function TerminalStatus(turn: TurnEvent): TurnStatus
    requires turn.Completed? || turn.Interrupted? || turn.Failed?
  {
    if turn.Completed? then TurnStatus.Completed
    else if turn.Interrupted? then TurnStatus.Interrupted
    else TurnStatus.Failed
  }

  /** The state replay returns has the status and the outcome of the last event. */
  lemma OutcomeIsTheLastEvents(es: History)
    requires Replay(es).Ok?
    ensures es != [] && IsTerminalEvent(es[|es| - 1])
    ensures var s, last := Replay(es).value, es[|es| - 1].body.turn;
            && s.terminalOutcome == Some(last.outcome) && s.status == TerminalStatus(last)
            && OutcomeMatches(last.outcome, s.status)
  {
    hide LegalHistory, HasStarted, NothingOpen, Apply, ApplyAll, AssertAcceptedTurnSettled;
    SettlesLast(es);
    var front, last := es[..|es| - 1], es[|es| - 1];
    assert es == front + [last];
    PrefixIsFolded(es);
    FoldOneMore(INITIAL, front, last);
    TerminalOutcome(ApplyAll(INITIAL, front).value, last);
    SettledIsReached(es);
  }

  lemma PrefixIsFolded(es: History)
    requires LegalHistory(es) && es != []
    ensures ApplyAll(INITIAL, es[..|es| - 1]).Ok?
  {
    hide ApplyAll, LegalStep;
    var front := es[..|es| - 1];
    assert LegalHistory(front) by {
      forall k | 0 <= k < |front| ensures LegalStep(front[..k], front[k]) {
        assert front[..k] == es[..k] && front[k] == es[k];
        assert LegalStep(es[..k], es[k]);
      }
    }
    ReachableReflects(front);
  }

  lemma SettledIsReached(es: History)
    requires Replay(es).Ok?
    ensures ApplyAll(INITIAL, es) == Replay(es)
  {
    hide ApplyAll;
  }

  lemma TerminalOutcome(s: State, e: Event)
    requires IsTerminalEvent(e) && Apply(s, e).Ok?
    ensures var n := Apply(s, e).value;
            && n.terminalOutcome == Some(e.body.turn.outcome) && n.status == TerminalStatus(e.body.turn)
            && OutcomeMatches(e.body.turn.outcome, n.status)
  {
  }

  /** The blocking state that a stream leaves: the last one set, or the one before it. */
  function LastBlocking(before: BlockingState, es: History): BlockingState
    decreases |es|
  {
    if es == [] then before
    else BlockingAfter(LastBlocking(before, es[..|es| - 1]), es[|es| - 1])
  }

  /** What an event sets the blocking state to. */
  function BlockingAfter(before: BlockingState, e: Event): BlockingState {
    if e.body.Turn? && e.body.turn.BlockingChanged? && e.body.turn.blocking.Some? then e.body.turn.blocking.value
    else before
  }

  lemma TurnBlocking(s: State, turn: TurnEvent)
    requires ApplyTurn(s, turn).Ok?
    ensures ApplyTurn(s, turn).value.blocking
            == if turn.BlockingChanged? && turn.blocking.Some? then turn.blocking.value else s.blocking
  {
  }

  lemma ItemBlocking(s: State, id: string, item: ItemEvent, sequence: nat)
    requires ApplyItem(s, id, item, sequence).Ok?
    ensures ApplyItem(s, id, item, sequence).value.blocking == s.blocking
  {
  }

  lemma ToolBlocking(s: State, id: string, c: string, tool: ToolEvent, sequence: nat)
    requires ApplyTool(s, id, c, tool, sequence).Ok?
    ensures ApplyTool(s, id, c, tool, sequence).value.blocking == s.blocking
  {
  }

  lemma ApprovalBlocking(s: State, id: string, a: string, approval: ApprovalEvent)
    requires ApplyApproval(s, id, a, approval).Ok?
    ensures ApplyApproval(s, id, a, approval).value.blocking == s.blocking
  {
  }

  lemma RequestBlocking(s: State, id: string, r: string, request: RequestEvent, sequence: nat)
    requires ApplyRequest(s, id, r, request, sequence).Ok?
    ensures ApplyRequest(s, id, r, request, sequence).value.blocking == s.blocking
  {
  }

  lemma BlockingStep(s: State, e: Event)
    requires Apply(s, e).Ok?
    ensures Apply(s, e).value.blocking == BlockingAfter(s.blocking, e)
  {
    hide ApplyItem, ApplyTool, ApplyTurn, ApplyApproval, ApplyRequest;
    var scoped := BindScope(s, e).value;
    match e.body
    case Turn(turn) => TurnBlocking(scoped, turn);
    case Item(id, item) => ItemBlocking(scoped, id, item, e.sequence);
    case Tool(id, c, tool) => ToolBlocking(scoped, id, c, tool, e.sequence);
    case Approval(id, a, approval) => ApprovalBlocking(scoped, id, a, approval);
    case Request(id, r, request) => RequestBlocking(scoped, id, r, request, e.sequence);
    case _ =>
  }

  /** Nothing but a blocking change touches the blocking state, and the last change decides it. */
  lemma {:induction false} BlockingIsTheLastSet(s: State, es: History)
    requires ApplyAll(s, es).Ok?
    ensures ApplyAll(s, es).value.blocking == LastBlocking(s.blocking, es)
    decreases |es|
  {
    hide Apply;
    if es != [] {
      var front, last := es[..|es| - 1], es[|es| - 1];
      assert es == front + [last];
      ApplyAllSplits(s, front, [last]);
      FoldOneMore(s, front, last);
      BlockingIsTheLastSet(s, front);
      BlockingStep(ApplyAll(s, front).value, last);
    }
  }

  lemma TrailAt(es: History, k: nat, x: Entity, o: nat)
    requires o < k <= |es|
    ensures Trail(es[..k], x)[o] == MarkBy(es[o], x)
  {
    assert es[..k][o] == es[o];
  }

  /** Whatever an accepted stream opens it shuts again before its terminal event. */
  lemma EveryOpeningIsShut(es: History, i: nat, x: Entity) returns (j: nat)
    requires Replay(es).Ok? && i < |es| && MarkBy(es[i], x).Open?
    ensures i < j < |es| - 1 && MarkBy(es[j], x).Shut?
  {
    hide Replay, LegalHistory, HasStarted;
    SettlesLast(es);
    var n := |es| - 1;
    assert i < n by { assert IsTerminalEvent(es[n]); }
    TrailAt(es, n, x, i);
    assert !Opened(es[..n], x);
    var marks := Trail(es[..n], x);
    j :| i < j < n && marks[j].Shut?;
    TrailAt(es, n, x, j);
  }

  predicate LivesOnce(x: Entity) {
    x.ItemEntity? || x.CallEntity?
  }

  lemma OpensFresh(es: History, j: nat, x: Entity, i: nat)
    requires LegalHistory(es) && i < j < |es| && LivesOnce(x) && MarkBy(es[j], x).Open?
    ensures MarkBy(es[i], x).Untouched?
  {
    assert LegalStep(es[..j], es[j]);
    assert NeverTouched(es[..j], x);
    TrailAt(es, j, x, i);
  }

  lemma ShutsOpened(es: History, j: nat, x: Entity) returns (o: nat)
    requires LegalHistory(es) && j < |es| && LivesOnce(x) && MarkBy(es[j], x).Shut?
    ensures o < j && MarkBy(es[o], x).Open?
    ensures forall c :: o < c < j ==> !MarkBy(es[c], x).Shut?
  {
    assert LegalStep(es[..j], es[j]);
    assert Opened(es[..j], x);
    var marks := Trail(es[..j], x);
    o :| 0 <= o < |marks| && marks[o].Open? && forall c :: o < c < |marks| ==> !marks[c].Shut?;
    TrailAt(es, j, x, o);
    forall c | o < c < j ensures !MarkBy(es[c], x).Shut? { TrailAt(es, j, x, c); }
  }

  lemma OpensOnce(es: History, i: nat, j: nat, x: Entity)
    requires LegalHistory(es) && i < |es| && j < |es| && LivesOnce(x)
    requires MarkBy(es[i], x).Open? && MarkBy(es[j], x).Open?
    ensures i == j
  {
    if i < j { OpensFresh(es, j, x, i); } else if j < i { OpensFresh(es, i, x, j); }
  }

  lemma ShutsOnce(es: History, c: nat, j: nat, x: Entity)
    requires LegalHistory(es) && c < j < |es| && LivesOnce(x) && MarkBy(es[c], x).Shut?
    ensures !MarkBy(es[j], x).Shut?
  {
    if MarkBy(es[j], x).Shut? {
      var o1 := ShutsOpened(es, j, x);
      var o2 := ShutsOpened(es, c, x);
      OpensOnce(es, o1, o2, x);
    }
  }

  lemma MarksAreDefinite(e: Event, x: Entity)
    ensures !MarkBy(e, x).Limbo?
  {
  }

  /** An item or a tool call that an accepted stream touches is opened once and shut once, in that order. */
  lemma OneLife(es: History, x: Entity, k: nat) returns (o: nat, c: nat)
    requires Replay(es).Ok? && LivesOnce(x) && k < |es| && !MarkBy(es[k], x).Untouched?
    ensures o < c < |es| - 1 && MarkBy(es[o], x).Open? && MarkBy(es[c], x).Shut?
    ensures forall j :: 0 <= j < |es| && j != o && j != c ==> MarkBy(es[j], x).Untouched?
  {
    SettlesLast(es);
    MarksAreDefinite(es[k], x);
    if MarkBy(es[k], x).Open? { o := k; } else { o := ShutsOpened(es, k, x); }
    c := EveryOpeningIsShut(es, o, x);
    forall j | 0 <= j < |es| && j != o && j != c ensures MarkBy(es[j], x).Untouched? {
      OnlyTwice(es, x, o, c, j);
    }
  }

  lemma OnlyTwice(es: History, x: Entity, o: nat, c: nat, j: nat)
    requires LegalHistory(es) && LivesOnce(x) && o < c < |es| && j < |es| && j != o && j != c
    requires MarkBy(es[o], x).Open? && MarkBy(es[c], x).Shut?
    ensures MarkBy(es[j], x).Untouched?
  {
    MarksAreDefinite(es[j], x);
    var m := MarkBy(es[j], x);
    if m.Open? { OpensOnce(es, o, j, x); }
    if m.Shut? { if j < c { ShutsOnce(es, j, c, x); } else { ShutsOnce(es, c, j, x); } }
  }

  /** Events that only make sense while item `id` is running. */
  predicate Uses(e: Event, id: string) {
    match e.body
    case Item(itemId, item) => itemId == id && ItemMark(item).Untouched?
    case Tool(itemId, _, tool) => itemId == id && tool.Started?
    case Approval(itemId, _, approval) => itemId == id && approval.Requested?
    case Request(itemId, _, request) => itemId == id && request.Requested?
    case _ => false
  }

  /** Deltas, tool calls, approval requests and input requests fall inside the life of their item. */
  lemma UsedWithinLife(es: History, k: nat, id: string) returns (o: nat, c: nat)
    requires Replay(es).Ok? && k < |es| && Uses(es[k], id)
    ensures o < k < c < |es| - 1
    ensures MarkBy(es[o], ItemEntity(id)).Open? && MarkBy(es[c], ItemEntity(id)).Shut?
  {
    SettlesLast(es);
    var x := ItemEntity(id);
    assert LegalStep(es[..k], es[k]);
    assert Opened(es[..k], x);
    var i := OpenedAt(es, k, x);
    o, c := OneLife(es, x, i);
  }

  /** Deltas of a tool call fall inside the life of the call. */
  lemma CallUsedWithinLife(es: History, k: nat) returns (o: nat, c: nat)
    requires Replay(es).Ok? && k < |es| && es[k].body.Tool? && ToolMark(es[k].body.tool).Untouched?
    ensures o < k < c < |es| - 1
    ensures MarkBy(es[o], CallEntity(es[k].body.toolCallId)).Open?
    ensures MarkBy(es[c], CallEntity(es[k].body.toolCallId)).Shut?
  {
    hide Replay;
    SettlesLast(es);
    var x := CallEntity(es[k].body.toolCallId);
    assert LegalStep(es[..k], es[k]);
    assert Opened(es[..k], x);
    var i := OpenedAt(es, k, x);
    o, c := OneLife(es, x, i);
    if c < k { TrailAt(es, k, x, c); }
  }

  /** The opening that makes an entity open before position `k`. */
  lemma OpenedAt(es: History, k: nat, x: Entity) returns (o: nat)
    requires k <= |es| && Opened(es[..k], x)
    ensures o < k && MarkBy(es[o], x).Open? && forall c :: o < c < k ==> !MarkBy(es[c], x).Shut?
  {
    hide MarkBy;
    var marks := Trail(es[..k], x);
    o :| 0 <= o < |marks| && marks[o].Open? && forall c :: o < c < |marks| ==> !marks[c].Shut?;
    TrailAt(es, k, x, o);
    forall c | o < c < k ensures !MarkBy(es[c], x).Shut? { TrailAt(es, k, x, c); }
  }

  /** A response to an input request falls between a request and its resolution. */
  lemma RespondedWhilePending(es: History, k: nat) returns (o: nat, c: nat)
    requires Replay(es).Ok? && k < |es| && es[k].body.Request? && es[k].body.request.Responded?
    ensures o < k < c < |es| - 1
    ensures var x := RequestEntity(es[k].body.requestId);
            && MarkBy(es[o], x).Open? && MarkBy(es[c], x).Shut?
            && forall j :: o < j < k ==> !MarkBy(es[j], x).Shut?
  {
    hide Replay, LegalHistory, HasStarted, NothingOpen, Opened, MarkBy;
    SettlesLast(es);
    var x := RequestEntity(es[k].body.requestId);
    ResponseNeedsPending(es, k);
    o := OpenedAt(es, k, x);
    c := EveryOpeningIsShut(es, o, x);
  }

  lemma ResponseNeedsPending(es: History, k: nat)
    requires LegalHistory(es) && k < |es| && es[k].body.Request? && es[k].body.request.Responded?
    ensures Opened(es[..k], RequestEntity(es[k].body.requestId))
    ensures MarkBy(es[k], RequestEntity(es[k].body.requestId)).Untouched?
  {
    hide Opened;
    assert LegalStep(es[..k], es[k]);
  }

  lemma StartIsToolCall(es: History, k: nat)
    requires LegalHistory(es) && k < |es| && es[k].body.Tool? && es[k].body.tool.Started?
    ensures HasItem(es[..k], es[k].body.itemId, ToolCall)
  {
    assert LegalStep(es[..k], es[k]);
  }

  lemma LongerHistoryHas(es: History, i: nat, j: nat, id: string, kind: ItemKind)
    requires i <= j <= |es| && HasItem(es[..i], id, kind)
    ensures HasItem(es[..j], id, kind)
  {
    var e :| e in es[..i] && StartsItem(e, id, kind);
    assert es[..i] == es[..j][..i];
  }

  /** When a tool item ends, none of its calls is open any more. */
  lemma CallsShutBefore(es: History, start: nat, end: nat)
    requires LegalHistory(es) && start < end < |es| && es[start].body.Tool? && es[start].body.tool.Started?
    requires MarkBy(es[end], ItemEntity(es[start].body.itemId)).Shut?
    ensures !Opened(es[..end], CallEntity(es[start].body.toolCallId))
  {
    hide Opened, NeverTouched;
    var id, c := es[start].body.itemId, es[start].body.toolCallId;
    StartIsToolCall(es, start);
    LongerHistoryHas(es, start, end, id, ToolCall);
    assert LegalStep(es[..end], es[end]);
    assert es[..end][start] == es[start] && StartsCall(es[start], c, id);
    assert HasCall(es[..end], c, id);
  }

  /** The life of a tool call lies inside the life of its item: started after it, ended before it. */
  lemma CallLivesInsideItem(es: History, start: nat) returns (itemStart: nat, end: nat, itemEnd: nat)
    requires Replay(es).Ok? && start < |es| && es[start].body.Tool? && es[start].body.tool.Started?
    ensures itemStart < start < end < itemEnd < |es| - 1
    ensures MarkBy(es[itemStart], ItemEntity(es[start].body.itemId)).Open?
    ensures MarkBy(es[itemEnd], ItemEntity(es[start].body.itemId)).Shut?
    ensures MarkBy(es[end], CallEntity(es[start].body.toolCallId)).Shut?
  {
    hide Replay, LegalHistory, HasStarted, NothingOpen;
    SettlesLast(es);
    var x := CallEntity(es[start].body.toolCallId);
    var o, c := OneLife(es, x, start);
    itemStart, itemEnd := UsedWithinLife(es, start, es[start].body.itemId);
    CallsShutBefore(es, start, itemEnd);
    end := ShutBefore(es, start, itemEnd, x);
  }

  lemma ShutBefore(es: History, o: nat, k: nat, x: Entity) returns (c: nat)
    requires o < k <= |es| && MarkBy(es[o], x).Open? && !Opened(es[..k], x)
    ensures o < c < k && MarkBy(es[c], x).Shut?
  {
    hide MarkBy;
    TrailAt(es, k, x, o);
    var marks := Trail(es[..k], x);
    c :| o < c < |marks| && marks[c].Shut?;
    TrailAt(es, k, x, c);
  }

  // ----- containment of tool calls, in every state that replay reaches -----

  /**
    An active call belongs to an active tool item; a tool item that has ended has had at least one
    call and none of its calls is active.
  */
  ghost predicate Contained(s: State) {
    && s.toolCalls.Keys == s.toolCallItems.Keys
    && (forall c :: c in s.toolCalls && s.toolCalls[c].Active? ==> ActiveToolItem(s, s.toolCallItems[c]))
    && (forall id :: id in s.items && IsTerminalItem(s.items[id]) && Get(s.itemKinds, id) == Some(ToolCall) ==>
          ToolItemDone(s, id))
  }

  ghost predicate ActiveToolItem(s: State, id: string) {
    Get(s.items, id) == Some(ItemStatus.Active) && Get(s.itemKinds, id) == Some(ToolCall)
  }

  ghost predicate ToolItemDone(s: State, id: string) {
    && (exists c :: c in s.toolCallItems && s.toolCallItems[c] == id)
    && (forall c :: c in s.toolCallItems && s.toolCallItems[c] == id ==> Get(s.toolCalls, c) != Some(ItemStatus.Active))
  }

  ghost predicate SameTools(s: State, n: State) {
    n.items == s.items && n.itemKinds == s.itemKinds && n.toolCalls == s.toolCalls && n.toolCallItems == s.toolCallItems
  }

  lemma ItemStartContained(s: State, n: State, id: string, kind: ItemKind)
    requires Contained(s) && id !in s.items
    requires n.items == s.items[id := ItemStatus.Active] && n.itemKinds == s.itemKinds[id := kind]
    requires n.toolCalls == s.toolCalls && n.toolCallItems == s.toolCallItems
    ensures Contained(n)
  {
    forall j | j in n.items && IsTerminalItem(n.items[j]) && Get(n.itemKinds, j) == Some(ToolCall)
      ensures ToolItemDone(n, j)
    {
      assert ToolItemDone(s, j);
    }
  }

  lemma ItemEndContained(s: State, n: State, id: string, to: ItemStatus)
    requires Contained(s) && IsTerminalItem(to) && AssertToolItemSettled(n, id, to).Ok?
    requires n.items == s.items[id := to] && n.itemKinds == s.itemKinds
    requires n.toolCalls == s.toolCalls && n.toolCallItems == s.toolCallItems
    ensures Contained(n)
  {
    forall j | j in n.items && IsTerminalItem(n.items[j]) && Get(n.itemKinds, j) == Some(ToolCall)
      ensures ToolItemDone(n, j)
    {
      if j != id { assert ToolItemDone(s, j); }
    }
    forall c | c in n.toolCalls && n.toolCalls[c].Active? ensures ActiveToolItem(n, n.toolCallItems[c]) {
      assert ActiveToolItem(s, s.toolCallItems[c]);
    }
  }

  lemma CallStartContained(s: State, n: State, id: string, c: string)
    requires Contained(s) && ActiveToolItem(s, id) && c !in s.toolCalls
    requires n.items == s.items && n.itemKinds == s.itemKinds
    requires n.toolCalls == s.toolCalls[c := ItemStatus.Active] && n.toolCallItems == s.toolCallItems[c := id]
    ensures Contained(n)
  {
    forall j | j in n.items && IsTerminalItem(n.items[j]) && Get(n.itemKinds, j) == Some(ToolCall)
      ensures ToolItemDone(n, j)
    {
      assert ToolItemDone(s, j);
      var d :| d in s.toolCallItems && s.toolCallItems[d] == j;
      assert n.toolCallItems[d] == j;
    }
  }

  lemma CallEndContained(s: State, n: State, c: string, to: ToolCallStatus)
    requires Contained(s) && c in s.toolCalls && IsTerminalItem(to)
    requires n.items == s.items && n.itemKinds == s.itemKinds
    requires n.toolCalls == s.toolCalls[c := to] && n.toolCallItems == s.toolCallItems
    ensures Contained(n)
  {
    forall j | j in n.items && IsTerminalItem(n.items[j]) && Get(n.itemKinds, j) == Some(ToolCall)
      ensures ToolItemDone(n, j)
    {
      assert ToolItemDone(s, j);
    }
  }

  /** No item or call is ever stored as not started, so a start finds its id unused. */
  ghost predicate NoneUnstarted(s: State) {
    && (forall id :: id in s.items ==> !s.items[id].NotStarted?)
    && (forall c :: c in s.toolCalls ==> !s.toolCalls[c].NotStarted?)
  }

  lemma ItemEndStepContained(s: State, id: string, to: ItemStatus)
    requires Contained(s) && NoneUnstarted(s) && IsTerminalItem(to) && SetItem(s, id, to).Ok?
    ensures Contained(SetItem(s, id, to).value) && NoneUnstarted(SetItem(s, id, to).value)
  {
    ItemEndContained(s, SetItem(s, id, to).value, id, to);
  }

  lemma ItemStartStepContained(s: State, id: string, kind: Option<ItemKind>, sequence: nat)
    requires Contained(s) && NoneUnstarted(s) && ApplyItem(s, id, ItemEvent.Started(kind), sequence).Ok?
    ensures Contained(ApplyItem(s, id, ItemEvent.Started(kind), sequence).value)
    ensures NoneUnstarted(ApplyItem(s, id, ItemEvent.Started(kind), sequence).value)
  {
    ItemStartContained(s, ApplyItem(s, id, ItemEvent.Started(kind), sequence).value, id, kind.value);
  }

  lemma ItemUseKeepsTools(s: State, id: string, item: ItemEvent, sequence: nat)
    requires ApplyItem(s, id, item, sequence).Ok? && ItemMark(item).Untouched?
    ensures ApplyItem(s, id, item, sequence).value == Advance(s, sequence)
  {
  }

  lemma AdvanceContained(s: State, sequence: nat)
    requires Contained(s) && NoneUnstarted(s)
    ensures Contained(Advance(s, sequence)) && NoneUnstarted(Advance(s, sequence))
  {
    SameToolsContained(s, Advance(s, sequence));
  }

  lemma ItemStepContained(s: State, id: string, item: ItemEvent, sequence: nat)
    requires Contained(s) && NoneUnstarted(s) && ApplyItem(s, id, item, sequence).Ok?
    ensures Contained(ApplyItem(s, id, item, sequence).value) && NoneUnstarted(ApplyItem(s, id, item, sequence).value)
  {
    hide Contained, NoneUnstarted, Advance;
    if item.Started? {
      ItemStartStepContained(s, id, item.kind, sequence);
    } else if ItemMark(item).Shut? {
      ItemEndStepContained(s, id, ItemEnd(item));
    } else {
      ItemUseKeepsTools(s, id, item, sequence);
      AdvanceContained(s, sequence);
    }
  }

  lemma SameToolsContained(s: State, n: State)
    requires Contained(s) && NoneUnstarted(s) && SameTools(s, n)
    ensures Contained(n) && NoneUnstarted(n)
  {
    assert forall id :: ToolItemDone(s, id) ==> ToolItemDone(n, id);
    assert forall id :: ActiveToolItem(s, id) ==> ActiveToolItem(n, id);
  }

  lemma CallStartStepContained(s: State, id: string, c: string, sequence: nat)
    requires Contained(s) && NoneUnstarted(s) && ApplyTool(s, id, c, ToolEvent.Started, sequence).Ok?
    ensures Contained(ApplyTool(s, id, c, ToolEvent.Started, sequence).value)
    ensures NoneUnstarted(ApplyTool(s, id, c, ToolEvent.Started, sequence).value)
  {
    CallStartContained(s, ApplyTool(s, id, c, ToolEvent.Started, sequence).value, id, c);
  }

  lemma CallEndStepContained(s: State, c: string, to: ToolCallStatus)
    requires Contained(s) && NoneUnstarted(s) && IsTerminalItem(to) && SetToolCall(s, c, to).Ok?
    ensures Contained(SetToolCall(s, c, to).value) && NoneUnstarted(SetToolCall(s, c, to).value)
  {
    CallEndContained(s, SetToolCall(s, c, to).value, c, to);
  }

  lemma CallUseKeepsTools(s: State, id: string, c: string, tool: ToolEvent, sequence: nat)
    requires ApplyTool(s, id, c, tool, sequence).Ok? && ToolMark(tool).Untouched?
    ensures ApplyTool(s, id, c, tool, sequence).value == Advance(s, sequence)
  {
  }

  lemma ToolStepContained(s: State, id: string, c: string, tool: ToolEvent, sequence: nat)
    requires Contained(s) && NoneUnstarted(s) && ApplyTool(s, id, c, tool, sequence).Ok?
    ensures Contained(ApplyTool(s, id, c, tool, sequence).value)
    ensures NoneUnstarted(ApplyTool(s, id, c, tool, sequence).value)
  {
    hide Contained, NoneUnstarted, Advance;
    if tool.Started? {
      CallStartStepContained(s, id, c, sequence);
    } else if ToolMark(tool).Shut? {
      CallEndStepContained(s, c, ToolEnd(tool));
    } else {
      CallUseKeepsTools(s, id, c, tool, sequence);
      AdvanceContained(s, sequence);
    }
  }

  lemma TurnKeepsTools(s: State, turn: TurnEvent)
    requires ApplyTurn(s, turn).Ok?
    ensures SameTools(s, ApplyTurn(s, turn).value)
  {
  }

  lemma ApprovalKeepsTools(s: State, id: string, a: string, approval: ApprovalEvent)
    requires ApplyApproval(s, id, a, approval).Ok?
    ensures SameTools(s, ApplyApproval(s, id, a, approval).value)
  {
  }

  lemma RequestKeepsTools(s: State, id: string, r: string, request: RequestEvent, sequence: nat)
    requires ApplyRequest(s, id, r, request, sequence).Ok?
    ensures SameTools(s, ApplyRequest(s, id, r, request, sequence).value)
  {
  }

  lemma StepContained(s: State, e: Event)
    requires Contained(s) && NoneUnstarted(s) && Apply(s, e).Ok?
    ensures Contained(Apply(s, e).value) && NoneUnstarted(Apply(s, e).value)
  {
    hide Contained, NoneUnstarted, ApplyItem, ApplyTool, ApplyTurn, ApplyApproval, ApplyRequest;
    var scoped := BindScope(s, e).value;
    SameToolsContained(s, scoped);
    match e.body
    case Item(id, item) => ItemStepContained(scoped, id, item, e.sequence);
    case Tool(id, c, tool) => ToolStepContained(scoped, id, c, tool, e.sequence);
    case Turn(turn) =>
      TurnKeepsTools(scoped, turn);
      SameToolsContained(scoped, Apply(s, e).value);
    case Approval(id, a, approval) =>
      ApprovalKeepsTools(scoped, id, a, approval);
      SameToolsContained(scoped, Apply(s, e).value);
    case Request(id, r, request) =>
      RequestKeepsTools(scoped, id, r, request, e.sequence);
      SameToolsContained(scoped, Apply(s, e).value);
    case _ => SameToolsContained(scoped, Apply(s, e).value);
  }

  lemma {:induction false} FoldContained(s: State, es: History)
    requires Contained(s) && NoneUnstarted(s) && ApplyAll(s, es).Ok?
    ensures Contained(ApplyAll(s, es).value)
    decreases |es|
  {
    if es != [] {
      StepContained(s, es[0]);
      FoldContained(Apply(s, es[0]).value, es[1..]);
    }
  }

  /** However item and call events interleave, every state that replay reaches is contained. */
  lemma ReachableContained(es: History)
    requires ApplyAll(INITIAL, es).Ok?
    ensures Contained(ApplyAll(INITIAL, es).value)
  {
    FoldContained(INITIAL, es);
  }
}

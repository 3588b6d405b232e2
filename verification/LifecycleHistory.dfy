/**
  A specification of lifecycle streams that mentions no state: which events may follow which history,
  said with positions in the stream only. The main theorem is `AcceptedIffLegal`: replay accepts a
  stream exactly when the stream is legal in this sense.
*/
module LifecycleHistory {
  import opened Wrappers
  import opened LifecycleProtocol
  import opened LifecycleReplay

  type History = seq<Event>

  /** Everything that a lifecycle event can open and a later one must shut. */
  datatype Entity =
    | RunAttemptEntity(id: string)
    | ItemEntity(id: string)
    | CallEntity(id: string)
    | ApprovalEntity(id: string)
    | RequestEntity(id: string)
    | BlockEntity

  datatype How =
    | Succeeded | Completed | Failed | Declined | Interrupted
    | Approved | Denied | TimedOut | Cancelled | Resolved | Cleared

  /** What one event does to one entity. `Limbo` is the mark of no event. */
  datatype Mark = Untouched | Open | Shut(how: How) | Limbo

  function MarkBy(e: Event, x: Entity): Mark {
    match x
    case RunAttemptEntity(id) => if e.body.Run? && e.runAttemptId == id then RunMark(e.body.run) else Untouched
    case ItemEntity(id) => if e.body.Item? && e.body.itemId == id then ItemMark(e.body.item) else Untouched
    case CallEntity(id) => if e.body.Tool? && e.body.toolCallId == id then ToolMark(e.body.tool) else Untouched
    case ApprovalEntity(id) =>
      if e.body.Approval? && e.body.approvalId == id then ApprovalMark(e.body.approval) else Untouched
    case RequestEntity(id) =>
      if e.body.Request? && e.body.requestId == id then RequestMark(e.body.request) else Untouched
    case BlockEntity =>
      if e.body.Turn? && e.body.turn.BlockingChanged? && e.body.turn.blocking.Some?
      then if e.body.turn.blocking.value.Unblocked? then Shut(Cleared) else Open
      else Untouched
  }

  function RunMark(run: RunEvent): Mark {
    match run
    case Started => Open
    case Succeeded => Shut(How.Succeeded)
    case Interrupted => Shut(How.Interrupted)
    case Failed => Shut(How.Failed)
  }

  function ItemMark(item: ItemEvent): Mark {
    match item
    case Started(_) => Open
    case Completed => Shut(How.Completed)
    case Failed => Shut(How.Failed)
    case Declined => Shut(How.Declined)
    case Interrupted => Shut(How.Interrupted)
    case _ => Untouched
  }

  function ToolMark(tool: ToolEvent): Mark {
    match tool
    case Started => Open
    case Completed => Shut(How.Completed)
    case Failed => Shut(How.Failed)
    case Declined => Shut(How.Declined)
    case Interrupted => Shut(How.Interrupted)
    case _ => Untouched
  }

  function ApprovalMark(approval: ApprovalEvent): Mark {
    match approval
    case Requested => Open
    case Decided(Approved) => Shut(How.Approved)
    case Decided(Denied) => Shut(How.Denied)
    case Decided(TimedOut) => Shut(How.TimedOut)
    case Decided(Cancelled) => Shut(How.Cancelled)
  }

  function RequestMark(request: RequestEvent): Mark {
    match request
    case Requested => Open
    case Responded => Untouched
    case Resolved => Shut(How.Resolved)
  }

  /** What each event of the history does to `x`, in order. */
  function Trail(h: History, x: Entity): seq<Mark> {
    seq(|h|, o requires 0 <= o < |h| => MarkBy(h[o], x))
  }

  ghost predicate Quiet(marks: seq<Mark>) {
    forall o :: 0 <= o < |marks| ==> marks[o].Untouched?
  }

  ghost predicate EndsOpen(marks: seq<Mark>) {
    exists o :: 0 <= o < |marks| && marks[o].Open? && forall c :: o < c < |marks| ==> !marks[c].Shut?
  }

  /** No event of the history touches `x`. */
  ghost predicate NeverTouched(h: History, x: Entity) {
    Quiet(Trail(h, x))
  }

  /** Some event opens `x` and no later one shuts it. */
  ghost predicate Opened(h: History, x: Entity) {
    EndsOpen(Trail(h, x))
  }

  predicate IsQueued(e: Event) {
    e.body.Turn? && e.body.turn.Queued?
  }

  predicate IsStarted(e: Event) {
    e.body.Turn? && e.body.turn.Started?
  }

  predicate StartsItem(e: Event, id: string, kind: ItemKind) {
    e.body.Item? && e.body.itemId == id && e.body.item == ItemEvent.Started(Some(kind))
  }

  predicate StartsCall(e: Event, c: string, itemId: string) {
    e.body.Tool? && e.body.toolCallId == c && e.body.itemId == itemId && e.body.tool.Started?
  }

  ghost predicate HasQueued(h: History) {
    exists e :: e in h && IsQueued(e)
  }

  ghost predicate HasStarted(h: History) {
    exists e :: e in h && IsStarted(e)
  }

  ghost predicate HasTerminal(h: History) {
    exists e :: e in h && IsTerminalEvent(e)
  }

  ghost predicate HasItem(h: History, id: string, kind: ItemKind) {
    exists e :: e in h && StartsItem(e, id, kind)
  }

  ghost predicate HasCall(h: History, c: string, itemId: string) {
    exists e :: e in h && StartsCall(e, c, itemId)
  }

  ghost predicate OpenedAs(h: History, itemId: string, kind: ItemKind) {
    Opened(h, ItemEntity(itemId)) && HasItem(h, itemId, kind)
  }

  /** A tool item may end once it has had a call and none of its calls is still open. */
  ghost predicate CallsDone(h: History, itemId: string) {
    && (exists c :: HasCall(h, c, itemId))
    && (forall c :: HasCall(h, c, itemId) ==> !Opened(h, CallEntity(c)))
  }

  /** `e` may be the event after history `h`. */
  ghost predicate LegalStep(h: History, e: Event) {
    && e.sequence == |h| + 1
    && (h != [] ==> e.threadId == h[0].threadId && e.turnId == h[0].turnId)
    && !HasTerminal(h)
    && LegalBody(h, e)
  }

  ghost predicate LegalBody(h: History, e: Event) {
    match e.body
    case Turn(turn) => LegalTurnEvent(h, turn)
    case Run(run) => LegalRunEvent(h, RunAttemptEntity(e.runAttemptId), run)
    case Item(itemId, item) => LegalItemEvent(h, itemId, item)
    case Tool(itemId, toolCallId, tool) =>
      if tool.Started? then OpenedAs(h, itemId, ToolCall) && NeverTouched(h, CallEntity(toolCallId))
      else Opened(h, CallEntity(toolCallId))
    case Approval(itemId, approvalId, approval) =>
      if approval.Requested? then OpenedAs(h, itemId, ApprovalRequest)
      else NeverTouched(h, ApprovalEntity(approvalId)) || Opened(h, ApprovalEntity(approvalId))
    case Request(itemId, requestId, request) =>
      if request.Requested? then OpenedAs(h, itemId, UserInputRequest)
      else Opened(h, RequestEntity(requestId))
    case Other(_) => true
  }

  ghost predicate LegalTurnEvent(h: History, turn: TurnEvent) {
    match turn
    case Queued => !HasQueued(h)
    case Started => HasQueued(h) && !HasStarted(h)
    case BlockingChanged(blocking) => HasStarted(h) && blocking.Some?
    case Completed(outcome) => HasStarted(h) && outcome.Completed? && NothingOpen(h)
    case Interrupted(outcome) => HasStarted(h) && outcome.Interrupted? && NothingOpen(h)
    case Failed(outcome) => HasStarted(h) && outcome.Failed? && NothingOpen(h)
  }

  ghost predicate NothingOpen(h: History) {
    forall x :: !Opened(h, x)
  }

  ghost predicate LegalRunEvent(h: History, x: Entity, run: RunEvent) {
    match run
    case Started => NeverTouched(h, x)
    case Succeeded => Opened(h, x)
    case _ => NeverTouched(h, x) || Opened(h, x)
  }

  ghost predicate LegalItemEvent(h: History, itemId: string, item: ItemEvent) {
    match item
    case Started(kind) => HasStarted(h) && kind.Some? && NeverTouched(h, ItemEntity(itemId))
    case Updated => Opened(h, ItemEntity(itemId))
    case ReasoningDelta => OpenedAs(h, itemId, Reasoning)
    case MessageDelta => OpenedAs(h, itemId, AssistantMessage)
    case PlanUpdated => OpenedAs(h, itemId, Plan)
    case CommandOutput => OpenedAs(h, itemId, CommandExecution)
    case FilePatched => OpenedAs(h, itemId, FileChange)
    case _ => Opened(h, ItemEntity(itemId)) && (HasItem(h, itemId, ToolCall) ==> CallsDone(h, itemId))
  }

  /** Each event is legal after the ones before it. */
  ghost predicate LegalHistory(es: History) {
    forall k :: 0 <= k < |es| ==> LegalStep(es[..k], es[k])
  }

  ghost predicate LegalTurn(es: History) {
    LegalHistory(es) && es != [] && IsTerminalEvent(es[|es| - 1])
  }

  // ----- the latest mark of an entity -----

  function Latest(marks: seq<Mark>): Mark {
    if marks == [] then Untouched
    else if marks[|marks| - 1].Untouched? then Latest(marks[..|marks| - 1])
    else marks[|marks| - 1]
  }

  lemma EndsOpenSkips(front: seq<Mark>)
    ensures EndsOpen(front + [Untouched]) <==> EndsOpen(front)
  {
    var marks := front + [Untouched];
    if EndsOpen(front) {
      var o :| 0 <= o < |front| && front[o].Open? && forall c :: o < c < |front| ==> !front[c].Shut?;
      assert marks[o].Open? && forall c :: o < c < |marks| ==> !marks[c].Shut?;
    }
    if EndsOpen(marks) {
      var o :| 0 <= o < |marks| && marks[o].Open? && forall c :: o < c < |marks| ==> !marks[c].Shut?;
      assert front[o].Open? && forall c :: o < c < |front| ==> front[c] == marks[c];
    }
  }

  lemma {:induction false} LatestMeaning(marks: seq<Mark>)
    requires forall m :: m in marks ==> !m.Limbo?
    ensures Latest(marks).Untouched? <==> Quiet(marks)
    ensures Latest(marks).Open? <==> EndsOpen(marks)
    ensures !Latest(marks).Limbo?
  {
    if marks != [] {
      var front, last := marks[..|marks| - 1], marks[|marks| - 1];
      LatestMeaning(front);
      if last.Untouched? {
        assert marks == front + [Untouched];
        EndsOpenSkips(front);
      } else {
        assert last in marks;
      }
    }
  }

  function LastMark(h: History, x: Entity): Mark {
    Latest(Trail(h, x))
  }

  lemma LastMarkOfAppend(h: History, e: Event, x: Entity)
    ensures LastMark(h + [e], x) == if MarkBy(e, x).Untouched? then LastMark(h, x) else MarkBy(e, x)
  {
    assert Trail(h + [e], x) == Trail(h, x) + [MarkBy(e, x)];
    assert (Trail(h, x) + [MarkBy(e, x)])[..|h|] == Trail(h, x);
  }

  lemma LastMarkMeaning(h: History, x: Entity)
    ensures LastMark(h, x).Untouched? <==> NeverTouched(h, x)
    ensures LastMark(h, x).Open? <==> Opened(h, x)
    ensures !LastMark(h, x).Limbo?
  {
    forall m | m in Trail(h, x) ensures !m.Limbo? {
      var o :| 0 <= o < |h| && m == MarkBy(h[o], x);
    }
    LatestMeaning(Trail(h, x));
  }

  // ----- how a state reflects a history -----

  function View(s: State, x: Entity): Mark {
    match x
    case RunAttemptEntity(id) => if id in s.runAttempts then RunView(s.runAttempts[id]) else Untouched
    case ItemEntity(id) => if id in s.items then ItemView(s.items[id]) else Untouched
    case CallEntity(id) => if id in s.toolCalls then ItemView(s.toolCalls[id]) else Untouched
    case ApprovalEntity(id) => if id in s.approvals then ApprovalView(s.approvals[id]) else Untouched
    case RequestEntity(id) =>
      if id in s.requests then if s.requests[id].Pending? then Open else Shut(How.Resolved) else Untouched
    case BlockEntity => if s.blocking.Unblocked? then Untouched else Open
  }

  function RunView(status: RunAttemptStatus): Mark {
    match status
    case Queued => Limbo
    case Running => Open
    case Succeeded => Shut(How.Succeeded)
    case Interrupted => Shut(How.Interrupted)
    case Failed => Shut(How.Failed)
  }

  function ItemView(status: ItemStatus): Mark {
    match status
    case NotStarted => Limbo
    case Active => Open
    case Completed => Shut(How.Completed)
    case Failed => Shut(How.Failed)
    case Declined => Shut(How.Declined)
    case Interrupted => Shut(How.Interrupted)
  }

  function ApprovalView(status: ApprovalStatus): Mark {
    match status
    case Pending => Open
    case Approved => Shut(How.Approved)
    case Denied => Shut(How.Denied)
    case TimedOut => Shut(How.TimedOut)
    case Cancelled => Shut(How.Cancelled)
  }

  /** Clearing the blocking state leaves the same state as never setting it. */
  function Seen(m: Mark, x: Entity): Mark {
    if x.BlockEntity? && m.Shut? then Untouched else m
  }

  ghost predicate MarksAgree(h: History, s: State) {
    forall x :: View(s, x) == Seen(LastMark(h, x), x)
  }

  ghost predicate MilestonesAgree(h: History, s: State) {
    && s.lastSequence == |h|
    && (s.accepted <==> HasQueued(h))
    && (s.started <==> HasStarted(h))
    && (s.started ==> s.accepted)
    && s.terminalEvents == (if HasTerminal(h) then 1 else 0)
    && (HasTerminal(h) ==> s.accepted && AssertTerminalSettlement(s).Ok?)
    && (!HasTerminal(h) ==> s.status == (if s.started then TurnStatus.InProgress else TurnStatus.Queued))
  }

  ghost predicate ScopeAgrees(h: History, s: State) {
    && (h == [] ==> s.turnId.None? && s.threadId.None?)
    && (h != [] ==> s.turnId == Some(h[0].turnId) && s.threadId == Some(h[0].threadId))
  }

  ghost predicate KindsAgree(h: History, s: State) {
    forall id, kind :: Get(s.itemKinds, id) == Some(kind) <==> HasItem(h, id, kind)
  }

  ghost predicate ParentsAgree(h: History, s: State) {
    forall c, id :: Get(s.toolCallItems, c) == Some(id) <==> HasCall(h, c, id)
  }

  /** The state after an accepted prefix is determined by the prefix. */
  ghost predicate Reflects(h: History, s: State) {
    && MarksAgree(h, s)
    && MilestonesAgree(h, s)
    && ScopeAgrees(h, s)
    && KindsAgree(h, s)
    && ParentsAgree(h, s)
  }

  lemma ViewMeaning(h: History, s: State, x: Entity)
    requires MarksAgree(h, s)
    ensures View(s, x).Open? <==> Opened(h, x)
    ensures !x.BlockEntity? ==> (View(s, x).Untouched? <==> NeverTouched(h, x))
    ensures !View(s, x).Limbo?
  {
    LastMarkMeaning(h, x);
    assert View(s, x) == Seen(LastMark(h, x), x);
  }

  lemma HasAppend(h: History, e: Event)
    ensures HasQueued(h + [e]) <==> HasQueued(h) || IsQueued(e)
    ensures HasStarted(h + [e]) <==> HasStarted(h) || IsStarted(e)
    ensures HasTerminal(h + [e]) <==> HasTerminal(h) || IsTerminalEvent(e)
    ensures forall id, kind :: HasItem(h + [e], id, kind) <==> HasItem(h, id, kind) || StartsItem(e, id, kind)
    ensures forall c, id :: HasCall(h + [e], c, id) <==> HasCall(h, c, id) || StartsCall(e, c, id)
  {
    assert e in h + [e];
    forall id, kind
      ensures HasItem(h + [e], id, kind) <==> HasItem(h, id, kind) || StartsItem(e, id, kind)
    {
    }
    forall c, id
      ensures HasCall(h + [e], c, id) <==> HasCall(h, c, id) || StartsCall(e, c, id)
    {
    }
  }

  /** `n` differs from `s` in the marks that `e` makes and in no other. */
  ghost predicate Moves(s: State, e: Event, n: State) {
    forall x :: View(n, x) == if MarkBy(e, x).Untouched? then View(s, x) else Seen(MarkBy(e, x), x)
  }

  lemma MarksMove(h: History, s: State, e: Event, n: State)
    requires MarksAgree(h, s) && Moves(s, e, n)
    ensures MarksAgree(h + [e], n)
  {
    forall x ensures View(n, x) == Seen(LastMark(h + [e], x), x) {
      LastMarkOfAppend(h, e, x);
      assert View(s, x) == Seen(LastMark(h, x), x);
    }
  }

  /** No entry of the five maps is unsettled, and nothing blocks the turn. */
  ghost predicate AllSettled(s: State) {
    && s.blocking.Unblocked?
    && (forall id :: id in s.items ==> IsTerminalItem(s.items[id]))
    && (forall id :: id in s.approvals ==> !s.approvals[id].Pending?)
    && (forall id :: id in s.runAttempts ==> !s.runAttempts[id].Queued? && !s.runAttempts[id].Running?)
    && (forall id :: id in s.toolCalls ==> IsTerminalItem(s.toolCalls[id]))
    && (forall id :: id in s.requests ==> !s.requests[id].Pending?)
  }

  /** Settlement is validated exactly for a terminal turn with a matching outcome and nothing unsettled. */
  lemma SettlementScan(s: State)
    ensures AssertTerminalSettlement(s).Ok?
            <==> && IsTerminalTurn(s.status) && s.terminalOutcome.Some?
                 && OutcomeMatches(s.terminalOutcome.value, s.status) && AllSettled(s)
  {
  }

  lemma AllSettledIffNothingOpen(h: History, s: State)
    requires MarksAgree(h, s)
    ensures AllSettled(s) <==> NothingOpen(h)
  {
    forall x ensures (View(s, x).Open? <==> Opened(h, x)) && !View(s, x).Limbo? {
      ViewMeaning(h, s, x);
    }
    if NothingOpen(h) {
      assert !View(s, BlockEntity).Open?;
      forall id | id in s.items ensures IsTerminalItem(s.items[id]) { assert !View(s, ItemEntity(id)).Open?; }
      forall id | id in s.approvals ensures !s.approvals[id].Pending? { assert !View(s, ApprovalEntity(id)).Open?; }
      forall id | id in s.runAttempts ensures !s.runAttempts[id].Queued? && !s.runAttempts[id].Running? {
        assert !View(s, RunAttemptEntity(id)).Open?;
      }
      forall id | id in s.toolCalls ensures IsTerminalItem(s.toolCalls[id]) { assert !View(s, CallEntity(id)).Open?; }
      forall id | id in s.requests ensures !s.requests[id].Pending? { assert !View(s, RequestEntity(id)).Open?; }
    } else {
      var x :| Opened(h, x);
      assert View(s, x).Open?;
    }
  }

  // ----- one event at a time -----

  /** What `Apply` has established before it dispatches on the body. */
  ghost predicate Ready(h: History, s: State, e: Event) {
    && MarksAgree(h, s) && MilestonesAgree(h, s) && KindsAgree(h, s) && ParentsAgree(h, s)
    && s.threadId == Some(e.threadId) && s.turnId == Some(e.turnId)
    && (h != [] ==> h[0].threadId == e.threadId && h[0].turnId == e.turnId)
    && e.sequence == |h| + 1
    && !HasTerminal(h)
  }

  ghost predicate StepAgrees(h: History, e: Event, r: Step) {
    && (r.Ok? <==> LegalBody(h, e))
    && (r.Ok? ==> Reflects(h + [e], r.value))
  }

  /** The fields that only turn events may change. */
  ghost predicate SameFrame(s: State, n: State) {
    && n.lastSequence == s.lastSequence + 1
    && n.threadId == s.threadId && n.turnId == s.turnId && n.status == s.status
    && n.accepted == s.accepted && n.started == s.started && n.terminalEvents == s.terminalEvents
  }

  lemma Extend(h: History, s: State, e: Event, n: State)
    requires Ready(h, s, e) && Moves(s, e, n) && SameFrame(s, n)
    requires !e.body.Turn? || e.body.turn.BlockingChanged?
    requires KindsAgree(h + [e], n) && ParentsAgree(h + [e], n)
    ensures Reflects(h + [e], n)
  {
    HasAppend(h, e);
    MarksMove(h, s, e, n);
  }

  lemma KindsKept(h: History, s: State, e: Event, n: State)
    requires KindsAgree(h, s) && ParentsAgree(h, s)
    requires n.itemKinds == s.itemKinds && n.toolCallItems == s.toolCallItems
    requires e.body.Item? ==> !e.body.item.Started?
    requires e.body.Tool? ==> !e.body.tool.Started?
    ensures KindsAgree(h + [e], n) && ParentsAgree(h + [e], n)
  {
    HasAppend(h, e);
  }

  /** A step that starts no item and no call reflects the longer history once its marks move. */
  lemma ExtendPlain(h: History, s: State, e: Event, n: State)
    requires Ready(h, s, e) && Moves(s, e, n) && SameFrame(s, n)
    requires !e.body.Turn? || e.body.turn.BlockingChanged?
    requires n.itemKinds == s.itemKinds && n.toolCallItems == s.toolCallItems
    requires e.body.Item? ==> !e.body.item.Started?
    requires e.body.Tool? ==> !e.body.tool.Started?
    ensures Reflects(h + [e], n)
  {
    KindsKept(h, s, e, n);
    Extend(h, s, e, n);
  }

  lemma RunWrite(s: State, e: Event, n: State)
    requires e.body.Run?
    requires n == s.(lastSequence := s.lastSequence + 1,
                     runAttempts := s.runAttempts[e.runAttemptId := RunTarget(e.body.run)])
    ensures Moves(s, e, n)
  {
  }

  lemma RunGuard(h: History, s: State, e: Event)
    requires MarksAgree(h, s) && e.body.Run?
    ensures ApplyRun(s, e.runAttemptId, e.body.run).Ok?
            <==> LegalRunEvent(h, RunAttemptEntity(e.runAttemptId), e.body.run)
  {
    ViewMeaning(h, s, RunAttemptEntity(e.runAttemptId));
    var x := RunAttemptEntity(e.runAttemptId);
    assert View(s, x) == if e.runAttemptId in s.runAttempts then RunView(s.runAttempts[e.runAttemptId]) else Untouched;
  }

  lemma RunStep(h: History, s: State, e: Event)
    requires Ready(h, s, e) && e.body.Run?
    ensures StepAgrees(h, e, ApplyRun(s, e.runAttemptId, e.body.run))
  {
    RunGuard(h, s, e);
    var r := ApplyRun(s, e.runAttemptId, e.body.run);
    if r.Ok? {
      RunWrite(s, e, r.value);
      ExtendPlain(h, s, e, r.value);
    }
  }

  /** An event that marks nothing leaves a state that differs in its sequence alone. */
  lemma StillStep(h: History, s: State, e: Event, n: State)
    requires Ready(h, s, e) && n == s.(lastSequence := s.lastSequence + 1) && !e.body.Turn?
    requires forall x :: MarkBy(e, x).Untouched?
    ensures Reflects(h + [e], n)
  {
    assert e.body.Item? ==> MarkBy(e, ItemEntity(e.body.itemId)).Untouched?;
    assert e.body.Tool? ==> MarkBy(e, CallEntity(e.body.toolCallId)).Untouched?;
    ExtendPlain(h, s, e, n);
  }

  lemma ActiveAs(h: History, s: State, itemId: string, kind: ItemKind)
    requires MarksAgree(h, s) && KindsAgree(h, s)
    ensures Get(s.items, itemId) == Some(ItemStatus.Active) <==> Opened(h, ItemEntity(itemId))
    ensures Get(s.items, itemId) == Some(ItemStatus.Active) && Get(s.itemKinds, itemId) == Some(kind)
            <==> OpenedAs(h, itemId, kind)
  {
    ViewMeaning(h, s, ItemEntity(itemId));
  }

  lemma StartedItemIsTouched(h: History, id: string, kind: ItemKind)
    requires HasItem(h, id, kind)
    ensures !NeverTouched(h, ItemEntity(id))
  {
    var o :| 0 <= o < |h| && StartsItem(h[o], id, kind);
    assert Trail(h, ItemEntity(id))[o].Open?;
  }

  lemma StartedCallIsTouched(h: History, c: string, id: string)
    requires HasCall(h, c, id)
    ensures !NeverTouched(h, CallEntity(c))
  {
    var o :| 0 <= o < |h| && StartsCall(h[o], c, id);
    assert Trail(h, CallEntity(c))[o].Open?;
  }

  lemma ItemWrite(s: State, e: Event, n: State, to: ItemStatus)
    requires e.body.Item? && ItemMark(e.body.item) == ItemView(to) && !ItemView(to).Limbo?
    requires n.blocking == s.blocking && n.approvals == s.approvals && n.runAttempts == s.runAttempts
    requires n.toolCalls == s.toolCalls && n.requests == s.requests && n.items == s.items[e.body.itemId := to]
    ensures Moves(s, e, n)
  {
  }

  lemma ItemStartReflected(h: History, s: State, e: Event, kind: ItemKind, n: State)
    requires Ready(h, s, e) && e.body.Item? && StartsItem(e, e.body.itemId, kind)
    requires NeverTouched(h, ItemEntity(e.body.itemId))
    requires n == s.(lastSequence := s.lastSequence + 1, items := s.items[e.body.itemId := ItemStatus.Active],
                     itemKinds := s.itemKinds[e.body.itemId := kind])
    ensures Reflects(h + [e], n)
  {
    ItemWrite(s, e, n, ItemStatus.Active);
    HasAppend(h, e);
    forall j, k ensures Get(n.itemKinds, j) == Some(k) <==> HasItem(h + [e], j, k) {
      if j == e.body.itemId && HasItem(h, j, k) { StartedItemIsTouched(h, j, k); }
    }
    Extend(h, s, e, n);
  }

  lemma ItemStartStep(h: History, s: State, e: Event)
    requires Ready(h, s, e) && e.body.Item? && e.body.item.Started?
    ensures StepAgrees(h, e, ApplyItem(s, e.body.itemId, e.body.item, e.sequence))
  {
    var r := ApplyItem(s, e.body.itemId, e.body.item, e.sequence);
    ViewMeaning(h, s, ItemEntity(e.body.itemId));
    if r.Ok? {
      ItemStartReflected(h, s, e, e.body.item.kind.value, r.value);
    }
  }

  lemma ItemUseStep(h: History, s: State, e: Event)
    requires Ready(h, s, e) && e.body.Item? && ItemMark(e.body.item).Untouched?
    ensures StepAgrees(h, e, ApplyItem(s, e.body.itemId, e.body.item, e.sequence))
  {
    forall k {
      ActiveAs(h, s, e.body.itemId, k);
    }
    var r := ApplyItem(s, e.body.itemId, e.body.item, e.sequence);
    if r.Ok? {
      StillStep(h, s, e, r.value);
    }
  }

  /** The loop over the calls of a tool item rejects exactly when the history says its calls are not done. */
  lemma CallsDoneIff(h: History, s: State, n: State, itemId: string, to: ItemStatus)
    requires MarksAgree(h, s) && KindsAgree(h, s) && ParentsAgree(h, s) && IsTerminalItem(to)
    requires n.toolCalls == s.toolCalls && n.toolCallItems == s.toolCallItems && n.itemKinds == s.itemKinds
    ensures AssertToolItemSettled(n, itemId, to).Ok? <==> (HasItem(h, itemId, ToolCall) ==> CallsDone(h, itemId))
  {
    forall c ensures Get(s.toolCalls, c) == Some(ItemStatus.Active) <==> Opened(h, CallEntity(c)) {
      ViewMeaning(h, s, CallEntity(c));
    }
    forall c ensures HasCall(h, c, itemId) <==> c in s.toolCallItems && s.toolCallItems[c] == itemId {
      assert Get(s.toolCallItems, c) == Some(itemId) <==> HasCall(h, c, itemId);
    }
  }

  lemma ItemEndGuard(h: History, s: State, itemId: string, to: ItemStatus)
    requires MarksAgree(h, s) && KindsAgree(h, s) && ParentsAgree(h, s) && IsTerminalItem(to)
    ensures SetItem(s, itemId, to).Ok?
            <==> Opened(h, ItemEntity(itemId)) && (HasItem(h, itemId, ToolCall) ==> CallsDone(h, itemId))
    ensures SetItem(s, itemId, to).Ok? ==>
              SetItem(s, itemId, to).value == s.(lastSequence := s.lastSequence + 1, items := s.items[itemId := to])
  {
    var n := s.(lastSequence := s.lastSequence + 1, items := s.items[itemId := to]);
    var from := if itemId in s.items then s.items[itemId] else ItemStatus.NotStarted;
    assert from.Active? <==> Opened(h, ItemEntity(itemId)) by { ViewMeaning(h, s, ItemEntity(itemId)); }
    assert SetItem(s, itemId, to) == if from.Active? then AssertToolItemSettled(n, itemId, to)
                                     else Err(IllegalTransition(ItemSubject));
    CallsDoneIff(h, s, n, itemId, to);
  }

  lemma ItemEndReflected(h: History, s: State, e: Event, n: State, to: ItemStatus)
    requires Ready(h, s, e) && e.body.Item? && ItemMark(e.body.item).Shut? && ItemMark(e.body.item) == ItemView(to)
    requires n == s.(lastSequence := s.lastSequence + 1, items := s.items[e.body.itemId := to])
    ensures Reflects(h + [e], n)
  {
    ItemWrite(s, e, n, to);
    ExtendPlain(h, s, e, n);
  }

  lemma ItemEndStep(h: History, s: State, e: Event)
    requires Ready(h, s, e) && e.body.Item? && ItemMark(e.body.item).Shut?
    ensures StepAgrees(h, e, ApplyItem(s, e.body.itemId, e.body.item, e.sequence))
  {
    var to := ItemEnd(e.body.item);
    ItemEndGuard(h, s, e.body.itemId, to);
    if SetItem(s, e.body.itemId, to).Ok? {
      ItemEndReflected(h, s, e, SetItem(s, e.body.itemId, to).value, to);
    }
  }

  lemma CallWrite(s: State, e: Event, n: State, to: ToolCallStatus)
    requires e.body.Tool? && ToolMark(e.body.tool) == ItemView(to) && !ItemView(to).Limbo?
    requires n.blocking == s.blocking && n.approvals == s.approvals && n.runAttempts == s.runAttempts
    requires n.items == s.items && n.requests == s.requests && n.toolCalls == s.toolCalls[e.body.toolCallId := to]
    ensures Moves(s, e, n)
  {
  }

  lemma CallStartReflected(h: History, s: State, e: Event, n: State)
    requires Ready(h, s, e) && e.body.Tool? && e.body.tool.Started? && NeverTouched(h, CallEntity(e.body.toolCallId))
    requires n == s.(lastSequence := s.lastSequence + 1,
                     toolCalls := s.toolCalls[e.body.toolCallId := ItemStatus.Active],
                     toolCallItems := s.toolCallItems[e.body.toolCallId := e.body.itemId])
    ensures Reflects(h + [e], n)
  {
    CallWrite(s, e, n, ItemStatus.Active);
    HasAppend(h, e);
    forall c, id ensures Get(n.toolCallItems, c) == Some(id) <==> HasCall(h + [e], c, id) {
      if c == e.body.toolCallId && HasCall(h, c, id) { StartedCallIsTouched(h, c, id); }
    }
    Extend(h, s, e, n);
  }

  lemma ToolStartGuard(h: History, s: State, e: Event)
    requires Ready(h, s, e) && e.body.Tool? && e.body.tool.Started?
    ensures var r := ApplyTool(s, e.body.itemId, e.body.toolCallId, e.body.tool, e.sequence);
            && (r.Ok? <==> LegalBody(h, e))
            && (r.Ok? ==> r.value == s.(lastSequence := s.lastSequence + 1,
                                        toolCalls := s.toolCalls[e.body.toolCallId := ItemStatus.Active],
                                        toolCallItems := s.toolCallItems[e.body.toolCallId := e.body.itemId]))
  {
    ViewMeaning(h, s, CallEntity(e.body.toolCallId));
    ActiveAs(h, s, e.body.itemId, ToolCall);
  }

  lemma ToolStartStep(h: History, s: State, e: Event)
    requires Ready(h, s, e) && e.body.Tool? && e.body.tool.Started?
    ensures StepAgrees(h, e, ApplyTool(s, e.body.itemId, e.body.toolCallId, e.body.tool, e.sequence))
  {
    ToolStartGuard(h, s, e);
    var r := ApplyTool(s, e.body.itemId, e.body.toolCallId, e.body.tool, e.sequence);
    if r.Ok? { CallStartReflected(h, s, e, r.value); }
  }

  lemma ToolUseStep(h: History, s: State, e: Event)
    requires Ready(h, s, e) && e.body.Tool? && ToolMark(e.body.tool).Untouched?
    ensures StepAgrees(h, e, ApplyTool(s, e.body.itemId, e.body.toolCallId, e.body.tool, e.sequence))
  {
    var r := ApplyTool(s, e.body.itemId, e.body.toolCallId, e.body.tool, e.sequence);
    ViewMeaning(h, s, CallEntity(e.body.toolCallId));
    if r.Ok? { StillStep(h, s, e, r.value); }
  }

  lemma CallEndReflected(h: History, s: State, e: Event, n: State, to: ToolCallStatus)
    requires Ready(h, s, e) && e.body.Tool? && ToolMark(e.body.tool).Shut? && ToolMark(e.body.tool) == ItemView(to)
    requires n == s.(lastSequence := s.lastSequence + 1, toolCalls := s.toolCalls[e.body.toolCallId := to])
    ensures Reflects(h + [e], n)
  {
    CallWrite(s, e, n, to);
    ExtendPlain(h, s, e, n);
  }

  lemma ToolEndGuard(h: History, s: State, c: string, to: ToolCallStatus)
    requires MarksAgree(h, s) && IsTerminalItem(to)
    ensures SetToolCall(s, c, to).Ok? <==> Opened(h, CallEntity(c))
    ensures SetToolCall(s, c, to).Ok? ==>
              SetToolCall(s, c, to).value == s.(lastSequence := s.lastSequence + 1, toolCalls := s.toolCalls[c := to])
  {
    ViewMeaning(h, s, CallEntity(c));
  }

  lemma ToolEndStep(h: History, s: State, e: Event)
    requires Ready(h, s, e) && e.body.Tool? && ToolMark(e.body.tool).Shut?
    ensures StepAgrees(h, e, ApplyTool(s, e.body.itemId, e.body.toolCallId, e.body.tool, e.sequence))
  {
    var to := ToolEnd(e.body.tool);
    ToolEndGuard(h, s, e.body.toolCallId, to);
    if SetToolCall(s, e.body.toolCallId, to).Ok? {
      CallEndReflected(h, s, e, SetToolCall(s, e.body.toolCallId, to).value, to);
    }
  }

  lemma ApprovalWrite(s: State, e: Event, n: State, to: ApprovalStatus)
    requires e.body.Approval? && ApprovalMark(e.body.approval) == ApprovalView(to)
    requires n.blocking == s.blocking && n.items == s.items && n.runAttempts == s.runAttempts
    requires n.toolCalls == s.toolCalls && n.requests == s.requests
    requires n.approvals == s.approvals[e.body.approvalId := to]
    ensures Moves(s, e, n)
  {
  }

  lemma ApprovalRequestedStep(h: History, s: State, e: Event)
    requires Ready(h, s, e) && e.body.Approval? && e.body.approval.Requested?
    ensures StepAgrees(h, e, ApplyApproval(s, e.body.itemId, e.body.approvalId, e.body.approval))
  {
    ActiveAs(h, s, e.body.itemId, ApprovalRequest);
    if ApplyApproval(s, e.body.itemId, e.body.approvalId, e.body.approval).Ok? {
      var n := s.(lastSequence := s.lastSequence + 1,
                  approvals := s.approvals[e.body.approvalId := ApprovalStatus.Pending]);
      ApprovalWrite(s, e, n, ApprovalStatus.Pending);
      ExtendPlain(h, s, e, n);
    }
  }

  lemma DecisionGuard(h: History, s: State, id: string, to: ApprovalStatus)
    requires MarksAgree(h, s) && !to.Pending?
    ensures SetApproval(s, id, to).Ok? <==> NeverTouched(h, ApprovalEntity(id)) || Opened(h, ApprovalEntity(id))
    ensures SetApproval(s, id, to).Ok? ==>
              SetApproval(s, id, to).value == s.(lastSequence := s.lastSequence + 1, approvals := s.approvals[id := to])
  {
    ViewMeaning(h, s, ApprovalEntity(id));
  }

  lemma DecidedReflected(h: History, s: State, e: Event, n: State, to: ApprovalStatus)
    requires Ready(h, s, e) && e.body.Approval? && ApprovalMark(e.body.approval) == ApprovalView(to)
    requires n == s.(lastSequence := s.lastSequence + 1, approvals := s.approvals[e.body.approvalId := to])
    ensures Reflects(h + [e], n)
  {
    ApprovalWrite(s, e, n, to);
    ExtendPlain(h, s, e, n);
  }

  lemma DecisionMark(decision: Decision)
    ensures ApprovalMark(Decided(decision)) == ApprovalView(DecisionStatus(decision))
    ensures !DecisionStatus(decision).Pending?
  {
  }

  lemma DecidedStep(h: History, s: State, e: Event)
    requires Ready(h, s, e) && e.body.Approval? && e.body.approval.Decided?
    ensures StepAgrees(h, e, ApplyApproval(s, e.body.itemId, e.body.approvalId, e.body.approval))
  {
    var id, to := e.body.approvalId, DecisionStatus(e.body.approval.decision);
    var r := SetApproval(s, id, to);
    assert ApplyApproval(s, e.body.itemId, id, e.body.approval) == r;
    assert r.Ok? <==> LegalBody(h, e) by {
      DecisionMark(e.body.approval.decision);
      DecisionGuard(h, s, id, to);
    }
    assert r.Ok? ==> Reflects(h + [e], r.value) by {
      if r.Ok? {
        DecisionMark(e.body.approval.decision);
        DecisionGuard(h, s, id, to);
        DecidedReflected(h, s, e, r.value, to);
      }
    }
  }

  lemma RequestWrite(s: State, e: Event, n: State, to: RequestStatus)
    requires e.body.Request? && RequestMark(e.body.request) == if to.Pending? then Open else Shut(How.Resolved)
    requires n.blocking == s.blocking && n.items == s.items && n.runAttempts == s.runAttempts
    requires n.toolCalls == s.toolCalls && n.approvals == s.approvals
    requires n.requests == s.requests[e.body.requestId := to]
    ensures Moves(s, e, n)
  {
  }

  lemma RequestGuard(h: History, s: State, e: Event)
    requires Ready(h, s, e) && e.body.Request?
    ensures ApplyRequest(s, e.body.itemId, e.body.requestId, e.body.request, e.sequence).Ok? <==> LegalBody(h, e)
  {
    ViewMeaning(h, s, RequestEntity(e.body.requestId));
    ActiveAs(h, s, e.body.itemId, UserInputRequest);
  }

  lemma RequestedReflected(h: History, s: State, e: Event)
    requires Ready(h, s, e) && e.body.Request? && e.body.request.Requested?
    requires ApplyRequest(s, e.body.itemId, e.body.requestId, e.body.request, e.sequence).Ok?
    ensures Reflects(h + [e], ApplyRequest(s, e.body.itemId, e.body.requestId, e.body.request, e.sequence).value)
  {
    var n := s.(lastSequence := s.lastSequence + 1, requests := s.requests[e.body.requestId := RequestStatus.Pending]);
    RequestWrite(s, e, n, RequestStatus.Pending);
    ExtendPlain(h, s, e, n);
  }

  lemma ResolvedReflected(h: History, s: State, e: Event)
    requires Ready(h, s, e) && e.body.Request? && e.body.request.Resolved?
    requires ApplyRequest(s, e.body.itemId, e.body.requestId, e.body.request, e.sequence).Ok?
    ensures Reflects(h + [e], ApplyRequest(s, e.body.itemId, e.body.requestId, e.body.request, e.sequence).value)
  {
    var n := s.(lastSequence := s.lastSequence + 1, requests := s.requests[e.body.requestId := RequestStatus.Resolved]);
    RequestWrite(s, e, n, RequestStatus.Resolved);
    ExtendPlain(h, s, e, n);
  }

  lemma RequestStep(h: History, s: State, e: Event)
    requires Ready(h, s, e) && e.body.Request?
    ensures StepAgrees(h, e, ApplyRequest(s, e.body.itemId, e.body.requestId, e.body.request, e.sequence))
  {
    RequestGuard(h, s, e);
    var r := ApplyRequest(s, e.body.itemId, e.body.requestId, e.body.request, e.sequence);
    if r.Ok? {
      match e.body.request
      case Requested => RequestedReflected(h, s, e);
      case Responded => StillStep(h, s, e, r.value);
      case Resolved => ResolvedReflected(h, s, e);
    }
  }

  lemma BlockWrite(s: State, e: Event, n: State)
    requires e.body.Turn?
    requires n.items == s.items && n.runAttempts == s.runAttempts && n.toolCalls == s.toolCalls
    requires n.approvals == s.approvals && n.requests == s.requests
    requires if e.body.turn.BlockingChanged? then e.body.turn.blocking == Some(n.blocking) else n.blocking == s.blocking
    ensures Moves(s, e, n)
  {
  }

  lemma TerminalShape(s: State, status: TurnStatus, outcome: Outcome)
    requires s.accepted && s.started && s.status.InProgress? && IsTerminalTurn(status)
    ensures ApplyTerminal(s, status, outcome) == AssertTerminalSettlement(s.(
              lastSequence := s.lastSequence + 1, status := status,
              terminalOutcome := Some(outcome), terminalEvents := s.terminalEvents + 1))
  {
  }

  lemma TerminalGuard(h: History, s: State, status: TurnStatus, outcome: Outcome)
    requires MarksAgree(h, s) && s.accepted && s.started && s.status.InProgress? && IsTerminalTurn(status)
    ensures ApplyTerminal(s, status, outcome).Ok? <==> OutcomeMatches(outcome, status) && NothingOpen(h)
  {
    var n := s.(lastSequence := s.lastSequence + 1, status := status,
                terminalOutcome := Some(outcome), terminalEvents := s.terminalEvents + 1);
    TerminalShape(s, status, outcome);
    SettlementScan(n);
    AllSettledIffNothingOpen(h, s);
    assert AllSettled(n) <==> AllSettled(s);
  }

  /** Turn events start no item and no call, so only the milestones are left to follow. */
  lemma TurnReflected(h: History, s: State, e: Event, n: State)
    requires Ready(h, s, e) && e.body.Turn? && Moves(s, e, n) && MilestonesAgree(h + [e], n)
    requires n.itemKinds == s.itemKinds && n.toolCallItems == s.toolCallItems
    requires n.threadId == s.threadId && n.turnId == s.turnId
    ensures Reflects(h + [e], n)
  {
    MarksMove(h, s, e, n);
    KindsKept(h, s, e, n);
  }

  lemma TerminalStep(h: History, s: State, e: Event, status: TurnStatus, outcome: Outcome)
    requires Ready(h, s, e) && IsTerminalEvent(e) && IsTerminalTurn(status)
    requires ApplyTurn(s, e.body.turn) == ApplyTerminal(s, status, outcome)
    requires LegalTurnEvent(h, e.body.turn) <==> HasStarted(h) && OutcomeMatches(outcome, status) && NothingOpen(h)
    ensures StepAgrees(h, e, ApplyTurn(s, e.body.turn))
  {
    if s.started {
      TerminalGuard(h, s, status, outcome);
      TerminalShape(s, status, outcome);
      var r := ApplyTerminal(s, status, outcome);
      if r.Ok? {
        BlockWrite(s, e, r.value);
        HasAppend(h, e);
        TurnReflected(h, s, e, r.value);
      }
    }
  }

  lemma MilestoneStep(h: History, s: State, e: Event)
    requires Ready(h, s, e) && e.body.Turn? && !IsTerminalEvent(e)
    ensures StepAgrees(h, e, ApplyTurn(s, e.body.turn))
  {
    var r := ApplyTurn(s, e.body.turn);
    if r.Ok? {
      BlockWrite(s, e, r.value);
      HasAppend(h, e);
      TurnReflected(h, s, e, r.value);
    }
  }

  lemma TurnStep(h: History, s: State, e: Event)
    requires Ready(h, s, e) && e.body.Turn?
    ensures StepAgrees(h, e, ApplyTurn(s, e.body.turn))
  {
    match e.body.turn
    case Completed(outcome) => TerminalStep(h, s, e, TurnStatus.Completed, outcome);
    case Interrupted(outcome) => TerminalStep(h, s, e, TurnStatus.Interrupted, outcome);
    case Failed(outcome) => TerminalStep(h, s, e, TurnStatus.Failed, outcome);
    case _ => MilestoneStep(h, s, e);
  }

  lemma BodyStep(h: History, s: State, e: Event)
    requires Ready(h, s, e)
    requires s.lastSequence + 1 == e.sequence && s.terminalEvents == 0
    ensures StepAgrees(h, e, Apply(s, e))
  {
    match e.body
    case Turn(_) => TurnStep(h, s, e);
    case Run(_) => RunStep(h, s, e);
    case Item(_, item) =>
      if item.Started? { ItemStartStep(h, s, e); }
      else if ItemMark(item).Untouched? { ItemUseStep(h, s, e); }
      else { ItemEndStep(h, s, e); }
    case Tool(_, _, tool) =>
      if tool.Started? { ToolStartStep(h, s, e); }
      else if ToolMark(tool).Untouched? { ToolUseStep(h, s, e); }
      else { ToolEndStep(h, s, e); }
    case Approval(_, _, approval) =>
      if approval.Requested? { ApprovalRequestedStep(h, s, e); } else { DecidedStep(h, s, e); }
    case Request(_, _, _) => RequestStep(h, s, e);
    case Other(_) => StillStep(h, s, e, Apply(s, e).value);
  }

  /** `e` has the next position and the scope of the history, which has not settled. */
  ghost predicate Fits(h: History, e: Event) {
    && e.sequence == |h| + 1 && !HasTerminal(h)
    && (h != [] ==> e.threadId == h[0].threadId && e.turnId == h[0].turnId)
  }

  /** The three checks made before the body is looked at, and what they leave. */
  lemma Admission(h: History, s: State, e: Event)
    requires Reflects(h, s)
    ensures Apply(s, e).Ok? ==> e.sequence == |h| + 1 && !HasTerminal(h)
                                && (h != [] ==> e.threadId == h[0].threadId && e.turnId == h[0].turnId)
    ensures Fits(h, e) ==>
              && BindScope(s, e).Ok? && Ready(h, BindScope(s, e).value, e)
              && Apply(s, e) == Apply(BindScope(s, e).value, e)
  {
    var scoped := s.(threadId := Some(e.threadId), turnId := Some(e.turnId));
    assert forall x :: View(scoped, x) == View(s, x);
  }

  lemma StepIffLegal(h: History, s: State, e: Event)
    requires Reflects(h, s)
    ensures Apply(s, e).Ok? <==> LegalStep(h, e)
    ensures Apply(s, e).Ok? ==> Reflects(h + [e], Apply(s, e).value)
  {
    Admission(h, s, e);
    if Fits(h, e) {
      BodyStep(h, BindScope(s, e).value, e);
    }
  }

  lemma InitialReflects()
    ensures Reflects([], INITIAL)
  {
    forall x ensures View(INITIAL, x) == Seen(LastMark([], x), x) {
      assert Trail([], x) == [];
    }
  }

  /** Folding is legal exactly when every step is; the state reached reflects the whole history. */
  lemma {:induction false} FoldIffLegal(h: History, s: State, es: History)
    requires Reflects(h, s)
    ensures ApplyAll(s, es).Ok? <==> forall k :: 0 <= k < |es| ==> LegalStep(h + es[..k], es[k])
    ensures ApplyAll(s, es).Ok? ==> Reflects(h + es, ApplyAll(s, es).value)
    decreases |es|
  {
    hide Reflects, LegalStep, Apply;
    if es == [] {
      assert h + es == h;
    } else {
      var e, rest := es[0], es[1..];
      StepIffLegal(h, s, e);
      assert h + es[..0] == h;
      assert LegalStep(h + es[..0], es[0]) <==> LegalStep(h, e);
      forall k | 0 <= k < |rest| ensures h + es[..k + 1] == (h + [e]) + rest[..k] && es[k + 1] == rest[k] {
        assert es[..k + 1] == [e] + rest[..k];
      }
      if Apply(s, e).Ok? {
        FoldIffLegal(h + [e], Apply(s, e).value, rest);
        assert (h + [e]) + rest == h + es;
        if ApplyAll(s, es).Ok? {
          forall k | 0 <= k < |es| ensures LegalStep(h + es[..k], es[k]) {
            if k > 0 { assert LegalStep((h + [e]) + rest[..k - 1], rest[k - 1]); }
          }
        }
        if forall k :: 0 <= k < |es| ==> LegalStep(h + es[..k], es[k]) {
          forall k | 0 <= k < |rest| ensures LegalStep((h + [e]) + rest[..k], rest[k]) {
            assert LegalStep(h + es[..k + 1], es[k + 1]);
          }
        }
      }
    }
  }

  /** Every state that replay reaches reflects the events consumed so far. */
  lemma ReachableReflects(es: History)
    ensures ApplyAll(INITIAL, es).Ok? <==> LegalHistory(es)
    ensures ApplyAll(INITIAL, es).Ok? ==> Reflects(es, ApplyAll(INITIAL, es).value)
  {
    InitialReflects();
    FoldIffLegal([], INITIAL, es);
    assert [] + es == es;
    forall k | 0 <= k < |es| ensures [] + es[..k] == es[..k] { }
  }

  lemma TerminalOnlyAtEnd(es: History)
    requires LegalHistory(es)
    ensures forall k :: 0 <= k < |es| - 1 ==> !IsTerminalEvent(es[k])
    ensures HasTerminal(es) <==> es != [] && IsTerminalEvent(es[|es| - 1])
  {
    forall k | 0 <= k < |es| - 1 ensures !IsTerminalEvent(es[k]) {
      assert LegalStep(es[..k + 1], es[k + 1]);
      assert es[..k + 1][k] == es[k];
    }
    if es != [] {
      assert es[|es| - 1] in es;
    }
  }

  lemma SettledState(h: History, s: State)
    requires MilestonesAgree(h, s)
    ensures AssertAcceptedTurnSettled(s).Ok? <==> HasTerminal(h)
    ensures AssertAcceptedTurnSettled(s).Ok? ==> AssertAcceptedTurnSettled(s).value == s
  {
  }

  /** Replay accepts a stream exactly when the stream is legal and its last event is terminal. */
  lemma AcceptedIffLegal(es: History)
    ensures Replay(es).Ok? <==> LegalTurn(es)
    ensures Replay(es).Ok? ==> Reflects(es, Replay(es).value)
  {
    ReachableReflects(es);
    if LegalHistory(es) {
      SettledState(es, ApplyAll(INITIAL, es).value);
      TerminalOnlyAtEnd(es);
    }
  }
}

/** Folding a stream of lifecycle events into a turn state, rejecting every stream that does not settle. */
module LifecycleReplay {
  import opened Wrappers
  import opened LifecycleProtocol

  datatype State = State(
    threadId: Option<string>,
    turnId: Option<string>,
    status: TurnStatus,
    blocking: BlockingState,
    terminalOutcome: Option<Outcome>,
    runAttempts: map<string, RunAttemptStatus>,
    items: map<string, ItemStatus>,
    toolCalls: map<string, ToolCallStatus>,
    approvals: map<string, ApprovalStatus>,
    lastSequence: nat,
    accepted: bool,
    started: bool,
    terminalEvents: nat,
    itemKinds: map<string, ItemKind>,
    toolCallItems: map<string, string>,
    requests: map<string, RequestStatus>)

  type Step = Result<State, Fault>

  const INITIAL := State(
    None, None, TurnStatus.Queued, Unblocked, None, map[], map[], map[], map[], 0, false, false, 0, map[], map[], map[])

  function Replay(events: seq<Event>): Step {
    var state :- ApplyAll(INITIAL, events);
    AssertAcceptedTurnSettled(state)
  }

  function ApplyAll(state: State, events: seq<Event>): Step
    decreases |events|
  {
    if events == [] then Ok(state)
    else
      var next :- Apply(state, events[0]);
      ApplyAll(next, events[1..])
  }

  /** Going on from the outcome of an earlier fold. */
  function Continue(r: Step, events: seq<Event>): Step {
    var state :- r;
    ApplyAll(state, events)
  }

  /** Folding a concatenation is folding the first part and going on with the second. */
  lemma {:induction false} ApplyAllSplits(s: State, a: seq<Event>, b: seq<Event>)
    ensures ApplyAll(s, a + b) == Continue(ApplyAll(s, a), b)
    decreases |a|
  {
    if a == [] {
      assert a + b == b;
    } else {
      assert (a + b)[0] == a[0] && (a + b)[1..] == a[1..] + b;
      if Apply(s, a[0]).Ok? { ApplyAllSplits(Apply(s, a[0]).value, a[1..], b); }
    }
  }

  lemma FoldOneMore(s: State, es: seq<Event>, e: Event)
    requires ApplyAll(s, es).Ok?
    ensures ApplyAll(s, es + [e]) == Apply(ApplyAll(s, es).value, e)
  {
    hide ApplyAll, Apply;
    ApplyAllSplits(s, es, [e]);
    FoldOne(ApplyAll(s, es).value, e);
  }

  lemma FoldOne(s: State, e: Event)
    ensures ApplyAll(s, [e]) == Apply(s, e)
  {
    hide Apply;
    assert [e][0] == e && [e][1..] == [];
    if Apply(s, e).Ok? { assert ApplyAll(Apply(s, e).value, []) == Ok(Apply(s, e).value); }
  }

  function Apply(state: State, e: Event): Step {
    if e.sequence != state.lastSequence + 1 then Err(SequenceNotContiguous)
    else
      var scoped :- BindScope(state, e);
      if scoped.terminalEvents > 0 && IsTerminalTurn(scoped.status) then Err(TurnIsTerminal)
      else
        match e.body
        case Turn(turn) => ApplyTurn(scoped, turn)
        case Run(run) => ApplyRun(scoped, e.runAttemptId, run)
        case Item(itemId, item) => ApplyItem(scoped, itemId, item, e.sequence)
        case Tool(itemId, toolCallId, tool) => ApplyTool(scoped, itemId, toolCallId, tool, e.sequence)
        case Approval(itemId, approvalId, approval) => ApplyApproval(scoped, itemId, approvalId, approval)
        case Request(itemId, requestId, request) => ApplyRequest(scoped, itemId, requestId, request, e.sequence)
        case Other(_) => Ok(Advance(scoped, e.sequence))
  }

  function BindScope(state: State, e: Event): Step {
    if state.turnId.None? then Ok(state.(threadId := Some(e.threadId), turnId := Some(e.turnId)))
    else if state.threadId != Some(e.threadId) then Err(ThreadChanged)
    else if state.turnId != Some(e.turnId) then Err(TurnChanged)
    else Ok(state)
  }

  function ApplyTurn(state: State, turn: TurnEvent): Step {
    match turn
    case Queued =>
      if state.accepted then Err(AcceptedTwice)
      else Ok(Advance(state, state.lastSequence + 1).(accepted := true))
    case Started =>
      if !state.accepted then Err(NotAccepted)
      else if state.started then Err(StartedTwice)
      else
        var status :- Transition(TurnTargets(state.status), TurnStatus.InProgress, TurnSubject);
        Ok(Advance(state, state.lastSequence + 1).(started := true, status := status))
    case BlockingChanged(blocking) =>
      var _ :- RequireStarted(state);
      if blocking.None? then Err(BadPayload)
      else Ok(Advance(state, state.lastSequence + 1).(blocking := blocking.value))
    case Completed(outcome) => ApplyTerminal(state, TurnStatus.Completed, outcome)
    case Interrupted(outcome) => ApplyTerminal(state, TurnStatus.Interrupted, outcome)
    case Failed(outcome) => ApplyTerminal(state, TurnStatus.Failed, outcome)
  }

  function ApplyTerminal(state: State, status: TurnStatus, outcome: Outcome): Step {
    var _ :- RequireStarted(state);
    var reached :- Transition(TurnTargets(state.status), status, TurnSubject);
    var next := Advance(state, state.lastSequence + 1)
      .(status := reached, terminalOutcome := Some(outcome), terminalEvents := state.terminalEvents + 1);
    AssertTerminalSettlement(next)
  }

  function ApplyRun(state: State, runAttemptId: string, run: RunEvent): Step {
    SetRunAttempt(state, runAttemptId, RunTarget(run))
  }

  function RunTarget(run: RunEvent): RunAttemptStatus {
    match run
    case Started => RunAttemptStatus.Running
    case Succeeded => RunAttemptStatus.Succeeded
    case Interrupted => RunAttemptStatus.Interrupted
    case Failed => RunAttemptStatus.Failed
  }

  function ApplyItem(state: State, itemId: string, item: ItemEvent, sequence: nat): Step {
    match item
    case Started(kind) =>
      var _ :- RequireStarted(state);
      if kind.None? then Err(BadPayload)
      else
        var next :- SetItem(state, itemId, ItemStatus.Active);
        Ok(next.(itemKinds := state.itemKinds[itemId := kind.value]))
    case Updated => RequireActiveItem(state, itemId, sequence)
    case ReasoningDelta => RequireActiveItemKind(state, itemId, Reasoning, sequence)
    case MessageDelta => RequireActiveItemKind(state, itemId, AssistantMessage, sequence)
    case PlanUpdated => RequireActiveItemKind(state, itemId, Plan, sequence)
    case CommandOutput => RequireActiveItemKind(state, itemId, CommandExecution, sequence)
    case FilePatched => RequireActiveItemKind(state, itemId, FileChange, sequence)
    case _ => SetItem(state, itemId, ItemEnd(item))
  }

  function ItemEnd(item: ItemEvent): ItemStatus
    requires item.Completed? || item.Failed? || item.Declined? || item.Interrupted?
  {
    match item
    case Completed => ItemStatus.Completed
    case Failed => ItemStatus.Failed
    case Declined => ItemStatus.Declined
    case Interrupted => ItemStatus.Interrupted
  }

  function ApplyTool(state: State, itemId: string, toolCallId: string, tool: ToolEvent, sequence: nat): Step {
    match tool
    case Started =>
      var _ :- RequireActiveItemKind(state, itemId, ToolCall, state.lastSequence + 1);
      var next :- SetToolCall(state, toolCallId, ItemStatus.Active);
      Ok(next.(toolCallItems := state.toolCallItems[toolCallId := itemId]))
    case InputDelta => RequireActiveToolCall(state, toolCallId, sequence)
    case OutputDelta => RequireActiveToolCall(state, toolCallId, sequence)
    case _ => SetToolCall(state, toolCallId, ToolEnd(tool))
  }

  function ToolEnd(tool: ToolEvent): ToolCallStatus
    requires tool.Completed? || tool.Failed? || tool.Declined? || tool.Interrupted?
  {
    match tool
    case Completed => ItemStatus.Completed
    case Failed => ItemStatus.Failed
    case Declined => ItemStatus.Declined
    case Interrupted => ItemStatus.Interrupted
  }

  function ApplyApproval(state: State, itemId: string, approvalId: string, approval: ApprovalEvent): Step {
    match approval
    case Requested =>
      var _ :- RequireActiveItemKind(state, itemId, ApprovalRequest, state.lastSequence + 1);
      Ok(Advance(state, state.lastSequence + 1)
         .(approvals := state.approvals[approvalId := ApprovalStatus.Pending]))
    case Decided(decision) => SetApproval(state, approvalId, DecisionStatus(decision))
  }

  function DecisionStatus(decision: Decision): ApprovalStatus {
    match decision
    case Approved => ApprovalStatus.Approved
    case Denied => ApprovalStatus.Denied
    case TimedOut => ApprovalStatus.TimedOut
    case Cancelled => ApprovalStatus.Cancelled
  }

  function ApplyRequest(state: State, itemId: string, requestId: string, request: RequestEvent, sequence: nat): Step {
    match request
    case Requested =>
      var _ :- RequireActiveItemKind(state, itemId, UserInputRequest, state.lastSequence + 1);
      Ok(Advance(state, state.lastSequence + 1)
         .(requests := state.requests[requestId := RequestStatus.Pending]))
    case Responded => RequirePendingRequest(state, requestId, sequence)
    case Resolved =>
      var _ :- RequirePendingRequest(state, requestId, state.lastSequence + 1);
      Ok(Advance(state, state.lastSequence + 1)
         .(requests := state.requests[requestId := RequestStatus.Resolved]))
  }

  function SetRunAttempt(state: State, runAttemptId: string, to: RunAttemptStatus): Step {
    var from := if runAttemptId in state.runAttempts then state.runAttempts[runAttemptId] else RunAttemptStatus.Queued;
    var status :- Transition(RunAttemptTargets(from), to, RunAttemptSubject);
    Ok(Advance(state, state.lastSequence + 1).(runAttempts := state.runAttempts[runAttemptId := status]))
  }

  function SetItem(state: State, itemId: string, to: ItemStatus): Step {
    var from := if itemId in state.items then state.items[itemId] else ItemStatus.NotStarted;
    var status :- Transition(ItemTargets(from), to, ItemSubject);
    var next := Advance(state, state.lastSequence + 1).(items := state.items[itemId := status]);
    AssertToolItemSettled(next, itemId, to)
  }

  function SetToolCall(state: State, toolCallId: string, to: ToolCallStatus): Step {
    var from := if toolCallId in state.toolCalls then state.toolCalls[toolCallId] else ItemStatus.NotStarted;
    var status :- Transition(ItemTargets(from), to, ToolCallSubject);
    Ok(Advance(state, state.lastSequence + 1).(toolCalls := state.toolCalls[toolCallId := status]))
  }

  function SetApproval(state: State, approvalId: string, to: ApprovalStatus): Step {
    var from := if approvalId in state.approvals then state.approvals[approvalId] else ApprovalStatus.Pending;
    var status :- Transition(ApprovalTargets(from), to, ApprovalSubject);
    Ok(Advance(state, state.lastSequence + 1).(approvals := state.approvals[approvalId := status]))
  }

  function RequireActiveItem(state: State, itemId: string, sequence: nat): Step {
    if Get(state.items, itemId) != Some(ItemStatus.Active) then Err(ItemNotActive)
    else Ok(Advance(state, sequence))
  }

  function RequireActiveItemKind(state: State, itemId: string, kind: ItemKind, sequence: nat): Step {
    var _ :- RequireActiveItem(state, itemId, sequence);
    if Get(state.itemKinds, itemId) != Some(kind) then Err(ItemKindMismatch)
    else Ok(Advance(state, sequence))
  }

  function RequireActiveToolCall(state: State, toolCallId: string, sequence: nat): Step {
    if Get(state.toolCalls, toolCallId) != Some(ItemStatus.Active) then Err(ToolCallNotActive)
    else Ok(Advance(state, sequence))
  }

  function RequirePendingRequest(state: State, requestId: string, sequence: nat): Step {
    if Get(state.requests, requestId) != Some(RequestStatus.Pending) then Err(RequestNotPending)
    else Ok(Advance(state, sequence))
  }

  function RequireStarted(state: State): Step {
    if !state.accepted then Err(NotAccepted)
    else if !state.started then Err(Fault.NotStarted)
    else Ok(state)
  }

  function AssertAcceptedTurnSettled(state: State): Step {
    if !state.accepted || state.terminalEvents != 1 then Err(NotSettledOnce)
    else AssertTerminalSettlement(state)
  }

  function AssertTerminalSettlement(state: State): (r: Step)
    ensures r.Ok? ==> r.value == state && IsTerminalTurn(state.status)
  {
    if !IsTerminalTurn(state.status) then Err(TurnNotTerminal)
    else if state.terminalOutcome.None? then Err(OutcomeMissing)
    else if !OutcomeMatches(state.terminalOutcome.value, state.status) then Err(OutcomeMismatch)
    else if state.blocking != Unblocked then Err(StillBlocked)
    else if exists id :: id in state.items && !IsTerminalItem(state.items[id]) then Err(ItemUnsettled)
    else if exists id :: id in state.approvals && state.approvals[id].Pending? then Err(ApprovalUnsettled)
    else if exists id :: id in state.runAttempts && (state.runAttempts[id].Queued? || state.runAttempts[id].Running?)
      then Err(RunAttemptActive)
    else if exists id :: id in state.toolCalls && !IsTerminalItem(state.toolCalls[id]) then Err(CallActive)
    else if exists id :: id in state.requests && state.requests[id].Pending? then Err(RequestPending)
    else Ok(state)
  }

  function AssertToolItemSettled(state: State, itemId: string, status: ItemStatus): Step {
    if Get(state.itemKinds, itemId) != Some(ToolCall) || !IsTerminalItem(status) then Ok(state)
    else if forall c :: c in state.toolCallItems ==> state.toolCallItems[c] != itemId then Err(ToolItemWithoutCall)
    else if exists c :: c in state.toolCallItems && state.toolCallItems[c] == itemId
                        && Get(state.toolCalls, c) == Some(ItemStatus.Active)
      then Err(ToolItemCallActive)
    else Ok(state)
  }

  function Advance(state: State, sequence: nat): State {
    state.(lastSequence := sequence)
  }
}

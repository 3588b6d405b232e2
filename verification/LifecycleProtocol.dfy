/** The vocabulary of the turn lifecycle: statuses, their transition tables and the events. */
module LifecycleProtocol {
  import opened Wrappers

  datatype TurnStatus = Queued | InProgress | AwaitingApproval | Completed | Interrupted | Failed

  datatype RunAttemptStatus = Queued | Running | Succeeded | Interrupted | Failed

  datatype ItemStatus = NotStarted | Active | Completed | Failed | Declined | Interrupted

  /** Tool calls share the statuses and the transition table of items. */
  type ToolCallStatus = ItemStatus

  datatype ApprovalStatus = Pending | Approved | Denied | TimedOut | Cancelled

  datatype RequestStatus = Pending | Resolved

  datatype ItemKind =
    | UserMessage | Commentary | Reasoning | Plan | AssistantMessage | ToolCall | CommandExecution
    | FileChange | GitOperation | ApprovalRequest | UserInputRequest | Artifact | ContextCompaction | Warning

  datatype BlockingState =
    | Unblocked
    | WaitingForApproval(itemId: string, approvalId: string)
    | WaitingForUserInput(itemId: string, requestId: string)
    | RetryScheduled(runAttemptId: string)

  datatype Outcome = Completed | Interrupted(reason: string) | Failed(failure: string)

  datatype TurnEvent =
    | Queued
    | Started
    | BlockingChanged(blocking: Option<BlockingState>)  // None: the payload fails its schema
    | Completed(outcome: Outcome)
    | Interrupted(outcome: Outcome)
    | Failed(outcome: Outcome)

  datatype RunEvent = Started | Succeeded | Interrupted | Failed

  datatype ItemEvent =
    | Started(kind: Option<ItemKind>)  // None: the payload carries no kind
    | Updated | ReasoningDelta | MessageDelta | PlanUpdated | CommandOutput | FilePatched
    | Completed | Failed | Declined | Interrupted

  datatype ToolEvent = Started | InputDelta | OutputDelta | Completed | Failed | Declined | Interrupted

  /** A decision carries any approval status but pending. */
  datatype Decision = Approved | Denied | TimedOut | Cancelled

  datatype ApprovalEvent = Requested | Decided(decision: Decision)

  datatype RequestEvent = Requested | Responded | Resolved

  datatype Body =
    | Turn(turn: TurnEvent)
    | Run(run: RunEvent)
    | Item(itemId: string, item: ItemEvent)
    | Tool(itemId: string, toolCallId: string, tool: ToolEvent)
    | Approval(itemId: string, approvalId: string, approval: ApprovalEvent)
    | Request(itemId: string, requestId: string, request: RequestEvent)
    | Other(kind: string)  // thread, input, usage, compaction, diff, workspace, artifact and hook events

  /** `rest` stands for the fields replay never reads: producer, schema version, timestamp, free payload. */
  datatype Event = Event(
    eventId: string,
    threadId: string,
    turnId: string,
    runAttemptId: string,
    sequence: nat,
    idempotencyKey: string,
    body: Body,
    rest: string)

  datatype Subject = TurnSubject | RunAttemptSubject | ItemSubject | ToolCallSubject | ApprovalSubject

  datatype Fault =
    | SequenceNotContiguous
    | ThreadChanged
    | TurnChanged
    | TurnIsTerminal
    | AcceptedTwice
    | StartedTwice
    | NotAccepted
    | NotStarted
    | BadPayload
    | IllegalTransition(subject: Subject)
    | ItemNotActive
    | ItemKindMismatch
    | ToolCallNotActive
    | RequestNotPending
    | ToolItemWithoutCall
    | ToolItemCallActive
    | NotSettledOnce
    | TurnNotTerminal
    | OutcomeMissing
    | OutcomeMismatch
    | StillBlocked
    | ItemUnsettled
    | ApprovalUnsettled
    | RunAttemptActive
    | CallActive
    | RequestPending

  function TurnTargets(from: TurnStatus): set<TurnStatus> {
    match from
    case Queued => {TurnStatus.InProgress, TurnStatus.Interrupted, TurnStatus.Failed}
    case InProgress =>
      {TurnStatus.InProgress, TurnStatus.AwaitingApproval, TurnStatus.Completed,
       TurnStatus.Interrupted, TurnStatus.Failed}
    case AwaitingApproval => {TurnStatus.InProgress, TurnStatus.Completed, TurnStatus.Interrupted, TurnStatus.Failed}
    case _ => {}
  }

  function RunAttemptTargets(from: RunAttemptStatus): set<RunAttemptStatus> {
    match from
    case Queued => {RunAttemptStatus.Running, RunAttemptStatus.Interrupted, RunAttemptStatus.Failed}
    case Running => {RunAttemptStatus.Succeeded, RunAttemptStatus.Interrupted, RunAttemptStatus.Failed}
    case _ => {}
  }

  function ItemTargets(from: ItemStatus): set<ItemStatus> {
    match from
    case NotStarted => {ItemStatus.Active}
    case Active => {ItemStatus.Completed, ItemStatus.Failed, ItemStatus.Declined, ItemStatus.Interrupted}
    case _ => {}
  }

  function ApprovalTargets(from: ApprovalStatus): set<ApprovalStatus> {
    match from
    case Pending => {ApprovalStatus.Approved, ApprovalStatus.Denied, ApprovalStatus.TimedOut, ApprovalStatus.Cancelled}
    case _ => {}
  }

  /** The transition check of every table: the target comes back exactly when it is listed. */
  function Transition<S(==)>(targets: set<S>, to: S, subject: Subject): Result<S, Fault> {
    if to in targets then Ok(to) else Err(IllegalTransition(subject))
  }

  predicate IsTerminalTurn(status: TurnStatus) {
    status.Completed? || status.Interrupted? || status.Failed?
  }

  predicate IsTerminalItem(status: ItemStatus) {
    status != ItemStatus.NotStarted && status != ItemStatus.Active
  }

  predicate IsTerminalEvent(e: Event) {
    e.body.Turn? && (e.body.turn.Completed? || e.body.turn.Interrupted? || e.body.turn.Failed?)
  }

  /** Whether a terminal outcome carries the status of the turn it settles. */
  predicate OutcomeMatches(outcome: Outcome, status: TurnStatus) {
    match outcome
    case Completed => status.Completed?
    case Interrupted(_) => status.Interrupted?
    case Failed(_) => status.Failed?
  }
}

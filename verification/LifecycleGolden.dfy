/** Concrete turns, some that replay accepts and one that it rejects, for any choice of ids. */
module LifecycleGolden {
  import opened Wrappers
  import opened LifecycleProtocol
  import opened LifecycleReplay

  /** The ids of a scenario; `call` names its call, approval or request, and each event has its own id and key. */
  datatype Cast = Cast(
    thread: string, turn: string, attempt: string, item: string, call: string,
    eventId: nat -> string, key: nat -> string)

  function At(ids: Cast, n: nat, body: Body): Event {
    Event(ids.eventId(n), ids.thread, ids.turn, ids.attempt, n, ids.key(n), body, "")
  }

  /** A turn up to the point where its tool call is running. */
  function ToolRunning(ids: Cast): seq<Event> {
    [At(ids, 1, Turn(TurnEvent.Queued)),
     At(ids, 2, Turn(TurnEvent.Started)),
     At(ids, 3, Run(RunEvent.Started)),
     At(ids, 4, Item(ids.item, ItemEvent.Started(Some(ToolCall)))),
     At(ids, 5, Tool(ids.item, ids.call, ToolEvent.Started))]
  }

  /** The user interrupts while the tool runs: call, item, attempt and turn settle in that order. */
  function ToolInterrupt(ids: Cast, reason: string): seq<Event> {
    ToolRunning(ids) +
    [At(ids, 6, Tool(ids.item, ids.call, ToolEvent.Interrupted)),
     At(ids, 7, Item(ids.item, ItemEvent.Interrupted)),
     At(ids, 8, Run(RunEvent.Interrupted)),
     At(ids, 9, Turn(TurnEvent.Interrupted(Outcome.Interrupted(reason))))]
  }

  ghost predicate Reaches(es: seq<Event>, s: State) {
    ApplyAll(INITIAL, es) == Ok(s)
  }

  lemma OneMore(es: seq<Event>, s: State, e: Event, n: State)
    requires Reaches(es, s) && Apply(s, e) == Ok(n)
    ensures Reaches(es + [e], n)
  {
    FoldOneMore(INITIAL, es, e);
  }

  /** The tool turn under way, with the given statuses of its call, item and attempt. */
  function Underway(ids: Cast, call: ItemStatus, item: ItemStatus, attempt: RunAttemptStatus, n: nat): State {
    INITIAL.(
      threadId := Some(ids.thread), turnId := Some(ids.turn), status := TurnStatus.InProgress,
      accepted := true, started := true, lastSequence := n,
      runAttempts := map[ids.attempt := attempt],
      items := map[ids.item := item], itemKinds := map[ids.item := ToolCall],
      toolCalls := map[ids.call := call], toolCallItems := map[ids.call := ids.item])
  }

  function RunningState(ids: Cast): State {
    Underway(ids, ItemStatus.Active, ItemStatus.Active, RunAttemptStatus.Running, 5)
  }

  function StoppedState(ids: Cast): State {
    Underway(ids, ItemStatus.Interrupted, ItemStatus.Interrupted, RunAttemptStatus.Interrupted, 8)
  }

  function StartedState(ids: Cast): State {
    INITIAL.(
      threadId := Some(ids.thread), turnId := Some(ids.turn), status := TurnStatus.InProgress,
      accepted := true, started := true, lastSequence := 2)
  }

  lemma StartIsReached(ids: Cast)
    ensures Reaches(ToolRunning(ids)[..2], StartedState(ids))
  {
    var es := ToolRunning(ids);
    var s1 := INITIAL.(threadId := Some(ids.thread), turnId := Some(ids.turn), accepted := true, lastSequence := 1);
    OneMore([], INITIAL, es[0], s1);
    OneMore([] + [es[0]], s1, es[1], StartedState(ids));
    assert es[..2] == [] + [es[0]] + [es[1]];
  }

  lemma RunningIsReached(ids: Cast)
    ensures Reaches(ToolRunning(ids), RunningState(ids))
  {
    var es, s2 := ToolRunning(ids), StartedState(ids);
    var s3 := s2.(runAttempts := s2.runAttempts[ids.attempt := RunAttemptStatus.Running], lastSequence := 3);
    var s4 := s3.(items := s3.items[ids.item := ItemStatus.Active],
                  itemKinds := s3.itemKinds[ids.item := ToolCall], lastSequence := 4);
    var s5 := s4.(toolCalls := s4.toolCalls[ids.call := ItemStatus.Active],
                  toolCallItems := s4.toolCallItems[ids.call := ids.item], lastSequence := 5);
    StartIsReached(ids);
    OneMore(es[..2], s2, es[2], s3);
    OneMore(es[..2] + [es[2]], s3, es[3], s4);
    OneMore(es[..2] + [es[2]] + [es[3]], s4, es[4], s5);
    assert es == es[..2] + [es[2]] + [es[3]] + [es[4]];
    assert s5 == RunningState(ids);
  }

  lemma CallStops(ids: Cast)
    ensures Apply(RunningState(ids), At(ids, 6, Tool(ids.item, ids.call, ToolEvent.Interrupted)))
            == Ok(Underway(ids, ItemStatus.Interrupted, ItemStatus.Active, RunAttemptStatus.Running, 6))
  {
    var s := RunningState(ids);
    assert s.toolCalls[ids.call := ItemStatus.Interrupted] == map[ids.call := ItemStatus.Interrupted];
  }

  lemma ItemStops(ids: Cast)
    ensures Apply(Underway(ids, ItemStatus.Interrupted, ItemStatus.Active, RunAttemptStatus.Running, 6),
                  At(ids, 7, Item(ids.item, ItemEvent.Interrupted)))
            == Ok(Underway(ids, ItemStatus.Interrupted, ItemStatus.Interrupted, RunAttemptStatus.Running, 7))
  {
    var s := Underway(ids, ItemStatus.Interrupted, ItemStatus.Active, RunAttemptStatus.Running, 6);
    assert s.items[ids.item := ItemStatus.Interrupted] == map[ids.item := ItemStatus.Interrupted];
    assert ids.call in s.toolCallItems;
  }

  lemma AttemptStops(ids: Cast)
    ensures Apply(Underway(ids, ItemStatus.Interrupted, ItemStatus.Interrupted, RunAttemptStatus.Running, 7),
                  At(ids, 8, Run(RunEvent.Interrupted)))
            == Ok(StoppedState(ids))
  {
    var s := Underway(ids, ItemStatus.Interrupted, ItemStatus.Interrupted, RunAttemptStatus.Running, 7);
    var stopped := RunAttemptStatus.Interrupted;
    assert s.runAttempts[ids.attempt := stopped] == map[ids.attempt := stopped];
  }

  function Settled(ids: Cast, reason: string): State {
    StoppedState(ids).(lastSequence := 9, status := TurnStatus.Interrupted, terminalEvents := 1,
                       terminalOutcome := Some(Outcome.Interrupted(reason)))
  }

  lemma TurnStops(ids: Cast, reason: string)
    ensures Apply(StoppedState(ids), At(ids, 9, Turn(TurnEvent.Interrupted(Outcome.Interrupted(reason)))))
            == Ok(Settled(ids, reason))
    ensures AssertAcceptedTurnSettled(Settled(ids, reason)) == Ok(Settled(ids, reason))
  {
  }

  /** The interrupted turn replays to a state in which everything it opened has been interrupted. */
  lemma ToolInterruptIsAccepted(ids: Cast, reason: string)
    ensures Replay(ToolInterrupt(ids, reason)) == Ok(Settled(ids, reason))
  {
    hide Apply, Reaches, RunningState, StoppedState, Settled, Underway, AssertAcceptedTurnSettled;
    var es, front := ToolInterrupt(ids, reason), ToolRunning(ids);
    RunningIsReached(ids);
    CallStops(ids);
    ItemStops(ids);
    AttemptStops(ids);
    TurnStops(ids, reason);
    var s6 := Underway(ids, ItemStatus.Interrupted, ItemStatus.Active, RunAttemptStatus.Running, 6);
    var s7 := Underway(ids, ItemStatus.Interrupted, ItemStatus.Interrupted, RunAttemptStatus.Running, 7);
    OneMore(front, RunningState(ids), es[5], s6);
    OneMore(front + [es[5]], s6, es[6], s7);
    OneMore(front + [es[5]] + [es[6]], s7, es[7], StoppedState(ids));
    OneMore(front + [es[5]] + [es[6]] + [es[7]], StoppedState(ids), es[8], Settled(ids, reason));
    assert es == front + [es[5]] + [es[6]] + [es[7]] + [es[8]];
    ReplayOfReached(es, Settled(ids, reason));
  }

  lemma ReplayOfReached(es: seq<Event>, s: State)
    requires Reaches(es, s)
    ensures Replay(es) == AssertAcceptedTurnSettled(s)
  {
  }

  /** Ending the tool item while its call still runs is refused, whatever the ending and whatever follows. */
  lemma ItemEndedUnderItsCall(ids: Cast, ending: ItemEvent, rest: seq<Event>)
    requires ending.Completed? || ending.Failed? || ending.Declined? || ending.Interrupted?
    ensures Replay(ToolRunning(ids) + [At(ids, 6, Item(ids.item, ending))] + rest) == Err(ToolItemCallActive)
  {
    var es, e := ToolRunning(ids), At(ids, 6, Item(ids.item, ending));
    RunningIsReached(ids);
    ItemCannotEnd(ids, ending);
    ApplyAllSplits(INITIAL, es, [e] + rest);
    assert es + [e] + rest == es + ([e] + rest);
  }

  lemma ItemCannotEnd(ids: Cast, ending: ItemEvent)
    requires ending.Completed? || ending.Failed? || ending.Declined? || ending.Interrupted?
    ensures Apply(RunningState(ids), At(ids, 6, Item(ids.item, ending))) == Err(ToolItemCallActive)
  {
    var s := RunningState(ids);
    assert ids.call in s.toolCallItems && s.toolCallItems[ids.call] == ids.item;
    assert Get(s.toolCalls, ids.call) == Some(ItemStatus.Active);
  }

  // ----- turns that wait for somebody -----

  /** A turn with one open item, which asks for an approval or for input. */
  function Scene(
    ids: Cast, kind: ItemKind, approvals: map<string, ApprovalStatus>, requests: map<string, RequestStatus>,
    blocking: BlockingState, n: nat): State
  {
    StartedState(ids).(
      lastSequence := n, runAttempts := map[ids.attempt := RunAttemptStatus.Running],
      items := map[ids.item := ItemStatus.Active], itemKinds := map[ids.item := kind],
      approvals := approvals, requests := requests, blocking := blocking)
  }

  function Opening(ids: Cast, kind: ItemKind): seq<Event> {
    [At(ids, 1, Turn(TurnEvent.Queued)),
     At(ids, 2, Turn(TurnEvent.Started)),
     At(ids, 3, Run(RunEvent.Started)),
     At(ids, 4, Item(ids.item, ItemEvent.Started(Some(kind))))]
  }

  function Closing(ids: Cast, n: nat): seq<Event> {
    [At(ids, n + 1, Item(ids.item, ItemEvent.Completed)),
     At(ids, n + 2, Run(RunEvent.Succeeded)),
     At(ids, n + 3, Turn(TurnEvent.Completed(Outcome.Completed)))]
  }

  /** An approval is requested, blocks the turn, is granted, and the turn completes. */
  function ApprovalTurn(ids: Cast): seq<Event> {
    Opening(ids, ApprovalRequest) +
    [At(ids, 5, Approval(ids.item, ids.call, ApprovalEvent.Requested)),
     At(ids, 6, Turn(BlockingChanged(Some(WaitingForApproval(ids.item, ids.call))))),
     At(ids, 7, Approval(ids.item, ids.call, Decided(Decision.Approved))),
     At(ids, 8, Turn(BlockingChanged(Some(Unblocked))))] +
    Closing(ids, 8)
  }

  /** Input is requested, blocks the turn, is given and resolved, and the turn completes. */
  function InputTurn(ids: Cast): seq<Event> {
    Opening(ids, UserInputRequest) +
    [At(ids, 5, Request(ids.item, ids.call, RequestEvent.Requested)),
     At(ids, 6, Turn(BlockingChanged(Some(WaitingForUserInput(ids.item, ids.call))))),
     At(ids, 7, Request(ids.item, ids.call, RequestEvent.Responded)),
     At(ids, 8, Request(ids.item, ids.call, RequestEvent.Resolved)),
     At(ids, 9, Turn(BlockingChanged(Some(Unblocked))))] +
    Closing(ids, 9)
  }

  /** The state of a completed turn, with the approvals and requests it has settled. */
  function Completed(
    ids: Cast, kind: ItemKind, approvals: map<string, ApprovalStatus>, requests: map<string, RequestStatus>, n: nat)
    : State
  {
    StartedState(ids).(
      lastSequence := n, runAttempts := map[ids.attempt := RunAttemptStatus.Succeeded],
      items := map[ids.item := ItemStatus.Completed], itemKinds := map[ids.item := kind],
      approvals := approvals, requests := requests,
      status := TurnStatus.Completed, terminalEvents := 1, terminalOutcome := Some(Outcome.Completed))
  }

  lemma SceneOpens(ids: Cast, kind: ItemKind)
    requires !kind.ToolCall?
    ensures Reaches(Opening(ids, kind), Scene(ids, kind, map[], map[], Unblocked, 4))
  {
    var es, s2 := Opening(ids, kind), StartedState(ids);
    var s3 := s2.(runAttempts := s2.runAttempts[ids.attempt := RunAttemptStatus.Running], lastSequence := 3);
    var s4 := s3.(items := s3.items[ids.item := ItemStatus.Active],
                  itemKinds := s3.itemKinds[ids.item := kind], lastSequence := 4);
    StartIsReached(ids);
    assert es[..2] == ToolRunning(ids)[..2];
    OneMore(es[..2], s2, es[2], s3);
    OneMore(es[..2] + [es[2]], s3, es[3], s4);
    assert es == es[..2] + [es[2]] + [es[3]];
    assert s4 == Scene(ids, kind, map[], map[], Unblocked, 4);
  }

  lemma SceneBlocks(
    ids: Cast, kind: ItemKind, approvals: map<string, ApprovalStatus>, requests: map<string, RequestStatus>,
    before: BlockingState, after: BlockingState, n: nat)
    ensures Apply(Scene(ids, kind, approvals, requests, before, n), At(ids, n + 1, Turn(BlockingChanged(Some(after)))))
            == Ok(Scene(ids, kind, approvals, requests, after, n + 1))
  {
  }

  lemma SceneAsksApproval(ids: Cast)
    ensures Apply(Scene(ids, ApprovalRequest, map[], map[], Unblocked, 4),
                  At(ids, 5, Approval(ids.item, ids.call, ApprovalEvent.Requested)))
            == Ok(Scene(ids, ApprovalRequest, map[ids.call := ApprovalStatus.Pending], map[], Unblocked, 5))
  {
    assert map[][ids.call := ApprovalStatus.Pending] == map[ids.call := ApprovalStatus.Pending];
  }

  lemma SceneApproves(ids: Cast, blocking: BlockingState)
    ensures Apply(Scene(ids, ApprovalRequest, map[ids.call := ApprovalStatus.Pending], map[], blocking, 6),
                  At(ids, 7, Approval(ids.item, ids.call, Decided(Decision.Approved))))
            == Ok(Scene(ids, ApprovalRequest, map[ids.call := ApprovalStatus.Approved], map[], blocking, 7))
  {
    var m := map[ids.call := ApprovalStatus.Pending];
    assert m[ids.call := ApprovalStatus.Approved] == map[ids.call := ApprovalStatus.Approved];
  }

  lemma SceneAsksInput(ids: Cast)
    ensures Apply(Scene(ids, UserInputRequest, map[], map[], Unblocked, 4),
                  At(ids, 5, Request(ids.item, ids.call, RequestEvent.Requested)))
            == Ok(Scene(ids, UserInputRequest, map[], map[ids.call := RequestStatus.Pending], Unblocked, 5))
  {
    assert map[][ids.call := RequestStatus.Pending] == map[ids.call := RequestStatus.Pending];
  }

  lemma SceneResponds(ids: Cast, blocking: BlockingState)
    ensures Apply(Scene(ids, UserInputRequest, map[], map[ids.call := RequestStatus.Pending], blocking, 6),
                  At(ids, 7, Request(ids.item, ids.call, RequestEvent.Responded)))
            == Ok(Scene(ids, UserInputRequest, map[], map[ids.call := RequestStatus.Pending], blocking, 7))
  {
  }

  lemma SceneResolves(ids: Cast, blocking: BlockingState)
    ensures Apply(Scene(ids, UserInputRequest, map[], map[ids.call := RequestStatus.Pending], blocking, 7),
                  At(ids, 8, Request(ids.item, ids.call, RequestEvent.Resolved)))
            == Ok(Scene(ids, UserInputRequest, map[], map[ids.call := RequestStatus.Resolved], blocking, 8))
  {
    var m := map[ids.call := RequestStatus.Pending];
    assert m[ids.call := RequestStatus.Resolved] == map[ids.call := RequestStatus.Resolved];
  }

  /** With nothing pending and nothing blocked, the item, the attempt and the turn can be closed. */
  lemma SceneCloses(
    ids: Cast, kind: ItemKind, approvals: map<string, ApprovalStatus>, requests: map<string, RequestStatus>, n: nat)
    requires !kind.ToolCall?
    requires forall a :: a in approvals ==> !approvals[a].Pending?
    requires forall r :: r in requests ==> !requests[r].Pending?
    ensures ApplyAll(Scene(ids, kind, approvals, requests, Unblocked, n), Closing(ids, n))
            == Ok(Completed(ids, kind, approvals, requests, n + 3))
    ensures AssertAcceptedTurnSettled(Completed(ids, kind, approvals, requests, n + 3))
            == Ok(Completed(ids, kind, approvals, requests, n + 3))
  {
    hide ApplyAll, AssertAcceptedTurnSettled, AssertTerminalSettlement;
    var es, s0 := Closing(ids, n), Scene(ids, kind, approvals, requests, Unblocked, n);
    var s1 := s0.(items := map[ids.item := ItemStatus.Completed], lastSequence := n + 1);
    var s2 := s1.(runAttempts := map[ids.attempt := RunAttemptStatus.Succeeded], lastSequence := n + 2);
    assert s0.items[ids.item := ItemStatus.Completed] == map[ids.item := ItemStatus.Completed];
    assert s1.runAttempts[ids.attempt := RunAttemptStatus.Succeeded] == map[ids.attempt := RunAttemptStatus.Succeeded];
    assert Apply(s0, es[0]) == Ok(s1);
    assert Apply(s1, es[1]) == Ok(s2);
    SceneSettles(ids, kind, approvals, requests, s2, n);
    FoldOne(s0, es[0]);
    FoldOneMore(s0, [es[0]], es[1]);
    FoldOneMore(s0, [es[0]] + [es[1]], es[2]);
    assert es == [es[0]] + [es[1]] + [es[2]];
  }

  lemma SceneSettles(
    ids: Cast, kind: ItemKind, approvals: map<string, ApprovalStatus>, requests: map<string, RequestStatus>,
    s: State, n: nat)
    requires forall a :: a in approvals ==> !approvals[a].Pending?
    requires forall r :: r in requests ==> !requests[r].Pending?
    requires s == Completed(ids, kind, approvals, requests, n + 2).(
                    status := TurnStatus.InProgress, terminalEvents := 0, terminalOutcome := None)
    ensures Apply(s, Closing(ids, n)[2]) == Ok(Completed(ids, kind, approvals, requests, n + 3))
    ensures AssertAcceptedTurnSettled(Completed(ids, kind, approvals, requests, n + 3))
            == Ok(Completed(ids, kind, approvals, requests, n + 3))
  {
  }

  lemma ReachOn(es: seq<Event>, s: State, more: seq<Event>, n: State)
    requires Reaches(es, s) && ApplyAll(s, more) == Ok(n)
    ensures Reaches(es + more, n)
  {
    hide ApplyAll;
    ApplyAllSplits(INITIAL, es, more);
  }

  /** The golden approval turn replays to a completed turn with the approval granted. */
  lemma ApprovalTurnIsAccepted(ids: Cast)
    ensures Replay(ApprovalTurn(ids))
            == Ok(Completed(ids, ApprovalRequest, map[ids.call := ApprovalStatus.Approved], map[], 11))
  {
    hide Apply, ApplyAll, Reaches, Scene, Completed, AssertAcceptedTurnSettled, Opening, Closing;
    var front, es := Opening(ids, ApprovalRequest), ApprovalTurn(ids)[|Opening(ids, ApprovalRequest)|..];
    var wait := WaitingForApproval(ids.item, ids.call);
    var pending, granted := map[ids.call := ApprovalStatus.Pending], map[ids.call := ApprovalStatus.Approved];
    SceneOpens(ids, ApprovalRequest);
    SceneAsksApproval(ids);
    SceneBlocks(ids, ApprovalRequest, pending, map[], Unblocked, wait, 5);
    SceneApproves(ids, wait);
    SceneBlocks(ids, ApprovalRequest, granted, map[], wait, Unblocked, 7);
    SceneCloses(ids, ApprovalRequest, granted, map[], 8);
    OneMore(front, Scene(ids, ApprovalRequest, map[], map[], Unblocked, 4), es[0],
            Scene(ids, ApprovalRequest, pending, map[], Unblocked, 5));
    OneMore(front + [es[0]], Scene(ids, ApprovalRequest, pending, map[], Unblocked, 5), es[1],
            Scene(ids, ApprovalRequest, pending, map[], wait, 6));
    OneMore(front + [es[0]] + [es[1]], Scene(ids, ApprovalRequest, pending, map[], wait, 6), es[2],
            Scene(ids, ApprovalRequest, granted, map[], wait, 7));
    OneMore(front + [es[0]] + [es[1]] + [es[2]], Scene(ids, ApprovalRequest, granted, map[], wait, 7), es[3],
            Scene(ids, ApprovalRequest, granted, map[], Unblocked, 8));
    ReachOn(front + [es[0]] + [es[1]] + [es[2]] + [es[3]], Scene(ids, ApprovalRequest, granted, map[], Unblocked, 8),
            Closing(ids, 8), Completed(ids, ApprovalRequest, granted, map[], 11));
    assert ApprovalTurn(ids) == front + [es[0]] + [es[1]] + [es[2]] + [es[3]] + Closing(ids, 8);
    ReplayOfReached(ApprovalTurn(ids), Completed(ids, ApprovalRequest, granted, map[], 11));
  }

  /** The golden input turn replays to a completed turn with the request resolved. */
  lemma InputTurnIsAccepted(ids: Cast)
    ensures Replay(InputTurn(ids))
            == Ok(Completed(ids, UserInputRequest, map[], map[ids.call := RequestStatus.Resolved], 12))
  {
    hide Apply, ApplyAll, Reaches, Scene, Completed, AssertAcceptedTurnSettled, Opening, Closing;
    var front, es := Opening(ids, UserInputRequest), InputTurn(ids)[|Opening(ids, UserInputRequest)|..];
    var wait := WaitingForUserInput(ids.item, ids.call);
    var pending, resolved := map[ids.call := RequestStatus.Pending], map[ids.call := RequestStatus.Resolved];
    SceneOpens(ids, UserInputRequest);
    SceneAsksInput(ids);
    SceneBlocks(ids, UserInputRequest, map[], pending, Unblocked, wait, 5);
    SceneResponds(ids, wait);
    SceneResolves(ids, wait);
    SceneBlocks(ids, UserInputRequest, map[], resolved, wait, Unblocked, 8);
    SceneCloses(ids, UserInputRequest, map[], resolved, 9);
    OneMore(front, Scene(ids, UserInputRequest, map[], map[], Unblocked, 4), es[0],
            Scene(ids, UserInputRequest, map[], pending, Unblocked, 5));
    OneMore(front + [es[0]], Scene(ids, UserInputRequest, map[], pending, Unblocked, 5), es[1],
            Scene(ids, UserInputRequest, map[], pending, wait, 6));
    OneMore(front + [es[0]] + [es[1]], Scene(ids, UserInputRequest, map[], pending, wait, 6), es[2],
            Scene(ids, UserInputRequest, map[], pending, wait, 7));
    OneMore(front + [es[0]] + [es[1]] + [es[2]], Scene(ids, UserInputRequest, map[], pending, wait, 7), es[3],
            Scene(ids, UserInputRequest, map[], resolved, wait, 8));
    OneMore(front + [es[0]] + [es[1]] + [es[2]] + [es[3]],
            Scene(ids, UserInputRequest, map[], resolved, wait, 8), es[4],
            Scene(ids, UserInputRequest, map[], resolved, Unblocked, 9));
    ReachOn(front + [es[0]] + [es[1]] + [es[2]] + [es[3]] + [es[4]],
            Scene(ids, UserInputRequest, map[], resolved, Unblocked, 9),
            Closing(ids, 9), Completed(ids, UserInputRequest, map[], resolved, 12));
    assert InputTurn(ids) == front + [es[0]] + [es[1]] + [es[2]] + [es[3]] + [es[4]] + Closing(ids, 9);
    ReplayOfReached(InputTurn(ids), Completed(ids, UserInputRequest, map[], resolved, 12));
  }
}

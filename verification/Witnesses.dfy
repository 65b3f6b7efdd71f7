/**
 Runs that show where recovery differs from the service that wrote the log (actions/service.py): the conditions of the
 theorems in Recovery.dfy are met by runs of a few operations.
 */
module Witnesses {
  import opened Basics
  import opened JsonValues
  import opened WorldModel
  import opened ActionModel
  import opened ActionLog
  import opened ActionRuns
  import opened Recovery
  import Hydration

  const TENANT := "demo"
  const UUID := "0123456789abcdef"
  const FIRST := "0000000000000001"
  const SECOND := "0000000000000002"
  const THIRD := "0000000000000003"

  const CANCELLATION := Proposal(CancelOrder, "order:1", [], "customer asked", [], "cancel-order-1", 1, [])

  /** What `ActionProposal` accepts; there are no parameters that could hold a credential. */
  predicate Admissible(p: Proposal) {
    && |p.targetEntity| > 6 && p.targetEntity[..6] == "order:" && ':' !in p.targetEntity[6..]
    && p.parameters == [] && 1 <= |p.reason| <= 2000 && |p.evidenceRefs| <= 50
    && 8 <= |p.idempotencyKey| <= 255 && p.expectedStateVersion >= 1
  }

  lemma CancellationIsAdmissible()
    ensures Admissible(CANCELLATION)
  {
  }

  /** The service holds one action, with these event ids in its log. */
  ghost predicate Alone(sys: System, id: string, status: ActionStatus, ids: set<string>) {
    var s := sys.service;
    && Owned(s, TENANT, id) && s.actions[id].proposal == CANCELLATION && s.actions[id].decision.status == status
    && (status == ApprovalRequired ==> s.actions[id].decision.requiredRole == Some(Operations))
    && s.executions == map[] && sys.calls == []
    && id in s.events && s.events[id] == sys.log
    && (forall a | a in s.events :: a == id)
    && (forall i | 0 <= i < |sys.log| :: sys.log[i].body.eventId in ids && !IsAcceptance(sys.log[i]))
  }

  lemma NewIdIsFresh(sys: System, id: string, status: ActionStatus, ids: set<string>, uuid: string)
    requires Alone(sys, id, status, ids) && EventId(uuid) !in ids
    ensures !SeenEvent(sys.service, EventId(uuid))
  {
    hide EventId;
  }

  function Proposing(): ActionOp {
    DoPropose(TENANT, CANCELLATION, Operations, Context(false, None, None, false), UUID, FIRST)
  }

  function Approving(state: OrderState): ActionOp {
    DoApprove(TENANT, ActionId(UUID), "go ahead", Operations, Some(state), SECOND)
  }

  function Executing(state: OrderState, outcome: Option<Receipt>): ActionOp {
    DoExecute(TENANT, ActionId(UUID), Some(state), outcome, THIRD)
  }

  lemma DistinctEventIds()
    ensures EventId(FIRST) != EventId(SECOND) && EventId(FIRST) != EventId(THIRD) && EventId(SECOND) != EventId(THIRD)
  {
    assert EventId(FIRST)[19] == '1' && EventId(SECOND)[19] == '2' && EventId(THIRD)[19] == '3';
  }

  lemma AfterProposal(h: HashEvent)
    ensures Possible(System(EMPTY_ACTIONS, [], []), Proposing())
    ensures Alone(Advance(h, System(EMPTY_ACTIONS, [], []), Proposing()), ActionId(UUID), ApprovalRequired,
                  {EventId(FIRST)})
  {
    hide ActionId, EventId;
  }

  lemma ApprovalDecides(h: HashEvent, sys: System, state: OrderState)
    requires Alone(sys, ActionId(UUID), ApprovalRequired, {EventId(FIRST)}) && state.stateVersion == 1
    ensures ActionId(UUID) in sys.service.actions
    ensures var reason := Said("go ahead");
            var o := Decided(h, sys.service, TENANT, ActionId(UUID), Approved, reason, StatusEvent(Approved),
                             Operations, ReasonPayload(reason, Lifecycle), SECOND);
            Perform(h, sys.service, Approving(state)) == Performed(o.state, o.event, o.call)
  {
    hide ActionId, EventId, Decided;
  }

  lemma AfterApproval(h: HashEvent, sys: System, state: OrderState)
    requires Alone(sys, ActionId(UUID), ApprovalRequired, {EventId(FIRST)}) && state.stateVersion == 1
    ensures Possible(sys, Approving(state))
    ensures Alone(Advance(h, sys, Approving(state)), ActionId(UUID), Approved, {EventId(FIRST), EventId(SECOND)})
  {
    DistinctEventIds();
    hide ActionId, EventId, SeenEvent, Perform, LastHash;
    NewIdIsFresh(sys, ActionId(UUID), ApprovalRequired, {EventId(FIRST)}, SECOND);
    ApprovalDecides(h, sys, state);
  }

  lemma ExecutionIsPossible(sys: System, state: OrderState, outcome: Option<Receipt>)
    requires Alone(sys, ActionId(UUID), Approved, {EventId(FIRST), EventId(SECOND)})
    ensures Possible(sys, Executing(state, outcome))
  {
    DistinctEventIds();
    hide ActionId, EventId, SeenEvent;
    NewIdIsFresh(sys, ActionId(UUID), Approved, {EventId(FIRST), EventId(SECOND)}, THIRD);
  }

  lemma OneMore(h: HashEvent, ops: seq<ActionOp>, op: ActionOp)
    requires PossibleRun(h, ops) && Possible(RunActions(h, ops), op)
    ensures PossibleRun(h, ops + [op]) && RunActions(h, ops + [op]) == Advance(h, RunActions(h, ops), op)
  {
    hide Advance, Possible;
    assert (ops + [op])[..|ops|] == ops;
  }

  /** A proposal and its approval. */
  lemma ApprovedSystem(h: HashEvent, state: OrderState) returns (ops: seq<ActionOp>)
    requires state.stateVersion == 1
    ensures ops == [] + [Proposing()] + [Approving(state)] && PossibleRun(h, ops)
    ensures Alone(RunActions(h, ops), ActionId(UUID), Approved, {EventId(FIRST), EventId(SECOND)})
  {
    hide Advance, Possible, Alone, Proposing, Approving, ActionId, EventId;
    AfterProposal(h);
    OneMore(h, [], Proposing());
    AfterApproval(h, RunActions(h, [] + [Proposing()]), state);
    OneMore(h, [] + [Proposing()], Approving(state));
    ops := [] + [Proposing()] + [Approving(state)];
  }

  /** Proposal, approval and execution. */
  lemma ExecutedSystem(h: HashEvent, state: OrderState, outcome: Option<Receipt>)
    returns (sys: System, ops: seq<ActionOp>)
    requires state.stateVersion == 1
    ensures PossibleRun(h, ops) && NoRestart(ops) && Proposing() in ops
    ensures Alone(sys, ActionId(UUID), Approved, {EventId(FIRST), EventId(SECOND)})
    ensures RunActions(h, ops) == Advance(h, sys, Executing(state, outcome))
  {
    hide Advance, Possible, Alone, ActionId, EventId, RunActions, PossibleRun;
    var approved := ApprovedSystem(h, state);
    sys, ops := RunActions(h, approved), approved + [Executing(state, outcome)];
    ThreeOperations(state, outcome);
    hide Proposing, Approving, Executing, NoRestart;
    ExecutionIsPossible(sys, state, outcome);
    OneMore(h, approved, Executing(state, outcome));
  }

  lemma ThreeOperations(state: OrderState, outcome: Option<Receipt>)
    ensures var ops := [] + [Proposing()] + [Approving(state)] + [Executing(state, outcome)];
            NoRestart(ops) && Proposing() in ops
  {
    hide ActionId;
    assert ([] + [Proposing()] + [Approving(state)] + [Executing(state, outcome)])[0] == Proposing();
  }

  function OrderWith(attributes: Attributes): OrderState {
    OrderState(TENANT, "order:1", "Order", 1, attributes, "cmt_0000000000000000")
  }

  function Shown(value: string): Attribute {
    Attribute(Str(value), 0.9, 0, Fresh, [], Some("shopify"))
  }

  /** A cancellation that is approved and then meets a fulfilled order stays approved live and comes back as failed. */
  lemma RecoveredStatusDiffers(h: HashEvent) returns (ops: seq<ActionOp>, id: string)
    ensures Admissible(CANCELLATION) && Proposing() in ops
    ensures PossibleRun(h, ops) && NoRestart(ops) && id in RunActions(h, ops).service.actions
    ensures RunActions(h, ops).service.actions[id].decision.status == Approved
    ensures var rec := Recovered(RunActions(h, ops).log).actions;
            id in rec && rec[id].decision.status == PreconditionFailed
  {
    id := ActionId(UUID);
    ops := RefusedRun(h);
    CancellationIsAdmissible();
    hide Admissible, Proposing;
    hide ActionId, RunActions, PossibleRun, Recovered, AtExecution, IsAcceptance, NoRestart;
    RecoveredStatusVersusLive(h, ops, id);
  }

  lemma RefusedRun(h: HashEvent) returns (ops: seq<ActionOp>)
    ensures PossibleRun(h, ops) && NoRestart(ops) && Proposing() in ops
    ensures var s, id := RunActions(h, ops).service, ActionId(UUID);
            && id in s.actions && id in s.events && s.events[id] != []
            && AtExecution(s.events[id][|s.events[id]| - 1])
  {
    var state := OrderWith(map["fulfillment_status" := Shown("fulfilled")]);
    FulfilledIsIneligible(state);
    hide ActionId, EventId, Ineligibility, OrderWith, Shown, Executing, RunActions, Advance, PossibleRun, Alone,
        AtExecution;
    hide NoRestart;
    var sys;
    sys, ops := ExecutedSystem(h, state, None);
    RefusedExecution(h, sys, state);
  }

  lemma FulfilledIsIneligible(state: OrderState)
    requires "status" !in state.attributes && "fulfillment_status" in state.attributes
    requires state.attributes["fulfillment_status"].value == Str("fulfilled")
    ensures Ineligibility(Some(state)).Some?
  {
    assert LowerText("fulfilled") == "fulfilled" by { Hydration.LowerTextOf("fulfilled"); }
  }

  lemma RefusedExecution(h: HashEvent, sys: System, state: OrderState)
    requires Alone(sys, ActionId(UUID), Approved, {EventId(FIRST), EventId(SECOND)}) && Ineligibility(Some(state)).Some?
    ensures var next, id := Advance(h, sys, Executing(state, None)), ActionId(UUID);
            && id in next.service.actions && id in next.service.events && next.service.events[id] != []
            && AtExecution(next.service.events[id][|next.service.events[id]| - 1])
  {
    hide ActionId, EventId, Ineligibility;
  }

  /**
   A provider that answers with another key: the service files the receipt under its own key, the rebuilt one under the
   other. After the restart the action is accepted and no receipt is found for it.
   */
  lemma RecoveredReceiptsDiffer(h: HashEvent) returns (ops: seq<ActionOp>, id: string)
    ensures Admissible(CANCELLATION) && Proposing() in ops
    ensures PossibleRun(h, ops) && NoRestart(ops) && id in RunActions(h, ops).service.actions
    ensures var s := RunActions(h, ops).service;
            && s.actions[id].decision.status == ProviderAccepted && KeyOf(s.actions[id]) in s.executions
            && Recovered(RunActions(h, ops).log).executions != s.executions
    ensures var s := RunActions(h, ops + [Restart]).service;
            && PossibleRun(h, ops + [Restart])
            && id in s.actions && s.actions[id].decision.status == ProviderAccepted
                 && KeyOf(s.actions[id]) !in s.executions
  {
    id := ActionId(UUID);
    var state, receipt := OrderWith(map[]), Receipt(id, ProviderAccepted, "shopify", "r1", "another-key-1");
    assert Ineligibility(Some(state)).None?;
    OtherKey();
    CancellationIsAdmissible();
    hide Admissible, Proposing;
    hide ActionId, EventId, Ineligibility, OrderWith, Executing, RunActions, Advance, PossibleRun, Alone, AtExecution;
    hide Recovered, IsAcceptance, NoRestart;
    var sys;
    sys, ops := ExecutedSystem(h, state, Some(receipt));
    AcceptedExecution(h, sys, state, receipt);
    NothingFiled(sys);
    RecoveredStatusVersusLive(h, ops, id);
    RecoveredActionKeeps(h, ops, id);
    RecoveredReceipts(h, ops);
    RestartedRun(h, ops);
  }

  lemma OtherKey()
    ensures Ref(TENANT, CANCELLATION.idempotencyKey) != Ref(TENANT, "another-key-1")
  {
    assert |"cancel-order-1"| != |"another-key-1"|;
  }

  lemma NothingFiled(sys: System)
    requires Alone(sys, ActionId(UUID), Approved, {EventId(FIRST), EventId(SECOND)})
    ensures Filed(sys.log) == map[]
  {
    hide ActionId, EventId;
    FiledAfter(sys.log);
  }

  lemma RecoveredActionKeeps(h: HashEvent, ops: seq<ActionOp>, id: string)
    requires PossibleRun(h, ops) && id in RunActions(h, ops).service.actions
    ensures id in Recovered(RunActions(h, ops).log).actions
    ensures KeyOf(Recovered(RunActions(h, ops).log).actions[id]) == KeyOf(RunActions(h, ops).service.actions[id])
  {
    hide RunActions, Recovered, PossibleRun, EchoedReceipts;
    RecoveryRebuildsService(h, ops);
  }

  lemma RecoveredReceipts(h: HashEvent, ops: seq<ActionOp>)
    requires PossibleRun(h, ops)
    ensures Recovered(RunActions(h, ops).log).executions == Filed(RunActions(h, ops).log)
  {
    hide RunActions, Recovered, PossibleRun, ServiceSound, Rebuilt;
    RunKeepsSystemSound(h, ops);
  }

  lemma RestartedRun(h: HashEvent, ops: seq<ActionOp>)
    requires PossibleRun(h, ops)
    ensures PossibleRun(h, ops + [Restart]) && RunActions(h, ops + [Restart]).service
              == Recovered(RunActions(h, ops).log)
  {
    assert (ops + [Restart])[..|ops|] == ops;
  }

  lemma AcceptedExecution(h: HashEvent, sys: System, state: OrderState, receipt: Receipt)
    requires Alone(sys, ActionId(UUID), Approved, {EventId(FIRST), EventId(SECOND)}) && Ineligibility(Some(state)).None?
    ensures var next, id := Advance(h, sys, Executing(state, Some(receipt))), ActionId(UUID);
            var s := next.service;
            && id in s.actions && s.actions[id].decision.status == ProviderAccepted
            && KeyOf(s.actions[id]) == Ref(TENANT, CANCELLATION.idempotencyKey)
            && s.executions == map[Ref(TENANT, CANCELLATION.idempotencyKey) := receipt]
            && id in s.events && s.events[id] == next.log && next.log != []
            && Filed(next.log) == Filed(sys.log)[Ref(TENANT, receipt.idempotencyKey) := receipt]
            && !AtExecution(next.log[|next.log| - 1]) && IsAcceptance(next.log[|next.log| - 1])
  {
    hide ActionId, EventId, Ineligibility, OrderIdOf, Filed;
    var e := Perform(h, sys.service, Executing(state, Some(receipt))).event.value;
    FiledSnoc(sys.log, e);
  }

  lemma {:induction false} FiledAfter(log: seq<Event>)
    ensures (forall i | 0 <= i < |log| :: !IsAcceptance(log[i])) ==> Filed(log) == map[]
  {
    if log != [] { FiledAfter(log[..|log| - 1]); }
  }
}

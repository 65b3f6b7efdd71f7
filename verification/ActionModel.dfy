/**
 What each operation of `ActionService` (actions/service.py) does to its dictionaries, as functions on a value, with
 the decision function of actions/policy.py. The class in ActionService.dfy is proved to compute exactly these.

 The uuids an operation draws, the state of the order it is given and the provider's answer are inputs.
 `HashEvent` stands for `hash_json` over an event's content.
 */
module ActionModel {
  import opened Basics
  import opened JsonValues
  import opened WorldModel

  // ---------------------------------------------------------------- data

  datatype ActionType = CancelOrder | HoldOrder | UpdateShippingAddress

  datatype ActionStatus =
    | Proposed | ApprovalRequired | Approved | Rejected | Denied | PreconditionFailed
    | ProviderAccepted | VerificationPending | Verified | VerificationFailed | StateDiverged

  predicate KnownRole(name: string) {
    name in ["observer", "operations", "finance", "system", "approver", "verifier"]
  }

  /** The name of a role that the code does not know. */
  type ForeignRole = name: string | !KnownRole(name) witness "auditor"

  datatype Role = Observer | Operations | Finance | SystemRole | Approver | Verifier | OtherRole(name: ForeignRole)

  /** The fixed messages of the service, or the text that an approver gave. */
  datatype Reason =
    | Said(text: string)
    | UnknownRole | ObserverWrite | ObserveOnlyWorkspace | UnresolvedConflict | OverThreshold
    | NeedsOperations | ProposalOnly | NoPolicy
    | WrongApprover
    | OrderMissing | VersionChanged | AttributeMismatch(name: string)
    | NotInWorldState | AlreadyTerminal(status: string) | AlreadyFulfilled
    | WriteAccepted
    | ReadConfirmed | NotYetCancelled | NoStatusYet | NoStatusInTime | Diverged(observed: Json)
    | NamedByType(eventType: EventType)

  datatype Proposal = Proposal(
    actionType: ActionType, targetEntity: string, parameters: Payload, reason: string, evidenceRefs: seq<string>,
    idempotencyKey: string, expectedStateVersion: int, expectedAttributes: Payload)

  datatype Rule =
    | DenyObserverWrite | DenyObserveOnly | DenyUnresolvedConflict | DenyThreshold
    | ApproveCancelOrder | ApproveProposalOnly | DenyDefault

  datatype Decision = Decision(
    actionId: string, status: ActionStatus, reason: Reason, matchedRule: Option<Rule>, policyVersion: string,
    requiredRole: Option<Role>)

  datatype Receipt = Receipt(
    actionId: string, status: ActionStatus, provider: string, providerRequestId: string, idempotencyKey: string)

  predicate KnownType(name: string) {
    || name == "policy_evaluated" || name == "approval_denied"
    || exists status: ActionStatus :: StatusText(status) == name
  }

  /** The name of an event type that the code does not know. */
  type ForeignType = name: string | !KnownType(name) witness "archived"

  /**
   The event types are the status names, plus "policy_evaluated", "approval_denied" and whatever a foreign log holds.
   */
  datatype EventType =
    | PolicyEvaluated | ApprovalDenied | StatusEvent(status: ActionStatus) | OtherEvent(name: ForeignType)

  /** The shapes of payload that the code reads and writes. */
  datatype EventPayload =
    | PolicyPayload(decision: Decision, proposal: Proposal)
    | ReasonPayload(reason: Reason, stage: Stage)
    | ReceiptPayload(receipt: Receipt)
    | ReadPayload(reason: Reason, commitId: Option<string>, observedStatus: Json)
    | OtherPayload(otherReason: Option<Reason>)

  /** "execution" when `execute` refused; absent, and read as "lifecycle", otherwise. */
  datatype Stage = Lifecycle | Execution

  datatype EventBody = EventBody(
    eventId: string, tenantId: string, actionId: string, eventType: EventType, actorRole: Role, payload: EventPayload,
    previousHash: Option<string>)

  datatype Event = Event(body: EventBody, hash: string)

  type HashEvent = EventBody -> string

  datatype StoredAction = StoredAction(proposal: Proposal, decision: Decision, proposerRole: Role, tenantId: string)

  /** `_actions`, `_idempotency` and `_executions` (by tenant and key), `_events`. */
  datatype ActionState = ActionState(
    actions: map<string, StoredAction>, idempotency: map<Ref, string>, events: map<string, seq<Event>>,
    executions: map<Ref, Receipt>)

  function StatusText(status: ActionStatus): string {
    match status
    case Proposed => "proposed"
    case ApprovalRequired => "approval_required"
    case Approved => "approved"
    case Rejected => "rejected"
    case Denied => "denied"
    case PreconditionFailed => "precondition_failed"
    case ProviderAccepted => "provider_accepted"
    case VerificationPending => "verification_pending"
    case Verified => "verified"
    case VerificationFailed => "verification_failed"
    case StateDiverged => "state_diverged"
  }

  function TypeText(t: EventType): string {
    match t
    case PolicyEvaluated => "policy_evaluated"
    case ApprovalDenied => "approval_denied"
    case StatusEvent(status) => StatusText(status)
    case OtherEvent(name) => name
  }

  function RoleText(role: Role): string {
    match role
    case Observer => "observer"
    case Operations => "operations"
    case Finance => "finance"
    case SystemRole => "system"
    case Approver => "approver"
    case Verifier => "verifier"
    case OtherRole(name) => name
  }

  const EMPTY_ACTIONS := ActionState(map[], map[], map[], map[])

  function ActionId(uuid: string): string { "act_" + uuid }

  function EventId(uuid: string): string { "evt_" + uuid }

  /** One completed or failed call of the executor that was passed to `execute`. */
  datatype Call = Call(tenant: string, actionId: string, orderId: string, key: string, state: OrderState,
                       outcome: Option<Receipt>)

  datatype Failure =
    | UnknownAction | NotApproved | NotExecutable | Ineligible(reason: Reason) | ProviderFailed | NotVerifiable

  /** What one operation does: the new state, its result, the event it appended and the provider call it made. */
  datatype Effect<R> = Effect(state: ActionState, result: Result<R, Failure>, event: Option<Event>, call: Option<Call>)

  // ---------------------------------------------------------------- policy

  datatype Context = Context(observeOnly: bool, orderValue: Option<real>, valueLimit: Option<real>, hasConflict: bool)

  const POLICY_VERSION := "mvp-1"

  predicate OverLimit(ctx: Context) {
    ctx.valueLimit.Some? && ctx.orderValue.Some? && ctx.orderValue.value > ctx.valueLimit.value
  }

  function Denial(actionId: string, reason: Reason, rule: Option<Rule>): Decision {
    Decision(actionId, Denied, reason, rule, POLICY_VERSION, None)
  }

  function Requirement(actionId: string, reason: Reason, rule: Rule): Decision {
    Decision(actionId, ApprovalRequired, reason, Some(rule), POLICY_VERSION, Some(Operations))
  }

  /** `evaluate_policy`. */
  function EvaluatePolicy(actionId: string, proposal: Proposal, role: Role, ctx: Context): Decision {
    if !role.Observer? && !role.Operations? && !role.Finance? && !role.SystemRole? then
      Denial(actionId, UnknownRole, None)
    else if role.Observer? then Denial(actionId, ObserverWrite, Some(DenyObserverWrite))
    else if ctx.observeOnly then Denial(actionId, ObserveOnlyWorkspace, Some(DenyObserveOnly))
    else if ctx.hasConflict then Denial(actionId, UnresolvedConflict, Some(DenyUnresolvedConflict))
    else if OverLimit(ctx) then Denial(actionId, OverThreshold, Some(DenyThreshold))
    else if proposal.actionType.CancelOrder? && role.Operations? then
        Requirement(actionId, NeedsOperations, ApproveCancelOrder)
    else if proposal.actionType.HoldOrder? || proposal.actionType.UpdateShippingAddress? then
      Requirement(actionId, ProposalOnly, ApproveProposalOnly)
    else Denial(actionId, NoPolicy, Some(DenyDefault))
  }

  // ---------------------------------------------------------------- event log

  function LastHash(s: ActionState, actionId: string): Option<string> {
    if actionId in s.events && s.events[actionId] != [] then Some(s.events[actionId][|s.events[actionId]| - 1].hash)
        else None
  }

  function NewEvent(h: HashEvent, s: ActionState, tenant: string, actionId: string, eventType: EventType, role: Role,
                    payload: EventPayload, uuid: string): Event
  {
    var body := EventBody(EventId(uuid), tenant, actionId, eventType, role, payload, LastHash(s, actionId));
    Event(body, h(body))
  }

  function EventsOf(s: ActionState, actionId: string): seq<Event> {
    if actionId in s.events then s.events[actionId] else []
  }

  /** `setdefault(action_id, []).append(event)`. */
  function Append(s: ActionState, actionId: string, e: Event): ActionState {
    s.(events := s.events[actionId := EventsOf(s, actionId) + [e]])
  }

  function WithDecision(s: ActionState, actionId: string, d: Decision): ActionState
    requires actionId in s.actions
  {
    s.(actions := s.actions[actionId := s.actions[actionId].(decision := d)])
  }

  /** The action exists and belongs to the tenant; anything else is a KeyError. */
  predicate Owned(s: ActionState, tenant: string, actionId: string) {
    actionId in s.actions && s.actions[actionId].tenantId == tenant
  }

  // ---------------------------------------------------------------- propose

  function Propose(h: HashEvent, s: ActionState, tenant: string, proposal: Proposal, role: Role, ctx: Context,
                   actionUuid: string, eventUuid: string): Effect<Decision>
  {
    var ref := Ref(tenant, proposal.idempotencyKey);
    if ref in s.idempotency then
      Effect(s, if s.idempotency[ref] in s.actions then Ok(s.actions[s.idempotency[ref]].decision)
             else Err(UnknownAction), None, None)
    else
      var id := ActionId(actionUuid);
      var d := EvaluatePolicy(id, proposal, role, ctx);
      var e := NewEvent(h, s, tenant, id, PolicyEvaluated, role, PolicyPayload(d, proposal), eventUuid);
      var s1 := s.(actions := s.actions[id := StoredAction(proposal, d, role, tenant)],
                   idempotency := s.idempotency[ref := id]);
      Effect(Append(s1, id, e), Ok(d), Some(e), None)
  }

  // ---------------------------------------------------------------- approve and reject

  /** The first expected attribute that the state does not hold. */
  function FirstMismatch(expected: Payload, attributes: Attributes): Option<string>
    decreases |expected|
  {
    if |expected| == 0 then None
    else if expected[0].0 !in attributes || attributes[expected[0].0].value != expected[0].1 then Some(expected[0].0)
    else FirstMismatch(expected[1..], attributes)
  }

  /** `_check_preconditions`: the reason, if there is one. */
  function PreconditionFailure(proposal: Proposal, state: Option<OrderState>): Option<Reason> {
    match state
    case None => Some(OrderMissing)
    case Some(st) =>
      if st.stateVersion != proposal.expectedStateVersion then Some(VersionChanged)
      else
        match FirstMismatch(proposal.expectedAttributes, st.attributes)
        case Some(name) => Some(AttributeMismatch(name))
        case None => None
  }

  /** A decision changes status and reason, and one event says so. */
  function Decided(h: HashEvent, s: ActionState, tenant: string, actionId: string, status: ActionStatus, reason: Reason,
                   eventType: EventType, role: Role, payload: EventPayload, uuid: string): Effect<Decision>
    requires actionId in s.actions
  {
    var d := s.actions[actionId].decision.(status := status, reason := reason);
    var e := NewEvent(h, s, tenant, actionId, eventType, role, payload, uuid);
    Effect(Append(WithDecision(s, actionId, d), actionId, e), Ok(d), Some(e), None)
  }

  function Approve(h: HashEvent, s: ActionState, tenant: string, actionId: string, reason: string, role: Role,
                   state: Option<OrderState>, uuid: string): Effect<Decision>
  {
    if !Owned(s, tenant, actionId) then Effect(s, Err(UnknownAction), None, None)
    else
      var d := s.actions[actionId].decision;
      if d.status != ApprovalRequired then Effect(s, Ok(d), None, None)
      else if Some(role) != d.requiredRole then
        Decided(h, s, tenant, actionId, Denied, WrongApprover, ApprovalDenied, role,
                ReasonPayload(WrongApprover, Lifecycle), uuid)
      else
        match PreconditionFailure(s.actions[actionId].proposal, state)
        case Some(why) =>
          Decided(h, s, tenant, actionId, PreconditionFailed, why, StatusEvent(PreconditionFailed), role,
                  ReasonPayload(why, Lifecycle), uuid)
        case None =>
          Decided(h, s, tenant, actionId, Approved, Said(reason), StatusEvent(Approved), role,
                  ReasonPayload(Said(reason), Lifecycle), uuid)
  }

  function Reject(h: HashEvent, s: ActionState, tenant: string, actionId: string, reason: string,
                  uuid: string): Effect<Decision> {
    if !Owned(s, tenant, actionId) then Effect(s, Err(UnknownAction), None, None)
    else
      var d := s.actions[actionId].decision;
      if d.status != ApprovalRequired then Effect(s, Ok(d), None, None)
      else Decided(h, s, tenant, actionId, Rejected, Said(reason), StatusEvent(Rejected), Approver,
                   ReasonPayload(Said(reason), Lifecycle), uuid)
  }

  // ---------------------------------------------------------------- execute

  predicate TerminalOrderStatus(s: string) {
    var l := LowerText(s);
    l == "cancelled" || l == "canceled" || l == "closed" || l == "voided"
  }

  function AttributeValue(state: OrderState, name: string): Json {
    ValueOf(state.attributes, name)
  }

  /** `_require_eligible_test_order`: the reason why the order may not be cancelled, if there is one. */
  function Ineligibility(state: Option<OrderState>): Option<Reason> {
    match state
    case None => Some(NotInWorldState)
    case Some(st) =>
      var status, fulfillment := AttributeValue(st, "status"), AttributeValue(st, "fulfillment_status");
      if status.Str? && TerminalOrderStatus(status.s) then Some(AlreadyTerminal(status.s))
      else if fulfillment.Str? && LowerText(fulfillment.s) == "fulfilled" then Some(AlreadyFulfilled)
      else None
  }

  function OrderIdOf(target: string): string {
    if |target| >= 6 && target[..6] == "order:" then target[6..] else target
  }

  /** The order id is what follows "order:" in the target; a target without that prefix is the order id. */
  ghost predicate NamesOrder(target: string, orderId: string) {
    && (forall id: string :: target == "order:" + id ==> orderId == id)
    && (!IsPrefix("order:", target) ==> orderId == target)
  }

  lemma OrderIsNamed(target: string)
    ensures NamesOrder(target, OrderIdOf(target))
  {
    forall id: string | target == "order:" + id
      ensures OrderIdOf(target) == id
    {
      assert target[..6] == "order:" && target[6..] == id;
    }
  }

  /** `execute`, when the executor would answer `outcome`; none is an exception raised by it. */
  function Execute(h: HashEvent, s: ActionState, tenant: string, actionId: string, state: Option<OrderState>,
                   outcome: Option<Receipt>, uuid: string): Effect<Receipt>
  {
    if !Owned(s, tenant, actionId) then Effect(s, Err(UnknownAction), None, None)
    else
      var action := s.actions[actionId];
      var ref := Ref(tenant, action.proposal.idempotencyKey);
      if ref in s.executions then Effect(s, Ok(s.executions[ref]), None, None)
      else if action.decision.status != Approved then Effect(s, Err(NotApproved), None, None)
      else if !action.proposal.actionType.CancelOrder? then Effect(s, Err(NotExecutable), None, None)
      else
        match Ineligibility(state)
        case Some(why) =>
          var e := NewEvent(h, s, tenant, actionId, StatusEvent(PreconditionFailed), SystemRole,
                            ReasonPayload(why, Execution), uuid);
          Effect(Append(s, actionId, e), Err(Ineligible(why)), Some(e), None)
        case None =>
          var call := Call(tenant, actionId, OrderIdOf(action.proposal.targetEntity), action.proposal.idempotencyKey,
                           state.value, outcome);
          match outcome
          case None => Effect(s, Err(ProviderFailed), None, Some(call))
          case Some(receipt) =>
            var d := action.decision.(status := ProviderAccepted, reason := WriteAccepted);
            var e := NewEvent(h, s, tenant, actionId, StatusEvent(ProviderAccepted), SystemRole,
                              ReceiptPayload(receipt), uuid);
            var s1 := WithDecision(s, actionId, d).(executions := s.executions[ref := receipt]);
            Effect(Append(s1, actionId, e), Ok(receipt), Some(e), Some(call))
  }

  // ---------------------------------------------------------------- verify

  predicate Verifiable(status: ActionStatus) {
    status.ProviderAccepted? || status.VerificationPending?
  }

  predicate TerminalVerification(status: ActionStatus) {
    status.Verified? || status.VerificationFailed? || status.StateDiverged?
  }

  const EXPECTED_STATUS := Str("cancelled")

  function ObservedStatus(state: Option<OrderState>): Json {
    match state case None => Null case Some(st) => AttributeValue(st, "status")
  }

  /** The verdict of one read. */
  function Verdict(observed: Json, isFinal: bool): ActionStatus {
    if observed == EXPECTED_STATUS then Verified
    else if !isFinal then VerificationPending
    else if observed == Null then VerificationFailed
    else StateDiverged
  }

  function VerdictReason(observed: Json, isFinal: bool): Reason {
    if observed == EXPECTED_STATUS then ReadConfirmed
    else if !isFinal then if observed != Null then NotYetCancelled else NoStatusYet
    else if observed == Null then NoStatusInTime
    else Diverged(observed)
  }

  function Verify(h: HashEvent, s: ActionState, tenant: string, actionId: string, state: Option<OrderState>,
                  isFinal: bool,
                  uuid: string): Effect<Decision>
  {
    if !Owned(s, tenant, actionId) then Effect(s, Err(UnknownAction), None, None)
    else if !Verifiable(s.actions[actionId].decision.status) then Effect(s, Err(NotVerifiable), None, None)
    else
      var observed := ObservedStatus(state);
      var status, why := Verdict(observed, isFinal), VerdictReason(observed, isFinal);
      var commit := match state case None => None case Some(st) => Some(st.commitId);
      Decided(h, s, tenant, actionId, status, why, StatusEvent(status), Verifier, ReadPayload(why, commit, observed),
              uuid)
  }

  // ---------------------------------------------------------------- restore

  /** `status_map` of `_apply_restored_event`. */
  function MappedStatus(t: EventType): Option<ActionStatus> {
    match t
    case ApprovalDenied => Some(Denied)
    case StatusEvent(status) =>
      if status.Proposed? || status.ApprovalRequired? || status.Denied? then None else Some(status)
    case _ => None
  }

  function ReasonIn(p: EventPayload): Option<Reason> {
    match p
    case ReasonPayload(reason, _) => Some(reason)
    case ReadPayload(reason, _, _) => Some(reason)
    case OtherPayload(reason) => reason
    case _ => None
  }

  function RestoredReason(e: Event): Reason {
    match ReasonIn(e.body.payload) case Some(reason) => reason case None => NamedByType(e.body.eventType)
  }

  /** `_apply_restored_event`. */
  function RestoreUpdate(d: Decision, e: Event): Decision {
    match MappedStatus(e.body.eventType)
    case None => d
    case Some(status) => d.(status := status, reason := RestoredReason(e))
  }

  predicate SeenEvent(s: ActionState, eventId: string) {
    exists a | a in s.events :: exists i | 0 <= i < |s.events[a]| :: s.events[a][i].body.eventId == eventId
  }

  /** `restore`; false is an exception raised after the returned state was reached. */
  function Restore(s: ActionState, e: Event): (ActionState, bool) {
    var id := e.body.actionId;
    if SeenEvent(s, e.body.eventId) then (s, true)
    else if !e.body.eventType.PolicyEvaluated? then
      if id !in s.actions then (s, true)
      else
        var s1 := Append(WithDecision(s, id, RestoreUpdate(s.actions[id].decision, e)), id, e);
        if e.body.eventType != StatusEvent(ProviderAccepted) then (s1, true)
        else if !e.body.payload.ReceiptPayload? then (s1, false)
        else
          var receipt := e.body.payload.receipt;
          (s1.(executions := s1.executions[Ref(e.body.tenantId, receipt.idempotencyKey) := receipt]), true)
    else if !e.body.payload.PolicyPayload? then (s, false)
    else
      var p := e.body.payload;
      var s1 := s.(actions := s.actions[id := StoredAction(p.proposal, p.decision, e.body.actorRole, e.body.tenantId)],
                   idempotency := s.idempotency[Ref(e.body.tenantId, p.proposal.idempotencyKey) := id]);
      (Append(s1, id, e), true)
  }

  // ---------------------------------------------------------------- runs

  datatype ActionOp =
    | DoPropose(tenant: string, proposal: Proposal, role: Role, ctx: Context, actionUuid: string, uuid: string)
    | DoApprove(tenant: string, actionId: string, reason: string, role: Role, state: Option<OrderState>, uuid: string)
    | DoReject(tenant: string, actionId: string, reason: string, uuid: string)
    | DoExecute(tenant: string, actionId: string, state: Option<OrderState>, outcome: Option<Receipt>, uuid: string)
    | DoVerify(tenant: string, actionId: string, state: Option<OrderState>, isFinal: bool, uuid: string)
    | Restart

  /** The service, the durable event log in append order, and every call ever made to the provider. */
  datatype System = System(service: ActionState, log: seq<Event>, calls: seq<Call>)

  datatype Performed = Performed(state: ActionState, event: Option<Event>, call: Option<Call>)

  function Perform(h: HashEvent, s: ActionState, op: ActionOp): Performed
    requires !op.Restart?
  {
    match op
    case DoPropose(tenant, proposal, role, ctx, actionUuid, uuid) =>
      var r := Propose(h, s, tenant, proposal, role, ctx, actionUuid, uuid);
      Performed(r.state, r.event, r.call)
    case DoApprove(tenant, id, reason, role, state, uuid) =>
      var r := Approve(h, s, tenant, id, reason, role, state, uuid);
      Performed(r.state, r.event, r.call)
    case DoReject(tenant, id, reason, uuid) =>
      var r := Reject(h, s, tenant, id, reason, uuid);
      Performed(r.state, r.event, r.call)
    case DoExecute(tenant, id, state, outcome, uuid) =>
      var r := Execute(h, s, tenant, id, state, outcome, uuid);
      Performed(r.state, r.event, r.call)
    case DoVerify(tenant, id, state, isFinal, uuid) =>
      var r := Verify(h, s, tenant, id, state, isFinal, uuid);
      Performed(r.state, r.event, r.call)
  }

  /** Restoring a whole log into an empty service. */
  function Recovered(log: seq<Event>): ActionState {
    if log == [] then EMPTY_ACTIONS else Restore(Recovered(log[..|log| - 1]), log[|log| - 1]).0
  }

  function Optional<T>(o: Option<T>): seq<T> {
    match o case None => [] case Some(x) => [x]
  }

  function Advance(h: HashEvent, s: System, op: ActionOp): System {
    if op.Restart? then s.(service := Recovered(s.log))
    else
      var o := Perform(h, s.service, op);
      System(o.state, s.log + Optional(o.event), s.calls + Optional(o.call))
  }

  function RunActions(h: HashEvent, ops: seq<ActionOp>): System {
    if |ops| == 0 then System(EMPTY_ACTIONS, [], []) else Advance(h, RunActions(h, ops[..|ops| - 1]), ops[|ops| - 1])
  }

  /** uuid4 never repeats: the ids that an operation draws are not in use. A restart is always possible. */
  ghost predicate Possible(s: System, op: ActionOp) {
    match op
    case Restart => true
    case DoPropose(_, _, _, _, actionUuid, uuid) =>
      && ActionId(actionUuid) !in s.service.actions && ActionId(actionUuid) !in s.service.events
      && !SeenEvent(s.service, EventId(uuid))
    case _ => !SeenEvent(s.service, EventId(op.uuid))
  }

  ghost predicate PossibleRun(h: HashEvent, ops: seq<ActionOp>) {
    |ops| == 0 || (PossibleRun(h, ops[..|ops| - 1]) && Possible(RunActions(h, ops[..|ops| - 1]), ops[|ops| - 1]))
  }

  // ---------------------------------------------------------------- the receipts that were given

  function CallKey(c: Call): Ref { Ref(c.tenant, c.key) }

  predicate Completed(c: Call) { c.outcome.Some? }

  /** Every receipt that the provider gave, under the tenant and key of the call. */
  function Ledger(calls: seq<Call>): map<Ref, Receipt> {
    if calls == [] then map[]
    else
      var rest, last := Ledger(calls[..|calls| - 1]), calls[|calls| - 1];
      if Completed(last) then rest[CallKey(last) := last.outcome.value] else rest
  }

  /** The service with the receipts that were given, whatever a restart has made of its own table. */
  function Booked(sys: System): ActionState {
    sys.service.(executions := Ledger(sys.calls))
  }

  /** Every receipt is filed under the key that it names. */
  ghost predicate EchoedReceipts(s: ActionState) {
    forall r | r in s.executions :: s.executions[r].idempotencyKey == r.id
  }

  /** Whenever the service was restarted, its receipts named their own keys. */
  ghost predicate RestartsEcho(h: HashEvent, ops: seq<ActionOp>) {
    || |ops| == 0
    || (RestartsEcho(h, ops[..|ops| - 1])
        && (ops[|ops| - 1].Restart? ==> EchoedReceipts(RunActions(h, ops[..|ops| - 1]).service)))
  }
}

/**
 What each operation of `ActionService` does (actions/service.py, actions/policy.py), told case by case: the decision it
 leaves and returns, the event it appends, the call it makes. And what a refusal rules out for good.
 */
module ActionEffects {
  import opened Basics
  import opened JsonValues
  import opened WorldModel
  import opened ActionModel
  import opened ActionLog
  import opened ActionRuns
  import opened Recovery
  import opened ActionSafety

  // ---------------------------------------------------------------- one event

  /** The action's log has one event more, linked to the one before it; other logs and the index are as they were. */
  ghost predicate Notes(h: HashEvent, s: ActionState, s': ActionState, id: string, t: EventType, role: Role,
                        payload: EventPayload, uuid: string)
  {
    && id in s'.events && |s'.events[id]| == |EventsOf(s, id)| + 1
    && s'.events == s.events[id := EventsOf(s, id) + [s'.events[id][|s'.events[id]| - 1]]]
    && s'.idempotency == s.idempotency
    && var e := s'.events[id][|s'.events[id]| - 1];
    && e.body.eventId == "evt_" + uuid && e.body.actionId == id && e.body.eventType == t && e.body.actorRole == role
    && e.body.payload == payload && e.hash == h(e.body)
    && (id in s.actions ==> e.body.tenantId == s.actions[id].tenantId)
    && e.body.previousHash == if EventsOf(s, id) == [] then None else Some(EventsOf(s, id)[|EventsOf(s, id)| - 1].hash)
  }

  /** The action's decision is `d`; other actions are as they were. */
  ghost predicate Becomes(s: ActionState, s': ActionState, id: string, d: Decision) {
    id in s.actions && s'.actions == s.actions[id := s.actions[id].(decision := d)]
  }

  /** The decision gets a status and a reason, is returned, and one event says so. */
  ghost predicate Turns(h: HashEvent, s: ActionState, o: Effect<Decision>, id: string, status: ActionStatus,
                        reason: Reason,
                        t: EventType, role: Role, payload: EventPayload, uuid: string)
  {
    && id in s.actions
    && var d := s.actions[id].decision.(status := status, reason := reason);
    && o.result == Ok(d) && o.call == None && Becomes(s, o.state, id, d) && o.state.executions == s.executions
    && Notes(h, s, o.state, id, t, role, payload, uuid)
    && o.event == Some(o.state.events[id][|o.state.events[id]| - 1])
  }

  /** Nothing happens but the answer. */
  predicate Answers<R(==)>(s: ActionState, o: Effect<R>, result: Result<R, Failure>) {
    o.state == s && o.result == result && o.event == None && o.call == None
  }

  lemma AppendedNotes(h: HashEvent, s: ActionState, s1: ActionState, tenant: string, id: string, t: EventType,
                      role: Role,
                      payload: EventPayload, uuid: string)
    requires s1.events == s.events && s1.idempotency == s.idempotency
              && (id in s.actions ==> s.actions[id].tenantId == tenant)
    ensures var e := NewEvent(h, s, tenant, id, t, role, payload, uuid);
            var s' := Append(s1, id, e);
            && Notes(h, s, s', id, t, role, payload, uuid) && s'.events[id][|s'.events[id]| - 1] == e
            && s'.actions == s1.actions && s'.executions == s1.executions
  {
    var e := NewEvent(h, s, tenant, id, t, role, payload, uuid);
    assert (EventsOf(s, id) + [e])[|EventsOf(s, id)|] == e;
  }

  lemma DecidedTurns(h: HashEvent, s: ActionState, tenant: string, id: string, status: ActionStatus, reason: Reason,
                     t: EventType, role: Role, payload: EventPayload, uuid: string)
    requires Owned(s, tenant, id)
    ensures Turns(h, s, Decided(h, s, tenant, id, status, reason, t, role, payload, uuid), id, status, reason, t, role,
                  payload, uuid)
  {
    var d := s.actions[id].decision.(status := status, reason := reason);
    AppendedNotes(h, s, WithDecision(s, id, d), tenant, id, t, role, payload, uuid);
    hide Notes, NewEvent, Append;
  }

  // ---------------------------------------------------------------- reject

  /** Rejecting what awaits approval makes it rejected, for the reason given; anything else stays as it is. */
  lemma RejectTakes(h: HashEvent, s: ActionState, tenant: string, id: string, reason: string, uuid: string)
    ensures var o := Reject(h, s, tenant, id, reason, uuid);
            && (!Owned(s, tenant, id) ==> Answers(s, o, Err(UnknownAction)))
            && (Owned(s, tenant, id) && s.actions[id].decision.status != ApprovalRequired ==>
                  Answers(s, o, Ok(s.actions[id].decision)))
            && (Owned(s, tenant, id) && s.actions[id].decision.status == ApprovalRequired ==>
                  Turns(h, s, o, id, Rejected, Said(reason), StatusEvent(Rejected), Approver,
                        ReasonPayload(Said(reason), Lifecycle), uuid))
  {
    if Owned(s, tenant, id) {
      DecidedTurns(h, s, tenant, id, Rejected, Said(reason), StatusEvent(Rejected), Approver,
                   ReasonPayload(Said(reason), Lifecycle), uuid);
    }
    hide Turns, Decided;
  }

  // ---------------------------------------------------------------- approve

  /**
   Why a state is not what the proposal expected: it is missing, of another version, or differs in this attribute
   first.
   */
  ghost predicate Mismatch(proposal: Proposal, state: Option<OrderState>, why: Reason) {
    match why
    case OrderMissing => state == None
    case VersionChanged => state.Some? && state.value.stateVersion != proposal.expectedStateVersion
    case AttributeMismatch(name) =>
      && state.Some? && state.value.stateVersion == proposal.expectedStateVersion
      && exists i | 0 <= i < |proposal.expectedAttributes| ::
           && proposal.expectedAttributes[i].0 == name && !AsExpected(proposal, state.value, i)
           && forall j | 0 <= j < i :: AsExpected(proposal, state.value, j)
    case _ => false
  }

  predicate AsExpected(proposal: Proposal, state: OrderState, i: nat)
    requires i < |proposal.expectedAttributes|
  {
    var (name, value) := proposal.expectedAttributes[i];
    name in state.attributes && state.attributes[name].value == value
  }

  lemma {:induction false} MismatchIsFirst(expected: Payload, attributes: Attributes) returns (i: nat)
    ensures FirstMismatch(expected, attributes).Some? ==>
              && i < |expected| && FirstMismatch(expected, attributes) == Some(expected[i].0)
              && !(expected[i].0 in attributes && attributes[expected[i].0].value == expected[i].1)
              && forall j | 0 <= j < i ::
                   expected[j].0 in attributes && attributes[expected[j].0].value == expected[j].1
    decreases |expected|
  {
    i := 0;
    if |expected| > 0 && expected[0].0 in attributes && attributes[expected[0].0].value == expected[0].1 {
      var k := MismatchIsFirst(expected[1..], attributes);
      i := k + 1;
      assert forall j | 1 <= j < |expected| :: expected[1..][j - 1] == expected[j];
    }
  }

  lemma FailureIsMismatch(proposal: Proposal, state: Option<OrderState>)
    ensures PreconditionFailure(proposal, state).Some? ==>
              Mismatch(proposal, state, PreconditionFailure(proposal, state).value)
    ensures PreconditionFailure(proposal, state).None? <==> MatchesExpectation(proposal, state)
  {
    PreconditionsAreExact(proposal, state);
    if state.Some? && state.value.stateVersion == proposal.expectedStateVersion {
      var i := MismatchIsFirst(proposal.expectedAttributes, state.value.attributes);
      hide FirstMismatch, MatchesExpectation;
      if FirstMismatch(proposal.expectedAttributes, state.value.attributes).Some? {
        assert !AsExpected(proposal, state.value, i) && forall j | 0 <= j < i :: AsExpected(proposal, state.value, j);
      }
    }
  }

  /**
   Approving what awaits approval: another role denies it, a state that does not match fails it, all else approves it.
   */
  ghost predicate Approves(h: HashEvent, s: ActionState, o: Effect<Decision>, id: string, reason: string, role: Role,
                           state: Option<OrderState>, uuid: string)
    requires id in s.actions
  {
    var a := s.actions[id];
    && (a.decision.requiredRole != Some(role) ==>
          Turns(h, s, o, id, Denied, WrongApprover, ApprovalDenied, role, ReasonPayload(WrongApprover, Lifecycle),
                uuid))
    && (a.decision.requiredRole == Some(role) && MatchesExpectation(a.proposal, state) ==>
          Turns(h, s, o, id, Approved, Said(reason), StatusEvent(Approved), role,
                ReasonPayload(Said(reason), Lifecycle), uuid))
    && (a.decision.requiredRole == Some(role) && !MatchesExpectation(a.proposal, state) ==>
          exists why :: && Mismatch(a.proposal, state, why)
                        && Turns(h, s, o, id, PreconditionFailed, why, StatusEvent(PreconditionFailed), role,
                                 ReasonPayload(why, Lifecycle), uuid))
  }

  lemma ApproveTakes(h: HashEvent, s: ActionState, tenant: string, id: string, reason: string, role: Role,
                     state: Option<OrderState>, uuid: string)
    ensures var o := Approve(h, s, tenant, id, reason, role, state, uuid);
            && (!Owned(s, tenant, id) ==> Answers(s, o, Err(UnknownAction)))
            && (Owned(s, tenant, id) && s.actions[id].decision.status != ApprovalRequired ==>
                  Answers(s, o, Ok(s.actions[id].decision)))
            && (Owned(s, tenant, id) && s.actions[id].decision.status == ApprovalRequired ==>
                  Approves(h, s, o, id, reason, role, state, uuid))
  {
    hide Turns, Decided, Mismatch, MatchesExpectation, PreconditionFailure;
    if Owned(s, tenant, id) {
      var failure := PreconditionFailure(s.actions[id].proposal, state);
      FailureIsMismatch(s.actions[id].proposal, state);
      DecidedTurns(h, s, tenant, id, Denied, WrongApprover, ApprovalDenied, role,
                   ReasonPayload(WrongApprover, Lifecycle), uuid);
      DecidedTurns(h, s, tenant, id, Approved, Said(reason), StatusEvent(Approved), role,
                   ReasonPayload(Said(reason), Lifecycle), uuid);
      if failure.Some? {
        DecidedTurns(h, s, tenant, id, PreconditionFailed, failure.value, StatusEvent(PreconditionFailed), role,
                     ReasonPayload(failure.value, Lifecycle), uuid);
      }
    }
  }

  // ---------------------------------------------------------------- execute

  /** Why an order may not be cancelled. */
  ghost predicate Refuses(state: Option<OrderState>, why: Reason) {
    match why
    case NotInWorldState => state == None
    case AlreadyTerminal(status) =>
      && state.Some? && "status" in state.value.attributes && state.value.attributes["status"].value == Str(status)
      && LowerText(status) in {"cancelled", "canceled", "closed", "voided"}
    case AlreadyFulfilled =>
      && state.Some? && "fulfillment_status" in state.value.attributes
      && state.value.attributes["fulfillment_status"].value.Str?
      && LowerText(state.value.attributes["fulfillment_status"].value.s) == "fulfilled"
    case _ => false
  }

  lemma IneligibleRefuses(state: Option<OrderState>)
    ensures Ineligibility(state).Some? ==> Refuses(state, Ineligibility(state).value)
  {
    hide LowerText;
  }

  /** Executing an approved cancellation that has no receipt. */
  ghost predicate Executes(h: HashEvent, s: ActionState, o: Effect<Receipt>, id: string, state: Option<OrderState>,
                           outcome: Option<Receipt>, uuid: string)
    requires id in s.actions
  {
    var a := s.actions[id];
    if state.Some? && LiveOrder(state.value) then
      && o.call.Some? && o.call.value.tenant == a.tenantId && o.call.value.actionId == id
      && o.call.value.key == a.proposal.idempotencyKey && NamesOrder(a.proposal.targetEntity, o.call.value.orderId)
      && o.call.value.state == state.value && o.call.value.outcome == outcome
      && match outcome
         case None => o.state == s && o.result == Err(ProviderFailed) && o.event == None
         case Some(receipt) =>
           && o.result == Ok(receipt)
           && Becomes(s, o.state, id, a.decision.(status := ProviderAccepted, reason := WriteAccepted))
           && o.state.executions == s.executions[Ref(a.tenantId, a.proposal.idempotencyKey) := receipt]
           && Notes(h, s, o.state, id, StatusEvent(ProviderAccepted), SystemRole, ReceiptPayload(receipt), uuid)
           && o.event == Some(o.state.events[id][|o.state.events[id]| - 1])
    else
      && o.call == None && o.state.actions == s.actions && o.state.executions == s.executions
      && id in o.state.events && o.state.events[id] != []
      && o.event == Some(o.state.events[id][|o.state.events[id]| - 1])
      && exists why :: && Refuses(state, why) && o.result == Err(Ineligible(why))
                       && Notes(h, s, o.state, id, StatusEvent(PreconditionFailed), SystemRole,
                                ReasonPayload(why, Execution), uuid)
  }

  /**
   `execute` answers with the receipt there is; refuses what is not approved or no cancellation; executes the rest.
   */
  lemma ExecuteTakes(h: HashEvent, s: ActionState, tenant: string, id: string, state: Option<OrderState>,
                     outcome: Option<Receipt>, uuid: string)
    ensures var o := Execute(h, s, tenant, id, state, outcome, uuid);
            && (!Owned(s, tenant, id) ==> Answers(s, o, Err(UnknownAction)))
            && (Owned(s, tenant, id) ==>
                  var a := s.actions[id];
                  var key := Ref(tenant, a.proposal.idempotencyKey);
                  && (key in s.executions ==> Answers(s, o, Ok(s.executions[key])))
                  && (key !in s.executions && a.decision.status != Approved ==> Answers(s, o, Err(NotApproved)))
                  && (key !in s.executions && a.decision.status == Approved && a.proposal.actionType != CancelOrder ==>
                        Answers(s, o, Err(NotExecutable)))
                  && (key !in s.executions && a.decision.status == Approved && a.proposal.actionType == CancelOrder ==>
                        Executes(h, s, o, id, state, outcome, uuid)))
  {
    hide Notes, NewEvent, Append, Ineligibility, LiveOrder, Refuses, NamesOrder, OrderIdOf;
    if Owned(s, tenant, id) {
      var a := s.actions[id];
      EligibilityIsExact(state);
      IneligibleRefuses(state);
      OrderIsNamed(a.proposal.targetEntity);
      if Ineligibility(state).Some? {
        AppendedNotes(h, s, s, tenant, id, StatusEvent(PreconditionFailed), SystemRole,
                      ReasonPayload(Ineligibility(state).value, Execution), uuid);
      } else if outcome.Some? {
        var d := a.decision.(status := ProviderAccepted, reason := WriteAccepted);
        var s1 := WithDecision(s, id, d).(executions :=
                                          s.executions[Ref(tenant, a.proposal.idempotencyKey) := outcome.value]);
        AppendedNotes(h, s, s1, tenant, id, StatusEvent(ProviderAccepted), SystemRole, ReceiptPayload(outcome.value),
                      uuid);
      }
    }
  }

  // ---------------------------------------------------------------- verify

  /** The status that a read shows; without a state or a status it is null. */
  function ShownStatus(state: Option<OrderState>): Json {
    if state.Some? && "status" in state.value.attributes then state.value.attributes["status"].value else Null
  }

  /** The verdict on one read, by what it showed and whether it was the last. */
  ghost predicate Judges(shown: Json, isFinal: bool, status: ActionStatus, why: Reason) {
    && (shown == Str("cancelled") ==> status == Verified && why == ReadConfirmed)
    && (shown != Str("cancelled") && !isFinal ==>
          status == VerificationPending && why == if shown == Null then NoStatusYet else NotYetCancelled)
    && (shown == Null && isFinal ==> status == VerificationFailed && why == NoStatusInTime)
    && (shown != Null && shown != Str("cancelled") && isFinal ==> status == StateDiverged && why == Diverged(shown))
  }

  lemma VerdictJudges(state: Option<OrderState>, isFinal: bool)
    ensures ObservedStatus(state) == ShownStatus(state)
    ensures Judges(ShownStatus(state), isFinal, Verdict(ShownStatus(state), isFinal),
                   VerdictReason(ShownStatus(state), isFinal))
  {
  }

  /**
   `verify` refuses what the provider has not accepted or has a verdict; otherwise it notes its verdict on the read.
   */
  lemma VerifyTakes(h: HashEvent, s: ActionState, tenant: string, id: string, state: Option<OrderState>, isFinal: bool,
                    uuid: string) returns (status: ActionStatus, why: Reason)
    ensures Judges(ShownStatus(state), isFinal, status, why)
    ensures var o := Verify(h, s, tenant, id, state, isFinal, uuid);
            && (!Owned(s, tenant, id) ==> Answers(s, o, Err(UnknownAction)))
            && (Owned(s, tenant, id) && s.actions[id].decision.status !in {ProviderAccepted, VerificationPending} ==>
                  Answers(s, o, Err(NotVerifiable)))
            && (Owned(s, tenant, id) && s.actions[id].decision.status in {ProviderAccepted, VerificationPending} ==>
                  Turns(h, s, o, id, status, why, StatusEvent(status), Verifier,
                        ReadPayload(why, if state.Some? then Some(state.value.commitId) else None,
                                    ShownStatus(state)), uuid))
  {
    VerdictJudges(state, isFinal);
    hide Turns, Decided, Verdict, VerdictReason, ShownStatus, Judges;
    status, why := Verdict(ShownStatus(state), isFinal), VerdictReason(ShownStatus(state), isFinal);
    if Owned(s, tenant, id) {
      DecidedTurns(h, s, tenant, id, status, why, StatusEvent(status), Verifier,
                   ReadPayload(why, if state.Some? then Some(state.value.commitId) else None, ShownStatus(state)),
                   uuid);
    }
  }

  // ---------------------------------------------------------------- policy

  /** No rule stands against the proposal but the last. */
  predicate Unopposed(role: Role, ctx: Context) {
    && (role.Operations? || role.Finance? || role.SystemRole?) && !ctx.observeOnly && !ctx.hasConflict
    && !(ctx.valueLimit.Some? && ctx.orderValue.Some? && ctx.orderValue.value > ctx.valueLimit.value)
  }

  /** Which rule decides on a proposal, and with what. */
  lemma PolicyIsExact(id: string, proposal: Proposal, role: Role, ctx: Context)
    ensures var d := EvaluatePolicy(id, proposal, role, ctx);
            var writes := role.Operations? || role.Finance? || role.SystemRole?;
            && d.actionId == id && d.policyVersion == "mvp-1"
            && (d.matchedRule == None <==> !writes && !role.Observer?)
            && (d.matchedRule == Some(DenyObserverWrite) <==> role.Observer?)
            && (d.matchedRule == Some(DenyObserveOnly) <==> writes && ctx.observeOnly)
            && (d.matchedRule == Some(DenyUnresolvedConflict) <==> writes && !ctx.observeOnly && ctx.hasConflict)
            && (d.matchedRule == Some(DenyThreshold) <==>
                  && writes && !ctx.observeOnly && !ctx.hasConflict && ctx.valueLimit.Some? && ctx.orderValue.Some?
                  && ctx.orderValue.value > ctx.valueLimit.value)
            && (d.matchedRule == Some(ApproveCancelOrder) <==>
                  Unopposed(role, ctx) && role.Operations? && proposal.actionType.CancelOrder?)
            && (d.matchedRule == Some(ApproveProposalOnly) <==>
                Unopposed(role, ctx) && !proposal.actionType.CancelOrder?)
            && (d.matchedRule == Some(DenyDefault) <==>
                  Unopposed(role, ctx) && !role.Operations? && proposal.actionType.CancelOrder?)
            && (d.status == if d.matchedRule in {Some(ApproveCancelOrder), Some(ApproveProposalOnly)} then
                ApprovalRequired
                            else Denied)
            && (d.requiredRole == if d.status == ApprovalRequired then Some(Operations) else None)
  {
  }

  /** The reason goes with the rule. */
  lemma PolicyReason(id: string, proposal: Proposal, role: Role, ctx: Context)
    ensures var d := EvaluatePolicy(id, proposal, role, ctx);
            d.reason == match d.matchedRule
                        case None => UnknownRole
                        case Some(DenyObserverWrite) => ObserverWrite
                        case Some(DenyObserveOnly) => ObserveOnlyWorkspace
                        case Some(DenyUnresolvedConflict) => UnresolvedConflict
                        case Some(DenyThreshold) => OverThreshold
                        case Some(ApproveCancelOrder) => NeedsOperations
                        case Some(ApproveProposalOnly) => ProposalOnly
                        case Some(DenyDefault) => NoPolicy
  {
  }

  // ---------------------------------------------------------------- propose

  /** After any run, proposing under a key that an action of the tenant has answers with that action's decision. */
  lemma KnownKeyAnswers(h: HashEvent, ops: seq<ActionOp>, id: string, proposal: Proposal, role: Role, ctx: Context,
                        actionUuid: string, uuid: string)
    requires PossibleRun(h, ops) && id in RunActions(h, ops).service.actions
    requires proposal.idempotencyKey == RunActions(h, ops).service.actions[id].proposal.idempotencyKey
    ensures var s := RunActions(h, ops).service;
            var o := Propose(h, s, s.actions[id].tenantId, proposal, role, ctx, actionUuid, uuid);
            Answers(s, o, Ok(s.actions[id].decision))
  {
    hide RunActions, ActionSound, Ledger, EvaluatePolicy, NewEvent, Append;
    ReachableAction(h, ops, id);
    KeyIndexed(h, Booked(RunActions(h, ops)), id);
  }

  /**
   After any run, proposing under a new key makes an action with the policy's decision, and the event that tells both.
   */
  lemma NewKeyProposes(h: HashEvent, ops: seq<ActionOp>, tenant: string, proposal: Proposal, role: Role, ctx: Context,
                       actionUuid: string, uuid: string)
    requires PossibleRun(h, ops)
    requires Possible(RunActions(h, ops), DoPropose(tenant, proposal, role, ctx, actionUuid, uuid))
    requires forall id | id in RunActions(h, ops).service.actions ::
               var a := RunActions(h, ops).service.actions[id];
               a.tenantId != tenant || a.proposal.idempotencyKey != proposal.idempotencyKey
    ensures var s, id := RunActions(h, ops).service, "act_" + actionUuid;
            var o, d := Propose(h, s, tenant, proposal, role, ctx, actionUuid, uuid),
                EvaluatePolicy(id, proposal, role, ctx);
            && id !in s.actions && o.result == Ok(d) && o.call == None && o.state.executions == s.executions
            && o.state.actions == s.actions[id := StoredAction(proposal, d, role, tenant)]
            && o.state.idempotency == s.idempotency[Ref(tenant, proposal.idempotencyKey) := id]
            && Notes(h, s.(idempotency := o.state.idempotency), o.state, id, PolicyEvaluated, role,
                     PolicyPayload(d, proposal), uuid)
            && o.event == Some(o.state.events[id][0]) && o.state.events[id][0].body.tenantId == tenant
  {
    hide RunActions, ActionSound, Ledger, EvaluatePolicy, SeenEvent;
    RunKeepsSystemSound(h, ops);
    SystemServiceSound(h, RunActions(h, ops));
    hide SystemSound;
    var s := RunActions(h, ops).service;
    assert s.idempotency == Booked(RunActions(h, ops)).idempotency;
    assert Ref(tenant, proposal.idempotencyKey) !in s.idempotency;
    hide ServiceSound, PossibleRun;
    NewKeyEffect(h, s, tenant, proposal, role, ctx, actionUuid, uuid);
  }

  lemma NewKeyEffect(h: HashEvent, s: ActionState, tenant: string, proposal: Proposal, role: Role, ctx: Context,
                     actionUuid: string, uuid: string)
    requires Ref(tenant, proposal.idempotencyKey) !in s.idempotency
    requires "act_" + actionUuid !in s.actions && "act_" + actionUuid !in s.events
    ensures var id := "act_" + actionUuid;
            var o, d := Propose(h, s, tenant, proposal, role, ctx, actionUuid, uuid),
                EvaluatePolicy(id, proposal, role, ctx);
            && o.result == Ok(d) && o.call == None && o.state.executions == s.executions
            && o.state.actions == s.actions[id := StoredAction(proposal, d, role, tenant)]
            && o.state.idempotency == s.idempotency[Ref(tenant, proposal.idempotencyKey) := id]
            && Notes(h, s.(idempotency := o.state.idempotency), o.state, id, PolicyEvaluated, role,
                     PolicyPayload(d, proposal), uuid)
            && o.event == Some(o.state.events[id][0]) && o.state.events[id][0].body.tenantId == tenant
  {
    hide EvaluatePolicy;
  }

  // ---------------------------------------------------------------- restore

  /** An event with this id is in some log. */
  ghost predicate IsKnown(s: ActionState, eventId: string) {
    exists a, i: nat :: a in s.events && i < |s.events[a]| && s.events[a][i].body.eventId == eventId
  }

  /** The status that an event type restores; other types leave the decision. */
  ghost predicate RestoresStatus(t: EventType, status: ActionStatus) {
    || (t == ApprovalDenied && status == Denied)
    || (t == StatusEvent(status)
        && status in {Approved, Rejected, PreconditionFailed, ProviderAccepted, VerificationPending, Verified,
                      VerificationFailed, StateDiverged})
  }

  /** The event's own reason, or its type where it has none. */
  ghost predicate RestoresReason(e: Event, why: Reason) {
    var p := e.body.payload;
    && (p.ReasonPayload? ==> why == p.reason) && (p.ReadPayload? ==> why == p.reason)
    && (p.OtherPayload? && p.otherReason.Some? ==> why == p.otherReason.value)
    && (p.PolicyPayload? || p.ReceiptPayload? || (p.OtherPayload? && p.otherReason.None?) ==>
          why == NamedByType(e.body.eventType))
  }

  /** The decision after a restored event. */
  ghost predicate RestoredTo(d: Decision, d': Decision, e: Event) {
    && d' == d.(status := d'.status, reason := d'.reason)
    && (if exists status :: RestoresStatus(e.body.eventType, status)
        then RestoresStatus(e.body.eventType, d'.status) && RestoresReason(e, d'.reason)
        else d' == d)
  }

  lemma UpdateRestores(d: Decision, e: Event)
    ensures RestoredTo(d, RestoreUpdate(d, e), e)
  {
    var t := e.body.eventType;
    if t.ApprovalDenied? { assert RestoresStatus(t, Denied); }
    if t.StatusEvent? && MappedStatus(t).Some? { assert RestoresStatus(t, t.status); }
  }

  /** `restore` ignores what it knows and what is about no action; it takes up everything else, or raises. */
  ghost predicate Restores(s: ActionState, s': ActionState, quiet: bool, e: Event) {
    var id, p := e.body.actionId, e.body.payload;
    var log := if id in s.events then s.events[id] else [];
    if IsKnown(s, e.body.eventId) || (e.body.eventType != PolicyEvaluated && id !in s.actions) then s' == s && quiet
    else if e.body.eventType != PolicyEvaluated then
      && id in s'.actions && RestoredTo(s.actions[id].decision, s'.actions[id].decision, e)
      && Becomes(s, s', id, s'.actions[id].decision)
      && s'.idempotency == s.idempotency && s'.events == s.events[id := log + [e]]
      && (quiet <==> (e.body.eventType == StatusEvent(ProviderAccepted) ==> p.ReceiptPayload?))
      && s'.executions == if e.body.eventType == StatusEvent(ProviderAccepted) && p.ReceiptPayload?
                          then s.executions[Ref(e.body.tenantId, p.receipt.idempotencyKey) := p.receipt]
                              else s.executions
    else if !p.PolicyPayload? then s' == s && !quiet
    else
      && quiet && s'.executions == s.executions && s'.events == s.events[id := log + [e]]
      && s'.actions == s.actions[id := StoredAction(p.proposal, p.decision, e.body.actorRole, e.body.tenantId)]
      && s'.idempotency == s.idempotency[Ref(e.body.tenantId, p.proposal.idempotencyKey) := id]
  }

  lemma KnownIsSeen(s: ActionState, eventId: string)
    ensures IsKnown(s, eventId) <==> SeenEvent(s, eventId)
  {
    if SeenEvent(s, eventId) {
      var a :| a in s.events && exists i | 0 <= i < |s.events[a]| :: s.events[a][i].body.eventId == eventId;
      var i: nat :| i < |s.events[a]| && s.events[a][i].body.eventId == eventId;
    }
  }

  lemma RestoreTakes(s: ActionState, e: Event)
    ensures Restores(s, Restore(s, e).0, Restore(s, e).1, e)
  {
    KnownIsSeen(s, e.body.eventId);
    if e.body.actionId in s.actions { UpdateRestores(s.actions[e.body.actionId].decision, e); }
    hide IsKnown, SeenEvent, RestoreUpdate, RestoredTo;
  }

  // ---------------------------------------------------------------- what a refusal rules out

  /** An action that is approved at one point of a run has not ended at an earlier one. */
  lemma EndedIsNotApproved(h: HashEvent, ops: seq<ActionOp>, n: nat, id: string)
    requires PossibleRun(h, ops) && n <= |ops|
    requires id in RunActions(h, ops[..n]).service.actions && id in RunActions(h, ops[..n]).service.events
    requires PhaseOf(RunActions(h, ops[..n]).service.events[id]).Done?
    ensures id in RunActions(h, ops).service.actions
              && RunActions(h, ops).service.actions[id].decision.status != Approved
  {
    hide RunActions, PhaseOf, ActionSound, ServiceSound, Ledger, PossibleRun;
    RunIsLater(h, ops, n);
    var ended, now := RunActions(h, ops[..n]).service.events[id], RunActions(h, ops).service.events[id];
    ReachableAction(h, ops, id);
    PhaseByStatus(h, Booked(RunActions(h, ops)), id);
    LogBasics(h, Booked(RunActions(h, ops)), id);
    EndedLogIsWhole(ended, now);
  }

  lemma LogBasics(h: HashEvent, s: ActionState, id: string)
    requires id in s.actions && ActionSound(h, s, id)
    ensures id in s.events && s.events[id] != [] && !PhaseOf(s.events[id]).Broken?
  {
    hide PhaseOf;
  }

  /** A log that has ended is not the beginning of a longer lifecycle. */
  lemma {:induction false} EndedLogIsWhole(ended: seq<Event>, now: seq<Event>)
    requires PhaseOf(ended).Done? && IsPrefix(ended, now) && !PhaseOf(now).Broken?
    ensures now == ended
    decreases |now|
  {
    if |now| > |ended| {
      var init := now[..|now| - 1];
      assert IsPrefix(ended, init);
      assert !PhaseOf(init).Broken?;
      EndedLogIsWhole(ended, init);
    }
  }

  /** While an action awaits approval it has not been called for. */
  lemma WaitingIsFirst(h: HashEvent, ops: seq<ActionOp>, n: nat, id: string)
    requires PossibleRun(h, ops) && n <= |ops| && id in RunActions(h, ops).service.actions
    requires RunActions(h, ops).service.actions[id].decision.status == ApprovalRequired
    requires id in RunActions(h, ops[..n]).service.actions
    ensures RunActions(h, ops[..n]).service.actions[id].decision.status != Approved
  {
    hide RunActions, PhaseOf, ActionSound, ServiceSound, Ledger, PossibleRun;
    RunIsLater(h, ops, n);
    ReachableAction(h, ops, id);
    PhaseByStatus(h, Booked(RunActions(h, ops)), id);
    LogBasics(h, Booked(RunActions(h, ops)), id);
    PhaseSpells(RunActions(h, ops).service.events[id]);
    PossiblePrefix(h, ops, n);
    ReachableAction(h, ops[..n], id);
    PhaseByStatus(h, Booked(RunActions(h, ops[..n])), id);
    LogBasics(h, Booked(RunActions(h, ops[..n])), id);
    PhaseSpells(RunActions(h, ops[..n]).service.events[id]);
  }

  /** The `n`-th operation rejects an action that awaits approval. */
  ghost predicate RejectsAt(h: HashEvent, ops: seq<ActionOp>, n: nat, id: string) {
    && n < |ops| && ops[n].DoReject? && ops[n].actionId == id
    && Owned(RunActions(h, ops[..n]).service, ops[n].tenant, id)
    && RunActions(h, ops[..n]).service.actions[id].decision.status == ApprovalRequired
  }

  lemma RejectionEndsLog(h: HashEvent, ops: seq<ActionOp>, n: nat, id: string)
    requires PossibleRun(h, ops) && RejectsAt(h, ops, n, id)
    ensures var s := RunActions(h, ops[..n + 1]).service;
            id in s.actions && id in s.events && PhaseOf(s.events[id]) == Done(Rejected)
  {
    PossiblePrefix(h, ops, n + 1);
    PossiblePrefix(h, ops, n);
    assert ops[..n + 1][..n] == ops[..n] && ops[..n + 1][n] == ops[n];
    hide PhaseOf, ActionSound, ServiceSound, Ledger, Possible;
    var sys, op := RunActions(h, ops[..n]), ops[n];
    assert RunActions(h, ops[..n + 1]).service == Reject(h, sys.service, op.tenant, id, op.reason, op.uuid).state;
    RejectTakes(h, sys.service, op.tenant, id, op.reason, op.uuid);
    ReachableAction(h, ops[..n + 1], id);
    hide RunActions, Reject;
    PhaseByStatus(h, Booked(RunActions(h, ops[..n + 1])), id);
    LogBasics(h, Booked(RunActions(h, ops[..n + 1])), id);
    RejectedPhase(RunActions(h, ops[..n + 1]).service.events[id]);
  }

  lemma RejectionEnds(before: Phase, e: Event)
    requires !Next(before, e).Broken? && e.body.eventType == StatusEvent(Rejected)
    ensures Next(before, e) == Done(Rejected)
  {
  }

  lemma RejectedPhase(log: seq<Event>)
    requires log != [] && !PhaseOf(log).Broken? && log[|log| - 1].body.eventType == StatusEvent(Rejected)
    ensures PhaseOf(log) == Done(Rejected)
  {
    hide Next;
    RejectionEnds(PhaseOf(log[..|log| - 1]), log[|log| - 1]);
  }

  /** An action that was rejected is never called for, before or after, whatever the run goes on to do. */
  lemma RejectedIsNeverCalled(h: HashEvent, ops: seq<ActionOp>, n: nat, id: string, c: nat)
    requires PossibleRun(h, ops) && RejectsAt(h, ops, n, id) && c < |RunActions(h, ops).calls|
    ensures RunActions(h, ops).calls[c].actionId != id
  {
    hide RunActions, PhaseOf, Ineligibility, LiveOrder, OrderIdOf, Ledger;
    RejectionEndsLog(h, ops, n, id);
    var k := CalledAt(h, ops, c);
    PossiblePrefix(h, ops, n);
    PossiblePrefix(h, ops, k);
    if RunActions(h, ops).calls[c].actionId == id {
      if k < n {
        assert ops[..n][..k] == ops[..k];
        WaitingIsFirst(h, ops[..n], k, id);
      } else if k > n {
        assert ops[..k][..n + 1] == ops[..n + 1];
        EndedIsNotApproved(h, ops[..k], n + 1, id);
      }
    }
  }
}

/**
 `ActionService` (actions/service.py) with its dictionaries and stored actions updated in place. `Model` is the value
 that ActionModel.dfy speaks about; every method is proved to do to it exactly what the function of its name says.
 */
module ActionService {
  import opened Basics
  import opened JsonValues
  import opened WorldModel
  import opened ActionModel
  import opened ActionProof

  /** A mutable `StoredAction`: only its decision is ever replaced. */
  class ActionCell {
    ghost const id: string
    const proposal: Proposal
    const proposerRole: Role
    const tenantId: string
    var decision: Decision

    constructor (ghost id: string, proposal: Proposal, decision: Decision, proposerRole: Role, tenantId: string)
      ensures this.id == id && Value() == StoredAction(proposal, decision, proposerRole, tenantId)
    {
      this.id, this.proposal, this.decision, this.proposerRole, this.tenantId := id, proposal, decision, proposerRole,
          tenantId;
    }

    ghost function Value(): StoredAction
      reads this
    {
      StoredAction(proposal, decision, proposerRole, tenantId)
    }
  }

  datatype Cancellation = Cancellation(actionId: string, orderId: string, key: string)

  /**
   The executor handed to `execute`, with the answer it would give - none is an exception - and every call made to it.
   */
  class CancelOrderExecutor {
    const answer: Option<Receipt>
    ghost var calls: seq<Cancellation>

    constructor (answer: Option<Receipt>)
      ensures this.answer == answer && calls == []
    {
      this.answer, calls := answer, [];
    }

    method Cancel(actionId: string, orderId: string, key: string) returns (receipt: Option<Receipt>)
      modifies this
      ensures receipt == answer && calls == old(calls) + [Cancellation(actionId, orderId, key)]
    {
      calls := calls + [Cancellation(actionId, orderId, key)];
      receipt := answer;
    }
  }

  function CancellationOf(c: Call): Cancellation { Cancellation(c.actionId, c.orderId, c.key) }

  /** The provider calls that an operation makes: none or one. */
  function Cancellations(call: Option<Call>): seq<Cancellation> {
    match call case None => [] case Some(c) => [CancellationOf(c)]
  }

  class Service {
    const hash: HashEvent
    var actions: map<string, ActionCell>
    var idempotency: map<Ref, string>
    var events: map<string, seq<Event>>
    var executions: map<Ref, Receipt>

    /** What `actions` stands for, and the objects it holds. */
    ghost var stored: map<string, StoredAction>
    ghost var cells: set<ActionCell>

    /** Every action is an object of its own, and holds what `stored` says. */
    ghost predicate Valid()
      reads this`stored, this`actions, this`cells, cells
    {
      && (forall id :: id in stored <==> id in actions)
      && forall id | id in actions :: actions[id] in cells && actions[id].id == id && actions[id].Value() == stored[id]
    }

    ghost function Model(): ActionState
      reads this
    {
      ActionState(stored, idempotency, events, executions)
    }

    constructor (hash: HashEvent)
      ensures Valid() && Model() == EMPTY_ACTIONS && this.hash == hash
      ensures cells == {}
    {
      this.hash := hash;
      actions, idempotency, events, executions := map[], map[], map[], map[];
      stored, cells := map[], {};
    }

    // -------------------------------------------------------------- pieces

    /** `_get` and `_check_tenant`; no result is the KeyError of either. */
    method Get(tenant: string, actionId: string) returns (cell: Option<ActionCell>)
      requires Valid()
      ensures cell.Some? <==> Owned(Model(), tenant, actionId)
      ensures cell.Some? ==> actionId in actions && actionId in stored && cell.value == actions[actionId]
      ensures cell.Some? ==> cell.value.Value() == stored[actionId]
    {
      if actionId in actions && actions[actionId].tenantId == tenant {
        return Some(actions[actionId]);
      }
      return None;
    }

    /** `self._actions[action_id] = StoredAction(...)`. */
    method Store(actionId: string, proposal: Proposal, decision: Decision, role: Role, tenant: string)
      requires Valid()
      modifies this`actions, this`stored, this`cells
      ensures Valid() && fresh(cells - old(cells))
      ensures stored == old(stored)[actionId := StoredAction(proposal, decision, role, tenant)]
    {
      var cell := new ActionCell(actionId, proposal, decision, role, tenant);
      actions, stored, cells := actions[actionId := cell], stored[actionId := cell.Value()], cells + {cell};
    }

    /** `action.decision = ...` */
    method SetDecision(cell: ActionCell, decision: Decision)
      requires Valid() && cell.id in actions && actions[cell.id] == cell
      modifies cell, this`stored
      ensures Valid() && cell.decision == decision
      ensures stored == old(stored)[cell.id := old(stored)[cell.id].(decision := decision)]
    {
      cell.decision := decision;
      stored := stored[cell.id := stored[cell.id].(decision := decision)];
    }

    /** `_append_event`. */
    method AppendEvent(tenant: string, actionId: string, eventType: EventType, role: Role, payload: EventPayload,
                       uuid: string)
      returns (e: Event)
      modifies this`events
      ensures e == NewEvent(hash, old(Model()), tenant, actionId, eventType, role, payload, uuid)
      ensures Model() == Append(old(Model()), actionId, e)
    {
      var earlier := if actionId in events then events[actionId] else [];
      var previousHash := if earlier != [] then Some(earlier[|earlier| - 1].hash) else None;
      var body := EventBody(EventId(uuid), tenant, actionId, eventType, role, payload, previousHash);
      e := Event(body, hash(body));
      events := events[actionId := earlier + [e]];
    }

    /** A decision gets a new status and reason, and an event says so. */
    method Decide(tenant: string, actionId: string, cell: ActionCell, status: ActionStatus, reason: Reason,
                  eventType: EventType, role: Role, payload: EventPayload, uuid: string)
      requires Valid() && actionId in actions && actions[actionId] == cell && actionId in stored
      modifies cell, this`stored, this`events
      ensures Valid()
      ensures var o := Decided(hash, old(Model()), tenant, actionId, status, reason, eventType, role, payload, uuid);
              Model() == o.state && o.result == Ok(cell.decision)
    {
      hide Append, LastHash;
      SetDecision(cell, cell.decision.(status := status, reason := reason));
      hide Valid;
      SameLastHash(old(Model()), Model(), actionId);
      var e := AppendEvent(tenant, actionId, eventType, role, payload, uuid);
    }

    /** The hash of the next event is told by the event log alone. */
    static lemma SameLastHash(s: ActionState, s': ActionState, actionId: string)
      requires s.events == s'.events
      ensures LastHash(s, actionId) == LastHash(s', actionId)
    {
    }

    // -------------------------------------------------------------- propose

    /** `propose`. */
    method Propose(tenant: string, proposal: Proposal, role: Role, ctx: Context, actionUuid: string, uuid: string)
      returns (result: Result<Decision, Failure>)
      requires Valid()
      modifies this
      ensures Valid() && fresh(cells - old(cells))
      ensures var o := ActionModel.Propose(hash, old(Model()), tenant, proposal, role, ctx, actionUuid, uuid);
              Model() == o.state && result == o.result
    {
      hide EvaluatePolicy, NewEvent, Append;
      var ref := Ref(tenant, proposal.idempotencyKey);
      if ref in idempotency {
        var existing := idempotency[ref];
        return if existing in actions then Ok(actions[existing].decision) else Err(UnknownAction);
      }
      var id := ActionId(actionUuid);
      var decision := EvaluatePolicy(id, proposal, role, ctx);
      Store(id, proposal, decision, role, tenant);
      idempotency := idempotency[ref := id];
      var e := AppendEvent(tenant, id, PolicyEvaluated, role, PolicyPayload(decision, proposal), uuid);
      SameEvent(old(Model()), ActionState(stored, idempotency, old(events), executions), tenant, id, PolicyEvaluated,
                role, PolicyPayload(decision, proposal), uuid);
      return Ok(decision);
    }

    lemma SameEvent(s: ActionState, s': ActionState, tenant: string, actionId: string, eventType: EventType, role: Role,
                    payload: EventPayload, uuid: string)
      requires s.events == s'.events
      ensures NewEvent(hash, s, tenant, actionId, eventType, role, payload, uuid)
           == NewEvent(hash, s', tenant, actionId, eventType, role, payload, uuid)
    {
    }

    // -------------------------------------------------------------- approve and reject

    /** `_check_preconditions`. */
    static method CheckPreconditions(proposal: Proposal, state: Option<OrderState>) returns (failure: Option<Reason>)
      ensures failure == PreconditionFailure(proposal, state)
    {
      if state.None? {
        return Some(OrderMissing);
      }
      if state.value.stateVersion != proposal.expectedStateVersion {
        return Some(VersionChanged);
      }
      var expected, attributes := proposal.expectedAttributes, state.value.attributes;
      for i := 0 to |expected|
        invariant FirstMismatch(expected, attributes) == FirstMismatch(expected[i..], attributes)
      {
        assert expected[i..][1..] == expected[i + 1..];
        var (name, value) := expected[i];
        if name !in attributes || attributes[name].value != value {
          return Some(AttributeMismatch(name));
        }
      }
      return None;
    }

    /** `approve`. */
    method Approve(actionId: string, reason: string, role: Role, tenant: string, state: Option<OrderState>,
                   uuid: string)
      returns (result: Result<Decision, Failure>)
      requires Valid()
      modifies this`stored, this`events, cells
      ensures Valid()
      ensures var o := ActionModel.Approve(hash, old(Model()), tenant, actionId, reason, role, state, uuid);
              Model() == o.state && result == o.result
    {
      hide Decided, PreconditionFailure;
      var found := Get(tenant, actionId);
      assert found.Some? ==> found.value in cells;
      hide Valid;
      if found.None? {
        return Err(UnknownAction);
      }
      var cell := found.value;
      if cell.decision.status != ApprovalRequired {
        return Ok(cell.decision);
      }
      if Some(role) != cell.decision.requiredRole {
        Decide(tenant, actionId, cell, Denied, WrongApprover, ApprovalDenied, role,
               ReasonPayload(WrongApprover, Lifecycle), uuid);
        return Ok(cell.decision);
      }
      var failure := CheckPreconditions(cell.proposal, state);
      if failure.Some? {
        Decide(tenant, actionId, cell, PreconditionFailed, failure.value, StatusEvent(PreconditionFailed), role,
               ReasonPayload(failure.value, Lifecycle), uuid);
        return Ok(cell.decision);
      }
      Decide(tenant, actionId, cell, Approved, Said(reason), StatusEvent(Approved), role,
             ReasonPayload(Said(reason), Lifecycle), uuid);
      return Ok(cell.decision);
    }

    /** `reject`. */
    method Reject(actionId: string, reason: string, tenant: string, uuid: string)
      returns (result: Result<Decision, Failure>)
      requires Valid()
      modifies this`stored, this`events, cells
      ensures Valid()
      ensures var o := ActionModel.Reject(hash, old(Model()), tenant, actionId, reason, uuid);
              Model() == o.state && result == o.result
    {
      hide Decided;
      var found := Get(tenant, actionId);
      if found.None? {
        return Err(UnknownAction);
      }
      var cell := found.value;
      if cell.decision.status == ApprovalRequired {
        Decide(tenant, actionId, cell, Rejected, Said(reason), StatusEvent(Rejected), Approver,
               ReasonPayload(Said(reason), Lifecycle), uuid);
      }
      return Ok(cell.decision);
    }

    // -------------------------------------------------------------- execute

    /** `_require_eligible_test_order`; a result is the ValueError it raises. */
    method RequireEligible(tenant: string, actionId: string, state: Option<OrderState>, uuid: string)
      returns (why: Option<Reason>)
      modifies this`events
      ensures why == Ineligibility(state)
      ensures Model() == if why.None? then old(Model()) else
                Append(old(Model()), actionId,
                       NewEvent(hash, old(Model()), tenant, actionId, StatusEvent(PreconditionFailed), SystemRole,
                                ReasonPayload(why.value, Execution), uuid))
    {
      hide TerminalOrderStatus, LowerText, Append, NewEvent;
      why := None;
      if state.None? {
        why := Some(NotInWorldState);
      } else {
        var attributes := state.value.attributes;
        var status := if "status" in attributes then attributes["status"].value else Null;
        var fulfillment := if "fulfillment_status" in attributes then attributes["fulfillment_status"].value else Null;
        if status.Str? && TerminalOrderStatus(status.s) {
          why := Some(AlreadyTerminal(status.s));
        } else if fulfillment.Str? && LowerText(fulfillment.s) == "fulfilled" {
          why := Some(AlreadyFulfilled);
        }
      }
      if why.Some? {
        var e := AppendEvent(tenant, actionId, StatusEvent(PreconditionFailed), SystemRole,
                             ReasonPayload(why.value, Execution), uuid);
      }
    }

    /** The end of `execute`: what an accepted write leaves behind. */
    method Accept(tenant: string, actionId: string, cell: ActionCell, receipt: Receipt, uuid: string)
      requires Valid() && actionId in actions && actions[actionId] == cell && actionId in stored
      modifies cell, this`stored, this`executions, this`events
      ensures Valid()
      ensures var s := old(Model());
              var d := s.actions[actionId].decision.(status := ProviderAccepted, reason := WriteAccepted);
              var s1 := WithDecision(s, actionId, d).(executions :=
                                                      s.executions[Ref(tenant, cell.proposal.idempotencyKey) :=
                                                                   receipt]);
              Model() == Append(s1, actionId, NewEvent(hash, s, tenant, actionId, StatusEvent(ProviderAccepted),
                                                       SystemRole, ReceiptPayload(receipt), uuid))
    {
      hide Append, NewEvent;
      SetDecision(cell, cell.decision.(status := ProviderAccepted, reason := WriteAccepted));
      hide Valid;
      executions := executions[Ref(tenant, cell.proposal.idempotencyKey) := receipt];
      SameEvent(old(Model()), Model(), tenant, actionId, StatusEvent(ProviderAccepted), SystemRole,
                ReceiptPayload(receipt), uuid);
      var e := AppendEvent(tenant, actionId, StatusEvent(ProviderAccepted), SystemRole, ReceiptPayload(receipt), uuid);
    }

    /** `execute`. The executor is called exactly when the specification has a call, and with its arguments. */
    method Execute(actionId: string, tenant: string, cancelOrder: CancelOrderExecutor, state: Option<OrderState>,
                   uuid: string)
      returns (result: Result<Receipt, Failure>)
      requires Valid()
      modifies this`stored, this`executions, this`events, cells, cancelOrder
      ensures Valid()
      ensures var o := ActionModel.Execute(hash, old(Model()), tenant, actionId, state, cancelOrder.answer, uuid);
              Model() == o.state && result == o.result
              && cancelOrder.calls == old(cancelOrder.calls) + Cancellations(o.call)
    {
      hide Append, NewEvent, Ineligibility, OrderIdOf;
      var found := Get(tenant, actionId);
      assert found.Some? ==> found.value in cells;
      if found.None? {
        return Err(UnknownAction);
      }
      var cell := found.value;
      var ref := Ref(tenant, cell.proposal.idempotencyKey);
      if ref in executions {
        return Ok(executions[ref]);
      }
      if cell.decision.status != Approved {
        return Err(NotApproved);
      }
      if !cell.proposal.actionType.CancelOrder? {
        return Err(NotExecutable);
      }
      var why := RequireEligible(tenant, actionId, state, uuid);
      if why.Some? {
        return Err(Ineligible(why.value));
      }
      var answer := cancelOrder.Cancel(actionId, OrderIdOf(cell.proposal.targetEntity), cell.proposal.idempotencyKey);
      if answer.None? {
        return Err(ProviderFailed);
      }
      Accept(tenant, actionId, cell, answer.value, uuid);
      return Ok(answer.value);
    }

    // -------------------------------------------------------------- verify

    /** `verify`. */
    method Verify(actionId: string, tenant: string, state: Option<OrderState>, isFinal: bool, uuid: string)
      returns (result: Result<Decision, Failure>)
      requires Valid()
      modifies this`stored, this`events, cells
      ensures Valid()
      ensures var o := ActionModel.Verify(hash, old(Model()), tenant, actionId, state, isFinal, uuid);
              Model() == o.state && result == o.result
    {
      hide Decided, ObservedStatus, Verdict, VerdictReason;
      var found := Get(tenant, actionId);
      assert found.Some? ==> found.value in cells;
      hide Valid;
      if found.None? {
        return Err(UnknownAction);
      }
      var cell := found.value;
      if !cell.decision.status.ProviderAccepted? && !cell.decision.status.VerificationPending? {
        return Err(NotVerifiable);
      }
      var observed := Observe(state);
      var status, reason := Judge(observed, isFinal);
      var commit := match state case None => None case Some(st) => Some(st.commitId);
      Decide(tenant, actionId, cell, status, reason, StatusEvent(status), Verifier,
             ReadPayload(reason, commit, observed), uuid);
      return Ok(cell.decision);
    }

    static method Observe(state: Option<OrderState>) returns (observed: Json)
      ensures observed == ObservedStatus(state)
    {
      observed := Null;
      if state.Some? && "status" in state.value.attributes {
        observed := state.value.attributes["status"].value;
      }
    }

    /** The four branches of `verify`. */
    static method Judge(observed: Json, isFinal: bool) returns (status: ActionStatus, reason: Reason)
      ensures status == Verdict(observed, isFinal) && reason == VerdictReason(observed, isFinal)
    {
      if observed == Str("cancelled") {
        status, reason := Verified, ReadConfirmed;
      } else if !isFinal {
        status, reason := VerificationPending, if observed != Null then NotYetCancelled else NoStatusYet;
      } else if observed == Null {
        status, reason := VerificationFailed, NoStatusInTime;
      } else {
        status, reason := StateDiverged, Diverged(observed);
      }
    }

    // -------------------------------------------------------------- restore

    /** `restore`; false is an exception. */
    method Restore(event: Event) returns (quiet: bool)
      requires Valid()
      modifies this, cells
      ensures Valid() && fresh(cells - old(cells))
      ensures (Model(), quiet) == ActionModel.Restore(old(Model()), event)
    {
      var seen := set a, i | a in events && 0 <= i < |events[a]| :: events[a][i].body.eventId;
      assert event.body.eventId in seen <==> SeenEvent(Model(), event.body.eventId);
      hide SeenEvent, RestoreUpdate, Append, WithDecision;
      if event.body.eventId in seen {
        return true;
      }
      if !event.body.eventType.PolicyEvaluated? {
        if event.body.actionId !in actions {
          return true;
        }
        quiet := RestoreStep(actions[event.body.actionId], event);
      } else {
        if !event.body.payload.PolicyPayload? {
          return false;
        }
        RestoreProposal(event);
        quiet := true;
      }
    }

    /** `restore` for an event of an action that is known. */
    method RestoreStep(cell: ActionCell, event: Event) returns (quiet: bool)
      requires Valid() && event.body.actionId in actions && actions[event.body.actionId] == cell
                && event.body.actionId in stored
      modifies cell, this`stored, this`events, this`executions
      ensures Valid()
      ensures var s, id := old(Model()), event.body.actionId;
              var s1 := Append(WithDecision(s, id, RestoreUpdate(s.actions[id].decision, event)), id, event);
              var accepted := event.body.eventType == StatusEvent(ProviderAccepted);
              && quiet == (accepted ==> event.body.payload.ReceiptPayload?)
              && Model() == if !accepted || !event.body.payload.ReceiptPayload? then s1 else
                 var receipt := event.body.payload.receipt;
                 s1.(executions := s1.executions[Ref(event.body.tenantId, receipt.idempotencyKey) := receipt])
    {
      hide RestoreUpdate, Append;
      SetDecision(cell, RestoreUpdate(cell.decision, event));
      hide Valid;
      Keep(event);
      if event.body.eventType == StatusEvent(ProviderAccepted) {
        if !event.body.payload.ReceiptPayload? {
          return false;
        }
        var receipt := event.body.payload.receipt;
        executions := executions[Ref(event.body.tenantId, receipt.idempotencyKey) := receipt];
      }
      return true;
    }

    /** `restore` for a proposal. */
    method RestoreProposal(event: Event)
      requires Valid() && event.body.payload.PolicyPayload?
      modifies this
      ensures Valid() && fresh(cells - old(cells))
      ensures var s, id, p := old(Model()), event.body.actionId, event.body.payload;
              var s1 := s.(actions := s.actions[id := StoredAction(p.proposal, p.decision, event.body.actorRole,
                                                                   event.body.tenantId)],
                           idempotency := s.idempotency[Ref(event.body.tenantId, p.proposal.idempotencyKey) := id]);
              Model() == Append(s1, id, event)
    {
      hide Append;
      var id, p := event.body.actionId, event.body.payload;
      Store(id, p.proposal, p.decision, event.body.actorRole, event.body.tenantId);
      hide Valid;
      idempotency := idempotency[Ref(event.body.tenantId, p.proposal.idempotencyKey) := id];
      Keep(event);
    }

    /** `self._events.setdefault(event.action_id, []).append(event)`. */
    method Keep(event: Event)
      modifies this`events
      ensures Model() == Append(old(Model()), event.body.actionId, event)
    {
      events := events[event.body.actionId := (if event.body.actionId in events then events[event.body.actionId]
                                               else []) + [event]];
    }

    // -------------------------------------------------------------- reading

    /** `proof`. */
    method Proof(fingerprint: Proposal -> string, actionId: string, tenant: string, commit: Option<Commit>)
      returns (bundle: Option<Bundle>)
      requires Valid()
      ensures bundle == ProofOf(fingerprint, Model(), tenant, actionId, commit)
    {
      hide VerificationFrom, WarningsFor, DeltaFrom, ChainOf, PolicyFrom, ActorFrom, ProviderFrom, Latest;
      var found := Get(tenant, actionId);
      if found.None? {
        return None;
      }
      var cell := found.value;
      var log := if actionId in events then events[actionId] else [];
      var approval := Latest(log, StatusEvent(Approved));
      var policy := Latest(log, PolicyEvaluated);
      var proposer := ActorFrom(policy);
      var approver := ActorFrom(if approval.Some? then approval else Latest(log, StatusEvent(Rejected)));
      var provider := ProviderFrom(fingerprint, cell.proposal, Latest(log, StatusEvent(ProviderAccepted)));
      var status := cell.decision.status;
      var assurance := AssuredObserved;
      if status.Verified? {
        assurance := AssuredVerified;
      } else if provider.Some? {
        assurance := AssuredAccepted;
      }
      var warnings := WarningsFor(status, proposer, approver, Latest(log, StatusEvent(PreconditionFailed)));
      var verification := VerificationFrom(log);
      var verificationCommitId := if verification.Some? then verification.value.commitId else None;
      return Some(Bundle(actionId, tenant, status, assurance, cell.proposal, proposer, approver, PolicyFrom(policy),
                         cell.proposal.idempotencyKey, provider, verification, DeltaFrom(commit), ChainOf(log),
                         warnings, log, verificationCommitId));
    }
  }
}

/**
 `ActionService` over whole runs (actions/service.py), restarts included: every dictionary agrees with the event logs,
 every log spells the lifecycle, and restoring the durable log rebuilds the running service.
 */
module ActionRuns {
  import opened Basics
  import opened Links
  import opened JsonValues
  import opened WorldModel
  import opened ActionModel
  import opened ActionLog

  // ---------------------------------------------------------------- what every state keeps

  function HashBefore(log: seq<Event>, i: nat): Option<string>
    requires i <= |log|
  {
    if i == 0 then None else Some(log[i - 1].hash)
  }

  ghost predicate ChainedAt(h: HashEvent, log: seq<Event>, i: nat)
    requires i < |log|
  {
    Fits(h, Link(log[i].body.previousHash, log[i].body, log[i].hash), HashBefore(log, i))
  }

  ghost predicate Chained(h: HashEvent, log: seq<Event>) {
    forall i: nat | i < |log| :: ChainedAt(h, log, i)
  }

  function KeyOf(a: StoredAction): Ref { Ref(a.tenantId, a.proposal.idempotencyKey) }

  /** The provider has accepted the write. */
  predicate Executed(p: Phase) {
    p.Accepted? || p.Polling? || (p.Done? && TerminalVerification(p.status))
  }

  ghost predicate HoldsReceipt(log: seq<Event>, receipt: Receipt) {
    exists i | 0 <= i < |log| :: IsAcceptance(log[i]) && log[i].body.payload.receipt == receipt
  }

  /** The log tells who proposed what, and is about this action and tenant throughout. */
  ghost predicate LogTells(h: HashEvent, id: string, a: StoredAction, log: seq<Event>) {
    && log != [] && !PhaseOf(log).Broken?
    && log[0].body.payload.PolicyPayload?
    && log[0].body.payload.proposal == a.proposal
    && log[0].body.actorRole == a.proposerRole
    && (exists ctx :: FirstDecision(log) == EvaluatePolicy(id, a.proposal, a.proposerRole, ctx))
    && (forall i | 0 <= i < |log| :: log[i].body.actionId == id && log[i].body.tenantId == a.tenantId)
    && Chained(h, log)
  }

  ghost predicate DecisionTold(a: StoredAction, log: seq<Event>)
    requires log != [] && log[0].body.payload.PolicyPayload?
  {
    a.decision == LiveDecision(log) || a.decision == RestoredDecision(log)
  }

  /** The indexes lead from the action's tenant and key to the action, and to its receipt once there is one. */
  ghost predicate IndexesTell(s: ActionState, id: string, a: StoredAction, log: seq<Event>) {
    && KeyOf(a) in s.idempotency && s.idempotency[KeyOf(a)] == id
    && (KeyOf(a) in s.executions <==> Executed(PhaseOf(log)))
    && (KeyOf(a) in s.executions ==> HoldsReceipt(log, s.executions[KeyOf(a)]))
  }

  ghost predicate ActionSound(h: HashEvent, s: ActionState, id: string)
    requires id in s.actions
  {
    && id in s.events
    && LogTells(h, id, s.actions[id], s.events[id])
    && DecisionTold(s.actions[id], s.events[id])
    && IndexesTell(s, id, s.actions[id], s.events[id])
  }

  ghost predicate ServiceSound(h: HashEvent, s: ActionState) {
    && (forall id :: id in s.actions <==> id in s.events)
    && (forall id | id in s.actions :: ActionSound(h, s, id))
    && (forall r | r in s.idempotency :: s.idempotency[r] in s.actions && KeyOf(s.actions[s.idempotency[r]]) == r)
    && (forall r | r in s.executions :: r in s.idempotency)
  }

  // ---------------------------------------------------------------- what one event does

  ghost predicate Opens(s: ActionState, s': ActionState, e: Event) {
    var id := e.body.actionId;
    && e.body.eventType.PolicyEvaluated? && e.body.payload.PolicyPayload?
    && id !in s.actions && id !in s.events
    && var a := StoredAction(e.body.payload.proposal, e.body.payload.decision, e.body.actorRole, e.body.tenantId);
    && KeyOf(a) !in s.idempotency
    && (exists ctx :: a.decision == EvaluatePolicy(id, a.proposal, a.proposerRole, ctx))
    && s'.actions == s.actions[id := a]
    && s'.idempotency == s.idempotency[KeyOf(a) := id]
    && s'.executions == s.executions
  }

  ghost predicate Continues(s: ActionState, s': ActionState, e: Event) {
    var id := e.body.actionId;
    && !e.body.eventType.PolicyEvaluated?
    && id in s.actions && id in s.events
    && var a := s.actions[id];
    && e.body.tenantId == a.tenantId
    && !Next(PhaseOf(s.events[id]), e).Broken?
    && (IsAcceptance(e) ==> KeyOf(a) !in s.executions)
    && (AtExecution(e) ==> a.decision.status == Approved)
    && s'.actions == s.actions[id := a.(decision := LiveUpdate(a.decision, e))]
    && s'.idempotency == s.idempotency
    && s'.executions == if IsAcceptance(e) then s.executions[KeyOf(a) := e.body.payload.receipt] else s.executions
  }

  /** `e` was appended to its action's log, and everything else followed from it. */
  ghost predicate Extends(h: HashEvent, s: ActionState, s': ActionState, e: Event) {
    && e.hash == h(e.body)
    && e.body.previousHash == LastHash(s, e.body.actionId)
    && s'.events == s.events[e.body.actionId := EventsOf(s, e.body.actionId) + [e]]
    && (Opens(s, s', e) || Continues(s, s', e))
  }

  /** Which phase an action is in, told by its status. */
  lemma PhaseByStatus(h: HashEvent, s: ActionState, id: string)
    requires id in s.actions && ActionSound(h, s, id)
    ensures var status, p, log := s.actions[id].decision.status, PhaseOf(s.events[id]), s.events[id];
            && (status == ApprovalRequired <==> p.Waiting?)
            && (status == Approved ==> p.Runnable?)
            && (status == ProviderAccepted <==> p.Accepted?)
            && (status == VerificationPending <==> p.Polling?)
            && (TerminalVerification(status) <==> p.Done? && TerminalVerification(p.status))
            && (status == StatusOf(p) || (AtExecution(log[|log| - 1]) && p.Runnable? && status == PreconditionFailed))
  {
    hide LiveDecision, RestoredDecision, Next;
    var log := s.events[id];
    LiveStatusIsPhase(log);
    RestoredVersusLive(log);
    PhaseSpells(log);
  }

  lemma PerformExtends(h: HashEvent, s: ActionState, op: ActionOp)
    requires !op.Restart? && ServiceSound(h, s) && Possible(System(s, [], []), op)
    ensures var o := Perform(h, s, op);
            && (o.event.None? ==> o.state == s)
            && (o.event.Some? ==>
                Extends(h, s, o.state, o.event.value) && o.event.value.body.eventId == EventId(op.uuid))
  {
    match op
    case DoPropose(tenant, proposal, role, ctx, actionUuid, uuid) =>
      ProposeExtends(h, s, tenant, proposal, role, ctx, actionUuid, uuid);
    case DoApprove(tenant, id, reason, role, state, uuid) =>
      if Owned(s, tenant, id) { ApproveExtends(h, s, tenant, id, reason, role, state, uuid); }
    case DoReject(tenant, id, reason, uuid) =>
      if Owned(s, tenant, id) { RejectExtends(h, s, tenant, id, reason, uuid); }
    case DoExecute(tenant, id, state, outcome, uuid) =>
      if Owned(s, tenant, id) { ExecuteExtends(h, s, tenant, id, state, outcome, uuid); }
    case DoVerify(tenant, id, state, isFinal, uuid) =>
      if Owned(s, tenant, id) { VerifyExtends(h, s, tenant, id, state, isFinal, uuid); }
  }

  lemma ProposeExtends(h: HashEvent, s: ActionState, tenant: string, proposal: Proposal, role: Role, ctx: Context,
                       actionUuid: string, uuid: string)
    requires ActionId(actionUuid) !in s.actions && ActionId(actionUuid) !in s.events
    ensures var o := Propose(h, s, tenant, proposal, role, ctx, actionUuid, uuid);
            && (o.event.None? ==> o.state == s)
            && (o.event.Some? ==> Extends(h, s, o.state, o.event.value) && o.event.value.body.eventId == EventId(uuid))
  {
    hide EvaluatePolicy, ActionId, EventId;
  }

  /** A status change with its event, from a phase that allows it. */
  lemma DecidedExtends(h: HashEvent, s: ActionState, tenant: string, id: string, status: ActionStatus, reason: Reason,
                       t: EventType, role: Role, payload: EventPayload, uuid: string)
    requires Owned(s, tenant, id) && ActionSound(h, s, id)
    requires payload.ReasonPayload? || payload.ReadPayload?
    requires ReasonIn(payload) == Some(reason) && MappedStatus(t) == Some(status)
    requires payload.ReasonPayload? ==> payload.stage.Lifecycle?
    requires t != StatusEvent(ProviderAccepted)
    requires var e := NewEvent(h, s, tenant, id, t, role, payload, uuid); !Next(PhaseOf(s.events[id]), e).Broken?
    ensures var o := Decided(h, s, tenant, id, status, reason, t, role, payload, uuid);
            o.event.Some? && Extends(h, s, o.state, o.event.value) && o.event.value.body.eventId == EventId(uuid)
  {
    hide EventId, Next, PhaseOf, LogTells, DecisionTold;
  }

  lemma ApproveExtends(h: HashEvent, s: ActionState, tenant: string, id: string, reason: string, role: Role,
                       state: Option<OrderState>, uuid: string)
    requires Owned(s, tenant, id) && ActionSound(h, s, id)
    ensures var o := Approve(h, s, tenant, id, reason, role, state, uuid);
            && (o.event.None? ==> o.state == s)
            && (o.event.Some? ==> Extends(h, s, o.state, o.event.value) && o.event.value.body.eventId == EventId(uuid))
  {
    PhaseByStatus(h, s, id);
    hide Extends, EventId, PhaseOf, ActionSound, PreconditionFailure, Decided, Next, LastHash;
    if s.actions[id].decision.status == ApprovalRequired {
      AnswerKeepsPhase(h, s, tenant, id, role, uuid);
      if Some(role) != s.actions[id].decision.requiredRole {
        DecidedExtends(h, s, tenant, id, Denied, WrongApprover, ApprovalDenied, role,
                       ReasonPayload(WrongApprover, Lifecycle), uuid);
      } else {
        match PreconditionFailure(s.actions[id].proposal, state)
        case Some(failure) =>
          DecidedExtends(h, s, tenant, id, PreconditionFailed, failure, StatusEvent(PreconditionFailed), role,
                         ReasonPayload(failure, Lifecycle), uuid);
        case None =>
          DecidedExtends(h, s, tenant, id, Approved, Said(reason), StatusEvent(Approved), role,
                         ReasonPayload(Said(reason), Lifecycle), uuid);
      }
    }
  }

  /** What an approver may answer is an event that a waiting action accepts. */
  lemma AnswerKeepsPhase(h: HashEvent, s: ActionState, tenant: string, id: string, role: Role, uuid: string)
    requires id in s.events && PhaseOf(s.events[id]).Waiting?
    ensures forall t, why: Reason | t in [StatusEvent(Approved), StatusEvent(Rejected),
                                          StatusEvent(PreconditionFailed), ApprovalDenied] ::
              !Next(PhaseOf(s.events[id]), NewEvent(h, s, tenant, id, t, role, ReasonPayload(why, Lifecycle),
                                                    uuid)).Broken?
  {
    hide PhaseOf, LastHash, EventId;
  }

  lemma RejectExtends(h: HashEvent, s: ActionState, tenant: string, id: string, reason: string, uuid: string)
    requires Owned(s, tenant, id) && ActionSound(h, s, id)
    ensures var o := Reject(h, s, tenant, id, reason, uuid);
            && (o.event.None? ==> o.state == s)
            && (o.event.Some? ==> Extends(h, s, o.state, o.event.value) && o.event.value.body.eventId == EventId(uuid))
  {
    PhaseByStatus(h, s, id);
    hide Extends, EventId, PhaseOf, ActionSound;
    if s.actions[id].decision.status == ApprovalRequired {
      DecidedExtends(h, s, tenant, id, Rejected, Said(reason), StatusEvent(Rejected), Approver,
                     ReasonPayload(Said(reason), Lifecycle), uuid);
    }
  }

  lemma IneligibleExtends(h: HashEvent, s: ActionState, tenant: string, id: string, why: Reason, uuid: string)
    requires Owned(s, tenant, id) && ActionSound(h, s, id) && PhaseOf(s.events[id]).Runnable?
    requires s.actions[id].decision.status == Approved
    ensures var e := NewEvent(h, s, tenant, id, StatusEvent(PreconditionFailed), SystemRole,
                              ReasonPayload(why, Execution), uuid);
            Extends(h, s, Append(s, id, e), e) && e.body.eventId == EventId(uuid)
  {
    hide EventId, PhaseOf, LogTells, DecisionTold;
  }

  lemma AcceptanceExtends(h: HashEvent, s: ActionState, tenant: string, id: string, receipt: Receipt, uuid: string)
    requires Owned(s, tenant, id) && ActionSound(h, s, id) && PhaseOf(s.events[id]).Runnable?
    ensures var e := NewEvent(h, s, tenant, id, StatusEvent(ProviderAccepted), SystemRole, ReceiptPayload(receipt),
                              uuid);
            var d := s.actions[id].decision.(status := ProviderAccepted, reason := WriteAccepted);
            var s1 := WithDecision(s, id, d).(executions := s.executions[KeyOf(s.actions[id]) := receipt]);
            Extends(h, s, Append(s1, id, e), e) && e.body.eventId == EventId(uuid)
  {
    hide EventId, PhaseOf, LogTells, DecisionTold;
  }

  lemma ExecuteExtends(h: HashEvent, s: ActionState, tenant: string, id: string, state: Option<OrderState>,
                       outcome: Option<Receipt>, uuid: string)
    requires Owned(s, tenant, id) && ActionSound(h, s, id)
    ensures var o := Execute(h, s, tenant, id, state, outcome, uuid);
            && (o.event.None? ==> o.state == s)
            && (o.event.Some? ==> Extends(h, s, o.state, o.event.value) && o.event.value.body.eventId == EventId(uuid))
  {
    PhaseByStatus(h, s, id);
    hide EventId, PhaseOf, ActionSound, Ineligibility, OrderIdOf, Extends, NewEvent, Append;
    if s.actions[id].decision.status == Approved {
      if Ineligibility(state).Some? {
        IneligibleExtends(h, s, tenant, id, Ineligibility(state).value, uuid);
      } else if outcome.Some? {
        AcceptanceExtends(h, s, tenant, id, outcome.value, uuid);
      }
    }
  }

  lemma ReadKeepsPhase(p: Phase, e: Event, observed: Json, isFinal: bool)
    requires p.Accepted? || p.Polling?
    requires e.body.payload.ReadPayload? && e.body.eventType == StatusEvent(Verdict(observed, isFinal))
    ensures !Next(p, e).Broken?
  {
  }

  lemma VerifyExtends(h: HashEvent, s: ActionState, tenant: string, id: string, state: Option<OrderState>,
                      isFinal: bool, uuid: string)
    requires Owned(s, tenant, id) && ActionSound(h, s, id)
    ensures var o := Verify(h, s, tenant, id, state, isFinal, uuid);
            && (o.event.None? ==> o.state == s)
            && (o.event.Some? ==> Extends(h, s, o.state, o.event.value) && o.event.value.body.eventId == EventId(uuid))
  {
    PhaseByStatus(h, s, id);
    hide Extends, EventId, PhaseOf, ActionSound, ObservedStatus, VerdictReason, Next, Decided;
    if Verifiable(s.actions[id].decision.status) {
      var observed := ObservedStatus(state);
      var status, why := Verdict(observed, isFinal), VerdictReason(observed, isFinal);
      var commit := match state case None => None case Some(st) => Some(st.commitId);
      var payload := ReadPayload(why, commit, observed);
      ReadKeepsPhase(PhaseOf(s.events[id]), NewEvent(h, s, tenant, id, StatusEvent(status), Verifier, payload, uuid),
                     observed, isFinal);
      DecidedExtends(h, s, tenant, id, status, why, StatusEvent(status), Verifier, payload, uuid);
    }
  }

  // ---------------------------------------------------------------- the table of receipts

  /** What an event files, under the proposal's key. */
  function Given(m: map<Ref, Receipt>, key: Ref, e: Event): map<Ref, Receipt> {
    if IsAcceptance(e) then m[key := e.body.payload.receipt] else m
  }

  /** One operation on two services that differ in their receipts: it leaves both alone, or does the same to both. */
  ghost predicate Parallel(s: ActionState, b: ActionState, o: Performed, ob: Performed) {
    match o.event
    case None => o.state == s && (o.call.Some? ==> !Completed(o.call.value))
    case Some(e) =>
      && ob.event == Some(e) && ob.call == o.call
      && o.state == ob.state.(executions := o.state.executions)
      && e.body.actionId in o.state.actions
      && var key := KeyOf(o.state.actions[e.body.actionId]);
      && (IsAcceptance(e) ==> key !in s.executions && key !in b.executions)
      && o.state.executions == Given(s.executions, key, e)
      && ob.state.executions == Given(b.executions, key, e)
      && (if IsAcceptance(e) then
            o.call.Some? && Completed(o.call.value) && CallKey(o.call.value) == key
                && o.call.value.outcome.value == e.body.payload.receipt
          else o.call.None?)
  }

  lemma DecidedParallel(h: HashEvent, s: ActionState, b: ActionState, tenant: string, id: string, status: ActionStatus,
                        reason: Reason, t: EventType, role: Role, payload: EventPayload, uuid: string)
    requires b == s.(executions := b.executions) && id in s.actions && !payload.ReceiptPayload?
    ensures var o := Decided(h, s, tenant, id, status, reason, t, role, payload, uuid);
            var ob := Decided(h, b, tenant, id, status, reason, t, role, payload, uuid);
            Parallel(s, b, Performed(o.state, o.event, o.call), Performed(ob.state, ob.event, ob.call))
  {
    hide EventId;
  }

  lemma ProposeParallel(h: HashEvent, s: ActionState, b: ActionState, op: ActionOp)
    requires b == s.(executions := b.executions) && op.DoPropose?
    ensures Parallel(s, b, Perform(h, s, op), Perform(h, b, op))
  {
    hide EvaluatePolicy, EventId, ActionId;
  }

  lemma ApproveParallel(h: HashEvent, s: ActionState, b: ActionState, op: ActionOp)
    requires b == s.(executions := b.executions) && op.DoApprove? && op.actionId in s.actions
    ensures Parallel(s, b, Perform(h, s, op), Perform(h, b, op))
  {
    var failure := PreconditionFailure(s.actions[op.actionId].proposal, op.state);
    hide PreconditionFailure, Decided;
    DecidedParallel(h, s, b, op.tenant, op.actionId, Denied, WrongApprover, ApprovalDenied, op.role,
                    ReasonPayload(WrongApprover, Lifecycle), op.uuid);
    DecidedParallel(h, s, b, op.tenant, op.actionId, Approved, Said(op.reason), StatusEvent(Approved), op.role,
                    ReasonPayload(Said(op.reason), Lifecycle), op.uuid);
    if failure.Some? {
      DecidedParallel(h, s, b, op.tenant, op.actionId, PreconditionFailed, failure.value,
                      StatusEvent(PreconditionFailed), op.role, ReasonPayload(failure.value, Lifecycle), op.uuid);
    }
    hide Parallel;
    NothingParallel(s, b, Perform(h, s, op), Perform(h, b, op));
  }

  lemma NothingParallel(s: ActionState, b: ActionState, o: Performed, ob: Performed)
    ensures o.event.None? && o.state == s && (o.call.Some? ==> !Completed(o.call.value)) ==> Parallel(s, b, o, ob)
  {
  }

  lemma RejectParallel(h: HashEvent, s: ActionState, b: ActionState, op: ActionOp)
    requires b == s.(executions := b.executions) && op.DoReject? && op.actionId in s.actions
    ensures Parallel(s, b, Perform(h, s, op), Perform(h, b, op))
  {
    hide Decided, Parallel;
    DecidedParallel(h, s, b, op.tenant, op.actionId, Rejected, Said(op.reason), StatusEvent(Rejected), Approver,
                    ReasonPayload(Said(op.reason), Lifecycle), op.uuid);
    NothingParallel(s, b, Perform(h, s, op), Perform(h, b, op));
  }

  lemma VerifyParallel(h: HashEvent, s: ActionState, b: ActionState, op: ActionOp)
    requires b == s.(executions := b.executions) && op.DoVerify? && op.actionId in s.actions
    ensures Parallel(s, b, Perform(h, s, op), Perform(h, b, op))
  {
    hide Decided, Parallel, ObservedStatus, Verdict, VerdictReason;
    var observed := ObservedStatus(op.state);
    var status, why := Verdict(observed, op.isFinal), VerdictReason(observed, op.isFinal);
    var commit := match op.state case None => None case Some(st) => Some(st.commitId);
    DecidedParallel(h, s, b, op.tenant, op.actionId, status, why, StatusEvent(status), Verifier,
                    ReadPayload(why, commit, observed), op.uuid);
    NothingParallel(s, b, Perform(h, s, op), Perform(h, b, op));
  }

  lemma ExecuteParallel(h: HashEvent, s: ActionState, b: ActionState, op: ActionOp)
    requires b == s.(executions := b.executions) && op.DoExecute? && op.actionId in s.actions
    requires s.actions[op.actionId].decision.status == Approved ==> KeyOf(s.actions[op.actionId]) !in b.executions
    ensures Parallel(s, b, Perform(h, s, op), Perform(h, b, op))
  {
    var action := s.actions[op.actionId];
    hide Ineligibility, OrderIdOf, EventId, NewEvent, Append, Parallel;
    NothingParallel(s, b, Perform(h, s, op), Perform(h, b, op));
    if action.decision.status == Approved && action.tenantId == op.tenant && KeyOf(action) !in s.executions {
      if Ineligibility(op.state).Some? {
        IneligibleParallel(h, s, b, op.tenant, op.actionId, Ineligibility(op.state).value, op.uuid);
      } else if op.outcome.Some? {
        AcceptedParallel(h, s, b, op.actionId, op.state, op.outcome.value, op.uuid);
      }
    }
  }

  lemma IneligibleParallel(h: HashEvent, s: ActionState, b: ActionState, tenant: string, id: string, why: Reason,
                           uuid: string)
    requires b == s.(executions := b.executions) && id in s.actions
    ensures var payload := ReasonPayload(why, Execution);
            var e := NewEvent(h, s, tenant, id, StatusEvent(PreconditionFailed), SystemRole, payload, uuid);
            && e == NewEvent(h, b, tenant, id, StatusEvent(PreconditionFailed), SystemRole, payload, uuid)
            && Parallel(s, b, Performed(Append(s, id, e), Some(e), None), Performed(Append(b, id, e), Some(e), None))
  {
    hide EventId;
  }

  lemma AcceptedParallel(h: HashEvent, s: ActionState, b: ActionState, id: string, state: Option<OrderState>,
                         receipt: Receipt, uuid: string)
    requires b == s.(executions := b.executions) && id in s.actions && state.Some?
    requires KeyOf(s.actions[id]) !in s.executions && KeyOf(s.actions[id]) !in b.executions
    ensures var action := s.actions[id];
            var call := Call(action.tenantId, id, OrderIdOf(action.proposal.targetEntity),
                             action.proposal.idempotencyKey, state.value, Some(receipt));
            var d := action.decision.(status := ProviderAccepted, reason := WriteAccepted);
            var e := NewEvent(h, s, action.tenantId, id, StatusEvent(ProviderAccepted), SystemRole,
                              ReceiptPayload(receipt), uuid);
            var s1 := WithDecision(s, id, d).(executions := s.executions[KeyOf(action) := receipt]);
            var b1 := WithDecision(b, id, d).(executions := b.executions[KeyOf(action) := receipt]);
            && e == NewEvent(h, b, action.tenantId, id, StatusEvent(ProviderAccepted), SystemRole,
                             ReceiptPayload(receipt), uuid)
            && Parallel(s, b, Performed(Append(s1, id, e), Some(e), Some(call)),
                        Performed(Append(b1, id, e), Some(e), Some(call)))
  {
    hide EventId, OrderIdOf;
  }

  /**
   Whatever a restart has made of the table of receipts, an operation does to the service what it does to the one with
   the receipts that were given, or leaves it alone.
   */
  lemma PerformParallel(h: HashEvent, s: ActionState, b: ActionState, op: ActionOp)
    requires !op.Restart? && ServiceSound(h, b) && b == s.(executions := b.executions)
    ensures Parallel(s, b, Perform(h, s, op), Perform(h, b, op))
  {
    if op.DoPropose? {
      hide Perform, ServiceSound, Parallel;
      ProposeParallel(h, s, b, op);
    } else if op.actionId !in s.actions {
      hide ServiceSound, Parallel;
      NothingParallel(s, b, Perform(h, s, op), Perform(h, b, op));
    } else {
      assert ActionSound(h, b, op.actionId);
      ApprovedHasNoReceipt(h, b, op.actionId);
      hide Perform, ServiceSound, ActionSound, Parallel;
      match op
      case DoApprove(_, _, _, _, _, _) => ApproveParallel(h, s, b, op);
      case DoReject(_, _, _, _) => RejectParallel(h, s, b, op);
      case DoExecute(_, _, _, _, _) => ExecuteParallel(h, s, b, op);
      case DoVerify(_, _, _, _, _) => VerifyParallel(h, s, b, op);
    }
  }

  lemma ApprovedHasNoReceipt(h: HashEvent, s: ActionState, id: string)
    requires id in s.actions && ActionSound(h, s, id)
    ensures s.actions[id].decision.status == Approved ==> KeyOf(s.actions[id]) !in s.executions
  {
    PhaseByStatus(h, s, id);
    hide PhaseOf, LogTells, DecisionTold, HoldsReceipt;
  }

  /** What an event does is told by everything but the receipts, and by what it files. */
  lemma ExtendsAlike(h: HashEvent, b: ActionState, b': ActionState, s: ActionState, s': ActionState, e: Event)
    requires Extends(h, b, b', e) && b == s.(executions := b.executions) && s' == b'.(executions := s'.executions)
    requires var key := KeyOf(s'.actions[e.body.actionId]);
             (IsAcceptance(e) ==> key !in s.executions) && s'.executions == Given(s.executions, key, e)
    ensures Extends(h, s, s', e)
  {
    hide EvaluatePolicy, Next, PhaseOf, LiveUpdate, AtExecution;
  }

  // ---------------------------------------------------------------- soundness is kept

  lemma ChainedSnoc(h: HashEvent, log: seq<Event>, e: Event)
    requires Chained(h, log) && e.hash == h(e.body) && e.body.previousHash == HashBefore(log, |log|)
    ensures Chained(h, log + [e])
  {
    var next := log + [e];
    forall i: nat | i < |next|
      ensures ChainedAt(h, next, i)
    {
      assert HashBefore(next, i) == HashBefore(log, i);
      assert i < |log| ==> ChainedAt(h, log, i);
    }
  }

  lemma OpenedSound(h: HashEvent, s: ActionState, s': ActionState, e: Event)
    requires ServiceSound(h, s) && Extends(h, s, s', e) && Opens(s, s', e)
    ensures ActionSound(h, s', e.body.actionId)
  {
    var id := e.body.actionId;
    var a := StoredAction(e.body.payload.proposal, e.body.payload.decision, e.body.actorRole, e.body.tenantId);
    KeyIsFree(h, s, KeyOf(a));
    hide ServiceSound, EvaluatePolicy, Continues;
    OpenedLog(h, id, a, e);
    hide LogTells, DecisionTold, PhaseOf, Executed, HoldsReceipt;
    assert s'.events[id] == [e] && s'.actions[id] == a;
  }

  /** The log of a new action. */
  lemma OpenedLog(h: HashEvent, id: string, a: StoredAction, e: Event)
    requires e.body.eventType.PolicyEvaluated? && e.body.payload == PolicyPayload(a.decision, a.proposal)
    requires e.body.actorRole == a.proposerRole && e.body.tenantId == a.tenantId && e.body.actionId == id
    requires e.hash == h(e.body) && e.body.previousHash == None
    requires exists ctx :: a.decision == EvaluatePolicy(id, a.proposal, a.proposerRole, ctx)
    ensures LogTells(h, id, a, [e]) && DecisionTold(a, [e]) && !Executed(PhaseOf([e]))
  {
    PolicyStatus(a.decision, id, a.proposal, a.proposerRole);
    hide EvaluatePolicy;
    assert [e][..0] == [] && PhaseOf([e]) == Next(Start, e);
    assert ChainedAt(h, [e], 0);
  }

  lemma KeyIsFree(h: HashEvent, s: ActionState, r: Ref)
    requires ServiceSound(h, s) && r !in s.idempotency
    ensures r !in s.executions
  {
  }

  lemma PolicyStatus(d: Decision, id: string, proposal: Proposal, role: Role)
    requires exists ctx :: d == EvaluatePolicy(id, proposal, role, ctx)
    ensures d.status == Denied || d.status == ApprovalRequired
  {
  }

  lemma ContinuedSound(h: HashEvent, s: ActionState, s': ActionState, e: Event)
    requires ServiceSound(h, s) && Extends(h, s, s', e) && Continues(s, s', e)
    ensures ActionSound(h, s', e.body.actionId)
  {
    assert ActionSound(h, s, e.body.actionId);
    hide ServiceSound, ActionSound, Opens;
    ContinuedAction(h, s, s', e);
  }

  lemma ContinuedAction(h: HashEvent, s: ActionState, s': ActionState, e: Event)
    requires Continues(s, s', e) && ActionSound(h, s, e.body.actionId)
    requires e.hash == h(e.body) && e.body.previousHash == LastHash(s, e.body.actionId)
    requires s'.events == s.events[e.body.actionId := EventsOf(s, e.body.actionId) + [e]]
    ensures ActionSound(h, s', e.body.actionId)
  {
    hide EvaluatePolicy, Next, LogTells, DecisionTold, PhaseOf, LiveUpdate, IsAcceptance, IndexesTell, AtExecution;
    var id := e.body.actionId;
    var a, a', log := s.actions[id], s'.actions[id], s.events[id];
    LogTellsBasics(h, id, a, log);
    ContinuedLogTells(h, id, a, a', log, e);
    LogTellsBasics(h, id, a', log + [e]);
    TellsTold(a', log + [e], a, log, e);
    ContinuedIndexes(s, s', e, a, a', log);
  }

  lemma TellsTold(a': StoredAction, next: seq<Event>, a: StoredAction, log: seq<Event>, e: Event)
    requires log != [] && log[0].body.payload.PolicyPayload? && !PhaseOf(log).Broken? && !Next(PhaseOf(log), e).Broken?
    requires next == log + [e] && DecisionTold(a, log) && a'.decision == LiveUpdate(a.decision, e)
    requires AtExecution(e) ==> a.decision.status == Approved
    ensures next[0].body.payload.PolicyPayload? && DecisionTold(a', next)
  {
    ContinuedDecision(a, a', log, e);
    hide LiveDecision, RestoredDecision, LiveUpdate, PhaseOf;
  }

  lemma ContinuedIndexes(s: ActionState, s': ActionState, e: Event, a: StoredAction, a': StoredAction, log: seq<Event>)
    requires Continues(s, s', e) && a == s.actions[e.body.actionId] && a' == s'.actions[e.body.actionId]
    requires log == s.events[e.body.actionId] && log != [] && !PhaseOf(log).Broken?
    requires IndexesTell(s, e.body.actionId, a, log)
    ensures IndexesTell(s', e.body.actionId, a', log + [e])
  {
    hide Next, PhaseOf, HoldsReceipt, LiveUpdate, Executed;
    ContinuedReceipt(log, e);
    if KeyOf(a) in s.executions { ReceiptStays(log, e, s.executions[KeyOf(a)]); }
  }

  lemma LogTellsBasics(h: HashEvent, id: string, a: StoredAction, log: seq<Event>)
    requires LogTells(h, id, a, log)
    ensures log != [] && !PhaseOf(log).Broken? && log[0].body.payload.PolicyPayload? && Chained(h, log)
  {
  }

  lemma ContinuedLogTells(h: HashEvent, id: string, a: StoredAction, a': StoredAction, log: seq<Event>, e: Event)
    requires LogTells(h, id, a, log) && a' == a.(decision := a'.decision)
    requires e.hash == h(e.body) && e.body.previousHash == HashBefore(log, |log|)
    requires e.body.actionId == id && e.body.tenantId == a.tenantId && !Next(PhaseOf(log), e).Broken?
    ensures LogTells(h, id, a', log + [e])
  {
    var next := log + [e];
    PhaseSnoc(log, e);
    ChainedSnoc(h, log, e);
    hide Chained, PhaseOf, Next, EvaluatePolicy, HashBefore;
    assert next[0] == log[0];
    forall i | 0 <= i < |next|
      ensures next[i].body.actionId == id && next[i].body.tenantId == a.tenantId
    {
      if i < |log| { assert next[i] == log[i]; }
    }
  }

  /** Outside the execution stage an update leaves nothing of the old status and reason. */
  lemma LiveUpdateOverwrites(p: Phase, d: Decision, d': Decision, e: Event)
    requires !p.Start? && !Next(p, e).Broken? && SameFrame(d, d') && !AtExecution(e)
    ensures LiveUpdate(d, e) == LiveUpdate(d', e)
  {
  }

  lemma ContinuedDecision(a: StoredAction, a': StoredAction, log: seq<Event>, e: Event)
    requires log != [] && log[0].body.payload.PolicyPayload? && !PhaseOf(log).Broken? && !Next(PhaseOf(log), e).Broken?
    requires DecisionTold(a, log) && a'.decision == LiveUpdate(a.decision, e)
    requires AtExecution(e) ==> a.decision.status == Approved
    ensures (log + [e])[0] == log[0] && a'.decision == LiveDecision(log + [e])
  {
    var next := log + [e];
    assert next[..|log|] == log && next[|log|] == e;
    hide LiveUpdate, RestoreUpdate, LiveDecision, RestoredDecision, PhaseOf;
    PhaseAfterFirst(log);
    SplitLast(next);
    SameFrames(log);
    SameFrameMeets(LiveDecision(log), RestoredDecision(log), FirstDecision(log));
    RestoredVersusLive(log);
    if AtExecution(e) {
      RunnableLast(log, e);
    } else {
      LiveUpdateOverwrites(PhaseOf(log), LiveDecision(log), RestoredDecision(log), e);
    }
  }

  lemma RunnableLast(log: seq<Event>, e: Event)
    requires log != [] && !PhaseOf(log).Broken? && AtExecution(e) && !Next(PhaseOf(log), e).Broken?
    ensures !IsAcceptance(log[|log| - 1])
  {
    PhaseSpells(log);
  }

  /** A receipt is there from the acceptance on. */
  lemma ContinuedReceipt(log: seq<Event>, e: Event)
    requires log != [] && !PhaseOf(log).Broken? && !Next(PhaseOf(log), e).Broken?
    ensures Executed(PhaseOf(log + [e])) <==> Executed(PhaseOf(log)) || IsAcceptance(e)
    ensures IsAcceptance(e) ==> HoldsReceipt(log + [e], e.body.payload.receipt)
  {
    PhaseSnoc(log, e);
    PhaseSpells(log);
    if IsAcceptance(e) { assert (log + [e])[|log|] == e; }
    hide PhaseOf;
  }

  lemma ReceiptStays(log: seq<Event>, e: Event, receipt: Receipt)
    requires HoldsReceipt(log, receipt)
    ensures HoldsReceipt(log + [e], receipt)
  {
    var i :| 0 <= i < |log| && IsAcceptance(log[i]) && log[i].body.payload.receipt == receipt;
    assert (log + [e])[i] == log[i];
  }

  /** Another action's entries do not change what holds of this one. */
  lemma UntouchedSound(h: HashEvent, s: ActionState, s': ActionState, id: string)
    requires id in s.actions && ActionSound(h, s, id)
    requires id in s'.actions && s'.actions[id] == s.actions[id] && id in s'.events && s'.events[id] == s.events[id]
    requires var r := KeyOf(s.actions[id]);
             && (r in s'.idempotency && s'.idempotency[r] == s.idempotency[r])
             && (r in s'.executions <==> r in s.executions)
             && (r in s.executions ==> s'.executions[r] == s.executions[r])
    ensures ActionSound(h, s', id)
  {
    hide LogTells, DecisionTold, PhaseOf, HoldsReceipt;
  }

  lemma ExtendsKeepsSound(h: HashEvent, s: ActionState, s': ActionState, e: Event)
    requires ServiceSound(h, s) && Extends(h, s, s', e)
    ensures ServiceSound(h, s')
  {
    if Opens(s, s', e) {
      OpenedSound(h, s, s', e);
    } else {
      ContinuedSound(h, s, s', e);
    }
    forall id | id in s'.actions
      ensures ActionSound(h, s', id)
    {
      if id != e.body.actionId { OtherSound(h, s, s', e, id); }
    }
    IndexesStayClosed(h, s, s', e);
  }

  lemma OtherSound(h: HashEvent, s: ActionState, s': ActionState, e: Event, id: string)
    requires ServiceSound(h, s) && Extends(h, s, s', e) && id in s'.actions && id != e.body.actionId
    ensures ActionSound(h, s', id)
  {
    ExtendsLocally(h, s, s', e);
    hide Extends, ActionSound;
    OtherKeys(h, s, s', e.body.actionId, id);
    assert ActionSound(h, s, id);
    hide ServiceSound, Locally;
    UntouchedSound(h, s, s', id);
  }

  /** Only the entries of one action, and those filed under its tenant and key, have changed. */
  ghost predicate Locally(s: ActionState, s': ActionState, id: string) {
    && id in s'.actions && id in s'.events
    && (forall x | x != id ::
          && (x in s'.actions <==> x in s.actions) && (x in s.actions ==> s'.actions[x] == s.actions[x])
          && (x in s'.events <==> x in s.events) && (x in s.events ==> s'.events[x] == s.events[x]))
    && var key := KeyOf(s'.actions[id]);
    && (forall r | r != key ::
          && (r in s'.executions <==> r in s.executions)
          && (r in s.executions ==> s'.executions[r] == s.executions[r]))
    && (if id in s.actions then KeyOf(s.actions[id]) == key && s'.idempotency == s.idempotency
        else key !in s.idempotency && s'.idempotency == s.idempotency[key := id] && s'.executions == s.executions)
  }

  lemma ExtendsLocally(h: HashEvent, s: ActionState, s': ActionState, e: Event)
    requires Extends(h, s, s', e)
    ensures Locally(s, s', e.body.actionId)
  {
    hide Next, PhaseOf, LiveUpdate, EvaluatePolicy, AtExecution, LastHash;
  }

  lemma IndexesStayClosed(h: HashEvent, s: ActionState, s': ActionState, e: Event)
    requires ServiceSound(h, s) && Extends(h, s, s', e)
    ensures forall id :: id in s'.actions <==> id in s'.events
    ensures forall r | r in s'.idempotency ::
              s'.idempotency[r] in s'.actions && KeyOf(s'.actions[s'.idempotency[r]]) == r
    ensures forall r | r in s'.executions :: r in s'.idempotency
  {
    hide Extends, ActionSound;
    ExtendsLocally(h, s, s', e);
    if e.body.actionId in s.actions { KeyIndexed(h, s, e.body.actionId); }
  }

  lemma KeyIndexed(h: HashEvent, s: ActionState, id: string)
    requires ServiceSound(h, s) && id in s.actions
    ensures KeyOf(s.actions[id]) in s.idempotency && s.idempotency[KeyOf(s.actions[id])] == id
  {
    assert ActionSound(h, s, id);
    hide LogTells, DecisionTold;
  }

  /** Two actions never share a tenant and idempotency key. */
  lemma OtherKeys(h: HashEvent, s: ActionState, s': ActionState, changed: string, id: string)
    requires ServiceSound(h, s) && Locally(s, s', changed) && id in s'.actions && id != changed
    ensures id in s.actions && s'.actions[id] == s.actions[id] && id in s'.events && s'.events[id] == s.events[id]
    ensures KeyOf(s'.actions[id]) != KeyOf(s'.actions[changed])
    ensures var r := KeyOf(s.actions[id]);
             && (r in s'.idempotency && r in s.idempotency && s'.idempotency[r] == s.idempotency[r])
             && (r in s'.executions <==> r in s.executions)
             && (r in s.executions ==> s'.executions[r] == s.executions[r])
  {
    hide ActionSound;
    assert id in s.actions;
    KeyIndexed(h, s, id);
    if changed in s.actions { KeyIndexed(h, s, changed); }
  }
}

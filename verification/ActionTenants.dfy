/**
 Tenants do not interfere (actions/service.py): what one tenant's part of the service, of the durable log and of the
 provider calls is after an interleaved run, restarts included, is all there is after the run of its own operations.
 */
module ActionTenants {
  import opened Basics
  import opened WorldModel
  import opened ActionModel
  import opened ActionLog
  import opened ActionRuns
  import opened Recovery

  /** `own` is the part of the map that is filed under `tenant`. */
  ghost predicate IsPart<V>(m: map<Ref, V>, own: map<Ref, V>, tenant: string) {
    && (forall r :: r in own <==> r in m && r.tenant == tenant)
    && (forall r | r in own :: own[r] == m[r])
  }

  ghost predicate IsPartOfActions(s: ActionState, own: ActionState, tenant: string) {
    && (forall id :: id in own.actions <==> Owned(s, tenant, id))
    && (forall id | id in own.actions :: own.actions[id] == s.actions[id])
    && (forall id :: id in own.events <==> id in own.actions)
    && (forall id | id in own.events :: id in s.events && own.events[id] == s.events[id])
  }

  /** `own` is the part of `s` that belongs to `tenant`. */
  ghost predicate IsShare(s: ActionState, own: ActionState, tenant: string) {
    && IsPartOfActions(s, own, tenant)
    && IsPart(s.idempotency, own.idempotency, tenant)
    && IsPart(s.executions, own.executions, tenant)
  }

  lemma PartGrows<V>(m: map<Ref, V>, own: map<Ref, V>, r: Ref, v: V)
    requires IsPart(m, own, r.tenant)
    ensures IsPart(m[r := v], own[r := v], r.tenant)
  {
  }

  lemma PartStays<V>(m: map<Ref, V>, own: map<Ref, V>, r: Ref, v: V, tenant: string)
    requires IsPart(m, own, tenant) && r.tenant != tenant
    ensures IsPart(m[r := v], own, tenant)
  {
  }

  // ---------------------------------------------------------------- one operation

  ghost predicate SameAnswer<R>(a: Effect<R>, b: Effect<R>) {
    a.result == b.result && a.event == b.event && a.call == b.call
  }

  lemma OwnedInShare(s: ActionState, own: ActionState, tenant: string, id: string)
    requires IsShare(s, own, tenant)
    ensures Owned(own, tenant, id) <==> Owned(s, tenant, id)
    ensures Owned(s, tenant, id) ==>
              && id in own.actions && own.actions[id] == s.actions[id] && LastHash(own, id) == LastHash(s, id)
  {
  }

  lemma SameDecided(h: HashEvent, s: ActionState, own: ActionState, tenant: string, id: string, status: ActionStatus,
                    reason: Reason, t: EventType, role: Role, payload: EventPayload, uuid: string)
    requires id in s.actions && id in own.actions && own.actions[id] == s.actions[id]
              && LastHash(own, id) == LastHash(s, id)
    ensures SameAnswer(Decided(h, s, tenant, id, status, reason, t, role, payload, uuid),
                       Decided(h, own, tenant, id, status, reason, t, role, payload, uuid))
  {
    hide LastHash, EventId, Append;
  }

  lemma SameApprove(h: HashEvent, s: ActionState, own: ActionState, tenant: string, id: string, reason: string,
                    role: Role,
                    state: Option<OrderState>, uuid: string)
    requires IsShare(s, own, tenant)
    ensures SameAnswer(Approve(h, s, tenant, id, reason, role, state, uuid),
                       Approve(h, own, tenant, id, reason, role, state, uuid))
  {
    OwnedInShare(s, own, tenant, id);
    hide IsShare, PreconditionFailure, Decided, LastHash, SameAnswer;
    SameRefusal(Approve(h, s, tenant, id, reason, role, state, uuid),
                Approve(h, own, tenant, id, reason, role, state, uuid));
    if Owned(s, tenant, id) {
      var failure := PreconditionFailure(s.actions[id].proposal, state);
      hide Owned;
      SameDecided(h, s, own, tenant, id, Denied, WrongApprover, ApprovalDenied, role,
                  ReasonPayload(WrongApprover, Lifecycle), uuid);
      SameDecided(h, s, own, tenant, id, Approved, Said(reason), StatusEvent(Approved), role,
                  ReasonPayload(Said(reason), Lifecycle), uuid);
      if failure.Some? {
        SameDecided(h, s, own, tenant, id, PreconditionFailed, failure.value, StatusEvent(PreconditionFailed), role,
                    ReasonPayload(failure.value, Lifecycle), uuid);
      }
    }
  }

  lemma SameRefusal<R>(a: Effect<R>, b: Effect<R>)
    ensures a.result == b.result && a.event.None? && b.event.None? && a.call.None? && b.call.None? ==> SameAnswer(a, b)
  {
  }

  /** Every index entry leads to an action of its tenant and key. */
  ghost predicate IndexLeadsHome(s: ActionState) {
    forall r | r in s.idempotency :: s.idempotency[r] in s.actions && KeyOf(s.actions[s.idempotency[r]]) == r
  }

  lemma SamePropose(h: HashEvent, s: ActionState, own: ActionState, tenant: string, proposal: Proposal, role: Role,
                    ctx: Context,
                    actionUuid: string, uuid: string)
    requires IsShare(s, own, tenant) && IndexLeadsHome(s) && ActionId(actionUuid) !in s.events
    ensures SameAnswer(Propose(h, s, tenant, proposal, role, ctx, actionUuid, uuid),
                       Propose(h, own, tenant, proposal, role, ctx, actionUuid, uuid))
  {
    hide EvaluatePolicy, ActionId, EventId, Append;
    var ref := Ref(tenant, proposal.idempotencyKey);
    assert ref in own.idempotency <==> ref in s.idempotency;
    if ref in s.idempotency {
      assert KeyOf(s.actions[s.idempotency[ref]]) == ref;
    } else {
      assert LastHash(s, ActionId(actionUuid)) == LastHash(own, ActionId(actionUuid));
    }
  }

  lemma SameReject(h: HashEvent, s: ActionState, own: ActionState, tenant: string, id: string, reason: string,
                   uuid: string)
    requires IsShare(s, own, tenant)
    ensures SameAnswer(Reject(h, s, tenant, id, reason, uuid), Reject(h, own, tenant, id, reason, uuid))
  {
    OwnedInShare(s, own, tenant, id);
    hide IsShare, Decided, LastHash;
    if Owned(s, tenant, id) {
      SameDecided(h, s, own, tenant, id, Rejected, Said(reason), StatusEvent(Rejected), Approver,
                  ReasonPayload(Said(reason), Lifecycle), uuid);
    }
  }

  lemma SameExecute(h: HashEvent, s: ActionState, own: ActionState, tenant: string, id: string,
                    state: Option<OrderState>,
                    outcome: Option<Receipt>, uuid: string)
    requires IsShare(s, own, tenant)
    ensures SameAnswer(Execute(h, s, tenant, id, state, outcome, uuid),
                       Execute(h, own, tenant, id, state, outcome, uuid))
  {
    OwnedInShare(s, own, tenant, id);
    SameReceipts(s, own, tenant);
    hide IsShare, Ineligibility, LastHash, Append, OrderIdOf, EventId;
  }

  lemma SameReceipts(s: ActionState, own: ActionState, tenant: string)
    requires IsShare(s, own, tenant)
    ensures forall r: Ref | r.tenant == tenant ::
              (r in own.executions <==> r in s.executions)
                  && (r in own.executions ==> own.executions[r] == s.executions[r])
  {
  }

  lemma SameVerify(h: HashEvent, s: ActionState, own: ActionState, tenant: string, id: string,
                   state: Option<OrderState>,
                   isFinal: bool, uuid: string)
    requires IsShare(s, own, tenant)
    ensures SameAnswer(Verify(h, s, tenant, id, state, isFinal, uuid), Verify(h, own, tenant, id, state, isFinal, uuid))
  {
    OwnedInShare(s, own, tenant, id);
    hide IsShare, Decided, LastHash, ObservedStatus, Verdict, VerdictReason;
    if Owned(s, tenant, id) {
      var observed := ObservedStatus(state);
      var commit := match state case None => None case Some(st) => Some(st.commitId);
      SameDecided(h, s, own, tenant, id, Verdict(observed, isFinal), VerdictReason(observed, isFinal),
                  StatusEvent(Verdict(observed, isFinal)),
                  Verifier, ReadPayload(VerdictReason(observed, isFinal), commit, observed), uuid);
    }
  }

  /** A tenant's operation finds the same in its share: it returns, appends and calls the same. */
  lemma SamePerform(h: HashEvent, s: ActionState, own: ActionState, op: ActionOp)
    requires !op.Restart? && IsShare(s, own, op.tenant) && IndexLeadsHome(s) && Possible(System(s, [], []), op)
    ensures Perform(h, s, op).event == Perform(h, own, op).event && Perform(h, s, op).call == Perform(h, own, op).call
  {
    hide Propose, Approve, Reject, Execute, Verify, IsShare, IndexLeadsHome, SeenEvent;
    match op
    case DoPropose(tenant, proposal, role, ctx, actionUuid, uuid) => SamePropose(h, s, own, tenant, proposal, role,
        ctx, actionUuid, uuid);
    case DoApprove(tenant, id, reason, role, state, uuid) => SameApprove(h, s, own, tenant, id, reason, role, state,
        uuid);
    case DoReject(tenant, id, reason, uuid) => SameReject(h, s, own, tenant, id, reason, uuid);
    case DoExecute(tenant, id, state, outcome, uuid) => SameExecute(h, s, own, tenant, id, state, outcome, uuid);
    case DoVerify(tenant, id, state, isFinal, uuid) => SameVerify(h, s, own, tenant, id, state, isFinal, uuid);
  }

  /** Events and calls carry the tenant of the operation. */
  lemma PerformIsTenants(h: HashEvent, s: ActionState, op: ActionOp)
    requires !op.Restart?
    ensures var o := Perform(h, s, op);
            && (o.event.Some? ==> o.event.value.body.tenantId == op.tenant)
            && (o.call.Some? ==> o.call.value.tenant == op.tenant)
  {
    hide EvaluatePolicy, PreconditionFailure, Ineligibility, Append, LastHash, ActionId, EventId, OrderIdOf,
        ObservedStatus, Verdict, VerdictReason;
  }

  // ---------------------------------------------------------------- one event

  lemma ShareOpens(s: ActionState, s': ActionState, own: ActionState, own': ActionState, e: Event)
    requires IsShare(s, own, e.body.tenantId) && Opens(s, s', e) && Opens(own, own', e)
    requires s'.events == s.events[e.body.actionId := EventsOf(s, e.body.actionId) + [e]]
    requires own'.events == own.events[e.body.actionId := EventsOf(own, e.body.actionId) + [e]]
    ensures IsShare(s', own', e.body.tenantId)
  {
    hide EvaluatePolicy, LastHash;
    PartGrows(s.idempotency, own.idempotency, KeyOf(s'.actions[e.body.actionId]), e.body.actionId);
    hide IsPart;
  }

  lemma ShareContinues(s: ActionState, s': ActionState, own: ActionState, own': ActionState, e: Event)
    requires IsShare(s, own, e.body.tenantId) && Continues(s, s', e) && Continues(own, own', e)
    requires s'.events == s.events[e.body.actionId := EventsOf(s, e.body.actionId) + [e]]
    requires own'.events == own.events[e.body.actionId := EventsOf(own, e.body.actionId) + [e]]
    ensures IsShare(s', own', e.body.tenantId)
  {
    hide Next, PhaseOf, LiveUpdate, AtExecution;
    if IsAcceptance(e) { PartGrows(s.executions, own.executions, KeyOf(s.actions[e.body.actionId]),
                                   e.body.payload.receipt); }
    hide IsPart;
  }

  lemma ShareGrows(h: HashEvent, s: ActionState, s': ActionState, own: ActionState, own': ActionState, e: Event)
    requires IsShare(s, own, e.body.tenantId) && Extends(h, s, s', e) && Extends(h, own, own', e)
    ensures IsShare(s', own', e.body.tenantId)
  {
    OpensAlike(s, s', own, own', e);
    hide IsShare, Opens, Continues, LastHash;
    if Opens(s, s', e) { ShareOpens(s, s', own, own', e); } else { ShareContinues(s, s', own, own', e); }
  }

  lemma OpensAlike(s: ActionState, s': ActionState, own: ActionState, own': ActionState, e: Event)
    ensures Opens(s, s', e) && Continues(own, own', e) ==> false
    ensures Opens(own, own', e) && Continues(s, s', e) ==> false
  {
    hide EvaluatePolicy, Next, LiveUpdate;
  }

  lemma OtherOpens(s: ActionState, s': ActionState, own: ActionState, e: Event, tenant: string)
    requires IsShare(s, own, tenant) && Opens(s, s', e) && e.body.tenantId != tenant
    requires s'.events == s.events[e.body.actionId := EventsOf(s, e.body.actionId) + [e]]
    ensures IsShare(s', own, tenant)
  {
    hide EvaluatePolicy;
    PartStays(s.idempotency, own.idempotency, KeyOf(s'.actions[e.body.actionId]), e.body.actionId, tenant);
    hide IsPart;
  }

  lemma OtherContinues(s: ActionState, s': ActionState, own: ActionState, e: Event, tenant: string)
    requires IsShare(s, own, tenant) && Continues(s, s', e) && e.body.tenantId != tenant
    requires s'.events == s.events[e.body.actionId := EventsOf(s, e.body.actionId) + [e]]
    ensures IsShare(s', own, tenant)
  {
    hide Next, PhaseOf, LiveUpdate, AtExecution;
    if IsAcceptance(e) { PartStays(s.executions, own.executions, KeyOf(s.actions[e.body.actionId]),
                                   e.body.payload.receipt, tenant); }
    hide IsPart;
  }

  /** Another tenant's event leaves the share as it is. */
  lemma ShareStays(h: HashEvent, s: ActionState, s': ActionState, own: ActionState, e: Event, tenant: string)
    requires IsShare(s, own, tenant) && Extends(h, s, s', e) && e.body.tenantId != tenant
    ensures IsShare(s', own, tenant)
  {
    hide LastHash, IsShare, Opens, Continues;
    if Opens(s, s', e) { OtherOpens(s, s', own, e, tenant); } else { OtherContinues(s, s', own, e, tenant); }
  }

  // ---------------------------------------------------------------- restart

  lemma ShareRestarts(s: ActionState, rec: ActionState, own: ActionState, ownRec: ActionState, tenant: string)
    requires IsShare(s, own, tenant) && RebuiltActions(s, rec) && RebuiltActions(own, ownRec)
    requires IsPart(rec.executions, ownRec.executions, tenant)
    ensures IsShare(rec, ownRec, tenant)
  {
    hide RestoredDecision, LogStarts;
  }

  lemma SharePossible(s: System, own: System, op: ActionOp, tenant: string)
    requires IsShare(s.service, own.service, tenant) && Possible(s, op)
    ensures Possible(own, op)
  {
    hide SeenEvent, EventId, ActionId;
    if !op.Restart? { SeenInShare(s.service, own.service, tenant, EventId(op.uuid)); }
  }

  lemma SeenInShare(s: ActionState, own: ActionState, tenant: string, eventId: string)
    requires IsShare(s, own, tenant)
    ensures SeenEvent(own, eventId) ==> SeenEvent(s, eventId)
  {
    if SeenEvent(own, eventId) {
      var a :| a in own.events && exists i | 0 <= i < |own.events[a]| :: own.events[a][i].body.eventId == eventId;
      assert a in s.events && s.events[a] == own.events[a];
    }
  }

  /** The receipts filed of the tenant's events are its part of the receipts filed of all. */
  lemma {:induction false} FiledOfTenant(log: seq<Event>, tenant: string)
    ensures IsPart(Filed(log), Filed(TenantEvents(log, tenant)), tenant)
  {
    if log != [] {
      var init, e := log[..|log| - 1], log[|log| - 1];
      FiledOfTenant(init, tenant);
      hide IsPart;
      if e.body.tenantId == tenant {
        FiledSnoc(TenantEvents(init, tenant), e);
        if IsAcceptance(e) {
          PartGrows(Filed(init), Filed(TenantEvents(init, tenant)),
                    Ref(tenant, e.body.payload.receipt.idempotencyKey), e.body.payload.receipt);
        }
      } else {
        assert TenantEvents(init, tenant) + [] == TenantEvents(init, tenant);
        if IsAcceptance(e) {
          PartStays(Filed(init), Filed(TenantEvents(init, tenant)),
                    Ref(e.body.tenantId, e.body.payload.receipt.idempotencyKey), e.body.payload.receipt, tenant);
        }
      }
    } else {
      NothingFiled(tenant);
    }
  }

  lemma NothingFiled(tenant: string)
    ensures IsPart(Filed([]), Filed(TenantEvents([], tenant)), tenant)
  {
  }

  // ---------------------------------------------------------------- whole runs

  predicate Concerns(op: ActionOp, tenant: string) { op.Restart? || op.tenant == tenant }

  /** The tenant's operations, and the restarts. */
  function OpsOf(ops: seq<ActionOp>, tenant: string): seq<ActionOp> {
    if |ops| == 0 then []
    else OpsOf(ops[..|ops| - 1], tenant) + if Concerns(ops[|ops| - 1], tenant) then [ops[|ops| - 1]] else []
  }

  function TenantEvents(log: seq<Event>, tenant: string): seq<Event> {
    if log == [] then []
    else TenantEvents(log[..|log| - 1], tenant) + if log[|log| - 1].body.tenantId == tenant then [log[|log| - 1]]
        else []
  }

  function TenantCalls(calls: seq<Call>, tenant: string): seq<Call> {
    if calls == [] then []
    else TenantCalls(calls[..|calls| - 1], tenant) + if calls[|calls| - 1].tenant == tenant then [calls[|calls| - 1]]
        else []
  }

  ghost predicate IsSystemShare(sys: System, own: System, tenant: string) {
    && IsShare(sys.service, own.service, tenant)
    && own.log == TenantEvents(sys.log, tenant)
    && own.calls == TenantCalls(sys.calls, tenant)
  }

  lemma TenantEventsSnoc(log: seq<Event>, e: Option<Event>, tenant: string)
    ensures TenantEvents(log + Optional(e), tenant) ==
            TenantEvents(log, tenant) + if e.Some? && e.value.body.tenantId == tenant then [e.value] else []
  {
    if e.Some? { assert (log + [e.value])[..|log|] == log; } else { assert log + [] == log; }
  }

  lemma TenantCallsSnoc(calls: seq<Call>, c: Option<Call>, tenant: string)
    ensures TenantCalls(calls + Optional(c), tenant) ==
            TenantCalls(calls, tenant) + if c.Some? && c.value.tenant == tenant then [c.value] else []
  {
    if c.Some? { assert (calls + [c.value])[..|calls|] == calls; } else { assert calls + [] == calls; }
  }

  lemma SystemIndexLeadsHome(h: HashEvent, sys: System)
    requires SystemSound(h, sys)
    ensures IndexLeadsHome(sys.service)
  {
    hide ActionSound, Rebuilt, Filed, Ledger, Recovered;
    assert sys.service.idempotency == Booked(sys).idempotency;
  }

  lemma OwnStep(h: HashEvent, sys: System, own: System, op: ActionOp)
    requires !op.Restart? && IsSystemShare(sys, own, op.tenant)
    requires SystemSound(h, sys) && SystemSound(h, own) && Possible(sys, op) && Possible(own, op)
    ensures IsSystemShare(Advance(h, sys, op), Advance(h, own, op), op.tenant)
  {
    SystemIndexLeadsHome(h, sys);
    PossibleAlone(sys, op);
    SamePerform(h, sys.service, own.service, op);
    StepExtends(h, sys, op);
    StepExtends(h, own, op);
    PerformIsTenants(h, sys.service, op);
    hide Perform, SystemSound, Possible, IsShare, TenantEvents, TenantCalls, Extends, IndexLeadsHome, Booked;
    var o, o' := Perform(h, sys.service, op), Perform(h, own.service, op);
    if o.event.Some? { ShareGrows(h, sys.service, o.state, own.service, o'.state, o.event.value); }
    TenantEventsSnoc(sys.log, o.event, op.tenant);
    TenantCallsSnoc(sys.calls, o.call, op.tenant);
  }

  lemma PossibleAlone(sys: System, op: ActionOp)
    requires Possible(sys, op)
    ensures Possible(System(sys.service, [], []), op)
  {
  }

  lemma OtherStep(h: HashEvent, sys: System, own: System, op: ActionOp, tenant: string)
    requires !op.Restart? && op.tenant != tenant && IsSystemShare(sys, own, tenant)
    requires SystemSound(h, sys) && Possible(sys, op)
    ensures IsSystemShare(Advance(h, sys, op), own, tenant)
  {
    StepExtends(h, sys, op);
    PerformIsTenants(h, sys.service, op);
    hide Perform, SystemSound, Possible, IsShare, TenantEvents, TenantCalls, Extends, Booked;
    var o := Perform(h, sys.service, op);
    if o.event.Some? { ShareStays(h, sys.service, o.state, own.service, o.event.value, tenant); }
    TenantEventsSnoc(sys.log, o.event, tenant);
    TenantCallsSnoc(sys.calls, o.call, tenant);
  }

  lemma RestartStep(h: HashEvent, sys: System, own: System, tenant: string)
    requires IsSystemShare(sys, own, tenant) && SystemSound(h, sys) && SystemSound(h, own)
    ensures IsSystemShare(Advance(h, sys, Restart), Advance(h, own, Restart), tenant)
  {
    hide IsShare, Rebuilt, Recovered, ServiceSound, Filed, IsPart, TenantEvents, TenantCalls;
    RebuiltLogs(sys.service, Recovered(sys.log));
    RebuiltLogs(own.service, Recovered(own.log));
    FiledOfTenant(sys.log, tenant);
    ShareRestarts(sys.service, Recovered(sys.log), own.service, Recovered(own.log), tenant);
  }

  /**
   For any interleaving, restarts included: a tenant's actions, idempotency index, receipts and event logs, its durable
   log and its provider calls are those of its own operations alone, which are a possible run too.
   */
  lemma {:induction false} TenantsDoNotInterfere(h: HashEvent, ops: seq<ActionOp>, tenant: string)
    requires PossibleRun(h, ops)
    ensures PossibleRun(h, OpsOf(ops, tenant))
    ensures IsSystemShare(RunActions(h, ops), RunActions(h, OpsOf(ops, tenant)), tenant)
    decreases |ops|
  {
    hide Advance, Possible, SystemSound, IsSystemShare;
    if |ops| == 0 {
      EmptyShare(tenant);
    } else {
      var init, op := ops[..|ops| - 1], ops[|ops| - 1];
      var own := OpsOf(init, tenant);
      TenantsDoNotInterfere(h, init, tenant);
      RunKeepsSystemSound(h, init);
      RunKeepsSystemSound(h, own);
      StepShare(h, RunActions(h, init), RunActions(h, own), op, tenant);
      if Concerns(op, tenant) {
        assert (own + [op])[..|own|] == own;
      } else {
        assert own + [] == own;
      }
    }
  }

  lemma StepShare(h: HashEvent, sys: System, own: System, op: ActionOp, tenant: string)
    requires SystemSound(h, sys) && SystemSound(h, own) && IsSystemShare(sys, own, tenant) && Possible(sys, op)
    ensures Concerns(op, tenant) ==> Possible(own, op)
    ensures IsSystemShare(Advance(h, sys, op), if Concerns(op, tenant) then Advance(h, own, op) else own, tenant)
  {
    SharePossible(sys, own, op, tenant);
    if op.Restart? {
      RestartStep(h, sys, own, tenant);
    } else {
      hide Advance, Possible, IsShare, SystemSound;
      if op.tenant == tenant { OwnStep(h, sys, own, op); } else { OtherStep(h, sys, own, op, tenant); }
    }
  }

  lemma EmptyShare(tenant: string)
    ensures IsSystemShare(System(EMPTY_ACTIONS, [], []), System(EMPTY_ACTIONS, [], []), tenant)
  {
  }
}

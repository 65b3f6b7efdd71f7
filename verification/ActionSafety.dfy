/**
 What no run of `ActionService` (actions/service.py) does, restarts included: leave the lifecycle, call the provider
 twice for one key, or call it without the authorisation that actions/policy.py and the approval demand.
 */
module ActionSafety {
  import opened Basics
  import opened WorldModel
  import opened ActionModel
  import opened ActionLog
  import opened ActionRuns
  import opened Recovery

  // ---------------------------------------------------------------- nothing is taken back

  ghost predicate Later(s: ActionState, s': ActionState) {
    && (forall id | id in s.actions ::
          && id in s'.actions && id in s.events && id in s'.events
          && s'.actions[id] == s.actions[id].(decision := s'.actions[id].decision)
          && IsPrefix(s.events[id], s'.events[id]))
    && (forall r | r in s.executions :: r in s'.executions && s'.executions[r] == s.executions[r])
    && (forall r | r in s.idempotency :: r in s'.idempotency && s'.idempotency[r] == s.idempotency[r])
  }

  lemma ExtendsIsLater(h: HashEvent, s: ActionState, s': ActionState, e: Event)
    requires ServiceSound(h, s) && Extends(h, s, s', e)
    ensures Later(s, s')
  {
    hide ActionSound, Next, PhaseOf, LiveUpdate, EvaluatePolicy, LastHash, AtExecution, IsAcceptance;
  }

  lemma RebuiltIsLater(s: ActionState, rec: ActionState)
    requires RebuiltActions(s, rec) && rec.executions == s.executions
    ensures Later(s, rec)
  {
    hide RestoredDecision;
  }

  lemma AdvanceIsLater(h: HashEvent, sys: System, op: ActionOp)
    requires SystemSound(h, sys) && Possible(sys, op)
    ensures Later(Booked(sys), Booked(Advance(h, sys, op)))
  {
    hide Later, ServiceSound, Rebuilt, Extends, Perform, SeenEvent, Recovered, Ledger, Filed;
    if op.Restart? {
      RebuiltLogs(sys.service, Recovered(sys.log));
      RebuiltIsLater(Booked(sys), Recovered(sys.log).(executions := Ledger(sys.calls)));
    } else {
      StepExtends(h, sys, op);
      var o := Perform(h, sys.service, op);
      hide Booked;
      if o.event.Some? {
        ExtendsIsLater(h, Booked(sys), Booked(Advance(h, sys, op)), o.event.value);
      } else {
        SameIsLater(h, Booked(sys));
      }
    }
  }

  lemma SameIsLater(h: HashEvent, s: ActionState)
    requires ServiceSound(h, s)
    ensures Later(s, s)
  {
    hide ActionSound;
  }

  lemma LaterTransitive(a: ActionState, b: ActionState, c: ActionState)
    requires Later(a, b) && Later(b, c)
    ensures Later(a, c)
  {
  }

  lemma {:induction false} PossiblePrefix(h: HashEvent, ops: seq<ActionOp>, n: nat)
    requires PossibleRun(h, ops) && n <= |ops|
    ensures PossibleRun(h, ops[..n])
    decreases |ops|
  {
    hide Possible, RunActions;
    if n == |ops| {
      assert ops[..n] == ops;
    } else {
      assert ops[..|ops| - 1][..n] == ops[..n];
      PossiblePrefix(h, ops[..|ops| - 1], n);
    }
  }

  lemma {:induction false} RunIsLater(h: HashEvent, ops: seq<ActionOp>, n: nat)
    requires PossibleRun(h, ops) && n <= |ops|
    ensures Later(Booked(RunActions(h, ops[..n])), Booked(RunActions(h, ops)))
    decreases |ops|
  {
    hide Later, Possible, Advance, SystemSound, Booked;
    if n == |ops| {
      assert ops[..n] == ops;
      RunKeepsSystemSound(h, ops);
      SystemServiceSound(h, RunActions(h, ops));
      SameIsLater(h, Booked(RunActions(h, ops)));
    } else {
      var init := ops[..|ops| - 1];
      assert init[..n] == ops[..n];
      RunIsLater(h, init, n);
      RunKeepsSystemSound(h, init);
      AdvanceIsLater(h, RunActions(h, init), ops[|ops| - 1]);
      LaterTransitive(Booked(RunActions(h, ops[..n])), Booked(RunActions(h, init)), Booked(RunActions(h, ops)));
    }
  }

  lemma SystemServiceSound(h: HashEvent, sys: System)
    requires SystemSound(h, sys)
    ensures ServiceSound(h, Booked(sys))
  {
  }

  lemma ReachableAction(h: HashEvent, ops: seq<ActionOp>, id: string)
    requires PossibleRun(h, ops) && id in RunActions(h, ops).service.actions
    ensures id in Booked(RunActions(h, ops)).actions
    ensures ServiceSound(h, Booked(RunActions(h, ops))) && ActionSound(h, Booked(RunActions(h, ops)), id)
  {
    hide RunActions, ActionSound, Ledger, Rebuilt;
    RunKeepsSystemSound(h, ops);
  }

  // ---------------------------------------------------------------- lifecycle

  /**
   Every reachable log spells the lifecycle and is hash-linked; the status shown is the one of the automaton, or -
   after a restart - the failure that an execution-stage refusal left at the end of the log.
   */
  lemma LogsSpellLifecycle(h: HashEvent, ops: seq<ActionOp>, id: string)
    requires PossibleRun(h, ops) && id in RunActions(h, ops).service.actions
    ensures var s := RunActions(h, ops).service;
            && id in s.events && s.events[id] != []
            && InLanguage(s.events[id])
            && Chained(h, s.events[id])
            && !PhaseOf(s.events[id]).Start? && !PhaseOf(s.events[id]).Broken?
            && var status, last := s.actions[id].decision.status, s.events[id][|s.events[id]| - 1];
            || status == StatusOf(PhaseOf(s.events[id]))
            || (AtExecution(last) && status == PreconditionFailed && PhaseOf(s.events[id]).Runnable?)
  {
    hide RunActions, PhaseOf, InLanguage, AtExecution;
    ReachableAction(h, ops, id);
    var s := Booked(RunActions(h, ops));
    PhaseByStatus(h, s, id);
    PhaseAfterFirst(s.events[id]);
    AutomatonIsLanguage(s.events[id]);
  }

  /** Without a restart the status is exactly the automaton's. */
  lemma LiveStatusIsAutomaton(h: HashEvent, ops: seq<ActionOp>, id: string)
    requires PossibleRun(h, ops) && NoRestart(ops) && id in RunActions(h, ops).service.actions
    ensures var s := RunActions(h, ops).service;
            && id in s.events && !PhaseOf(s.events[id]).Start? && !PhaseOf(s.events[id]).Broken?
            && s.actions[id].decision.status == StatusOf(PhaseOf(s.events[id]))
  {
    hide RunActions, PhaseOf, LiveDecision;
    ReachableAction(h, ops, id);
    RunKeepsLive(h, ops);
    var s := Booked(RunActions(h, ops));
    PhaseAfterFirst(s.events[id]);
    LiveStatusIsPhase(s.events[id]);
  }

  /** A log that has ended never grows again, whatever is done. */
  lemma EndedLogsStay(h: HashEvent, sys: System, op: ActionOp, id: string)
    requires SystemSound(h, sys) && Possible(sys, op)
    requires id in sys.service.events && PhaseOf(sys.service.events[id]).Done?
    ensures id in Advance(h, sys, op).service.events && Advance(h, sys, op).service.events[id] == sys.service.events[id]
  {
    hide Perform, ServiceSound, SeenEvent, Recovered, PhaseOf, Booked, Filed, Rebuilt, Extends;
    if op.Restart? {
      RebuiltLogs(sys.service, Recovered(sys.log));
    } else {
      StepExtends(h, sys, op);
      var o := Perform(h, sys.service, op);
      if o.event.Some? { EndedLogStays(h, sys.service, o.state, o.event.value, id); }
    }
  }

  lemma EndedLogStays(h: HashEvent, s: ActionState, s': ActionState, e: Event, id: string)
    requires Extends(h, s, s', e) && id in s.events && PhaseOf(s.events[id]).Done?
    ensures id in s'.events && s'.events[id] == s.events[id]
  {
    hide LiveUpdate, PhaseOf, LastHash, EvaluatePolicy;
  }

  // ---------------------------------------------------------------- receipts

  /** The provider gave a receipt exactly for the actions that are provider_accepted or in a verification status. */
  lemma AcceptedExactlyWhenGiven(h: HashEvent, ops: seq<ActionOp>, id: string)
    requires PossibleRun(h, ops) && id in RunActions(h, ops).service.actions
    ensures var sys := RunActions(h, ops);
            KeyOf(sys.service.actions[id]) in Ledger(sys.calls) <==>
            Verifiable(sys.service.actions[id].decision.status)
                || TerminalVerification(sys.service.actions[id].decision.status)
  {
    hide RunActions, PhaseOf, Ledger;
    ReachableAction(h, ops, id);
    PhaseByStatus(h, Booked(RunActions(h, ops)), id);
  }

  /** The service has a receipt exactly for those actions, if its restarts kept the receipts under their keys. */
  lemma ReceiptExactlyWhenAccepted(h: HashEvent, ops: seq<ActionOp>, id: string)
    requires PossibleRun(h, ops) && RestartsEcho(h, ops) && id in RunActions(h, ops).service.actions
    ensures var s := RunActions(h, ops).service;
            KeyOf(s.actions[id]) in s.executions <==>
            Verifiable(s.actions[id].decision.status) || TerminalVerification(s.actions[id].decision.status)
  {
    hide RunActions, Verifiable, TerminalVerification, RestartsEcho;
    AcceptedExactlyWhenGiven(h, ops, id);
    EchoingRestartsKeepReceipts(h, ops);
  }

  /**
   Once the provider gave a receipt, no later `execute` of the action calls it or changes anything, whatever restarts
   did.
   */
  lemma GivenOnceCalledNever(h: HashEvent, ops: seq<ActionOp>, n: nat, id: string, tenant: string,
                             state: Option<OrderState>,
                             outcome: Option<Receipt>, uuid: string)
    requires PossibleRun(h, ops) && n <= |ops|
    requires id in RunActions(h, ops[..n]).service.actions
    requires KeyOf(RunActions(h, ops[..n]).service.actions[id]) in Ledger(RunActions(h, ops[..n]).calls)
    ensures var now := RunActions(h, ops).service;
            var o := Execute(h, now, tenant, id, state, outcome, uuid);
            o.call.None? && o.event.None? && o.state == now
  {
    hide RunActions, Ledger, Execute, ActionSound, ServiceSound;
    RunIsLater(h, ops, n);
    ReachableAction(h, ops, id);
    ApprovedHasNoReceipt(h, Booked(RunActions(h, ops)), id);
    hide Later;
    UnapprovedIsNotCalled(h, RunActions(h, ops).service, id, tenant, state, outcome, uuid);
  }

  lemma UnapprovedIsNotCalled(h: HashEvent, s: ActionState, id: string, tenant: string, state: Option<OrderState>,
                              outcome: Option<Receipt>, uuid: string)
    requires id in s.actions && s.actions[id].decision.status != Approved
    ensures var o := Execute(h, s, tenant, id, state, outcome, uuid); o.call.None? && o.event.None? && o.state == s
  {
    hide Ineligibility, NewEvent, Append;
  }

  lemma {:induction false} RestartsEchoPrefix(h: HashEvent, ops: seq<ActionOp>, n: nat)
    requires RestartsEcho(h, ops) && n <= |ops|
    ensures RestartsEcho(h, ops[..n])
    decreases |ops|
  {
    hide RunActions, EchoedReceipts;
    if n == |ops| {
      assert ops[..n] == ops;
    } else {
      assert ops[..|ops| - 1][..n] == ops[..n];
      RestartsEchoPrefix(h, ops[..|ops| - 1], n);
    }
  }

  /** Once there is a receipt, every later `execute` of the action returns it and leaves provider and service alone. */
  lemma ReceiptIsReturned(h: HashEvent, ops: seq<ActionOp>, n: nat, id: string, state: Option<OrderState>,
                          outcome: Option<Receipt>, uuid: string)
    requires PossibleRun(h, ops) && RestartsEcho(h, ops) && n <= |ops|
    requires id in RunActions(h, ops[..n]).service.actions
    requires KeyOf(RunActions(h, ops[..n]).service.actions[id]) in RunActions(h, ops[..n]).service.executions
    ensures var before, now := RunActions(h, ops[..n]).service, RunActions(h, ops).service;
            var a := before.actions[id];
            var o := Execute(h, now, a.tenantId, id, state, outcome, uuid);
            o.call.None? && o.state == now && o.result == Ok(before.executions[KeyOf(a)])
  {
    hide RunActions, RestartsEcho, Ledger, Ineligibility, NewEvent, Append;
    PossiblePrefix(h, ops, n);
    RestartsEchoPrefix(h, ops, n);
    EchoingRestartsKeepReceipts(h, ops[..n]);
    EchoingRestartsKeepReceipts(h, ops);
    RunIsLater(h, ops, n);
  }

  /** What `execute` answers for an action whose receipt was given. */
  lemma AnswerForGiven(h: HashEvent, sys: System, id: string, state: Option<OrderState>, outcome: Option<Receipt>,
                       uuid: string)
    requires id in sys.service.actions && KeyOf(sys.service.actions[id]) in Ledger(sys.calls)
    requires sys.service.actions[id].decision.status != Approved
    ensures var a, table := sys.service.actions[id], sys.service.executions;
            var given := Ledger(sys.calls)[KeyOf(a)];
            Execute(h, sys.service, a.tenantId, id, state, outcome, uuid).result == Ok(given)
            <==> KeyOf(a) in table && table[KeyOf(a)] == given
  {
    hide Ledger, Ineligibility, NewEvent, Append;
  }

  /**
   After any run `execute` answers with the receipt that the provider gave, for every action that has one, if and
   only if every restart of the run found receipts that named their own keys.
   */
  lemma ReceiptsAreReturnedIff(h: HashEvent, ops: seq<ActionOp>, state: Option<OrderState>, outcome: Option<Receipt>,
                               uuid: string)
    requires PossibleRun(h, ops)
    ensures var sys := RunActions(h, ops);
            RestartsEcho(h, ops) <==>
            forall id | id in sys.service.actions && KeyOf(sys.service.actions[id]) in Ledger(sys.calls) ::
              Execute(h, sys.service, sys.service.actions[id].tenantId, id, state, outcome, uuid).result
              == Ok(Ledger(sys.calls)[KeyOf(sys.service.actions[id])])
  {
    hide RunActions, RestartsEcho, Ledger, Execute, ActionSound, PossibleRun;
    EchoingRestartsKeepReceipts(h, ops);
    RunKeepsSystemSound(h, ops);
    var sys := RunActions(h, ops);
    var given, table := Ledger(sys.calls), sys.service.executions;
    SystemServiceSound(h, sys);
    hide SystemSound;
    forall id | id in sys.service.actions && KeyOf(sys.service.actions[id]) in given
      ensures var a := sys.service.actions[id];
              Execute(h, sys.service, a.tenantId, id, state, outcome, uuid).result == Ok(given[KeyOf(a)])
              <==> KeyOf(a) in table && table[KeyOf(a)] == given[KeyOf(a)]
    {
      assert ActionSound(h, Booked(sys), id);
      ApprovedHasNoReceipt(h, Booked(sys), id);
      AnswerForGiven(h, sys, id, state, outcome, uuid);
    }
    forall r | r in given
      ensures exists id :: id in sys.service.actions && KeyOf(sys.service.actions[id]) == r
    {
      assert r in Booked(sys).executions && r in Booked(sys).idempotency;
      var id := Booked(sys).idempotency[r];
      assert id in sys.service.actions && KeyOf(sys.service.actions[id]) == r;
    }
  }

  // ---------------------------------------------------------------- at most once

  /** No key has two completed calls. */
  ghost predicate CallsSound(sys: System) {
    forall i, j | 0 <= i < j < |sys.calls| && Completed(sys.calls[i]) && Completed(sys.calls[j]) ::
      CallKey(sys.calls[i]) != CallKey(sys.calls[j])
  }

  lemma {:induction false} CompletedIsGiven(calls: seq<Call>, i: nat)
    requires i < |calls| && Completed(calls[i])
    ensures CallKey(calls[i]) in Ledger(calls)
  {
    if i < |calls| - 1 { CompletedIsGiven(calls[..|calls| - 1], i); }
  }

  /** What is known of a call when it is made. */
  ghost predicate CallMade(s: ActionState, op: ActionOp, c: Call) {
    && op.DoExecute? && op.state == Some(c.state) && c.outcome == op.outcome
    && c.tenant == op.tenant && c.actionId == op.actionId
    && Owned(s, c.tenant, c.actionId)
    && var a := s.actions[c.actionId];
    && a.decision.status == Approved
    && a.proposal.actionType.CancelOrder?
    && c.key == a.proposal.idempotencyKey
    && c.orderId == OrderIdOf(a.proposal.targetEntity)
    && Ineligibility(op.state).None?
    && CallKey(c) !in s.executions
  }

  lemma PerformCalls(h: HashEvent, s: ActionState, op: ActionOp)
    requires !op.Restart?
    ensures var o := Perform(h, s, op);
            o.call.Some? ==>
              && CallMade(s, op, o.call.value)
              && (Completed(o.call.value) ==>
                    o.state.executions == s.executions[CallKey(o.call.value) := o.call.value.outcome.value])
  {
    hide Ineligibility, LiveOrder, OrderIdOf, PreconditionFailure, EvaluatePolicy, NewEvent;
    if op.DoExecute? { EligibilityIsExact(op.state); }
  }

  /** A call that completes is the first to complete for its key. */
  lemma CompletedCallIsFirst(h: HashEvent, sys: System, op: ActionOp)
    requires !op.Restart? && SystemSound(h, sys)
    ensures var o := Perform(h, sys.service, op);
            o.call.Some? && Completed(o.call.value) ==> CallKey(o.call.value) !in Ledger(sys.calls)
  {
    hide Perform, Ledger, Rebuilt, ServiceSound, Recovered, Filed;
    PerformParallel(h, sys.service, Booked(sys), op);
  }

  lemma AdvanceKeepsCalls(h: HashEvent, sys: System, op: ActionOp)
    requires SystemSound(h, sys) && CallsSound(sys)
    ensures CallsSound(Advance(h, sys, op))
  {
    hide SystemSound, Perform, Recovered, Ledger, CallKey, Completed;
    if !op.Restart? {
      CompletedCallIsFirst(h, sys, op);
      var o, next := Perform(h, sys.service, op), Advance(h, sys, op);
      assert forall i | 0 <= i < |sys.calls| :: next.calls[i] == sys.calls[i];
      forall i | 0 <= i < |sys.calls| && Completed(sys.calls[i])
        ensures CallKey(sys.calls[i]) in Ledger(sys.calls)
      {
        CompletedIsGiven(sys.calls, i);
      }
    }
  }

  lemma {:induction false} RunKeepsCalls(h: HashEvent, ops: seq<ActionOp>)
    requires PossibleRun(h, ops)
    ensures CallsSound(RunActions(h, ops))
  {
    hide Advance, Possible, SystemSound;
    if |ops| > 0 {
      RunKeepsCalls(h, ops[..|ops| - 1]);
      RunKeepsSystemSound(h, ops[..|ops| - 1]);
      AdvanceKeepsCalls(h, RunActions(h, ops[..|ops| - 1]), ops[|ops| - 1]);
    }
  }

  /** In any run, restarts included, at most one call per tenant and idempotency key completes. */
  lemma AtMostOneCallCompletes(h: HashEvent, ops: seq<ActionOp>, i: nat, j: nat)
    requires PossibleRun(h, ops) && i < |RunActions(h, ops).calls| && j < |RunActions(h, ops).calls|
    requires var calls := RunActions(h, ops).calls;
             Completed(calls[i]) && Completed(calls[j]) && calls[i].tenant == calls[j].tenant
                 && calls[i].key == calls[j].key
    ensures i == j
  {
    hide RunActions;
    RunKeepsCalls(h, ops);
  }

  // ---------------------------------------------------------------- authorisation

  /** The proposal was allowed where and when it was made. */
  predicate AllowedProposal(op: ActionOp) {
    && op.DoPropose?
    && op.proposal.actionType.CancelOrder?
    && op.role.Operations?
    && !op.ctx.observeOnly && !op.ctx.hasConflict && !OverLimit(op.ctx)
  }

  /** The state shows the version and every attribute that the proposal expected. */
  ghost predicate MatchesExpectation(proposal: Proposal, state: Option<OrderState>) {
    && state.Some?
    && state.value.stateVersion == proposal.expectedStateVersion
    && forall i | 0 <= i < |proposal.expectedAttributes| ::
         var (name, value) := proposal.expectedAttributes[i];
         name in state.value.attributes && state.value.attributes[name].value == value
  }

  lemma {:induction false} NoMismatch(expected: Payload, attributes: Attributes)
    ensures FirstMismatch(expected, attributes).None? <==>
            forall i | 0 <= i < |expected| ::
                expected[i].0 in attributes && attributes[expected[i].0].value == expected[i].1
    decreases |expected|
  {
    if |expected| > 0 {
      NoMismatch(expected[1..], attributes);
      assert forall i | 1 <= i < |expected| :: expected[i] == expected[1..][i - 1];
    }
  }

  /** `_check_preconditions` finds no reason exactly when the state is what the proposal expected. */
  lemma PreconditionsAreExact(proposal: Proposal, state: Option<OrderState>)
    ensures PreconditionFailure(proposal, state).None? <==> MatchesExpectation(proposal, state)
  {
    if state.Some? { NoMismatch(proposal.expectedAttributes, state.value.attributes); }
  }

  /** An order that is neither over nor fulfilled, in whatever case its statuses are written. */
  ghost predicate LiveOrder(state: OrderState) {
    var attributes := state.attributes;
    && ("status" in attributes && attributes["status"].value.Str? ==>
          LowerText(attributes["status"].value.s) !in {"cancelled", "canceled", "closed", "voided"})
    && ("fulfillment_status" in attributes && attributes["fulfillment_status"].value.Str? ==>
          LowerText(attributes["fulfillment_status"].value.s) != "fulfilled")
  }

  lemma EligibilityIsExact(state: Option<OrderState>)
    ensures Ineligibility(state).None? <==> state.Some? && LiveOrder(state.value)
  {
  }

  /** A policy that asks for approval of a cancellation had nothing to object to. */
  lemma ApprovalMeansAllowed(id: string, proposal: Proposal, role: Role, ctx: Context)
    ensures EvaluatePolicy(id, proposal, role, ctx).status == ApprovalRequired && proposal.actionType.CancelOrder? <==>
            proposal.actionType.CancelOrder? && role.Operations? && !ctx.observeOnly && !ctx.hasConflict
                && !OverLimit(ctx)
    ensures EvaluatePolicy(id, proposal, role, ctx).status == ApprovalRequired ==>
              EvaluatePolicy(id, proposal, role, ctx).requiredRole == Some(Operations)
  {
  }

  /** `op` is the proposal that created the action. */
  ghost predicate Created(op: ActionOp, id: string, a: StoredAction, log: seq<Event>) {
    && op.DoPropose? && ActionId(op.actionUuid) == id && op.tenant == a.tenantId
    && op.proposal == a.proposal && op.role == a.proposerRole
    && LogStarts(log) && FirstDecision(log) == EvaluatePolicy(id, a.proposal, a.proposerRole, op.ctx)
  }

  lemma ProposalCreates(h: HashEvent, s: ActionState, op: ActionOp, id: string)
    requires !op.Restart? && Possible(System(s, [], []), op)
    requires id in Perform(h, s, op).state.actions && id !in s.actions
    ensures var s' := Perform(h, s, op).state; id in s'.events && Created(op, id, s'.actions[id], s'.events[id])
  {
    hide EvaluatePolicy, LastHash, SeenEvent, ActionId, EventId;
    var s' := Perform(h, s, op).state;
    assert op.DoPropose? by { NewActionsAreProposed(h, s, op, id); }
    assert s'.events[id][0].body.payload == PolicyPayload(EvaluatePolicy(id, op.proposal, op.role, op.ctx),
                                                          op.proposal);
  }

  lemma NewActionsAreProposed(h: HashEvent, s: ActionState, op: ActionOp, id: string)
    requires !op.Restart? && id in Perform(h, s, op).state.actions && id !in s.actions
    ensures op.DoPropose?
  {
    hide PreconditionFailure, Ineligibility, NewEvent;
  }

  lemma {:induction false} ProposedAt(h: HashEvent, ops: seq<ActionOp>, id: string) returns (i: nat)
    requires PossibleRun(h, ops) && id in RunActions(h, ops).service.actions
    ensures i < |ops|
    ensures id in RunActions(h, ops).service.events
    ensures Created(ops[i], id, RunActions(h, ops).service.actions[id], RunActions(h, ops).service.events[id])
    decreases |ops|
  {
    hide Perform, SystemSound, Rebuilt, Created, Recovered, ServiceSound, SeenEvent;
    var init, op := ops[..|ops| - 1], ops[|ops| - 1];
    var before, now := RunActions(h, init), RunActions(h, ops);
    RunKeepsSystemSound(h, init);
    if id in before.service.actions {
      i := ProposedAt(h, init, id);
      AdvanceIsLater(h, before, op);
      CreatedStays(ops[i], id, Booked(before), Booked(now));
    } else {
      i := |ops| - 1;
      if op.Restart? {
        RestartAddsNothing(h, before, id);
        assert false;
      } else {
        PossibleNow(before, op);
        ProposalCreates(h, before.service, op, id);
      }
    }
  }

  lemma PossibleNow(sys: System, op: ActionOp)
    requires Possible(sys, op) && !op.Restart?
    ensures Possible(System(sys.service, [], []), op)
  {
  }

  lemma RestartAddsNothing(h: HashEvent, sys: System, id: string)
    requires SystemSound(h, sys)
    ensures id in Recovered(sys.log).actions <==> id in sys.service.actions
  {
    hide Recovered, ServiceSound;
  }

  lemma CreatedStays(op: ActionOp, id: string, s: ActionState, s': ActionState)
    requires Later(s, s') && id in s.actions && id in s.events && Created(op, id, s.actions[id], s.events[id])
    ensures Created(op, id, s'.actions[id], s'.events[id])
  {
    hide EvaluatePolicy, ActionId;
    assert s'.events[id][0] == s.events[id][0];
  }

  // ------------------------------------------------------------ approval

  predicate ApprovedLog(log: seq<Event>) {
    |log| >= 2 && IsApproval(log[1])
  }

  /** The operation approved the action against a state that was as proposed. */
  ghost predicate Approves(op: ActionOp, s: ActionState, id: string) {
    && op.DoApprove? && op.actionId == id && Owned(s, op.tenant, id)
    && s.actions[id].decision.status == ApprovalRequired
    && s.actions[id].decision.requiredRole == Some(op.role)
    && PreconditionFailure(s.actions[id].proposal, op.state).None?
  }

  lemma ApprovalEvents(h: HashEvent, s: ActionState, op: ActionOp)
    requires !op.Restart?
    ensures var o := Perform(h, s, op);
            o.event.Some? && IsApproval(o.event.value) ==> Approves(op, s, o.event.value.body.actionId)
  {
    hide PreconditionFailure, Ineligibility, EvaluatePolicy, LastHash, EventId, ActionId, ObservedStatus;
  }

  lemma RestartKeepsEvents(h: HashEvent, sys: System)
    requires SystemSound(h, sys)
    ensures Recovered(sys.log).events == sys.service.events
  {
    hide Recovered, ServiceSound;
  }

  /** Every event of a log was appended by one operation of the run. */
  lemma {:induction false} EventAt(h: HashEvent, ops: seq<ActionOp>, id: string, n: nat) returns (k: nat)
    requires PossibleRun(h, ops) && id in RunActions(h, ops).service.events
              && n < |RunActions(h, ops).service.events[id]|
    ensures k < |ops| && !ops[k].Restart?
    ensures Perform(h, RunActions(h, ops[..k]).service, ops[k]).event == Some(RunActions(h, ops).service.events[id][n])
    decreases |ops|
  {
    hide Perform, SystemSound, Recovered, SeenEvent, Possible;
    var init, op := ops[..|ops| - 1], ops[|ops| - 1];
    var before, now := RunActions(h, init), RunActions(h, ops);
    RunKeepsSystemSound(h, init);
    if op.Restart? { RestartKeepsEvents(h, before); }
    if id in before.service.events && n < |before.service.events[id]| {
      k := EventAt(h, init, id, n);
      assert init[..k] == ops[..k];
      KnownEventStays(h, before, op, id, n);
    } else {
      k := |ops| - 1;
      NewEventIsPerformed(h, before, op, id, n);
    }
  }

  lemma KnownEventStays(h: HashEvent, sys: System, op: ActionOp, id: string, n: nat)
    requires SystemSound(h, sys) && Possible(sys, op) && id in sys.service.events && n < |sys.service.events[id]|
    ensures var now := Advance(h, sys, op).service.events;
            id in now && n < |now[id]| && now[id][n] == sys.service.events[id][n]
  {
    AdvanceIsLater(h, sys, op);
    SystemServiceSound(h, sys);
    hide Advance, SystemSound, Possible, ActionSound, Ledger;
    assert id in Booked(sys).actions;
  }

  lemma NewEventIsPerformed(h: HashEvent, sys: System, op: ActionOp, id: string, n: nat)
    requires SystemSound(h, sys) && Possible(sys, op) && !op.Restart?
    requires !(id in sys.service.events && n < |sys.service.events[id]|)
    requires var now := Advance(h, sys, op).service.events; id in now && n < |now[id]|
    ensures Perform(h, sys.service, op).event == Some(Advance(h, sys, op).service.events[id][n])
  {
    hide Perform, SystemSound, Possible, Booked, Opens, Continues, LastHash;
    StepExtends(h, sys, op);
  }

  lemma ApprovedAt(h: HashEvent, ops: seq<ActionOp>, id: string) returns (j: nat)
    requires PossibleRun(h, ops) && id in RunActions(h, ops).service.actions
    requires id in RunActions(h, ops).service.events && ApprovedLog(RunActions(h, ops).service.events[id])
    ensures j < |ops| && Approves(ops[j], RunActions(h, ops[..j]).service, id)
  {
    hide RunActions, Perform, Approves, IsApproval, PhaseOf;
    ReachableAction(h, ops, id);
    j := EventAt(h, ops, id, 1);
    ApprovalEvents(h, RunActions(h, ops[..j]).service, ops[j]);
  }

  // ------------------------------------------------------------ the call

  lemma {:induction false} CalledAt(h: HashEvent, ops: seq<ActionOp>, c: nat) returns (k: nat)
    requires PossibleRun(h, ops) && c < |RunActions(h, ops).calls|
    ensures k < |ops| && CallMade(RunActions(h, ops[..k]).service, ops[k], RunActions(h, ops).calls[c])
    decreases |ops|
  {
    hide Perform, CallMade, Possible, Recovered;
    var init, op := ops[..|ops| - 1], ops[|ops| - 1];
    var before := RunActions(h, init);
    if c < |before.calls| {
      k := CalledAt(h, init, c);
      assert init[..k] == ops[..k];
    } else {
      k := |ops| - 1;
      PerformCalls(h, before.service, op);
    }
  }

  /**
   Every provider call of any run, restarts included, goes back to three operations in this order: an operations
   proposal to cancel, outside observe-only mode, with no open conflict and within any known limit; an approval by
   operations against a state that matched it; and an execution on an order that was there and neither over nor
   fulfilled.
   */
  lemma EveryCallIsAuthorised(h: HashEvent, ops: seq<ActionOp>, c: nat) returns (i: nat, j: nat, k: nat)
    requires PossibleRun(h, ops) && c < |RunActions(h, ops).calls|
    ensures i < j < k < |ops|
    ensures var call := RunActions(h, ops).calls[c];
            && AllowedProposal(ops[i])
            && ops[i].tenant == call.tenant && ActionId(ops[i].actionUuid) == call.actionId
            && ops[i].proposal.idempotencyKey == call.key && NamesOrder(ops[i].proposal.targetEntity, call.orderId)
            && ops[j].DoApprove? && ops[j].tenant == call.tenant && ops[j].actionId == call.actionId
            && ops[j].role.Operations? && MatchesExpectation(ops[i].proposal, ops[j].state)
            && ops[k].DoExecute? && ops[k].tenant == call.tenant && ops[k].actionId == call.actionId
            && ops[k].state == Some(call.state) && LiveOrder(call.state)
  {
    var call := RunActions(h, ops).calls[c];
    hide RunActions, OrderIdOf, NamesOrder, MatchesExpectation, LiveOrder, Ineligibility, PreconditionFailure,
        EvaluatePolicy, OverLimit, PhaseOf, ActionId;
    k := CalledAt(h, ops, c);
    var id, atCall := call.actionId, RunActions(h, ops[..k]).service;
    PossiblePrefix(h, ops, k);
    ApprovedWhenCalled(h, ops[..k], id);
    j := ApprovedAt(h, ops[..k], id);
    assert ops[..k][..j] == ops[..j];
    PossiblePrefix(h, ops, j);
    var atApproval := RunActions(h, ops[..j]).service;
    i := ProposedAt(h, ops[..j], id);
    RunIsLater(h, ops[..k], j);
    PolicyOfApproval(h, ops[..j], id, ops[i]);
    PreconditionsAreExact(atApproval.actions[id].proposal, ops[j].state);
    EligibilityIsExact(ops[k].state);
    OrderIsNamed(ops[i].proposal.targetEntity);
    ApprovalMeansAllowed(id, ops[i].proposal, ops[i].role, ops[i].ctx);
  }

  /** Every call of a run names the order and the key of its action's proposal, which never change. */
  lemma CallNamesTarget(h: HashEvent, ops: seq<ActionOp>, c: nat)
    requires PossibleRun(h, ops) && c < |RunActions(h, ops).calls|
    ensures var call, s := RunActions(h, ops).calls[c], RunActions(h, ops).service;
            && Owned(s, call.tenant, call.actionId)
            && NamesOrder(s.actions[call.actionId].proposal.targetEntity, call.orderId)
            && call.key == s.actions[call.actionId].proposal.idempotencyKey
  {
    hide RunActions, OrderIdOf, NamesOrder, Ineligibility, Ledger;
    var k := CalledAt(h, ops, c);
    RunIsLater(h, ops, k);
    OrderIsNamed(RunActions(h, ops).service.actions[RunActions(h, ops).calls[c].actionId].proposal.targetEntity);
  }

  /** An approved action has an approval in its log. */
  lemma ApprovedWhenCalled(h: HashEvent, ops: seq<ActionOp>, id: string)
    requires PossibleRun(h, ops) && id in RunActions(h, ops).service.actions
    requires RunActions(h, ops).service.actions[id].decision.status == Approved
    ensures id in RunActions(h, ops).service.events && ApprovedLog(RunActions(h, ops).service.events[id])
  {
    hide RunActions, PhaseOf;
    ReachableAction(h, ops, id);
    var s := Booked(RunActions(h, ops));
    PhaseByStatus(h, s, id);
    PhaseSpells(s.events[id]);
  }

  /** While approval is awaited, status and role are those of the policy decision. */
  lemma PolicyOfApproval(h: HashEvent, ops: seq<ActionOp>, id: string, op: ActionOp)
    requires PossibleRun(h, ops) && id in RunActions(h, ops).service.actions
    requires RunActions(h, ops).service.actions[id].decision.status == ApprovalRequired
    requires id in RunActions(h, ops).service.events
    requires Created(op, id, RunActions(h, ops).service.actions[id], RunActions(h, ops).service.events[id])
    ensures RunActions(h, ops).service.actions[id].decision == EvaluatePolicy(id, op.proposal, op.role, op.ctx)
  {
    hide RunActions, PhaseOf, EvaluatePolicy;
    ReachableAction(h, ops, id);
    var s := Booked(RunActions(h, ops));
    PhaseByStatus(h, s, id);
    PhaseSpells(s.events[id]);
  }
}

/**
 Crash recovery of `ActionService` (actions/service.py): restoring the durable event log, in append order, into an empty
 service rebuilds the service that wrote it.
 */
module Recovery {
  import opened Basics
  import opened WorldModel
  import opened ActionModel
  import opened ActionLog
  import opened ActionRuns

  ghost predicate LogStarts(log: seq<Event>) {
    log != [] && log[0].body.payload.PolicyPayload?
  }

  /** `rec` holds the actions, the index and the logs of `s`, with every decision as `restore` derives it. */
  ghost predicate RebuiltActions(s: ActionState, rec: ActionState) {
    && rec.events == s.events
    && rec.idempotency == s.idempotency
    && (forall id :: id in rec.actions <==> id in s.actions)
    && (forall id | id in s.actions ::
          && id in s.events && LogStarts(s.events[id])
          && rec.actions[id] == s.actions[id].(decision := RestoredDecision(s.events[id])))
  }

  /** `rec` is `s` rebuilt, with receipts filed under the keys they name. */
  ghost predicate Rebuilt(s: ActionState, rec: ActionState) {
    && RebuiltActions(s, rec)
    && EchoedReceipts(rec)
    && (EchoedReceipts(s) ==> rec.executions == s.executions)
  }

  /** What `restore` files of an event: a receipt, under the key that it names. */
  function Filing(m: map<Ref, Receipt>, e: Event): map<Ref, Receipt> {
    if IsAcceptance(e) then m[Ref(e.body.tenantId, e.body.payload.receipt.idempotencyKey) := e.body.payload.receipt]
        else m
  }

  function Filed(log: seq<Event>): map<Ref, Receipt> {
    if log == [] then map[] else Filing(Filed(log[..|log| - 1]), log[|log| - 1])
  }

  /** No event of the log makes `restore` raise. */
  ghost predicate RestoresQuietly(log: seq<Event>) {
    log == [] || (RestoresQuietly(log[..|log| - 1]) && Restore(Recovered(log[..|log| - 1]), log[|log| - 1]).1)
  }

  /** The service is sound, with the receipts that were given, and its log rebuilds it. */
  ghost predicate SystemSound(h: HashEvent, sys: System) {
    && ServiceSound(h, Booked(sys))
    && Rebuilt(sys.service, Recovered(sys.log))
    && Recovered(sys.log).executions == Filed(sys.log)
    && RestoresQuietly(sys.log)
    && (forall e | e in sys.log :: SeenEvent(sys.service, e.body.eventId))
  }

  // ---------------------------------------------------------------- one event

  lemma SameSeen(s: ActionState, rec: ActionState, eventId: string)
    requires s.events == rec.events
    ensures SeenEvent(s, eventId) <==> SeenEvent(rec, eventId)
  {
  }

  lemma RestoresOpening(h: HashEvent, s: ActionState, s': ActionState, e: Event, rec: ActionState)
    requires Rebuilt(s, rec) && Extends(h, s, s', e) && Opens(s, s', e) && !SeenEvent(s, e.body.eventId)
    ensures Restore(rec, e).1 && Rebuilt(s', Restore(rec, e).0)
    ensures Restore(rec, e).0.executions == Filing(rec.executions, e)
  {
    hide SeenEvent, EvaluatePolicy, LastHash, Continues, Restore, LogStarts, RestoredDecision;
    SameSeen(s, rec, e.body.eventId);
    RestoreOpens(rec, e);
    OpenedRestored(e);
    assert s'.events[e.body.actionId] == [e];
  }

  /** What `restore` does with a new proposal. */
  lemma RestoreOpens(rec: ActionState, e: Event)
    requires !SeenEvent(rec, e.body.eventId) && e.body.eventType.PolicyEvaluated? && e.body.payload.PolicyPayload?
    requires e.body.actionId !in rec.events
    ensures var (rec', quiet) := Restore(rec, e);
            var id, p := e.body.actionId, e.body.payload;
            && quiet
            && rec'.events == rec.events[id := [e]]
            && rec'.idempotency == rec.idempotency[Ref(e.body.tenantId, p.proposal.idempotencyKey) := id]
            && rec'.actions == rec.actions[id := StoredAction(p.proposal, p.decision, e.body.actorRole,
                                                              e.body.tenantId)]
            && rec'.executions == rec.executions
  {
    hide SeenEvent, RestoreUpdate;
    assert [] + [e] == [e];
  }

  lemma OpenedRestored(e: Event)
    requires e.body.payload.PolicyPayload?
    ensures LogStarts([e]) && RestoredDecision([e]) == e.body.payload.decision
  {
  }

  lemma RestoredSnoc(log: seq<Event>, e: Event)
    requires LogStarts(log)
    ensures LogStarts(log + [e]) && RestoredDecision(log + [e]) == RestoreUpdate(RestoredDecision(log), e)
  {
    assert (log + [e])[..|log|] == log;
  }

  lemma AcceptanceIsTyped(p: Phase, e: Event)
    requires !p.Start? && !Next(p, e).Broken?
    ensures e.body.eventType == StatusEvent(ProviderAccepted) <==> IsAcceptance(e)
    ensures !e.body.eventType.PolicyEvaluated?
  {
  }

  /** What `restore` does with an event that is new and not a proposal. */
  lemma RestoreParts(rec: ActionState, e: Event)
    requires !SeenEvent(rec, e.body.eventId) && !e.body.eventType.PolicyEvaluated? && e.body.actionId in rec.actions
    requires e.body.eventType == StatusEvent(ProviderAccepted) <==> IsAcceptance(e)
    ensures var (rec', quiet) := Restore(rec, e);
            var id := e.body.actionId;
            && quiet
            && rec'.events == rec.events[id := EventsOf(rec, id) + [e]]
            && rec'.idempotency == rec.idempotency
            && rec'.actions == rec.actions[id := rec.actions[id].(decision :=
                                                                  RestoreUpdate(rec.actions[id].decision, e))]
            && rec'.executions == Filing(rec.executions, e)
  {
    hide SeenEvent, RestoreUpdate;
  }

  lemma RestoresStep(h: HashEvent, s: ActionState, s': ActionState, e: Event, rec: ActionState)
    requires Rebuilt(s, rec) && Extends(h, s, s', e) && Continues(s, s', e) && !SeenEvent(s, e.body.eventId)
    ensures Restore(rec, e).1 && Rebuilt(s', Restore(rec, e).0)
    ensures Restore(rec, e).0.executions == Filing(rec.executions, e)
  {
    var id := e.body.actionId;
    hide SeenEvent, Next, LiveUpdate, RestoreUpdate, RestoredDecision, AtExecution, LastHash, Opens, PhaseOf, Restore,
        IsAcceptance;
    SameSeen(s, rec, e.body.eventId);
    RestoredSnoc(s.events[id], e);
    PhaseAfterFirst(s.events[id]);
    AcceptanceIsTyped(PhaseOf(s.events[id]), e);
    RestoreParts(rec, e);
    var rec' := Restore(rec, e).0;
    if IsAcceptance(e) {
      ReceiptsAfterAcceptance(s, s', e, rec, rec');
    }
    RebuiltDecisions(s, s', e, rec, rec');
  }

  lemma RebuiltDecisions(s: ActionState, s': ActionState, e: Event, rec: ActionState, rec': ActionState)
    requires Rebuilt(s, rec) && Continues(s, s', e) && LogStarts(s.events[e.body.actionId])
    requires var id := e.body.actionId;
             && s'.events == s.events[id := s.events[id] + [e]]
             && rec'.actions == rec.actions[id := rec.actions[id].(decision :=
                                                                   RestoreUpdate(rec.actions[id].decision, e))]
             && LogStarts(s.events[id] + [e])
             && RestoredDecision(s.events[id] + [e]) == RestoreUpdate(RestoredDecision(s.events[id]), e)
    ensures forall id :: id in rec'.actions <==> id in s'.actions
    ensures forall id | id in s'.actions ::
              && id in s'.events && LogStarts(s'.events[id])
              && rec'.actions[id] == s'.actions[id].(decision := RestoredDecision(s'.events[id]))
  {
    hide Next, PhaseOf, LiveUpdate, RestoreUpdate, RestoredDecision, LogStarts, IsAcceptance, AtExecution,
        EchoedReceipts;
  }

  lemma ReceiptsAfterAcceptance(s: ActionState, s': ActionState, e: Event, rec: ActionState, rec': ActionState)
    requires e.body.actionId in s.actions && IsAcceptance(e)
    requires EchoedReceipts(rec) && (EchoedReceipts(s) ==> rec.executions == s.executions)
    requires var a := s.actions[e.body.actionId];
             && KeyOf(a) !in s.executions && e.body.tenantId == a.tenantId
             && s'.executions == s.executions[KeyOf(a) := e.body.payload.receipt]
    requires rec'.executions == Filing(rec.executions, e)
    ensures EchoedReceipts(rec') && (EchoedReceipts(s') ==> rec'.executions == s'.executions)
  {
    var a := s.actions[e.body.actionId];
    if EchoedReceipts(s') {
      assert s'.executions[KeyOf(a)].idempotencyKey == KeyOf(a).id;
      forall r | r in s.executions
        ensures s.executions[r].idempotencyKey == r.id
      {
        assert s'.executions[r] == s.executions[r];
      }
    }
  }

  /** Restoring the event that a step appended does to the rebuilt service what the step did to the running one. */
  lemma RestoreFollowsStep(h: HashEvent, s: ActionState, s': ActionState, e: Event, rec: ActionState)
    requires Rebuilt(s, rec) && Extends(h, s, s', e) && !SeenEvent(s, e.body.eventId)
    ensures Restore(rec, e).1 && Rebuilt(s', Restore(rec, e).0)
    ensures Restore(rec, e).0.executions == Filing(rec.executions, e)
  {
    hide Rebuilt, SeenEvent, Restore, Opens, Continues;
    if Opens(s, s', e) {
      RestoresOpening(h, s, s', e, rec);
    } else {
      RestoresStep(h, s, s', e, rec);
    }
  }

  lemma SeenAfter(h: HashEvent, s: ActionState, s': ActionState, e: Event, eventId: string)
    requires Extends(h, s, s', e)
    ensures SeenEvent(s, eventId) ==> SeenEvent(s', eventId)
    ensures SeenEvent(s', e.body.eventId)
  {
    hide Opens, Continues, LastHash;
    var id := e.body.actionId;
    var earlier, now := EventsOf(s, id), s'.events[id];
    assert now[|earlier|] == e;
    if SeenEvent(s, eventId) {
      var a :| a in s.events && exists i | 0 <= i < |s.events[a]| :: s.events[a][i].body.eventId == eventId;
      var i :| 0 <= i < |s.events[a]| && s.events[a][i].body.eventId == eventId;
      if a == id { assert now[i] == earlier[i]; }
      assert a in s'.events && s'.events[a][i].body.eventId == eventId;
    }
  }

  // ---------------------------------------------------------------- restart

  lemma RestartSound(h: HashEvent, s: ActionState, rec: ActionState)
    requires ServiceSound(h, s) && RebuiltActions(s, rec) && rec.executions == s.executions
    ensures ServiceSound(h, rec)
  {
    hide RestoredDecision, LogStarts, ActionSound;
    forall id | id in rec.actions
      ensures ActionSound(h, rec, id)
    {
      RestartedAction(h, s, rec, id);
    }
    RestartedIndexes(h, s, rec);
  }

  lemma RebuiltTwice(s: ActionState, rec: ActionState)
    requires Rebuilt(s, rec)
    ensures Rebuilt(rec, rec)
  {
    hide RestoredDecision, LogStarts;
  }

  lemma RestartedAction(h: HashEvent, s: ActionState, rec: ActionState, id: string)
    requires ServiceSound(h, s) && RebuiltActions(s, rec) && rec.executions == s.executions && id in rec.actions
    ensures ActionSound(h, rec, id)
  {
    assert ActionSound(h, s, id);
    hide LogTells, DecisionTold, IndexesTell, RestoredDecision;
    RestartedActionSound(h, s, rec, id);
  }

  lemma RestartedIndexes(h: HashEvent, s: ActionState, rec: ActionState)
    requires ServiceSound(h, s) && RebuiltActions(s, rec) && rec.executions == s.executions
    ensures forall r | r in rec.idempotency ::
              rec.idempotency[r] in rec.actions && KeyOf(rec.actions[rec.idempotency[r]]) == r
    ensures forall r | r in rec.executions :: r in rec.idempotency
    ensures forall id :: id in rec.actions <==> id in rec.events
  {
    hide RestoredDecision, LogStarts, ActionSound;
  }

  lemma RestartedActionSound(h: HashEvent, s: ActionState, rec: ActionState, id: string)
    requires id in s.actions && id in rec.actions && ActionSound(h, s, id) && LogStarts(s.events[id])
    requires rec.events == s.events && rec.idempotency == s.idempotency && rec.executions == s.executions
    requires rec.actions[id] == s.actions[id].(decision := RestoredDecision(s.events[id]))
    ensures ActionSound(h, rec, id)
  {
    hide PhaseOf, HoldsReceipt, Executed, EvaluatePolicy, RestoredDecision, LiveDecision, Chained;
  }

  // ---------------------------------------------------------------- every run

  lemma LedgerSnoc(calls: seq<Call>, c: Option<Call>)
    ensures Ledger(calls + Optional(c)) ==
            if c.Some? && Completed(c.value) then Ledger(calls)[CallKey(c.value) := c.value.outcome.value]
                else Ledger(calls)
  {
    if c.Some? { assert (calls + [c.value])[..|calls|] == calls; } else { assert calls + [] == calls; }
  }

  /** An operation leaves the service alone, or appends one event from which all else follows, in the ledger too. */
  lemma StepExtends(h: HashEvent, sys: System, op: ActionOp)
    requires !op.Restart? && SystemSound(h, sys) && Possible(sys, op)
    ensures var o, next := Perform(h, sys.service, op), Advance(h, sys, op);
            && (o.event.None? ==> o.state == sys.service && Booked(next) == Booked(sys))
            && (o.event.Some? ==>
                  && Extends(h, sys.service, o.state, o.event.value)
                  && Extends(h, Booked(sys), Booked(next), o.event.value)
                  && o.event.value.body.eventId == EventId(op.uuid))
  {
    hide ServiceSound, Rebuilt, Recovered, Perform, Extends, EventId, SeenEvent, Filed;
    var s, b := sys.service, Booked(sys);
    SamePossible(sys, op);
    PerformParallel(h, s, b, op);
    PerformExtends(h, b, op);
    var o, ob := Perform(h, s, op), Perform(h, b, op);
    LedgerSnoc(sys.calls, o.call);
    hide Ledger;
    if o.event.Some? {
      assert Booked(Advance(h, sys, op)) == ob.state;
      ExtendsAlike(h, b, ob.state, s, o.state, o.event.value);
    }
  }

  lemma AdvanceKeepsSystemSound(h: HashEvent, sys: System, op: ActionOp)
    requires SystemSound(h, sys) && Possible(sys, op)
    ensures SystemSound(h, Advance(h, sys, op))
  {
    hide ServiceSound, Rebuilt, SeenEvent, Extends, Perform, Restore, Recovered, Ledger;
    if op.Restart? {
      var rec := Recovered(sys.log);
      RebuiltTwice(sys.service, rec);
      RebuiltLogs(sys.service, rec);
      RestartSound(h, Booked(sys), rec.(executions := Ledger(sys.calls)));
      forall e | e in sys.log
        ensures SeenEvent(rec, e.body.eventId)
      {
        SameSeen(sys.service, rec, e.body.eventId);
      }
    } else {
      StepKeepsSystemSound(h, sys, op);
    }
  }

  lemma RebuiltLogs(s: ActionState, rec: ActionState)
    requires Rebuilt(s, rec)
    ensures rec.events == s.events && RebuiltActions(s, rec)
    ensures forall m :: RebuiltActions(s.(executions := m), rec.(executions := m))
  {
    hide RestoredDecision, LogStarts;
  }

  lemma StepKeepsSystemSound(h: HashEvent, sys: System, op: ActionOp)
    requires SystemSound(h, sys) && Possible(sys, op) && !op.Restart?
    ensures SystemSound(h, Advance(h, sys, op))
  {
    hide ServiceSound, Rebuilt, SeenEvent, Extends, Perform, Restore, Recovered, Booked, Filing, Filed;
    SamePossible(sys, op);
    StepExtends(h, sys, op);
    var o, next := Perform(h, sys.service, op), Advance(h, sys, op);
    if o.event.Some? {
      var e := o.event.value;
      ExtendsKeepsSound(h, Booked(sys), Booked(next), e);
      RestoreFollowsStep(h, sys.service, o.state, e, Recovered(sys.log));
      RecoveredSnoc(sys.log, e);
      FiledSnoc(sys.log, e);
      forall f | f in sys.log + [e]
        ensures SeenEvent(o.state, f.body.eventId)
      {
        SeenAfter(h, sys.service, o.state, e, f.body.eventId);
      }
    } else {
      assert sys.log + [] == sys.log;
    }
  }

  lemma FiledSnoc(log: seq<Event>, e: Event)
    ensures Filed(log + [e]) == Filing(Filed(log), e)
  {
    assert (log + [e])[..|log|] == log;
  }

  lemma SamePossible(sys: System, op: ActionOp)
    requires Possible(sys, op) && !op.Restart?
    ensures Possible(System(Booked(sys), [], []), op) && !SeenEvent(sys.service, EventId(op.uuid))
  {
    hide EventId, ActionId, Ledger;
    if SeenEvent(Booked(sys), EventId(op.uuid)) { SameSeen(sys.service, Booked(sys), EventId(op.uuid)); }
  }

  lemma RecoveredSnoc(log: seq<Event>, e: Event)
    ensures Recovered(log + [e]) == Restore(Recovered(log), e).0
    ensures RestoresQuietly(log + [e]) <==> RestoresQuietly(log) && Restore(Recovered(log), e).1
  {
    hide Restore;
    assert (log + [e])[..|log|] == log;
  }

  lemma {:induction false} RunKeepsSystemSound(h: HashEvent, ops: seq<ActionOp>)
    requires PossibleRun(h, ops)
    ensures SystemSound(h, RunActions(h, ops))
  {
    hide SystemSound, Advance, Possible;
    if |ops| == 0 {
      EmptySystemSound(h);
    } else {
      RunKeepsSystemSound(h, ops[..|ops| - 1]);
      AdvanceKeepsSystemSound(h, RunActions(h, ops[..|ops| - 1]), ops[|ops| - 1]);
    }
  }

  lemma EmptySystemSound(h: HashEvent)
    ensures SystemSound(h, System(EMPTY_ACTIONS, [], []))
  {
    assert Booked(System(EMPTY_ACTIONS, [], [])) == EMPTY_ACTIONS;
  }

  // ---------------------------------------------------------------- the theorems

  /**
   Recovery rebuilds the running service after any run, restarts included: the same actions, proposals, proposers and
   tenants, the same idempotency index and event logs, without an exception. The receipts are the same exactly when
   every receipt names the key that it is filed under.
   */
  lemma RecoveryRebuildsService(h: HashEvent, ops: seq<ActionOp>)
    requires PossibleRun(h, ops)
    ensures var sys := RunActions(h, ops);
            var rec := Recovered(sys.log);
            && RestoresQuietly(sys.log)
            && rec.events == sys.service.events
            && rec.idempotency == sys.service.idempotency
            && (forall id :: id in rec.actions <==> id in sys.service.actions)
            && (forall id | id in rec.actions ::
                  var a, b := rec.actions[id], sys.service.actions[id];
                  a.proposal == b.proposal && a.proposerRole == b.proposerRole && a.tenantId == b.tenantId)
            && (rec.executions == sys.service.executions <==> EchoedReceipts(sys.service))
  {
    hide Recovered, RestoredDecision, ServiceSound, RunActions, Filed;
    RunKeepsSystemSound(h, ops);
  }

  /** A receipt that was given names another key, and the table does not hold it under its own. */
  ghost predicate Mislaid(table: map<Ref, Receipt>, given: map<Ref, Receipt>) {
    exists r | r in given :: given[r].idempotencyKey != r.id && (r in table ==> table[r].idempotencyKey == r.id)
  }

  lemma MislaidDiffers(table: map<Ref, Receipt>, given: map<Ref, Receipt>)
    requires Mislaid(table, given)
    ensures exists r | r in given :: r !in table || table[r] != given[r]
  {
    var r :| r in given && given[r].idempotencyKey != r.id && (r in table ==> table[r].idempotencyKey == r.id);
    assert r !in table || table[r] != given[r];
  }

  /** A receipt that is mislaid stays so. */
  lemma StepKeepsMislaid(h: HashEvent, sys: System, op: ActionOp)
    requires !op.Restart? && SystemSound(h, sys) && Mislaid(sys.service.executions, Ledger(sys.calls))
    ensures var next := Advance(h, sys, op); Mislaid(next.service.executions, Ledger(next.calls))
  {
    hide ServiceSound, Rebuilt, Recovered, Perform, Filed, Ledger, SeenEvent, IsAcceptance;
    PerformParallel(h, sys.service, Booked(sys), op);
    var o, given := Perform(h, sys.service, op), Ledger(sys.calls);
    LedgerSnoc(sys.calls, o.call);
    var r :| r in given && given[r].idempotencyKey != r.id
      && (r in sys.service.executions ==> sys.service.executions[r].idempotencyKey == r.id);
    var next := Advance(h, sys, op);
    assert r in Ledger(next.calls) && Ledger(next.calls)[r] == given[r];
    assert r in next.service.executions ==> next.service.executions[r].idempotencyKey == r.id;
  }

  /** A restart files every receipt under the key that it names, and so mislays those that name another. */
  lemma RestartMislays(sys: System)
    requires EchoedReceipts(Recovered(sys.log))
    requires Mislaid(sys.service.executions, Ledger(sys.calls))
          || (sys.service.executions == Ledger(sys.calls) && !EchoedReceipts(sys.service))
    ensures Mislaid(Recovered(sys.log).executions, Ledger(sys.calls))
  {
    hide Recovered, Ledger;
    var table, given := Recovered(sys.log).executions, Ledger(sys.calls);
    var r :| r in given && given[r].idempotencyKey != r.id;
    assert r in table ==> table[r].idempotencyKey == r.id;
  }

  /** One step of a run whose restarts echo keeps the table equal to the receipts that were given. */
  lemma StepKeepsReceipts(h: HashEvent, sys: System, op: ActionOp)
    requires SystemSound(h, sys) && Possible(sys, op) && sys.service.executions == Ledger(sys.calls)
    requires op.Restart? ==> EchoedReceipts(sys.service)
    ensures var next := Advance(h, sys, op); next.service.executions == Ledger(next.calls)
  {
    hide Perform, ServiceSound, Extends, SeenEvent, Recovered, EchoedReceipts, Filed, Ledger;
    if !op.Restart? {
      StepExtends(h, sys, op);
      var o := Perform(h, sys.service, op);
      if o.event.Some? { SameFiling(h, sys.service, o.state, Booked(Advance(h, sys, op)), o.event.value); }
    }
  }

  /** The table holds the receipts that were given, or has lost one for good. */
  lemma {:induction false} ReceiptsKeptOrMislaid(h: HashEvent, ops: seq<ActionOp>)
    requires PossibleRun(h, ops)
    ensures var sys := RunActions(h, ops);
            if RestartsEcho(h, ops) then sys.service.executions == Ledger(sys.calls)
            else Mislaid(sys.service.executions, Ledger(sys.calls))
  {
    hide Advance, Possible, SystemSound, EchoedReceipts, Ledger, Mislaid;
    if |ops| == 0 {
      NothingGiven();
    } else {
      var init, op := ops[..|ops| - 1], ops[|ops| - 1];
      var sys := RunActions(h, init);
      ReceiptsKeptOrMislaid(h, init);
      RunKeepsSystemSound(h, init);
      StepKeptOrMislaid(h, sys, op);
    }
  }

  lemma StepKeptOrMislaid(h: HashEvent, sys: System, op: ActionOp)
    requires SystemSound(h, sys) && Possible(sys, op)
    ensures var next := Advance(h, sys, op);
            && (sys.service.executions == Ledger(sys.calls) && (op.Restart? ==> EchoedReceipts(sys.service)) ==>
                  next.service.executions == Ledger(next.calls))
            && (sys.service.executions == Ledger(sys.calls) && op.Restart? && !EchoedReceipts(sys.service) ==>
                  Mislaid(next.service.executions, Ledger(next.calls)))
            && (Mislaid(sys.service.executions, Ledger(sys.calls)) ==>
                  Mislaid(next.service.executions, Ledger(next.calls)))
  {
    hide Perform, ServiceSound, SeenEvent, Recovered, EchoedReceipts, Filed, Ledger, Mislaid, Possible;
    if sys.service.executions == Ledger(sys.calls) && (op.Restart? ==> EchoedReceipts(sys.service)) {
      StepKeepsReceipts(h, sys, op);
    }
    if Mislaid(sys.service.executions, Ledger(sys.calls)) && !op.Restart? {
      StepKeepsMislaid(h, sys, op);
    }
    if op.Restart? && (Mislaid(sys.service.executions, Ledger(sys.calls))
                       || (sys.service.executions == Ledger(sys.calls) && !EchoedReceipts(sys.service))) {
      RestartMislays(sys);
    }
  }

  /**
   After any run the table holds exactly the receipts that the provider gave, each under the tenant and key of its call,
   if and only if every restart of the run found receipts that named their own keys. Otherwise some receipt is lost for
   good: the table has none or another one in its place.
   */
  lemma EchoingRestartsKeepReceipts(h: HashEvent, ops: seq<ActionOp>)
    requires PossibleRun(h, ops)
    ensures var sys := RunActions(h, ops);
            var table, given := sys.service.executions, Ledger(sys.calls);
            && (RestartsEcho(h, ops) <==> table == given)
            && (RestartsEcho(h, ops) <==> forall r | r in given :: r in table && table[r] == given[r])
  {
    hide RunActions, RestartsEcho, PossibleRun, Ledger, Mislaid;
    ReceiptsKeptOrMislaid(h, ops);
    var sys := RunActions(h, ops);
    if !RestartsEcho(h, ops) { MislaidDiffers(sys.service.executions, Ledger(sys.calls)); }
  }

  lemma NothingGiven()
    ensures Ledger([]) == map[]
  {
  }

  lemma SameFiling(h: HashEvent, s: ActionState, a: ActionState, b: ActionState, e: Event)
    requires Extends(h, s, a, e) && Extends(h, s, b, e)
    ensures a.executions == b.executions
  {
    hide EvaluatePolicy, Next, LiveUpdate, LastHash, AtExecution, IsAcceptance;
  }

  /** Every decision is the one its log stands for in a running service. */
  ghost predicate LiveTold(s: ActionState) {
    forall id | id in s.actions ::
      id in s.events && LogStarts(s.events[id]) && s.actions[id].decision == LiveDecision(s.events[id])
  }

  lemma ExtendsKeepsLive(h: HashEvent, s: ActionState, s': ActionState, e: Event)
    requires ServiceSound(h, s) && LiveTold(s) && Extends(h, s, s', e)
    ensures LiveTold(s')
  {
    hide Opens, Continues, LiveTold, LastHash, ServiceSound;
    if Opens(s, s', e) { OpeningKeepsLive(s, s', e); } else { ContinuingKeepsLive(h, s, s', e); }
  }

  lemma OpeningKeepsLive(s: ActionState, s': ActionState, e: Event)
    requires LiveTold(s) && Opens(s, s', e)
    requires s'.events == s.events[e.body.actionId := EventsOf(s, e.body.actionId) + [e]]
    ensures LiveTold(s')
  {
    hide LiveDecision, LogStarts, EvaluatePolicy;
    OpenedLive(e);
    assert s'.events[e.body.actionId] == [e];
  }

  lemma ContinuingKeepsLive(h: HashEvent, s: ActionState, s': ActionState, e: Event)
    requires LiveTold(s) && Continues(s, s', e) && ServiceSound(h, s)
    requires s'.events == s.events[e.body.actionId := EventsOf(s, e.body.actionId) + [e]]
    ensures LiveTold(s')
  {
    var changed := e.body.actionId;
    hide LiveDecision, RestoredDecision, PhaseOf, Next, LiveUpdate, AtExecution, IsAcceptance, Chained,
        EvaluatePolicy, IndexesTell;
    assert ActionSound(h, s, changed);
    hide ServiceSound;
    ContinuedDecision(s.actions[changed], s'.actions[changed], s.events[changed], e);
    hide ActionSound;
  }

  lemma OpenedLive(e: Event)
    requires e.body.payload.PolicyPayload?
    ensures LogStarts([e]) && LiveDecision([e]) == e.body.payload.decision
  {
  }

  predicate NoRestart(ops: seq<ActionOp>) {
    forall i | 0 <= i < |ops| :: !ops[i].Restart?
  }

  lemma {:induction false} RunKeepsLive(h: HashEvent, ops: seq<ActionOp>)
    requires PossibleRun(h, ops) && NoRestart(ops)
    ensures LiveTold(Booked(RunActions(h, ops)))
  {
    hide Perform, LiveTold, ServiceSound, Extends, SeenEvent, Rebuilt, Recovered, Booked, Filed;
    if |ops| == 0 {
      NothingTold();
    } else {
      var init, op := ops[..|ops| - 1], ops[|ops| - 1];
      RunKeepsLive(h, init);
      RunKeepsSystemSound(h, init);
      var sys := RunActions(h, init);
      StepExtends(h, sys, op);
      var o := Perform(h, sys.service, op);
      if o.event.Some? { ExtendsKeepsLive(h, Booked(sys), Booked(Advance(h, sys, op)), o.event.value); }
    }
  }

  lemma NothingTold()
    ensures LiveTold(Booked(System(EMPTY_ACTIONS, [], [])))
  {
  }

  /**
   The recovered status is that of the running service, after any run, except exactly for the actions that are approved
   while their log ends in an execution-stage failure: those come back as failed. Every other decision comes back whole,
   but for the reason text after an acceptance.
   */
  lemma RecoveredStatusVersusRunning(h: HashEvent, ops: seq<ActionOp>, id: string)
    requires PossibleRun(h, ops) && id in RunActions(h, ops).service.actions
    ensures var sys := RunActions(h, ops);
            && id in sys.service.events && sys.service.events[id] != []
            && id in Recovered(sys.log).actions
            && var last := sys.service.events[id][|sys.service.events[id]| - 1];
            var running, rec := sys.service.actions[id].decision, Recovered(sys.log).actions[id].decision;
            && (rec.status == running.status <==> !(AtExecution(last) && running.status == Approved))
            && (AtExecution(last) ==> rec.status == PreconditionFailed)
            && (AtExecution(last) && running.status != Approved ==> rec == running)
            && (!AtExecution(last) && !IsAcceptance(last) ==> rec == running)
            && (IsAcceptance(last) ==> rec == running.(reason := NamedByType(StatusEvent(ProviderAccepted))))
  {
    hide Recovered, RestoredDecision, LiveDecision, PhaseOf, RunActions, AtExecution, IsAcceptance, Ledger, Filed;
    RunKeepsSystemSound(h, ops);
    var s := Booked(RunActions(h, ops));
    assert ActionSound(h, s, id);
    RestoredVersusLive(s.events[id]);
    LiveStatusIsPhase(s.events[id]);
    ExecutionIsNotAcceptance(s.events[id][|s.events[id]| - 1]);
  }

  lemma ExecutionIsNotAcceptance(e: Event)
    ensures !(AtExecution(e) && IsAcceptance(e))
  {
  }

  /**
   Against a service that never restarted, the recovered status is the live one except exactly for the actions whose log
   ends in an execution-stage failure: those stay approved live and come back as failed.
   */
  lemma RecoveredStatusVersusLive(h: HashEvent, ops: seq<ActionOp>, id: string)
    requires PossibleRun(h, ops) && NoRestart(ops)
    requires id in RunActions(h, ops).service.actions
    ensures var sys := RunActions(h, ops);
            && id in sys.service.events && sys.service.events[id] != []
            && id in Recovered(sys.log).actions
            && var log := sys.service.events[id];
            var live, rec := sys.service.actions[id].decision, Recovered(sys.log).actions[id].decision;
            && (rec.status == live.status <==> !AtExecution(log[|log| - 1]))
            && (AtExecution(log[|log| - 1]) ==> live.status == Approved && rec.status == PreconditionFailed)
            && (!AtExecution(log[|log| - 1]) && !IsAcceptance(log[|log| - 1]) ==> rec == live)
            && (IsAcceptance(log[|log| - 1]) ==> rec == live.(reason := NamedByType(StatusEvent(ProviderAccepted))))
  {
    hide Recovered, RestoredDecision, LiveDecision, PhaseOf, RunActions, AtExecution, IsAcceptance, Ledger, Filed;
    RecoveredStatusVersusRunning(h, ops, id);
    RunKeepsSystemSound(h, ops);
    RunKeepsLive(h, ops);
    var s := Booked(RunActions(h, ops));
    assert ActionSound(h, s, id);
    RestoredVersusLive(s.events[id]);
  }

  function RestoreAll(s: ActionState, events: seq<Event>): ActionState
    decreases |events|
  {
    if events == [] then s else RestoreAll(Restore(s, events[0]).0, events[1..])
  }

  lemma {:induction false} SeenEventsAreIgnored(s: ActionState, again: seq<Event>)
    requires forall e | e in again :: SeenEvent(s, e.body.eventId)
    ensures RestoreAll(s, again) == s
    decreases |again|
  {
    hide SeenEvent;
    if again != [] {
      assert again[0] in again;
      SeenEventsAreIgnored(s, again[1..]);
    }
  }

  /** Restoring any events of the log again, in any order, changes neither the running nor the recovered service. */
  lemma RestoringAgainChangesNothing(h: HashEvent, ops: seq<ActionOp>, again: seq<Event>)
    requires PossibleRun(h, ops) && forall e | e in again :: e in RunActions(h, ops).log
    ensures var sys := RunActions(h, ops);
            RestoreAll(sys.service, again) == sys.service && RestoreAll(Recovered(sys.log), again) == Recovered(sys.log)
  {
    hide Recovered, SeenEvent, RunActions, ServiceSound, Filed;
    RunKeepsSystemSound(h, ops);
    var sys := RunActions(h, ops);
    forall e | e in again
      ensures SeenEvent(sys.service, e.body.eventId) && SeenEvent(Recovered(sys.log), e.body.eventId)
    {
      SameSeen(sys.service, Recovered(sys.log), e.body.eventId);
    }
    SeenEventsAreIgnored(sys.service, again);
    SeenEventsAreIgnored(Recovered(sys.log), again);
  }
}

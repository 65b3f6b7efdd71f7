/**
 Proof bundles (actions/service.py): what `proof` puts together from an action's log, and why its assurance level is to
 be believed.
 */
module ActionProof {
  import opened Basics
  import opened JsonValues
  import opened WorldModel
  import opened ActionModel
  import opened ActionLog
  import opened ActionRuns
  import opened Recovery
  import opened ActionSafety

  datatype Actor = Actor(role: Role, reason: Option<Reason>, eventId: string, eventHash: string)

  datatype PolicyEvidence = PolicyEvidence(
    status: ActionStatus, matchedRule: Option<Rule>, reason: Reason, policyVersion: string, requiredRole: Option<Role>)

  datatype ProviderEvidence = ProviderEvidence(
    provider: string, providerRequestId: string, requestFingerprint: string, idempotencyKey: string,
    acceptedStatus: Option<ActionStatus>)

  datatype VerificationEvidence = VerificationEvidence(
    result: ActionStatus, reason: Option<Reason>, observedStatus: Option<string>, attempts: nat,
    commitId: Option<string>)

  /** The part of a commit that a bundle shows. */
  datatype ProjectionDelta = ProjectionDelta(
    commitId: string, commitHash: string, previousHash: Option<string>, before: Attributes, after: Attributes,
    changed: seq<string>)

  datatype Assurance = AssuredVerified | AssuredAccepted | AssuredObserved

  datatype Warning =
    | SameRole(role: Role)
    | NotVerified(status: ActionStatus)
    | FailedPrecondition(stage: Stage, reason: Option<Reason>)

  datatype ChainLink = ChainLink(eventId: string, eventType: EventType, previousHash: Option<string>, hash: string)

  datatype Bundle = Bundle(
    actionId: string, tenantId: string, status: ActionStatus, assurance: Assurance, proposal: Proposal,
    proposer: Option<Actor>, approver: Option<Actor>, policy: Option<PolicyEvidence>, idempotencyKey: string,
    provider: Option<ProviderEvidence>, verification: Option<VerificationEvidence>,
    projection: Option<ProjectionDelta>, chain: seq<ChainLink>,
    warnings: seq<Warning>, events: seq<Event>, verificationCommitId: Option<string>)

  // ---------------------------------------------------------------- the bundle

  /** The entry of `{e.event_type: e for e in events}`: the last event of a type. */
  function Latest(log: seq<Event>, t: EventType): (e: Option<Event>)
    ensures e.Some? ==> e.value in log && e.value.body.eventType == t
    ensures e.None? ==> forall i | 0 <= i < |log| :: log[i].body.eventType != t
  {
    if log == [] then None
    else if log[|log| - 1].body.eventType == t then Some(log[|log| - 1])
    else Latest(log[..|log| - 1], t)
  }

  function ActorFrom(e: Option<Event>): Option<Actor> {
    match e
    case None => None
    case Some(e) => Some(Actor(e.body.actorRole, ReasonIn(e.body.payload), e.body.eventId, e.hash))
  }

  function PolicyFrom(e: Option<Event>): Option<PolicyEvidence> {
    match e
    case None => None
    case Some(e) =>
      if !e.body.payload.PolicyPayload? then None
      else
        var d := e.body.payload.decision;
        Some(PolicyEvidence(d.status, d.matchedRule, d.reason, d.policyVersion, d.requiredRole))
  }

  /** The fingerprint is `hash_json` over action type, target, key and parameters. */
  function ProviderFrom(fingerprint: Proposal -> string, p: Proposal, e: Option<Event>): Option<ProviderEvidence> {
    match e
    case None => None
    case Some(e) =>
      if e.body.payload.ReceiptPayload? then
        var r := e.body.payload.receipt;
        Some(ProviderEvidence(r.provider, r.providerRequestId, fingerprint(p), p.idempotencyKey, Some(r.status)))
      else Some(ProviderEvidence("", "", fingerprint(p), p.idempotencyKey, None))
  }

  predicate IsAttempt(e: Event) {
    e.body.eventType.StatusEvent? && (TerminalVerification(e.body.eventType.status)
                                      || e.body.eventType.status.VerificationPending?)
  }

  predicate IsTerminalAttempt(e: Event) {
    e.body.eventType.StatusEvent? && TerminalVerification(e.body.eventType.status)
  }

  function Attempts(log: seq<Event>): seq<Event> {
    if log == [] then []
    else
      var rest := Attempts(log[..|log| - 1]);
      if IsAttempt(log[|log| - 1]) then rest + [log[|log| - 1]] else rest
  }

  function Terminals(attempts: seq<Event>): seq<Event> {
    if attempts == [] then []
    else
      var rest := Terminals(attempts[..|attempts| - 1]);
      if IsTerminalAttempt(attempts[|attempts| - 1]) then rest + [attempts[|attempts| - 1]] else rest
  }

  function TextIn(j: Json): Option<string> {
    if j.Str? then Some(j.s) else None
  }

  /** `_verification_evidence`: the last terminal attempt, or else the last attempt. */
  function VerificationFrom(log: seq<Event>): Option<VerificationEvidence> {
    var attempts := Attempts(log);
    var terminals := Terminals(attempts);
    if attempts == [] then None
    else
      var last := if terminals != [] then terminals[|terminals| - 1] else attempts[|attempts| - 1];
      if !last.body.eventType.StatusEvent? then None
      else
        var p := last.body.payload;
        Some(VerificationEvidence(
               last.body.eventType.status, ReasonIn(p),
               if p.ReadPayload? then TextIn(p.observedStatus) else None,
               |attempts|,
               if p.ReadPayload? then p.commitId else None))
  }

  function DeltaFrom(commit: Option<Commit>): Option<ProjectionDelta> {
    match commit
    case None => None
    case Some(c) =>
      Some(ProjectionDelta(c.body.commitId, c.hash, c.body.previousHash, c.body.before, c.body.after, c.body.changed))
  }

  function ChainOf(log: seq<Event>): seq<ChainLink> {
    seq(|log|, i requires 0 <= i < |log| => ChainLink(log[i].body.eventId, log[i].body.eventType,
                                                      log[i].body.previousHash, log[i].hash))
  }

  function WarningsFor(status: ActionStatus, proposer: Option<Actor>, approver: Option<Actor>,
                       failure: Option<Event>): seq<Warning> {
    (if proposer.Some? && approver.Some? && proposer.value.role == approver.value.role then
     [SameRole(proposer.value.role)] else []) +
    (if !status.Verified? then [NotVerified(status)] else []) +
    (match failure
     case None => []
     case Some(e) =>
       [FailedPrecondition(if e.body.payload.ReasonPayload? then e.body.payload.stage else Lifecycle,
                           ReasonIn(e.body.payload))])
  }

  /** `proof`; no result is the KeyError of an action that is unknown or another tenant's. */
  function ProofOf(fingerprint: Proposal -> string, s: ActionState, tenant: string, id: string, commit: Option<Commit>):
    Option<Bundle>
  {
    if !Owned(s, tenant, id) then None
    else
      var a, log := s.actions[id], EventsOf(s, id);
      var approval := Latest(log, StatusEvent(Approved));
      var proposer := ActorFrom(Latest(log, PolicyEvaluated));
      var approver := ActorFrom(if approval.Some? then approval else Latest(log, StatusEvent(Rejected)));
      var provider := ProviderFrom(fingerprint, a.proposal, Latest(log, StatusEvent(ProviderAccepted)));
      var status, verification := a.decision.status, VerificationFrom(log);
      var failure := Latest(log, StatusEvent(PreconditionFailed));
      Some(Bundle(
             id, tenant, status,
             if status.Verified? then AssuredVerified else if provider.Some? then AssuredAccepted else AssuredObserved,
             a.proposal, proposer, approver, PolicyFrom(Latest(log, PolicyEvaluated)), a.proposal.idempotencyKey,
             provider, verification, DeltaFrom(commit), ChainOf(log),
             WarningsFor(status, proposer, approver, failure), log, CommitIdIn(verification)))
  }

  function CommitIdIn(verification: Option<VerificationEvidence>): Option<string> {
    match verification case None => None case Some(v) => v.commitId
  }

  // ---------------------------------------------------------------- attempts in a lifecycle log

  lemma {:induction false} NoAttempts(log: seq<Event>)
    requires forall i | 0 <= i < |log| :: !IsAttempt(log[i])
    ensures Attempts(log) == []
  {
    if log != [] { NoAttempts(log[..|log| - 1]); }
  }

  lemma {:induction false} AttemptsAfterAcceptance(log: seq<Event>, a: nat)
    requires a < |log|
    requires forall i | 0 <= i <= a :: !IsAttempt(log[i])
    requires forall i | a < i < |log| :: IsAttempt(log[i])
    ensures Attempts(log) == log[a + 1..]
    decreases |log|
  {
    var init := log[..|log| - 1];
    if a == |log| - 1 {
      NoAttempts(log);
    } else {
      AttemptsAfterAcceptance(init, a);
      assert log[a + 1..] == init[a + 1..] + [log[|log| - 1]];
    }
  }

  lemma LastTerminal(attempts: seq<Event>)
    requires attempts != [] && IsTerminalAttempt(attempts[|attempts| - 1])
    ensures Terminals(attempts) != [] && Terminals(attempts)[|Terminals(attempts)| - 1] == attempts[|attempts| - 1]
  {
  }

  /** The events of an accepted run up to the acceptance are no attempts; those after it are. */
  lemma AcceptedRunAttempts(log: seq<Event>, a: nat)
    requires AcceptedRun(log, a)
    ensures forall i | 0 <= i <= a :: !IsAttempt(log[i])
    ensures forall i | a < i < |log| :: IsAttempt(log[i]) && !IsTerminalAttempt(log[i])
    ensures 2 <= a < |log| && IsApproval(log[1]) && IsAcceptance(log[a])
  {
    assert forall i | 0 <= i < a :: log[..a][i] == log[i];
  }

  /** The number of pending verification events in the log. */
  function PendingCount(log: seq<Event>): nat {
    if log == [] then 0 else PendingCount(log[..|log| - 1]) + if IsPending(log[|log| - 1]) then 1 else 0
  }

  lemma {:induction false} NonePending(log: seq<Event>)
    requires forall i | 0 <= i < |log| :: !IsAttempt(log[i])
    ensures PendingCount(log) == 0
  {
    if log != [] { NonePending(log[..|log| - 1]); }
  }

  lemma {:induction false} PendingAfterAcceptance(log: seq<Event>, a: nat)
    requires AcceptedRun(log, a)
    ensures PendingCount(log) == |log| - a - 1
    decreases |log|
  {
    var init := log[..|log| - 1];
    AcceptedRunAttempts(log, a);
    if a == |log| - 1 {
      NonePending(init);
    } else {
      assert init[..a] == log[..a];
      PendingAfterAcceptance(init, a);
    }
  }

  /** A log that ends in `verified`, read backwards. */
  lemma VerifiedLog(log: seq<Event>)
    requires PhaseOf(log) == Done(Verified)
    ensures log != [] && IsVerdict(log[|log| - 1]) && log[|log| - 1].body.eventType == StatusEvent(Verified)
    ensures exists i | 0 <= i < |log| :: IsApproval(log[i])
    ensures exists i | 0 <= i < |log| :: IsAcceptance(log[i])
    ensures |Attempts(log)| == PendingCount(log) + 1
    ensures Attempts(log) != [] && Terminals(Attempts(log)) != []
    ensures Terminals(Attempts(log))[|Terminals(Attempts(log))| - 1] == log[|log| - 1]
  {
    PhaseSpells(log);
    hide PhaseOf, AcceptedRun, Attempts, Terminals, PendingCount, IsAttempt, IsPending;
    var a: nat :| AcceptedRun(log[..|log| - 1], a);
    VerdictAfterAcceptance(log, a);
  }

  lemma VerdictAfterAcceptance(log: seq<Event>, a: nat)
    requires log != [] && IsVerdict(log[|log| - 1]) && AcceptedRun(log[..|log| - 1], a)
    ensures exists i | 0 <= i < |log| :: IsApproval(log[i])
    ensures exists i | 0 <= i < |log| :: IsAcceptance(log[i])
    ensures |Attempts(log)| == PendingCount(log) + 1
    ensures Attempts(log) != [] && Terminals(Attempts(log)) != []
    ensures Terminals(Attempts(log))[|Terminals(Attempts(log))| - 1] == log[|log| - 1]
  {
    var init := log[..|log| - 1];
    AcceptedRunAttempts(init, a);
    PendingAfterAcceptance(init, a);
    hide AcceptedRun, Attempts, Terminals, PendingCount, IsApproval, IsAcceptance, IsAttempt, IsTerminalAttempt,
        IsVerdict;
    assert forall i | 0 <= i < |init| :: log[i] == init[i];
    assert IsApproval(log[1]) && IsAcceptance(log[a]);
    VerdictCounts(log, a);
  }

  lemma VerdictCounts(log: seq<Event>, a: nat)
    requires a < |log| - 1 && IsVerdict(log[|log| - 1]) && PendingCount(log[..|log| - 1]) == |log| - a - 2
    requires forall i | 0 <= i <= a :: !IsAttempt(log[i])
    requires forall i | a < i < |log| - 1 :: IsAttempt(log[i])
    ensures |Attempts(log)| == PendingCount(log) + 1
    ensures Attempts(log) != [] && Terminals(Attempts(log)) != []
    ensures Terminals(Attempts(log))[|Terminals(Attempts(log))| - 1] == log[|log| - 1]
  {
    var init, last := log[..|log| - 1], log[|log| - 1];
    VerdictIsAttempt(last);
    assert PendingCount(log) == PendingCount(init);
    hide IsAttempt, IsTerminalAttempt, IsPending, IsVerdict, PendingCount, Attempts, Terminals;
    AttemptsAfterAcceptance(log, a);
    LastTerminal(log[a + 1..]);
  }

  lemma VerdictIsAttempt(e: Event)
    requires IsVerdict(e)
    ensures IsAttempt(e) && IsTerminalAttempt(e) && !IsPending(e)
  {
  }

  ghost predicate ShowsAcceptance(log: seq<Event>) {
    exists i | 0 <= i < |log| :: log[i].body.eventType == StatusEvent(ProviderAccepted)
  }

  /** Whether the provider accepted shows in the log. */
  lemma AcceptanceInLog(log: seq<Event>)
    requires log != [] && !PhaseOf(log).Broken?
    ensures Executed(PhaseOf(log)) <==> ShowsAcceptance(log)
  {
    PhaseSpells(log);
    hide PhaseOf, IsPolicy, IsRefusal, AcceptedRun, ShowsAcceptance;
    var last := log[|log| - 1];
    if Accepting(log) {
      var a: nat :| AcceptedRun(log, a);
      AcceptedShows(log, a);
    } else if IsVerdict(last) && Accepting(log[..|log| - 1]) {
      var a: nat :| AcceptedRun(log[..|log| - 1], a);
      AcceptedShows(log[..|log| - 1], a);
      ShownStays(log);
    } else {
      hide ApprovedRun, Accepting, IsVerdict;
      NotAcceptedShowsNot(log, PhaseOf(log));
    }
  }

  lemma AcceptedShows(log: seq<Event>, a: nat)
    requires AcceptedRun(log, a)
    ensures ShowsAcceptance(log) && !ApprovedRun(log) && (|log| == 1 ==> !log[0].body.eventType.PolicyEvaluated?)
              && |log| > 2
  {
    AcceptedRunAttempts(log, a);
    assert log[a].body.eventType == StatusEvent(ProviderAccepted);
  }

  lemma ShownStays(log: seq<Event>)
    requires log != [] && ShowsAcceptance(log[..|log| - 1])
    ensures ShowsAcceptance(log)
  {
    var i :| 0 <= i < |log| - 1 && log[..|log| - 1][i].body.eventType == StatusEvent(ProviderAccepted);
    assert log[i].body.eventType == StatusEvent(ProviderAccepted);
  }

  lemma NotAcceptedShowsNot(log: seq<Event>, p: Phase)
    requires log != [] && Spells(log, p) && !Accepting(log)
              && !(IsVerdict(log[|log| - 1]) && Accepting(log[..|log| - 1]))
    ensures !ShowsAcceptance(log) && !Executed(p)
  {
    assert AcceptedRun(log, |log| - 1) ==> Accepting(log);
    hide AcceptedRun, Accepting;
  }

  // ---------------------------------------------------------------- soundness

  /** A verified event was written by a read that showed "cancelled". */
  lemma VerifiedEvents(h: HashEvent, s: ActionState, op: ActionOp)
    requires !op.Restart?
    ensures var o := Perform(h, s, op);
            o.event.Some? && o.event.value.body.eventType == StatusEvent(Verified) ==>
              && op.DoVerify? && op.actionId == o.event.value.body.actionId && op.state.Some?
              && AttributeValue(op.state.value, "status") == EXPECTED_STATUS
              && o.event.value.body.payload == ReadPayload(ReadConfirmed, Some(op.state.value.commitId),
                                                           EXPECTED_STATUS)
  {
    hide PreconditionFailure, Ineligibility, EvaluatePolicy, LastHash, EventId, ActionId;
    if op.DoVerify? { VerifiedMeansCancelled(op.state, op.isFinal); }
    hide AttributeValue, ObservedStatus, Verdict, VerdictReason;
  }

  lemma VerifiedMeansCancelled(state: Option<OrderState>, isFinal: bool)
    ensures Verdict(ObservedStatus(state), isFinal) == Verified <==>
              state.Some? && AttributeValue(state.value, "status") == EXPECTED_STATUS
    ensures Verdict(ObservedStatus(state), isFinal) == Verified ==>
              ObservedStatus(state) == EXPECTED_STATUS && VerdictReason(ObservedStatus(state), isFinal) == ReadConfirmed
  {
  }

  /** What a bundle shows for a log that ends in a verified read. */
  lemma VerifiedBundle(fingerprint: Proposal -> string, s: ActionState,
      tenant: string, id: string, commit: Option<Commit>)
    requires Owned(s, tenant, id) && s.actions[id].decision.status == Verified
    requires id in s.events && PhaseOf(s.events[id]) == Done(Verified)
    ensures s.events[id] != []
    ensures var b, last := ProofOf(fingerprint, s, tenant, id, commit).value, s.events[id][|s.events[id]| - 1];
            && b.approver.Some? && b.provider.Some? && b.verification.Some?
            && b.verification.value.result == Verified
            && b.verification.value.attempts == PendingCount(s.events[id]) + 1
            && b.verificationCommitId == b.verification.value.commitId
            && (last.body.payload.ReadPayload? ==>
                  && b.verification.value.observedStatus == TextIn(last.body.payload.observedStatus)
                  && b.verification.value.commitId == last.body.payload.commitId)
  {
    VerifiedSections(s.events[id]);
    BundleParts(fingerprint, s, tenant, id, commit);
    hide ProofOf, PhaseOf, PendingCount, Latest, WarningsFor, PolicyFrom, VerificationFrom;
  }

  lemma VerifiedSections(log: seq<Event>)
    requires PhaseOf(log) == Done(Verified)
    ensures log != []
    ensures Latest(log, StatusEvent(Approved)).Some? && Latest(log, StatusEvent(ProviderAccepted)).Some?
    ensures var v, last := VerificationFrom(log), log[|log| - 1];
            && v.Some? && v.value.result == Verified && v.value.attempts == PendingCount(log) + 1
            && (last.body.payload.ReadPayload? ==>
                  && v.value.observedStatus == TextIn(last.body.payload.observedStatus)
                  && v.value.commitId == last.body.payload.commitId)
  {
    VerifiedLog(log);
    hide PhaseOf, PendingCount, Attempts, Terminals, IsVerdict;
    var i :| 0 <= i < |log| && IsApproval(log[i]);
    var j :| 0 <= j < |log| && IsAcceptance(log[j]);
    LatestOf(log, i);
    LatestOf(log, j);
    hide Latest;
  }

  lemma LatestOf(log: seq<Event>, i: nat)
    requires i < |log|
    ensures Latest(log, log[i].body.eventType).Some?
  {
    var e := Latest(log, log[i].body.eventType);
  }

  /**
   Assurance "verified" means that the log ends in `verified`, and conversely. Then the bundle names an approver and a
   provider answer, and the verification evidence is that of a read of the order, made by an operation of the run,
   that showed it cancelled: its commit id, status "cancelled", and one attempt more than there were pending ones.
   */
  lemma VerifiedProofIsSound(h: HashEvent, fingerprint: Proposal -> string, ops: seq<ActionOp>,
      tenant: string, id: string, commit: Option<Commit>)
    returns (k: nat)
    requires PossibleRun(h, ops) && Owned(RunActions(h, ops).service, tenant, id)
    ensures var s := RunActions(h, ops).service;
            var b := ProofOf(fingerprint, s, tenant, id, commit).value;
            && id in s.events && s.events[id] != []
            && (b.assurance == AssuredVerified <==>
                s.events[id][|s.events[id]| - 1].body.eventType == StatusEvent(Verified))
            && (b.assurance == AssuredVerified ==>
                  && b.approver.Some? && b.provider.Some? && b.verification.Some?
                  && b.verification.value.result == Verified
                  && b.verification.value.observedStatus == Some("cancelled")
                  && b.verification.value.attempts == PendingCount(s.events[id]) + 1
                  && k < |ops| && ops[k].DoVerify? && ops[k].actionId == id && ops[k].state.Some?
                  && AttributeValue(ops[k].state.value, "status") == EXPECTED_STATUS
                  && b.verification.value.commitId == Some(ops[k].state.value.commitId)
                  && b.verificationCommitId == Some(ops[k].state.value.commitId))
  {
    hide RunActions, PhaseOf, Perform, AttributeValue, PendingCount, ProofOf, Ledger;
    k := 0;
    ReachableAction(h, ops, id);
    var s := RunActions(h, ops).service;
    PhaseByStatus(h, Booked(RunActions(h, ops)), id);
    VerifiedStatusLog(s.events[id]);
    BundleAssurance(fingerprint, s, tenant, id, commit);
    if s.actions[id].decision.status == Verified {
      VerifiedBundle(fingerprint, s, tenant, id, commit);
      hide ServiceSound, ActionSound;
      k := VerifiedReadAt(h, ops, id);
    }
  }

  /** The last event of a verified action was written by a read that showed "cancelled". */
  lemma VerifiedReadAt(h: HashEvent, ops: seq<ActionOp>, id: string) returns (k: nat)
    requires PossibleRun(h, ops) && id in RunActions(h, ops).service.actions && id in RunActions(h, ops).service.events
    requires var log := RunActions(h, ops).service.events[id];
             log != [] && log[|log| - 1].body.eventType == StatusEvent(Verified)
    ensures k < |ops| && ops[k].DoVerify? && ops[k].actionId == id && ops[k].state.Some?
    ensures AttributeValue(ops[k].state.value, "status") == EXPECTED_STATUS
    ensures var log := RunActions(h, ops).service.events[id];
            log[|log| - 1].body.payload == ReadPayload(ReadConfirmed, Some(ops[k].state.value.commitId),
                                                       EXPECTED_STATUS)
  {
    hide RunActions, Perform, AttributeValue, PossibleRun;
    var log := RunActions(h, ops).service.events[id];
    LogIsOfAction(h, ops, id, |log| - 1);
    k := EventAt(h, ops, id, |log| - 1);
    VerifiedEvents(h, RunActions(h, ops[..k]).service, ops[k]);
  }

  lemma LogIsOfAction(h: HashEvent, ops: seq<ActionOp>, id: string, i: nat)
    requires PossibleRun(h, ops) && id in RunActions(h, ops).service.actions && id in RunActions(h, ops).service.events
    requires i < |RunActions(h, ops).service.events[id]|
    ensures RunActions(h, ops).service.events[id][i].body.actionId == id
  {
    hide RunActions, PhaseOf, PossibleRun, Chained, EvaluatePolicy, DecisionTold, IndexesTell, ServiceSound, Ledger;
    ReachableAction(h, ops, id);
  }

  lemma BundleAssurance(fingerprint: Proposal -> string, s: ActionState,
      tenant: string, id: string, commit: Option<Commit>)
    requires Owned(s, tenant, id)
    ensures ProofOf(fingerprint, s, tenant, id, commit).Some?
    ensures var b := ProofOf(fingerprint, s, tenant, id, commit).value;
            && (b.assurance == AssuredVerified <==> s.actions[id].decision.status == Verified)
            && (b.assurance == AssuredAccepted <==>
                  s.actions[id].decision.status != Verified
                      && Latest(EventsOf(s, id), StatusEvent(ProviderAccepted)).Some?)
  {
    hide Latest, VerificationFrom, WarningsFor, ChainOf, PolicyFrom, ActorFrom;
  }

  lemma VerifiedStatusLog(log: seq<Event>)
    requires log != [] && !PhaseOf(log).Broken?
    ensures PhaseOf(log) == Done(Verified) <==> log[|log| - 1].body.eventType == StatusEvent(Verified)
  {
    PhaseSpells(log);
    if log[|log| - 1].body.eventType == StatusEvent(Verified) && |log| > 1 { SplitLastPhase(log); }
  }

  lemma SplitLastPhase(log: seq<Event>)
    requires log != [] && !PhaseOf(log).Broken?
    ensures log[|log| - 1].body.eventType == StatusEvent(Verified) ==> PhaseOf(log) == Done(Verified)
  {
  }

  /**
   Assurance "accepted" means that the provider gave a receipt and the log does not end in `verified`, and conversely.
   */
  lemma AcceptedProofIsSound(h: HashEvent, fingerprint: Proposal -> string, ops: seq<ActionOp>,
      tenant: string, id: string, commit: Option<Commit>)
    requires PossibleRun(h, ops) && Owned(RunActions(h, ops).service, tenant, id)
    ensures var sys := RunActions(h, ops);
            var s := sys.service;
            var b := ProofOf(fingerprint, s, tenant, id, commit).value;
            && id in s.events && s.events[id] != []
            && (b.assurance == AssuredAccepted <==>
                  && KeyOf(s.actions[id]) in Ledger(sys.calls)
                  && s.events[id][|s.events[id]| - 1].body.eventType != StatusEvent(Verified))
  {
    hide RunActions, PhaseOf, ActionSound, ServiceSound, ProofOf, Latest, Ledger;
    var s, booked := RunActions(h, ops).service, Booked(RunActions(h, ops));
    BundleAssurance(fingerprint, s, tenant, id, commit);
    ReachableAction(h, ops, id);
    PhaseByStatus(h, booked, id);
    ReceiptByPhase(h, booked, id);
    VerifiedStatusLog(s.events[id]);
    AcceptanceInLog(s.events[id]);
    LatestShows(s.events[id]);
  }

  lemma ReceiptByPhase(h: HashEvent, s: ActionState, id: string)
    requires id in s.actions && ActionSound(h, s, id)
    ensures id in s.events && s.events[id] != [] && !PhaseOf(s.events[id]).Broken?
    ensures KeyOf(s.actions[id]) in s.executions <==> Executed(PhaseOf(s.events[id]))
  {
    hide PhaseOf, Executed;
  }

  lemma LatestShows(log: seq<Event>)
    ensures Latest(log, StatusEvent(ProviderAccepted)).Some? <==> ShowsAcceptance(log)
  {
    var e := Latest(log, StatusEvent(ProviderAccepted));
    if e.Some? {
      var i :| 0 <= i < |log| && log[i] == e.value;
      assert log[i].body.eventType == StatusEvent(ProviderAccepted);
    }
  }

  // ---------------------------------------------------------------- the other sections

  /** An event of type `t` can only be the one at `i`. */
  ghost predicate OnlyAt(log: seq<Event>, t: EventType, i: nat) {
    forall j | 0 <= j < |log| && log[j].body.eventType == t :: j == i
  }

  /** In a lifecycle log these types come once: the proposal first, the answer of the approver second. */
  ghost predicate Singles(log: seq<Event>, a: nat) {
    && OnlyAt(log, PolicyEvaluated, 0) && OnlyAt(log, StatusEvent(Approved), 1) && OnlyAt(log, StatusEvent(Rejected), 1)
    && OnlyAt(log, StatusEvent(ProviderAccepted), a)
    && FailuresPlaced(log)
  }

  lemma ApprovedRunSingles(log: seq<Event>, a: nat)
    requires ApprovedRun(log)
    ensures Singles(log, a)
  {
  }

  lemma AcceptedRunSingles(log: seq<Event>, a: nat)
    requires AcceptedRun(log, a)
    ensures Singles(log, a)
  {
    ApprovedRunSingles(log[..a], a);
    hide ApprovedRun;
    assert forall j | 0 <= j < a :: log[..a][j] == log[j];
  }

  lemma VerdictSingles(log: seq<Event>, a: nat)
    requires log != [] && IsVerdict(log[|log| - 1]) && Singles(log[..|log| - 1], a)
    ensures Singles(log, a)
  {
    assert forall j | 0 <= j < |log| - 1 :: log[..|log| - 1][j] == log[j];
  }

  lemma LifecycleSingles(log: seq<Event>) returns (a: nat)
    requires log != [] && !PhaseOf(log).Broken?
    ensures Singles(log, a)
  {
    PhaseSpells(log);
    hide PhaseOf, AcceptedRun, Singles;
    a := 0;
    if Accepting(log) {
      a :| AcceptedRun(log, a);
      AcceptedRunSingles(log, a);
    } else if IsVerdict(log[|log| - 1]) && Accepting(log[..|log| - 1]) {
      a :| AcceptedRun(log[..|log| - 1], a);
      AcceptedRunSingles(log[..|log| - 1], a);
      VerdictSingles(log, a);
    } else if ApprovedRun(log) {
      ApprovedRunSingles(log, a);
    } else {
      ShortSingles(log, PhaseOf(log), a);
    }
  }

  lemma ShortSingles(log: seq<Event>, p: Phase, a: nat)
    requires Spells(log, p) && !p.Start? && !p.Broken? && !ApprovedRun(log) && !Accepting(log)
    requires log != [] && !(IsVerdict(log[|log| - 1]) && Accepting(log[..|log| - 1]))
    ensures Singles(log, a)
  {
    assert AcceptedRun(log, |log| - 1) ==> Accepting(log);
    hide AcceptedRun, ApprovedRun, Accepting;
  }

  lemma LatestAt(log: seq<Event>, t: EventType, i: nat)
    requires OnlyAt(log, t, i)
    ensures Latest(log, t) == if i < |log| && log[i].body.eventType == t then Some(log[i]) else None
  {
    var e := Latest(log, t);
    if e.Some? {
      var j :| 0 <= j < |log| && log[j] == e.value;
      assert j == i;
    }
  }

  /** The latest event of a type is the last one. */
  lemma {:induction false} LatestIsLast(log: seq<Event>, i: nat)
    requires LastFailure(log, i)
    ensures Latest(log, StatusEvent(PreconditionFailed)) == Some(log[i])
    decreases |log|
  {
    if i < |log| - 1 {
      assert !IsFailure(log[|log| - 1]);
      LatestIsLast(log[..|log| - 1], i);
    }
  }

  lemma {:induction false} FailureHasLast(log: seq<Event>) returns (i: nat)
    ensures Latest(log, StatusEvent(PreconditionFailed)).Some? ==> LastFailure(log, i)
    decreases |log|
  {
    i := 0;
    if log != [] {
      if IsFailure(log[|log| - 1]) {
        i := |log| - 1;
      } else {
        i := FailureHasLast(log[..|log| - 1]);
      }
    }
  }

  lemma FailureIsWarnedOf(log: seq<Event>, a: nat, status: ActionStatus, proposer: Option<Actor>,
                          approver: Option<Actor>)
    requires Singles(log, a)
    ensures WarnsOfFailure(log, WarningsFor(status, proposer, approver, Latest(log, StatusEvent(PreconditionFailed))))
  {
    var failure := Latest(log, StatusEvent(PreconditionFailed));
    var warnings := WarningsFor(status, proposer, approver, failure);
    var last := FailureHasLast(log);
    hide Latest;
    forall i: nat | LastFailure(log, i)
      ensures FailureWarning(log, i) in warnings
    {
      LatestIsLast(log, i);
      OneFailureWarning(status, proposer, approver, failure);
    }
    if failure.Some? {
      LatestIsLast(log, last);
    }
    OneFailureWarning(status, proposer, approver, failure);
  }

  lemma OneFailureWarning(status: ActionStatus, proposer: Option<Actor>, approver: Option<Actor>,
                          failure: Option<Event>)
    ensures var warnings := WarningsFor(status, proposer, approver, failure);
            forall w: Warning | w.FailedPrecondition? ::
              w in warnings <==>
              failure.Some? && w == FailedPrecondition(
                if failure.value.body.payload.ReasonPayload? then failure.value.body.payload.stage else Lifecycle,
                ReasonIn(failure.value.body.payload))
  {
  }

  /** The event with which the provider's receipt came into the log. */
  lemma ReceiptInLog(log: seq<Event>, a: nat, receipt: Receipt)
    requires Singles(log, a) && HoldsReceipt(log, receipt)
    ensures a < |log| && IsAcceptance(log[a]) && log[a].body.payload.receipt == receipt
  {
    var i :| 0 <= i < |log| && IsAcceptance(log[i]) && log[i].body.payload.receipt == receipt;
    assert i == a;
  }

  /** An approver answered: the second event of the log. */
  predicate Answered(log: seq<Event>) {
    |log| > 1 && (log[1].body.eventType == StatusEvent(Approved) || log[1].body.eventType == StatusEvent(Rejected))
  }

  function ActorAt(e: Event): Actor {
    Actor(e.body.actorRole, ReasonIn(e.body.payload), e.body.eventId, e.hash)
  }

  /**
   What a bundle says of proposer, approver, policy and provider is what happened; `given` are the receipts that were
   given.
   */
  ghost predicate TellsHistory(fingerprint: Proposal -> string, s: ActionState, given: map<Ref, Receipt>, id: string,
                               b: Bundle)
    requires id in s.actions && LogStarts(EventsOf(s, id))
  {
    var a, log := s.actions[id], EventsOf(s, id);
    var d := FirstDecision(log);
    && b.proposal == a.proposal && b.idempotencyKey == a.proposal.idempotencyKey
    && b.status == a.decision.status && b.events == log
    && b.proposer == Some(ActorAt(log[0])) && log[0].body.actorRole == a.proposerRole
    && b.policy == Some(PolicyEvidence(d.status, d.matchedRule, d.reason, d.policyVersion, d.requiredRole))
    && b.approver == (if Answered(log) then Some(ActorAt(log[1])) else None)
    && (KeyOf(a) !in given ==> b.provider.None?)
    && (KeyOf(a) in given ==>
          var r := given[KeyOf(a)];
          b.provider == Some(ProviderEvidence(r.provider, r.providerRequestId, fingerprint(a.proposal),
                                              a.proposal.idempotencyKey, Some(r.status))))
    && (SameRole(a.proposerRole) in b.warnings <==> Answered(log) && log[1].body.actorRole == a.proposerRole)
    && (NotVerified(a.decision.status) in b.warnings <==> a.decision.status != Verified)
    && WarnsOfFailure(log, b.warnings)
    && ShowsAttempts(log, b.verification)
    && b.verificationCommitId == (if b.verification.Some? then b.verification.value.commitId else None)
  }

  predicate IsRead(e: Event) {
    e.body.eventType in {StatusEvent(VerificationPending), StatusEvent(Verified), StatusEvent(VerificationFailed),
                         StatusEvent(StateDiverged)}
  }

  /**
   The verification evidence is that of the last event, if that is one of verification, and counts the events after the
   acceptance; otherwise there is none.
   */
  ghost predicate ShowsAttempts(log: seq<Event>, v: Option<VerificationEvidence>) {
    && log != [] && (v.Some? <==> IsRead(log[|log| - 1]))
    && (v.Some? ==>
          var e := log[|log| - 1].body;
          && e.eventType == StatusEvent(v.value.result)
          && (exists a | 0 <= a < |log| :: IsAcceptance(log[a]) && v.value.attempts == |log| - 1 - a)
          && e.payload.ReadPayload? && v.value.reason == Some(e.payload.reason)
               && v.value.commitId == e.payload.commitId
          && v.value.observedStatus == if e.payload.observedStatus.Str? then Some(e.payload.observedStatus.s) else None)
  }

  /** The bundle shows the commit that it is given, and no other. */
  ghost predicate ShowsCommit(commit: Option<Commit>, delta: Option<ProjectionDelta>) {
    && (commit.Some? <==> delta.Some?)
    && (commit.Some? ==>
          var c, p := commit.value, delta.value;
          && p.commitId == c.body.commitId && p.commitHash == c.hash && p.previousHash == c.body.previousHash
          && p.before == c.body.before && p.after == c.body.after && p.changed == c.body.changed)
  }

  lemma {:induction false} NoTerminals(attempts: seq<Event>)
    requires forall i | 0 <= i < |attempts| :: !IsTerminalAttempt(attempts[i])
    ensures Terminals(attempts) == []
  {
    if attempts != [] { NoTerminals(attempts[..|attempts| - 1]); }
  }

  lemma PendingEvidence(log: seq<Event>, a: nat)
    requires AcceptedRun(log, a)
    ensures ShowsAttempts(log, VerificationFrom(log))
  {
    AcceptedRunAttempts(log, a);
    AttemptsAfterAcceptance(log, a);
    NoTerminals(log[a + 1..]);
    assert a < |log| - 1 ==> IsPending(log[|log| - 1]);
    hide AcceptedRun, Attempts, Terminals;
  }

  lemma VerdictEvidence(log: seq<Event>, a: nat)
    requires log != [] && IsVerdict(log[|log| - 1]) && AcceptedRun(log[..|log| - 1], a)
    ensures ShowsAttempts(log, VerificationFrom(log))
  {
    hide AcceptedRun, Attempts, Terminals;
    var init := log[..|log| - 1];
    AcceptedRunAttempts(init, a);
    VerdictIsAttempt(log[|log| - 1]);
    assert forall i | 0 <= i < |init| :: log[i] == init[i];
    assert IsAcceptance(log[a]);
    AttemptsAfterAcceptance(log, a);
    LastTerminal(log[a + 1..]);
  }

  lemma NoEvidence(log: seq<Event>)
    requires log != [] && forall i | 0 <= i < |log| :: !IsAttempt(log[i])
    ensures ShowsAttempts(log, VerificationFrom(log))
  {
    NoAttempts(log);
    assert !IsAttempt(log[|log| - 1]);
  }

  lemma EvidenceIsShown(log: seq<Event>)
    requires log != [] && !PhaseOf(log).Broken?
    ensures ShowsAttempts(log, VerificationFrom(log))
  {
    PhaseSpells(log);
    hide PhaseOf, AcceptedRun, ShowsAttempts, VerificationFrom;
    if Accepting(log) {
      var a: nat :| AcceptedRun(log, a);
      PendingEvidence(log, a);
    } else if IsVerdict(log[|log| - 1]) && Accepting(log[..|log| - 1]) {
      var a: nat :| AcceptedRun(log[..|log| - 1], a);
      VerdictEvidence(log, a);
    } else {
      EarlyLogsHoldNoAttempt(log, PhaseOf(log));
      NoEvidence(log);
    }
  }

  lemma EarlyLogsHoldNoAttempt(log: seq<Event>, p: Phase)
    requires log != [] && Spells(log, p) && !Accepting(log)
    requires !(IsVerdict(log[|log| - 1]) && Accepting(log[..|log| - 1]))
    ensures forall i | 0 <= i < |log| :: !IsAttempt(log[i])
  {
    assert AcceptedRun(log, |log| - 1) ==> Accepting(log);
    hide AcceptedRun, Accepting;
  }

  ghost predicate IsFailure(e: Event) {
    e.body.eventType == StatusEvent(PreconditionFailed)
  }

  /** The last failed precondition of the log is at `i`. */
  ghost predicate LastFailure(log: seq<Event>, i: nat) {
    i < |log| && IsFailure(log[i]) && forall j | i < j < |log| :: !IsFailure(log[j])
  }

  /** The warning that the event at `i` gives: in the place of the approval it failed then, later at the execution. */
  function FailureWarning(log: seq<Event>, i: nat): Warning
    requires i < |log|
  {
    FailedPrecondition(if i == 1 then Lifecycle else Execution, ReasonIn(log[i].body.payload))
  }

  /** The bundle warns of the last failed precondition, of no other, and of none if there is none. */
  ghost predicate WarnsOfFailure(log: seq<Event>, warnings: seq<Warning>) {
    && (forall i: nat | LastFailure(log, i) :: FailureWarning(log, i) in warnings)
    && (forall w | w in warnings && w.FailedPrecondition? ::
          exists i: nat :: LastFailure(log, i) && w == FailureWarning(log, i))
  }

  /** Where preconditions fail in a lifecycle log, and at which stage. */
  ghost predicate FailuresPlaced(log: seq<Event>) {
    forall i: nat | i < |log| && IsFailure(log[i]) ::
      log[i].body.payload.ReasonPayload? && i >= 1
          && (log[i].body.payload.stage == if i == 1 then Lifecycle else Execution)
  }

  /** The links that a bundle shows are those of the log, each naming the hash before it. */
  ghost predicate ShowsLinkedChain(log: seq<Event>, chain: seq<ChainLink>) {
    && |chain| == |log|
    && (forall i | 0 <= i < |chain| ::
          && chain[i].eventId == log[i].body.eventId && chain[i].eventType == log[i].body.eventType
          && chain[i].hash == log[i].hash)
    && (forall i | 0 < i < |chain| :: chain[i].previousHash == Some(chain[i - 1].hash))
    && (chain != [] ==> chain[0].previousHash == None)
  }

  /**
   After any run, restarts included, the bundle names the proposer, the approver, the policy decision and the receipt
   that the provider gave, and shows a linked chain.
   */
  lemma ProofTellsHistory(h: HashEvent, fingerprint: Proposal -> string, ops: seq<ActionOp>,
      tenant: string, id: string, commit: Option<Commit>)
    requires PossibleRun(h, ops) && Owned(RunActions(h, ops).service, tenant, id)
    ensures var sys := RunActions(h, ops);
            var b := ProofOf(fingerprint, sys.service, tenant, id, commit).value;
            && LogStarts(EventsOf(sys.service, id))
            && TellsHistory(fingerprint, sys.service, Ledger(sys.calls), id, b)
            && ShowsLinkedChain(EventsOf(sys.service, id), b.chain)
            && ShowsCommit(commit, b.projection)
  {
    ShowsGivenCommit(fingerprint, RunActions(h, ops).service, tenant, id, commit);
    hide ShowsCommit;
    hide RunActions, ActionSound, ServiceSound, ProofOf, TellsHistory, Ledger, ShowsLinkedChain, LogStarts;
    ReachableAction(h, ops, id);
    var sys := RunActions(h, ops);
    SoundTellsHistory(h, fingerprint, sys.service, Ledger(sys.calls), tenant, id, commit);
    SoundShowsChain(h, fingerprint, sys.service, Ledger(sys.calls), tenant, id, commit);
  }

  lemma ShowsGivenCommit(fingerprint: Proposal -> string, s: ActionState, tenant: string, id: string,
                         commit: Option<Commit>)
    requires Owned(s, tenant, id)
    ensures ProofOf(fingerprint, s, tenant, id, commit).Some?
    ensures ShowsCommit(commit, ProofOf(fingerprint, s, tenant, id, commit).value.projection)
  {
    hide Latest, VerificationFrom, ChainOf, WarningsFor, ActorFrom, PolicyFrom, ProviderFrom;
  }

  lemma SoundShowsChain(h: HashEvent, fingerprint: Proposal -> string, s: ActionState, given: map<Ref, Receipt>,
      tenant: string, id: string, commit: Option<Commit>)
    requires Owned(s, tenant, id) && ActionSound(h, s.(executions := given), id)
    ensures ProofOf(fingerprint, s, tenant, id, commit).Some?
    ensures ShowsLinkedChain(EventsOf(s, id), ProofOf(fingerprint, s, tenant, id, commit).value.chain)
  {
    LogTellsBasics(h, id, s.actions[id], EventsOf(s, id));
    ChainOfLinked(h, EventsOf(s, id));
    hide LogTells, DecisionTold, IndexesTell, ShowsLinkedChain, Chained, PhaseOf;
    hide Latest, VerificationFrom, WarningsFor, PolicyFrom, ActorFrom, ProviderFrom, ChainOf;
  }

  lemma ChainOfLinked(h: HashEvent, log: seq<Event>)
    requires Chained(h, log)
    ensures ShowsLinkedChain(log, ChainOf(log))
  {
    forall i: nat | i < |log|
      ensures log[i].body.previousHash == HashBefore(log, i)
    {
      assert ChainedAt(h, log, i);
    }
  }

  lemma SoundTellsHistory(h: HashEvent, fingerprint: Proposal -> string, s: ActionState, given: map<Ref, Receipt>,
      tenant: string, id: string, commit: Option<Commit>)
    requires Owned(s, tenant, id) && ActionSound(h, s.(executions := given), id)
    ensures LogStarts(EventsOf(s, id))
    ensures TellsHistory(fingerprint, s, given, id, ProofOf(fingerprint, s, tenant, id, commit).value)
  {
    var a, log := s.actions[id], EventsOf(s, id);
    SectionsOfLog(h, s.(executions := given), id);
    BundleParts(fingerprint, s, tenant, id, commit);
    hide Latest, ActionSound, ProofOf, WarningsFor, WarnsOfFailure, Singles, ShowsAttempts, VerificationFrom;
    var approver := if Answered(log) then Some(ActorAt(log[1])) else None;
    var n: nat :| Singles(log, n);
    FailureIsWarnedOf(log, n, a.decision.status, Some(ActorAt(log[0])), approver);
    WarningsTell(a.proposerRole, a.decision.status, Some(ActorAt(log[0])), approver,
                 Latest(log, StatusEvent(PreconditionFailed)));
  }

  lemma BundleParts(fingerprint: Proposal -> string, s: ActionState, tenant: string, id: string, commit: Option<Commit>)
    requires Owned(s, tenant, id)
    ensures ProofOf(fingerprint, s, tenant, id, commit).Some?
    ensures var b, a, log := ProofOf(fingerprint, s, tenant, id, commit).value, s.actions[id], EventsOf(s, id);
            var approval := Latest(log, StatusEvent(Approved));
            && b.proposal == a.proposal && b.status == a.decision.status && b.events == log
            && b.proposer == ActorFrom(Latest(log, PolicyEvaluated))
                 && b.policy == PolicyFrom(Latest(log, PolicyEvaluated))
            && b.approver == ActorFrom(if approval.Some? then approval else Latest(log, StatusEvent(Rejected)))
            && b.provider == ProviderFrom(fingerprint, a.proposal, Latest(log, StatusEvent(ProviderAccepted)))
            && b.verification == VerificationFrom(log)
            && b.idempotencyKey == a.proposal.idempotencyKey && b.verificationCommitId == CommitIdIn(b.verification)
            && b.warnings == WarningsFor(b.status, b.proposer, b.approver, Latest(log, StatusEvent(PreconditionFailed)))
  {
    hide Latest, VerificationFrom, ChainOf, WarningsFor, DeltaFrom, ActorFrom, PolicyFrom, ProviderFrom;
  }

  /** Where the sections of a bundle come from. */
  lemma SectionsOfLog(h: HashEvent, s: ActionState, id: string)
    requires id in s.actions && ActionSound(h, s, id)
    ensures var a, log := s.actions[id], EventsOf(s, id);
            && LogStarts(log) && log[0].body.actorRole == a.proposerRole
            && (exists n: nat :: Singles(log, n))
            && ShowsAttempts(log, VerificationFrom(log))
            && Latest(log, PolicyEvaluated) == Some(log[0])
            && Answered(log) == (Latest(log, StatusEvent(Approved)).Some? || Latest(log, StatusEvent(Rejected)).Some?)
            && (Latest(log, StatusEvent(Approved)).Some? ==> Latest(log, StatusEvent(Approved)) == Some(log[1]))
            && (Latest(log, StatusEvent(Rejected)).Some? ==> Latest(log, StatusEvent(Rejected)) == Some(log[1]))
            && var accepted := Latest(log, StatusEvent(ProviderAccepted));
            if KeyOf(a) in s.executions then
              accepted.Some? && accepted.value.body.payload == ReceiptPayload(s.executions[KeyOf(a)])
            else accepted.None?
  {
    var a, log := s.actions[id], EventsOf(s, id);
    var accepted := LifecycleSingles(log);
    hide PhaseOf, Latest, Chained, LiveDecision, RestoredDecision, EvaluatePolicy, Executed, HoldsReceipt,
        ShowsAcceptance;
    FirstIsProposal(log);
    EvidenceIsShown(log);
    hide ShowsAttempts, VerificationFrom;
    LatestAt(log, PolicyEvaluated, 0);
    LatestAt(log, StatusEvent(Approved), 1);
    LatestAt(log, StatusEvent(Rejected), 1);
    LatestAt(log, StatusEvent(ProviderAccepted), accepted);
    LatestShows(log);
    AcceptanceInLog(log);
    if KeyOf(a) in s.executions { ReceiptInLog(log, accepted, s.executions[KeyOf(a)]); }
    hide Singles;
  }

  lemma WarningsTell(role: Role, status: ActionStatus, proposer: Option<Actor>, approver: Option<Actor>,
                     failure: Option<Event>)
    requires proposer.Some? && proposer.value.role == role
    ensures var warnings := WarningsFor(status, proposer, approver, failure);
            && (SameRole(role) in warnings <==> approver.Some? && approver.value.role == role)
            && (NotVerified(status) in warnings <==> status != Verified)
  {
  }

  lemma FirstIsProposal(log: seq<Event>)
    requires log != [] && !PhaseOf(log).Broken?
    ensures log[0].body.eventType.PolicyEvaluated? && log[0].body.payload.PolicyPayload?
  {
    LiveStatusIsPhase(log);
    PhaseSpells(log);
    hide PhaseOf;
    if Accepting(log) {
      var a: nat :| AcceptedRun(log, a);
      assert log[..a][0] == log[0];
    } else if IsVerdict(log[|log| - 1]) && Accepting(log[..|log| - 1]) {
      var a: nat :| AcceptedRun(log[..|log| - 1], a);
      assert log[..|log| - 1][..a][0] == log[0];
    }
  }
}

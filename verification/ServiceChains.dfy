/**
 The chains that the two services write are the chains that reality_git/validation.py accepts. `hashOf` is `hash_json`
 on a document; `dump` stands for pydantic's JSON rendering of the values that a record carries.
 */
module ServiceChains {
  import opened JsonValues
  import opened NormalForm
  import opened Chains
  import opened WorldModel
  import opened Lineage
  import opened ActionModel
  import CommitLog
  import ActionRuns
  import ActionSafety

  // ---------------------------------------------------------------- commits

  function ContentOfCommit(dump: Attributes -> Json, b: CommitBody): CommitContent {
    CommitContent(b.commitId, b.entity.tenant, b.parent, b.entity.kind, b.entity.id, b.cause, b.observationIds,
                  dump(b.before), dump(b.after), Dict(map["attributes_changed" := TextList(b.changed)]), b.previousHash)
  }

  /** The hashed document of a commit has a field for everything that the commit says, and no other. */
  lemma CommitDocumentTells(dump: Attributes -> Json, b: CommitBody)
    ensures CommitDocument(ContentOfCommit(dump, b)).Dict?
    ensures var fields := CommitDocument(ContentOfCommit(dump, b)).fields;
            && fields.Keys == {"commit_id", "tenant_id", "parent_commit_id", "entity_type", "entity_id", "cause",
                               "observation_ids", "before", "after", "semantic_diff", "previous_hash"}
            && fields["commit_id"] == Str(b.commitId) && fields["tenant_id"] == Str(b.entity.tenant)
            && fields["entity_type"] == Str(b.entity.kind) && fields["entity_id"] == Str(b.entity.id)
            && fields["cause"] == Str(b.cause) && fields["before"] == dump(b.before) && fields["after"] == dump(b.after)
            && fields["parent_commit_id"] == (if b.parent.Some? then Str(b.parent.value) else Null)
            && fields["previous_hash"] == (if b.previousHash.Some? then Str(b.previousHash.value) else Null)
            && fields["observation_ids"] == TextList(b.observationIds)
            && fields["semantic_diff"] == Dict(map["attributes_changed" := TextList(b.changed)])
  {
    hide TextList;
  }

  function CommitRecords(dump: Attributes -> Json, chain: seq<Commit>): seq<CommitRecord> {
    seq(|chain|, i requires 0 <= i < |chain| =>
      CommitRecord(ContentOfCommit(dump, chain[i].body), chain[i].assuranceLevel, chain[i].hash))
  }

  /** What `_create_commit` hashes is what `validate_commit_chain` hashes again. */
  function CommitHasher(hashOf: HashOf, dump: Attributes -> Json): HashCommit {
    b => hashOf(CommitDocument(ContentOfCommit(dump, b)))
  }

  lemma LinkedChainsValidate(hashOf: HashOf, dump: Attributes -> Json, chain: seq<Commit>)
    requires CommitLog.Linked(CommitHasher(hashOf, dump), chain)
    ensures ValidCommitChain(hashOf, CommitRecords(dump, chain))
  {
    hide CommitDocument;
    var records := CommitRecords(dump, chain);
    var links, hash := CommitLinks(records), (c: CommitContent) => hashOf(CommitDocument(c));
    forall i: nat | i < |links|
      ensures LinkFits(hash, links, i)
    {
      assert CommitLog.LinkedAt(CommitHasher(hashOf, dump), chain, i);
      if i > 0 { assert links[i - 1].hash == chain[i - 1].hash; }
    }
  }

  /** In every state reached by observing and settling, what `list_commits` returns passes `validate_commit_chain`. */
  lemma ListedCommitsValidate(hashOf: HashOf, dump: Attributes -> Json, ops: seq<WorldOp>, tenant: string)
    requires Supplied(CommitHasher(hashOf, dump), ops)
    ensures ValidCommitChain(hashOf, CommitRecords(dump, Listed(Run(CommitHasher(hashOf, dump), ops).world, tenant)))
  {
    CommitLog.ListCommitsIsComplete(CommitHasher(hashOf, dump), ops, tenant);
    LinkedChainsValidate(hashOf, dump, CommitLog.TenantLog(Run(CommitHasher(hashOf, dump), ops).log, tenant));
  }

  /**
   A chain that validates and ends in the hash of the tenant's last commit tells the tenant's history, whoever shows
   it.
   */
  lemma ListedCommitsAreTamperEvident(hashOf: HashOf, dump: Attributes -> Json, ops: seq<WorldOp>, tenant: string,
                                      shown: seq<CommitRecord>)
    requires Injective(hashOf) && Supplied(CommitHasher(hashOf, dump), ops)
    requires var listed := Listed(Run(CommitHasher(hashOf, dump), ops).world, tenant);
             listed != [] && shown != [] && shown[|shown| - 1].hash == listed[|listed| - 1].hash
    ensures var listed := Listed(Run(CommitHasher(hashOf, dump), ops).world, tenant);
            ValidCommitChain(hashOf, shown) <==> SameUpToAssurance(CommitRecords(dump, listed), shown)
  {
    hide CommitDocument, ContentOfCommit, Listed, ValidCommitChain;
    ListedCommitsValidate(hashOf, dump, ops, tenant);
    var records := CommitRecords(dump, Listed(Run(CommitHasher(hashOf, dump), ops).world, tenant));
    hide Run, CommitHasher;
    CommitChainTamperEvident(hashOf, records, shown);
  }

  // ---------------------------------------------------------------- action events

  /** Texts tell roles and event types apart, so nothing of them is lost in the hashed document. */
  lemma TextsTellApart(r: Role, r': Role, t: EventType, t': EventType)
    ensures RoleText(r) == RoleText(r') ==> r == r'
    ensures TypeText(t) == TypeText(t') ==> t == t'
  {
  }

  /** The texts are those of the status names and of the roles that the service writes. */
  lemma TextsAreNames()
    ensures TypeText(PolicyEvaluated) == "policy_evaluated" && TypeText(ApprovalDenied) == "approval_denied"
    ensures TypeText(StatusEvent(Approved)) == "approved" && TypeText(StatusEvent(Rejected)) == "rejected"
    ensures TypeText(StatusEvent(PreconditionFailed)) == "precondition_failed"
    ensures TypeText(StatusEvent(ProviderAccepted)) == "provider_accepted"
    ensures TypeText(StatusEvent(VerificationPending)) == "verification_pending"
    ensures TypeText(StatusEvent(Verified)) == "verified" && TypeText(StatusEvent(StateDiverged)) == "state_diverged"
    ensures TypeText(StatusEvent(VerificationFailed)) == "verification_failed"
    ensures RoleText(Approver) == "approver" && RoleText(Verifier) == "verifier" && RoleText(SystemRole) == "system"
    ensures RoleText(Operations) == "operations" && RoleText(Finance) == "finance" && RoleText(Observer) == "observer"
  {
  }

  function ContentOfEvent(dump: EventPayload -> Json, b: EventBody): EventContent {
    EventContent(b.eventId, b.tenantId, b.actionId, TypeText(b.eventType), RoleText(b.actorRole), dump(b.payload),
                 b.previousHash)
  }

  /** The hashed document of an event has a field for everything that the event says, and no other. */
  lemma EventDocumentTells(dump: EventPayload -> Json, b: EventBody)
    ensures EventDocument(ContentOfEvent(dump, b)).Dict?
    ensures var fields := EventDocument(ContentOfEvent(dump, b)).fields;
            && fields.Keys == {"event_id", "tenant_id", "action_id", "event_type", "actor_role", "payload",
                               "previous_event_hash"}
            && fields["event_id"] == Str(b.eventId) && fields["tenant_id"] == Str(b.tenantId)
            && fields["action_id"] == Str(b.actionId) && fields["event_type"] == Str(TypeText(b.eventType))
            && fields["actor_role"] == Str(RoleText(b.actorRole)) && fields["payload"] == dump(b.payload)
            && fields["previous_event_hash"] == (if b.previousHash.Some? then Str(b.previousHash.value) else Null)
  {
    hide TypeText, RoleText;
  }

  function EventRecords(dump: EventPayload -> Json, log: seq<Event>): seq<EventRecord> {
    seq(|log|, i requires 0 <= i < |log| => EventRecord(ContentOfEvent(dump, log[i].body), log[i].hash))
  }

  function EventHasher(hashOf: HashOf, dump: EventPayload -> Json): HashEvent {
    b => hashOf(EventDocument(ContentOfEvent(dump, b)))
  }

  lemma ChainedLogsValidate(hashOf: HashOf, dump: EventPayload -> Json, log: seq<Event>)
    requires ActionRuns.Chained(EventHasher(hashOf, dump), log)
    ensures ValidEventChain(hashOf, EventRecords(dump, log))
  {
    hide EventDocument, TypeText, RoleText;
    var records := EventRecords(dump, log);
    var links, hash := EventLinks(records), (e: EventContent) => hashOf(EventDocument(e));
    forall i: nat | i < |links|
      ensures LinkFits(hash, links, i)
    {
      assert ActionRuns.ChainedAt(EventHasher(hashOf, dump), log, i);
      if i > 0 { assert links[i - 1].hash == log[i - 1].hash; }
    }
  }

  /** After any run, restarts included, every action's event log passes `validate_event_chain`. */
  lemma EventLogsValidate(hashOf: HashOf, dump: EventPayload -> Json, ops: seq<ActionOp>, id: string)
    requires PossibleRun(EventHasher(hashOf, dump), ops)
    requires id in RunActions(EventHasher(hashOf, dump), ops).service.actions
    ensures var s := RunActions(EventHasher(hashOf, dump), ops).service;
            id in s.events && s.events[id] != [] && ValidEventChain(hashOf, EventRecords(dump, s.events[id]))
  {
    hide RunActions, EventHasher, ActionRuns.Chained, ValidEventChain;
    ActionSafety.LogsSpellLifecycle(EventHasher(hashOf, dump), ops, id);
    ChainedLogsValidate(hashOf, dump, RunActions(EventHasher(hashOf, dump), ops).service.events[id]);
  }

  /** A chain that validates and ends in the hash of the action's last event is the action's log, field by field. */
  lemma EventLogsAreTamperEvident(hashOf: HashOf, dump: EventPayload -> Json, ops: seq<ActionOp>, id: string,
                                  shown: seq<EventRecord>)
    requires Injective(hashOf) && PossibleRun(EventHasher(hashOf, dump), ops)
    requires id in RunActions(EventHasher(hashOf, dump), ops).service.actions
    requires var s := RunActions(EventHasher(hashOf, dump), ops).service;
             id in s.events && s.events[id] != [] && shown != []
                 && shown[|shown| - 1].hash == s.events[id][|s.events[id]| - 1].hash
    ensures var s := RunActions(EventHasher(hashOf, dump), ops).service;
            ValidEventChain(hashOf, shown) <==> shown == EventRecords(dump, s.events[id])
  {
    hide RunActions, EventHasher, ValidEventChain, ContentOfEvent;
    EventLogsValidate(hashOf, dump, ops, id);
    var records := EventRecords(dump, RunActions(EventHasher(hashOf, dump), ops).service.events[id]);
    if ValidEventChain(hashOf, shown) { EventChainTamperEvident(hashOf, shown, records); }
  }
}

/**
 The polling loop of `verify_action` (worker/verifier.py) as a function of what it reads: how often it polls, what it
 writes into the action's log and when it calls the action verified. The class in VerifierWorker.dfy is proved to
 compute exactly this.
 */
module Polling {
  import opened Basics
  import opened JsonValues
  import opened WorldModel
  import opened CrossSource
  import opened ActionModel
  import opened Backoff
  import WorldEffects
  import ActionSafety

  /** The first twelve hex digits of a uuid. */
  type ShortUuid = u: string | |u| == 12 witness "000000000000"

  /** A normalized reading of the order, with the uuid that keeps its observation id distinct. */
  datatype Read = Read(obs: Observation, uuid: ShortUuid, d: Draws)

  /**
   What the loop gets from outside: clock readings, the answers of the source to the reads of an order - none is an
   exception - and event uuids.
   */
  datatype Script = Script(readings: Clock, answers: (string, nat) -> Option<Read>, uuids: nat -> string)

  /** One call of `verify_action`, the world it starts in, and the order that it reads. */
  datatype Job = Job(
    hashCommit: HashCommit, hashEvent: HashEvent, settings: Settings, script: Script, world: World, tenant: string,
    actionId: string, orderId: string)

  datatype PollFailure = ReadFailed | Refused(failure: Failure)

  datatype Polled = Polled(actions: ActionState, result: Result<Decision, PollFailure>, attempts: nat)

  function Distinct(r: Read): Observation {
    r.obs.(id := r.obs.id + "_verify_" + r.uuid)
  }

  function Ingested(h: HashCommit, w: World, tenant: string, r: Read): Outcome<Option<OrderState>> {
    Ingest(h, w, tenant, Distinct(r), "verification", "verified", r.d)
  }

  /** What the source answers to read `k` of the order. */
  function Answer(job: Job, k: nat): Option<Read> { job.script.answers(job.orderId, k) }

  /** The order of the action's target. */
  function TargetOrder(a: ActionState, tenant: string, actionId: string): string {
    if Owned(a, tenant, actionId) then OrderIdOf(a.actions[actionId].proposal.targetEntity) else ""
  }

  /** The world after the first `n` reads. */
  function WorldAfter(job: Job, n: nat): World {
    if n == 0 then job.world
    else
      match Answer(job, n - 1)
      case None => WorldAfter(job, n - 1)
      case Some(r) => Ingested(job.hashCommit, WorldAfter(job, n - 1), job.tenant, r).world
  }

  /** `_ingest_verification_read` of attempt `k`; no result is an exception of the read or of `ingest`. */
  function StateRead(job: Job, k: nat): Option<OrderState> {
    match Answer(job, k)
    case None => None
    case Some(r) => Ingested(job.hashCommit, WorldAfter(job, k), job.tenant, r).result
  }

  /** The effective status that attempt `k` sees. */
  function StatusRead(job: Job, k: nat): Json { ObservedStatus(StateRead(job, k)) }

  predicate Final(job: Job, k: nat) { IsFinal(job.settings, job.script.readings, k) }

  /** The call of `verify` made by attempt `k`. */
  function Attempt(job: Job, a: ActionState, k: nat): Effect<Decision> {
    Verify(job.hashEvent, a, job.tenant, job.actionId, StateRead(job, k), Final(job, k), job.script.uuids(k))
  }

  /** The loop from attempt `k` on. */
  function PollFrom(job: Job, a: ActionState, k: nat): Polled
    requires k < MaxAttempts(job.settings)
    decreases MaxAttempts(job.settings) - k
  {
    if StateRead(job, k).None? then Polled(a, Err(ReadFailed), k + 1)
    else
      var o := Attempt(job, a, k);
      match o.result
      case Err(failure) => Polled(o.state, Err(Refused(failure)), k + 1)
      case Ok(d) =>
        if TerminalVerification(d.status) || Final(job, k) then Polled(o.state, Ok(d), k + 1)
        else PollFrom(job, o.state, k + 1)
  }

  /** `verify_action`. */
  function Poll(job: Job, a: ActionState): Polled {
    if !Owned(a, job.tenant, job.actionId) then Polled(a, Err(Refused(UnknownAction)), 0) else PollFrom(job, a, 0)
  }

  // ---------------------------------------------------------------- one attempt

  /** Attempt `k` ends the polling: it saw the order cancelled, or it was the last. */
  predicate Stops(job: Job, k: nat) {
    StatusRead(job, k) == EXPECTED_STATUS || Final(job, k)
  }

  /** The event of attempt `k` is in the log, `offset` places further on. */
  ghost predicate NotedAt(job: Job, log: seq<Event>, offset: int, k: nat) {
    && 0 <= offset + k < |log|
    && StateRead(job, k).Some?
    && var e := log[offset + k];
    && e.body.eventType == StatusEvent(Verdict(StatusRead(job, k), Final(job, k)))
    && e.body.payload == ReadPayload(VerdictReason(StatusRead(job, k), Final(job, k)),
                                     Some(StateRead(job, k).value.commitId), StatusRead(job, k))
  }

  ghost predicate CanPoll(job: Job, a: ActionState) {
    Owned(a, job.tenant, job.actionId) && Verifiable(a.actions[job.actionId].decision.status)
  }

  /** Nothing but the action's decision and its log differs. */
  ghost predicate OnlyAction(a: ActionState, b: ActionState, id: string) {
    && id in a.actions && id in b.actions
    && b.actions == a.actions[id := a.actions[id].(decision := b.actions[id].decision)]
    && b.events == (if EventsOf(b, id) == EventsOf(a, id) then a.events else a.events[id := EventsOf(b, id)])
    && b.idempotency == a.idempotency && b.executions == a.executions
  }

  lemma AttemptNotes(job: Job, a: ActionState, k: nat)
    requires CanPoll(job, a) && StateRead(job, k).Some?
    ensures var o := Attempt(job, a, k);
            var id, before := job.actionId, EventsOf(a, job.actionId);
            && o.result.Ok?
            && o.result.value.status == Verdict(StatusRead(job, k), Final(job, k))
            && OnlyAction(a, o.state, id)
            && Owned(o.state, job.tenant, id)
            && o.state.actions[id].decision == o.result.value
            && |EventsOf(o.state, id)| == |before| + 1
            && IsPrefix(before, EventsOf(o.state, id))
            && NotedAt(job, EventsOf(o.state, id), |before| - k, k)
  {
    hide ObservedStatus, Verdict, VerdictReason, StateRead, EventId, LastHash, IsFinal;
    var o := Attempt(job, a, k);
    assert EventsOf(o.state, job.actionId)[|EventsOf(a, job.actionId)|] == o.event.value;
  }

  lemma VerdictStops(observed: Json, isFinal: bool)
    ensures TerminalVerification(Verdict(observed, isFinal)) <==> observed == EXPECTED_STATUS || isFinal
    ensures !TerminalVerification(Verdict(observed, isFinal)) <==> Verdict(observed, isFinal) == VerificationPending
    ensures Verdict(observed, isFinal) == Verified <==> observed == EXPECTED_STATUS
    ensures Verdict(observed, isFinal) == VerificationFailed <==> isFinal && observed == Null
  {
  }

  lemma NotedStays(job: Job, log: seq<Event>, later: seq<Event>, offset: int, k: nat)
    requires NotedAt(job, log, offset, k) && IsPrefix(log, later)
    ensures NotedAt(job, later, offset, k)
  {
    hide StateRead, StatusRead, Verdict, VerdictReason, Final;
  }

  // ---------------------------------------------------------------- the loop

  /** How polling from attempt `k` on ends, when it has made `o.attempts` reads in all. */
  ghost predicate Ended(job: Job, a: ActionState, k: nat, o: Polled) {
    var id, last, offset := job.actionId, o.attempts - 1, |EventsOf(a, job.actionId)| - k;
    && k <= last < MaxAttempts(job.settings)
    && (forall j: nat | k <= j < last :: !Stops(job, j) && NotedAt(job, EventsOf(o.actions, id), offset, j))
    && OnlyAction(a, o.actions, id)
    && IsPrefix(EventsOf(a, id), EventsOf(o.actions, id))
    && if StateRead(job, last).None? then
         o.result == Err(ReadFailed) && |EventsOf(o.actions, id)| == offset + last
       else
         && Stops(job, last)
         && NotedAt(job, EventsOf(o.actions, id), offset, last)
         && |EventsOf(o.actions, id)| == offset + last + 1
         && o.result == Ok(o.actions.actions[id].decision)
         && o.result.value.status == Verdict(StatusRead(job, last), Final(job, last))
  }

  lemma {:induction false} PollingFromEnds(job: Job, a: ActionState, k: nat)
    requires k < MaxAttempts(job.settings) && CanPoll(job, a)
    ensures Ended(job, a, k, PollFrom(job, a, k))
    decreases MaxAttempts(job.settings) - k
  {
    hide StateRead, StatusRead, Verdict, Final, Attempt, NotedAt, MaxAttempts;
    var o := PollFrom(job, a, k);
    if StateRead(job, k).Some? {
      AttemptNotes(job, a, k);
      VerdictStops(StatusRead(job, k), Final(job, k));
      if !Stops(job, k) {
        var next := Attempt(job, a, k).state;
        LastIsFinal(job, k);
        PollingFromEnds(job, next, k + 1);
        NotedStays(job, EventsOf(next, job.actionId), EventsOf(o.actions, job.actionId),
                   |EventsOf(a, job.actionId)| - k, k);
        EndedEarlier(job, a, next, k, o);
      }
    } else {
      SameAction(a, job.actionId);
    }
  }

  lemma SameAction(a: ActionState, id: string)
    requires id in a.actions
    ensures OnlyAction(a, a, id)
  {
  }

  lemma LastIsFinal(job: Job, k: nat)
    requires k < MaxAttempts(job.settings) && !Final(job, k)
    ensures k + 1 < MaxAttempts(job.settings)
  {
  }

  lemma EndedEarlier(job: Job, a: ActionState, next: ActionState, k: nat, o: Polled)
    requires Ended(job, next, k + 1, o) && OnlyAction(a, next, job.actionId) && !Stops(job, k)
    requires |EventsOf(next, job.actionId)| == |EventsOf(a, job.actionId)| + 1
    requires IsPrefix(EventsOf(a, job.actionId), EventsOf(next, job.actionId))
    requires NotedAt(job, EventsOf(o.actions, job.actionId), |EventsOf(a, job.actionId)| - k, k)
    ensures Ended(job, a, k, o)
  {
    hide StateRead, StatusRead, Verdict, Final, NotedAt, MaxAttempts, Stops;
  }

  // ---------------------------------------------------------------- the theorems

  ghost predicate HasType(log: seq<Event>, offset: int, k: int, status: ActionStatus) {
    0 <= offset + k < |log| && log[offset + k].body.eventType == StatusEvent(status)
  }

  lemma NotedType(job: Job, log: seq<Event>, offset: int, k: nat)
    requires NotedAt(job, log, offset, k)
    ensures HasType(log, offset, k, Verdict(StatusRead(job, k), Final(job, k)))
  {
    hide StatusRead, Verdict, VerdictReason, Final;
  }

  /** The call made its reads, left one pending event for each but the last, and then a verdict or an exception. */
  ghost predicate Finishes(job: Job, a: ActionState, o: Polled) {
    var before, log, last := EventsOf(a, job.actionId), EventsOf(o.actions, job.actionId), o.attempts - 1;
    && 0 <= last < MaxAttempts(job.settings)
    && IsPrefix(before, log)
    && OnlyAction(a, o.actions, job.actionId)
    && (forall k | 0 <= k < last :: HasType(log, |before|, k, VerificationPending))
    && if StateRead(job, last).None? then o.result == Err(ReadFailed) && |log| == |before| + last
       else
         && o.result == Ok(o.actions.actions[job.actionId].decision)
         && TerminalVerification(o.result.value.status)
         && |log| == |before| + o.attempts
         && HasType(log, |before|, last, o.result.value.status)
         && (o.result.value.status == Verified <==> exists k: nat ::
             k < o.attempts && StatusRead(job, k) == Str("cancelled"))
         && (o.result.value.status == VerificationFailed <==> StatusRead(job, last) == Null)
  }

  /**
   Polling a verifiable action makes at least one read and at most `max(1, max_attempts)`. If no read fails it ends with
   a terminal verdict, with one pending event for every read before the last and one terminal event; the verdict is
   "verified" exactly when some read saw the order cancelled. If a read fails, the reads before it have left their
   pending events and nothing else.
   */
  lemma VerifyActionEnds(job: Job, a: ActionState)
    requires CanPoll(job, a)
    ensures Finishes(job, a, Poll(job, a))
  {
    PollingFromEnds(job, a, 0);
    hide Ended, Finishes, PollFrom, StateRead;
    EndedFinishes(job, a, Poll(job, a));
  }

  lemma EndedFinishes(job: Job, a: ActionState, o: Polled)
    requires Ended(job, a, 0, o)
    ensures Finishes(job, a, o)
  {
    hide StateRead, StatusRead, Verdict, VerdictReason, Final, MaxAttempts, NotedAt, HasType, OnlyAction, EventsOf;
    var before, log, last := EventsOf(a, job.actionId), EventsOf(o.actions, job.actionId), o.attempts - 1;
    forall k: nat | k < last
      ensures HasType(log, |before|, k, VerificationPending)
    {
      assert !Stops(job, k) && NotedAt(job, log, |before|, k);
      NotedType(job, log, |before|, k);
      VerdictStops(StatusRead(job, k), Final(job, k));
    }
    if StateRead(job, last).Some? {
      NotedType(job, log, |before|, last);
      VerdictStops(StatusRead(job, last), Final(job, last));
      forall k: nat | k < last
        ensures StatusRead(job, k) != EXPECTED_STATUS
      {
        assert !Stops(job, k);
      }
    }
  }

  /** The attempt saw the order cancelled, has used up the attempts, or ended at or after the deadline. */
  predicate IsLast(job: Job, k: nat) {
    || StatusRead(job, k) == Str("cancelled")
    || k + 1 >= job.settings.maxAttempts
    || job.script.readings(2 * k + 1) >= job.script.readings(0) + job.settings.timeout
  }

  lemma StopsAtLast(job: Job, k: nat)
    ensures Stops(job, k) <==> IsLast(job, k)
  {
    hide StatusRead;
  }

  /** The number of reads is fixed by the first attempt that fails, sees "cancelled", or is the last. */
  lemma AttemptsAreLeast(job: Job, a: ActionState, k: nat)
    requires CanPoll(job, a) && k < Poll(job, a).attempts
    ensures k == Poll(job, a).attempts - 1 <==> StateRead(job, k).None? || IsLast(job, k)
  {
    PollingFromEnds(job, a, 0);
    StopsAtLast(job, k);
    hide StateRead, StatusRead, Verdict, VerdictReason, Final, MaxAttempts, PollFrom, IsLast;
    var o := Poll(job, a);
    if k < o.attempts - 1 {
      assert !Stops(job, k) && NotedAt(job, EventsOf(o.actions, job.actionId), |EventsOf(a, job.actionId)|, k);
    }
  }

  /** An action that cannot be verified is refused after one read, and left as it is. */
  lemma UnverifiableIsRefused(job: Job, a: ActionState)
    requires Owned(a, job.tenant, job.actionId) && !CanPoll(job, a) && StateRead(job, 0).Some?
    ensures Poll(job, a) == Polled(a, Err(Refused(NotVerifiable)), 1)
  {
    hide StateRead;
  }

  // ---------------------------------------------------------------- timing of a run

  /** The sleeps of a call: one after every attempt but the last. */
  function Sleeps(job: Job, o: Polled): seq<real> {
    Pauses(job.settings, job.script.readings, SleepCount(o))
  }

  function SleepCount(o: Polled): nat { if o.attempts == 0 then 0 else o.attempts - 1 }

  /**
   A call whose clock counts the sleeps sleeps once between reads, never a negative time, and no longer than the
   timeout.
   */
  lemma CallStaysInBudget(job: Job, a: ActionState)
    requires NonNegative(job.settings) && CanPoll(job, a)
    requires Advances(job.settings, job.script.readings, SleepCount(Poll(job, a)))
    ensures |Sleeps(job, Poll(job, a))| == Poll(job, a).attempts - 1
    ensures forall i | 0 <= i < |Sleeps(job, Poll(job, a))| :: Sleeps(job, Poll(job, a))[i] >= 0.0
    ensures Total(Sleeps(job, Poll(job, a))) <= job.settings.timeout
  {
    hide PollFrom, Pauses, Pause, Interval, Total, NonNegative, Advances, OnlyAction, EventsOf, HasType, StateRead,
        StatusRead;
    VerifyActionEnds(job, a);
    hide Poll, CanPoll;
    var n := SleepCount(Poll(job, a));
    PausesAt(job.settings, job.script.readings, n);
    forall i: nat | i < n
      ensures Pauses(job.settings, job.script.readings, n)[i] >= 0.0
    {
      PausesAreNonNegative(job.settings, job.script.readings, i);
    }
    SleepsStayInBudget(job.settings, job.script.readings, n);
  }

  /**
   At most one read of a call begins at or after the deadline, if reads begin no later than the reading after them.
   */
  lemma OneReadAfterDeadline(job: Job, a: ActionState, begun: nat -> real, i: nat, j: nat)
    requires CanPoll(job, a) && i < Poll(job, a).attempts && j < Poll(job, a).attempts
    requires begun(i) <= Checked(job.script.readings, i) && begun(j) <= Checked(job.script.readings, j)
    requires begun(i) >= Deadline(job.settings, job.script.readings)
              && begun(j) >= Deadline(job.settings, job.script.readings)
    ensures i == j == Poll(job, a).attempts - 1
  {
    hide Poll, CanPoll, StateRead, StatusRead, Deadline, Checked;
    LateReadIsLast(job.settings, job.script.readings, i, begun(i));
    LateReadIsLast(job.settings, job.script.readings, j, begun(j));
    StopsAtLast(job, i);
    StopsAtLast(job, j);
    hide IsLast;
    AttemptsAreLeast(job, a, i);
    AttemptsAreLeast(job, a, j);
  }

  // ---------------------------------------------------------------- every read is a new observation

  /** Two reads with different uuids never share an observation id, whatever ids the source gives. */
  lemma ReadsNeverShareIds(r: Read, r': Read)
    ensures r.uuid != r'.uuid ==> Distinct(r).id != Distinct(r').id
  {
    EndsInUuid(r);
    EndsInUuid(r');
  }

  /** The id ends in the uuid. */
  predicate EndsIn(id: string, uuid: ShortUuid) {
    |id| >= 12 && id[|id| - 12..] == uuid
  }

  lemma EndsInUuid(r: Read)
    ensures EndsIn(Distinct(r).id, r.uuid) && Distinct(r).id[|Distinct(r).id| - 12..] == r.uuid
    ensures IsPrefix(r.obs.id + "_verify_", Distinct(r).id)
  {
  }

  /** All but the id is the source's. */
  lemma DistinctKeepsReport(r: Read)
    ensures var obs := Distinct(r);
            && obs.connector == r.obs.connector && obs.kind == r.obs.kind && obs.objectId == r.obs.objectId
            && obs.observedAt == r.obs.observedAt && obs.payload == r.obs.payload
  {
  }

  /** uuid4 never repeats: no observation has the uuid of one of the first `n` reads in its id, and these differ. */
  ghost predicate NewUuids(job: Job, n: nat) {
    && (forall k: nat, p | k < n && Answer(job, k).Some? && p in job.world.observations ::
          !EndsIn(p.id, Answer(job, k).value.uuid))
    && (forall i: nat, k: nat | i < k < n && Answer(job, i).Some? && Answer(job, k).Some? ::
          Answer(job, i).value.uuid != Answer(job, k).value.uuid)
  }

  lemma IngestAddsOne(h: HashCommit, w: World, tenant: string, obs: Observation, cause: string, assurance: string,
                      d: Draws, p: Ref)
    requires p in Ingest(h, w, tenant, obs, cause, assurance, d).world.observations
    ensures p in w.observations || p == Ref(tenant, obs.id)
  {
    hide FoldPayload, Absorb;
    if Ref(tenant, obs.id) !in w.observations {
      WorldEffects.IngestIsExact(h, w, tenant, obs, cause, assurance, d);
      hide Ingest;
    }
  }

  /** The observations after `k` reads are those before the call and those of the reads. */
  lemma {:induction false} ObservationsAfter(job: Job, k: nat, p: Ref)
    requires p in WorldAfter(job, k).observations
    ensures p in job.world.observations
         || exists j: nat :: j < k && Answer(job, j).Some? && p.id == Distinct(Answer(job, j).value).id
  {
    hide Ingest, Distinct, Answer;
    if k > 0 {
      if Answer(job, k - 1).Some? {
        var r := Answer(job, k - 1).value;
        IngestAddsOne(job.hashCommit, WorldAfter(job, k - 1), job.tenant, Distinct(r), "verification", "verified",
                      r.d, p);
      }
      if p in WorldAfter(job, k - 1).observations { ObservationsAfter(job, k - 1, p); }
    }
  }

  /** Every read is new to the world when it is ingested. */
  lemma ReadIsNew(job: Job, k: nat)
    requires NewUuids(job, k + 1) && Answer(job, k).Some?
    ensures Ref(job.tenant, Distinct(Answer(job, k).value).id) !in WorldAfter(job, k).observations
  {
    var r := Answer(job, k).value;
    var p := Ref(job.tenant, Distinct(r).id);
    EndsInUuid(r);
    hide Distinct, WorldAfter, EndsIn;
    assert p !in job.world.observations;
    forall j: nat | j < k && Answer(job, j).Some?
      ensures p.id != Distinct(Answer(job, j).value).id
    {
      ReadsNeverShareIds(Answer(job, j).value, r);
    }
    if p in WorldAfter(job, k).observations { ObservationsAfter(job, k, p); }
  }

  /**
   Every read that is answered is ingested as a new observation of what the source says, under its id and the uuid, with
   cause "verification" and assurance "verified"; the state read is the entity's state afterwards.
   */
  lemma ReadIsIngested(job: Job, k: nat) returns (created: Option<Commit>)
    requires NewUuids(job, k + 1) && Answer(job, k).Some?
    ensures var r := Answer(job, k).value;
            var obs := r.obs.(id := r.obs.id + "_verify_" + r.uuid);
            var entity := EntityKey(job.tenant, r.obs.kind, r.obs.objectId);
            && WorldEffects.Observed(WorldAfter(job, k), WorldAfter(job, k + 1), job.tenant, obs, "verification",
                                     "verified",
                                     r.d, created)
            && entity in WorldAfter(job, k + 1).states
                 && StateRead(job, k) == Some(WorldAfter(job, k + 1).states[entity])
  {
    ReadIsNew(job, k);
    var r, w := Answer(job, k).value, WorldAfter(job, k);
    WorldEffects.IngestIsExact(job.hashCommit, w, job.tenant, Distinct(r), "verification", "verified", r.d);
    hide Ingest, WorldEffects.Observed;
    created := Ingested(job.hashCommit, w, job.tenant, r).created;
  }

  // ---------------------------------------------------------------- one source

  /** The source's answer is of this entity by this connector, and reports the status at `i`. */
  ghost predicate ReportsStatus(job: Job, k: nat, entity: EntityKey, connector: string, i: nat) {
    && Answer(job, k).Some?
    && var obs := Answer(job, k).value.obs;
    && EntityKey(job.tenant, obs.kind, obs.objectId) == entity && obs.connector == connector
    && i < |obs.payload| && obs.payload[i].0 == "status"
  }

  /** A new observation always has a result: the entity's new state. */
  lemma IngestShowsState(h: HashCommit, w: World, tenant: string, obs: Observation, cause: string, assurance: string,
                         d: Draws)
    requires Ref(tenant, obs.id) !in w.observations
    ensures var o := Ingest(h, w, tenant, obs, cause, assurance, d);
            EntityOf(tenant, obs) in o.world.states && o.result == Some(o.world.states[EntityOf(tenant, obs)])
  {
    hide FoldPayload, Diff, NewCommit, Capitalize;
  }

  lemma {:induction false} ReaderKeepsOwning(job: Job, k: nat, entity: EntityKey, connector: string, at: nat -> nat)
    requires OwnedBy(job.world, entity, "status", connector)
    requires forall j: nat | j < k :: ReportsStatus(job, j, entity, connector, at(j))
    ensures OwnedBy(WorldAfter(job, k), entity, "status", connector)
  {
    hide OwnedBy, Ingest;
    if k > 0 {
      ReaderKeepsOwning(job, k - 1, entity, connector, at);
      assert ReportsStatus(job, k - 1, entity, connector, at(k - 1));
      DistinctKeepsReport(Answer(job, k - 1).value);
      ObserveKeepsOwner(job.hashCommit, WorldAfter(job, k - 1), job.tenant, Distinct(Answer(job, k - 1).value),
                        "verification", "verified", Answer(job, k - 1).value.d, "status", connector);
    }
  }

  /** If only the reading connector has written the status, the effective status is what the source answered. */
  lemma SingleSourceStatus(job: Job, k: nat, entity: EntityKey, connector: string, at: nat -> nat)
    requires OwnedBy(job.world, entity, "status", connector) && NewUuids(job, k + 1)
    requires forall j: nat | j < k :: ReportsStatus(job, j, entity, connector, at(j))
    requires ReportsStatus(job, k, entity, connector, at(k))
    ensures StateRead(job, k).Some?
    ensures StatusRead(job, k) == Answer(job, k).value.obs.payload[at(k)].1
  {
    hide OwnedBy, Ingest, NewUuids;
    ReaderKeepsOwning(job, k, entity, connector, at);
    var w, r := WorldAfter(job, k), Answer(job, k).value;
    ReadIsNew(job, k);
    DistinctKeepsReport(r);
    OwnedStatus(w, entity, connector);
    OwnReportIsEffective(job.hashCommit, w, job.tenant, Distinct(r), "verification", "verified", r.d, at(k));
    IngestShowsState(job.hashCommit, w, job.tenant, Distinct(r), "verification", "verified", r.d);
  }

  /** The same, told by the run that led here: since the empty service only the reading connector wrote the status. */
  lemma SoleReaderStatus(job: Job, ops: seq<WorldOp>, k: nat, entity: EntityKey, connector: string, at: nat -> nat)
    requires job.world == Run(job.hashCommit, ops).world && NewUuids(job, k + 1)
    requires forall n | 0 <= n < |ops| ::
               !ForeignWrite(Run(job.hashCommit, ops[..n]).world, ops[n], entity, "status", connector)
    requires forall j: nat | j < k :: ReportsStatus(job, j, entity, connector, at(j))
    requires ReportsStatus(job, k, entity, connector, at(k))
    ensures StateRead(job, k).Some?
    ensures StatusRead(job, k) == Answer(job, k).value.obs.payload[at(k)].1
  {
    hide Run, ForeignWrite, ReportsStatus, StateRead, StatusRead, NewUuids;
    OwnedFromEmpty(job.hashCommit, ops, entity, "status", connector);
    SingleSourceStatus(job, k, entity, connector, at);
  }

  /** The status that the source gave to read `k`. */
  function SourceStatus(job: Job, k: nat, i: nat): Json {
    match Answer(job, k)
    case None => Null
    case Some(r) => if i < |r.obs.payload| then r.obs.payload[i].1 else Null
  }

  /**
   With one source that always reports a status, the action is verified exactly when the source answered "cancelled" to
   one of the reads, and otherwise the verdict is on what it answered last.
   */
  lemma SingleSourceVerdict(job: Job, a: ActionState, entity: EntityKey, connector: string, at: nat -> nat)
    requires CanPoll(job, a) && OwnedBy(job.world, entity, "status", connector)
    requires NewUuids(job, MaxAttempts(job.settings))
    requires forall k: nat | k < MaxAttempts(job.settings) :: ReportsStatus(job, k, entity, connector, at(k))
    ensures var o := Poll(job, a);
            && 1 <= o.attempts <= MaxAttempts(job.settings) && o.result.Ok?
            && (o.result.value.status == Verified <==> exists k: nat ::
                  k < o.attempts && SourceStatus(job, k, at(k)) == Str("cancelled"))
            && (o.result.value.status == VerificationFailed <==>
                  SourceStatus(job, o.attempts - 1, at(o.attempts - 1)) == Null)
  {
    hide Poll, OwnedBy, StateRead, StatusRead, MaxAttempts, CanPoll, OnlyAction, HasType, EventsOf;
    VerifyActionEnds(job, a);
    var o := Poll(job, a);
    forall k: nat | k < o.attempts
      ensures StateRead(job, k).Some? && StatusRead(job, k) == SourceStatus(job, k, at(k))
    {
      assert ReportsStatus(job, k, entity, connector, at(k));
      SingleSourceStatus(job, k, entity, connector, at);
    }
  }

  /** The order that is read is the one that the target names. */
  lemma TargetOrderIsNamed(a: ActionState, tenant: string, actionId: string)
    requires Owned(a, tenant, actionId)
    ensures NamesOrder(a.actions[actionId].proposal.targetEntity, TargetOrder(a, tenant, actionId))
  {
    OrderIsNamed(a.actions[actionId].proposal.targetEntity);
    hide OrderIdOf;
  }

  lemma OwnedStatus(w: World, entity: EntityKey, connector: string)
    requires OwnedBy(w, entity, "status", connector)
    ensures "status" in AttributesOf(w.states, entity) ==>
              AttributesOf(w.states, entity)["status"].connector == Some(connector)
  {
  }

  // ---------------------------------------------------------------- the loop as part of a run

  /** What attempt `k` does to the action service. */
  function PollOp(job: Job, k: nat): ActionOp {
    DoVerify(job.tenant, job.actionId, StateRead(job, k), Final(job, k), job.script.uuids(k))
  }

  function PollOps(job: Job, k: nat, n: nat): seq<ActionOp>
    decreases n
  {
    if n == 0 then [] else [PollOp(job, k)] + PollOps(job, k + 1, n - 1)
  }

  /** The uuid drawn for the event of attempt `j` is new to the service. */
  ghost predicate FreshEvent(job: Job, s: ActionState, j: nat) {
    !SeenEvent(s, EventId(job.script.uuids(j)))
  }

  /** uuid4 never repeats: those of the attempts from `k` on are new and differ. */
  ghost predicate FreshEvents(job: Job, s: ActionState, k: nat) {
    && (forall j: nat | k <= j < MaxAttempts(job.settings) :: FreshEvent(job, s, j))
    && (forall i: nat, j: nat | k <= i < j < MaxAttempts(job.settings) :: job.script.uuids(i) != job.script.uuids(j))
  }

  /** How many of the attempts from `k` on came to the verification of what they read. */
  function Verifications(job: Job, o: Polled, k: nat): int {
    if o.attempts > 0 && StateRead(job, o.attempts - 1).Some? then o.attempts - k else o.attempts - k - 1
  }

  /**
   What the worker does to the action service is a possible run: whatever holds after every run of the service holds
   after the worker has polled. There is one operation per read that succeeded.
   */
  lemma {:induction false} PollingIsRun(job: Job, ops: seq<ActionOp>, k: nat) returns (n: nat)
    requires k < MaxAttempts(job.settings) && PossibleRun(job.hashEvent, ops)
    requires FreshEvents(job, RunActions(job.hashEvent, ops).service, k)
    ensures PossibleRun(job.hashEvent, ops + PollOps(job, k, n))
    ensures var o := PollFrom(job, RunActions(job.hashEvent, ops).service, k);
            && o.actions == RunActions(job.hashEvent, ops + PollOps(job, k, n)).service
            && o.attempts > k && n == Verifications(job, o, k)
    decreases MaxAttempts(job.settings) - k
  {
    hide StateRead, Final, MaxAttempts, Attempt, RunActions, PollOp, PossibleRun, FreshEvents;
    n := 0;
    var a := RunActions(job.hashEvent, ops).service;
    assert ops + [] == ops;
    if StateRead(job, k).Some? {
      var o, next := Attempt(job, a, k), ops + [PollOp(job, k)];
      AttemptIsOp(job, ops, k);
      AttemptIsPossible(job, ops, k);
      n := 1;
      assert PollOps(job, k, 1) == [PollOp(job, k)];
      if o.result.Ok? && !TerminalVerification(o.result.value.status) && !Final(job, k) {
        LastIsFinal(job, k);
        AttemptLeavesFresh(job, a, k);
        var rest := PollingIsRun(job, next, k + 1);
        n := rest + 1;
        assert next + PollOps(job, k + 1, rest) == ops + PollOps(job, k, n);
      }
    }
  }

  lemma AttemptIsOp(job: Job, ops: seq<ActionOp>, k: nat)
    ensures RunActions(job.hashEvent, ops + [PollOp(job, k)]).service
              == Attempt(job, RunActions(job.hashEvent, ops).service, k).state
  {
    hide StateRead, Final, Verify;
    assert (ops + [PollOp(job, k)])[..|ops|] == ops;
  }

  lemma AttemptIsPossible(job: Job, ops: seq<ActionOp>, k: nat)
    requires k < MaxAttempts(job.settings) && PossibleRun(job.hashEvent, ops)
    requires FreshEvents(job, RunActions(job.hashEvent, ops).service, k)
    ensures PossibleRun(job.hashEvent, ops + [PollOp(job, k)])
  {
    hide StateRead, Final, RunActions, SeenEvent, EventId;
    assert (ops + [PollOp(job, k)])[..|ops|] == ops;
    assert FreshEvent(job, RunActions(job.hashEvent, ops).service, k);
  }

  lemma AttemptLeavesFresh(job: Job, a: ActionState, k: nat)
    requires FreshEvents(job, a, k)
    ensures FreshEvents(job, Attempt(job, a, k).state, k + 1)
  {
    hide SeenEvent, Attempt, MaxAttempts;
    forall j: nat | k + 1 <= j < MaxAttempts(job.settings)
      ensures FreshEvent(job, Attempt(job, a, k).state, j)
    {
      assert FreshEvent(job, a, j);
      assert EventId(job.script.uuids(j))[4..] == job.script.uuids(j)
          && EventId(job.script.uuids(k))[4..] == job.script.uuids(k);
      AttemptAddsOneId(job, a, k, EventId(job.script.uuids(j)));
    }
  }

  lemma AttemptAddsOneId(job: Job, a: ActionState, k: nat, eventId: string)
    requires eventId != EventId(job.script.uuids(k))
    ensures SeenEvent(Attempt(job, a, k).state, eventId) ==> SeenEvent(a, eventId)
  {
    hide StateRead, Final, ObservedStatus, Verdict, VerdictReason, EventId, LastHash;
    var next := Attempt(job, a, k).state;
    if SeenEvent(next, eventId) {
      var x :| x in next.events && exists i | 0 <= i < |next.events[x]| :: next.events[x][i].body.eventId == eventId;
      var i :| 0 <= i < |next.events[x]| && next.events[x][i].body.eventId == eventId;
      assert x in a.events && i < |a.events[x]| && a.events[x][i] == next.events[x][i];
    }
  }

  // ---------------------------------------------------------------- the order that is read

  /** What the worker reads for an action is the order that the provider was called for. */
  lemma ReadsTheOrderCalled(h: HashEvent, ops: seq<ActionOp>, c: nat)
    requires PossibleRun(h, ops) && c < |RunActions(h, ops).calls|
    ensures var call := RunActions(h, ops).calls[c];
            TargetOrder(RunActions(h, ops).service, call.tenant, call.actionId) == call.orderId
  {
    hide RunActions, NamesOrder, PossibleRun;
    ActionSafety.CallNamesTarget(h, ops, c);
    var call, s := RunActions(h, ops).calls[c], RunActions(h, ops).service;
    TargetOrderIsNamed(s, call.tenant, call.actionId);
    OneOrderIsNamed(s.actions[call.actionId].proposal.targetEntity, call.orderId,
                    TargetOrder(s, call.tenant, call.actionId));
  }

  lemma OneOrderIsNamed(target: string, a: string, b: string)
    requires NamesOrder(target, a) && NamesOrder(target, b)
    ensures a == b
  {
    if IsPrefix("order:", target) {
      assert target == "order:" + target[6..];
    }
  }
}

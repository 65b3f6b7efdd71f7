/**
 `VerifierWorker` (worker/verifier.py) over the two services, without a session factory: it re-reads the order, ingests
 what it read and compares the effective state with the expected one until there is a verdict.
 */
module VerifierWorker {
  import opened Basics
  import opened WorldModel
  import opened ActionModel
  import opened Backoff
  import opened Polling
  import ActionService
  import WorldStateService

  class Worker {
    const actions: ActionService.Service
    const world: WorldStateService.Service
    const settings: Settings

    constructor (actions: ActionService.Service, world: WorldStateService.Service, settings: Settings)
      ensures this.actions == actions && this.world == world && this.settings == settings
    {
      this.actions, this.world, this.settings := actions, world, settings;
    }

    ghost function JobOf(tenant: string, actionId: string, script: Script): Job
      reads world, actions
    {
      Job(world.hash, actions.hash, settings, script, world.Model(), tenant, actionId,
          TargetOrder(actions.Model(), tenant, actionId))
    }

    /** The ids drawn for the reads are new when they are used. */
    ghost predicate FreshReads(job: Job) {
      forall k: nat | k < MaxAttempts(job.settings) && Answer(job, k).Some? ::
        var r := Answer(job, k).value;
        FreshDraws(WorldAfter(job, k), Observe(job.tenant, Distinct(r), "verification", "verified", r.d))
    }

    /** `_ingest_verification_read`; no result is an exception. */
    method IngestVerificationRead(tenant: string, orderId: string, script: Script, k: nat, ghost job: Job)
      returns (state: Option<OrderState>)
      requires world.Valid() && k < MaxAttempts(job.settings) && FreshReads(job)
      requires world.Model() == WorldAfter(job, k) && world.hash == job.hashCommit
      requires tenant == job.tenant && orderId == job.orderId && script == job.script
      modifies world, world.cells
      ensures world.Valid() && fresh(world.cells - old(world.cells))
      ensures world.Model() == WorldAfter(job, k + 1)
      ensures state == StateRead(job, k)
    {
      hide Ingest, FreshDraws;
      var answer := script.answers(orderId, k);
      if answer.None? {
        return None;
      }
      var read := answer.value;
      state := world.Ingest(tenant, Distinct(read), "verification", "verified", read.d);
    }

    /** Read, ask the clock and verify: one attempt. No verdict is an exception of the read. */
    method TryOnce(tenant: string, actionId: string, orderId: string, script: Script, k: nat, deadline: real,
                   ghost job: Job)
      returns (verdict: Option<Result<Decision, Failure>>, isFinal: bool)
      requires actions.Valid() && world.Valid() && k < MaxAttempts(settings) && FreshReads(job)
      requires world.Model() == WorldAfter(job, k)
      requires job == Job(world.hash, actions.hash, settings, script, job.world, tenant, actionId, orderId)
      requires deadline == Deadline(settings, script.readings)
      modifies actions`stored, actions`events, actions.cells, world, world.cells
      ensures actions.Valid() && world.Valid() && fresh(world.cells - old(world.cells))
      ensures world.Model() == WorldAfter(job, k + 1)
      ensures verdict.None? <==> StateRead(job, k).None?
      ensures isFinal == Final(job, k)
      ensures actions.Model() == if verdict.None? then old(actions.Model())
                else Attempt(job, old(actions.Model()), k).state
      ensures verdict.Some? ==> verdict.value == Attempt(job, old(actions.Model()), k).result
    {
      hide Verify, StateRead, FreshReads, WorldAfter;
      var state := IngestVerificationRead(tenant, orderId, script, k, job);
      var outOfTime := script.readings(2 * k + 1) >= deadline;
      isFinal := k + 1 >= MaxAttempts(settings) || outOfTime;
      if state.None? {
        return None, isFinal;
      }
      var result := actions.Verify(actionId, tenant, state, isFinal, script.uuids(k));
      return Some(result), isFinal;
    }

    /** `verify_action`, with the number of reads it made and the times it slept. */
    method VerifyAction(tenant: string, actionId: string, script: Script)
      returns (result: Result<Decision, PollFailure>, attempts: nat, sleeps: seq<real>)
      requires actions.Valid() && world.Valid() && FreshReads(JobOf(tenant, actionId, script))
      modifies actions`stored, actions`events, actions.cells, world, world.cells
      ensures actions.Valid() && world.Valid() && fresh(world.cells - old(world.cells))
      ensures var job := old(JobOf(tenant, actionId, script));
              var o := Poll(job, old(actions.Model()));
              && actions.Model() == o.actions
              && world.Model() == WorldAfter(job, o.attempts)
              && result == o.result && attempts == o.attempts && sleeps == Sleeps(job, o)
    {
      hide StateRead, FreshReads, PollFrom, WorldAfter, Interval, Remaining, Pauses, Attempt, MaxAttempts, Final,
          Verify, Min, Max, Times;
      hide TerminalVerification, Deadline, TargetOrder, OrderIdOf, ActionService.Service.Valid,
          WorldStateService.Service.Valid, Pause, Owned, Poll;
      ghost var job := JobOf(tenant, actionId, script);
      ghost var start := actions.Model();
      LoopStarts(job, start);
      attempts, sleeps := 0, [];
      var found := actions.Get(tenant, actionId);
      if found.None? {
        return Err(Refused(UnknownAction)), 0, [];
      }
      var orderId := OrderIdOf(found.value.proposal.targetEntity);
      OrderOfTarget(start, tenant, actionId);
      var interval := settings.initialInterval;
      var deadline := script.readings(0) + settings.timeout;
      var decision: Option<Decision> := None;
      for k := 0 to MaxAttempts(settings)
        invariant actions.Valid() && world.Valid() && fresh(world.cells - old(world.cells))
        invariant actions.cells == old(actions.cells)
        invariant k < MaxAttempts(settings)
        invariant Poll(job, start) == PollFrom(job, actions.Model(), k)
        invariant world.Model() == WorldAfter(job, k)
        invariant interval == Interval(settings, script.readings, k)
        invariant sleeps == Pauses(settings, script.readings, k)
      {
        LoopSteps(job, actions.Model(), k);
        attempts := k + 1;
        var verdict, isFinal := TryOnce(tenant, actionId, orderId, script, k, deadline, job);
        if verdict.None? {
          return Err(ReadFailed), attempts, sleeps;
        }
        if verdict.value.Err? {
          return Err(Refused(verdict.value.error)), attempts, sleeps;
        }
        decision := Some(verdict.value.value);
        if TerminalVerification(decision.value.status) || isFinal {
          break;
        }
        interval := Min(interval, Max(0.0, deadline - script.readings(2 * k + 2)));
        sleeps := sleeps + [interval];
        interval := Min(Times(interval, settings.backoffFactor), settings.maxInterval);
      }
      return Ok(decision.value), attempts, sleeps;
    }

    static lemma OrderOfTarget(a: ActionState, tenant: string, actionId: string)
      requires Owned(a, tenant, actionId)
      ensures actionId in a.actions && TargetOrder(a, tenant, actionId)
                == OrderIdOf(a.actions[actionId].proposal.targetEntity)
    {
    }

    static lemma LoopStarts(job: Job, a: ActionState)
      ensures Poll(job, a) == if Owned(a, job.tenant, job.actionId) then PollFrom(job, a, 0)
                              else Polled(a, Err(Refused(UnknownAction)), 0)
      ensures MaxAttempts(job.settings) > 0 && WorldAfter(job, 0) == job.world
      ensures Deadline(job.settings, job.script.readings) == job.script.readings(0) + job.settings.timeout
      ensures Interval(job.settings, job.script.readings, 0) == job.settings.initialInterval
      ensures Pauses(job.settings, job.script.readings, 0) == []
    {
      hide PollFrom;
    }

    /** What one attempt of the loop does to polls, sleeps and interval. */
    static lemma LoopSteps(job: Job, a: ActionState, k: nat)
      requires k < MaxAttempts(job.settings)
      ensures var o, polled := Attempt(job, a, k), PollFrom(job, a, k);
              if StateRead(job, k).None? then polled == Polled(a, Err(ReadFailed), k + 1)
              else
                match o.result
                case Err(failure) => polled == Polled(o.state, Err(Refused(failure)), k + 1)
                case Ok(d) =>
                  if TerminalVerification(d.status) || Final(job, k) then polled == Polled(o.state, Ok(d), k + 1)
                  else k + 1 < MaxAttempts(job.settings) && polled == PollFrom(job, o.state, k + 1)
      ensures var s, readings := job.settings, job.script.readings;
              var pause := Min(Interval(s, readings, k), Max(0.0, Deadline(s, readings) - readings(2 * k + 2)));
              && Pauses(s, readings, k + 1) == Pauses(s, readings, k) + [pause]
              && Interval(s, readings, k + 1) == Min(Times(pause, s.backoffFactor), s.maxInterval)
    {
      hide StateRead, Attempt, Times, Min, Max;
    }
  }
}

/**
 One action's event log (actions/service.py): the lifecycle it spells, the decision it stands for in a running service,
 and the decision that `restore` makes of it.
 */
module ActionLog {
  import opened ActionModel

  // ---------------------------------------------------------------- the lifecycle automaton

  datatype Phase = Start | Waiting | Runnable | Accepted | Polling | Done(status: ActionStatus) | Broken

  predicate AtExecution(e: Event) {
    e.body.eventType == StatusEvent(PreconditionFailed) && e.body.payload.ReasonPayload?
        && e.body.payload.stage.Execution?
  }

  function Next(p: Phase, e: Event): Phase {
    var t := e.body.eventType;
    match p
    case Start =>
      if !t.PolicyEvaluated? || !e.body.payload.PolicyPayload? then Broken
      else if e.body.payload.decision.status == Denied then Done(Denied)
      else if e.body.payload.decision.status == ApprovalRequired then Waiting
      else Broken
    case Waiting =>
      if !e.body.payload.ReasonPayload? then Broken
      else if t == StatusEvent(Approved) then Runnable
      else if t == StatusEvent(Rejected) then Done(Rejected)
      else if t == ApprovalDenied then Done(Denied)
      else if t == StatusEvent(PreconditionFailed) && !AtExecution(e) then Done(PreconditionFailed)
      else Broken
    case Runnable =>
      if AtExecution(e) then Runnable
      else if t == StatusEvent(ProviderAccepted) && e.body.payload.ReceiptPayload? then Accepted
      else Broken
    case Accepted => Polled(e)
    case Polling => Polled(e)
    case _ => Broken
  }

  function Polled(e: Event): Phase {
    var t := e.body.eventType;
    if !e.body.payload.ReadPayload? || !t.StatusEvent? then Broken
    else if t.status == VerificationPending then Polling
    else if TerminalVerification(t.status) then Done(t.status)
    else Broken
  }

  function PhaseOf(log: seq<Event>): Phase {
    if log == [] then Start else Next(PhaseOf(log[..|log| - 1]), log[|log| - 1])
  }

  lemma PhaseSnoc(log: seq<Event>, e: Event)
    ensures PhaseOf(log + [e]) == Next(PhaseOf(log), e)
  {
    assert (log + [e])[..|log|] == log;
  }

  /** The status a running service shows for an action in a phase. */
  function StatusOf(p: Phase): ActionStatus
    requires !p.Start? && !p.Broken?
  {
    match p
    case Waiting => ApprovalRequired
    case Runnable => Approved
    case Accepted => ProviderAccepted
    case Polling => VerificationPending
    case Done(status) => status
  }

  // ---------------------------------------------------------------- the lifecycle language

  predicate IsPolicy(e: Event, status: ActionStatus) {
    e.body.eventType.PolicyEvaluated? && e.body.payload.PolicyPayload? && e.body.payload.decision.status == status
  }

  predicate IsRefusal(e: Event) {
    && e.body.payload.ReasonPayload?
    && (e.body.eventType == StatusEvent(Rejected) || e.body.eventType == ApprovalDenied
        || (e.body.eventType == StatusEvent(PreconditionFailed) && !AtExecution(e)))
  }

  predicate IsApproval(e: Event) {
    e.body.eventType == StatusEvent(Approved) && e.body.payload.ReasonPayload?
  }

  predicate IsAcceptance(e: Event) {
    e.body.eventType == StatusEvent(ProviderAccepted) && e.body.payload.ReceiptPayload?
  }

  predicate IsPending(e: Event) {
    e.body.eventType == StatusEvent(VerificationPending) && e.body.payload.ReadPayload?
  }

  predicate IsVerdict(e: Event) {
    e.body.eventType.StatusEvent? && TerminalVerification(e.body.eventType.status) && e.body.payload.ReadPayload?
  }

  /** approved precondition_failed* */
  ghost predicate ApprovedRun(log: seq<Event>) {
    |log| >= 2 && IsPolicy(log[0], ApprovalRequired) && IsApproval(log[1]) && forall i | 2 <= i < |log| ::
        AtExecution(log[i])
  }

  /** approved precondition_failed* provider_accepted verification_pending*, accepted at index `a` */
  ghost predicate AcceptedRun(log: seq<Event>, a: nat) {
    a < |log| && ApprovedRun(log[..a]) && IsAcceptance(log[a]) && forall i | a < i < |log| :: IsPending(log[i])
  }

  ghost predicate Accepting(log: seq<Event>) {
    exists a: nat :: AcceptedRun(log, a)
  }

  /**
   `policy_evaluated` alone, or followed by one refusal, or by an approved run that may go on to acceptance, polling
   and a verdict.
   */
  ghost predicate InLanguage(log: seq<Event>) {
    || (|log| == 1 && (IsPolicy(log[0], Denied) || IsPolicy(log[0], ApprovalRequired)))
    || (|log| == 2 && IsPolicy(log[0], ApprovalRequired) && IsRefusal(log[1]))
    || ApprovedRun(log)
    || Accepting(log)
    || (|log| > 0 && IsVerdict(log[|log| - 1]) && Accepting(log[..|log| - 1]))
  }

  /** What each phase says about the log, exactly. */
  ghost predicate Spells(log: seq<Event>, p: Phase) {
    match p
    case Start => log == []
    case Waiting => |log| == 1 && IsPolicy(log[0], ApprovalRequired)
    case Runnable => ApprovedRun(log)
    case Accepted => |log| > 0 && AcceptedRun(log, |log| - 1)
    case Polling => |log| > 0 && IsPending(log[|log| - 1]) && Accepting(log)
    case Done(status) =>
      || (|log| == 1 && IsPolicy(log[0], Denied) && status == Denied)
      || (|log| == 2 && IsPolicy(log[0], ApprovalRequired) && IsRefusal(log[1])
          && status == (if log[1].body.eventType == ApprovalDenied then Denied else log[1].body.eventType.status))
      || (|log| > 0 && IsVerdict(log[|log| - 1]) && status == log[|log| - 1].body.eventType.status
          && Accepting(log[..|log| - 1]))
    case Broken => false
  }

  lemma {:induction false} PhaseSpells(log: seq<Event>)
    requires !PhaseOf(log).Broken?
    ensures Spells(log, PhaseOf(log))
  {
    if log != [] {
      var init, last := log[..|log| - 1], log[|log| - 1];
      PhaseSpells(init);
      StepSpells(init, last);
      assert init + [last] == log;
    }
  }

  lemma StepSpells(init: seq<Event>, e: Event)
    requires !PhaseOf(init).Broken? && Spells(init, PhaseOf(init)) && !Next(PhaseOf(init), e).Broken?
    ensures Spells(init + [e], Next(PhaseOf(init), e))
  {
    hide PhaseOf;
    var p, log := PhaseOf(init), init + [e];
    assert log[..|init|] == init && log[|init|] == e;
    match p
    case Accepted => assert AcceptedRun(init, |init| - 1); PollSpells(init, e, |init| - 1);
    case Polling => var a: nat :| AcceptedRun(init, a); PollSpells(init, e, a);
    case _ =>
  }

  lemma PollSpells(init: seq<Event>, e: Event, a: nat)
    requires AcceptedRun(init, a)
    ensures IsPending(e) ==> AcceptedRun(init + [e], a)
    ensures (init + [e])[..|init|] == init
  {
    var log := init + [e];
    assert log[..a] == init[..a];
    assert forall i | a < i < |init| :: log[i] == init[i];
  }

  // ------------------------------------------------------------ the language is accepted

  lemma {:induction false} ApprovedRunAccepted(log: seq<Event>)
    requires ApprovedRun(log)
    ensures PhaseOf(log) == Runnable
    decreases |log|
  {
    var init, last := log[..|log| - 1], log[|log| - 1];
    if |log| == 2 {
      assert init[..0] == [];
      assert PhaseOf(init) == Next(Start, log[0]);
    } else {
      assert ApprovedRun(init) by { assert forall i | 0 <= i < |init| :: init[i] == log[i]; }
      ApprovedRunAccepted(init);
    }
  }

  lemma {:induction false} AcceptedRunAccepted(log: seq<Event>, a: nat)
    requires AcceptedRun(log, a)
    ensures PhaseOf(log) == if a == |log| - 1 then Accepted else Polling
    decreases |log|
  {
    var init, last := log[..|log| - 1], log[|log| - 1];
    if a == |log| - 1 {
      ApprovedRunAccepted(init);
    } else {
      assert AcceptedRun(init, a) by {
        assert init[..a] == log[..a];
        assert forall i | 0 <= i < |init| :: init[i] == log[i];
      }
      AcceptedRunAccepted(init, a);
    }
  }

  /** The automaton accepts exactly the lifecycle language. */
  lemma AutomatonIsLanguage(log: seq<Event>)
    ensures !PhaseOf(log).Broken? && !PhaseOf(log).Start? <==> InLanguage(log)
  {
    if !PhaseOf(log).Broken? {
      PhaseSpells(log);
    }
    if InLanguage(log) {
      LanguageAccepted(log);
    }
  }

  lemma LanguageAccepted(log: seq<Event>)
    requires InLanguage(log)
    ensures !PhaseOf(log).Broken? && !PhaseOf(log).Start?
  {
    var init, last := log[..|log| - 1], log[|log| - 1];
    if |log| <= 2 && IsPolicy(log[0], ApprovalRequired) {
      assert log[..1][..0] == [];
      assert PhaseOf(log[..1]) == Next(Start, log[0]);
      assert |log| == 1 ==> log[..1] == log;
    }
    if ApprovedRun(log) {
      ApprovedRunAccepted(log);
    } else if a: nat :| AcceptedRun(log, a) {
      AcceptedRunAccepted(log, a);
    } else if IsVerdict(last) && Accepting(init) {
      var a: nat :| AcceptedRun(init, a);
      AcceptedRunAccepted(init, a);
    }
  }

  /** An ended log accepts no further event. */
  lemma EndedLogsDoNotGrow(log: seq<Event>, e: Event)
    requires PhaseOf(log).Done?
    ensures !InLanguage(log + [e])
  {
    PhaseSnoc(log, e);
    AutomatonIsLanguage(log + [e]);
  }

  // ---------------------------------------------------------------- the decision a log stands for

  /** What the running service does to a decision when it appends `e`. */
  function LiveUpdate(d: Decision, e: Event): Decision {
    if AtExecution(e) then d
    else if e.body.eventType == StatusEvent(ProviderAccepted) then
        d.(status := ProviderAccepted, reason := WriteAccepted)
    else RestoreUpdate(d, e)
  }

  function FirstDecision(log: seq<Event>): Decision
    requires log != [] && log[0].body.payload.PolicyPayload?
  {
    log[0].body.payload.decision
  }

  function LiveDecision(log: seq<Event>): Decision
    requires log != [] && log[0].body.payload.PolicyPayload?
  {
    if |log| == 1 then FirstDecision(log) else LiveUpdate(LiveDecision(log[..|log| - 1]), log[|log| - 1])
  }

  function RestoredDecision(log: seq<Event>): Decision
    requires log != [] && log[0].body.payload.PolicyPayload?
  {
    if |log| == 1 then FirstDecision(log) else RestoreUpdate(RestoredDecision(log[..|log| - 1]), log[|log| - 1])
  }

  /** The decisions may differ in status and reason only. */
  predicate SameFrame(d: Decision, d': Decision) {
    d.(status := d'.status, reason := d'.reason) == d'
  }

  lemma {:induction false} SameFrames(log: seq<Event>)
    requires log != [] && log[0].body.payload.PolicyPayload?
    ensures SameFrame(LiveDecision(log), FirstDecision(log))
    ensures SameFrame(RestoredDecision(log), FirstDecision(log))
  {
    if |log| > 1 {
      assert log[..|log| - 1][0] == log[0];
      SameFrames(log[..|log| - 1]);
    }
  }

  /** The running service shows the automaton's status. */
  lemma {:induction false} LiveStatusIsPhase(log: seq<Event>)
    requires !PhaseOf(log).Broken? && log != []
    ensures log[0].body.payload.PolicyPayload?
    ensures LiveDecision(log).status == StatusOf(PhaseOf(log))
  {
    var init, last := log[..|log| - 1], log[|log| - 1];
    if |log| == 1 {
      assert init == [];
    } else {
      LiveStatusIsPhase(init);
      assert init[0] == log[0];
      assert !PhaseOf(init).Broken?;
    }
  }

  /** One event applied to two decisions that agree up to status and reason. */
  lemma UpdatesAgree(p: Phase, live: Decision, restored: Decision, e: Event)
    requires !p.Start? && !Next(p, e).Broken? && SameFrame(live, restored)
    ensures AtExecution(e) ==> LiveUpdate(live, e) == live && RestoreUpdate(restored, e).status == PreconditionFailed
    ensures !AtExecution(e) && !IsAcceptance(e) ==> RestoreUpdate(restored, e) == LiveUpdate(live, e)
    ensures IsAcceptance(e) ==>
              RestoreUpdate(restored, e) == LiveUpdate(live, e).(reason := NamedByType(StatusEvent(ProviderAccepted)))
  {
  }

  /**
   Where a restored log ends in a different decision: nowhere but after an execution-stage failure or an acceptance.
   */
  lemma RestoredVersusLive(log: seq<Event>)
    requires log != [] && !PhaseOf(log).Broken?
    ensures log[0].body.payload.PolicyPayload?
    ensures var last := log[|log| - 1];
            && (AtExecution(last) ==>
                  LiveDecision(log).status == Approved && RestoredDecision(log).status == PreconditionFailed)
            && (!AtExecution(last) ==> RestoredDecision(log).status == LiveDecision(log).status)
            && (!AtExecution(last) && !IsAcceptance(last) ==> RestoredDecision(log) == LiveDecision(log))
            && (IsAcceptance(last) ==>
                RestoredDecision(log) == LiveDecision(log).(reason := NamedByType(StatusEvent(ProviderAccepted))))
  {
    hide Next, LiveUpdate, RestoreUpdate, SameFrame, AtExecution, IsAcceptance, LiveDecision, RestoredDecision, PhaseOf;
    LiveStatusIsPhase(log);
    var init, last := log[..|log| - 1], log[|log| - 1];
    if |log| == 1 {
      FirstIsPolicy(log);
    } else {
      SplitLast(log);
      SameFrames(init);
      SameFrameMeets(LiveDecision(init), RestoredDecision(init), FirstDecision(init));
      UpdatesAgree(PhaseOf(init), LiveDecision(init), RestoredDecision(init), last);
      ExecutionFailureMeansApproved(log);
    }
  }

  lemma FirstIsPolicy(log: seq<Event>)
    requires |log| == 1 && !PhaseOf(log).Broken?
    ensures log[0].body.payload.PolicyPayload? && !AtExecution(log[0]) && !IsAcceptance(log[0])
    ensures LiveDecision(log) == RestoredDecision(log)
  {
    assert log[..0] == [];
  }

  lemma SplitLast(log: seq<Event>)
    requires |log| > 1 && log[0].body.payload.PolicyPayload?
    ensures var init, last := log[..|log| - 1], log[|log| - 1];
            && init[0] == log[0]
            && LiveDecision(log) == LiveUpdate(LiveDecision(init), last)
            && RestoredDecision(log) == RestoreUpdate(RestoredDecision(init), last)
            && PhaseOf(log) == Next(PhaseOf(init), last)
            && !PhaseOf(init).Start?
  {
    hide LiveUpdate, RestoreUpdate;
  }

  lemma PhaseAfterFirst(log: seq<Event>)
    requires log != []
    ensures !PhaseOf(log).Start?
  {
  }

  lemma SameFrameMeets(a: Decision, b: Decision, first: Decision)
    requires SameFrame(a, first) && SameFrame(b, first)
    ensures SameFrame(a, b)
  {
  }

  lemma ExecutionFailureMeansApproved(log: seq<Event>)
    requires |log| > 1 && !PhaseOf(log).Broken?
    ensures AtExecution(log[|log| - 1]) ==> StatusOf(PhaseOf(log)) == Approved
  {
    PhaseSpells(log);
  }
}

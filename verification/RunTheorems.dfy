/** In which order a run completes its activities, how it ends, and what it has announced by then. */
module RunTheorems {
  import opened Prelude
  import opened DecimalContext
  import BA = BudgetActivities
  import opened ApprovalWorkflow
  import WT = WorkflowTheorems
  import LT = LifecycleTheorems

  // ----- the order of activities -----

  /** An attempt moved the run from `s` to `t`, so its activity completed. */
  predicate Completion(s: State, e: Event, t: State) {
    e.Attempt? && t.pc != s.pc
  }

  /** The activities a run has completed, in order. */
  function Completed(inp: Input, events: seq<Event>): seq<Pc> {
    if events == [] then []
    else
      var n := |events| - 1;
      var s, t := Exec(inp, events[..n]), Exec(inp, events);
      Completed(inp, events[..n]) + if Completion(s, events[n], t) then [s.pc] else []
  }

  const STAGES: seq<Pc> := [InStage(PrePIIScrub), InStage(PolicyEval), InStage(JITTokenIssue)]

  /** The approval of tasks above 50.00. */
  function ApprovalPart(inp: Input): seq<Pc> {
    if inp.projectedSpend > 50.0 then [AnnouncePending, AnnounceDecision] else []
  }

  function GuardPart(inp: Input): seq<Pc> {
    if inp.budget.Some? then [BudgetCheck] else []
  }

  function DebitPart(inp: Input): seq<Pc> {
    if inp.budget.Some? then [RecordSpend] else []
  }

  /** All that precedes the LLM call. */
  function BeforeLlm(inp: Input): seq<Pc> {
    STAGES + ApprovalPart(inp) + GuardPart(inp)
  }

  /** What is complete when a run awaits `pc`, or has ended so. */
  function Behind(inp: Input, pc: Pc): seq<Pc> {
    match pc
    case NotStarted => []
    case InStage(PrePIIScrub) => []
    case InStage(PolicyEval) => [InStage(PrePIIScrub)]
    case InStage(JITTokenIssue) => [InStage(PrePIIScrub), InStage(PolicyEval)]
    case AnnouncePending => STAGES
    case WaitDecision => STAGES + [AnnouncePending]
    case AnnounceDecision => STAGES + [AnnouncePending]
    case AnnounceTimeout => STAGES + [AnnouncePending]
    case BudgetCheck => STAGES + ApprovalPart(inp)
    case Llm => BeforeLlm(inp)
    case AnnounceFailure(_) => BeforeLlm(inp)
    case AnnounceHitl => BeforeLlm(inp)
    case RecordSpend => BeforeLlm(inp) + [Llm]
    case PostSanitize => BeforeLlm(inp) + [Llm] + DebitPart(inp)
    case Returned(out) =>
      if out.status == ApprovalWorkflow.Completed then BeforeLlm(inp) + [Llm] + DebitPart(inp) + [PostSanitize]
      else if out.status == DeniedStatus then STAGES + [AnnouncePending] + [AnnounceDecision]
      else STAGES + [AnnouncePending] + [AnnounceTimeout]
    case Raised(Refused(cause)) => BeforeLlm(inp) + [AnnounceFailure(cause)]
    case Raised(HitlEscalation) => BeforeLlm(inp) + [AnnounceHitl]
    case Raised(ActivityFailed) => []
  }

  /** A run that raised because an activity gave up has the activities before that one behind it. */
  ghost predicate InOrder(inp: Input, done: seq<Pc>, pc: Pc) {
    if pc == Raised(ActivityFailed) then exists at :: IsActivity(at) && done == Behind(inp, at)
    else done == Behind(inp, pc)
  }

  /** Where a run can be, given what it was asked. */
  predicate Placed(inp: Input, s: State) {
    && (s.pc == BudgetCheck || s.pc == RecordSpend ==> inp.budget.Some?)
    && (s.pc == AnnouncePending || s.pc == WaitDecision || s.pc == AnnounceDecision || s.pc == AnnounceTimeout ==>
          inp.projectedSpend > 50.0)
    && (s.pc == AnnounceDecision ==>
          s.signal.Some? &&
          if s.signal.value.approved then s.approval == Approved && s.status == Running
          else s.approval == Denied && s.status == DeniedStatus)
    && (s.pc == AnnounceTimeout ==> s.status == TimedOutStatus)
    && (s.pc.Returned? ==>
          s.pc.out.status == ApprovalWorkflow.Completed || s.pc.out.status == DeniedStatus ||
          s.pc.out.status == TimedOutStatus)
  }

  lemma {:induction false} AdvancePlaces(inp: Input, s: State, a: Answer, now: real)
    requires Placed(inp, s) && Fits(inp, s, a) && s.attempt > 0 && IsActivity(s.pc)
    ensures var t := Advance(inp, s, a, now);
            t.pc != s.pc && Placed(inp, t) && Behind(inp, t.pc) == Behind(inp, s.pc) + [s.pc]
  {
    hide RecordOf, PreCheckOf;
  }

  lemma {:induction false} AttemptPlaces(inp: Input, s: State, e: Event)
    requires Placed(inp, s) && e.Attempt? && IsActivity(s.pc)
    ensures var t := OnAttempt(inp, s, e);
            && Placed(inp, t)
            && Behind(inp, t.pc) == Behind(inp, s.pc) + (if Completion(s, e, t) then [s.pc] else [])
            && t.pc != Raised(ActivityFailed)
  {
    var t := Attempted(inp, s, e.emits);
    WT.AttemptedFrame(inp, s, e.emits);
    assert Placed(inp, t);
    assert Behind(inp, s.pc) + [] == Behind(inp, s.pc);
    if Completes(inp, s, e) {
      AdvancePlaces(inp, t, e.answer.value, e.now);
      AdvanceNeverFails(inp, t, e.answer.value, e.now);
    }
    hide Advance, Attempted, Fits, EmittedBy, Behind, Placed;
  }

  lemma {:induction false} AdvanceNeverFails(inp: Input, s: State, a: Answer, now: real)
    requires Fits(inp, s, a) && s.attempt > 0 && IsActivity(s.pc)
    ensures Advance(inp, s, a, now).pc != Raised(ActivityFailed)
  {
    hide RecordOf, PreCheckOf;
  }

  lemma {:induction false} StepPlaces(inp: Input, s: State, e: Event)
    requires Placed(inp, s) && !e.Attempt?
    ensures var t := Step(inp, s, e);
            && Placed(inp, t)
            && (t.pc != Raised(ActivityFailed) ==> Behind(inp, t.pc) == Behind(inp, s.pc))
            && (t.pc == Raised(ActivityFailed) && s.pc != t.pc ==> IsActivity(s.pc))
  {
  }

  /** In every run activities complete in the documented order and none is skipped: the three stages,
      above 50.00 the announcement and the decision, with a budget its check, then the LLM call, with a
      budget the debit, and the post-sanitizer. */
  lemma {:induction false} ActivitiesAreInOrder(inp: Input, events: seq<Event>)
    ensures Placed(inp, Exec(inp, events)) && InOrder(inp, Completed(inp, events), Exec(inp, events).pc)
  {
    if events != [] {
      var n := |events| - 1;
      ActivitiesAreInOrder(inp, events[..n]);
      var s, e, t := Exec(inp, events[..n]), events[n], Exec(inp, events);
      var done := Completed(inp, events[..n]);
      assert done + [] == done;
      if e.Attempt? {
        if IsActivity(s.pc) && s.attempt < MaxAttempts(s.pc) { AttemptPlaces(inp, s, e); }
        hide OnAttempt;
      } else {
        StepPlaces(inp, s, e);
        hide Step;
      }
      hide Behind, Placed, MaxAttempts;
      assert InOrder(inp, Completed(inp, events), t.pc);
    }
  }

  // ----- before the LLM is called -----

  lemma {:induction false} CompletedHasEvent(inp: Input, events: seq<Event>, x: Pc)
    requires x in Completed(inp, events)
    ensures exists c: nat :: CompletesAt(inp, events, c, x)
  {
    var n := |events| - 1;
    if x in Completed(inp, events[..n]) {
      CompletedHasEvent(inp, events[..n], x);
      var c: nat :| CompletesAt(inp, events[..n], c, x);
      assert events[..n][..c] == events[..c] && events[..n][..c + 1] == events[..c + 1];
      assert CompletesAt(inp, events, c, x);
    } else {
      assert events[..n + 1] == events;
      assert CompletesAt(inp, events, n, x);
    }
  }

  /** The run was awaiting `x` at event `c`, which completed it. */
  predicate CompletesAt(inp: Input, events: seq<Event>, c: nat, x: Pc) {
    && c < |events| && events[c].Attempt?
    && Exec(inp, events[..c]).pc == x && Exec(inp, events[..c + 1]).pc != x
  }

  /** An attempt logs itself if it is one of the LLM, and what follows logs no attempt. */
  lemma {:induction false} AttemptAttemptsLlm(inp: Input, s: State, e: Event)
    requires e.Attempt?
    ensures var t := OnAttempt(inp, s, e);
            && s.log <= t.log
            && forall i :: |s.log| <= i < |t.log| && t.log[i].LlmAttempt? ==> s.pc == Llm && i == |s.log|
  {
    var t := Attempted(inp, s, e.emits);
    WT.AttemptedFrame(inp, s, e.emits);
    assert t.log == s.log || (s.pc == Llm && |t.log| == |s.log| + 1 && s.log <= t.log);
    if Completes(inp, s, e) { AdvanceAttemptsNothing(inp, t, e.answer.value, e.now); }
    hide Advance, Attempted, Fits, EmittedBy;
  }

  lemma {:induction false} AdvanceAttemptsNothing(inp: Input, s: State, a: Answer, now: real)
    requires Fits(inp, s, a) && s.attempt > 0
    ensures var t := Advance(inp, s, a, now);
            s.log <= t.log && forall i :: |s.log| <= i < |t.log| ==> !t.log[i].LlmAttempt?
  {
    hide RecordOf, PreCheckOf;
  }

  lemma {:induction false} StepAttemptsLlm(inp: Input, s: State, e: Event)
    ensures var t := Step(inp, s, e);
            && s.log <= t.log
            && forall i :: |s.log| <= i < |t.log| && t.log[i].LlmAttempt? ==> s.pc == Llm && e.Attempt? && i == |s.log|
  {
    if e.Attempt? { AttemptAttemptsLlm(inp, s, e); }
    hide OnAttempt;
  }

  /** The event that made the LLM attempt at log position `i`. */
  lemma {:induction false} AttemptHasEvent(inp: Input, events: seq<Event>, i: nat) returns (e: nat)
    requires i < |Exec(inp, events).log| && Exec(inp, events).log[i].LlmAttempt?
    ensures e < |events| && events[e].Attempt? && Exec(inp, events[..e]).pc == Llm
    ensures |Exec(inp, events[..e]).log| == i
  {
    var n := |events| - 1;
    StepAttemptsLlm(inp, Exec(inp, events[..n]), events[n]);
    hide Step;
    if i < |Exec(inp, events[..n]).log| {
      e := AttemptHasEvent(inp, events[..n], i);
      assert events[..n][..e] == events[..e];
    } else {
      e := n;
    }
  }

  /** With a budget, whoever is past its check has something to spend and, before the debit, has been
      shown that nothing is spent yet. */
  predicate Funded(inp: Input, s: State) {
    inp.budget.Some? && (s.pc == Llm || s.pc == RecordSpend || s.pc == PostSanitize) ==>
      && inp.taskId != "" && 0.0 < inp.budget.value.limit
      && (s.pc != PostSanitize ==> s.spent == Some(0.0))
  }

  lemma {:induction false} CheckNeedsFunds(inp: Input)
    requires PreCheckOf(inp).Ok?
    ensures inp.budget.Some? && inp.taskId != "" && 0.0 < inp.budget.value.limit
    ensures PreCheckOf(inp).value.cost == 0.0
  {
    if inp.taskId != "" {
      BA.FirstPreCheck(inp.taskId, inp.agentType, inp.budget.value.sessionId, inp.budget.value.limit);
    }
  }

  lemma {:induction false} AdvanceKeepsFunds(inp: Input, s: State, a: Answer, now: real)
    requires Funded(inp, s) && Fits(inp, s, a) && s.attempt > 0 && IsActivity(s.pc)
    ensures Funded(inp, Advance(inp, s, a, now))
  {
    if s.pc == BudgetCheck { CheckNeedsFunds(inp); }
    hide RecordOf, PreCheckOf;
  }

  lemma {:induction false} StepKeepsFunds(inp: Input, s: State, e: Event)
    requires Funded(inp, s)
    ensures Funded(inp, Step(inp, s, e))
  {
    if e.Attempt? && IsActivity(s.pc) {
      WT.AttemptedFrame(inp, s, e.emits);
      if Completes(inp, s, e) { AdvanceKeepsFunds(inp, Attempted(inp, s, e.emits), e.answer.value, e.now); }
    }
    hide Advance, Fits, EmittedBy;
  }

  lemma {:induction false} FundsHold(inp: Input, events: seq<Event>)
    ensures Funded(inp, Exec(inp, events))
  {
    if events != [] {
      var n := |events| - 1;
      FundsHold(inp, events[..n]);
      StepKeepsFunds(inp, Exec(inp, events[..n]), events[n]);
      hide Step, Funded;
    }
  }

  /** Whenever the LLM is called, everything that precedes it is complete.  With a budget that
      includes the pre-check, which was awaited and completed by an earlier event, and the cap is
      positive. */
  lemma {:induction false} LlmComesAfterChecks(inp: Input, events: seq<Event>, i: nat)
    requires i < |Exec(inp, events).log| && Exec(inp, events).log[i].LlmAttempt?
    ensures exists e: nat :: CallsLlm(inp, events, e, i)
    ensures inp.budget.Some? ==>
              && 0.0 < inp.budget.value.limit
              && exists c: nat, e: nat ::
                   c < e && CompletesAt(inp, events, c, BudgetCheck) && CallsLlm(inp, events, e, i)
  {
    var e := AttemptHasEvent(inp, events, i);
    ActivitiesAreInOrder(inp, events[..e]);
    FundsHold(inp, events[..e]);
    assert CallsLlm(inp, events, e, i);
    if inp.budget.Some? {
      assert BudgetCheck in Completed(inp, events[..e]);
      CompletedHasEvent(inp, events[..e], BudgetCheck);
      var c: nat :| CompletesAt(inp, events[..e], c, BudgetCheck);
      assert events[..e][..c] == events[..c] && events[..e][..c + 1] == events[..c + 1];
      assert CompletesAt(inp, events, c, BudgetCheck);
    }
  }

  /** Event `e` makes the LLM attempt at log position `i`, with all that precedes it complete. */
  ghost predicate CallsLlm(inp: Input, events: seq<Event>, e: nat, i: nat) {
    && e < |events| && events[e].Attempt? && Exec(inp, events[..e]).pc == Llm
    && |Exec(inp, events[..e]).log| == i && Completed(inp, events[..e]) == BeforeLlm(inp)
    && (inp.budget.Some? ==> Exec(inp, events[..e]).spent == Some(0.0))
  }

  // ----- the status -----

  /** The status at each point of a run; one that an activity ended by giving up keeps its status. */
  function StatusAt(s: State): Status {
    match s.pc
    case NotStarted => Pending
    case AnnouncePending => HumanIntervention
    case WaitDecision => HumanIntervention
    case AnnounceDecision => if s.approval == Approved then Running else DeniedStatus
    case AnnounceTimeout => TimedOutStatus
    case AnnounceFailure(_) => Failed
    case AnnounceHitl => HumanIntervention
    case Returned(out) =>
      if s.approval == Denied then DeniedStatus
      else if s.approval == TimedOut then TimedOutStatus
      else ApprovalWorkflow.Completed
    case Raised(Refused(_)) => Failed
    case Raised(HitlEscalation) => HumanIntervention
    case Raised(ActivityFailed) => s.status
    case _ => Running
  }

  predicate StatusShown(s: State) {
    s.status == StatusAt(s) && (s.pc.Returned? ==> s.pc.out.status == s.status)
  }

  /** The outcome that the last activities of a run go with. */
  predicate Settled(s: State) {
    && (s.pc == PostSanitize ==> s.approval == Approved || s.approval == NotRequired)
    && (s.pc == AnnounceTimeout ==> s.approval == TimedOut)
    && (s.pc == AnnounceDecision ==>
          s.signal.Some? && s.approval == if s.signal.value.approved then Approved else Denied)
  }

  lemma {:induction false} GateSettles(inp: Input, s: State)
    requires WT.GateInv(inp, s) && Placed(inp, s)
    ensures Settled(s)
  {
    hide WT.Cleared, WT.Decided, WT.AtGate, WT.NoAttempts, WT.AttemptsCleared;
  }

  lemma {:induction false} AdvanceKeepsStatus(inp: Input, s: State, a: Answer, now: real)
    requires StatusShown(s) && Settled(s) && Fits(inp, s, a) && s.attempt > 0 && IsActivity(s.pc)
    ensures StatusShown(Advance(inp, s, a, now))
  {
    hide RecordOf, PreCheckOf;
  }

  lemma {:induction false} StepKeepsStatus(inp: Input, s: State, e: Event)
    requires StatusShown(s) && Settled(s)
    requires s.pc == AnnouncePending || s.pc == WaitDecision ==> s.approval == Awaiting
    requires s.approval == Awaiting && IsOpen(s.pc) ==> s.pc == AnnouncePending || s.pc == WaitDecision
    ensures StatusShown(Step(inp, s, e))
  {
    if e.Attempt? {
      if IsActivity(s.pc) {
        var t := Attempted(inp, s, e.emits);
        WT.AttemptedFrame(inp, s, e.emits);
        assert StatusShown(t) && Settled(t);
        if Completes(inp, s, e) { AdvanceKeepsStatus(inp, t, e.answer.value, e.now); }
      }
      hide Advance, Attempted, Fits, EmittedBy, StatusShown, Settled;
    } else {
      hide OnAttempt;
    }
  }

  lemma {:induction false} PendingIsAwaiting(inp: Input, s: State)
    requires WT.GateInv(inp, s)
    ensures s.pc == AnnouncePending || s.pc == WaitDecision ==> s.approval == Awaiting
  {
  }

  /** In every run the status is the one of the point it has reached. */
  lemma {:induction false} StatusIsExact(inp: Input, events: seq<Event>)
    ensures var s := Exec(inp, events);
            s.status == StatusAt(s) && (s.pc.Returned? ==> s.pc.out.status == s.status)
  {
    if events != [] {
      var n := |events| - 1;
      StatusIsExact(inp, events[..n]);
      WT.GateHolds(inp, events[..n]);
      ActivitiesAreInOrder(inp, events[..n]);
      GateSettles(inp, Exec(inp, events[..n]));
      LT.AwaitingIsAtGate(inp, Exec(inp, events[..n]));
      PendingIsAwaiting(inp, Exec(inp, events[..n]));
      hide Step, WT.GateInv, Placed, InOrder, StatusAt, Settled;
      StepKeepsStatus(inp, Exec(inp, events[..n]), events[n]);
    }
  }

  // ----- giving up -----

  /** A run that cannot return any more. */
  predicate Doomed(pc: Pc) {
    pc.AnnounceFailure? || pc == AnnounceHitl || pc.Raised?
  }

  /** Event `g` gave up on the activity awaited then, for the cause given. */
  predicate GivesUp(inp: Input, events: seq<Event>, g: nat, at: Pc, cause: Cause) {
    && g < |events| && events[g] == GiveUp(cause)
    && Exec(inp, events[..g]).pc == at && IsActivity(at)
  }

  lemma {:induction false} GivesUpEarlier(inp: Input, events: seq<Event>, n: nat, g: nat, at: Pc, cause: Cause)
    requires n <= |events| && GivesUp(inp, events[..n], g, at, cause)
    ensures GivesUp(inp, events, g, at, cause)
  {
    assert events[..n][..g] == events[..g];
  }

  lemma {:induction false} StepDooms(inp: Input, s: State, e: Event)
    ensures var t := Step(inp, s, e);
            && (Doomed(s.pc) ==> Doomed(t.pc))
            && (e.GiveUp? && IsActivity(s.pc) ==> Doomed(t.pc))
            && (Doomed(t.pc) && t.pc != s.pc ==>
                  || (t.pc == Raised(ActivityFailed) && e.GiveUp? && IsActivity(s.pc) && s.pc != Llm)
                  || (t.pc.AnnounceFailure? && s.pc == Llm && e == GiveUp(t.pc.cause) && t.pc.cause != OtherCause)
                  || (t.pc == AnnounceHitl && s.pc == Llm && e == GiveUp(OtherCause))
                  || (s.pc.AnnounceFailure? && t.pc == Raised(Refused(s.pc.cause)))
                  || (s.pc == AnnounceHitl && t.pc == Raised(HitlEscalation)))
  {
    hide RecordOf, PreCheckOf;
  }

  /** Why a run that will not return is where it is. */
  ghost predicate Explained(inp: Input, events: seq<Event>, pc: Pc) {
    match pc
    case AnnounceFailure(cause) => cause != OtherCause && exists g: nat :: GivesUp(inp, events, g, Llm, cause)
    case Raised(Refused(cause)) => cause != OtherCause && exists g: nat :: GivesUp(inp, events, g, Llm, cause)
    case AnnounceHitl => exists g: nat :: GivesUp(inp, events, g, Llm, OtherCause)
    case Raised(HitlEscalation) => exists g: nat :: GivesUp(inp, events, g, Llm, OtherCause)
    case Raised(ActivityFailed) => exists g: nat, at, cause :: GivesUp(inp, events, g, at, cause) && at != Llm
    case _ => true
  }

  lemma {:induction false} ExplainedLater(inp: Input, events: seq<Event>, n: nat, pc: Pc)
    requires n <= |events| && Explained(inp, events[..n], pc)
    ensures Explained(inp, events, pc)
  {
    forall g: nat, at, cause | GivesUp(inp, events[..n], g, at, cause) ensures GivesUp(inp, events, g, at, cause) {
      GivesUpEarlier(inp, events, n, g, at, cause);
    }
    hide GivesUp;
  }

  /** A run raises only after an activity gave up, and its error says which: a refusal with the cause
      for which the LLM call gave up, an escalation if that was any other cause, and the activity's
      own failure if it was another activity. */
  lemma {:induction false} ErrorsAreExplained(inp: Input, events: seq<Event>)
    ensures Explained(inp, events, Exec(inp, events).pc)
  {
    if events != [] {
      var n := |events| - 1;
      ErrorsAreExplained(inp, events[..n]);
      var s, t := Exec(inp, events[..n]), Exec(inp, events);
      StepDooms(inp, s, events[n]);
      hide Step;
      ExplainedLater(inp, events, n, s.pc);
      if Doomed(t.pc) && t.pc != s.pc && events[n].GiveUp? && IsActivity(s.pc) {
        assert GivesUp(inp, events, n, s.pc, events[n].cause);
      }
      hide GivesUp;
    }
  }

  /** And once an activity has been given up on, no continuation of the run returns. */
  lemma {:induction false} GivingUpIsFinal(inp: Input, events: seq<Event>, g: nat, at: Pc, cause: Cause)
    requires GivesUp(inp, events, g, at, cause)
    ensures Doomed(Exec(inp, events).pc)
  {
    hide Step;
    var n := |events| - 1;
    StepDooms(inp, Exec(inp, events[..n]), events[n]);
    if g < n {
      assert events[..n][..g] == events[..g];
      GivingUpIsFinal(inp, events[..n], g, at, cause);
    }
  }

  // ----- the retry policies -----

  /** How often an activity may be attempted. */
  function Allowed(pc: Pc): nat {
    match pc
    case Llm => 5
    case InStage(PolicyEval) => 1
    case BudgetCheck => 1
    case _ => 3
  }

  /** An activity is attempted again exactly until it has used up its attempts, whatever the others did. */
  lemma {:induction false} AttemptsFollowPolicy(inp: Input, events: seq<Event>, emits: bool, now: real)
    ensures var s, t := Exec(inp, events), Exec(inp, events + [Attempt(emits, None, now)]);
            && s.attempt <= Allowed(s.pc)
            && t.pc == s.pc
            && t.attempt == s.attempt + if IsActivity(s.pc) && s.attempt < Allowed(s.pc) then 1 else 0
  {
    LT.AllHold(inp, events);
    var longer := events + [Attempt(emits, None, now)];
    assert longer[..|events|] == events;
    hide LT.Legal, LT.MoneyInv, LT.FlagsInv, LT.TrailFits, WT.GateInv, EmittedBy, Advance, Fits;
  }

  // ----- what a run has announced -----

  /** The lifecycle event that completing the awaited activity must leave. */
  function EventOf(s: State): Option<Lifecycle> {
    match s.pc
    case InStage(PrePIIScrub) => Some(Started)
    case AnnouncePending => Some(PendingApproval)
    case AnnounceDecision => Some(if s.approval == Approved then ApprovedEvent else DeniedEvent)
    case AnnounceTimeout => Some(DeniedEvent)
    case Llm => if s.attempt > 0 then Some(Retried(s.attempt)) else None
    case AnnounceFailure(_) => Some(FailedEvent)
    case PostSanitize => if s.llm.Some? then Some(CompletedEvent(s.llm.value.retries)) else None
    case _ => None
  }

  lemma {:induction false} CompletingAnnounces(inp: Input, s: State, e: Event)
    requires Placed(inp, s) && e.Attempt? && IsActivity(s.pc) && Completes(inp, s, e)
    ensures EventOf(s).Some? ==> EventOf(s).value in OnAttempt(inp, s, e).lifecycle
  {
    var t := Attempted(inp, s, e.emits);
    WT.AttemptedFrame(inp, s, e.emits);
    assert EventOf(s).Some? ==> EmittedBy(inp, s, s.attempt + 1) == EventOf(s);
    assert EventOf(s).Some? ==> EventOf(s).value in t.lifecycle;
    AdvanceKeepsLifecycle(inp, t, e.answer.value, e.now);
    hide Advance, Attempted, Fits, EmittedBy, EventOf, Placed;
  }

  lemma {:induction false} AdvanceKeepsLifecycle(inp: Input, s: State, a: Answer, now: real)
    requires Fits(inp, s, a) && s.attempt > 0
    ensures Advance(inp, s, a, now).lifecycle == s.lifecycle
  {
    hide RecordOf, PreCheckOf;
  }

  lemma {:induction false} StepAnnounces(inp: Input, s: State, e: Event)
    requires Placed(inp, s)
    ensures var t := Step(inp, s, e);
            && s.lifecycle <= t.lifecycle
            && (Completion(s, e, t) && EventOf(s).Some? ==> EventOf(s).value in t.lifecycle)
  {
    if e.Attempt? && IsActivity(s.pc) {
      var t := Attempted(inp, s, e.emits);
      WT.AttemptedFrame(inp, s, e.emits);
      assert s.lifecycle <= t.lifecycle && t.pc == s.pc;
      if Completes(inp, s, e) {
        CompletingAnnounces(inp, s, e);
        AdvanceKeepsLifecycle(inp, t, e.answer.value, e.now);
      }
    }
    hide Advance, Attempted, Fits, EmittedBy, EventOf, Placed;
  }

  /** Each activity that a run completed has left its event in the trail: none is dropped, however
      often attempts crashed. */
  lemma {:induction false} CompletedIsAnnounced(inp: Input, events: seq<Event>, c: nat, x: Pc)
    requires CompletesAt(inp, events, c, x)
    ensures var v := EventOf(Exec(inp, events[..c])); v.Some? ==> v.value in Exec(inp, events).lifecycle
  {
    hide Step, Placed, InOrder, EventOf;
    var n := |events| - 1;
    ActivitiesAreInOrder(inp, events[..n]);
    StepAnnounces(inp, Exec(inp, events[..n]), events[n]);
    if c < n {
      assert events[..n][..c] == events[..c] && events[..n][..c + 1] == events[..c + 1];
      CompletedIsAnnounced(inp, events[..n], c, x);
    } else {
      assert events[..n + 1] == events;
    }
  }

  /** A task without an id gets nowhere: no stage completes, nothing is announced or called. */
  lemma {:induction false} NamelessTasksGetNowhere(inp: Input, events: seq<Event>)
    requires inp.taskId == ""
    ensures var s := Exec(inp, events);
            && (s.pc == NotStarted || s.pc == InStage(PrePIIScrub) || s.pc == Raised(ActivityFailed))
            && s.approval == NotRequired && s.lifecycle == [] && s.log == []
  {
    if events != [] {
      NamelessTasksGetNowhere(inp, events[..|events| - 1]);
      hide RecordOf, PreCheckOf;
    }
  }
}

/** The lifecycle trail, the queryable fields and the output of every workflow run. */
module LifecycleTheorems {
  import opened Prelude
  import opened DecimalContext
  import BA = BudgetActivities
  import opened ApprovalWorkflow
  import WT = WorkflowTheorems

  // ----- the trail -----

  /** What may follow what: STARTED+ (PENDING+ (APPROVED+ | DENIED+))? RETRIED* (COMPLETED+ | FAILED+)?
      with nothing after DENIED, growing retry counts, and COMPLETED reporting the last of them. */
  predicate Follows(a: Lifecycle, b: Lifecycle) {
    match a
    case Started => b == Started || b == PendingApproval || b.Retried? || b == CompletedEvent(0) || b == FailedEvent
    case PendingApproval => b == PendingApproval || b == ApprovedEvent || b == DeniedEvent
    case ApprovedEvent => b == ApprovedEvent || b.Retried? || b == CompletedEvent(0) || b == FailedEvent
    case DeniedEvent => b == DeniedEvent
    case Retried(k) => (b.Retried? && k < b.count) || b == CompletedEvent(k) || b == FailedEvent
    case CompletedEvent(_) => b == a
    case FailedEvent => b == FailedEvent
  }

  const MAX_RETRIES: nat := 4

  predicate Legal(trail: seq<Lifecycle>) {
    && (trail != [] ==> trail[0] == Started)
    && (forall i :: 0 <= i < |trail| - 1 ==> Follows(trail[i], trail[i + 1]))
    && (forall i :: 0 <= i < |trail| && trail[i].Retried? ==> 1 <= trail[i].count <= MAX_RETRIES)
  }

  predicate ReadyForLlm(e: Lifecycle) {
    e == Started || e == ApprovedEvent
  }

  /** The trail records exactly the retries an LLM result reports. */
  predicate Reports(e: Lifecycle, retries: nat) {
    e == Retried(retries) || (retries == 0 && ReadyForLlm(e))
  }

  predicate TrailFits(s: State, last: Lifecycle) {
    match s.pc
    case NotStarted => false
    case InStage(_) => last == Started
    case AnnouncePending => last == Started || last == PendingApproval
    case WaitDecision => last == PendingApproval
    case AnnounceDecision =>
      && s.signal.Some?
      && (last == PendingApproval || last == if s.signal.value.approved then ApprovedEvent else DeniedEvent)
    case AnnounceTimeout => last == PendingApproval || last == DeniedEvent
    case BudgetCheck => ReadyForLlm(last)
    case Llm => ReadyForLlm(last) || (last.Retried? && last.count < s.attempt)
    case AnnounceFailure(_) => ReadyForLlm(last) || last.Retried? || last == FailedEvent
    case AnnounceHitl => ReadyForLlm(last) || last.Retried?
    case RecordSpend => s.llm.Some? && Reports(last, s.llm.value.retries)
    case PostSanitize =>
      s.llm.Some? && (Reports(last, s.llm.value.retries) || last == CompletedEvent(s.llm.value.retries))
    case Returned(out) => out.status == Completed ==> s.llm.Some? && last == CompletedEvent(s.llm.value.retries)
    case Raised(_) => true
  }

  predicate TrailInv(s: State) {
    && Legal(s.lifecycle)
    && s.attempt <= MaxAttempts(s.pc)
    && (s.lifecycle != [] ==> TrailFits(s, s.lifecycle[|s.lifecycle| - 1]))
    && (s.lifecycle == [] ==> s.pc.NotStarted? || s.pc == InStage(PrePIIScrub) || s.pc.Raised?)
    && (s.pc == InStage(PolicyEval) || s.pc == InStage(JITTokenIssue) ==> s.lifecycle != [])
  }

  lemma {:induction false} LegalExtends(trail: seq<Lifecycle>, e: Lifecycle)
    requires Legal(trail)
    requires if trail == [] then e == Started else Follows(trail[|trail| - 1], e)
    requires e.Retried? ==> 1 <= e.count <= MAX_RETRIES
    ensures Legal(trail + [e])
  {
    var longer := trail + [e];
    forall i | 0 <= i < |longer| - 1 ensures Follows(longer[i], longer[i + 1]) {
      if i + 1 < |trail| { assert Follows(trail[i], trail[i + 1]); }
    }
  }

  /** The event of an attempt continues the trail. */
  lemma {:induction false} EmittedFollows(inp: Input, s: State, e: Lifecycle)
    requires TrailInv(s) && IsActivity(s.pc) && s.attempt < MaxAttempts(s.pc)
    requires EmittedBy(inp, s, s.attempt + 1) == Some(e)
    ensures if s.lifecycle == [] then e == Started else Follows(s.lifecycle[|s.lifecycle| - 1], e)
    ensures e.Retried? ==> 1 <= e.count <= MAX_RETRIES
    ensures TrailFits(s.(attempt := s.attempt + 1), e)
  {
    hide Legal;
  }

  /** Without an event, another attempt changes nothing the trail depends on. */
  lemma {:induction false} AnotherAttempt(s: State)
    requires TrailInv(s) && s.attempt < MaxAttempts(s.pc)
    ensures TrailInv(s.(attempt := s.attempt + 1))
  {
    hide Legal;
  }

  /** An attempt, whether or not it completes. */
  lemma {:induction false} AttemptedKeepsTrail(inp: Input, s: State, emits: bool)
    requires TrailInv(s) && IsActivity(s.pc) && s.attempt < MaxAttempts(s.pc)
    ensures TrailInv(Attempted(inp, s, emits))
    ensures var event := EmittedBy(inp, s, s.attempt + 1);
            emits && event.Some? ==>
              var t := Attempted(inp, s, emits);
              t.lifecycle != [] && t.lifecycle[|t.lifecycle| - 1] == event.value
  {
    var event := EmittedBy(inp, s, s.attempt + 1);
    var t := Attempted(inp, s, emits);
    if emits && event.Some? {
      EmittedFollows(inp, s, event.value);
      LegalExtends(s.lifecycle, event.value);
      assert t.lifecycle == s.lifecycle + [event.value];
      SameFit(s.(attempt := s.attempt + 1), t, event.value);
    } else {
      AnotherAttempt(s);
      assert t.lifecycle == s.lifecycle;
      if s.lifecycle != [] { SameFit(s.(attempt := s.attempt + 1), t, s.lifecycle[|s.lifecycle| - 1]); }
    }
    hide Legal, Follows, TrailFits, EmittedBy;
  }

  lemma {:induction false} SameFit(s: State, t: State, e: Lifecycle)
    requires t.pc == s.pc && t.attempt == s.attempt && t.signal == s.signal && t.llm == s.llm
    ensures TrailFits(s, e) == TrailFits(t, e)
  {
  }

  lemma {:induction false} AdvanceKeepsTrail(inp: Input, s: State, a: Answer, now: real)
    requires TrailInv(s) && Fits(inp, s, a) && s.attempt > 0 && IsActivity(s.pc)
    requires s.lifecycle != []
    requires var last := s.lifecycle[|s.lifecycle| - 1];
             match s.pc
             case InStage(PrePIIScrub) => last == Started
             case AnnouncePending => last == PendingApproval
             case AnnounceDecision => last == if s.signal.value.approved then ApprovedEvent else DeniedEvent
             case Llm => if s.attempt > 1 then last == Retried(s.attempt - 1) else ReadyForLlm(last)
             case PostSanitize => last == CompletedEvent(s.llm.value.retries)
             case _ => true
    requires s.pc.AnnounceDecision? || s.pc.AnnounceTimeout? ==> s.status != Completed
    ensures TrailInv(Advance(inp, s, a, now))
  {
  }

  // ----- the queryable fields -----

  /** `pending_since` is set exactly while awaiting, and awaiting shows as human intervention. */
  predicate FlagsInv(s: State) {
    && (s.pendingSince.Some? <==> s.approval == Awaiting)
    && (s.approval == Awaiting ==> s.status == HumanIntervention)
    && (s.status == Completed ==> s.pc.Returned?)
  }

  lemma {:induction false} AdvanceKeepsFlags(inp: Input, s: State, a: Answer, now: real)
    requires FlagsInv(s) && Fits(inp, s, a) && s.attempt > 0 && IsActivity(s.pc)
    requires s.approval == Awaiting ==> s.pc.AnnouncePending?
    ensures FlagsInv(Advance(inp, s, a, now))
  {
  }

  lemma {:induction false} StepKeepsFlags(inp: Input, s: State, e: Event)
    requires FlagsInv(s) && WT.GateInv(inp, s)
    ensures FlagsInv(Step(inp, s, e))
  {
    AwaitingIsAtGate(inp, s);
    if e.Attempt? && IsActivity(s.pc) && s.attempt < MaxAttempts(s.pc) {
      WT.AttemptedFrame(inp, s, e.emits);
      if Completes(inp, s, e) { AdvanceKeepsFlags(inp, Attempted(inp, s, e.emits), e.answer.value, e.now); }
      hide Advance, Fits, EmittedBy, WT.GateInv;
    }
  }

  // ----- the spend -----

  /** The debit of a run is exactly tokens times price, and is answered only within the cap. */
  lemma {:induction false} RecordedSpend(inp: Input, tokens: int)
    requires RecordOf(inp, tokens).Ok?
    ensures inp.budget.Some?
    ensures RecordOf(inp, tokens).value.snapshot.cost == Mul(tokens as real, inp.price) <= inp.budget.value.limit
  {
    var b := inp.budget.value;
    var record := BA.RecordInput(inp.taskId, inp.agentType, b.sessionId, b.limit, tokens, inp.price, []);
    BA.FirstRecord(record, inp.operationId);
    hide BA.RecordSpend, Mul;
  }

  predicate SpendShown(inp: Input, tokens: int, spent: Option<real>) {
    if inp.budget.None? then spent == None
    else spent == Some(Mul(tokens as real, inp.price)) && spent.value <= inp.budget.value.limit
  }

  predicate BeforeBudget(pc: Pc) {
    || pc.NotStarted? || pc.InStage?
    || pc.AnnouncePending? || pc.WaitDecision? || pc.AnnounceDecision? || pc.AnnounceTimeout?
  }

  /** A negative output names who decided, or the timeout. */
  predicate NamesReviewer(s: State, out: Output) {
    if s.approval == TimedOut then out.approverId == Some("timeout") && out.reason == Some("Approval timed out")
    else
      s.signal.Some? && out.approverId == Some(s.signal.value.approverId) && out.reason == Some(s.signal.value.reason)
  }

  predicate MoneyInv(inp: Input, s: State) {
    && (inp.budget.None? ==> s.spent == None)
    && (s.pc == PostSanitize && s.llm.Some? ==> SpendShown(inp, s.llm.value.tokens, s.spent))
    && (BeforeBudget(s.pc) ==> s.spent == None)
    && (s.pc.Returned? ==>
          var out := s.pc.out;
          && out.approval == s.approval && out.status == s.status
          && if out.status == Completed
             then s.llm.Some? && out.tokens == s.llm.value.tokens && SpendShown(inp, out.tokens, out.spent)
             else out.content == "" && out.tokens == 0 && out.spent == None && NamesReviewer(s, out))
  }

  lemma {:induction false} AdvanceKeepsMoney(inp: Input, s: State, a: Answer, now: real)
    requires MoneyInv(inp, s) && FlagsInv(s) && Fits(inp, s, a) && s.attempt > 0 && IsActivity(s.pc)
    requires s.pc.AnnounceDecision? ==> s.approval != TimedOut
    requires s.pc.AnnounceTimeout? ==> s.approval == TimedOut
    ensures MoneyInv(inp, Advance(inp, s, a, now))
  {
    if s.pc == RecordSpend {
      RecordingKeepsMoney(inp, s, a, now);
    } else if BeforeBudget(s.pc) {
      EarlyAdvanceKeepsMoney(inp, s, a, now);
    } else {
      hide Mul, RecordOf;
    }
  }

  lemma {:induction false} EarlyAdvanceKeepsMoney(inp: Input, s: State, a: Answer, now: real)
    requires MoneyInv(inp, s) && FlagsInv(s) && Fits(inp, s, a) && s.attempt > 0
    requires IsActivity(s.pc) && BeforeBudget(s.pc)
    requires s.pc.AnnounceDecision? ==> s.approval != TimedOut
    requires s.pc.AnnounceTimeout? ==> s.approval == TimedOut
    ensures MoneyInv(inp, Advance(inp, s, a, now))
  {
  }

  lemma {:induction false} RecordingKeepsMoney(inp: Input, s: State, a: Answer, now: real)
    requires MoneyInv(inp, s) && Fits(inp, s, a) && s.attempt > 0 && s.pc == RecordSpend
    ensures MoneyInv(inp, Advance(inp, s, a, now))
  {
    RecordedSpend(inp, s.llm.value.tokens);
    hide Mul, RecordOf;
  }

  lemma {:induction false} StepKeepsMoney(inp: Input, s: State, e: Event)
    requires MoneyInv(inp, s) && FlagsInv(s) && WT.GateInv(inp, s)
    ensures MoneyInv(inp, Step(inp, s, e))
  {
    if e.Attempt? && IsActivity(s.pc) && s.attempt < MaxAttempts(s.pc) {
      var t := Attempted(inp, s, e.emits);
      assert MoneyInv(inp, t) && FlagsInv(t);
      if Completes(inp, s, e) {
        WT.AttemptedFrame(inp, s, e.emits);
        AdvanceKeepsMoney(inp, t, e.answer.value, e.now);
      }
      hide Advance, Fits, SpendShown;
    }
  }

  // ----- every run -----

  /** When an attempt completes, the event it had to emit is the last one of the trail. */
  lemma {:induction false} CompletionIsRecorded(inp: Input, s: State, e: Event)
    requires TrailInv(s) && FlagsInv(s) && IsActivity(s.pc) && s.attempt < MaxAttempts(s.pc)
    requires e.Attempt? && Completes(inp, s, e)
    ensures TrailInv(OnAttempt(inp, s, e))
  {
    var t := Attempted(inp, s, e.emits);
    AttemptedKeepsTrail(inp, s, e.emits);
    WT.AttemptedFrame(inp, s, e.emits);
    AdvanceKeepsTrail(inp, t, e.answer.value, e.now);
    hide Advance, Follows, Legal;
  }

  lemma {:induction false} WakingKeepsTrail(inp: Input, s: State, e: Event)
    requires TrailInv(s) && !e.Attempt?
    requires s.pc.WaitDecision? ==> s.approval == Awaiting
    requires s.approval == Awaiting && IsOpen(s.pc) ==> s.pc.AnnouncePending? || s.pc.WaitDecision?
    ensures TrailInv(Step(inp, s, e))
  {
    hide Legal;
  }

  lemma {:induction false} StepKeepsTrail(inp: Input, s: State, e: Event)
    requires TrailInv(s) && FlagsInv(s) && WT.GateInv(inp, s)
    ensures TrailInv(Step(inp, s, e))
  {
    if !e.Attempt? {
      AwaitingIsAtGate(inp, s);
      WakingKeepsTrail(inp, s, e);
    } else if IsActivity(s.pc) && s.attempt < MaxAttempts(s.pc) {
      AttemptedKeepsTrail(inp, s, e.emits);
      if Completes(inp, s, e) { CompletionIsRecorded(inp, s, e); }
    }
    hide Advance, Attempted, TrailInv, Fits, WT.GateInv, OnGiveUp, OnResume, OnTimeout, OnSignal;
  }

  lemma {:induction false} AwaitingIsAtGate(inp: Input, s: State)
    requires WT.GateInv(inp, s)
    ensures s.pc.WaitDecision? ==> s.approval == Awaiting
    ensures s.approval == Awaiting && IsOpen(s.pc) ==> s.pc.AnnouncePending? || s.pc.WaitDecision?
  {
  }

  lemma {:induction false} AllHold(inp: Input, events: seq<Event>)
    ensures var s := Exec(inp, events);
            WT.GateInv(inp, s) && FlagsInv(s) && MoneyInv(inp, s) && TrailInv(s)
  {
    WT.GateHolds(inp, events);
    if events != [] {
      var n := |events| - 1;
      AllHold(inp, events[..n]);
      var s := Exec(inp, events[..n]);
      StepKeepsFlags(inp, s, events[n]);
      StepKeepsMoney(inp, s, events[n]);
      StepKeepsTrail(inp, s, events[n]);
      hide WT.GateInv, FlagsInv, MoneyInv, TrailInv, Step;
    }
  }

  /** In every reachable state the trail is legal, so its prefixes are too: retry counts grow and
      stay within the five-attempt policy, nothing follows a denial, and COMPLETED reports the last
      retry count, or 0 if there was none. */
  lemma {:induction false} TrailIsLegal(inp: Input, events: seq<Event>)
    ensures Legal(Exec(inp, events).lifecycle)
  {
    AllHold(inp, events);
  }

  /** `pending_since` is set iff the state is awaiting, which shows as human intervention. */
  lemma {:induction false} PendingIffAwaiting(inp: Input, events: seq<Event>)
    ensures var s := Exec(inp, events);
            && (s.pendingSince.Some? <==> s.approval == Awaiting)
            && (s.approval == Awaiting ==> s.status == HumanIntervention)
  {
    AllHold(inp, events);
  }

  // ----- the status query -----

  predicate ClosesGate(e: Entry) {
    e.GateResumed? || e.GateTimedOut?
  }

  /** The approval state and the log tell the same about the gate. */
  ghost predicate GateShown(approval: Approval, log: seq<Entry>) {
    && (approval != NotRequired <==> GateEntered in log)
    && (WT.Final(approval) <==> exists i :: 0 <= i < |log| && ClosesGate(log[i]))
  }

  lemma {:induction false} EntryKeepsShown(before: Approval, after: Approval, log: seq<Entry>, e: Entry)
    requires GateShown(before, log)
    requires after != NotRequired <==> before != NotRequired || e == GateEntered
    requires WT.Final(after) <==> WT.Final(before) || ClosesGate(e)
    ensures GateShown(after, log + [e])
  {
    var longer := log + [e];
    assert longer[|log|] == e;
    if i :| 0 <= i < |log| && ClosesGate(log[i]) { assert ClosesGate(longer[i]); }
  }

  lemma {:induction false} AttemptKeepsShown(inp: Input, s: State, e: Event)
    requires GateShown(s.approval, s.log) && e.Attempt? && IsActivity(s.pc)
    requires s.pc.InStage? ==> s.approval == NotRequired
    ensures GateShown(OnAttempt(inp, s, e).approval, OnAttempt(inp, s, e).log)
  {
    var t := Attempted(inp, s, e.emits);
    WT.AttemptedFrame(inp, s, e.emits);
    EntryKeepsShown(s.approval, s.approval, s.log, LlmAttempt(s.attempt + 1));
    assert s.log + [] == s.log;
    assert GateShown(t.approval, t.log);
    if s.pc.InStage? {
      var done := t.log + [StageDone(s.pc.stage)];
      EntryKeepsShown(NotRequired, NotRequired, t.log, StageDone(s.pc.stage));
      EntryKeepsShown(NotRequired, Awaiting, done, GateEntered);
    }
    hide GateShown, RecordOf, PreCheckOf, EmittedBy;
  }

  lemma {:induction false} StepKeepsShown(inp: Input, s: State, e: Event)
    requires GateShown(s.approval, s.log) && WT.GateInv(inp, s)
    ensures GateShown(Step(inp, s, e).approval, Step(inp, s, e).log)
  {
    StagesComeFirst(inp, s);
    assert s.pc.WaitDecision? ==> s.approval == Awaiting;
    hide WT.GateInv;
    match e
    case Attempt(_, _, _) => if IsActivity(s.pc) { AttemptKeepsShown(inp, s, e); }
    case Signal(p) => EntryKeepsShown(s.approval, s.approval, s.log, SignalStored(p));
    case Resume =>
      if s.pc.WaitDecision? && s.signal.Some? {
        EntryKeepsShown(Awaiting, OnResume(s).approval, s.log, GateResumed(s.signal.value));
      }
    case Timeout => if s.pc.WaitDecision? { EntryKeepsShown(Awaiting, TimedOut, s.log, GateTimedOut); }
    case Start =>
    case GiveUp(_) =>
    hide GateShown, OnAttempt;
  }

  lemma {:induction false} ShownHolds(inp: Input, events: seq<Event>)
    ensures GateShown(Exec(inp, events).approval, Exec(inp, events).log)
  {
    if events != [] {
      var n := |events| - 1;
      ShownHolds(inp, events[..n]);
      WT.GateHolds(inp, events[..n]);
      StepKeepsShown(inp, Exec(inp, events[..n]), events[n]);
      hide GateShown, WT.GateInv, Step;
    }
  }

  lemma {:induction false} AdvanceStays(inp: Input, s: State, a: Answer, now: real)
    requires Fits(inp, s, a) && s.attempt > 0 && IsActivity(s.pc)
    ensures !Advance(inp, s, a, now).pc.NotStarted?
  {
    hide RecordOf, PreCheckOf;
  }

  lemma {:induction false} StepStarts(inp: Input, s: State, e: Event)
    ensures var t := Step(inp, s, e);
            && (t.pc.NotStarted? <==> s.pc.NotStarted? && !e.Start?)
            && (s == INITIAL && !e.Start? ==> t == INITIAL)
  {
    hide Advance, Attempted, Fits, EmittedBy;
    if e.Attempt? && IsActivity(s.pc) {
      WT.AttemptedFrame(inp, s, e.emits);
      if Completes(inp, s, e) { AdvanceStays(inp, Attempted(inp, s, e.emits), e.answer.value, e.now); }
    }
  }

  lemma {:induction false} StartedIff(inp: Input, events: seq<Event>)
    ensures var s := Exec(inp, events);
            && (s.pc.NotStarted? <==> Start !in events)
            && (s.pc.NotStarted? ==> s == INITIAL)
  {
    if events != [] {
      hide Step;
      var n := |events| - 1;
      StartedIff(inp, events[..n]);
      StepStarts(inp, Exec(inp, events[..n]), events[n]);
      assert events == events[..n] + [events[n]];
    }
  }

  /** Event `i` opened the gate and read the clock at `now`. */
  predicate OpensGate(inp: Input, events: seq<Event>, i: nat, now: real) {
    && i < |events| && events[i].Attempt? && events[i].now == now
    && Exec(inp, events[..i]).approval == NotRequired
    && Exec(inp, events[..i + 1]).approval == Awaiting
  }

  lemma {:induction false} AdvanceKeepsPendingTime(inp: Input, s: State, a: Answer, now: real)
    requires Fits(inp, s, a) && s.attempt > 0
    ensures var t := Advance(inp, s, a, now);
            t.pendingSince != s.pendingSince ==>
              t.pendingSince == Some(now) && t.approval == Awaiting && s.pc.InStage?
  {
    hide RecordOf, PreCheckOf;
  }

  lemma {:induction false} StepKeepsPendingTime(inp: Input, s: State, e: Event)
    requires s.pc.InStage? ==> s.approval == NotRequired
    ensures var t := Step(inp, s, e);
            t.pendingSince.Some? && t.pendingSince != s.pendingSince ==>
              e.Attempt? && t.pendingSince == Some(e.now) && s.approval == NotRequired && t.approval == Awaiting
  {
    if e.Attempt? {
      var t := Attempted(inp, s, e.emits);
      WT.AttemptedFrame(inp, s, e.emits);
      if Completes(inp, s, e) { AdvanceKeepsPendingTime(inp, t, e.answer.value, e.now); }
    }
    hide Advance, Fits, EmittedBy, MaxAttempts;
  }

  lemma {:induction false} StagesComeFirst(inp: Input, s: State)
    requires WT.GateInv(inp, s)
    ensures s.pc.InStage? ==> s.approval == NotRequired
  {
  }

  lemma {:induction false} PendingSinceOpening(inp: Input, events: seq<Event>)
    requires Exec(inp, events).pendingSince.Some?
    ensures exists i: nat :: OpensGate(inp, events, i, Exec(inp, events).pendingSince.value)
  {
    hide WT.GateInv, FlagsInv, MoneyInv, TrailInv, Step;
    var n := |events| - 1;
    var s, t := Exec(inp, events[..n]), Exec(inp, events);
    AllHold(inp, events[..n]);
    StagesComeFirst(inp, s);
    StepKeepsPendingTime(inp, s, events[n]);
    if t.pendingSince == s.pendingSince {
      PendingSinceOpening(inp, events[..n]);
      var i: nat :| OpensGate(inp, events[..n], i, t.pendingSince.value);
      assert events[..n][..i] == events[..i] && events[..n][..i + 1] == events[..i + 1];
      assert OpensGate(inp, events, i, t.pendingSince.value);
    } else {
      assert events[..n + 1] == events;
      assert OpensGate(inp, events, n, t.pendingSince.value);
    }
  }

  /** What the query tells its caller.  It shows a pending approval exactly while the gate has been
      entered and has neither resumed nor timed out, then with human intervention as the status and
      with the clock reading at which the gate was entered.  It shows that no approval is required
      exactly before the gate, and the identity of the task exactly once the run has started. */
  lemma {:induction false} StatusTellsTheGate(inp: Input, events: seq<Event>)
    ensures var s := Exec(inp, events);
            var q := StatusOf(inp, s);
            && (q.approval == Awaiting <==>
                  GateEntered in s.log && forall i :: 0 <= i < |s.log| ==> !ClosesGate(s.log[i]))
            && (q.approval == NotRequired <==> GateEntered !in s.log)
            && (q.approval == Awaiting ==> q.status == HumanIntervention)
            && (q.pendingSince.Some? <==> q.approval == Awaiting)
            && (q.pendingSince.Some? ==> exists i: nat :: OpensGate(inp, events, i, q.pendingSince.value))
            && (Start in events ==>
                  q.taskId == inp.taskId && q.sessionId == inp.sessionId && q.agentType == inp.agentType)
            && (Start !in events ==> q == Snapshot("", None, "general", Pending, NotRequired, None))
  {
    AllHold(inp, events);
    ShownHolds(inp, events);
    StartedIff(inp, events);
    if Exec(inp, events).pendingSince.Some? { PendingSinceOpening(inp, events); }
    hide WT.GateInv, MoneyInv, TrailInv, Exec;
  }

  /** A completed output was never denied, passed the gate if it had to, reports the tokens of the
      successful attempt and, with a budget, spent exactly tokens times price within the cap,
      however often activities were retried.  Any other output cost nothing: no LLM attempt, no
      tokens, no content. */
  lemma {:induction false} OutputsAreAccounted(inp: Input, events: seq<Event>)
    requires Exec(inp, events).pc.Returned?
    ensures var s := Exec(inp, events);
            var out := s.pc.out;
            && out.approval == s.approval && out.status == s.status
            && if out.status == Completed then
                 && (out.approval == Approved || (out.approval == NotRequired && !NeedsApproval(inp)))
                 && WT.Cleared(inp, s.log)
                 && s.llm.Some? && out.tokens == s.llm.value.tokens
                 && SpendShown(inp, out.tokens, out.spent)
                 && s.lifecycle != [] && s.lifecycle[|s.lifecycle| - 1] == CompletedEvent(s.llm.value.retries)
               else
                 && (out.approval == Denied || out.approval == TimedOut)
                 && WT.NoAttempts(s.log) && out.tokens == 0 && out.content == "" && out.spent == None
                 && NamesReviewer(s, out)
  {
    AllHold(inp, events);
    hide Exec, Legal, SpendShown, WT.Cleared, WT.NoAttempts, WT.AttemptsCleared, WT.AtGate, WT.Decided;
  }

  /** An answer the awaited activity gave in the course of a run. */
  ghost predicate Given(inp: Input, events: seq<Event>, i: nat, pc: Pc, a: Answer) {
    i < |events| && events[i].Attempt? && events[i].answer == Some(a) && Exec(inp, events[..i]).pc == pc
  }

  lemma {:induction false} GivenEarlier(inp: Input, events: seq<Event>, n: nat, i: nat, pc: Pc, a: Answer)
    requires n <= |events| && Given(inp, events[..n], i, pc, a)
    ensures Given(inp, events, i, pc, a)
  {
    assert events[..n][..i] == events[..i];
  }

  /** A step changes the LLM result only by taking over the reply of a completing LLM attempt. */
  lemma {:induction false} StepTakesReply(inp: Input, s: State, e: Event)
    ensures var t := Step(inp, s, e);
            t.llm == s.llm ||
            (s.pc == Llm && e.Attempt? && t.llm.Some? && t.llm.value.retries == s.attempt &&
             e.answer == Some(Reply(t.llm.value.content, t.llm.value.tokens)))
  {
  }

  /** The tokens and retries accounted for are those of the attempt that answered. */
  lemma {:induction false} LlmResultWasGiven(inp: Input, events: seq<Event>)
    requires Exec(inp, events).llm.Some?
    ensures var l := Exec(inp, events).llm.value;
            exists i: nat ::
              Given(inp, events, i, Llm, Reply(l.content, l.tokens)) && Exec(inp, events[..i]).attempt == l.retries
  {
    var n := |events| - 1;
    var s := Exec(inp, events[..n]);
    StepTakesReply(inp, s, events[n]);
    hide Step;
    var l := Exec(inp, events).llm.value;
    if s.llm == Some(l) {
      LlmResultWasGiven(inp, events[..n]);
      var i: nat :| Given(inp, events[..n], i, Llm, Reply(l.content, l.tokens)) &&
        Exec(inp, events[..n][..i]).attempt == l.retries;
      GivenEarlier(inp, events, n, i, Llm, Reply(l.content, l.tokens));
      assert events[..n][..i] == events[..i];
    } else {
      assert Given(inp, events, n, Llm, Reply(l.content, l.tokens));
    }
  }

  lemma {:induction false} StepReturnsSanitized(inp: Input, s: State, e: Event)
    requires WT.GateInv(inp, s) && FlagsInv(s)
    requires Step(inp, s, e).pc.Returned? && Step(inp, s, e).pc.out.status == Completed
    ensures Step(inp, s, e).pc == s.pc ||
            (s.pc == PostSanitize && e.Attempt? && e.answer == Some(Sanitized(Step(inp, s, e).pc.out.content)))
  {
  }

  /** Completed content is what the post-sanitizer returned, never the raw reply. */
  lemma {:induction false} ContentWasSanitized(inp: Input, events: seq<Event>)
    requires Exec(inp, events).pc.Returned? && Exec(inp, events).pc.out.status == Completed
    ensures exists i: nat :: Given(inp, events, i, PostSanitize, Sanitized(Exec(inp, events).pc.out.content))
  {
    var n := |events| - 1;
    var s := Exec(inp, events[..n]);
    AllHold(inp, events[..n]);
    StepReturnsSanitized(inp, s, events[n]);
    hide Step, WT.GateInv, FlagsInv, MoneyInv, TrailInv;
    var content := Exec(inp, events).pc.out.content;
    if Exec(inp, events).pc == s.pc {
      ContentWasSanitized(inp, events[..n]);
      var i: nat :| Given(inp, events[..n], i, PostSanitize, Sanitized(content));
      GivenEarlier(inp, events, n, i, PostSanitize, Sanitized(content));
    } else {
      assert Given(inp, events, n, PostSanitize, Sanitized(content));
    }
  }

  // ----- the retry policy -----

  function LlmAttempts(log: seq<Entry>): nat {
    if log == [] then 0 else LlmAttempts(log[..|log| - 1]) + if log[|log| - 1].LlmAttempt? then 1 else 0
  }

  lemma {:induction false} CountOne(log: seq<Entry>, e: Entry)
    ensures LlmAttempts(log + [e]) == LlmAttempts(log) + if e.LlmAttempt? then 1 else 0
  {
    assert (log + [e])[..|log|] == log;
  }

  predicate CountInv(s: State) {
    && LlmAttempts(s.log) <= MaxAttempts(Llm)
    && (BeforeBudget(s.pc) || s.pc == BudgetCheck ==> LlmAttempts(s.log) == 0)
    && (s.pc == Llm ==> LlmAttempts(s.log) == s.attempt)
  }

  lemma {:induction false} AttemptedKeepsCount(inp: Input, s: State, emits: bool)
    requires CountInv(s) && s.attempt < MaxAttempts(s.pc)
    ensures CountInv(Attempted(inp, s, emits))
  {
    if s.pc == Llm { CountOne(s.log, LlmAttempt(s.attempt + 1)); } else { assert s.log + [] == s.log; }
  }

  lemma {:induction false} AdvanceKeepsCount(inp: Input, s: State, a: Answer, now: real)
    requires CountInv(s) && Fits(inp, s, a) && s.attempt > 0 && IsActivity(s.pc)
    ensures CountInv(Advance(inp, s, a, now))
  {
    hide LlmAttempts, RecordOf, PreCheckOf;
    if s.pc.InStage? {
      CountOne(s.log, StageDone(s.pc.stage));
      CountOne(s.log + [StageDone(s.pc.stage)], GateEntered);
    } else {
      LaterAdvance(inp, s, a, now);
    }
  }

  /** Past the stages, an advance logs nothing; it reaches the LLM only from before it. */
  lemma {:induction false} LaterAdvance(inp: Input, s: State, a: Answer, now: real)
    requires Fits(inp, s, a) && s.attempt > 0 && IsActivity(s.pc) && !s.pc.InStage?
    ensures var t := Advance(inp, s, a, now);
            && t.log == s.log && t.attempt == 0
            && (t.pc == Llm || BeforeBudget(t.pc) || t.pc == BudgetCheck ==> BeforeBudget(s.pc) || s.pc == BudgetCheck)
  {
  }

  lemma {:induction false} AttemptKeepsCount(inp: Input, s: State, e: Event)
    requires CountInv(s) && e.Attempt? && IsActivity(s.pc) && s.attempt < MaxAttempts(s.pc)
    ensures CountInv(OnAttempt(inp, s, e))
  {
    hide Advance, Attempted, CountInv, Fits, EmittedBy;
    AttemptedKeepsCount(inp, s, e.emits);
    WT.AttemptedFrame(inp, s, e.emits);
    if Completes(inp, s, e) { AdvanceKeepsCount(inp, Attempted(inp, s, e.emits), e.answer.value, e.now); }
  }

  lemma {:induction false} StepKeepsCount(inp: Input, s: State, e: Event)
    requires CountInv(s)
    ensures CountInv(Step(inp, s, e))
  {
    hide LlmAttempts, OnAttempt;
    match e
    case Attempt(_, _, _) => if IsActivity(s.pc) && s.attempt < MaxAttempts(s.pc) { AttemptKeepsCount(inp, s, e); }
    case Signal(p) => CountOne(s.log, SignalStored(p));
    case Resume => if s.signal.Some? { CountOne(s.log, GateResumed(s.signal.value)); }
    case Timeout => CountOne(s.log, GateTimedOut);
    case Start =>
    case GiveUp(_) =>
  }

  /** No run makes more than five LLM attempts, however its activities fail and are retried. */
  lemma {:induction false} LlmAttemptsAreFew(inp: Input, events: seq<Event>)
    ensures CountInv(Exec(inp, events)) && LlmAttempts(Exec(inp, events).log) <= 5
  {
    if events != [] {
      var n := |events| - 1;
      LlmAttemptsAreFew(inp, events[..n]);
      StepKeepsCount(inp, Exec(inp, events[..n]), events[n]);
      hide Step;
    }
  }
}

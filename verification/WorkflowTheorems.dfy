/** What every run of the workflow guarantees, whatever signals, timeouts, crashes and failures
    interleave with it. */
module WorkflowTheorems {
  import opened Prelude
  import opened ApprovalWorkflow

  // ----- the gate -----

  /** The gate resumed at `g` on the last payload stored since it was entered. */
  ghost predicate DecidedAt(log: seq<Entry>, g: nat) {
    && g < |log| && log[g].GateResumed?
    && exists enter, stored :: 0 <= enter < stored < g && log[enter] == GateEntered &&
         log[stored] == SignalStored(log[g].payload) && forall j :: stored < j < g ==> !log[j].SignalStored?
  }

  /** The three governance stages completed in order and, above the threshold, the gate resumed on
      an approving payload delivered while awaiting. */
  ghost predicate Cleared(inp: Input, log: seq<Entry>) {
    && |log| >= 3
    && log[0] == StageDone(PrePIIScrub) && log[1] == StageDone(PolicyEval) && log[2] == StageDone(JITTokenIssue)
    && (NeedsApproval(inp) ==> exists g :: 3 <= g < |log| && DecidedAt(log, g) && log[g].payload.approved)
  }

  /** Every LLM attempt in the log was cleared when it happened. */
  ghost predicate AttemptsCleared(inp: Input, log: seq<Entry>) {
    forall i :: 0 <= i < |log| && log[i].LlmAttempt? ==> Cleared(inp, log[..i])
  }

  predicate NoAttempts(log: seq<Entry>) {
    forall i :: 0 <= i < |log| ==> !log[i].LlmAttempt?
  }

  /** The log while the gate is open: the stages, the entry, then only stored signals, the last of
      which is the one the workflow holds. */
  ghost predicate AtGate(s: State) {
    && |s.log| >= 4
    && s.log[0] == StageDone(PrePIIScrub) && s.log[1] == StageDone(PolicyEval) && s.log[2] == StageDone(JITTokenIssue)
    && s.log[3] == GateEntered
    && (forall i :: 4 <= i < |s.log| ==> s.log[i].SignalStored?)
    && s.signal == if |s.log| == 4 then None else Some(s.log[|s.log| - 1].payload)
  }

  /** A decision was taken at `g` and the approval state shows it. */
  ghost predicate Decided(s: State) {
    exists g :: 3 <= g < |s.log| && DecidedAt(s.log, g) && s.signal == Some(s.log[g].payload) &&
      s.approval == if s.log[g].payload.approved then Approved else Denied
  }

  predicate Passed(inp: Input, s: State) {
    s.approval == Approved || (s.approval == NotRequired && !NeedsApproval(inp))
  }

  ghost predicate GateInv(inp: Input, s: State) {
    && AttemptsCleared(inp, s.log)
    && (s.approval == NotRequired || s.approval == Awaiting ==> s.approval == Awaiting || s.signal == None)
    && (s.approval == Awaiting ==> AtGate(s))
    && (s.approval == Approved || s.approval == Denied ==> Decided(s))
    && match s.pc
       case NotStarted => s.log == [] && s.approval == NotRequired
       case InStage(PrePIIScrub) => s.log == [] && s.approval == NotRequired
       case InStage(PolicyEval) => s.log == [StageDone(PrePIIScrub)] && s.approval == NotRequired
       case InStage(JITTokenIssue) =>
         s.log == [StageDone(PrePIIScrub), StageDone(PolicyEval)] && s.approval == NotRequired
       case AnnouncePending => s.approval == Awaiting
       case WaitDecision => s.approval == Awaiting
       case AnnounceDecision =>
         && NoAttempts(s.log)
         && if s.approval == Approved then Cleared(inp, s.log) else s.approval == Denied && s.status == DeniedStatus
       case AnnounceTimeout => NoAttempts(s.log) && s.approval == TimedOut && s.status == TimedOutStatus
       case Returned(out) =>
         if out.status == Completed then Cleared(inp, s.log) && Passed(inp, s)
         else NoAttempts(s.log) && (s.approval == Denied || s.approval == TimedOut)
       case Raised(_) => true
       case _ => Cleared(inp, s.log) && Passed(inp, s)
  }

  lemma {:induction false} DecidedAtExtends(log: seq<Entry>, e: Entry, g: nat)
    requires DecidedAt(log, g)
    ensures DecidedAt(log + [e], g)
  {
    var enter, stored :| 0 <= enter < stored < g && log[enter] == GateEntered &&
         log[stored] == SignalStored(log[g].payload) && forall j :: stored < j < g ==> !log[j].SignalStored?;
    var longer := log + [e];
    assert longer[enter] == GateEntered && longer[stored] == SignalStored(longer[g].payload);
    assert forall j :: stored < j < g ==> longer[j] == log[j];
  }

  lemma {:induction false} ClearedExtends(inp: Input, log: seq<Entry>, e: Entry)
    requires Cleared(inp, log)
    ensures Cleared(inp, log + [e])
  {
    if NeedsApproval(inp) {
      var g :| 3 <= g < |log| && DecidedAt(log, g) && log[g].payload.approved;
      DecidedAtExtends(log, e, g);
      assert (log + [e])[g].payload.approved;
    }
  }

  lemma {:induction false} AttemptsExtend(inp: Input, log: seq<Entry>, e: Entry)
    requires AttemptsCleared(inp, log) && (e.LlmAttempt? ==> Cleared(inp, log))
    ensures AttemptsCleared(inp, log + [e])
  {
    var longer := log + [e];
    forall i | 0 <= i < |longer| && longer[i].LlmAttempt? ensures Cleared(inp, longer[..i]) {
      assert longer[..i] == if i < |log| then log[..i] else log;
    }
  }

  lemma {:induction false} DecidedExtends(s: State, t: State, e: Entry)
    requires Decided(s) && t.log == s.log + [e] && t.signal == s.signal && t.approval == s.approval
    ensures Decided(t)
  {
    var g :| 3 <= g < |s.log| && DecidedAt(s.log, g) && s.signal == Some(s.log[g].payload) &&
      s.approval == if s.log[g].payload.approved then Approved else Denied;
    DecidedAtExtends(s.log, e, g);
    assert t.log[g] == s.log[g];
  }

  lemma {:induction false} ResumeDecides(inp: Input, s: State)
    requires GateInv(inp, s) && s.pc.WaitDecision? && s.signal.Some?
    ensures GateInv(inp, OnResume(s))
  {
    var t := OnResume(s);
    var g := |s.log|;
    assert t.log[3] == GateEntered && t.log[g - 1] == SignalStored(t.log[g].payload);
    assert DecidedAt(t.log, g);
    AttemptsExtend(inp, s.log, GateResumed(s.signal.value));
  }

  lemma {:induction false} AttemptedKeepsGate(inp: Input, s: State, emits: bool)
    requires GateInv(inp, s)
    ensures GateInv(inp, Attempted(inp, s, emits))
  {
    var n := s.attempt + 1;
    var t := Attempted(inp, s, emits);
    if s.pc == Llm {
      AttemptsExtend(inp, s.log, LlmAttempt(n));
      ClearedExtends(inp, s.log, LlmAttempt(n));
      if s.approval == Approved { DecidedExtends(s, t, LlmAttempt(n)); }
    } else {
      assert t.log == s.log;
      SameGate(inp, s, t);
    }
  }

  /** The invariant speaks of position, log, approval and signal, and briefly of status. */
  lemma {:induction false} SameGate(inp: Input, s: State, t: State)
    requires GateInv(inp, s)
    requires t.pc == s.pc && t.log == s.log && t.approval == s.approval && t.signal == s.signal
    requires s.pc.AnnounceDecision? || s.pc.AnnounceTimeout? ==> t.status == s.status
    ensures GateInv(inp, t)
  {
    if s.approval == Awaiting { assert AtGate(t); }
    if Decided(s) {
      var g :| 3 <= g < |s.log| && DecidedAt(s.log, g) && s.signal == Some(s.log[g].payload) &&
        s.approval == if s.log[g].payload.approved then Approved else Denied;
      assert Decided(t);
    }
  }

  lemma {:induction false} StageKeepsGate(inp: Input, s: State, a: Answer, now: real)
    requires GateInv(inp, s) && Fits(inp, s, a) && s.attempt > 0 && s.pc.InStage?
    ensures GateInv(inp, Advance(inp, s, a, now))
  {
    AttemptsExtend(inp, s.log, StageDone(s.pc.stage));
    if s.pc.stage == JITTokenIssue && NeedsApproval(inp) {
      AttemptsExtend(inp, s.log + [StageDone(JITTokenIssue)], GateEntered);
    }
  }

  lemma {:induction false} AdvanceKeepsGate(inp: Input, s: State, a: Answer, now: real)
    requires GateInv(inp, s) && Fits(inp, s, a) && s.attempt > 0 && IsActivity(s.pc)
    ensures GateInv(inp, Advance(inp, s, a, now))
  {
    if s.pc.InStage? {
      StageKeepsGate(inp, s, a, now);
    } else {
      var t := Advance(inp, s, a, now);
      if s.pc == AnnounceDecision { DecisionShown(s); }
      Moved(inp, s, t);
    }
  }

  lemma {:induction false} DecisionShown(s: State)
    requires Decided(s)
    ensures s.signal.Some? && (s.approval == Approved <==> s.signal.value.approved)
  {
  }

  /** Past the stages an advance changes position only, as far as the gate is concerned. */
  lemma {:induction false} Moved(inp: Input, s: State, t: State)
    requires GateInv(inp, s) && t.log == s.log && t.approval == s.approval && t.signal == s.signal
    requires GateInv(inp, s.(pc := t.pc)) && !t.pc.AnnounceDecision? && !t.pc.AnnounceTimeout?
    ensures GateInv(inp, t)
  {
    SameGate(inp, s.(pc := t.pc), t);
  }

  lemma {:induction false} SignalKeepsGate(inp: Input, s: State, p: Payload)
    requires GateInv(inp, s)
    ensures GateInv(inp, OnSignal(s, p))
  {
    if s.approval == Awaiting {
      AttemptsExtend(inp, s.log, SignalStored(p));
      assert s.pc.AnnouncePending? || s.pc.WaitDecision? || s.pc.Raised?;
      assert AtGate(OnSignal(s, p));
    }
  }

  lemma {:induction false} TimeoutKeepsGate(inp: Input, s: State)
    requires GateInv(inp, s) && s.pc.WaitDecision?
    ensures GateInv(inp, OnTimeout(s))
  {
    AttemptsExtend(inp, s.log, GateTimedOut);
  }

  lemma {:induction false} GiveUpKeepsGate(inp: Input, s: State, cause: Cause)
    requires GateInv(inp, s) && IsActivity(s.pc)
    ensures GateInv(inp, OnGiveUp(s, cause))
  {
    Moved(inp, s, OnGiveUp(s, cause));
  }

  lemma {:induction false} StepKeepsGate(inp: Input, s: State, e: Event)
    requires GateInv(inp, s)
    ensures GateInv(inp, Step(inp, s, e))
  {
    hide GateInv, OnSignal, OnResume, OnTimeout, OnGiveUp, Attempted, Advance, Fits, MaxAttempts, EmittedBy;
    match e
    case Start => StartKeepsGate(inp, s);
    case Signal(p) => SignalKeepsGate(inp, s, p);
    case Attempt(emits, answer, now) =>
      if IsActivity(s.pc) {
        AttemptedKeepsGate(inp, s, emits);
        AttemptedFrame(inp, s, emits);
        if Completes(inp, s, e) { AdvanceKeepsGate(inp, Attempted(inp, s, emits), answer.value, now); }
      }
    case GiveUp(cause) => if IsActivity(s.pc) { GiveUpKeepsGate(inp, s, cause); }
    case Resume => if s.pc.WaitDecision? && s.signal.Some? { ResumeDecides(inp, s); }
    case Timeout => if s.pc.WaitDecision? { TimeoutKeepsGate(inp, s); }
  }

  lemma {:induction false} AttemptedFrame(inp: Input, s: State, emits: bool)
    ensures var t := Attempted(inp, s, emits);
            && t.pc == s.pc && t.attempt == s.attempt + 1
            && forall a :: Fits(inp, s, a) ==> Fits(inp, t, a)
  {
  }

  lemma {:induction false} StartKeepsGate(inp: Input, s: State)
    requires GateInv(inp, s)
    ensures GateInv(inp, Step(inp, s, Start))
  {
  }

  lemma {:induction false} GateHolds(inp: Input, events: seq<Event>)
    ensures GateInv(inp, Exec(inp, events))
  {
    if events != [] {
      GateHolds(inp, events[..|events| - 1]);
      StepKeepsGate(inp, Exec(inp, events[..|events| - 1]), events[|events| - 1]);
      hide GateInv, Step;
    }
  }

  /** In every run, an LLM attempt happens only after the scrub, the policy evaluation and the token
      issue completed, in that order, and above the threshold only after the gate resumed on an
      approving payload that was the last one delivered while the gate was open. */
  lemma {:induction false} LlmIsGated(inp: Input, events: seq<Event>, i: nat)
    requires i < |Exec(inp, events).log| && Exec(inp, events).log[i].LlmAttempt?
    ensures Cleared(inp, Exec(inp, events).log[..i])
  {
    GateHolds(inp, events);
  }

  /** A decision other than a timeout is the last payload delivered between entering the gate and
      resuming; the decision is read from the payload, not from the signal's name. */
  lemma {:induction false} OutcomeIsLastPayload(inp: Input, events: seq<Event>)
    ensures var s := Exec(inp, events);
            (s.approval == Approved || s.approval == Denied) ==>
            exists g :: 3 <= g < |s.log| && DecidedAt(s.log, g) &&
              s.approval == if s.log[g].payload.approved then Approved else Denied
  {
    GateHolds(inp, events);
  }

  // ----- approval states -----

  predicate Final(a: Approval) {
    a == Approved || a == Denied || a == TimedOut
  }

  predicate Moves(a: Approval, b: Approval) {
    a == b || (a == NotRequired && b == Awaiting) || (a == Awaiting && Final(b))
  }

  lemma {:induction false} StepMovesApproval(inp: Input, s: State, e: Event)
    requires GateInv(inp, s)
    ensures Moves(s.approval, Step(inp, s, e).approval)
  {
  }

  /** The approval state only moves from not required to awaiting to one final state, which it
      never leaves. */
  lemma {:induction false} ApprovalOnlyMovesForward(inp: Input, events: seq<Event>, i: nat)
    requires i <= |events|
    ensures var (early, late) := (Exec(inp, events[..i]).approval, Exec(inp, events).approval);
            && (Final(early) ==> late == early)
            && (early == Awaiting ==> late != NotRequired)
    ensures i + 1 == |events| ==> Moves(Exec(inp, events[..i]).approval, Exec(inp, events).approval)
  {
    if i == |events| {
      assert events[..i] == events;
    } else {
      var n := |events| - 1;
      ApprovalOnlyMovesForward(inp, events[..n], i);
      assert events[..n][..i] == events[..i];
      GateHolds(inp, events[..n]);
      StepMovesApproval(inp, Exec(inp, events[..n]), events[n]);
      hide GateInv, Step;
    }
  }

  /** The run without the signals that arrive while the gate is not open. */
  function Heard(inp: Input, events: seq<Event>): seq<Event> {
    if events == [] then []
    else
      var n := |events| - 1;
      var s := Exec(inp, events[..n]);
      Heard(inp, events[..n]) +
      if events[n].Signal? && !(s.approval == Awaiting && IsOpen(s.pc)) then [] else [events[n]]
  }

  /** Signals before or after that window influence nothing: no field, no audit event, no log entry. */
  lemma {:induction false} UnheardSignalsAreInert(inp: Input, events: seq<Event>)
    ensures Exec(inp, Heard(inp, events)) == Exec(inp, events)
  {
    if events != [] {
      var n := |events| - 1;
      UnheardSignalsAreInert(inp, events[..n]);
      var heard := Heard(inp, events[..n]);
      assert (heard + [events[n]])[..|heard|] == heard;
      assert heard + [] == heard;
    }
  }
}

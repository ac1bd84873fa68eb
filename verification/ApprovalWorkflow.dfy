/** `AgentTaskWorkflow` as a transition system.

    The code between two awaits is one atomic step.  An activity is attempted up to a fixed
    number of times; an attempt may crash before or after the audit event it emits, and its result
    may be lost.  Signals arrive at any time.
 */
module ApprovalWorkflow {
  import opened Prelude
  import BL = BudgetLedger
  import BA = BudgetActivities

  datatype Payload = Payload(approverId: string, reason: string, approved: bool)

  datatype Approval = NotRequired | Awaiting | Approved | Denied | TimedOut

  datatype Status = Pending | Running | Completed | Failed | HumanIntervention | DeniedStatus | TimedOutStatus

  datatype Budget = Budget(sessionId: string, limit: real)

  datatype Input = Input(
    taskId: string, sessionId: Option<string>, agentType: string, projectedSpend: real,
    budget: Option<Budget>, price: real, operationId: string)

  const APPROVAL_THRESHOLD: real := 50.0

  predicate NeedsApproval(inp: Input) {
    inp.projectedSpend > APPROVAL_THRESHOLD
  }

  datatype Stage = PrePIIScrub | PolicyEval | JITTokenIssue

  /** Failures the workflow treats specially when `LLMInvoke` gives up, and all others. */
  datatype Cause = PolicyDenied | TokenScope | TokenExpired | OtherCause

  datatype Error = ActivityFailed | Refused(cause: Cause) | HitlEscalation

  datatype Output = Output(
    content: string, tokens: int, status: Status, approval: Approval,
    approverId: Option<string>, reason: Option<string>, spent: Option<real>)

  /** What the workflow awaits. */
  datatype Pc =
    | NotStarted
    | InStage(stage: Stage)
    | AnnouncePending | WaitDecision | AnnounceDecision | AnnounceTimeout
    | BudgetCheck | Llm | AnnounceFailure(cause: Cause) | AnnounceHitl | RecordSpend | PostSanitize
    | Returned(out: Output)
    | Raised(error: Error)

  datatype LlmResult = LlmResult(content: string, tokens: int, retries: nat)

  /** The lifecycle events of the audit trail. */
  datatype Lifecycle =
    | Started | PendingApproval | ApprovedEvent | DeniedEvent
    | Retried(count: nat) | CompletedEvent(totalRetries: nat) | FailedEvent

  /** What happened, in order; used to state what a run guarantees. */
  datatype Entry =
    | StageDone(stage: Stage)
    | GateEntered
    | SignalStored(payload: Payload)
    | GateResumed(payload: Payload)
    | GateTimedOut
    | LlmAttempt(number: nat)

  datatype State = State(
    pc: Pc,
    attempt: nat,                 // attempts made of the awaited activity
    approval: Approval,
    signal: Option<Payload>,
    status: Status,
    pendingSince: Option<real>,
    llm: Option<LlmResult>,
    spent: Option<real>,
    lifecycle: seq<Lifecycle>,
    log: seq<Entry>)

  const INITIAL := State(NotStarted, 0, NotRequired, None, Pending, None, None, None, [], [])

  datatype Answer = Done | Reply(content: string, tokens: int) | Sanitized(content: string)

  datatype Event =
    | Start
    | Signal(payload: Payload)
    | Attempt(emits: bool, answer: Option<Answer>, now: real)
    | GiveUp(cause: Cause)
    | Resume
    | Timeout

  // ----- activities -----

  predicate IsActivity(pc: Pc) {
    !pc.NotStarted? && !pc.WaitDecision? && !pc.Returned? && !pc.Raised?
  }

  /** The retry policies; `LLM_RETRY_POLICY` allows five attempts. */
  function MaxAttempts(pc: Pc): nat {
    if pc == Llm then 5 else if pc == InStage(PolicyEval) || pc == BudgetCheck then 1 else 3
  }

  /** The lifecycle event attempt `n` of the awaited activity emits, if any. */
  function EmittedBy(inp: Input, s: State, n: nat): Option<Lifecycle> {
    match s.pc
    case InStage(PrePIIScrub) => if inp.taskId != "" then Some(Started) else None
    case AnnouncePending => Some(PendingApproval)
    case AnnounceDecision =>
      if s.signal.None? then None else Some(if s.signal.value.approved then ApprovedEvent else DeniedEvent)
    case AnnounceTimeout => Some(DeniedEvent)
    case Llm => if n > 1 then Some(Retried(n - 1)) else None
    case AnnounceFailure(_) => Some(FailedEvent)
    case PostSanitize => if s.llm.Some? then Some(CompletedEvent(s.llm.value.retries)) else None
    case _ => None
  }

  function PreCheckOf(inp: Input): Result<BL.Snapshot, BA.ActivityError> {
    if inp.budget.None? then Err(BA.BudgetExceededError)
    else BA.PreCheck(inp.taskId, inp.agentType, inp.budget.value.sessionId, inp.budget.value.limit, [])
  }

  function RecordOf(inp: Input, tokens: int): Result<BA.RecordResult, BA.ActivityError> {
    if inp.budget.None? then Err(BA.BudgetExceededError)
    else
      BA.RecordSpend(
        BA.RecordInput(inp.taskId, inp.agentType, inp.budget.value.sessionId, inp.budget.value.limit,
                       tokens, inp.price, []),
        inp.operationId)
  }

  /** An answer the awaited activity can give.  Every activity of the loop needs a task id, and the
      budget activities answer as the ledger does. */
  predicate Fits(inp: Input, s: State, a: Answer) {
    match s.pc
    case InStage(_) => a.Done? && inp.taskId != ""
    case AnnounceDecision => a.Done? && s.signal.Some?
    case BudgetCheck => a.Done? && PreCheckOf(inp).Ok?
    case Llm => a.Reply?
    case RecordSpend => a.Done? && s.llm.Some? && RecordOf(inp, s.llm.value.tokens).Ok?
    case PostSanitize => a.Sanitized? && s.llm.Some?
    case _ => a.Done?
  }

  /** An attempt completes its activity: it emitted what it had to and its answer arrived. */
  predicate Completes(inp: Input, s: State, e: Event)
    requires e.Attempt?
  {
    && e.answer.Some? && Fits(inp, s, e.answer.value)
    && (EmittedBy(inp, s, s.attempt + 1).Some? ==> e.emits)
  }

  // ----- steps -----

  function Await(s: State, pc: Pc): State {
    s.(pc := pc, attempt := 0)
  }

  function PastGate(inp: Input, s: State): State {
    Await(s, if inp.budget.Some? then BudgetCheck else Llm)
  }

  function NegativeOutput(s: State, approverId: string, reason: string): Output {
    Output("", 0, s.status, s.approval, Some(approverId), Some(reason), s.spent)
  }

  /** What an attempt does, whether or not its answer arrives. */
  function Attempted(inp: Input, s: State, emits: bool): State {
    var n := s.attempt + 1;
    var event := EmittedBy(inp, s, n);
    s.(attempt := n,
       lifecycle := s.lifecycle + (if emits && event.Some? then [event.value] else []),
       log := s.log + (if s.pc == Llm then [LlmAttempt(n)] else []))
  }

  /** The workflow resumes with the answer of the awaited activity. */
  function Advance(inp: Input, s: State, a: Answer, now: real): State
    requires Fits(inp, s, a) && s.attempt > 0
  {
    match s.pc
    case InStage(PrePIIScrub) => Await(s.(log := s.log + [StageDone(PrePIIScrub)]), InStage(PolicyEval))
    case InStage(PolicyEval) => Await(s.(log := s.log + [StageDone(PolicyEval)]), InStage(JITTokenIssue))
    case InStage(JITTokenIssue) =>
      var t := s.(log := s.log + [StageDone(JITTokenIssue)]);
      if NeedsApproval(inp) then
        Await(t.(approval := Awaiting, status := HumanIntervention, pendingSince := Some(now),
                 log := t.log + [GateEntered]),
              AnnouncePending)
      else PastGate(inp, t)
    case AnnouncePending => Await(s, WaitDecision)
    case AnnounceDecision =>
      if s.signal.value.approved then PastGate(inp, s)
      else Await(s, Returned(NegativeOutput(s, s.signal.value.approverId, s.signal.value.reason)))
    case AnnounceTimeout => Await(s, Returned(NegativeOutput(s, "timeout", "Approval timed out")))
    case BudgetCheck => Await(s.(spent := Some(PreCheckOf(inp).value.cost)), Llm)
    case Llm =>
      Await(s.(llm := Some(LlmResult(a.content, a.tokens, s.attempt - 1))),
            if inp.budget.Some? then RecordSpend else PostSanitize)
    case RecordSpend => Await(s.(spent := Some(RecordOf(inp, s.llm.value.tokens).value.snapshot.cost)), PostSanitize)
    case PostSanitize =>
      Await(s.(status := Completed),
            Returned(Output(a.content, s.llm.value.tokens, Completed, s.approval, None, None, s.spent)))
    case AnnounceFailure(cause) => Await(s, Raised(Refused(cause)))
    case AnnounceHitl => Await(s, Raised(HitlEscalation))
    case _ => s
  }

  function OnAttempt(inp: Input, s: State, e: Event): State
    requires e.Attempt?
  {
    var t := Attempted(inp, s, e.emits);
    if Completes(inp, s, e) then Advance(inp, t, e.answer.value, e.now) else t
  }

  /** The server gives up on the awaited activity: attempts used up, error not retryable, or out of time. */
  function OnGiveUp(s: State, cause: Cause): State {
    if s.pc != Llm then Await(s, Raised(ActivityFailed))
    else if cause != OtherCause then Await(s.(status := Failed), AnnounceFailure(cause))
    else Await(s.(status := HumanIntervention), AnnounceHitl)
  }

  /** The `approve` and `deny` handlers: both store the payload, and only while awaiting. */
  function OnSignal(s: State, p: Payload): State {
    if s.approval == Awaiting then s.(signal := Some(p), log := s.log + [SignalStored(p)]) else s
  }

  function OnResume(s: State): State
    requires s.signal.Some?
  {
    var p := s.signal.value;
    Await(s.(approval := if p.approved then Approved else Denied,
             status := if p.approved then Running else DeniedStatus,
             pendingSince := None,
             log := s.log + [GateResumed(p)]),
          AnnounceDecision)
  }

  function OnTimeout(s: State): State {
    Await(s.(approval := TimedOut, status := TimedOutStatus, pendingSince := None, log := s.log + [GateTimedOut]),
          AnnounceTimeout)
  }

  predicate IsOpen(pc: Pc) {
    !pc.Returned? && !pc.Raised?
  }

  /** One step; an event that cannot happen in the current state changes nothing. */
  function Step(inp: Input, s: State, e: Event): State {
    match e
    case Start =>
      if s.pc.NotStarted? then Await(s.(status := Running, pendingSince := None), InStage(PrePIIScrub)) else s
    case Signal(p) => if IsOpen(s.pc) then OnSignal(s, p) else s
    case Attempt(_, _, _) => if IsActivity(s.pc) && s.attempt < MaxAttempts(s.pc) then OnAttempt(inp, s, e) else s
    case GiveUp(cause) => if IsActivity(s.pc) then OnGiveUp(s, cause) else s
    case Resume => if s.pc.WaitDecision? && s.signal.Some? then OnResume(s) else s
    case Timeout => if s.pc.WaitDecision? then OnTimeout(s) else s
  }

  /** The state after any interleaving of events. */
  function Exec(inp: Input, events: seq<Event>): State {
    if events == [] then INITIAL else Step(inp, Exec(inp, events[..|events| - 1]), events[|events| - 1])
  }

  // ----- the live workflow object -----

  datatype Snapshot = Snapshot(
    taskId: string, sessionId: Option<string>, agentType: string,
    status: Status, approval: Approval, pendingSince: Option<real>)

  /** What the `approval-status` query shows; before the run starts it knows nothing of its input. */
  function StatusOf(inp: Input, s: State): Snapshot {
    if s.pc.NotStarted? then Snapshot("", None, "general", s.status, s.approval, s.pendingSince)
    else Snapshot(inp.taskId, inp.sessionId, inp.agentType, s.status, s.approval, s.pendingSince)
  }

  class AgentTaskWorkflow {
    const inp: Input
    var pc: Pc
    var attempt: nat
    var approvalState: Approval
    var approvalSignal: Option<Payload>
    var workflowStatus: Status
    var pendingSince: Option<real>
    var llm: Option<LlmResult>
    var spent: Option<real>
    var lifecycle: seq<Lifecycle>
    var log: seq<Entry>

    constructor (inp: Input)
      ensures this.inp == inp && Now() == INITIAL
    {
      this.inp := inp;
      pc, attempt, approvalState, approvalSignal, workflowStatus := NotStarted, 0, NotRequired, None, Pending;
      pendingSince, llm, spent, lifecycle, log := None, None, None, [], [];
    }

    function Now(): State
      reads this
    {
      State(pc, attempt, approvalState, approvalSignal, workflowStatus, pendingSince, llm, spent, lifecycle, log)
    }

    method Approve(decision: Payload)
      requires IsOpen(pc)
      modifies this
      ensures Now() == Step(inp, old(Now()), Signal(decision))
    {
      if approvalState == Awaiting {
        approvalSignal := Some(decision);
        log := log + [SignalStored(decision)];
      }
    }

    method Deny(decision: Payload)
      requires IsOpen(pc)
      modifies this
      ensures Now() == Step(inp, old(Now()), Signal(decision))
    {
      if approvalState == Awaiting {
        approvalSignal := Some(decision);
        log := log + [SignalStored(decision)];
      }
    }

    method ApprovalStatus() returns (r: Snapshot)
      ensures r == StatusOf(inp, Now())
    {
      var taskId, sessionId, agentType := "", None, "general";
      if !pc.NotStarted? { taskId, sessionId, agentType := inp.taskId, inp.sessionId, inp.agentType; }
      return Snapshot(taskId, sessionId, agentType, workflowStatus, approvalState, pendingSince);
    }

    method Begin()
      requires pc.NotStarted?
      modifies this
      ensures Now() == Step(inp, old(Now()), Start)
    {
      workflowStatus, pendingSince := Running, None;
      pc, attempt := InStage(PrePIIScrub), 0;
    }

    method EnterGate(now: real)
      modifies this
      ensures Now() == Await(old(Now()).(approval := Awaiting, status := HumanIntervention, pendingSince := Some(now),
                                         log := old(log) + [GateEntered]), AnnouncePending)
    {
      approvalState := Awaiting;
      workflowStatus := HumanIntervention;
      pendingSince := Some(now);
      log := log + [GateEntered];
      pc, attempt := AnnouncePending, 0;
    }

    /** One attempt of the awaited activity and, if its answer arrives, the code up to the next await. */
    method TryActivity(emits: bool, answer: Option<Answer>, now: real)
      requires IsActivity(pc) && attempt < MaxAttempts(pc)
      modifies this
      ensures Now() == Step(inp, old(Now()), Attempt(emits, answer, now))
    {
      var done := Completes(inp, Now(), Attempt(emits, answer, now));
      var event := EmittedBy(inp, Now(), attempt + 1);
      attempt := attempt + 1;
      if emits && event.Some? { lifecycle := lifecycle + [event.value]; } else { assert lifecycle + [] == lifecycle; }
      if pc == Llm { log := log + [LlmAttempt(attempt)]; } else { assert log + [] == log; }
      if done { Continue(answer.value, now); }
    }

    /** The body of `run` from one await to the next. */
    method Continue(answer: Answer, now: real)
      requires IsActivity(pc) && attempt > 0 && Fits(inp, Now(), answer)
      modifies this
      ensures Now() == Advance(inp, old(Now()), answer, now)
    {
      var past := if inp.budget.Some? then BudgetCheck else Llm;
      match pc
      case InStage(PrePIIScrub) =>
        log := log + [StageDone(PrePIIScrub)];
        pc, attempt := InStage(PolicyEval), 0;
      case InStage(PolicyEval) =>
        log := log + [StageDone(PolicyEval)];
        pc, attempt := InStage(JITTokenIssue), 0;
      case InStage(JITTokenIssue) =>
        log := log + [StageDone(JITTokenIssue)];
        if inp.projectedSpend > APPROVAL_THRESHOLD { EnterGate(now); } else { pc, attempt := past, 0; }
      case AnnouncePending =>
        pc, attempt := WaitDecision, 0;
      case AnnounceDecision =>
        var decision := approvalSignal.value;
        var id, reason := Some(decision.approverId), Some(decision.reason);
        pc, attempt :=
          if decision.approved then past
          else Returned(Output("", 0, workflowStatus, approvalState, id, reason, spent)), 0;
      case AnnounceTimeout =>
        var id, reason := Some("timeout"), Some("Approval timed out");
        pc, attempt := Returned(Output("", 0, workflowStatus, approvalState, id, reason, spent)), 0;
      case BudgetCheck =>
        spent := Some(PreCheckOf(inp).value.cost);
        pc, attempt := Llm, 0;
      case Llm =>
        llm := Some(LlmResult(answer.content, answer.tokens, attempt - 1));
        pc, attempt := if inp.budget.Some? then RecordSpend else PostSanitize, 0;
      case RecordSpend =>
        spent := Some(RecordOf(inp, llm.value.tokens).value.snapshot.cost);
        pc, attempt := PostSanitize, 0;
      case PostSanitize =>
        workflowStatus := Completed;
        pc, attempt :=
          Returned(Output(answer.content, llm.value.tokens, Completed, approvalState, None, None, spent)), 0;
      case AnnounceFailure(cause) =>
        pc, attempt := Raised(Refused(cause)), 0;
      case AnnounceHitl =>
        pc, attempt := Raised(HitlEscalation), 0;
    }

    method ActivityGivesUp(cause: Cause)
      requires IsActivity(pc)
      modifies this
      ensures Now() == Step(inp, old(Now()), GiveUp(cause))
    {
      if pc != Llm {
        pc, attempt := Raised(ActivityFailed), 0;
      } else if cause != OtherCause {
        workflowStatus := Failed;
        pc, attempt := AnnounceFailure(cause), 0;
      } else {
        workflowStatus := HumanIntervention;
        pc, attempt := AnnounceHitl, 0;
      }
    }

    method Wake()
      requires pc.WaitDecision? && approvalSignal.Some?
      modifies this
      ensures Now() == Step(inp, old(Now()), Resume)
    {
      var signal := approvalSignal.value;
      approvalState := if signal.approved then Approved else Denied;
      workflowStatus := if signal.approved then Running else DeniedStatus;
      pendingSince := None;
      log := log + [GateResumed(signal)];
      pc, attempt := AnnounceDecision, 0;
    }

    method WakeOnTimeout()
      requires pc.WaitDecision?
      modifies this
      ensures Now() == Step(inp, old(Now()), Timeout)
    {
      approvalState := TimedOut;
      workflowStatus := TimedOutStatus;
      pendingSince := None;
      log := log + [GateTimedOut];
      pc, attempt := AnnounceTimeout, 0;
    }
  }
}

/** Every outcome the workflow documents can be reached. */
module ReachTheorems {
  import opened Prelude
  import opened DecimalContext
  import BA = BudgetActivities
  import opened ApprovalWorkflow
  import WT = WorkflowTheorems

  lemma {:induction false} Happens(inp: Input, events: seq<Event>, e: Event) returns (longer: seq<Event>)
    ensures Exec(inp, longer) == Step(inp, Exec(inp, events), e)
  {
    longer := events + [e];
    assert longer[..|events|] == events;
  }

  /** The awaited activity succeeds at its first attempt. */
  lemma {:induction false} Succeeds(inp: Input, events: seq<Event>, a: Answer) returns (longer: seq<Event>)
    requires var s := Exec(inp, events); IsActivity(s.pc) && s.attempt == 0 && Fits(inp, s, a)
    ensures var s := Exec(inp, events);
            && Attempted(inp, s, true).attempt > 0 && Fits(inp, Attempted(inp, s, true), a)
            && Exec(inp, longer) == Advance(inp, Attempted(inp, s, true), a, 0.0)
  {
    var s := Exec(inp, events);
    WT.AttemptedFrame(inp, s, true);
    longer := Happens(inp, events, Attempt(true, Some(a), 0.0));
    hide Exec, Advance, Fits, EmittedBy, Attempted;
  }

  predicate Awaits(s: State, pc: Pc, approval: Approval) {
    s.pc == pc && s.attempt == 0 && s.approval == approval
  }

  function AfterGate(inp: Input): Pc {
    if inp.budget.Some? then BudgetCheck else Llm
  }

  lemma {:induction false} ReachesToken(inp: Input) returns (events: seq<Event>)
    requires inp.taskId != ""
    ensures var s := Exec(inp, events); Awaits(s, InStage(JITTokenIssue), NotRequired) && s.spent == None
  {
    events := Happens(inp, [], Start);
    assert Awaits(Exec(inp, events), InStage(PrePIIScrub), NotRequired) && Exec(inp, events).spent == None;
    hide Exec;
    events := Succeeds(inp, events, Done);
    assert Awaits(Exec(inp, events), InStage(PolicyEval), NotRequired) && Exec(inp, events).spent == None;
    events := Succeeds(inp, events, Done);
  }

  /** Up to 50.00 no approval is asked for. */
  lemma {:induction false} PassesUnasked(inp: Input) returns (events: seq<Event>)
    requires inp.taskId != "" && inp.projectedSpend <= 50.0
    ensures var s := Exec(inp, events); Awaits(s, AfterGate(inp), NotRequired) && s.spent == None
  {
    events := ReachesToken(inp);
    hide Exec;
    events := Succeeds(inp, events, Done);
  }

  lemma {:induction false} ReachesGate(inp: Input) returns (events: seq<Event>)
    requires inp.taskId != "" && inp.projectedSpend > 50.0
    ensures var s := Exec(inp, events); Awaits(s, WaitDecision, Awaiting) && s.spent == None
  {
    events := ReachesToken(inp);
    hide Exec;
    events := Succeeds(inp, events, Done);
    assert Awaits(Exec(inp, events), AnnouncePending, Awaiting) && Exec(inp, events).spent == None;
    events := Succeeds(inp, events, Done);
  }

  /** A decision is delivered and announced. */
  lemma {:induction false} Decides(inp: Input, p: Payload) returns (events: seq<Event>)
    requires inp.taskId != "" && inp.projectedSpend > 50.0
    ensures var s := Exec(inp, events);
            if p.approved then Awaits(s, AfterGate(inp), Approved) && s.spent == None
            else s.pc == Returned(Output("", 0, DeniedStatus, Denied, Some(p.approverId), Some(p.reason), None))
  {
    events := ReachesGate(inp);
    hide Exec;
    events := Happens(inp, events, Signal(p));
    assert Awaits(Exec(inp, events), WaitDecision, Awaiting) && Exec(inp, events).signal == Some(p);
    assert Exec(inp, events).spent == None;
    events := Happens(inp, events, Resume);
    var s := Exec(inp, events);
    assert Awaits(s, AnnounceDecision, if p.approved then Approved else Denied) && s.signal == Some(p);
    assert s.spent == None && s.status == if p.approved then Running else DeniedStatus;
    events := Succeeds(inp, events, Done);
  }

  /** Nobody decides in time. */
  lemma {:induction false} TimesOut(inp: Input) returns (events: seq<Event>)
    requires inp.taskId != "" && inp.projectedSpend > 50.0
    ensures Exec(inp, events).pc ==
            Returned(Output("", 0, TimedOutStatus, TimedOut, Some("timeout"), Some("Approval timed out"), None))
  {
    events := ReachesGate(inp);
    hide Exec;
    events := Happens(inp, events, Timeout);
    var s := Exec(inp, events);
    assert Awaits(s, AnnounceTimeout, TimedOut) && s.spent == None && s.status == TimedOutStatus;
    events := Succeeds(inp, events, Done);
  }

  /** What a budget must allow for a run to complete. */
  predicate Affordable(inp: Input, tokens: int) {
    inp.budget.Some? ==> 0.0 < inp.budget.value.limit && Mul(tokens as real, inp.price) <= inp.budget.value.limit
  }

  lemma {:induction false} BudgetAnswers(inp: Input, tokens: int)
    requires inp.taskId != "" && inp.budget.Some? && Affordable(inp, tokens)
    ensures PreCheckOf(inp).Ok?
    ensures RecordOf(inp, tokens).Ok? && RecordOf(inp, tokens).value.snapshot.cost == Mul(tokens as real, inp.price)
  {
    var b := inp.budget.value;
    BA.FirstPreCheck(inp.taskId, inp.agentType, b.sessionId, b.limit);
    BA.FirstRecord(
      BA.RecordInput(inp.taskId, inp.agentType, b.sessionId, b.limit, tokens, inp.price, []), inp.operationId);
    hide BA.PreCheck, BA.RecordSpend, Mul;
  }

  lemma {:induction false} ReachesLlm(inp: Input, events: seq<Event>, approval: Approval, tokens: int)
    returns (longer: seq<Event>)
    requires inp.taskId != "" && Affordable(inp, tokens) && Awaits(Exec(inp, events), AfterGate(inp), approval)
    requires Exec(inp, events).spent == None
    ensures var s := Exec(inp, longer);
            Awaits(s, Llm, approval) && (inp.budget.None? ==> s.spent == None)
  {
    longer := events;
    hide Exec;
    if inp.budget.Some? {
      BudgetAnswers(inp, tokens);
      hide PreCheckOf;
      longer := Succeeds(inp, events, Done);
    }
  }

  lemma {:induction false} AnswersAndRecords(
    inp: Input, events: seq<Event>, approval: Approval, content: string, tokens: int)
    returns (longer: seq<Event>)
    requires inp.taskId != "" && Affordable(inp, tokens) && Awaits(Exec(inp, events), Llm, approval)
    requires inp.budget.None? ==> Exec(inp, events).spent == None
    ensures var s := Exec(inp, longer);
            && Awaits(s, PostSanitize, approval) && s.llm == Some(LlmResult(content, tokens, 0))
            && s.spent == if inp.budget.Some? then Some(Mul(tokens as real, inp.price)) else None
  {
    hide Exec, Mul;
    longer := Succeeds(inp, events, Reply(content, tokens));
    var s := Exec(inp, longer);
    assert Awaits(s, if inp.budget.Some? then RecordSpend else PostSanitize, approval);
    assert s.llm == Some(LlmResult(content, tokens, 0)) && s.spent == Exec(inp, events).spent;
    if inp.budget.Some? {
      BudgetAnswers(inp, tokens);
      hide RecordOf;
      longer := Succeeds(inp, longer, Done);
    }
  }

  /** A task that no reviewer denies and that its budget can pay for has a run that completes with the
      sanitized reply, the tokens of the reply and the rounded price of them as its spend. */
  lemma {:induction false} TasksCanComplete(
    inp: Input, p: Payload, content: string, tokens: int, sanitized: string)
    returns (events: seq<Event>)
    requires inp.taskId != "" && Affordable(inp, tokens) && p.approved
    ensures Exec(inp, events).pc ==
            Returned(Output(sanitized, tokens, Completed, if inp.projectedSpend > 50.0 then Approved else NotRequired,
                            None, None, if inp.budget.Some? then Some(Mul(tokens as real, inp.price)) else None))
  {
    var approval := if inp.projectedSpend > 50.0 then Approved else NotRequired;
    hide Exec, Mul;
    if inp.projectedSpend > 50.0 { events := Decides(inp, p); } else { events := PassesUnasked(inp); }
    events := ReachesLlm(inp, events, approval, tokens);
    events := AnswersAndRecords(inp, events, approval, content, tokens);
    events := Succeeds(inp, events, Sanitized(sanitized));
  }
}

/** The orchestrator's stage pipeline with its audit trace, for every behaviour of the collaborators.

    Each stage runs inside a span: an exception leaving the span raises the error counter of the
    stage once and, unless it is one of the controlled types, adds a `stage.error` event.
 */
module OrchestratorPipeline {
  import opened Prelude

  datatype Exn =
    // intentional governance decisions, audited by the stage that raises them
    | PolicyDenied | TokenExpired | TokenRevoked | TokenScope | BudgetLimit | LoopHalt | LoopVelocity | LoopApproval
    // raised by the watchdog and the policy client, and translated by the stages that call them
    | OpaUnavailable | BudgetExceeded | LoopDetected | VelocityExceeded | ApprovalPending
    // everything else
    | MissingTaskId | PermissionDenied | NoBinding | OtherError(text: string)

  /** `_CONTROLLED_EXC` */
  predicate Controlled(e: Exn) {
    || e.PolicyDenied? || e.TokenExpired? || e.TokenRevoked? || e.TokenScope?
    || e.BudgetLimit? || e.LoopHalt? || e.LoopVelocity? || e.LoopApproval?
  }

  datatype Span =
    | PrePiiScrub | PolicyEval | PolicyMask | JitTokenIssue | WatchdogPreLlm
    | LlmInvoke | WatchdogRecordSpend | WatchdogLoopDetect | PostSanitize

  datatype Outcome = Allow | Deny | Redact | Error

  datatype AuditEvent = AuditEvent(name: string, outcome: Outcome, stage: Span)

  datatype Request = Request(
    hasTaskId: bool, prompt: string, agentType: string, sessionToken: string,
    protectOutbound: bool, budgeted: bool, looped: bool)

  datatype Mask = Mask(text: string, found: seq<string>)
  datatype Policy = Policy(allowed: bool, action: string, fields: seq<string>)
  datatype Claims = Claims(expired: bool, agentType: string)
  datatype Response = Response(content: string, tokens: int)

  /** What each collaborator does when called: it answers or raises. */
  datatype Env = Env(
    injection: Option<Exn>,
    mask: string -> Result<Mask, Exn>,
    policy: Result<Policy, Exn>,
    scrub: string -> Result<Mask, Exn>,
    validate: Result<Claims, Exn>,
    issue: Result<string, Exn>,
    validateIssued: Option<Exn>,
    binding: Result<bool, Exn>,
    protect: Option<Exn>,
    checkBudget: Option<Exn>,
    complete: string -> Result<Response, Exn>,
    recordSpend: Option<Exn>,
    recordStep: Option<Exn>)

  /** How a stage body ends: what it emitted, which prompts it sent to the adapter, and the exception
      that left it. */
  datatype Body = Body(events: seq<AuditEvent>, calls: seq<string>, failure: Option<Exn>)

  function Passed(events: seq<AuditEvent>): Body {
    Body(events, [], None)
  }

  /** An exception of a collaborator passes through after `events`. */
  function Raised(events: seq<AuditEvent>, e: Exn): Body {
    Body(events, [], Some(e))
  }

  /** The stage audits a refusal and raises `e`. */
  function Refused(name: string, outcome: Outcome, stage: Span, e: Exn): Body {
    Body([AuditEvent(name, outcome, stage)], [], Some(e))
  }

  // ----- stage bodies -----

  function RedactIf(found: seq<string>): Outcome {
    if found != [] then Redact else Allow
  }

  function PreBody(req: Request, env: Env): Body {
    if env.injection.Some? then Raised([], env.injection.value)
    else
      var m := env.mask(req.prompt);
      if m.Err? then Raised([], m.error)
      else Passed([AuditEvent("guardrails.pre_sanitize", RedactIf(m.value.found), PrePiiScrub)])
  }

  function PolicyBody(env: Env): Body {
    match env.policy
    case Err(e) =>
      if e == OpaUnavailable then Refused("policy.opa_unavailable", Error, PolicyEval, PolicyDenied) else Raised([], e)
    case Ok(p) =>
      if !p.allowed || p.action == "reject" then Refused("policy.denied", Deny, PolicyEval, PolicyDenied)
      else Passed([AuditEvent("policy.allowed", Allow, PolicyEval)])
  }

  /** Re-scrubbing: each `prompt` field scrubs the text once more and adds the types not seen yet. */
  function Rescrub(env: Env, fields: seq<string>, m: Mask): Result<Mask, Exn> {
    if fields == [] then Ok(m)
    else
      var before := Rescrub(env, fields[..|fields| - 1], m);
      if before.Err? || fields[|fields| - 1] != "prompt" then before
      else
        var again := env.scrub(before.value.text);
        if again.Err? then again else Ok(Mask(again.value.text, Merge(before.value.found, again.value.found)))
  }

  /** `b`'s types appended to `a`'s, without those already there. */
  function Merge(a: seq<string>, b: seq<string>): seq<string> {
    if b == [] then a
    else
      var before := Merge(a, b[..|b| - 1]);
      if b[|b| - 1] in before then before else before + [b[|b| - 1]]
  }

  function MaskBody(req: Request, env: Env): Body {
    var m := Sanitized(req, env);
    if m.Err? then Raised([], m.error) else Passed([AuditEvent("policy.mask_applied", Redact, PolicyEval)])
  }

  predicate Masks(env: Env) {
    env.policy.Ok? && env.policy.value.action == "mask"
  }

  /** The prompt as the adapter may see it. */
  function Sanitized(req: Request, env: Env): Result<Mask, Exn> {
    var m := env.mask(req.prompt);
    if m.Err? || !Masks(env) then m else Rescrub(env, env.policy.value.fields, m.value)
  }

  function TokenEvent(req: Request): AuditEvent {
    AuditEvent(if req.sessionToken != "" then "token.validated" else "token.issued", Allow, JitTokenIssue)
  }

  /** Getting hold of a token: check the one supplied, or issue and re-read a fresh one. */
  function TokenPart(req: Request, env: Env): Body {
    if req.sessionToken != "" then
      match env.validate
      case Err(e) =>
        if e == TokenExpired then Refused("token.expired", Deny, JitTokenIssue, TokenExpired)
        else if e == TokenRevoked then Refused("token.revoked", Deny, JitTokenIssue, PermissionDenied)
        else Raised([], e)
      case Ok(claims) =>
        if claims.expired then Refused("token.expired", Deny, JitTokenIssue, TokenExpired)
        else if claims.agentType != req.agentType then Refused("token.scope_violation", Deny, JitTokenIssue, TokenScope)
        else Passed([TokenEvent(req)])
    else if env.issue.Err? then Raised([], env.issue.error)
    else if env.validateIssued.Some? then Raised([], env.validateIssued.value)
    else Passed([TokenEvent(req)])
  }

  const CONSTRAINED := AuditEvent("token.sender_constrained_issued", Allow, JitTokenIssue)

  function TokenBody(req: Request, env: Env): Body {
    var part := TokenPart(req, env);
    if part.failure.Some? || !req.protectOutbound then part
    else if env.binding.Err? then Raised(part.events, env.binding.error)
    else if !env.binding.value then Raised(part.events, NoBinding)
    else if env.protect.Some? then Raised(part.events, env.protect.value)
    else Passed(part.events + [CONSTRAINED])
  }

  function PreBudgetBody(env: Env): Body {
    match env.checkBudget
    case Some(e) =>
      if e == BudgetExceeded then Refused("budget.exceeded", Deny, WatchdogPreLlm, BudgetLimit) else Raised([], e)
    case None => Passed([AuditEvent("budget.pre_check", Allow, WatchdogPreLlm)])
  }

  function LlmBody(prompt: string, env: Env): Body {
    var r := env.complete(prompt);
    if r.Err? then Body([], [prompt], Some(r.error))
    else Body([AuditEvent("llm.completed", Allow, LlmInvoke)], [prompt], None)
  }

  function SpendBody(env: Env): Body {
    match env.recordSpend
    case Some(e) =>
      if e == BudgetExceeded then Refused("budget.exceeded_on_record", Deny, WatchdogRecordSpend, BudgetLimit)
      else Raised([], e)
    case None => Passed([AuditEvent("budget.spend_recorded", Allow, WatchdogRecordSpend)])
  }

  function LoopBody(env: Env): Body {
    match env.recordStep
    case Some(e) =>
      if e == LoopDetected then Refused("loop.halted", Deny, WatchdogLoopDetect, LoopHalt)
      else if e == VelocityExceeded then Refused("loop.velocity_exceeded", Deny, WatchdogLoopDetect, LoopVelocity)
      else if e == ApprovalPending then Refused("loop.pending_approval", Deny, WatchdogLoopDetect, LoopApproval)
      else Raised([], e)
    case None => Passed([AuditEvent("loop.step_recorded", Allow, WatchdogLoopDetect)])
  }

  function PostBody(content: string, env: Env): Body {
    var m := env.mask(content);
    if m.Err? then Raised([], m.error)
    else Passed([AuditEvent("guardrails.post_sanitize", RedactIf(m.value.found), PostSanitize)])
  }

  // ----- the pipeline -----

  datatype Stage = Stage(span: Span, body: Body)

  function PromptOf(req: Request, env: Env): string {
    var m := Sanitized(req, env);
    if m.Ok? then m.value.text else ""
  }

  function ContentOf(req: Request, env: Env): string {
    var r := env.complete(PromptOf(req, env));
    if r.Ok? then r.value.content else ""
  }

  /** A stage that is configured, followed by the rest. */
  function Then(configured: bool, span: Span, body: Body, rest: seq<Stage>): seq<Stage> {
    if configured then [Stage(span, body)] + rest else rest
  }

  function FromPost(req: Request, env: Env): seq<Stage> {
    Then(true, PostSanitize, PostBody(ContentOf(req, env), env), [])
  }

  function FromLoop(req: Request, env: Env): seq<Stage> {
    Then(req.looped, WatchdogLoopDetect, LoopBody(env), FromPost(req, env))
  }

  function FromSpend(req: Request, env: Env): seq<Stage> {
    Then(req.budgeted, WatchdogRecordSpend, SpendBody(env), FromLoop(req, env))
  }

  function FromLlm(req: Request, env: Env): seq<Stage> {
    Then(true, LlmInvoke, LlmBody(PromptOf(req, env), env), FromSpend(req, env))
  }

  function FromBudget(req: Request, env: Env): seq<Stage> {
    Then(req.budgeted, WatchdogPreLlm, PreBudgetBody(env), FromLlm(req, env))
  }

  function FromToken(req: Request, env: Env): seq<Stage> {
    Then(true, JitTokenIssue, TokenBody(req, env), FromBudget(req, env))
  }

  function FromMask(req: Request, env: Env): seq<Stage> {
    Then(Masks(env), PolicyMask, MaskBody(req, env), FromToken(req, env))
  }

  function FromPolicy(req: Request, env: Env): seq<Stage> {
    Then(true, PolicyEval, PolicyBody(env), FromMask(req, env))
  }

  /** The stages in the order they run; a stage runs only if all before it passed. */
  function Stages(req: Request, env: Env): seq<Stage> {
    Then(true, PrePiiScrub, PreBody(req, env), FromPolicy(req, env))
  }

  /** What running stages adds to the audit trail, the error counters and the adapter's calls. */
  datatype Report = Report(events: seq<AuditEvent>, errors: seq<Span>, calls: seq<string>, failure: Option<Exn>)

  /** Leaving a span. */
  function Close(st: Stage): Report {
    if st.body.failure.None? then Report(st.body.events, [], st.body.calls, None)
    else
      var e := st.body.failure.value;
      Report(st.body.events + (if Controlled(e) then [] else [AuditEvent("stage.error", Error, st.span)]),
             [st.span], st.body.calls, Some(e))
  }

  function Plus(a: Report, b: Report): Report {
    Report(a.events + b.events, a.errors + b.errors, a.calls + b.calls, b.failure)
  }

  const NOTHING := Report([], [], [], None)

  function RunStages(stages: seq<Stage>): Report {
    if stages == [] then NOTHING
    else
      var first := Close(stages[0]);
      if first.failure.Some? then first else Plus(first, RunStages(stages[1..]))
  }

  function Pipeline(req: Request, env: Env): Report {
    if !req.hasTaskId then Report([], [], [], Some(MissingTaskId)) else RunStages(Stages(req, env))
  }

  /** What running a configured stage and the rest adds. */
  function AndThen(configured: bool, stage: Report, rest: Report): Report {
    if !configured then rest else if stage.failure.Some? then stage else Plus(stage, rest)
  }

  lemma {:induction false} RunThen(configured: bool, span: Span, body: Body, rest: seq<Stage>)
    ensures RunStages(Then(configured, span, body, rest)) ==
            AndThen(configured, Close(Stage(span, body)), RunStages(rest))
  {
    if configured {
      assert Then(configured, span, body, rest)[1..] == rest;
    }
  }

  lemma {:induction false} PlusAssoc(a: Report, b: Report, c: Report)
    ensures Plus(Plus(a, b), c) == Plus(a, Plus(b, c))
  {
  }

  // ----- the live orchestrator -----

  /** `r` is the adapter's reply to `prompt`, masked. */
  predicate Answers(env: Env, prompt: string, r: Result<Mask, Exn>) {
    var reply := env.complete(prompt);
    reply.Ok? && r == env.mask(reply.value.content)
  }

  datatype Completion = Completion(
    content: string, sanitizedPrompt: string, piiInPrompt: seq<string>, piiInResponse: seq<string>)

  class Orchestrator {
    var audit: seq<AuditEvent>
    var errors: seq<Span>
    var calls: seq<string>

    constructor ()
      ensures audit == [] && errors == [] && calls == []
    {
      audit, errors, calls := [], [], [];
    }

    /** What the collaborators have seen so far, ending with `failure`. */
    function Seen(failure: Option<Exn>): Report
      reads this
    {
      Report(audit, errors, calls, failure)
    }

    method Emit(name: string, outcome: Outcome, stage: Span)
      modifies this
      ensures audit == old(audit) + [AuditEvent(name, outcome, stage)] && errors == old(errors) && calls == old(calls)
    {
      audit := audit + [AuditEvent(name, outcome, stage)];
    }

    /** An exception leaves the span. */
    method Leave(span: Span, e: Exn)
      modifies this
      ensures errors == old(errors) + [span] && calls == old(calls)
      ensures audit == old(audit) + if Controlled(e) then [] else [AuditEvent("stage.error", Error, span)]
    {
      errors := errors + [span];
      if !Controlled(e) { audit := audit + [AuditEvent("stage.error", Error, span)]; }
    }

    method PreSanitize(req: Request, env: Env) returns (r: Result<Mask, Exn>)
      modifies this
      ensures Seen(if r.Err? then Some(r.error) else None) ==
              Plus(old(Seen(None)), Close(Stage(PrePiiScrub, PreBody(req, env))))
      ensures r.Ok? ==> r == env.mask(req.prompt)
    {
      if env.injection.Some? { Leave(PrePiiScrub, env.injection.value); return Err(env.injection.value); }
      r := env.mask(req.prompt);
      if r.Err? { Leave(PrePiiScrub, r.error); return; }
      Emit("guardrails.pre_sanitize", if r.value.found != [] then Redact else Allow, PrePiiScrub);
    }

    method EvaluatePolicy(env: Env) returns (r: Result<Policy, Exn>)
      modifies this
      ensures Seen(if r.Err? then Some(r.error) else None) ==
              Plus(old(Seen(None)), Close(Stage(PolicyEval, PolicyBody(env))))
      ensures r.Ok? ==> r == env.policy
    {
      r := env.policy;
      if r.Err? {
        var e := r.error;
        if e == OpaUnavailable {
          Emit("policy.opa_unavailable", Error, PolicyEval);
          e := PolicyDenied;
        }
        Leave(PolicyEval, e);
        return Err(e);
      }
      if !r.value.allowed || r.value.action == "reject" {
        Emit("policy.denied", Deny, PolicyEval);
        Leave(PolicyEval, PolicyDenied);
        return Err(PolicyDenied);
      }
      Emit("policy.allowed", Allow, PolicyEval);
    }

    method MergeTypes(a: seq<string>, b: seq<string>) returns (r: seq<string>)
      ensures r == Merge(a, b)
    {
      r := a;
      for i := 0 to |b|
        invariant r == Merge(a, b[..i])
      {
        assert b[..i + 1][..i] == b[..i];
        if b[i] !in r { r := r + [b[i]]; }
      }
      assert b[..|b|] == b;
    }

    method ApplyMask(req: Request, env: Env, fields: seq<string>, m: Mask) returns (r: Result<Mask, Exn>)
      requires env.policy.Ok? && env.policy.value.action == "mask" && env.policy.value.fields == fields
      requires env.mask(req.prompt) == Ok(m)
      modifies this
      ensures Seen(if r.Err? then Some(r.error) else None) ==
              Plus(old(Seen(None)), Close(Stage(PolicyMask, MaskBody(req, env))))
      ensures r == Rescrub(env, fields, m)
    {
      r := Ok(m);
      for i := 0 to |fields|
        invariant r.Ok? && r == Rescrub(env, fields[..i], m)
        invariant audit == old(audit) && errors == old(errors) && calls == old(calls)
      {
        assert fields[..i + 1][..i] == fields[..i];
        if fields[i] == "prompt" {
          var again := env.scrub(r.value.text);
          if again.Err? {
            RescrubFails(env, fields, i + 1, m);
            assert fields[..|fields|] == fields;
            Leave(PolicyMask, again.error);
            return Err(again.error);
          }
          var types := MergeTypes(r.value.found, again.value.found);
          r := Ok(Mask(again.value.text, types));
        }
      }
      assert fields[..|fields|] == fields;
      Emit("policy.mask_applied", Redact, PolicyEval);
    }

    /** The token itself, inside the span: supplied and checked, or issued and re-read. */
    method FindToken(req: Request, env: Env) returns (failure: Option<Exn>)
      modifies this
      ensures var part := TokenPart(req, env);
              && audit == old(audit) + part.events && errors == old(errors) && calls == old(calls)
              && failure == part.failure
    {
      if req.sessionToken == "" {
        if env.issue.Err? { return Some(env.issue.error); }
        if env.validateIssued.Some? { return env.validateIssued; }
        Emit("token.issued", Allow, JitTokenIssue);
        return None;
      }
      if env.validate.Err? {
        if env.validate.error == TokenExpired {
          Emit("token.expired", Deny, JitTokenIssue);
          return Some(TokenExpired);
        }
        if env.validate.error == TokenRevoked {
          Emit("token.revoked", Deny, JitTokenIssue);
          return Some(PermissionDenied);
        }
        return Some(env.validate.error);
      }
      if env.validate.value.expired {
        Emit("token.expired", Deny, JitTokenIssue);
        return Some(TokenExpired);
      }
      if env.validate.value.agentType != req.agentType {
        Emit("token.scope_violation", Deny, JitTokenIssue);
        return Some(TokenScope);
      }
      Emit("token.validated", Allow, JitTokenIssue);
      return None;
    }

    method ObtainToken(req: Request, env: Env) returns (failure: Option<Exn>)
      modifies this
      ensures Seen(failure) == Plus(old(Seen(None)), Close(Stage(JitTokenIssue, TokenBody(req, env))))
    {
      failure := FindToken(req, env);
      if failure.None? && req.protectOutbound {
        failure :=
          if env.binding.Err? then Some(env.binding.error)
          else if !env.binding.value then Some(NoBinding)
          else env.protect;
        if failure.None? { Emit("token.sender_constrained_issued", Allow, JitTokenIssue); }
      }
      if failure.Some? { Leave(JitTokenIssue, failure.value); }
    }

    method CheckBudget(env: Env) returns (failure: Option<Exn>)
      modifies this
      ensures Seen(failure) == Plus(old(Seen(None)), Close(Stage(WatchdogPreLlm, PreBudgetBody(env))))
    {
      failure := env.checkBudget;
      if failure == Some(BudgetExceeded) {
        Emit("budget.exceeded", Deny, WatchdogPreLlm);
        failure := Some(BudgetLimit);
      }
      if failure.Some? { Leave(WatchdogPreLlm, failure.value); return; }
      Emit("budget.pre_check", Allow, WatchdogPreLlm);
    }

    method Complete(prompt: string, env: Env) returns (r: Result<Response, Exn>)
      modifies this
      ensures Seen(if r.Err? then Some(r.error) else None) ==
              Plus(old(Seen(None)), Close(Stage(LlmInvoke, LlmBody(prompt, env))))
      ensures r == env.complete(prompt)
    {
      calls := calls + [prompt];
      r := env.complete(prompt);
      if r.Err? { Leave(LlmInvoke, r.error); return; }
      Emit("llm.completed", Allow, LlmInvoke);
    }

    method RecordSpend(env: Env) returns (failure: Option<Exn>)
      modifies this
      ensures Seen(failure) == Plus(old(Seen(None)), Close(Stage(WatchdogRecordSpend, SpendBody(env))))
    {
      failure := env.recordSpend;
      if failure == Some(BudgetExceeded) {
        Emit("budget.exceeded_on_record", Deny, WatchdogRecordSpend);
        failure := Some(BudgetLimit);
      }
      if failure.Some? { Leave(WatchdogRecordSpend, failure.value); return; }
      Emit("budget.spend_recorded", Allow, WatchdogRecordSpend);
    }

    method RecordStep(env: Env) returns (failure: Option<Exn>)
      modifies this
      ensures Seen(failure) == Plus(old(Seen(None)), Close(Stage(WatchdogLoopDetect, LoopBody(env))))
    {
      failure := env.recordStep;
      if failure == Some(LoopDetected) {
        Emit("loop.halted", Deny, WatchdogLoopDetect);
        failure := Some(LoopHalt);
      } else if failure == Some(VelocityExceeded) {
        Emit("loop.velocity_exceeded", Deny, WatchdogLoopDetect);
        failure := Some(LoopVelocity);
      } else if failure == Some(ApprovalPending) {
        Emit("loop.pending_approval", Deny, WatchdogLoopDetect);
        failure := Some(LoopApproval);
      }
      if failure.Some? { Leave(WatchdogLoopDetect, failure.value); return; }
      Emit("loop.step_recorded", Allow, WatchdogLoopDetect);
    }

    method PostSanitizeOutput(content: string, env: Env) returns (r: Result<Mask, Exn>)
      modifies this
      ensures Seen(if r.Err? then Some(r.error) else None) ==
              Plus(old(Seen(None)), Close(Stage(PostSanitize, PostBody(content, env))))
      ensures r == env.mask(content)
    {
      r := env.mask(content);
      if r.Err? { Leave(PostSanitize, r.error); return; }
      Emit("guardrails.post_sanitize", if r.value.found != [] then Redact else Allow, PostSanitize);
    }

    /** The LLM answered: record the step, then sanitize the answer. */
    method StepAndSanitize(req: Request, env: Env, content: string) returns (r: Result<Mask, Exn>)
      requires content == ContentOf(req, env)
      modifies this
      ensures Seen(if r.Err? then Some(r.error) else None) == Plus(old(Seen(None)), RunStages(FromLoop(req, env)))
      ensures r.Ok? ==> r == env.mask(content)
    {
      ghost var start, stage := Seen(None), Close(Stage(WatchdogLoopDetect, LoopBody(env)));
      RunThen(req.looped, WatchdogLoopDetect, LoopBody(env), FromPost(req, env));
      RunThen(true, PostSanitize, PostBody(content, env), []);
      PlusAssoc(start, stage, Close(Stage(PostSanitize, PostBody(content, env))));
      hide LoopBody, PostBody, Close;
      if req.looped {
        var failure := RecordStep(env);
        if failure.Some? { return Err(failure.value); }
      }
      r := PostSanitizeOutput(content, env);
      assert AndThen(true, Close(Stage(PostSanitize, PostBody(content, env))), RunStages([])) ==
             Close(Stage(PostSanitize, PostBody(content, env)));
    }

    /** Before that, what the call cost. */
    method Finish(req: Request, env: Env, content: string) returns (r: Result<Mask, Exn>)
      requires content == ContentOf(req, env)
      modifies this
      ensures Seen(if r.Err? then Some(r.error) else None) == Plus(old(Seen(None)), RunStages(FromSpend(req, env)))
      ensures r.Ok? ==> r == env.mask(content)
    {
      ghost var start, stage := Seen(None), Close(Stage(WatchdogRecordSpend, SpendBody(env)));
      RunThen(req.budgeted, WatchdogRecordSpend, SpendBody(env), FromLoop(req, env));
      PlusAssoc(start, stage, RunStages(FromLoop(req, env)));
      hide SpendBody, FromLoop, Close, RunStages;
      if req.budgeted {
        var failure := RecordSpend(env);
        if failure.Some? { return Err(failure.value); }
      }
      r := StepAndSanitize(req, env, content);
    }

    /** The LLM call and what follows it. */
    method Call(req: Request, env: Env, prompt: string) returns (r: Result<Mask, Exn>)
      requires prompt == PromptOf(req, env)
      modifies this
      ensures Seen(if r.Err? then Some(r.error) else None) == Plus(old(Seen(None)), RunStages(FromLlm(req, env)))
      ensures r.Ok? ==> Answers(env, prompt, r)
    {
      ghost var start, stage := Seen(None), Close(Stage(LlmInvoke, LlmBody(prompt, env)));
      RunThen(true, LlmInvoke, LlmBody(prompt, env), FromSpend(req, env));
      PlusAssoc(start, stage, RunStages(FromSpend(req, env)));
      hide LlmBody, FromSpend, Close, RunStages;
      var response := Complete(prompt, env);
      if response.Err? { return Err(response.error); }
      r := Finish(req, env, response.value.content);
    }

    /** The pre-LLM guard, if configured, then the call. */
    method Guarded(req: Request, env: Env, prompt: string) returns (r: Result<Mask, Exn>)
      requires prompt == PromptOf(req, env)
      modifies this
      ensures Seen(if r.Err? then Some(r.error) else None) == Plus(old(Seen(None)), RunStages(FromBudget(req, env)))
      ensures r.Ok? ==> Answers(env, prompt, r)
    {
      ghost var start, stage := Seen(None), Close(Stage(WatchdogPreLlm, PreBudgetBody(env)));
      RunThen(req.budgeted, WatchdogPreLlm, PreBudgetBody(env), FromLlm(req, env));
      PlusAssoc(start, stage, RunStages(FromLlm(req, env)));
      hide PreBudgetBody, FromLlm, Close, RunStages;
      if req.budgeted {
        var failure := CheckBudget(env);
        if failure.Some? { return Err(failure.value); }
      }
      r := Call(req, env, prompt);
    }

    /** From the token to the answer. */
    method Invoke(req: Request, env: Env, prompt: string) returns (r: Result<Mask, Exn>)
      requires prompt == PromptOf(req, env)
      modifies this
      ensures Seen(if r.Err? then Some(r.error) else None) == Plus(old(Seen(None)), RunStages(FromToken(req, env)))
      ensures r.Ok? ==> Answers(env, prompt, r)
    {
      ghost var start, stage := Seen(None), Close(Stage(JitTokenIssue, TokenBody(req, env)));
      RunThen(true, JitTokenIssue, TokenBody(req, env), FromBudget(req, env));
      PlusAssoc(start, stage, RunStages(FromBudget(req, env)));
      hide TokenBody, FromBudget, Close, RunStages;
      var failure := ObtainToken(req, env);
      if failure.Some? { return Err(failure.value); }
      r := Guarded(req, env, prompt);
    }

    /** The policy's mask instruction, if there is one; `prompt` is what the adapter will see. */
    method MaskAndInvoke(req: Request, env: Env, m: Mask) returns (prompt: Mask, r: Result<Mask, Exn>)
      requires env.policy.Ok? && env.mask(req.prompt) == Ok(m)
      modifies this
      ensures Seen(if r.Err? then Some(r.error) else None) == Plus(old(Seen(None)), RunStages(FromMask(req, env)))
      ensures r.Ok? ==> Sanitized(req, env) == Ok(prompt) && Answers(env, prompt.text, r)
    {
      ghost var start, stage := Seen(None), Close(Stage(PolicyMask, MaskBody(req, env)));
      RunThen(Masks(env), PolicyMask, MaskBody(req, env), FromToken(req, env));
      PlusAssoc(start, stage, RunStages(FromToken(req, env)));
      hide MaskBody, FromToken, Close, RunStages, Rescrub;
      prompt := m;
      if env.policy.value.action == "mask" {
        var masked := ApplyMask(req, env, env.policy.value.fields, m);
        if masked.Err? { return m, Err(masked.error); }
        prompt := masked.value;
      }
      r := Invoke(req, env, prompt.text);
    }

    /** `run`: the whole pipeline, adding exactly what the stages add. */
    method Run(req: Request, env: Env) returns (r: Result<Completion, Exn>)
      modifies this
      ensures Seen(if r.Err? then Some(r.error) else None) == Plus(old(Seen(None)), Pipeline(req, env))
      ensures r.Ok? ==>
                && Sanitized(req, env) == Ok(Mask(r.value.sanitizedPrompt, r.value.piiInPrompt))
                && Answers(env, r.value.sanitizedPrompt, Ok(Mask(r.value.content, r.value.piiInResponse)))
    {
      if !req.hasTaskId { return Err(MissingTaskId); }
      ghost var start := Seen(None);
      ghost var pre, policy := Close(Stage(PrePiiScrub, PreBody(req, env))), Close(Stage(PolicyEval, PolicyBody(env)));
      RunThen(true, PrePiiScrub, PreBody(req, env), FromPolicy(req, env));
      RunThen(true, PolicyEval, PolicyBody(env), FromMask(req, env));
      ghost var rest := RunStages(FromMask(req, env));
      PlusAssoc(start, pre, policy);
      PlusAssoc(start, pre, Plus(policy, rest));
      PlusAssoc(Plus(start, pre), policy, rest);
      hide PreBody, PolicyBody, FromMask, Close, RunStages, Sanitized, Rescrub;
      var m := PreSanitize(req, env);
      if m.Err? { return Err(m.error); }
      var p := EvaluatePolicy(env);
      if p.Err? { return Err(p.error); }
      var prompt, post := MaskAndInvoke(req, env, m.value);
      if post.Err? { return Err(post.error); }
      return Ok(Completion(post.value.text, prompt.text, prompt.found, post.value.found));
    }
  }

  lemma {:induction false} RescrubFails(env: Env, fields: seq<string>, n: nat, m: Mask)
    requires n <= |fields| && Rescrub(env, fields[..n], m).Err?
    ensures Rescrub(env, fields[..|fields|], m) == Rescrub(env, fields[..n], m)
    decreases |fields| - n
  {
    if n < |fields| {
      assert fields[..n + 1][..n] == fields[..n];
      RescrubFails(env, fields, n + 1, m);
    }
  }
}

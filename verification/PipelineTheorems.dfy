/** What an orchestrator run leaves in the audit trail, the error counters and the adapter, for every
    behaviour of the collaborators. */
module PipelineTheorems {
  import opened Prelude
  import opened OrchestratorPipeline

  // ----- the documented trace -----

  function FoundIn(m: Result<Mask, Exn>): seq<string> {
    if m.Ok? then m.value.found else []
  }

  /** An audited mask: whether it changed anything. */
  function Redaction(m: Result<Mask, Exn>): Outcome {
    if FoundIn(m) != [] then Redact else Allow
  }

  /** The events a stage leaves when it passes. */
  function Expect(req: Request, env: Env, span: Span): seq<AuditEvent> {
    match span
    case PrePiiScrub => [AuditEvent("guardrails.pre_sanitize", Redaction(env.mask(req.prompt)), PrePiiScrub)]
    case PolicyEval => [AuditEvent("policy.allowed", Allow, PolicyEval)]
    case PolicyMask => [AuditEvent("policy.mask_applied", Redact, PolicyEval)]
    case JitTokenIssue => [TokenEvent(req)] + if req.protectOutbound then [CONSTRAINED] else []
    case WatchdogPreLlm => [AuditEvent("budget.pre_check", Allow, WatchdogPreLlm)]
    case LlmInvoke => [AuditEvent("llm.completed", Allow, LlmInvoke)]
    case WatchdogRecordSpend => [AuditEvent("budget.spend_recorded", Allow, WatchdogRecordSpend)]
    case WatchdogLoopDetect => [AuditEvent("loop.step_recorded", Allow, WatchdogLoopDetect)]
    case PostSanitize =>
      [AuditEvent("guardrails.post_sanitize", Redaction(env.mask(ContentOf(req, env))), PostSanitize)]
  }

  function Doc(req: Request, env: Env, stages: seq<Stage>): seq<AuditEvent> {
    if stages == [] then [] else Expect(req, env, stages[0].span) + Doc(req, env, stages[1..])
  }

  /** The documented stage sequence of a request. */
  function Documented(req: Request, env: Env): seq<AuditEvent> {
    Doc(req, env, Stages(req, env))
  }

  /** The part of the documented sequence from the LLM call on. */
  lemma {:induction false} DocumentedFromLlm(req: Request, env: Env)
    ensures Doc(req, env, FromLlm(req, env)) ==
            Expect(req, env, LlmInvoke) +
            (if req.budgeted then Expect(req, env, WatchdogRecordSpend) else []) +
            (if req.looped then Expect(req, env, WatchdogLoopDetect) else []) +
            Expect(req, env, PostSanitize)
  {
    hide Doc, Then, Expect, LlmBody, SpendBody, LoopBody, PostBody;
    DocThen(req, env, true, PostSanitize, PostBody(ContentOf(req, env), env), []);
    DocThen(req, env, req.looped, WatchdogLoopDetect, LoopBody(env), FromPost(req, env));
    DocThen(req, env, req.budgeted, WatchdogRecordSpend, SpendBody(env), FromLoop(req, env));
    DocThen(req, env, true, LlmInvoke, LlmBody(PromptOf(req, env), env), FromSpend(req, env));
  }

  /** The documented sequence spelled out. */
  lemma {:induction false} DocumentedSequence(req: Request, env: Env)
    ensures Documented(req, env) ==
            Expect(req, env, PrePiiScrub) + Expect(req, env, PolicyEval) +
            (if Masks(env) then Expect(req, env, PolicyMask) else []) +
            Expect(req, env, JitTokenIssue) +
            (if req.budgeted then Expect(req, env, WatchdogPreLlm) else []) +
            (Expect(req, env, LlmInvoke) +
             (if req.budgeted then Expect(req, env, WatchdogRecordSpend) else []) +
             (if req.looped then Expect(req, env, WatchdogLoopDetect) else []) +
             Expect(req, env, PostSanitize))
  {
    DocumentedFromLlm(req, env);
    hide Doc, Then, Expect, PreBody, PolicyBody, MaskBody, TokenBody, PreBudgetBody, FromLlm;
    DocThen(req, env, req.budgeted, WatchdogPreLlm, PreBudgetBody(env), FromLlm(req, env));
    DocThen(req, env, true, JitTokenIssue, TokenBody(req, env), FromBudget(req, env));
    DocThen(req, env, Masks(env), PolicyMask, MaskBody(req, env), FromToken(req, env));
    DocThen(req, env, true, PolicyEval, PolicyBody(env), FromMask(req, env));
    DocThen(req, env, true, PrePiiScrub, PreBody(req, env), FromPolicy(req, env));
  }

  lemma {:induction false} DocThen(req: Request, env: Env, configured: bool, span: Span, body: Body, rest: seq<Stage>)
    ensures Doc(req, env, Then(configured, span, body, rest)) ==
            (if configured then Expect(req, env, span) else []) + Doc(req, env, rest)
    ensures Doc(req, env, []) == []
  {
    if configured { assert ([Stage(span, body)] + rest)[1..] == rest; }
  }

  // ----- where a run can stop -----

  datatype Collaborator =
    | InjectionGuard | PromptMasker | PolicyClient | Scrubber | TokenValidator | TokenIssuer | FreshTokenValidator
    | BindingLookup | OutboundProtector | BudgetGuard | Adapter | BudgetLedger | LoopWatch | AnswerMasker

  /** What a stage decides itself from what it was told. */
  datatype Question = PolicyVerdict | TokenClaims | KeyBinding

  /** A point of a stage at which the run can stop: a collaborator is asked and may raise, or the stage
      itself judges what it was told and may refuse. */
  datatype Move =
    | Ask(span: Span, who: Collaborator, raised: Option<Exn>)
    | Judge(span: Span, what: Question, refusal: Option<Exn>)

  function ErrorOf<T>(r: Result<T, Exn>): Option<Exn> {
    if r.Err? then Some(r.error) else None
  }

  function PolicyRefusal(env: Env): Option<Exn> {
    if env.policy.Ok? && (!env.policy.value.allowed || env.policy.value.action == "reject") then Some(PolicyDenied)
    else None
  }

  function ClaimsRefusal(req: Request, env: Env): Option<Exn> {
    if env.validate.Err? then None
    else if env.validate.value.expired then Some(TokenExpired)
    else if env.validate.value.agentType != req.agentType then Some(TokenScope)
    else None
  }

  function BindingRefusal(env: Env): Option<Exn> {
    if env.binding == Ok(false) then Some(NoBinding) else None
  }

  function TokenMoves(req: Request, env: Env): seq<Move> {
    if req.sessionToken != "" then
      [Ask(JitTokenIssue, TokenValidator, ErrorOf(env.validate)),
       Judge(JitTokenIssue, TokenClaims, ClaimsRefusal(req, env))]
    else
      [Ask(JitTokenIssue, TokenIssuer, ErrorOf(env.issue)),
       Ask(JitTokenIssue, FreshTokenValidator, env.validateIssued)]
  }

  function OutboundMoves(env: Env): seq<Move> {
    [Ask(JitTokenIssue, BindingLookup, ErrorOf(env.binding)), Judge(JitTokenIssue, KeyBinding, BindingRefusal(env)),
     Ask(JitTokenIssue, OutboundProtector, env.protect)]
  }

  /** The moves of one stage, in order. */
  function Moves(req: Request, env: Env, span: Span): seq<Move> {
    match span
    case PrePiiScrub =>
      [Ask(span, InjectionGuard, env.injection), Ask(span, PromptMasker, ErrorOf(env.mask(req.prompt)))]
    case PolicyEval => [Ask(span, PolicyClient, ErrorOf(env.policy)), Judge(span, PolicyVerdict, PolicyRefusal(env))]
    case PolicyMask => [Ask(span, Scrubber, ErrorOf(Sanitized(req, env)))]
    case JitTokenIssue => TokenMoves(req, env) + if req.protectOutbound then OutboundMoves(env) else []
    case WatchdogPreLlm => [Ask(span, BudgetGuard, env.checkBudget)]
    case LlmInvoke => [Ask(span, Adapter, ErrorOf(env.complete(PromptOf(req, env))))]
    case WatchdogRecordSpend => [Ask(span, BudgetLedger, env.recordSpend)]
    case WatchdogLoopDetect => [Ask(span, LoopWatch, env.recordStep)]
    case PostSanitize => [Ask(span, AnswerMasker, ErrorOf(env.mask(ContentOf(req, env))))]
  }

  function If(configured: bool, moves: seq<Move>): seq<Move> {
    if configured then moves else []
  }

  /** Every point at which the run of a request can stop, in order. */
  function Script(req: Request, env: Env): seq<Move> {
    Moves(req, env, PrePiiScrub) + (Moves(req, env, PolicyEval) + (If(Masks(env), Moves(req, env, PolicyMask)) +
    (Moves(req, env, JitTokenIssue) + (If(req.budgeted, Moves(req, env, WatchdogPreLlm)) +
    (Moves(req, env, LlmInvoke) + (If(req.budgeted, Moves(req, env, WatchdogRecordSpend)) +
    (If(req.looped, Moves(req, env, WatchdogLoopDetect)) + Moves(req, env, PostSanitize))))))))
  }

  predicate Stops(m: Move) {
    match m
    case Ask(_, _, raised) => raised.Some?
    case Judge(_, _, refusal) => refusal.Some?
  }

  function FirstStop(script: seq<Move>): (t: Option<Move>)
    ensures t.Some? ==> Stops(t.value) && t.value in script
    ensures t.None? ==> forall m :: m in script ==> !Stops(m)
  {
    if script == [] then None else if Stops(script[0]) then Some(script[0]) else FirstStop(script[1..])
  }

  /** What the calling stage turns an exception of a collaborator into, for those it catches. */
  function Translated(who: Collaborator, e: Exn): Option<Exn> {
    match (who, e)
    case (PolicyClient, OpaUnavailable) => Some(PolicyDenied)
    case (TokenValidator, TokenExpired) => Some(TokenExpired)
    case (TokenValidator, TokenRevoked) => Some(PermissionDenied)
    case (BudgetGuard, BudgetExceeded) => Some(BudgetLimit)
    case (BudgetLedger, BudgetExceeded) => Some(BudgetLimit)
    case (LoopWatch, LoopDetected) => Some(LoopHalt)
    case (LoopWatch, VelocityExceeded) => Some(LoopVelocity)
    case (LoopWatch, ApprovalPending) => Some(LoopApproval)
    case _ => None
  }

  /** The exception the caller of `run` sees. */
  function Leaves(t: Move): Exn
    requires Stops(t)
  {
    match t
    case Ask(_, who, raised) =>
      var e := Translated(who, raised.value);
      if e.Some? then e.value else raised.value
    case Judge(_, _, refusal) => refusal.value
  }

  /** The exception types that stand for governance decisions, for which a span adds no error event. */
  const GOVERNANCE: set<Exn> :=
    {PolicyDenied, TokenExpired, TokenRevoked, TokenScope, BudgetLimit, LoopHalt, LoopVelocity, LoopApproval}

  /** A collaborator raised one of those types and its stage does not catch it. */
  predicate Uncaught(t: Move) {
    t.Ask? && t.raised.Some? && t.raised.value in GOVERNANCE && Translated(t.who, t.raised.value).None?
  }

  /** The session manager says that the supplied token was revoked. */
  predicate SaysRevoked(t: Move) {
    t.Ask? && t.who == TokenValidator && t.raised == Some(TokenRevoked)
  }

  // ----- the trace of a script -----

  /** What a move adds to the trail when the run passes it. */
  function Passing(req: Request, env: Env, m: Move): seq<AuditEvent> {
    match m
    case Ask(_, PromptMasker, _) =>
      [AuditEvent("guardrails.pre_sanitize", Redaction(env.mask(req.prompt)), PrePiiScrub)]
    case Judge(_, PolicyVerdict, _) => [AuditEvent("policy.allowed", Allow, PolicyEval)]
    case Ask(_, Scrubber, _) => [AuditEvent("policy.mask_applied", Redact, PolicyEval)]
    case Judge(_, TokenClaims, _) => [AuditEvent("token.validated", Allow, JitTokenIssue)]
    case Ask(_, FreshTokenValidator, _) => [AuditEvent("token.issued", Allow, JitTokenIssue)]
    case Ask(_, OutboundProtector, _) => [AuditEvent("token.sender_constrained_issued", Allow, JitTokenIssue)]
    case Ask(_, BudgetGuard, _) => [AuditEvent("budget.pre_check", Allow, WatchdogPreLlm)]
    case Ask(_, Adapter, _) => [AuditEvent("llm.completed", Allow, LlmInvoke)]
    case Ask(_, BudgetLedger, _) => [AuditEvent("budget.spend_recorded", Allow, WatchdogRecordSpend)]
    case Ask(_, LoopWatch, _) => [AuditEvent("loop.step_recorded", Allow, WatchdogLoopDetect)]
    case Ask(_, AnswerMasker, _) =>
      [AuditEvent("guardrails.post_sanitize", Redaction(env.mask(ContentOf(req, env))), PostSanitize)]
    case _ => []
  }

  /** The refusal that a stage audits itself before it raises. */
  function Announced(t: Move): seq<AuditEvent>
    requires Stops(t)
  {
    match t
    case Ask(_, who, Some(e)) =>
      (match (who, e)
       case (PolicyClient, OpaUnavailable) => [AuditEvent("policy.opa_unavailable", Error, PolicyEval)]
       case (TokenValidator, TokenExpired) => [AuditEvent("token.expired", Deny, JitTokenIssue)]
       case (TokenValidator, TokenRevoked) => [AuditEvent("token.revoked", Deny, JitTokenIssue)]
       case (BudgetGuard, BudgetExceeded) => [AuditEvent("budget.exceeded", Deny, WatchdogPreLlm)]
       case (BudgetLedger, BudgetExceeded) => [AuditEvent("budget.exceeded_on_record", Deny, WatchdogRecordSpend)]
       case (LoopWatch, LoopDetected) => [AuditEvent("loop.halted", Deny, WatchdogLoopDetect)]
       case (LoopWatch, VelocityExceeded) => [AuditEvent("loop.velocity_exceeded", Deny, WatchdogLoopDetect)]
       case (LoopWatch, ApprovalPending) => [AuditEvent("loop.pending_approval", Deny, WatchdogLoopDetect)]
       case _ => [])
    case Judge(_, PolicyVerdict, _) => [AuditEvent("policy.denied", Deny, PolicyEval)]
    case Judge(_, TokenClaims, Some(e)) =>
      [AuditEvent(if e == TokenExpired then "token.expired" else "token.scope_violation", Deny, JitTokenIssue)]
    case Judge(_, KeyBinding, _) => []
  }

  /** All that a move adds to the trail when the run stops at it. */
  function Stopping(t: Move): seq<AuditEvent>
    requires Stops(t)
  {
    Announced(t) + if Leaves(t) in GOVERNANCE then [] else [AuditEvent("stage.error", Error, t.span)]
  }

  /** The trail of a run through the script. */
  function Play(req: Request, env: Env, script: seq<Move>): seq<AuditEvent> {
    if script == [] then []
    else if Stops(script[0]) then Stopping(script[0])
    else Passing(req, env, script[0]) + Play(req, env, script[1..])
  }

  /** The trail if nothing stopped it. */
  function Unstopped(req: Request, env: Env, script: seq<Move>): seq<AuditEvent> {
    if script == [] then [] else Passing(req, env, script[0]) + Unstopped(req, env, script[1..])
  }

  predicate Refusing(e: AuditEvent) {
    e.outcome == Deny || e.outcome == Error
  }

  /** The number of events with outcome deny or error. */
  function Refusals(events: seq<AuditEvent>): nat {
    if events == [] then 0 else (if Refusing(events[0]) then 1 else 0) + Refusals(events[1..])
  }

  /** The number of refusing events that a run stopped at `t` leaves. */
  function Weight(t: Move): nat {
    if Uncaught(t) then 0 else if SaysRevoked(t) then 2 else 1
  }

  /** How a run through a script ended. */
  ghost predicate Ended(req: Request, env: Env, r: Report, script: seq<Move>) {
    && r.events == Play(req, env, script)
    && match FirstStop(script)
       case None => r.failure.None? && r.errors == []
       case Some(t) => r.failure == Some(Leaves(t)) && r.errors == [t.span]
  }

  ghost predicate StageEnds(req: Request, env: Env, st: Stage) {
    Ended(req, env, Close(st), Moves(req, env, st.span))
  }

  lemma {:induction false} ControlledIsGovernance(e: Exn)
    ensures Controlled(e) <==> e in GOVERNANCE
  {
  }

  lemma {:induction false} PlayOfTwo(req: Request, env: Env, a: Move, b: Move)
    ensures FirstStop([a]) == if Stops(a) then Some(a) else None
    ensures FirstStop([a, b]) == if Stops(a) then Some(a) else FirstStop([b])
    ensures Play(req, env, [a]) == if Stops(a) then Stopping(a) else Passing(req, env, a)
    ensures Play(req, env, [a, b]) == if Stops(a) then Stopping(a) else Passing(req, env, a) + Play(req, env, [b])
  {
    assert [a, b][1..] == [b] && [a][1..] == [];
    assert Passing(req, env, a) + [] == Passing(req, env, a);
  }

  lemma {:induction false} FirstStopJoins(a: seq<Move>, b: seq<Move>)
    ensures FirstStop(a + b) == if FirstStop(a).Some? then FirstStop(a) else FirstStop(b)
  {
    if a == [] {
      assert a + b == b;
    } else {
      assert (a + b)[1..] == a[1..] + b;
      FirstStopJoins(a[1..], b);
    }
  }

  lemma {:induction false} PlayJoins(req: Request, env: Env, a: seq<Move>, b: seq<Move>)
    ensures Play(req, env, a + b) ==
            if FirstStop(a).Some? then Play(req, env, a) else Play(req, env, a) + Play(req, env, b)
  {
    if a == [] {
      assert a + b == b;
    } else {
      assert (a + b)[1..] == a[1..] + b;
      hide Passing, Stopping, Stops;
      PlayJoins(req, env, a[1..], b);
    }
  }

  /** A stage of one move. */
  lemma {:induction false} OneMoveEnds(req: Request, env: Env, st: Stage, m: Move)
    requires BodyEnds(req, env, st, m)
    ensures Ended(req, env, Close(st), [m])
  {
    PlayOfTwo(req, env, m, m);
    BodyCloses(req, env, st, m);
    hide Play, FirstStop, BodyEnds, Passing, Stopping, Leaves, Close;
  }

  /** A stage of two moves, of which the first adds nothing when it passes. */
  lemma {:induction false} TwoMovesEnd(req: Request, env: Env, st: Stage, a: Move, b: Move)
    requires Passing(req, env, a) == [] && BodyEnds(req, env, st, if Stops(a) then a else b)
    ensures Ended(req, env, Close(st), [a, b])
  {
    PlayOfTwo(req, env, a, b);
    PlayOfTwo(req, env, b, b);
    BodyCloses(req, env, st, if Stops(a) then a else b);
    hide Play, FirstStop, BodyEnds, Passing, Stopping, Leaves, Close;
  }

  /** A body does what the deciding move says. */
  predicate BodyEnds(req: Request, env: Env, st: Stage, m: Move) {
    if Stops(m) then st.body.failure == Some(Leaves(m)) && st.body.events == Announced(m) && m.span == st.span
    else st.body.failure.None? && st.body.events == Passing(req, env, m)
  }

  lemma {:induction false} BodyCloses(req: Request, env: Env, st: Stage, m: Move)
    requires BodyEnds(req, env, st, m)
    ensures Close(st).events == if Stops(m) then Stopping(m) else Passing(req, env, m)
    ensures Close(st).failure == if Stops(m) then Some(Leaves(m)) else None
    ensures Close(st).errors == if Stops(m) then [m.span] else []
  {
    hide Passing, Announced, Leaves;
    if Stops(m) { ControlledIsGovernance(Leaves(m)); }
  }

  lemma {:induction false} PreEnds(req: Request, env: Env)
    ensures StageEnds(req, env, Stage(PrePiiScrub, PreBody(req, env)))
  {
    var moves := Moves(req, env, PrePiiScrub);
    hide Ended;
    TwoMovesEnd(req, env, Stage(PrePiiScrub, PreBody(req, env)), moves[0], moves[1]);
  }

  lemma {:induction false} PolicyEnds(req: Request, env: Env)
    ensures StageEnds(req, env, Stage(PolicyEval, PolicyBody(env)))
  {
    var moves := Moves(req, env, PolicyEval);
    hide Ended;
    TwoMovesEnd(req, env, Stage(PolicyEval, PolicyBody(env)), moves[0], moves[1]);
  }

  lemma {:induction false} MaskEnds(req: Request, env: Env)
    ensures StageEnds(req, env, Stage(PolicyMask, MaskBody(req, env)))
  {
    hide Ended;
    OneMoveEnds(req, env, Stage(PolicyMask, MaskBody(req, env)), Moves(req, env, PolicyMask)[0]);
  }

  lemma {:induction false} GuardEnds(req: Request, env: Env)
    ensures StageEnds(req, env, Stage(WatchdogPreLlm, PreBudgetBody(env)))
  {
    hide Ended;
    OneMoveEnds(req, env, Stage(WatchdogPreLlm, PreBudgetBody(env)), Moves(req, env, WatchdogPreLlm)[0]);
  }

  lemma {:induction false} LlmEnds(req: Request, env: Env)
    ensures StageEnds(req, env, Stage(LlmInvoke, LlmBody(PromptOf(req, env), env)))
  {
    hide Ended;
    OneMoveEnds(req, env, Stage(LlmInvoke, LlmBody(PromptOf(req, env), env)), Moves(req, env, LlmInvoke)[0]);
  }

  lemma {:induction false} SpendEnds(req: Request, env: Env)
    ensures StageEnds(req, env, Stage(WatchdogRecordSpend, SpendBody(env)))
  {
    hide Ended;
    OneMoveEnds(req, env, Stage(WatchdogRecordSpend, SpendBody(env)), Moves(req, env, WatchdogRecordSpend)[0]);
  }

  lemma {:induction false} LoopEnds(req: Request, env: Env)
    ensures StageEnds(req, env, Stage(WatchdogLoopDetect, LoopBody(env)))
  {
    hide Ended;
    OneMoveEnds(req, env, Stage(WatchdogLoopDetect, LoopBody(env)), Moves(req, env, WatchdogLoopDetect)[0]);
  }

  lemma {:induction false} PostEnds(req: Request, env: Env)
    ensures StageEnds(req, env, Stage(PostSanitize, PostBody(ContentOf(req, env), env)))
  {
    hide Ended;
    OneMoveEnds(req, env, Stage(PostSanitize, PostBody(ContentOf(req, env), env)), Moves(req, env, PostSanitize)[0]);
  }

  /** Getting hold of the token. */
  lemma {:induction false} TokenPartEnds(req: Request, env: Env)
    ensures Ended(req, env, Close(Stage(JitTokenIssue, TokenPart(req, env))), TokenMoves(req, env))
  {
    var moves, st := TokenMoves(req, env), Stage(JitTokenIssue, TokenPart(req, env));
    hide Ended;
    TwoMovesEnd(req, env, st, moves[0], moves[1]);
    assert moves == [moves[0], moves[1]];
  }

  lemma {:induction false} OutboundPlays(req: Request, env: Env)
    ensures var moves := OutboundMoves(env);
            && FirstStop(moves) ==
               (if env.binding.Err? then Some(moves[0]) else if !env.binding.value then Some(moves[1])
                else if env.protect.Some? then Some(moves[2]) else None)
            && Play(req, env, moves) ==
               if FirstStop(moves).Some? then Stopping(FirstStop(moves).value) else [CONSTRAINED]
  {
    var moves := OutboundMoves(env);
    assert moves[1..] == [moves[1], moves[2]];
    PlayOfTwo(req, env, moves[1], moves[2]);
    PlayOfTwo(req, env, moves[2], moves[2]);
    hide Passing, Stopping;
    assert Passing(req, env, moves[0]) == [] && Passing(req, env, moves[1]) == [] by { OutboundPassing(req, env); }
    assert Passing(req, env, moves[2]) == [CONSTRAINED] by { OutboundPassing(req, env); }
  }

  lemma {:induction false} OutboundPassing(req: Request, env: Env)
    ensures var moves := OutboundMoves(env);
            && Passing(req, env, moves[0]) == [] && Passing(req, env, moves[1]) == []
            && Passing(req, env, moves[2]) == [CONSTRAINED]
  {
  }

  /** None of the outbound refusals is announced by the stage. */
  lemma {:induction false} OutboundStopping(env: Env)
    ensures forall t :: t in OutboundMoves(env) && Stops(t) ==>
              && Leaves(t) == (if t.Ask? then t.raised.value else NoBinding)
              && Stopping(t) == if Controlled(Leaves(t)) then [] else [AuditEvent("stage.error", Error, JitTokenIssue)]
  {
  }

  lemma {:induction false} TokenEnds(req: Request, env: Env)
    ensures StageEnds(req, env, Stage(JitTokenIssue, TokenBody(req, env)))
  {
    var part, body := TokenPart(req, env), TokenBody(req, env);
    TokenPartEnds(req, env);
    OutboundPlays(req, env);
    OutboundStopping(env);
    PlayJoins(req, env, TokenMoves(req, env), if req.protectOutbound then OutboundMoves(env) else []);
    FirstStopJoins(TokenMoves(req, env), if req.protectOutbound then OutboundMoves(env) else []);
    hide TokenPart, TokenMoves, FirstStop, Play, Stopping, Leaves, Controlled;
    assert FirstStop([]) == None && Play(req, env, []) == [] by { NothingPlays(req, env); }
    assert part.failure.None? ==> Close(Stage(JitTokenIssue, part)).events == part.events;
  }

  lemma {:induction false} NothingPlays(req: Request, env: Env)
    ensures FirstStop([]) == None && Play(req, env, []) == []
  {
  }

  // ----- runs of stages -----

  ghost predicate AllEnd(req: Request, env: Env, stages: seq<Stage>) {
    forall i :: 0 <= i < |stages| ==> StageEnds(req, env, stages[i])
  }

  lemma {:induction false} ThenEnds(req: Request, env: Env, configured: bool, span: Span, body: Body, rest: seq<Stage>)
    requires AllEnd(req, env, rest) && StageEnds(req, env, Stage(span, body))
    ensures AllEnd(req, env, Then(configured, span, body, rest))
  {
  }

  lemma {:induction false} LateRunEnds(req: Request, env: Env)
    ensures AllEnd(req, env, FromSpend(req, env))
  {
    SpendEnds(req, env);
    LoopEnds(req, env);
    PostEnds(req, env);
    assert AllEnd(req, env, []);
    hide StageEnds, PostBody, LoopBody, SpendBody, AllEnd, Then, ContentOf;
    ThenEnds(req, env, true, PostSanitize, PostBody(ContentOf(req, env), env), []);
    ThenEnds(req, env, req.looped, WatchdogLoopDetect, LoopBody(env), FromPost(req, env));
    ThenEnds(req, env, req.budgeted, WatchdogRecordSpend, SpendBody(env), FromLoop(req, env));
  }

  lemma {:induction false} StagesEnd(req: Request, env: Env)
    ensures AllEnd(req, env, Stages(req, env))
  {
    PreEnds(req, env);
    PolicyEnds(req, env);
    MaskEnds(req, env);
    TokenEnds(req, env);
    GuardEnds(req, env);
    LlmEnds(req, env);
    LateRunEnds(req, env);
    hide StageEnds, PreBody, PolicyBody, MaskBody, TokenBody, PreBudgetBody, LlmBody, FromSpend, AllEnd, Then;
    ThenEnds(req, env, true, LlmInvoke, LlmBody(PromptOf(req, env), env), FromSpend(req, env));
    ThenEnds(req, env, req.budgeted, WatchdogPreLlm, PreBudgetBody(env), FromLlm(req, env));
    ThenEnds(req, env, true, JitTokenIssue, TokenBody(req, env), FromBudget(req, env));
    ThenEnds(req, env, Masks(env), PolicyMask, MaskBody(req, env), FromToken(req, env));
    ThenEnds(req, env, true, PolicyEval, PolicyBody(env), FromMask(req, env));
    ThenEnds(req, env, true, PrePiiScrub, PreBody(req, env), FromPolicy(req, env));
  }

  function ScriptOf(req: Request, env: Env, stages: seq<Stage>): seq<Move> {
    if stages == [] then [] else Moves(req, env, stages[0].span) + ScriptOf(req, env, stages[1..])
  }

  lemma {:induction false} ScriptThen(
    req: Request, env: Env, configured: bool, span: Span, body: Body, rest: seq<Stage>)
    ensures ScriptOf(req, env, Then(configured, span, body, rest)) ==
            If(configured, Moves(req, env, span)) + ScriptOf(req, env, rest)
    ensures ScriptOf(req, env, []) == []
  {
    if configured { assert ([Stage(span, body)] + rest)[1..] == rest; }
  }

  lemma {:induction false} LateScript(req: Request, env: Env)
    ensures ScriptOf(req, env, FromLlm(req, env)) ==
            Moves(req, env, LlmInvoke) + (If(req.budgeted, Moves(req, env, WatchdogRecordSpend)) +
            (If(req.looped, Moves(req, env, WatchdogLoopDetect)) + Moves(req, env, PostSanitize)))
  {
    hide ScriptOf, Then, Moves, LlmBody, SpendBody, LoopBody, PostBody;
    ScriptThen(req, env, true, PostSanitize, PostBody(ContentOf(req, env), env), []);
    assert Moves(req, env, PostSanitize) + [] == Moves(req, env, PostSanitize);
    ScriptThen(req, env, req.looped, WatchdogLoopDetect, LoopBody(env), FromPost(req, env));
    ScriptThen(req, env, req.budgeted, WatchdogRecordSpend, SpendBody(env), FromLoop(req, env));
    ScriptThen(req, env, true, LlmInvoke, LlmBody(PromptOf(req, env), env), FromSpend(req, env));
  }

  /** The script lists the moves of the stages that run. */
  lemma {:induction false} ScriptIsOfStages(req: Request, env: Env)
    ensures Script(req, env) == ScriptOf(req, env, Stages(req, env))
  {
    LateScript(req, env);
    hide ScriptOf, Then, Moves, PreBody, PolicyBody, MaskBody, TokenBody, PreBudgetBody, FromLlm;
    ScriptThen(req, env, req.budgeted, WatchdogPreLlm, PreBudgetBody(env), FromLlm(req, env));
    ScriptThen(req, env, true, JitTokenIssue, TokenBody(req, env), FromBudget(req, env));
    ScriptThen(req, env, Masks(env), PolicyMask, MaskBody(req, env), FromToken(req, env));
    ScriptThen(req, env, true, PolicyEval, PolicyBody(env), FromMask(req, env));
    ScriptThen(req, env, true, PrePiiScrub, PreBody(req, env), FromPolicy(req, env));
  }

  /** A run of stages is a run through their moves. */
  lemma {:induction false} RunEnds(req: Request, env: Env, stages: seq<Stage>)
    requires AllEnd(req, env, stages)
    ensures Ended(req, env, RunStages(stages), ScriptOf(req, env, stages))
  {
    if stages != [] {
      var st, rest := stages[0], stages[1..];
      var moves := Moves(req, env, st.span);
      assert StageEnds(req, env, st) && AllEnd(req, env, rest);
      hide Moves, Close, AllEnd, FirstStop, Play, StageEnds;
      RunEnds(req, env, rest);
      PlayJoins(req, env, moves, ScriptOf(req, env, rest));
      FirstStopJoins(moves, ScriptOf(req, env, rest));
      assert [] + RunStages(rest).errors == RunStages(rest).errors;
    }
  }

  // ----- what the script leaves is a prefix of the documented trail -----

  lemma {:induction false} UnstoppedJoins(req: Request, env: Env, a: seq<Move>, b: seq<Move>)
    ensures Unstopped(req, env, a + b) == Unstopped(req, env, a) + Unstopped(req, env, b)
  {
    if a == [] {
      assert a + b == b;
    } else {
      assert (a + b)[1..] == a[1..] + b;
      UnstoppedJoins(req, env, a[1..], b);
    }
  }

  /** The expected events of a stage are those of its moves. */
  lemma {:induction false} ExpectIsOfMoves(req: Request, env: Env, span: Span)
    ensures Unstopped(req, env, Moves(req, env, span)) == Expect(req, env, span)
  {
    var moves := Moves(req, env, span);
    if span == JitTokenIssue {
      TokenIsExpected(req, env);
    } else {
      MovesAreExpected(req, env, span);
      UnstoppedOfTwo(req, env, moves[0], moves[|moves| - 1]);
      assert |moves| == 1 ==> moves == [moves[0]];
      assert |moves| == 2 ==> moves == [moves[0], moves[1]];
    }
    hide Unstopped, Passing, Moves, Expect;
  }

  lemma {:induction false} MovesAreExpected(req: Request, env: Env, span: Span)
    requires span != JitTokenIssue
    ensures var moves := Moves(req, env, span);
            if |moves| == 1 then Passing(req, env, moves[0]) == Expect(req, env, span)
            else |moves| == 2 && Passing(req, env, moves[0]) + Passing(req, env, moves[1]) == Expect(req, env, span)
  {
    hide ContentOf, PromptOf, Sanitized;
  }

  lemma {:induction false} UnstoppedOfTwo(req: Request, env: Env, a: Move, b: Move)
    ensures Unstopped(req, env, [a]) == Passing(req, env, a)
    ensures Unstopped(req, env, [a, b]) == Passing(req, env, a) + Passing(req, env, b)
  {
    assert [a][1..] == [] && [b][1..] == [] && [a, b][1..] == [b];
    hide Passing;
  }

  lemma {:induction false} TokenIsExpected(req: Request, env: Env)
    ensures Unstopped(req, env, Moves(req, env, JitTokenIssue)) == Expect(req, env, JitTokenIssue)
  {
    var token, outbound := TokenMoves(req, env), OutboundMoves(env);
    assert token == [token[0], token[1]];
    assert Passing(req, env, token[0]) + Passing(req, env, token[1]) == [TokenEvent(req)];
    hide Passing, TokenMoves;
    UnstoppedJoins(req, env, token, if req.protectOutbound then outbound else []);
    UnstoppedOfTwo(req, env, token[0], token[1]);
    OutboundPassing(req, env);
    UnstoppedOfTwo(req, env, outbound[1], outbound[2]);
    assert outbound[1..] == [outbound[1], outbound[2]];
    assert Unstopped(req, env, outbound) == [CONSTRAINED];
  }

  lemma {:induction false} DocumentedIsOfScript(req: Request, env: Env, stages: seq<Stage>)
    ensures Doc(req, env, stages) == Unstopped(req, env, ScriptOf(req, env, stages))
  {
    if stages != [] {
      ExpectIsOfMoves(req, env, stages[0].span);
      UnstoppedJoins(req, env, Moves(req, env, stages[0].span), ScriptOf(req, env, stages[1..]));
      hide Expect, Moves;
      DocumentedIsOfScript(req, env, stages[1..]);
    }
  }

  /** A script that ends with an event has one to come after every stop. */
  lemma {:induction false} PlayIsPrefix(req: Request, env: Env, script: seq<Move>) returns (k: nat)
    requires script != [] ==> Passing(req, env, script[|script| - 1]) != []
    ensures var full := Unstopped(req, env, script);
            match FirstStop(script)
            case None => Play(req, env, script) == full
            case Some(t) => k < |full| && Play(req, env, script) == full[..k] + Stopping(t)
  {
    k := 0;
    if script != [] {
      hide Passing, Stopping, Stops;
      LastPasses(req, env, script);
      if !Stops(script[0]) {
        var first, rest := Passing(req, env, script[0]), script[1..];
        assert rest != [] ==> rest[|rest| - 1] == script[|script| - 1];
        k := PlayIsPrefix(req, env, rest);
        if FirstStop(rest).Some? {
          PrefixGrows(first, Unstopped(req, env, rest), k, Stopping(FirstStop(rest).value));
        }
        k := |first| + k;
      }
    }
  }

  lemma {:induction false} PrefixGrows(a: seq<AuditEvent>, full: seq<AuditEvent>, k: nat, end: seq<AuditEvent>)
    requires k <= |full|
    ensures a + (full[..k] + end) == (a + full)[..|a| + k] + end
  {
    assert (a + full)[..|a| + k] == a + full[..k];
  }

  lemma {:induction false} LastPasses(req: Request, env: Env, script: seq<Move>)
    requires script != [] && Passing(req, env, script[|script| - 1]) != []
    ensures Unstopped(req, env, script) != []
  {
    var n := |script| - 1;
    assert script == script[..n] + [script[n]];
    UnstoppedJoins(req, env, script[..n], [script[n]]);
    assert [script[n]][1..] == [];
  }

  // ----- main results -----

  /** The trail of a run with a task id is that of its script.  If nothing stops it, that is exactly
      the documented trace, no error counter is raised and the adapter was called once, with the
      sanitized prompt.  A run stopped at `t` raises the exception of `t`, raises the counter of its
      stage once and leaves a proper prefix of the documented trace followed by what stopping at `t`
      adds.  The adapter was called at most once, with the sanitized prompt. */
  lemma {:induction false} TraceIsDocumented(req: Request, env: Env) returns (k: nat)
    requires req.hasTaskId
    ensures var r := Pipeline(req, env);
            && r.events == Play(req, env, Script(req, env))
            && match FirstStop(Script(req, env))
               case None =>
                 && r.failure.None? && r.events == Documented(req, env)
                 && r.errors == [] && r.calls == [PromptOf(req, env)]
               case Some(t) =>
                 && r.failure == Some(Leaves(t)) && r.errors == [t.span]
                 && k < |Documented(req, env)| && r.events == Documented(req, env)[..k] + Stopping(t)
                 && (r.calls == [] || r.calls == [PromptOf(req, env)])
  {
    StagesEnd(req, env);
    ScriptIsOfStages(req, env);
    RunEnds(req, env, Stages(req, env));
    DocumentedIsOfScript(req, env, Stages(req, env));
    LastMove(req, env);
    CallsAreFew(req, env);
    hide Stages, RunStages, Doc, AllEnd, PromptOf, FirstStop, Script, ScriptOf, Play, Passing, Leaves, Stopping;
    k := PlayIsPrefix(req, env, Script(req, env));
  }

  lemma {:induction false} LastMove(req: Request, env: Env)
    ensures var script := Script(req, env);
            script != [] && Passing(req, env, script[|script| - 1]) != []
  {
    var post := Moves(req, env, PostSanitize);
    var script := Script(req, env);
    assert |post| == 1 && script[|script| - 1] == post[0];
    hide Script;
  }

  ghost predicate NoCalls(stages: seq<Stage>) {
    forall i :: 0 <= i < |stages| ==> stages[i].body.calls == []
  }

  lemma {:induction false} NoCallsRun(stages: seq<Stage>)
    requires NoCalls(stages)
    ensures RunStages(stages).calls == []
  {
    if stages != [] {
      NoCallsRun(stages[1..]);
    }
  }

  lemma {:induction false} CallsAfter(configured: bool, span: Span, body: Body, rest: seq<Stage>, call: string)
    requires body.calls == [] && RunStages(rest).calls <= [call]
    requires (RunStages(rest).failure.None? ==> RunStages(rest).calls == [call])
    ensures var r := RunStages(Then(configured, span, body, rest));
            r.calls <= [call] && (r.failure.None? ==> r.calls == [call])
  {
    RunThen(configured, span, body, rest);
    hide RunStages, Then;
    assert [] + RunStages(rest).calls == RunStages(rest).calls;
  }

  lemma {:induction false} BodiesThatDoNotCall(req: Request, env: Env)
    ensures PreBody(req, env).calls == [] && PolicyBody(env).calls == [] && MaskBody(req, env).calls == []
    ensures TokenBody(req, env).calls == [] && PreBudgetBody(env).calls == []
    ensures NoCalls(FromSpend(req, env))
  {
  }

  lemma {:induction false} CallsAreFew(req: Request, env: Env)
    ensures var r := RunStages(Stages(req, env));
            && (r.calls == [] || r.calls == [PromptOf(req, env)])
            && (r.failure.None? ==> r.calls == [PromptOf(req, env)])
  {
    var call := PromptOf(req, env);
    BodiesThatDoNotCall(req, env);
    NoCallsRun(FromSpend(req, env));
    LlmCalls(req, env);
    hide PreBody, PolicyBody, MaskBody, TokenBody, PreBudgetBody, RunStages, Then, FromLlm, PromptOf;
    CallsAfter(req.budgeted, WatchdogPreLlm, PreBudgetBody(env), FromLlm(req, env), call);
    CallsAfter(true, JitTokenIssue, TokenBody(req, env), FromBudget(req, env), call);
    CallsAfter(Masks(env), PolicyMask, MaskBody(req, env), FromToken(req, env), call);
    CallsAfter(true, PolicyEval, PolicyBody(env), FromMask(req, env), call);
    CallsAfter(true, PrePiiScrub, PreBody(req, env), FromPolicy(req, env), call);
  }

  lemma {:induction false} LlmCalls(req: Request, env: Env)
    requires RunStages(FromSpend(req, env)).calls == []
    ensures RunStages(FromLlm(req, env)).calls == [PromptOf(req, env)]
  {
    RunThen(true, LlmInvoke, LlmBody(PromptOf(req, env), env), FromSpend(req, env));
    hide RunStages, FromSpend;
  }

  lemma {:induction false} CallsNeed(configured: bool, span: Span, body: Body, rest: seq<Stage>)
    requires body.calls == []
    ensures RunStages(Then(configured, span, body, rest)).calls != [] <==>
              (configured ==> body.failure.None?) && RunStages(rest).calls != []
  {
    RunThen(configured, span, body, rest);
    hide RunStages, Then;
  }

  /** Every governance stage before the call passes. */
  predicate Governed(req: Request, env: Env) {
    && req.hasTaskId && TokenIsReached(req, env)
    && (if req.sessionToken != "" then
          env.validate.Ok? && !env.validate.value.expired && env.validate.value.agentType == req.agentType
        else env.issue.Ok? && env.validateIssued.None?)
    && (req.protectOutbound ==> env.binding == Ok(true) && env.protect.None?)
    && (req.budgeted ==> env.checkBudget.None?)
  }

  lemma {:induction false} BodiesPassIff(req: Request, env: Env)
    ensures PreBody(req, env).failure.None? <==> env.injection.None? && env.mask(req.prompt).Ok?
    ensures PolicyBody(env).failure.None? <==>
              env.policy.Ok? && env.policy.value.allowed && env.policy.value.action != "reject"
    ensures MaskBody(req, env).failure.None? <==> Sanitized(req, env).Ok?
    ensures PreBudgetBody(env).failure.None? <==> env.checkBudget.None?
  {
    hide Sanitized;
  }

  lemma {:induction false} TokenPassesIff(req: Request, env: Env)
    ensures TokenBody(req, env).failure.None? <==>
              && (if req.sessionToken != "" then
                    env.validate.Ok? && !env.validate.value.expired && env.validate.value.agentType == req.agentType
                  else env.issue.Ok? && env.validateIssued.None?)
              && (req.protectOutbound ==> env.binding == Ok(true) && env.protect.None?)
  {
  }

  /** The adapter sees a prompt exactly when every governance stage before it has passed. */
  lemma {:induction false} AdapterIsGoverned(req: Request, env: Env)
    ensures Pipeline(req, env).calls != [] <==> Governed(req, env)
  {
    BodiesThatDoNotCall(req, env);
    NoCallsRun(FromSpend(req, env));
    LlmCalls(req, env);
    BodiesPassIff(req, env);
    TokenPassesIff(req, env);
    CallsNeed(true, PrePiiScrub, PreBody(req, env), FromPolicy(req, env));
    CallsNeed(true, PolicyEval, PolicyBody(env), FromMask(req, env));
    CallsNeed(Masks(env), PolicyMask, MaskBody(req, env), FromToken(req, env));
    CallsNeed(true, JitTokenIssue, TokenBody(req, env), FromBudget(req, env));
    CallsNeed(req.budgeted, WatchdogPreLlm, PreBudgetBody(env), FromLlm(req, env));
    hide PreBody, PolicyBody, MaskBody, TokenBody, PreBudgetBody, RunStages, Then, FromLlm, Sanitized;
  }

  // ----- no silent stage -----

  lemma {:induction false} NoRefusals(events: seq<AuditEvent>)
    requires forall e :: e in events ==> !Refusing(e)
    ensures Refusals(events) == 0
  {
    if events != [] { NoRefusals(events[1..]); }
  }

  lemma {:induction false} OnlyRefusals(events: seq<AuditEvent>)
    requires forall i :: 0 <= i < |events| ==> Refusing(events[i])
    ensures Refusals(events) == |events|
  {
    if events != [] { OnlyRefusals(events[1..]); }
  }

  lemma {:induction false} RefusalsJoin(a: seq<AuditEvent>, b: seq<AuditEvent>)
    ensures Refusals(a + b) == Refusals(a) + Refusals(b)
  {
    if a == [] {
      assert a + b == b;
    } else {
      assert (a + b)[1..] == a[1..] + b;
      RefusalsJoin(a[1..], b);
    }
  }

  lemma {:induction false} PassingRefusesNothing(req: Request, env: Env, m: Move)
    ensures forall e :: e in Passing(req, env, m) ==> !Refusing(e)
  {
  }

  lemma {:induction false} UnstoppedRefusesNothing(req: Request, env: Env, script: seq<Move>)
    ensures Refusals(Unstopped(req, env, script)) == 0
  {
    if script != [] {
      PassingRefusesNothing(req, env, script[0]);
      NoRefusals(Passing(req, env, script[0]));
      RefusalsJoin(Passing(req, env, script[0]), Unstopped(req, env, script[1..]));
      hide Passing;
      UnstoppedRefusesNothing(req, env, script[1..]);
    }
  }

  /** A run that stops at `t` adds as many refusals as its weight says. */
  lemma {:induction false} StoppingWeighs(req: Request, env: Env, t: Move)
    requires Stops(t) && t in Script(req, env)
    ensures Refusals(Stopping(t)) == Weight(t)
  {
    WellFormedScript(req, env);
    AnnouncedWeighs(t);
    hide Script, Announced, Leaves, Weight;
    OnlyRefusals(Stopping(t));
  }

  /** What the moves of a script look like: only these judgements are made. */
  predicate WellFormed(m: Move) {
    m.Judge? && m.refusal.Some? ==>
      match m.what
      case PolicyVerdict => m.refusal.value == PolicyDenied
      case TokenClaims => m.refusal.value == TokenExpired || m.refusal.value == TokenScope
      case KeyBinding => m.refusal.value == NoBinding
  }

  lemma {:induction false} WellFormedScript(req: Request, env: Env)
    ensures forall m :: m in Script(req, env) ==> WellFormed(m)
  {
    WellFormedMoves(req, env, PrePiiScrub);
    WellFormedMoves(req, env, PolicyEval);
    WellFormedMoves(req, env, PolicyMask);
    WellFormedMoves(req, env, JitTokenIssue);
    WellFormedMoves(req, env, WatchdogPreLlm);
    WellFormedMoves(req, env, LlmInvoke);
    WellFormedMoves(req, env, WatchdogRecordSpend);
    WellFormedMoves(req, env, WatchdogLoopDetect);
    WellFormedMoves(req, env, PostSanitize);
    hide Moves, WellFormed;
  }

  lemma {:induction false} WellFormedMoves(req: Request, env: Env, span: Span)
    ensures forall m :: m in Moves(req, env, span) ==> WellFormed(m)
  {
  }

  lemma {:induction false} AnnouncedWeighs(t: Move)
    requires Stops(t) && WellFormed(t)
    ensures |Announced(t)| + (if Leaves(t) in GOVERNANCE then 0 else 1) == Weight(t)
    ensures forall i :: 0 <= i < |Announced(t)| ==> Refusing(Announced(t)[i])
  {
  }

  /** The run fails exactly when something stops it, and the number of deny or error events in its
      trace is that of the move it stopped at. */
  lemma {:induction false} RefusalsOfRun(req: Request, env: Env)
    requires req.hasTaskId
    ensures var r, t := Pipeline(req, env), FirstStop(Script(req, env));
            && (r.failure.Some? <==> t.Some?)
            && Refusals(r.events) == if t.Some? then Weight(t.value) else 0
  {
    hide Pipeline, Script, FirstStop, Stages, Weight, Doc, Unstopped, Play, Stopping, Refusals, ScriptOf;
    var k := TraceIsDocumented(req, env);
    var script := Script(req, env);
    ScriptIsOfStages(req, env);
    DocumentedIsOfScript(req, env, Stages(req, env));
    UnstoppedRefusesNothing(req, env, script);
    var doc, t := Documented(req, env), FirstStop(script);
    if t.Some? {
      assert Stops(t.value) && t.value in script by { FirstStopIsThere(script); }
      StoppingWeighs(req, env, t.value);
      assert doc == doc[..k] + doc[k..];
      RefusalsJoin(doc[..k], doc[k..]);
      RefusalsJoin(doc[..k], Stopping(t.value));
    }
  }

  lemma {:induction false} FirstStopIsThere(script: seq<Move>)
    ensures var t := FirstStop(script); t.Some? ==> Stops(t.value) && t.value in script
  {
  }

  /** A failing run leaves no deny or error event exactly when what stopped it is a collaborator that
      raised a controlled type its stage does not catch. */
  lemma {:induction false} SilentIff(req: Request, env: Env)
    requires req.hasTaskId && Pipeline(req, env).failure.Some?
    ensures var t := FirstStop(Script(req, env));
            t.Some? && (Refusals(Pipeline(req, env).events) == 0 <==> Uncaught(t.value))
  {
    RefusalsOfRun(req, env);
    hide Pipeline, Script, FirstStop;
  }

  /** Every stage before the token stage passes. */
  predicate TokenIsReached(req: Request, env: Env) {
    && env.injection.None? && env.mask(req.prompt).Ok?
    && env.policy.Ok? && env.policy.value.allowed && env.policy.value.action != "reject"
    && (Masks(env) ==> Sanitized(req, env).Ok?)
  }

  predicate RevokedTokenIsReached(req: Request, env: Env) {
    TokenIsReached(req, env) && req.sessionToken != "" && env.validate == Err(TokenRevoked)
  }

  lemma {:induction false} WeightIsTwoIff(t: Move)
    ensures Weight(t) == 2 <==> SaysRevoked(t)
  {
  }

  /** A run leaves two deny or error events exactly when it gets to check a supplied token and is told
      that the token was revoked. */
  lemma {:induction false} TwoRefusalsIff(req: Request, env: Env)
    requires req.hasTaskId
    ensures Refusals(Pipeline(req, env).events) == 2 <==> RevokedTokenIsReached(req, env)
  {
    RefusalsOfRun(req, env);
    RevokedIsFirstStopIff(req, env);
    var t := FirstStop(Script(req, env));
    if t.Some? { WeightIsTwoIff(t.value); }
    hide Pipeline, Script, FirstStop, TokenIsReached, Weight, SaysRevoked;
  }

  /** The documented promise: when no collaborator raises a controlled type that
      its stage does not catch, every failing run leaves one deny or error event, or two when the
      supplied token was revoked. */
  lemma {:induction false} FailuresAreAudited(req: Request, env: Env)
    requires req.hasTaskId && Pipeline(req, env).failure.Some?
    requires forall m :: m in Script(req, env) ==> !Uncaught(m)
    ensures Refusals(Pipeline(req, env).events) == if RevokedTokenIsReached(req, env) then 2 else 1
  {
    RefusalsOfRun(req, env);
    RevokedIsFirstStopIff(req, env);
    hide Pipeline, Script, TokenIsReached, Uncaught, SaysRevoked;
  }

  /** The part of the script before the token stage. */
  function EarlyScript(req: Request, env: Env): seq<Move> {
    Moves(req, env, PrePiiScrub) + (Moves(req, env, PolicyEval) + If(Masks(env), Moves(req, env, PolicyMask)))
  }

  function LaterScript(req: Request, env: Env): seq<Move> {
    If(req.protectOutbound, OutboundMoves(env)) + (If(req.budgeted, Moves(req, env, WatchdogPreLlm)) +
    (Moves(req, env, LlmInvoke) + (If(req.budgeted, Moves(req, env, WatchdogRecordSpend)) +
    (If(req.looped, Moves(req, env, WatchdogLoopDetect)) + Moves(req, env, PostSanitize)))))
  }

  lemma {:induction false} ScriptParts(req: Request, env: Env)
    ensures Script(req, env) == EarlyScript(req, env) + (TokenMoves(req, env) + LaterScript(req, env))
  {
    hide TokenMoves, OutboundMoves;
  }

  lemma {:induction false} NeverRevokedEarlier(req: Request, env: Env)
    ensures forall m :: m in EarlyScript(req, env) ==> !SaysRevoked(m)
  {
  }

  lemma {:induction false} NeverRevokedLater(req: Request, env: Env)
    ensures forall m :: m in LaterScript(req, env) ==> !SaysRevoked(m)
  {
    hide PromptOf, ContentOf;
  }

  lemma {:induction false} EarlyPassesIff(req: Request, env: Env)
    ensures FirstStop(EarlyScript(req, env)).None? <==> TokenIsReached(req, env)
  {
    var early := EarlyScript(req, env);
    assert early[..4] == Moves(req, env, PrePiiScrub) + Moves(req, env, PolicyEval);
    assert forall i :: 0 <= i < |early| ==> early[i] in early;
    assert FirstStop(early).None? ==> !Stops(early[0]) && !Stops(early[1]) && !Stops(early[2]) && !Stops(early[3]);
    assert FirstStop(early).None? && Masks(env) ==> !Stops(early[4]);
  }

  lemma {:induction false} TokenSaysRevokedIff(req: Request, env: Env)
    ensures var t := FirstStop(TokenMoves(req, env));
            t.Some? && SaysRevoked(t.value) <==> req.sessionToken != "" && env.validate == Err(TokenRevoked)
  {
    var moves := TokenMoves(req, env);
    assert moves[1..] == [moves[1]] && moves[1..][1..] == [];
  }

  lemma {:induction false} RevokedIsFirstStopIff(req: Request, env: Env)
    ensures var t := FirstStop(Script(req, env));
            t.Some? && SaysRevoked(t.value) <==> RevokedTokenIsReached(req, env)
  {
    var early, moves, later := EarlyScript(req, env), TokenMoves(req, env), LaterScript(req, env);
    ScriptParts(req, env);
    NeverRevokedEarlier(req, env);
    NeverRevokedLater(req, env);
    EarlyPassesIff(req, env);
    TokenSaysRevokedIff(req, env);
    FirstStopJoins(early, moves + later);
    FirstStopJoins(moves, later);
    assert FirstStop(early).Some? ==> FirstStop(early).value in early;
    assert FirstStop(later).Some? ==> FirstStop(later).value in later;
    hide Script, EarlyScript, LaterScript, TokenMoves, TokenIsReached, FirstStop, SaysRevoked;
  }

  /** An adapter that raises a controlled type itself ends the run without any refusing event. */
  lemma {:induction false} AdapterCanFailSilently(req: Request, env: Env)
    requires req.hasTaskId && req.sessionToken == "" && !req.protectOutbound && !req.budgeted
    requires env.injection.None? && env.mask(req.prompt).Ok?
    requires env.policy == Ok(Policy(true, "allow", [])) && env.issue.Ok? && env.validateIssued.None?
    requires env.complete(env.mask(req.prompt).value.text) == Err(PolicyDenied)
    ensures var r := Pipeline(req, env);
            && r.failure == Some(PolicyDenied) && r.errors == [LlmInvoke]
            && r.events == [Expect(req, env, PrePiiScrub)[0], AuditEvent("policy.allowed", Allow, PolicyEval),
                            AuditEvent("token.issued", Allow, JitTokenIssue)]
  {
    RunThen(true, PrePiiScrub, PreBody(req, env), FromPolicy(req, env));
    RunThen(true, PolicyEval, PolicyBody(env), FromMask(req, env));
    RunThen(Masks(env), PolicyMask, MaskBody(req, env), FromToken(req, env));
    RunThen(true, JitTokenIssue, TokenBody(req, env), FromBudget(req, env));
    RunThen(req.budgeted, WatchdogPreLlm, PreBudgetBody(env), FromLlm(req, env));
    RunThen(true, LlmInvoke, LlmBody(PromptOf(req, env), env), FromSpend(req, env));
    hide RunStages, Then;
  }
}

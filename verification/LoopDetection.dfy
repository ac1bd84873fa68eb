/** The loop detector: a circuit breaker over the history of an agent's steps. */
module LoopDetection {
  import opened Prelude

  datatype Signal = Progress | NoProgress | HumanRequired

  datatype StepRecord = StepRecord(number: int, tokens: int, signal: Signal, description: string)

  datatype Context = Context(
    sessionId: string,
    agentType: string,
    steps: seq<StepRecord>,
    totalTokens: int,
    loopDetected: bool,
    interventionRequired: bool)

  datatype Limits = Limits(maxSteps: int, maxVelocity: int)

  datatype Outcome = Recorded | TokenVelocity | PendingApproval | LoopDetected | NoContext

  /** One step as its caller reports it. */
  datatype Report = Report(tokens: int, signal: Signal, description: string)

  function NewContext(sessionId: string, agentType: string): Context {
    Context(sessionId, agentType, [], 0, false, false)
  }

  /** The streak kept incrementally: a step without progress adds one, any other resets it. */
  function Streak(steps: seq<StepRecord>): nat {
    if steps == [] || steps[|steps| - 1].signal != NoProgress then 0
    else 1 + Streak(steps[..|steps| - 1])
  }

  /** `record_step`: the step is appended first, then velocity, human hold and streak are checked. */
  function RecordStep(limits: Limits, ctx: Context, r: Report): (Context, Outcome) {
    var steps := ctx.steps + [StepRecord(|ctx.steps| + 1, r.tokens, r.signal, r.description)];
    var c := ctx.(steps := steps, totalTokens := ctx.totalTokens + r.tokens);
    if r.tokens > limits.maxVelocity then (c.(loopDetected := true), TokenVelocity)
    else if r.signal == HumanRequired then (c.(interventionRequired := true), PendingApproval)
    else if Streak(steps) >= limits.maxSteps then (c.(loopDetected := true), LoopDetected)
    else (c, Recorded)
  }

  // ----- checkpoints -----

  function SignalValue(s: Signal): string {
    match s
    case Progress => "progress"
    case NoProgress => "no_progress"
    case HumanRequired => "human_intervention_required"
  }

  function ParseSignal(v: string): Option<Signal> {
    if v == "progress" then Some(Progress)
    else if v == "no_progress" then Some(NoProgress)
    else if v == "human_intervention_required" then Some(HumanRequired)
    else None
  }

  datatype StepSnapshot = StepSnapshot(number: int, tokens: int, signal: string, description: string)

  datatype Checkpoint = Checkpoint(
    sessionId: string,
    agentType: string,
    totalTokens: int,
    loopDetected: bool,
    interventionRequired: bool,
    steps: seq<StepSnapshot>)

  function SaveStep(s: StepRecord): StepSnapshot {
    StepSnapshot(s.number, s.tokens, SignalValue(s.signal), s.description)
  }

  function SaveSteps(steps: seq<StepRecord>): seq<StepSnapshot> {
    seq(|steps|, i requires 0 <= i < |steps| => SaveStep(steps[i]))
  }

  function Save(c: Context): Checkpoint {
    Checkpoint(c.sessionId, c.agentType, c.totalTokens, c.loopDetected, c.interventionRequired, SaveSteps(c.steps))
  }

  function LoadSteps(steps: seq<StepSnapshot>): Option<seq<StepRecord>> {
    if steps == [] then Some([])
    else
      var n := |steps| - 1;
      var before := LoadSteps(steps[..n]);
      var signal := ParseSignal(steps[n].signal);
      if before.None? || signal.None? then None
      else Some(before.value + [StepRecord(steps[n].number, steps[n].tokens, signal.value, steps[n].description)])
  }

  /** `restore`; `None` is the `ValueError` of an unknown signal. */
  function Load(k: Checkpoint): Option<Context> {
    var steps := LoadSteps(k.steps);
    if steps.None? then None
    else Some(Context(k.sessionId, k.agentType, steps.value, k.totalTokens, k.loopDetected, k.interventionRequired))
  }

  lemma {:induction false} LoadStepsOfSaved(steps: seq<StepRecord>)
    ensures LoadSteps(SaveSteps(steps)) == Some(steps)
  {
    if steps != [] {
      var n := |steps| - 1;
      LoadStepsOfSaved(steps[..n]);
      assert SaveSteps(steps)[..n] == SaveSteps(steps[..n]);
      assert steps == steps[..n] + [steps[n]];
    }
  }

  /** A checkpoint restores to the context it was taken from. */
  lemma {:induction false} CheckpointRoundTrip(c: Context)
    ensures Load(Save(c)) == Some(c)
  {
    LoadStepsOfSaved(c.steps);
  }

  // ----- the live detector -----

  class ExecutionContext {
    const sessionId: string
    const agentType: string
    var steps: seq<StepRecord>
    var totalTokens: int
    var loopDetected: bool
    var interventionRequired: bool

    constructor (c: Context)
      ensures State() == c
    {
      sessionId, agentType, steps, totalTokens := c.sessionId, c.agentType, c.steps, c.totalTokens;
      loopDetected, interventionRequired := c.loopDetected, c.interventionRequired;
    }

    function State(): Context
      reads this
    {
      Context(sessionId, agentType, steps, totalTokens, loopDetected, interventionRequired)
    }
  }

  class LoopDetector {
    const limits: Limits
    var contexts: map<string, ExecutionContext>

    constructor (limits: Limits)
      ensures this.limits == limits && contexts == map[]
    {
      this.limits := limits;
      contexts := map[];
    }

    method CreateContext(sessionId: string, agentType: string) returns (c: ExecutionContext)
      modifies this
      ensures fresh(c) && c.State() == NewContext(sessionId, agentType)
      ensures contexts == old(contexts)[sessionId := c]
    {
      c := new ExecutionContext(NewContext(sessionId, agentType));
      contexts := contexts[sessionId := c];
    }

    /** The backward scan of `_no_progress_streak`: how many steps lie after the last one that
        reported progress or asked for a human. */
    static method NoProgressStreak(steps: seq<StepRecord>) returns (streak: nat)
      ensures streak <= |steps|
      ensures forall i :: |steps| - streak <= i < |steps| ==> steps[i].signal == NoProgress
      ensures streak < |steps| ==> steps[|steps| - streak - 1].signal != NoProgress
      ensures streak == Streak(steps)
    {
      streak := 0;
      var i := |steps|;
      assert steps[..i] == steps;
      while i > 0
        invariant 0 <= i <= |steps| && streak == |steps| - i
        invariant forall j :: i <= j < |steps| ==> steps[j].signal == NoProgress
        invariant Streak(steps) == streak + Streak(steps[..i])
      {
        if steps[i - 1].signal == Progress || steps[i - 1].signal == HumanRequired {
          break;
        }
        assert steps[..i][..i - 1] == steps[..i - 1];
        streak := streak + 1;
        i := i - 1;
      }
    }

    method Record(sessionId: string, r: Report) returns (o: Outcome)
      modifies if sessionId in contexts then {contexts[sessionId]} else {}
      ensures sessionId !in contexts ==> o == NoContext
      ensures sessionId in contexts ==>
                (contexts[sessionId].State(), o) == RecordStep(limits, old(contexts[sessionId].State()), r)
    {
      if sessionId !in contexts { return NoContext; }
      var ctx := contexts[sessionId];
      ctx.steps := ctx.steps + [StepRecord(|ctx.steps| + 1, r.tokens, r.signal, r.description)];
      ctx.totalTokens := ctx.totalTokens + r.tokens;
      if r.tokens > limits.maxVelocity {
        ctx.loopDetected := true;
        return TokenVelocity;
      }
      if r.signal == HumanRequired {
        ctx.interventionRequired := true;
        return PendingApproval;
      }
      var streak := NoProgressStreak(ctx.steps);
      if streak >= limits.maxSteps {
        ctx.loopDetected := true;
        return LoopDetected;
      }
      return Recorded;
    }

    method TakeCheckpoint(sessionId: string) returns (r: Option<Checkpoint>)
      ensures r == if sessionId in contexts then Some(Save(contexts[sessionId].State())) else None
    {
      if sessionId !in contexts { return None; }
      return Some(Save(contexts[sessionId].State()));
    }

    /** Replaces any context registered under the checkpoint's session. */
    method Restore(k: Checkpoint) returns (ok: bool)
      modifies this
      ensures ok == Load(k).Some?
      ensures !ok ==> contexts == old(contexts)
      ensures ok ==>
                && contexts.Keys == old(contexts).Keys + {k.sessionId}
                && (forall s :: s in old(contexts) && s != k.sessionId ==> contexts[s] == old(contexts)[s])
                && fresh(contexts[k.sessionId])
                && contexts[k.sessionId].State() == Load(k).value
    {
      var c := Load(k);
      if c.None? { return false; }
      var ctx := new ExecutionContext(c.value);
      contexts := contexts[k.sessionId := ctx];
      return true;
    }
  }

  // ----- the activity -----

  datatype StepInput = StepInput(
    taskId: string,
    agentType: string,
    sessionId: string,
    report: Report,
    checkpoint: Option<Checkpoint>,
    limits: Limits)

  /** Errors carry the step count and token total the activity reports with them. */
  datatype StepError =
    | MissingTaskId
    | BadCheckpoint
    | UnknownSession
    | Halted(cause: Outcome, stepCount: nat, totalTokens: int)

  datatype StepResult = StepResult(
    checkpoint: Checkpoint, stepCount: nat, totalTokens: int, loopDetected: bool, interventionRequired: bool)

  /** What `loop_record_step` answers. */
  function StepActivity(inp: StepInput): Result<StepResult, StepError> {
    if inp.taskId == "" then Err(MissingTaskId)
    else
      var start :=
        if inp.checkpoint.None? then Some(NewContext(inp.sessionId, inp.agentType)) else Load(inp.checkpoint.value);
      if start.None? then Err(BadCheckpoint)
      else if start.value.sessionId != inp.sessionId then Err(UnknownSession)
      else
        var (c, o) := RecordStep(inp.limits, start.value, inp.report);
        if o != Recorded then Err(Halted(o, |c.steps|, c.totalTokens))
        else Ok(StepResult(Save(c), |c.steps|, c.totalTokens, c.loopDetected, c.interventionRequired))
  }

  /** The activity builds a detector of its own, so redelivering it with the same input cannot
      advance anything: the answer is a function of the input. */
  method LoopRecordStep(inp: StepInput) returns (r: Result<StepResult, StepError>)
    ensures r == StepActivity(inp)
  {
    if inp.taskId == "" { return Err(MissingTaskId); }
    var detector := new LoopDetector(inp.limits);
    if inp.checkpoint.None? {
      var _ := detector.CreateContext(inp.sessionId, inp.agentType);
    } else {
      var ok := detector.Restore(inp.checkpoint.value);
      if !ok { return Err(BadCheckpoint); }
    }
    if inp.sessionId !in detector.contexts { return Err(UnknownSession); }
    var ctx := detector.contexts[inp.sessionId];
    var o := detector.Record(inp.sessionId, inp.report);
    if o != Recorded { return Err(Halted(o, |ctx.steps|, ctx.totalTokens)); }
    var k := detector.TakeCheckpoint(inp.sessionId);
    return Ok(StepResult(k.value, |ctx.steps|, ctx.totalTokens, ctx.loopDetected, ctx.interventionRequired));
  }
}

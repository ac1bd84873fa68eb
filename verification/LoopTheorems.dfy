/** What the loop detector decides over whole runs, and across checkpoints. */
module LoopTheorems {
  import opened Prelude
  import opened LoopDetection

  /** A run of steps on one context; a raising step does not end it. */
  function Run(limits: Limits, c: Context, reports: seq<Report>): (r: (Context, seq<Outcome>))
    ensures |r.1| == |reports|
  {
    if reports == [] then (c, [])
    else
      var n := |reports| - 1;
      var (c1, os) := Run(limits, c, reports[..n]);
      var (c2, o) := RecordStep(limits, c1, reports[n]);
      (c2, os + [o])
  }

  // ----- the circuit breaker, read off the reports alone -----

  /** The last `max` reports up to `i` all lack progress. */
  predicate Stuck(reports: seq<Report>, i: nat, max: int)
    requires i < |reports|
  {
    max <= i + 1 && forall j :: 0 <= j && i + 1 - max <= j <= i ==> reports[j].signal == NoProgress
  }

  /** The outcome of step `i`: velocity first, then the human hold, then the streak. */
  function Verdict(limits: Limits, reports: seq<Report>, i: nat): Outcome
    requires i < |reports|
  {
    if reports[i].tokens > limits.maxVelocity then TokenVelocity
    else if reports[i].signal == HumanRequired then PendingApproval
    else if Stuck(reports, i, limits.maxSteps) then LoopDetected
    else Recorded
  }

  function Tokens(reports: seq<Report>): int {
    if reports == [] then 0 else Tokens(reports[..|reports| - 1]) + reports[|reports| - 1].tokens
  }

  ghost predicate Mirrors(steps: seq<StepRecord>, reports: seq<Report>) {
    && |steps| == |reports|
    && forall i :: 0 <= i < |steps| ==>
         steps[i] == StepRecord(i + 1, reports[i].tokens, reports[i].signal, reports[i].description)
  }

  lemma {:induction false} StreakAtLeast(steps: seq<StepRecord>, n: int)
    ensures Streak(steps) >= n <==>
            n <= |steps| && forall i :: 0 <= i && |steps| - n <= i < |steps| ==> steps[i].signal == NoProgress
  {
    if n > 0 && steps != [] {
      var m := |steps| - 1;
      StreakAtLeast(steps[..m], n - 1);
      if Streak(steps) < n <= |steps| && steps[m].signal == NoProgress {
        var i :| 0 <= i && m - (n - 1) <= i < m && steps[..m][i].signal != NoProgress;
        assert steps[i].signal != NoProgress;
      }
    }
  }

  lemma {:induction false} StuckIsStreak(steps: seq<StepRecord>, reports: seq<Report>, max: int)
    requires Mirrors(steps, reports) && reports != []
    ensures Streak(steps) >= max <==> Stuck(reports, |reports| - 1, max)
  {
    StreakAtLeast(steps, max);
    var n := |reports| - 1;
    if Streak(steps) >= max {
      forall j | 0 <= j && n + 1 - max <= j <= n ensures reports[j].signal == NoProgress {
        assert steps[j].signal == NoProgress;
      }
    }
  }

  lemma {:induction false} VerdictOfPrefix(limits: Limits, reports: seq<Report>, n: nat, i: nat)
    requires i < n <= |reports|
    ensures Verdict(limits, reports[..n], i) == Verdict(limits, reports, i)
  {
    if Stuck(reports[..n], i, limits.maxSteps) {
      forall j | 0 <= j && i + 1 - limits.maxSteps <= j <= i ensures reports[j].signal == NoProgress {
        assert reports[..n][j].signal == NoProgress;
      }
    }
  }

  predicate Trips(o: Outcome) {
    o == TokenVelocity || o == LoopDetected
  }

  lemma {:induction false} StepMirrors(limits: Limits, c: Context, reports: seq<Report>, r: Report)
    requires Mirrors(c.steps, reports)
    ensures var c' := RecordStep(limits, c, r).0;
            && Mirrors(c'.steps, reports + [r])
            && c'.totalTokens == c.totalTokens + r.tokens
  {
  }

  /** What a run leaves in the context, whatever its steps decided. */
  lemma {:induction false} RunKeepsHistory(limits: Limits, id: string, agentType: string, reports: seq<Report>)
    ensures var c := Run(limits, NewContext(id, agentType), reports).0;
            Mirrors(c.steps, reports) && c.totalTokens == Tokens(reports)
  {
    if reports != [] {
      var n := |reports| - 1;
      RunKeepsHistory(limits, id, agentType, reports[..n]);
      StepMirrors(limits, Run(limits, NewContext(id, agentType), reports[..n]).0, reports[..n], reports[n]);
      assert reports == reports[..n] + [reports[n]];
      hide RecordStep, Mirrors;
    }
  }

  lemma {:induction false} OutcomeOfStep(limits: Limits, c: Context, r: Report)
    ensures RecordStep(limits, c, r).1 ==
            if r.tokens > limits.maxVelocity then TokenVelocity
            else if r.signal == HumanRequired then PendingApproval
            else if Streak(RecordStep(limits, c, r).0.steps) >= limits.maxSteps then LoopDetected
            else Recorded
  {
  }

  lemma {:induction false} OutcomesAreVerdicts(
    limits: Limits, id: string, agentType: string, reports: seq<Report>, i: nat)
    requires i < |reports|
    ensures Run(limits, NewContext(id, agentType), reports).1[i] == Verdict(limits, reports, i)
  {
    var n := |reports| - 1;
    if i < n {
      OutcomesAreVerdicts(limits, id, agentType, reports[..n], i);
      VerdictOfPrefix(limits, reports, n, i);
    } else {
      RunKeepsHistory(limits, id, agentType, reports);
      hide RecordStep, Streak, Stuck, Mirrors;
      StuckIsStreak(Run(limits, NewContext(id, agentType), reports).0.steps, reports, limits.maxSteps);
      OutcomeOfStep(limits, Run(limits, NewContext(id, agentType), reports[..n]).0, reports[n]);
    }
  }

  lemma {:induction false} FlagsOfStep(limits: Limits, c: Context, r: Report)
    ensures var (c', o) := RecordStep(limits, c, r);
            && (c'.loopDetected <==> c.loopDetected || Trips(o))
            && (c'.interventionRequired <==> c.interventionRequired || o == PendingApproval)
  {
  }

  /** The flags record whether some step tripped, and whether some step asked for a human. */
  lemma {:induction false} FlagsRecordOutcomes(limits: Limits, c: Context, reports: seq<Report>)
    ensures var (end, outcomes) := Run(limits, c, reports);
            && (end.loopDetected <==> c.loopDetected || exists i :: 0 <= i < |outcomes| && Trips(outcomes[i]))
            && (end.interventionRequired <==> c.interventionRequired || PendingApproval in outcomes)
  {
    if reports != [] {
      var n := |reports| - 1;
      FlagsRecordOutcomes(limits, c, reports[..n]);
      var (before, os) := Run(limits, c, reports[..n]);
      var (end, outcomes) := Run(limits, c, reports);
      FlagsOfStep(limits, before, reports[n]);
      hide RecordStep;
      assert outcomes == os + [outcomes[n]];
      if i :| 0 <= i < |os| && Trips(os[i]) { assert Trips(outcomes[i]); }
      if i :| 0 <= i < |outcomes| && Trips(outcomes[i]) { if i < n { assert Trips(os[i]); } }
    }
  }

  /** On a fresh context every outcome, both flags, the history and the token total are exactly
      what the reports imply. */
  lemma {:induction false} VerdictsAreExact(limits: Limits, id: string, agentType: string, reports: seq<Report>)
    ensures var (c, outcomes) := Run(limits, NewContext(id, agentType), reports);
            && (forall i :: 0 <= i < |reports| ==> outcomes[i] == Verdict(limits, reports, i))
            && (c.loopDetected <==> (exists i :: 0 <= i < |reports| && Trips(Verdict(limits, reports, i))))
            && (c.interventionRequired <==>
                 (exists i :: 0 <= i < |reports| && Verdict(limits, reports, i) == PendingApproval))
            && Mirrors(c.steps, reports)
            && c.totalTokens == Tokens(reports)
  {
    var (c, outcomes) := Run(limits, NewContext(id, agentType), reports);
    forall i | 0 <= i < |reports| ensures outcomes[i] == Verdict(limits, reports, i) {
      OutcomesAreVerdicts(limits, id, agentType, reports, i);
    }
    FlagsRecordOutcomes(limits, NewContext(id, agentType), reports);
    RunKeepsHistory(limits, id, agentType, reports);
  }

  function ProgressSteps(reports: seq<Report>): nat {
    if reports == [] then 0
    else ProgressSteps(reports[..|reports| - 1]) + if reports[|reports| - 1].signal == Progress then 1 else 0
  }

  ghost predicate Quiet(limits: Limits, reports: seq<Report>) {
    forall i :: 0 <= i < |reports| ==> Verdict(limits, reports, i) == Recorded
  }

  lemma {:induction false} QuietPrefix(limits: Limits, reports: seq<Report>, n: nat)
    requires Quiet(limits, reports) && n <= |reports|
    ensures Quiet(limits, reports[..n])
  {
    forall i | 0 <= i < n ensures Verdict(limits, reports[..n], i) == Recorded {
      VerdictOfPrefix(limits, reports, n, i);
    }
  }

  /** Counting back from the end of a quiet run, at most `tail` steps follow the last progress. */
  lemma {:induction false} QuietRunInvariant(limits: Limits, reports: seq<Report>) returns (tail: nat)
    requires limits.maxSteps >= 1 && Quiet(limits, reports)
    ensures tail < limits.maxSteps && tail <= |reports|
    ensures forall i :: |reports| - tail <= i < |reports| ==> reports[i].signal == NoProgress
    ensures |reports| <= ProgressSteps(reports) * limits.maxSteps + tail
  {
    if reports == [] {
      tail := 0;
    } else {
      var n := |reports| - 1;
      QuietPrefix(limits, reports, n);
      var t := QuietRunInvariant(limits, reports[..n]);
      assert Verdict(limits, reports, n) == Recorded;
      if reports[n].signal == Progress {
        tail := 0;
        OneMore(ProgressSteps(reports[..n]), limits.maxSteps);
      } else {
        tail := t + 1;
        forall i | |reports| - tail <= i < |reports| ensures reports[i].signal == NoProgress {
          if i < n { assert reports[..n][i].signal == NoProgress; }
        }
        assert !Stuck(reports, n, limits.maxSteps);
      }
    }
  }

  lemma {:induction false} OneMore(p: nat, max: int)
    ensures (p + 1) * max == p * max + max
  {
  }

  lemma {:induction false} QuietTokens(limits: Limits, reports: seq<Report>)
    requires Quiet(limits, reports)
    ensures Tokens(reports) <= |reports| * limits.maxVelocity
  {
    if reports != [] {
      var n := |reports| - 1;
      QuietPrefix(limits, reports, n);
      QuietTokens(limits, reports[..n]);
      assert Verdict(limits, reports, n) == Recorded;
      OneMore(n, limits.maxVelocity);
    }
  }

  /** A run that never raised is short: between two progress steps lie fewer than `maxSteps`
      others, and no step is dearer than the velocity limit. */
  lemma {:induction false} QuietRunsAreShort(limits: Limits, id: string, agentType: string, reports: seq<Report>)
    requires limits.maxSteps >= 1
    requires forall i :: 0 <= i < |reports| ==> Run(limits, NewContext(id, agentType), reports).1[i] == Recorded
    ensures |reports| <= (ProgressSteps(reports) + 1) * limits.maxSteps - 1
    ensures Run(limits, NewContext(id, agentType), reports).0.totalTokens <= |reports| * limits.maxVelocity
  {
    VerdictsAreExact(limits, id, agentType, reports);
    var _ := QuietRunInvariant(limits, reports);
    QuietTokens(limits, reports);
    OneMore(ProgressSteps(reports), limits.maxSteps);
  }

  // ----- checkpoints are invisible -----

  /** One uninterrupted detector, up to and including the first step that raises. */
  function Live(limits: Limits, c: Context, reports: seq<Report>): Result<Context, StepError> {
    if reports == [] then Ok(c)
    else
      var n := |reports| - 1;
      var before := Live(limits, c, reports[..n]);
      if before.Err? then before
      else
        var (c', o) := RecordStep(limits, before.value, reports[n]);
        if o != Recorded then Err(Halted(o, |c'.steps|, c'.totalTokens)) else Ok(c')
  }

  /** Successive activities, each with a detector of its own and the checkpoint the previous one
      returned; a raise ends the chain. */
  function Chain(inp: StepInput, reports: seq<Report>): Result<Option<Checkpoint>, StepError> {
    if reports == [] then Ok(inp.checkpoint)
    else
      var n := |reports| - 1;
      var before := Chain(inp, reports[..n]);
      if before.Err? then before
      else
        var r := StepActivity(inp.(checkpoint := before.value, report := reports[n]));
        if r.Err? then Err(r.error) else Ok(Some(r.value.checkpoint))
  }

  /** The chain ends as the uninterrupted detector does: same error, step count and token total,
      or a checkpoint of the same context. */
  lemma {:induction false} ChainIsLive(inp: StepInput, reports: seq<Report>)
    requires inp.checkpoint == None && inp.taskId != ""
    ensures var live := Live(inp.limits, NewContext(inp.sessionId, inp.agentType), reports);
            && (live.Err? ==> Chain(inp, reports) == Err(live.error))
            && (live.Ok? ==>
                  && Chain(inp, reports) == Ok(if reports == [] then None else Some(Save(live.value)))
                  && live.value.sessionId == inp.sessionId
                  && (reports == [] ==> live.value == NewContext(inp.sessionId, inp.agentType)))
  {
    if reports != [] {
      hide RecordStep, Save, Load;
      var n := |reports| - 1;
      ChainIsLive(inp, reports[..n]);
      var before := Live(inp.limits, NewContext(inp.sessionId, inp.agentType), reports[..n]);
      if before.Ok? {
        if n > 0 { CheckpointRoundTrip(before.value); }
        SessionStays(inp.limits, before.value, reports[n]);
      }
    }
  }

  lemma {:induction false} SessionStays(limits: Limits, c: Context, r: Report)
    ensures RecordStep(limits, c, r).0.sessionId == c.sessionId
  {
  }

  /** How signals are written in a checkpoint. */
  function NameOf(s: Signal): string {
    match s
    case HumanRequired => "human_intervention_required"
    case NoProgress => "no_progress"
    case Progress => "progress"
  }

  /** A checkpoint shows the whole context, step by step, with its signals by name. */
  lemma {:induction false} CheckpointShowsContext(c: Context)
    ensures var k := Save(c);
            && k.sessionId == c.sessionId && k.agentType == c.agentType && k.totalTokens == c.totalTokens
            && k.loopDetected == c.loopDetected && k.interventionRequired == c.interventionRequired
            && |k.steps| == |c.steps|
            && forall i :: 0 <= i < |c.steps| ==>
                 var x, y := k.steps[i], c.steps[i];
                 && x.number == y.number && x.tokens == y.tokens && x.description == y.description
                 && x.signal == NameOf(y.signal)
  {
  }

  predicate IsSignalName(v: string) {
    v in {"progress", "no_progress", "human_intervention_required"}
  }

  lemma {:induction false} LoadStepsFailsIff(steps: seq<StepSnapshot>)
    ensures LoadSteps(steps).None? <==> exists i :: 0 <= i < |steps| && !IsSignalName(steps[i].signal)
  {
    if steps != [] {
      var n := |steps| - 1;
      LoadStepsFailsIff(steps[..n]);
      if i :| 0 <= i < n && !IsSignalName(steps[..n][i].signal) { assert !IsSignalName(steps[i].signal); }
      if i :| 0 <= i < |steps| && !IsSignalName(steps[i].signal) {
        if i < n { assert !IsSignalName(steps[..n][i].signal); }
      }
    }
  }

  /** When the activity cannot even record the step: without a task id, with a checkpoint that holds an
      unknown signal, or with one of another session, and in that order. */
  lemma {:induction false} ActivityRefusesIff(inp: StepInput)
    ensures var r := StepActivity(inp);
            var bad := inp.checkpoint.Some? &&
              exists i :: 0 <= i < |inp.checkpoint.value.steps| && !IsSignalName(inp.checkpoint.value.steps[i].signal);
            && (r == Err(MissingTaskId) <==> inp.taskId == "")
            && (r == Err(BadCheckpoint) <==> inp.taskId != "" && bad)
            && (r == Err(UnknownSession) <==>
                  inp.taskId != "" && !bad && inp.checkpoint.Some? && inp.checkpoint.value.sessionId != inp.sessionId)
  {
    if inp.checkpoint.Some? { LoadStepsFailsIff(inp.checkpoint.value.steps); }
    hide RecordStep, IsSignalName;
  }

  /** The activity that a chain ends with: it answers exactly when no report so far tripped anything,
      and then counts the reports and their tokens and raises neither flag; otherwise it halts with the
      verdict on the last report and the same counts. */
  lemma {:induction false} ActivityReports(inp: StepInput, reports: seq<Report>)
    requires inp.checkpoint == None && inp.taskId != "" && reports != []
    requires Chain(inp, reports[..|reports| - 1]).Ok?
    ensures var n := |reports| - 1;
            var r := StepActivity(inp.(checkpoint := Chain(inp, reports[..n]).value, report := reports[n]));
            var verdict := Verdict(inp.limits, reports, n);
            if verdict == Recorded then
              && r.Ok? && r.value.stepCount == |reports| && r.value.totalTokens == Tokens(reports)
              && !r.value.loopDetected && !r.value.interventionRequired
              && r.value.checkpoint.sessionId == inp.sessionId
              && |r.value.checkpoint.steps| == |reports| && r.value.checkpoint.totalTokens == Tokens(reports)
            else r == Err(Halted(verdict, |reports|, Tokens(reports)))
  {
    var n := |reports| - 1;
    var before := reports[..n];
    ChainIsLive(inp, before);
    LiveIsRun(inp.limits, inp.sessionId, inp.agentType, before);
    var fresh0 := NewContext(inp.sessionId, inp.agentType);
    var (c, os) := Run(inp.limits, fresh0, before);
    if n > 0 { CheckpointRoundTrip(c); }
    VerdictsAreExact(inp.limits, inp.sessionId, inp.agentType, reports);
    assert reports[..n] == before;
    var (end, outcomes) := Run(inp.limits, fresh0, reports);
    assert outcomes[n] == Verdict(inp.limits, reports, n) && outcomes[n] == RecordStep(inp.limits, c, reports[n]).1;
    FlagsOfStep(inp.limits, c, reports[n]);
    hide Run, Verdict, Mirrors, RecordStep;
    assert |end.steps| == |reports| by { MirrorsLength(end.steps, reports); }
    assert Start(inp, Chain(inp, before).value) == Some(c);
  }

  lemma {:induction false} MirrorsLength(steps: seq<StepRecord>, reports: seq<Report>)
    requires Mirrors(steps, reports)
    ensures |steps| == |reports|
  {
  }

  /** The context an activity starts from. */
  function Start(inp: StepInput, checkpoint: Option<Checkpoint>): Option<Context> {
    if checkpoint.None? then Some(NewContext(inp.sessionId, inp.agentType)) else Load(checkpoint.value)
  }

  /** A run without a raise is a run of which every step was recorded, and leaves both flags down. */
  lemma {:induction false} LiveIsRun(limits: Limits, id: string, agentType: string, reports: seq<Report>)
    requires Live(limits, NewContext(id, agentType), reports).Ok?
    ensures var c := Live(limits, NewContext(id, agentType), reports).value;
            && c == Run(limits, NewContext(id, agentType), reports).0
            && c.sessionId == id && !c.loopDetected && !c.interventionRequired
  {
    if reports != [] {
      LiveIsRun(limits, id, agentType, reports[..|reports| - 1]);
    }
  }

  function Flatten(segments: seq<seq<Report>>): seq<Report> {
    if segments == [] then [] else Flatten(segments[..|segments| - 1]) + segments[|segments| - 1]
  }

  /** A run cut into segments, with a checkpoint and a restore into a new detector after each. */
  function Segmented(limits: Limits, c: Context, segments: seq<seq<Report>>): Result<Context, StepError> {
    if segments == [] then Ok(c)
    else
      var n := |segments| - 1;
      var before := Segmented(limits, c, segments[..n]);
      if before.Err? then before
      else
        var after := Live(limits, before.value, segments[n]);
        if after.Err? then after
        else
          var restored := Load(Save(after.value));
          if restored.None? then Err(BadCheckpoint) else Ok(restored.value)
  }

  lemma {:induction false} LiveConcat(limits: Limits, c: Context, a: seq<Report>, b: seq<Report>)
    ensures var first := Live(limits, c, a);
            Live(limits, c, a + b) == if first.Err? then first else Live(limits, first.value, b)
  {
    if b == [] {
      assert a + b == a;
    } else {
      assert (a + b)[..|a + b| - 1] == a + b[..|b| - 1];
      LiveConcat(limits, c, a, b[..|b| - 1]);
    }
  }

  /** Wherever a run is interrupted, and however often, nothing changes. */
  lemma {:induction false} InterruptionsAreInvisible(limits: Limits, c: Context, segments: seq<seq<Report>>)
    ensures Segmented(limits, c, segments) == Live(limits, c, Flatten(segments))
  {
    if segments != [] {
      var n := |segments| - 1;
      InterruptionsAreInvisible(limits, c, segments[..n]);
      LiveConcat(limits, c, Flatten(segments[..n]), segments[n]);
      var before := Segmented(limits, c, segments[..n]);
      if before.Ok? {
        var after := Live(limits, before.value, segments[n]);
        if after.Ok? { CheckpointRoundTrip(after.value); }
      }
    }
  }

  // ----- the documented streak -----

  /** The streak as `record_step` documents it: a human-intervention step leaves it alone. */
  function DocumentedStreak(steps: seq<StepRecord>): nat {
    if steps == [] then 0
    else
      match steps[|steps| - 1].signal
      case Progress => 0
      case HumanRequired => DocumentedStreak(steps[..|steps| - 1])
      case NoProgress => 1 + DocumentedStreak(steps[..|steps| - 1])
  }

  /** Step `i` lacks progress and none has been made since. */
  predicate Unresolved(steps: seq<StepRecord>, i: nat) {
    i < |steps| && steps[i].signal == NoProgress && forall k :: i < k < |steps| ==> steps[k].signal != Progress
  }

  /** A human-intervention step follows one without progress, and no progress has been made since. */
  ghost predicate Interrupted(steps: seq<StepRecord>) {
    exists i: nat, j: nat :: Unresolved(steps, i) && i < j < |steps| && steps[j].signal == HumanRequired
  }

  lemma {:induction false} UnresolvedBefore(steps: seq<StepRecord>, last: StepRecord, i: nat)
    requires i < |steps|
    ensures Unresolved(steps + [last], i) <==> Unresolved(steps, i) && last.signal != Progress
  {
    var longer := steps + [last];
    assert longer[|steps|] == last;
    if Unresolved(longer, i) {
      forall k | i < k < |steps| ensures steps[k].signal != Progress { assert longer[k] == steps[k]; }
    }
  }

  lemma {:induction false} DocumentedIsPositiveIff(steps: seq<StepRecord>)
    ensures DocumentedStreak(steps) > 0 <==> exists i: nat :: Unresolved(steps, i)
  {
    if steps != [] {
      var n := |steps| - 1;
      var before, last := steps[..n], steps[n];
      assert steps == before + [last];
      DocumentedIsPositiveIff(before);
      forall i: nat | i < n ensures Unresolved(steps, i) <==> Unresolved(before, i) && last.signal != Progress {
        UnresolvedBefore(before, last, i);
      }
      if last.signal == NoProgress {
        assert Unresolved(steps, n);
      } else if i: nat :| Unresolved(steps, i) {
        assert i < n;
      }
    }
  }

  lemma {:induction false} InterruptedBy(before: seq<StepRecord>, last: StepRecord)
    ensures Interrupted(before + [last]) <==>
            match last.signal
            case Progress => false
            case NoProgress => Interrupted(before)
            case HumanRequired => exists i: nat :: Unresolved(before, i)
  {
    var steps, n := before + [last], |before|;
    assert steps[n] == last;
    forall i: nat | i < n ensures Unresolved(steps, i) <==> Unresolved(before, i) && last.signal != Progress {
      UnresolvedBefore(before, last, i);
    }
    if i: nat, j: nat :| Unresolved(steps, i) && i < j < |steps| && steps[j].signal == HumanRequired {
      assert Unresolved(before, i);
      if j < n { assert before[j].signal == HumanRequired; }
    }
    if last.signal == NoProgress && Interrupted(before) {
      var i: nat, j: nat :| Unresolved(before, i) && i < j < |before| && before[j].signal == HumanRequired;
      assert Unresolved(steps, i) && steps[j].signal == HumanRequired;
    }
    if last.signal == HumanRequired && exists i: nat :: Unresolved(before, i) {
      var i: nat :| Unresolved(before, i);
      assert Unresolved(steps, i) && i < n < |steps|;
    }
  }

  /** The streak never exceeds the documented one, and equals it exactly when no human-intervention
      step has interrupted steps without progress. */
  lemma {:induction false} StreakIsDocumentedIff(steps: seq<StepRecord>)
    ensures Streak(steps) <= DocumentedStreak(steps)
    ensures Streak(steps) == DocumentedStreak(steps) <==> !Interrupted(steps)
  {
    if steps != [] {
      var n := |steps| - 1;
      var before, last := steps[..n], steps[n];
      assert steps == before + [last];
      StreakIsDocumentedIff(before);
      DocumentedIsPositiveIff(before);
      InterruptedBy(before, last);
    }
  }

  /** One human-intervention step leaves the streak alone exactly when there is none. */
  lemma {:induction false} HumanStepKeepsStreakIff(steps: seq<StepRecord>, h: StepRecord)
    requires h.signal == HumanRequired
    ensures Streak(steps + [h]) == Streak(steps) <==> Streak(steps) == 0
    ensures DocumentedStreak(steps + [h]) == DocumentedStreak(steps)
  {
    assert (steps + [h])[..|steps|] == steps;
  }

  /** With a limit of two, the second step without progress does not trip the breaker if a
      human-intervention step came before it; the documented streak has reached the limit. */
  lemma {:induction false} HumanStepHidesALoop(velocity: int)
    requires velocity >= 0
    ensures var idle, human := Report(0, NoProgress, ""), Report(0, HumanRequired, "");
            var (end, outcomes) := Run(Limits(2, velocity), NewContext("s", "general"), [idle, human, idle]);
            && outcomes == [Recorded, PendingApproval, Recorded]
            && Streak(end.steps) == 1 && DocumentedStreak(end.steps) == 2
  {
    var idle, human := Report(0, NoProgress, ""), Report(0, HumanRequired, "");
    var reports, limits := [idle, human, idle], Limits(2, velocity);
    var (end, outcomes) := Run(limits, NewContext("s", "general"), reports);
    OutcomesAreVerdicts(limits, "s", "general", reports, 0);
    OutcomesAreVerdicts(limits, "s", "general", reports, 1);
    OutcomesAreVerdicts(limits, "s", "general", reports, 2);
    RunKeepsHistory(limits, "s", "general", reports);
    hide Run;
    assert reports[1] == human && !Stuck(reports, 2, 2);
    var steps := end.steps;
    assert steps[..2][..1] == steps[..1] && steps[..1][..0] == [];
    assert steps[..1][0].signal == NoProgress && steps[..2][1].signal == HumanRequired && steps[2].signal == NoProgress;
    assert DocumentedStreak(steps[..1]) == 1 && DocumentedStreak(steps[..2]) == 1 && Streak(steps[..2]) == 0;
  }
}

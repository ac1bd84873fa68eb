/** The client half of the approval protocol: each reviewer queries the workflow, then signals it,
    and other steps may fall in between. */
module ApprovalClients {
  import opened Prelude
  import opened ApprovalWorkflow
  import WT = WorkflowTheorems

  /** Where one call of `TaskApprovalService.approve` or `deny` stands. */
  datatype Client =
    | Ready(payload: Payload)      // the query showed a pending approval
    | Reported(payload: Payload)   // the signal was accepted and the decision returned to the caller
    | Conflict(approval: Approval) // no longer awaiting
    | NotFound                     // the query or the signal failed

  datatype System = System(workflow: State, clients: map<nat, Client>)

  datatype Act =
    | Query(client: nat, payload: Payload, reachable: bool)
    | Deliver(client: nat)
    | Internal(event: Event)

  function StepSystem(inp: Input, y: System, a: Act): System {
    match a
    case Query(c, p, reachable) =>
      if c in y.clients then y
      else if !reachable then y.(clients := y.clients[c := NotFound])
      else if y.workflow.approval != Awaiting then y.(clients := y.clients[c := Conflict(y.workflow.approval)])
      else y.(clients := y.clients[c := Ready(p)])
    case Deliver(c) =>
      if c !in y.clients || !y.clients[c].Ready? then y
      else if !IsOpen(y.workflow.pc) then y.(clients := y.clients[c := NotFound])
      else System(Step(inp, y.workflow, Signal(y.clients[c].payload)), y.clients[c := Reported(y.clients[c].payload)])
    case Internal(e) =>
      if e.Signal? then y else y.(workflow := Step(inp, y.workflow, e))
  }

  function ExecSystem(inp: Input, acts: seq<Act>): System {
    if acts == [] then System(INITIAL, map[])
    else StepSystem(inp, ExecSystem(inp, acts[..|acts| - 1]), acts[|acts| - 1])
  }

  // ----- the workflow's own view -----

  /** The workflow events a run of the system amounts to. */
  function EventsOf(inp: Input, acts: seq<Act>): seq<Event> {
    if acts == [] then []
    else
      var n := |acts| - 1;
      var y := ExecSystem(inp, acts[..n]);
      EventsOf(inp, acts[..n]) +
      match acts[n]
      case Query(_, _, _) => []
      case Deliver(c) =>
        if c in y.clients && y.clients[c].Ready? && IsOpen(y.workflow.pc) then [Signal(y.clients[c].payload)] else []
      case Internal(e) => if e.Signal? then [] else [e]
  }

  /** Any number of concurrent clients leaves the workflow in a state of one of its own runs, so all
      that holds of every run holds under them. */
  lemma {:induction false} ClientsRunTheWorkflow(inp: Input, acts: seq<Act>)
    ensures ExecSystem(inp, acts).workflow == Exec(inp, EventsOf(inp, acts))
  {
    if acts != [] {
      var n := |acts| - 1;
      ClientsRunTheWorkflow(inp, acts[..n]);
      var before, after := EventsOf(inp, acts[..n]), EventsOf(inp, acts);
      if |after| == |before| + 1 {
        assert after[..|before|] == before;
      } else {
        assert before + [] == before;
        assert after == before;
      }
      hide Step;
    }
  }

  /** Every stored payload was sent by a client whose query had shown a pending approval. */
  ghost predicate Sourced(y: System) {
    forall i :: 0 <= i < |y.workflow.log| && y.workflow.log[i].SignalStored? ==>
      exists c :: c in y.clients && y.clients[c] == Reported(y.workflow.log[i].payload)
  }

  lemma {:induction false} InternalStoresNothing(inp: Input, s: State, e: Event)
    requires !e.Signal?
    ensures s.log <= Step(inp, s, e).log
    ensures forall i :: |s.log| <= i < |Step(inp, s, e).log| ==> !Step(inp, s, e).log[i].SignalStored?
  {
  }

  lemma {:induction false} SourcedHolds(inp: Input, acts: seq<Act>)
    ensures Sourced(ExecSystem(inp, acts))
  {
    if acts != [] {
      var n := |acts| - 1;
      SourcedHolds(inp, acts[..n]);
      var y, y' := ExecSystem(inp, acts[..n]), ExecSystem(inp, acts);
      if acts[n].Internal? && !acts[n].event.Signal? { InternalStoresNothing(inp, y.workflow, acts[n].event); }
      forall i | 0 <= i < |y'.workflow.log| && y'.workflow.log[i].SignalStored?
        ensures exists c :: c in y'.clients && y'.clients[c] == Reported(y'.workflow.log[i].payload)
      {
        if i < |y.workflow.log| {
          var c :| c in y.clients && y.clients[c] == Reported(y.workflow.log[i].payload);
          assert y'.clients[c] == y.clients[c];
        } else {
          assert y'.clients[acts[n].client] == Reported(y'.workflow.log[i].payload);
        }
      }
    }
  }

  /** The payload that a decision other than a timeout rests on was sent by a client that had seen the
      approval pending and was told that it was accepted. */
  lemma {:induction false} DecisionsComeFromReviewers(inp: Input, acts: seq<Act>)
    ensures var y := ExecSystem(inp, acts);
            y.workflow.approval == Approved || y.workflow.approval == Denied ==>
              && y.workflow.signal.Some?
              && (y.workflow.approval == Approved <==> y.workflow.signal.value.approved)
              && exists c :: c in y.clients && y.clients[c] == Reported(y.workflow.signal.value)
  {
    ClientsRunTheWorkflow(inp, acts);
    SourcedHolds(inp, acts);
    var y := ExecSystem(inp, acts);
    WT.GateHolds(inp, EventsOf(inp, acts));
    if y.workflow.approval == Approved || y.workflow.approval == Denied {
      HeldWasStored(y.workflow);
      var i :| 0 <= i < |y.workflow.log| && y.workflow.log[i] == SignalStored(y.workflow.signal.value);
      var c :| c in y.clients && y.clients[c] == Reported(y.workflow.log[i].payload);
    }
    hide WT.GateInv, WT.Decided;
  }

  lemma {:induction false} HeldWasStored(s: State)
    requires WT.Decided(s)
    ensures s.signal.Some? && (s.approval == Approved <==> s.signal.value.approved)
    ensures exists i :: 0 <= i < |s.log| && s.log[i] == SignalStored(s.signal.value)
  {
    var log := s.log;
    var g :| 3 <= g < |log| && WT.DecidedAt(log, g) && s.signal == Some(log[g].payload) &&
      s.approval == if log[g].payload.approved then Approved else Denied;
    var enter, stored :| 0 <= enter < stored < g && log[enter] == GateEntered &&
      log[stored] == SignalStored(log[g].payload) && forall j :: stored < j < g ==> !log[j].SignalStored?;
  }

  // ----- what a client is told -----

  function ExecFrom(inp: Input, s: State, events: seq<Event>): State {
    if events == [] then s else Step(inp, ExecFrom(inp, s, events[..|events| - 1]), events[|events| - 1])
  }

  /** The workflow holds `p`, and only `p` can decide. */
  predicate Holds(s: State, p: Payload) {
    && s.signal == Some(p)
    && (s.approval == Awaiting || s.approval == TimedOut || s.approval == if p.approved then Approved else Denied)
    && (s.approval == Awaiting ==> s.pc.AnnouncePending? || s.pc.WaitDecision? || s.pc.Raised?)
    && (s.pc.AnnouncePending? || s.pc.WaitDecision? ==> s.approval == Awaiting)
    && !s.pc.NotStarted? && !s.pc.InStage?
  }

  lemma {:induction false} StepHolds(inp: Input, s: State, e: Event, p: Payload)
    requires Holds(s, p) && !e.Signal?
    ensures Holds(Step(inp, s, e), p)
  {
    if e.Attempt? && IsActivity(s.pc) && s.attempt < MaxAttempts(s.pc) {
      var t := Attempted(inp, s, e.emits);
      WT.AttemptedFrame(inp, s, e.emits);
      if Completes(inp, s, e) { AdvanceHolds(inp, t, e.answer.value, e.now, p); }
    }
  }

  lemma {:induction false} AdvanceHolds(inp: Input, s: State, a: Answer, now: real, p: Payload)
    requires Holds(s, p) && Fits(inp, s, a) && s.attempt > 0 && IsActivity(s.pc)
    ensures Holds(Advance(inp, s, a, now), p)
  {
  }

  /** Once a payload is stored and no other follows it, the gate can only resume on it. */
  lemma {:induction false} LastWordWins(inp: Input, s: State, p: Payload, events: seq<Event>)
    requires s.approval == Awaiting && s.signal == Some(p) && (s.pc.AnnouncePending? || s.pc.WaitDecision?)
    requires forall i :: 0 <= i < |events| ==> !events[i].Signal?
    ensures Holds(ExecFrom(inp, s, events), p)
  {
    if events != [] {
      var n := |events| - 1;
      LastWordWins(inp, s, p, events[..n]);
      StepHolds(inp, ExecFrom(inp, s, events[..n]), events[n], p);
      hide Step, Holds;
    }
  }

  /** The decision returned to a client is not always the outcome: two reviewers may both be told
      that theirs was accepted while only the later one counts. */
  lemma {:induction false} ReportCanBeOverruled(inp: Input)
    requires NeedsApproval(inp) && inp.taskId != ""
    ensures exists acts ::
              var y := ExecSystem(inp, acts);
              && y.workflow.approval == Denied
              && 0 in y.clients && y.clients[0].Reported? && y.clients[0].payload.approved
              && 1 in y.clients && y.clients[1].Reported? && !y.clients[1].payload.approved
  {
    var yes, no := Payload("ada", "fine", true), Payload("bob", "too dear", false);
    var done := Internal(Attempt(true, Some(Done), 0.0));
    var acts, y := GateOpens(inp, done);
    var ya := StepSystem(inp, y, Query(0, yes, true));
    var yb := StepSystem(inp, ya, Query(1, no, true));
    Overruled(inp, yb, yes, no);
    acts := ActAppended(inp, acts, Query(0, yes, true));
    acts := ActAppended(inp, acts, Query(1, no, true));
    acts := ActAppended(inp, acts, Deliver(0));
    acts := ActAppended(inp, acts, Deliver(1));
    acts := ActAppended(inp, acts, Internal(Resume));
    hide StepSystem, ExecSystem;
  }

  /** Nor is an accepted decision always heard: one that arrives after the gate has timed out is
      reported to its client and stored nowhere. */
  lemma {:induction false} ReportCanComeTooLate(inp: Input)
    requires NeedsApproval(inp) && inp.taskId != ""
    ensures exists acts ::
              var y := ExecSystem(inp, acts);
              && y.workflow.approval == TimedOut && y.workflow.signal == None
              && 0 in y.clients && y.clients[0].Reported? && y.clients[0].payload.approved
  {
    var yes := Payload("ada", "fine", true);
    var done := Internal(Attempt(true, Some(Done), 0.0));
    var acts, y := GateOpens(inp, done);
    TooLate(inp, y, yes);
    acts := ActAppended(inp, acts, Query(0, yes, true));
    acts := ActAppended(inp, acts, Internal(Timeout));
    acts := ActAppended(inp, acts, Deliver(0));
    hide StepSystem, ExecSystem;
  }

  /** The reviewer asks, the gate times out, the answer arrives. */
  lemma {:induction false} TooLate(inp: Input, y: System, yes: Payload)
    requires y.workflow.pc.WaitDecision? && y.workflow.approval == Awaiting && y.workflow.signal == None
    requires y.clients == map[]
    ensures var end := StepSystem(inp, StepSystem(inp, StepSystem(inp, y, Query(0, yes, true)),
                                                  Internal(Timeout)), Deliver(0));
            && end.workflow.approval == TimedOut && end.workflow.signal == None
            && 0 in end.clients && end.clients[0] == Reported(yes)
  {
  }

  lemma {:induction false} ActAppended(inp: Input, acts: seq<Act>, a: Act) returns (longer: seq<Act>)
    ensures longer == acts + [a]
    ensures ExecSystem(inp, longer) == StepSystem(inp, ExecSystem(inp, acts), a)
  {
    longer := acts + [a];
    assert longer[..|acts|] == acts;
  }

  /** Both reviewers have seen the pending approval; the denial arrives last. */
  lemma {:induction false} Overruled(inp: Input, y: System, yes: Payload, no: Payload)
    requires y.workflow.pc.WaitDecision? && y.workflow.approval == Awaiting && yes.approved && !no.approved
    requires y.clients == map[0 := Ready(yes), 1 := Ready(no)]
    ensures var end := StepSystem(inp, StepSystem(inp, StepSystem(inp, y, Deliver(0)), Deliver(1)), Internal(Resume));
            && end.workflow.approval == Denied
            && 0 in end.clients && end.clients[0] == Reported(yes)
            && 1 in end.clients && end.clients[1] == Reported(no)
  {
  }

  lemma {:induction false} StagesPass(inp: Input, done: Act) returns (acts: seq<Act>)
    requires inp.taskId != "" && done == Internal(Attempt(true, Some(Done), 0.0))
    ensures var y := ExecSystem(inp, acts);
            && y.clients == map[] && y.workflow.pc == InStage(JITTokenIssue)
            && y.workflow.attempt == 0 && y.workflow.signal == None
  {
    acts := ActAppended(inp, [], Internal(Start));
    assert ExecSystem(inp, acts).workflow.pc == InStage(PrePIIScrub);
    acts := ActAppended(inp, acts, done);
    assert ExecSystem(inp, acts).workflow.pc == InStage(PolicyEval);
    acts := ActAppended(inp, acts, done);
    hide ExecSystem, RecordOf, PreCheckOf;
  }

  lemma {:induction false} GateOpens(inp: Input, done: Act) returns (acts: seq<Act>, y: System)
    requires NeedsApproval(inp) && inp.taskId != "" && done == Internal(Attempt(true, Some(Done), 0.0))
    ensures y == ExecSystem(inp, acts) && y.clients == map[]
    ensures y.workflow.pc.WaitDecision? && y.workflow.approval == Awaiting && y.workflow.signal == None
  {
    acts := StagesPass(inp, done);
    acts := ActAppended(inp, acts, done);
    assert ExecSystem(inp, acts).workflow.pc == AnnouncePending && ExecSystem(inp, acts).workflow.approval == Awaiting;
    acts := ActAppended(inp, acts, done);
    y := ExecSystem(inp, acts);
    hide ExecSystem, RecordOf, PreCheckOf;
  }
}

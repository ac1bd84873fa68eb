/** When the decision reported to a reviewer is the one the workflow acts on. */
module ApprovalReports {
  import opened Prelude
  import opened ApprovalWorkflow
  import opened ApprovalClients
  import WT = WorkflowTheorems

  /** The system before act `i`. */
  function At(inp: Input, acts: seq<Act>, i: nat): System
    requires i <= |acts|
  {
    ExecSystem(inp, acts[..i])
  }

  function LogAt(inp: Input, acts: seq<Act>, i: nat): seq<Entry>
    requires i <= |acts|
  {
    At(inp, acts, i).workflow.log
  }

  /** `a` delivers the decision of a client whose call then returns it as accepted. */
  predicate Accepts(y: System, a: Act) {
    a.Deliver? && a.client in y.clients && y.clients[a.client].Ready? && IsOpen(y.workflow.pc)
  }

  function Sent(y: System, a: Act): Payload
    requires Accepts(y, a)
  {
    y.clients[a.client].payload
  }

  /** The workflow stores the decision that `a` delivers: the gate is open. */
  predicate HeardBy(y: System, a: Act) {
    Accepts(y, a) && y.workflow.approval == Awaiting
  }

  predicate ResumedBy(y: System, a: Act) {
    a == Internal(Resume) && y.workflow.pc.WaitDecision? && y.workflow.signal.Some?
  }

  /** Act `d` reported `p` to its client. */
  predicate Reports(inp: Input, acts: seq<Act>, d: nat, p: Payload) {
    d < |acts| && Accepts(At(inp, acts, d), acts[d]) && Sent(At(inp, acts, d), acts[d]) == p
  }

  predicate Hears(inp: Input, acts: seq<Act>, e: nat) {
    e < |acts| && HeardBy(At(inp, acts, e), acts[e])
  }

  predicate Resumes(inp: Input, acts: seq<Act>, r: nat) {
    r < |acts| && ResumedBy(At(inp, acts, r), acts[r])
  }

  /** The gate resumes at `r`, after act `e`, and no decision is heard in between. */
  ghost predicate ResumesUndisturbed(inp: Input, acts: seq<Act>, e: nat, r: nat) {
    e < r && Resumes(inp, acts, r) && forall x: nat :: e < x < r ==> !Hears(inp, acts, x)
  }

  /** Delivery `e` is the last one heard before the gate resumes at `r`. */
  ghost predicate Settles(inp: Input, acts: seq<Act>, e: nat, r: nat) {
    Hears(inp, acts, e) && ResumesUndisturbed(inp, acts, e, r)
  }

  function Decision(p: Payload): Approval {
    if p.approved then Approved else Denied
  }

  predicate IsDecided(a: Approval) {
    a == Approved || a == Denied
  }

  // ----- one act -----

  /** What one act adds to the log, and when the held payload changes. */
  lemma {:induction false} ActLogs(inp: Input, y: System, a: Act)
    ensures var s, t := y.workflow, StepSystem(inp, y, a).workflow;
            && s.log <= t.log
            && (HeardBy(y, a) ==> t.log == s.log + [SignalStored(Sent(y, a))] && t.signal == Some(Sent(y, a)))
            && (ResumedBy(y, a) ==>
                  t.log == s.log + [GateResumed(s.signal.value)] && t.approval == Decision(s.signal.value))
            && (!HeardBy(y, a) ==> t.signal == s.signal)
            && (!HeardBy(y, a) ==> forall i :: |s.log| <= i < |t.log| ==> !t.log[i].SignalStored?)
            && (!ResumedBy(y, a) ==> forall i :: |s.log| <= i < |t.log| ==> !t.log[i].GateResumed?)
  {
    if a.Internal? && !a.event.Signal? { StepLogs(inp, y.workflow, a.event); }
  }

  /** The entries from `n` on report neither a stored decision nor a resume. */
  predicate Unrelated(log: seq<Entry>, n: nat) {
    forall i :: n <= i < |log| ==> !log[i].SignalStored? && !log[i].GateResumed?
  }

  lemma {:induction false} AdvanceLogs(inp: Input, s: State, a: Answer, now: real)
    requires Fits(inp, s, a) && s.attempt > 0
    ensures var t := Advance(inp, s, a, now); s.log <= t.log && t.signal == s.signal && Unrelated(t.log, |s.log|)
  {
    hide RecordOf, PreCheckOf;
  }

  lemma {:induction false} AttemptLogs(inp: Input, s: State, e: Event)
    requires e.Attempt?
    ensures var t := OnAttempt(inp, s, e); s.log <= t.log && t.signal == s.signal && Unrelated(t.log, |s.log|)
  {
    var t := Attempted(inp, s, e.emits);
    WT.AttemptedFrame(inp, s, e.emits);
    assert s.log <= t.log && t.signal == s.signal && Unrelated(t.log, |s.log|);
    hide Fits, EmittedBy, Advance, Attempted;
    if Completes(inp, s, e) { AdvanceLogs(inp, t, e.answer.value, e.now); }
  }

  lemma {:induction false} StepLogs(inp: Input, s: State, e: Event)
    requires !e.Signal?
    ensures var t := Step(inp, s, e);
            && s.log <= t.log && t.signal == s.signal
            && (forall i :: |s.log| <= i < |t.log| ==> !t.log[i].SignalStored?)
            && (!e.Resume? ==> Unrelated(t.log, |s.log|))
  {
    if e.Attempt? { AttemptLogs(inp, s, e); }
    hide OnAttempt, MaxAttempts;
  }

  lemma {:induction false} NextAt(inp: Input, acts: seq<Act>, i: nat)
    requires i < |acts|
    ensures At(inp, acts, i + 1) == StepSystem(inp, At(inp, acts, i), acts[i])
  {
    assert acts[..i + 1][..i] == acts[..i];
  }

  // ----- stretches of a run -----

  lemma {:induction false} LogGrows(inp: Input, acts: seq<Act>, i: nat, j: nat)
    requires i <= j <= |acts|
    ensures LogAt(inp, acts, i) <= LogAt(inp, acts, j)
    decreases j - i
  {
    if i < j {
      NextAt(inp, acts, i);
      ActLogs(inp, At(inp, acts, i), acts[i]);
      hide At, StepSystem;
      LogGrows(inp, acts, i + 1, j);
    }
  }

  /** Each log entry was written by one act. */
  lemma {:induction false} EntryHasAct(inp: Input, acts: seq<Act>, n: nat, i: nat) returns (e: nat)
    requires n <= |acts| && i < |LogAt(inp, acts, n)|
    ensures e < n && |LogAt(inp, acts, e)| <= i < |LogAt(inp, acts, e + 1)|
  {
    assert n > 0;
    if i < |LogAt(inp, acts, n - 1)| {
      e := EntryHasAct(inp, acts, n - 1, i);
    } else {
      e := n - 1;
    }
  }

  /** While no decision is heard, the held payload stays and none is written. */
  lemma {:induction false} QuietStretch(inp: Input, acts: seq<Act>, i: nat, j: nat)
    requires i <= j <= |acts| && forall x: nat :: i <= x < j ==> !Hears(inp, acts, x)
    ensures At(inp, acts, j).workflow.signal == At(inp, acts, i).workflow.signal
    ensures LogAt(inp, acts, i) <= LogAt(inp, acts, j)
    ensures forall k :: |LogAt(inp, acts, i)| <= k < |LogAt(inp, acts, j)| ==> !LogAt(inp, acts, j)[k].SignalStored?
  {
    if i < j {
      QuietStretch(inp, acts, i, j - 1);
      NextAt(inp, acts, j - 1);
      ActLogs(inp, At(inp, acts, j - 1), acts[j - 1]);
      assert !Hears(inp, acts, j - 1);
      hide At, StepSystem;
    }
  }

  lemma {:induction false} GateInvAt(inp: Input, acts: seq<Act>, i: nat)
    requires i <= |acts|
    ensures WT.GateInv(inp, At(inp, acts, i).workflow)
  {
    ClientsRunTheWorkflow(inp, acts[..i]);
    WT.GateHolds(inp, EventsOf(inp, acts[..i]));
    hide WT.GateInv;
  }

  lemma {:induction false} ActMoves(inp: Input, y: System, a: Act)
    requires WT.GateInv(inp, y.workflow)
    ensures WT.Moves(y.workflow.approval, StepSystem(inp, y, a).workflow.approval)
  {
    hide WT.GateInv, Step;
    match a
    case Query(_, _, _) =>
    case Deliver(c) =>
      if c in y.clients && y.clients[c].Ready? {
        WT.StepMovesApproval(inp, y.workflow, Signal(y.clients[c].payload));
      }
    case Internal(e) => WT.StepMovesApproval(inp, y.workflow, e);
  }

  lemma {:induction false} FinalStays(inp: Input, acts: seq<Act>, i: nat, j: nat)
    requires i <= j <= |acts|
    ensures var early, late := At(inp, acts, i).workflow.approval, At(inp, acts, j).workflow.approval;
            && (WT.Final(early) ==> late == early)
            && (early != NotRequired ==> late != NotRequired)
  {
    if i < j {
      FinalStays(inp, acts, i, j - 1);
      GateInvAt(inp, acts, j - 1);
      NextAt(inp, acts, j - 1);
      ActMoves(inp, At(inp, acts, j - 1), acts[j - 1]);
      hide At, StepSystem, WT.GateInv;
    }
  }

  ghost predicate ReadyMeansAsked(y: System) {
    forall c :: c in y.clients && y.clients[c].Ready? ==> y.workflow.approval != NotRequired
  }

  lemma {:induction false} ActKeepsReady(inp: Input, y: System, a: Act)
    requires ReadyMeansAsked(y) && WT.Moves(y.workflow.approval, StepSystem(inp, y, a).workflow.approval)
    ensures ReadyMeansAsked(StepSystem(inp, y, a))
  {
    hide Step;
  }

  /** A client gets ready only while the approval is pending. */
  lemma {:induction false} ReadyWasPending(inp: Input, acts: seq<Act>, i: nat)
    requires i <= |acts|
    ensures ReadyMeansAsked(At(inp, acts, i))
  {
    if i > 0 {
      hide At, WT.GateInv, Step;
      ReadyWasPending(inp, acts, i - 1);
      NextAt(inp, acts, i - 1);
      GateInvAt(inp, acts, i - 1);
      ActMoves(inp, At(inp, acts, i - 1), acts[i - 1]);
      ActKeepsReady(inp, At(inp, acts, i - 1), acts[i - 1]);
      hide StepSystem, ReadyMeansAsked;
    } else {
      assert At(inp, acts, 0).clients == map[];
    }
  }

  // ----- the log tells the story of the acts -----

  /** The payload written at `i` is the one the gate resumed on at `g`. */
  ghost predicate Deciding(log: seq<Entry>, i: nat, g: nat) {
    && i < g < |log| && log[i].SignalStored? && log[g] == GateResumed(log[i].payload)
    && forall k :: i < k < g ==> !log[k].SignalStored?
  }

  lemma {:induction false} StoredByHearing(inp: Input, acts: seq<Act>, i: nat) returns (e: nat)
    requires i < |LogAt(inp, acts, |acts|)| && LogAt(inp, acts, |acts|)[i].SignalStored?
    ensures Hears(inp, acts, e) && |LogAt(inp, acts, e)| == i
  {
    e := EntryHasAct(inp, acts, |acts|, i);
    LogGrows(inp, acts, e + 1, |acts|);
    NextAt(inp, acts, e);
    ActLogs(inp, At(inp, acts, e), acts[e]);
    assert LogAt(inp, acts, e + 1)[i].SignalStored?;
    hide At, StepSystem;
  }

  lemma {:induction false} ResumedByResuming(inp: Input, acts: seq<Act>, g: nat) returns (r: nat)
    requires g < |LogAt(inp, acts, |acts|)| && LogAt(inp, acts, |acts|)[g].GateResumed?
    ensures Resumes(inp, acts, r) && |LogAt(inp, acts, r)| == g
  {
    r := EntryHasAct(inp, acts, |acts|, g);
    LogGrows(inp, acts, r + 1, |acts|);
    NextAt(inp, acts, r);
    ActLogs(inp, At(inp, acts, r), acts[r]);
    assert LogAt(inp, acts, r + 1)[g].GateResumed?;
    hide At, StepSystem;
  }

  /** What a heard delivery and a resume leave in the final log. */
  lemma {:induction false} HearingIsLogged(inp: Input, acts: seq<Act>, e: nat)
    requires Hears(inp, acts, e)
    ensures var i, log := |LogAt(inp, acts, e)|, LogAt(inp, acts, |acts|);
            i < |log| && log[i] == SignalStored(Sent(At(inp, acts, e), acts[e]))
    ensures |LogAt(inp, acts, e + 1)| == |LogAt(inp, acts, e)| + 1
    ensures At(inp, acts, e + 1).workflow.signal == Some(Sent(At(inp, acts, e), acts[e]))
  {
    NextAt(inp, acts, e);
    ActLogs(inp, At(inp, acts, e), acts[e]);
    LogGrows(inp, acts, e + 1, |acts|);
    hide At, StepSystem;
  }

  lemma {:induction false} ResumingIsLogged(inp: Input, acts: seq<Act>, r: nat)
    requires Resumes(inp, acts, r)
    ensures var g, log, p := |LogAt(inp, acts, r)|, LogAt(inp, acts, |acts|), At(inp, acts, r).workflow.signal.value;
            && g < |log| && log[..g] == LogAt(inp, acts, r) && log[g] == GateResumed(p)
            && At(inp, acts, r + 1).workflow.approval == Decision(p)
    ensures At(inp, acts, r + 1).workflow.signal == At(inp, acts, r).workflow.signal
  {
    NextAt(inp, acts, r);
    ActLogs(inp, At(inp, acts, r), acts[r]);
    LogGrows(inp, acts, r + 1, |acts|);
    hide At, StepSystem;
  }

  /** Nothing is heard once the gate has resumed. */
  lemma {:induction false} DeafAfterResume(inp: Input, acts: seq<Act>, r: nat, x: nat)
    requires Resumes(inp, acts, r) && r < x
    ensures !Hears(inp, acts, x)
  {
    if x < |acts| {
      ResumingIsLogged(inp, acts, r);
      FinalStays(inp, acts, r + 1, x);
      hide At;
    }
  }

  /** From the log to the acts. */
  lemma {:induction false} DecidingSettles(inp: Input, acts: seq<Act>, i: nat, g: nat) returns (e: nat, r: nat)
    requires Deciding(LogAt(inp, acts, |acts|), i, g)
    ensures Settles(inp, acts, e, r) && |LogAt(inp, acts, e)| == i && |LogAt(inp, acts, r)| == g
  {
    e := StoredByHearing(inp, acts, i);
    r := ResumedByResuming(inp, acts, g);
    if r <= e { LogGrows(inp, acts, r, e); assert false; }
    forall x: nat | e < x < r ensures !Hears(inp, acts, x) {
      if Hears(inp, acts, x) {
        HearingIsLogged(inp, acts, e);
        HearingIsLogged(inp, acts, x);
        LogGrows(inp, acts, e + 1, x);
        LogGrows(inp, acts, x + 1, r);
      }
    }
    hide LogAt, At, Hears, Resumes;
  }

  /** From the acts to the log, the held payload and the outcome. */
  lemma {:induction false} SettlingDecides(inp: Input, acts: seq<Act>, e: nat, r: nat)
    requires Settles(inp, acts, e, r)
    ensures Deciding(LogAt(inp, acts, |acts|), |LogAt(inp, acts, e)|, |LogAt(inp, acts, r)|)
    ensures var s, p := At(inp, acts, |acts|).workflow, Sent(At(inp, acts, e), acts[e]);
            s.approval == Decision(p) && s.signal == Some(p)
  {
    HearingIsLogged(inp, acts, e);
    ResumingIsLogged(inp, acts, r);
    QuietStretch(inp, acts, e + 1, r);
    forall x: nat | r + 1 <= x < |acts| ensures !Hears(inp, acts, x) { DeafAfterResume(inp, acts, r, x); }
    QuietStretch(inp, acts, r + 1, |acts|);
    FinalStays(inp, acts, r + 1, |acts|);
    var log, prior := LogAt(inp, acts, |acts|), LogAt(inp, acts, r);
    assert forall k :: 0 <= k < |prior| ==> log[k] == prior[k];
    hide LogAt, At, Hears, Resumes;
  }

  // ----- main results -----

  /** A decision reported to a reviewer is the one the gate resumes on exactly when the gate was open
      as it arrived and, later, the gate resumed with no other decision heard in between.  Then the
      workflow holds its payload and the approval shows its verdict. */
  lemma {:induction false} ReportDecidesIff(inp: Input, acts: seq<Act>, d: nat, p: Payload)
    requires Reports(inp, acts, d, p)
    ensures var i, s := |LogAt(inp, acts, d)|, ExecSystem(inp, acts).workflow;
            && ((exists g: nat :: Deciding(s.log, i, g)) <==>
                 && At(inp, acts, d).workflow.approval == Awaiting
                 && exists r: nat :: ResumesUndisturbed(inp, acts, d, r))
            && ((exists g: nat :: Deciding(s.log, i, g)) ==> s.approval == Decision(p) && s.signal == Some(p))
  {
    assert acts[..|acts|] == acts;
    var i, log := |LogAt(inp, acts, d)|, LogAt(inp, acts, |acts|);
    assert log == ExecSystem(inp, acts).workflow.log;
    if g: nat :| Deciding(log, i, g) {
      var e, r := DecidingSettles(inp, acts, i, g);
      SameDelivery(inp, acts, d, e);
      SettlingDecides(inp, acts, d, r);
      assert At(inp, acts, d).workflow.approval == Awaiting && ResumesUndisturbed(inp, acts, d, r);
    }
    if r: nat :| ResumesUndisturbed(inp, acts, d, r) {
      if At(inp, acts, d).workflow.approval == Awaiting {
        SettlingDecides(inp, acts, d, r);
        assert Deciding(log, i, |LogAt(inp, acts, r)|);
      }
    }
    hide Deciding, Resumes, ResumesUndisturbed, StepSystem;
  }

  /** A report whose log position is that of a heard delivery is that delivery. */
  lemma {:induction false} SameDelivery(inp: Input, acts: seq<Act>, d: nat, e: nat)
    requires d < |acts| && Accepts(At(inp, acts, d), acts[d]) && Hears(inp, acts, e)
    requires |LogAt(inp, acts, e)| == |LogAt(inp, acts, d)|
    ensures e == d
  {
    HearingIsLogged(inp, acts, e);
    if e < d {
      LogGrows(inp, acts, e + 1, d);
      assert false;
    }
    if d < e {
      ReadyWasPending(inp, acts, d);
      FinalStays(inp, acts, d, e);
      assert Hears(inp, acts, d);
      HearingIsLogged(inp, acts, d);
      LogGrows(inp, acts, d + 1, e);
      assert false;
    }
  }

  /** The outcome of a run agrees with a reported decision exactly when the last decision heard before
      the gate resumed has the same verdict. */
  lemma {:induction false} ReportHoldsIff(inp: Input, acts: seq<Act>, d: nat, p: Payload)
    requires Reports(inp, acts, d, p)
    ensures ExecSystem(inp, acts).workflow.approval == Decision(p) <==>
            exists e: nat, r: nat ::
              Settles(inp, acts, e, r) && Sent(At(inp, acts, e), acts[e]).approved == p.approved
  {
    assert acts[..|acts|] == acts;
    var s := ExecSystem(inp, acts).workflow;
    if s.approval == Decision(p) {
      var e, r := OutcomeIsSettled(inp, acts);
      SettlingDecides(inp, acts, e, r);
    }
    if e: nat, r: nat :| Settles(inp, acts, e, r) && Sent(At(inp, acts, e), acts[e]).approved == p.approved {
      SettlingDecides(inp, acts, e, r);
    }
    hide Deciding, StepSystem;
  }

  /** Approved and denied come from a delivery that was heard and settled the gate. */
  lemma {:induction false} OutcomeIsSettled(inp: Input, acts: seq<Act>) returns (e: nat, r: nat)
    requires IsDecided(ExecSystem(inp, acts).workflow.approval)
    ensures Settles(inp, acts, e, r)
  {
    assert acts[..|acts|] == acts;
    GateInvAt(inp, acts, |acts|);
    var s := ExecSystem(inp, acts).workflow;
    assert WT.Decided(s);
    var g: nat :| 3 <= g < |s.log| && WT.DecidedAt(s.log, g) && s.signal == Some(s.log[g].payload) &&
      s.approval == if s.log[g].payload.approved then Approved else Denied;
    var enter: nat, stored: nat :| enter < stored < g && s.log[enter] == GateEntered &&
      s.log[stored] == SignalStored(s.log[g].payload) && forall j :: stored < j < g ==> !s.log[j].SignalStored?;
    assert Deciding(s.log, stored, g);
    hide WT.GateInv, WT.Decided, WT.DecidedAt, Deciding;
    e, r := DecidingSettles(inp, acts, stored, g);
  }

  // ----- what each client is told -----

  predicate IsQueryOf(a: Act, c: nat) {
    a.Query? && a.client == c
  }

  /** Act `q` is the query of client `c`, which makes one call. */
  ghost predicate Asks(acts: seq<Act>, q: nat, c: nat) {
    q < |acts| && IsQueryOf(acts[q], c) && forall i :: 0 <= i < q ==> !IsQueryOf(acts[i], c)
  }

  ghost predicate NoDelivery(acts: seq<Act>, q: nat, c: nat, d: nat)
    requires d <= |acts|
  {
    forall i :: q < i < d ==> acts[i] != Deliver(c)
  }

  /** Act `d` delivers its decision. */
  ghost predicate Delivers(acts: seq<Act>, q: nat, c: nat, d: nat) {
    q < d < |acts| && acts[d] == Deliver(c) && NoDelivery(acts, q, c, d)
  }

  /** What client `c`, which queried at `q`, has been told, or that it is ready to deliver. */
  ghost predicate IsTold(inp: Input, acts: seq<Act>, q: nat, c: nat, told: Client)
    requires q < |acts| && acts[q].Query?
  {
    var seen, p := At(inp, acts, q).workflow.approval, acts[q].payload;
    if !acts[q].reachable then told == NotFound
    else if seen != Awaiting then told == Conflict(seen)
    else
      && (NoDelivery(acts, q, c, |acts|) ==> told == Ready(p))
      && forall d: nat :: Delivers(acts, q, c, d) ==>
           told == if IsOpen(At(inp, acts, d).workflow.pc) then Reported(p) else NotFound
  }

  lemma {:induction false} UnaskedIsAbsent(inp: Input, acts: seq<Act>, c: nat)
    requires forall i :: 0 <= i < |acts| ==> !IsQueryOf(acts[i], c)
    ensures c !in ExecSystem(inp, acts).clients
  {
    if acts != [] {
      var n := |acts| - 1;
      forall i | 0 <= i < n ensures !IsQueryOf(acts[..n][i], c) { assert !IsQueryOf(acts[i], c); }
      UnaskedIsAbsent(inp, acts[..n], c);
      assert !IsQueryOf(acts[n], c);
      hide Step;
    }
  }

  /** Each call is told the truth about what it met: not found if the query did not reach the workflow
      or the workflow had ended when the decision arrived, a conflict with the approval state the query
      showed if that was not pending, and otherwise that its own decision was accepted. */
  lemma {:induction false} ClientsAreTold(inp: Input, acts: seq<Act>, q: nat, c: nat)
    requires Asks(acts, q, c)
    ensures c in ExecSystem(inp, acts).clients && IsTold(inp, acts, q, c, ExecSystem(inp, acts).clients[c])
  {
    var n := |acts| - 1;
    var y, y' := ExecSystem(inp, acts[..n]), ExecSystem(inp, acts);
    hide Step;
    if q == n {
      forall i | 0 <= i < n ensures !IsQueryOf(acts[..n][i], c) { assert !IsQueryOf(acts[i], c); }
      UnaskedIsAbsent(inp, acts[..n], c);
    } else {
      AsksBefore(acts, q, c);
      ClientsAreTold(inp, acts[..n], q, c);
      assert acts[..n][..q] == acts[..q];
      ToldByLast(inp, acts, q, c);
    }
  }

  lemma {:induction false} AsksBefore(acts: seq<Act>, q: nat, c: nat)
    requires Asks(acts, q, c) && q < |acts| - 1
    ensures Asks(acts[..|acts| - 1], q, c)
  {
    var before := acts[..|acts| - 1];
    forall i | 0 <= i < q ensures !IsQueryOf(before[i], c) { assert !IsQueryOf(acts[i], c); }
  }

  /** The last act, unless it is the query itself. */
  lemma {:induction false} ToldByLast(inp: Input, acts: seq<Act>, q: nat, c: nat)
    requires q < |acts| - 1 && IsQueryOf(acts[q], c)
    requires var y := ExecSystem(inp, acts[..|acts| - 1]);
             c in y.clients && IsTold(inp, acts[..|acts| - 1], q, c, y.clients[c])
    ensures var y := ExecSystem(inp, acts);
            c in y.clients && IsTold(inp, acts, q, c, y.clients[c])
  {
    var n := |acts| - 1;
    var before := acts[..n];
    var y, y' := ExecSystem(inp, before), ExecSystem(inp, acts);
    assert before[..q] == acts[..q];
    hide Step;
    forall d: nat | d < n ensures Delivers(before, q, c, d) <==> Delivers(acts, q, c, d) {
      DeliversBefore(acts, q, c, d);
    }
    forall d: nat | q < d < n ensures before[..d] == acts[..d] { }
    if acts[q].reachable && At(inp, acts, q).workflow.approval == Awaiting {
      if NoDelivery(before, q, c, n) {
        assert y.clients[c] == Ready(acts[q].payload);
        assert forall i :: q < i < n ==> before[i] == acts[i];
        assert forall d: nat :: d < n ==> !Delivers(acts, q, c, d);
      } else {
        var d: nat := FirstDelivery(before, q, c, n);
        assert Delivers(acts, q, c, d);
        assert !Delivers(acts, q, c, n);
        assert forall e: nat :: Delivers(acts, q, c, e) ==> e == d;
      }
    }
  }

  lemma {:induction false} DeliversBefore(acts: seq<Act>, q: nat, c: nat, d: nat)
    requires d < |acts| - 1
    ensures Delivers(acts[..|acts| - 1], q, c, d) <==> Delivers(acts, q, c, d)
  {
    var before := acts[..|acts| - 1];
    assert forall i :: 0 <= i <= d ==> before[i] == acts[i];
  }

  lemma {:induction false} FirstDelivery(acts: seq<Act>, q: nat, c: nat, n: nat) returns (d: nat)
    requires n <= |acts| && !NoDelivery(acts, q, c, n)
    ensures d < n && Delivers(acts, q, c, d)
  {
    if NoDelivery(acts, q, c, n - 1) {
      d := n - 1;
    } else {
      d := FirstDelivery(acts, q, c, n - 1);
    }
  }
}

/** Orchestrator runs sharing one budget session: each checks the cap, awaits the LLM, and only
    then records what it spent, so runs overlap between the check and the debit. */
module BudgetGate {
  import opened Prelude
  import opened DecimalContext
  import opened BudgetLedger

  datatype Event =
    | PreCheck(run: nat)                 // the pre-LLM guard of one run
    | RecordSpend(run: nat, spend: real) // the LLM answered, the run debits the session
    | Abandon(run: nat)                  // the LLM call failed; the run never debits

  /** `inFlight` holds the runs between a passed check and their debit. */
  datatype Gate = Gate(session: Session, inFlight: set<nat>)

  function Step(g: Gate, e: Event): Gate {
    match e
    case PreCheck(run) =>
      if CheckBudget(g.session) == Returned then g.(inFlight := g.inFlight + {run}) else g
    case RecordSpend(run, spend) =>
      if run in g.inFlight then Gate(Spend(g.session, spend, None).0, g.inFlight - {run}) else g
    case Abandon(run) =>
      g.(inFlight := g.inFlight - {run})
  }

  function Exec(g: Gate, events: seq<Event>): Gate {
    if events == [] then g else Step(Exec(g, events[..|events| - 1]), events[|events| - 1])
  }

  /** A run checks once: it is not already in flight when it does. */
  ghost predicate WellTimed(g: Gate, events: seq<Event>) {
    forall i :: 0 <= i < |events| && events[i].PreCheck? ==> events[i].run !in Exec(g, events[..i]).inFlight
  }

  /** At no time are more than `k` runs between check and debit. */
  ghost predicate AtMostInFlight(g: Gate, events: seq<Event>, k: nat) {
    forall i :: 0 <= i <= |events| ==> |Exec(g, events[..i]).inFlight| <= k
  }

  /** Spends lie between 0 and `m`. */
  ghost predicate SpendsWithin(events: seq<Event>, m: real) {
    forall i :: 0 <= i < |events| && events[i].RecordSpend? ==> 0.0 <= events[i].spend <= m
  }

  /** Event `e` is no debit that the ledger rounds up. */
  predicate NotRoundedUp(g: Gate, e: Event) {
    e.RecordSpend? && e.run in g.inFlight ==> Add(g.session.cost, e.spend) <= g.session.cost + e.spend
  }

  ghost predicate NoneRoundedUp(g: Gate, events: seq<Event>) {
    forall i :: 0 <= i < |events| ==> NotRoundedUp(Exec(g, events[..i]), events[i])
  }

  /** Any interleaving of runs that check once, `k` of them at a time, and spend up to `m`. */
  ghost predicate Overlapping(g: Gate, events: seq<Event>, k: nat, m: real) {
    WellTimed(g, events) && AtMostInFlight(g, events, k) && SpendsWithin(events, m)
  }

  /** The runs the bound speaks about. */
  ghost predicate Admissible(g: Gate, events: seq<Event>, k: nat, m: real) {
    Overlapping(g, events, k, m) && NoneRoundedUp(g, events)
  }

  /** `n` spends of `m`. */
  function Times(n: nat, m: real): real {
    if n == 0 then 0.0 else Times(n - 1, m) + m
  }

  lemma {:induction false} TimesIsProduct(n: nat, m: real)
    ensures Times(n, m) == n as real * m
  {
    if n > 0 { TimesIsProduct(n - 1, m); }
  }

  lemma {:induction false} TimesMonotone(f: nat, k: nat, m: real)
    requires f <= k && m >= 0.0
    ensures 0.0 <= Times(f, m) <= Times(k, m)
    decreases k
  {
    if f < k { TimesMonotone(f, k - 1, m); } else if f > 0 { TimesMonotone(f - 1, k - 1, m); }
  }

  /** The invariant: a run that is not in flight has left room for one more spend. */
  predicate Safe(g: Gate, k: nat, m: real) {
    |g.inFlight| <= k && g.session.cost < g.session.limit + Times(k - |g.inFlight|, m)
  }

  /** One event, seen from the state it happens in. */
  predicate EventFits(g: Gate, e: Event, k: nat, m: real) {
    && |Step(g, e).inFlight| <= k
    && (e.PreCheck? ==> e.run !in g.inFlight)
    && (e.RecordSpend? ==> 0.0 <= e.spend <= m)
  }

  lemma {:induction false} DebitAdds(s: Session, spend: real)
    ensures Spend(s, spend, None).0.cost == Add(s.cost, spend)
    ensures Spend(s, spend, None).0.limit == s.limit
  {
  }

  lemma {:induction false} StepKeepsSafe(g: Gate, e: Event, k: nat, m: real)
    requires Safe(g, k, m) && m >= 0.0
    requires EventFits(g, e, k, m) && NotRoundedUp(g, e)
    ensures Safe(Step(g, e), k, m)
    ensures Step(g, e).session.limit == g.session.limit
  {
    var f := |g.inFlight|;
    match e
    case PreCheck(run) =>
      TimesMonotone(0, k - |Step(g, e).inFlight|, m);
    case Abandon(run) =>
      if run in g.inFlight {
        assert |g.inFlight - {run}| == f - 1;
      } else {
        assert g.inFlight - {run} == g.inFlight;
      }
    case RecordSpend(run, spend) =>
      if run in g.inFlight {
        assert |g.inFlight - {run}| == f - 1;
        DebitAdds(g.session, spend);
        hide Spend, Add;
      }
  }

  /** From any state that leaves room for the runs not in flight, a fresh session among them: with at
      most `k` runs between check and debit and spends of at most `m`, no interleaving drives the
      session's cost to the cap plus k times m, as long as no debit is rounded up. */
  lemma {:induction false} OverspendIsBounded(g: Gate, events: seq<Event>, k: nat, m: real)
    requires Safe(g, k, m) && Admissible(g, events, k, m) && m >= 0.0
    ensures var end := Exec(g, events);
            && Safe(end, k, m)
            && end.session.limit == g.session.limit
            && end.session.cost < g.session.limit + Times(k, m)
  {
    hide Step, Admissible, EventFits, Times;
    if events != [] {
      var n := |events| - 1;
      PrefixHolds(g, events, k, m);
      OverspendIsBounded(g, events[..n], k, m);
      StepKeepsSafe(Exec(g, events[..n]), events[n], k, m);
    }
    SafeIsBelow(Exec(g, events), k, m);
  }

  lemma {:induction false} SafeIsBelow(g: Gate, k: nat, m: real)
    requires Safe(g, k, m) && m >= 0.0
    ensures g.session.cost < g.session.limit + Times(k, m)
  {
    TimesMonotone(k - |g.inFlight|, k, m);
  }

  lemma {:induction false} FreshIsSafe(g: Gate, k: nat, m: real)
    requires g.inFlight == {} && g.session.cost < g.session.limit && m >= 0.0
    ensures Safe(g, k, m)
  {
    TimesMonotone(0, k, m);
  }

  lemma {:induction false} OverlapPrefix(g: Gate, events: seq<Event>, k: nat, m: real)
    requires events != [] && Overlapping(g, events, k, m)
    ensures var prefix := events[..|events| - 1];
            && Overlapping(g, prefix, k, m)
            && EventFits(Exec(g, prefix), events[|events| - 1], k, m)
  {
    var n := |events| - 1;
    forall i | 0 <= i <= n ensures events[..n][..i] == events[..i] { }
    assert events[..|events|] == events;
  }

  lemma {:induction false} PrefixHolds(g: Gate, events: seq<Event>, k: nat, m: real)
    requires events != [] && Admissible(g, events, k, m)
    ensures var prefix, last := events[..|events| - 1], events[|events| - 1];
            && Admissible(g, prefix, k, m)
            && EventFits(Exec(g, prefix), last, k, m) && NotRoundedUp(Exec(g, prefix), last)
  {
    var n := |events| - 1;
    OverlapPrefix(g, events, k, m);
    forall i | 0 <= i <= n ensures events[..n][..i] == events[..i] { }
    hide Overlapping, EventFits, NotRoundedUp;
  }

  // ----- when no debit is rounded up -----

  /** Spends are whole numbers of units of 10^unit. */
  ghost predicate SpendsOnGrid(events: seq<Event>, unit: int) {
    forall i :: 0 <= i < |events| && events[i].RecordSpend? ==> OnGrid(unit, events[i].spend)
  }

  /** A debit that stays within the precision is exact. */
  lemma {:induction false} DebitIsExact(s: Session, spend: real, unit: int)
    requires 0.0 <= s.cost && 0.0 <= spend && OnGrid(unit, s.cost) && OnGrid(unit, spend)
    requires s.cost + spend < Pow10(PRECISION + unit)
    ensures Spend(s, spend, None).0.cost == Add(s.cost, spend) == s.cost + spend
    ensures OnGrid(unit, s.cost + spend)
  {
    GridSum(unit, s.cost, spend);
    GridFits(unit, s.cost + spend);
  }

  lemma {:induction false} StepIsExact(g: Gate, e: Event, k: nat, m: real, unit: int)
    requires Safe(g, k, m) && m >= 0.0 && EventFits(g, e, k, m)
    requires 0.0 <= g.session.cost && OnGrid(unit, g.session.cost) && (e.RecordSpend? ==> OnGrid(unit, e.spend))
    requires g.session.limit + Times(k, m) < Pow10(PRECISION + unit)
    ensures NotRoundedUp(g, e)
    ensures 0.0 <= Step(g, e).session.cost && OnGrid(unit, Step(g, e).session.cost)
  {
    if e.RecordSpend? && e.run in g.inFlight {
      assert |g.inFlight| > 0 by { assert g.inFlight != {}; }
      TimesMonotone(k - |g.inFlight| + 1, k, m);
      DebitIsExact(g.session, e.spend, unit);
      hide OnGrid, Add, Spend;
    }
  }

  lemma {:induction false} OneMoreNotRoundedUp(g: Gate, events: seq<Event>)
    requires events != []
    requires var prefix := events[..|events| - 1];
             NoneRoundedUp(g, prefix) && NotRoundedUp(Exec(g, prefix), events[|events| - 1])
    ensures NoneRoundedUp(g, events)
  {
    var prefix := events[..|events| - 1];
    forall i | 0 <= i < |events| ensures NotRoundedUp(Exec(g, events[..i]), events[i]) {
      if i < |prefix| { assert prefix[..i] == events[..i] && prefix[i] == events[i]; }
    }
  }

  /** Amounts that share a decimal unit and fit 28 digits of it are never rounded, so that every
      overlapping run is one the bound covers. */
  lemma {:induction false} SharedUnitIsNeverRounded(g: Gate, events: seq<Event>, k: nat, m: real, unit: int)
    requires Safe(g, k, m) && Overlapping(g, events, k, m) && SpendsOnGrid(events, unit) && m >= 0.0
    requires 0.0 <= g.session.cost && OnGrid(unit, g.session.cost)
    requires g.session.limit + Times(k, m) < Pow10(PRECISION + unit)
    ensures Admissible(g, events, k, m)
    ensures 0.0 <= Exec(g, events).session.cost && OnGrid(unit, Exec(g, events).session.cost)
  {
    if events != [] {
      var n := |events| - 1;
      var prefix := events[..n];
      OverlapPrefix(g, events, k, m);
      assert SpendsOnGrid(prefix, unit);
      assert events[n].RecordSpend? ==> OnGrid(unit, events[n].spend);
      hide Step, Overlapping, EventFits, NotRoundedUp, NoneRoundedUp, Safe, OnGrid, Times, SpendsOnGrid;
      SharedUnitIsNeverRounded(g, prefix, k, m, unit);
      OverspendIsBounded(g, prefix, k, m);
      StepIsExact(Exec(g, prefix), events[n], k, m, unit);
      OneMoreNotRoundedUp(g, events);
    }
  }

  // ----- an exhausted session -----

  lemma {:induction false} DebitNeverLowers(s: Session, spend: real)
    requires 0.0 <= s.cost && 0.0 <= spend && Representable(s.cost)
    ensures s.cost <= Add(s.cost, spend) && Representable(Add(s.cost, spend))
  {
    RoundNotBelow(s.cost, s.cost + spend);
    RoundFits(s.cost + spend);
  }

  lemma {:induction false} StepStaysExhausted(g: Gate, e: Event)
    requires 0.0 <= g.session.cost && Representable(g.session.cost) && g.session.cost >= g.session.limit
    requires e.RecordSpend? ==> 0.0 <= e.spend
    ensures var h := Step(g, e);
            && h.session.limit == g.session.limit && h.session.cost >= g.session.cost
            && Representable(h.session.cost) && h.inFlight <= g.inFlight
  {
    if e.RecordSpend? {
      DebitAdds(g.session, e.spend);
      DebitNeverLowers(g.session, e.spend);
      hide Spend, Add, Representable;
    }
  }

  /** However amounts are rounded, costs never fall and a cap that is reached stays reached: from then
      on no check passes and no further run gets in flight. */
  lemma {:induction false} ExhaustedStaysExhausted(g: Gate, events: seq<Event>)
    requires 0.0 <= g.session.cost && Representable(g.session.cost) && g.session.cost >= g.session.limit
    requires forall i :: 0 <= i < |events| && events[i].RecordSpend? ==> 0.0 <= events[i].spend
    ensures var end := Exec(g, events);
            && end.session.limit == g.session.limit
            && end.session.cost >= g.session.cost && Representable(end.session.cost)
            && CheckBudget(end.session) == BudgetExceeded
            && end.inFlight <= g.inFlight
  {
    if events != [] {
      var n := |events| - 1;
      ExhaustedStaysExhausted(g, events[..n]);
      StepStaysExhausted(Exec(g, events[..n]), events[n]);
      hide Step, Representable;
    }
  }

  // ----- the bound is the best possible -----

  function Checks(k: nat): seq<Event> {
    if k == 0 then [] else Checks(k - 1) + [PreCheck(k - 1)]
  }

  function Debits(k: nat, m: real): seq<Event> {
    if k == 0 then [] else Debits(k - 1, m) + [RecordSpend(k - 1, m)]
  }

  lemma {:induction false} CheckStep(g: Gate, run: nat)
    requires CheckBudget(g.session) == Returned
    ensures Step(g, PreCheck(run)) == g.(inFlight := g.inFlight + {run})
  {
  }

  lemma {:induction false} AllChecked(g: Gate, k: nat)
    requires g.inFlight == {} && CheckBudget(g.session) == Returned
    ensures var end := Exec(g, Checks(k));
            end.session == g.session && forall r :: r in end.inFlight <==> 0 <= r < k
  {
    if k > 0 {
      AllChecked(g, k - 1);
      assert Checks(k)[..|Checks(k)| - 1] == Checks(k - 1);
      CheckStep(Exec(g, Checks(k - 1)), k - 1);
      hide Step;
    }
  }

  lemma {:induction false} ExecConcat(g: Gate, a: seq<Event>, b: seq<Event>)
    ensures Exec(g, a + b) == Exec(Exec(g, a), b)
  {
    if b == [] {
      assert a + b == a;
    } else {
      assert (a + b)[..|a + b| - 1] == a + b[..|b| - 1];
      ExecConcat(g, a, b[..|b| - 1]);
    }
  }

  lemma {:induction false} DebitStep(g: Gate, run: nat, m: real, unit: int)
    requires run in g.inFlight && m >= 0.0
    requires 0.0 <= g.session.cost && OnGrid(unit, g.session.cost) && OnGrid(unit, m)
    requires g.session.cost + m < Pow10(PRECISION + unit)
    ensures var g' := Step(g, RecordSpend(run, m));
            && g'.session.cost == g.session.cost + m && OnGrid(unit, g'.session.cost)
            && g'.inFlight == g.inFlight - {run}
  {
    DebitIsExact(g.session, m, unit);
    hide Spend;
  }

  lemma {:induction false} AllDebited(g: Gate, k: nat, n: nat, m: real, unit: int)
    requires k <= n && m >= 0.0
    requires forall r :: r in g.inFlight <==> 0 <= r < n
    requires 0.0 <= g.session.cost && OnGrid(unit, g.session.cost) && OnGrid(unit, m)
    requires g.session.cost + Times(k, m) < Pow10(PRECISION + unit)
    ensures var end := Exec(g, Debits(k, m));
            && end.session.cost == g.session.cost + Times(k, m)
            && OnGrid(unit, end.session.cost)
            && forall r :: r in end.inFlight <==> k <= r < n
  {
    if k > 0 {
      TimesMonotone(k - 1, k, m);
      AllDebited(g, k - 1, n, m, unit);
      assert Debits(k, m)[..|Debits(k, m)| - 1] == Debits(k - 1, m);
      DebitStep(Exec(g, Debits(k - 1, m)), k - 1, m, unit);
      hide Step;
    }
  }

  lemma {:induction false} LaunchLengths(k: nat, n: nat, m: real)
    requires n <= k
    ensures |Checks(k)| == |Debits(k, m)| == k
    ensures Checks(k)[..n] == Checks(n) && Debits(k, m)[..n] == Debits(n, m)
    ensures n < k ==> Checks(k)[n] == PreCheck(n) && Debits(k, m)[n] == RecordSpend(n, m)
    decreases k
  {
    if n < k {
      LaunchLengths(k - 1, n, m);
      if n == k - 1 { LaunchLengths(k - 1, k - 1, m); }
    } else if k > 0 {
      LaunchLengths(k - 1, k - 1, m);
      assert Checks(k)[..k] == Checks(k) && Debits(k, m)[..k] == Debits(k, m);
    }
  }

  /** All `k` runs check, then all debit `m`. */
  function Launch(k: nat, m: real): seq<Event> {
    Checks(k) + Debits(k, m)
  }

  lemma {:induction false} LaunchPrefix(k: nat, m: real, i: nat)
    requires i <= |Launch(k, m)|
    ensures |Launch(k, m)| == 2 * k
    ensures Launch(k, m)[..i] == if i <= k then Checks(i) else Checks(k) + Debits(i - k, m)
    ensures i < 2 * k ==> Launch(k, m)[i] == if i < k then PreCheck(i) else RecordSpend(i - k, m)
  {
    LaunchLengths(k, k, m);
    if i < k {
      LaunchLengths(k, i, m);
      assert Launch(k, m)[..i] == Checks(k)[..i];
    } else {
      LaunchLengths(k, i - k, m);
      assert Launch(k, m)[..i] == Checks(k) + Debits(k, m)[..i - k];
      assert Checks(k) + Debits(0, m) == Checks(k);
    }
  }

  lemma {:induction false} FewBelow(s: set<nat>, k: nat)
    requires forall r :: r in s ==> r < k
    ensures |s| <= k
  {
    if k == 0 {
      assert s == {};
    } else {
      FewBelow(s - {k - 1}, k - 1);
      assert s <= (s - {k - 1}) + {k - 1};
    }
  }

  /** Which runs are in flight while they launch and debit. */
  lemma {:induction false} LaunchInFlight(g: Gate, k: nat, m: real, unit: int, i: nat)
    requires Launches(g, k, m, unit) && i <= 2 * k
    ensures i <= |Launch(k, m)| && |Exec(g, Launch(k, m)[..i]).inFlight| <= k
    ensures i < k ==> i !in Exec(g, Launch(k, m)[..i]).inFlight
  {
    LaunchLengths(k, k, m);
    LaunchPrefix(k, m, i);
    var end := Exec(g, Launch(k, m)[..i]);
    if i <= k {
      AllChecked(g, i);
    } else {
      AllChecked(g, k);
      ExecConcat(g, Checks(k), Debits(i - k, m));
      TimesMonotone(i - k, k, m);
      AllDebited(Exec(g, Checks(k)), i - k, k, m, unit);
    }
    FewBelow(end.inFlight, k);
  }

  /** A session below its cap with amounts on one unit. */
  ghost predicate Launches(g: Gate, k: nat, m: real, unit: int) {
    && g.inFlight == {} && 0.0 <= g.session.cost < g.session.limit && m >= 0.0
    && OnGrid(unit, g.session.cost) && OnGrid(unit, m)
    && g.session.limit + Times(k, m) < Pow10(PRECISION + unit)
  }

  lemma {:induction false} LaunchOverlaps(g: Gate, k: nat, m: real, unit: int)
    requires Launches(g, k, m, unit)
    ensures Overlapping(g, Launch(k, m), k, m) && SpendsOnGrid(Launch(k, m), unit)
  {
    LaunchLengths(k, k, m);
    var events := Launch(k, m);
    forall i: nat | i <= |events|
      ensures |Exec(g, events[..i]).inFlight| <= k
      ensures i < |events| && events[i].PreCheck? ==> events[i].run !in Exec(g, events[..i]).inFlight
      ensures i < |events| && events[i].RecordSpend? ==> events[i].spend == m
    {
      LaunchInFlight(g, k, m, unit, i);
      LaunchPrefix(k, m, i);
    }
    hide Exec, Launch, OnGrid;
  }

  /** The bound cannot be improved: from any cost below the cap, `k` overlapping runs, which the bound
      covers, do add k times m, so that a session one unit below its cap ends one unit below it. */
  lemma {:induction false} BoundIsReached(g: Gate, k: nat, m: real, unit: int)
    requires g.inFlight == {} && 0.0 <= g.session.cost < g.session.limit && m >= 0.0
    requires OnGrid(unit, g.session.cost) && OnGrid(unit, m)
    requires g.session.limit + Times(k, m) < Pow10(PRECISION + unit)
    ensures Safe(g, k, m) && Admissible(g, Launch(k, m), k, m)
    ensures Exec(g, Launch(k, m)).session.cost == g.session.cost + Times(k, m)
  {
    FreshIsSafe(g, k, m);
    LaunchOverlaps(g, k, m, unit);
    SharedUnitIsNeverRounded(g, Launch(k, m), k, m, unit);
    AllChecked(g, k);
    ExecConcat(g, Checks(k), Debits(k, m));
    AllDebited(Exec(g, Checks(k)), k, k, m, unit);
    hide Overlapping, NoneRoundedUp, Exec;
  }

  /** The hypothesis on rounding is needed: with a spend finer than the precision, one run alone ends
      above the cap plus its spend, from a safe state and with every other hypothesis met. */
  lemma {:induction false} RoundingCanBreakTheBound()
    ensures var m := 0.0000000000000000000000000007;
            var g := Gate(Fresh("s", "general", 1.0).(cost := 0.9999999999999999999999999999), {});
            var events := [PreCheck(0), RecordSpend(0, m)];
            && Safe(g, 1, m) && Overlapping(g, events, 1, m)
            && Exec(g, events).session.cost > g.session.limit + Times(1, m)
  {
    var m := 0.0000000000000000000000000007;
    var g := Gate(Fresh("s", "general", 1.0).(cost := 0.9999999999999999999999999999), {});
    var events := [PreCheck(0), RecordSpend(0, m)];
    SumRoundsUp();
    assert Times(1, m) == m;
    assert events[..0] == [] && events[..1] == [PreCheck(0)] && events[..2] == events;
    assert [PreCheck(0)][..0] == [];
    var h := Exec(g, [PreCheck(0)]);
    assert h == Gate(g.session, {0});
    DebitAdds(g.session, m);
    hide Spend, Add;
    assert Exec(g, events).inFlight == {};
  }
}

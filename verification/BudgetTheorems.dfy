/** What the ledger promises over whole runs of calls, however they are redelivered. */
module BudgetTheorems {
  import opened Prelude
  import opened DecimalContext
  import opened BudgetLedger

  datatype Call =
    | RecordSpend(key: Option<string>, amount: real)
    | RecordTokens(key: Option<string>, tokens: int, price: real)
    | Check

  function Key(c: Call): Option<string> {
    if c.Check? then None else c.key
  }

  /** The debit a call asks for. */
  function Debit(c: Call): real {
    match c
    case RecordSpend(_, amount) => amount
    case RecordTokens(_, tokens, price) => Mul(tokens as real, price)
    case Check => 0.0
  }

  function Tokens(c: Call): int {
    if c.RecordTokens? then c.tokens else 0
  }

  function Apply(s: Session, c: Call): (Session, Outcome) {
    match c
    case RecordSpend(key, amount) => Spend(s, amount, key)
    case RecordTokens(key, tokens, price) => SpendTokens(s, tokens, price, key)
    case Check => (s, CheckBudget(s))
  }

  /** The session and the outcomes after a run of calls; a raise does not end the run. */
  function Run(s: Session, calls: seq<Call>): (r: (Session, seq<Outcome>))
    ensures |r.1| == |calls|
  {
    if calls == [] then (s, [])
    else
      var (s1, os) := Run(s, calls[..|calls| - 1]);
      var (s2, o) := Apply(s1, calls[|calls| - 1]);
      (s2, os + [o])
  }

  /** Call `i` is the first delivery of its operation, or carries no key. */
  predicate Counted(calls: seq<Call>, i: nat)
    requires i < |calls|
  {
    Key(calls[i]) == None || forall j :: 0 <= j < i ==> Key(calls[j]) != Key(calls[i])
  }

  /** The run with every redelivery removed. */
  function FirstDeliveries(calls: seq<Call>): seq<Call> {
    if calls == [] then []
    else
      var n := |calls| - 1;
      FirstDeliveries(calls[..n]) + if Counted(calls, n) then [calls[n]] else []
  }

  function Keys(calls: seq<Call>): set<string> {
    set i | 0 <= i < |calls| && Key(calls[i]).Some? :: Key(calls[i]).value
  }

  function KeySet(c: Call): set<string> {
    if Key(c).Some? then {Key(c).value} else {}
  }

  lemma {:induction false} KeysOfLast(calls: seq<Call>)
    requires calls != []
    ensures Keys(calls) == Keys(calls[..|calls| - 1]) + KeySet(calls[|calls| - 1])
  {
    var n := |calls| - 1;
    forall x | x in Keys(calls) ensures x in Keys(calls[..n]) + KeySet(calls[n]) {
      var i :| 0 <= i < |calls| && Key(calls[i]) == Some(x);
      if i < n { assert calls[..n][i] == calls[i]; }
    }
    KeysOfPrefix(calls, n);
  }

  lemma {:induction false} KeysOfPrefix(calls: seq<Call>, n: nat)
    requires n <= |calls|
    ensures Keys(calls[..n]) <= Keys(calls)
  {
    forall x | x in Keys(calls[..n]) ensures x in Keys(calls) {
      var i :| 0 <= i < n && Key(calls[..n][i]) == Some(x);
      assert Key(calls[i]) == Some(x);
    }
  }

  lemma {:induction false} AppliedByOne(s: Session, c: Call)
    ensures Apply(s, c).0.applied == s.applied + KeySet(c)
  {
  }

  lemma {:induction false} AppliedKeys(s: Session, calls: seq<Call>)
    ensures Run(s, calls).0.applied == s.applied + Keys(calls)
  {
    if calls != [] {
      var n := |calls| - 1;
      AppliedKeys(s, calls[..n]);
      AppliedByOne(Run(s, calls[..n]).0, calls[n]);
      KeysOfLast(calls);
    }
  }

  /** The last call is suppressed exactly when it is a redelivery. */
  lemma {:induction false} LastIsDuplicate(s: Session, calls: seq<Call>)
    requires calls != []
    requires s.applied !! Keys(calls)
    ensures var n := |calls| - 1;
            IsDuplicate(Run(s, calls[..n]).0, Key(calls[n])) <==> !Counted(calls, n)
  {
    var n := |calls| - 1;
    AppliedKeys(s, calls[..n]);
    var k := Key(calls[n]);
    if k.Some? {
      assert k.value in Keys(calls);
      if !Counted(calls, n) {
        var j :| 0 <= j < n && Key(calls[j]) == k;
        assert Key(calls[..n][j]) == k;
      }
    }
  }

  lemma {:induction false} DuplicateIsNoOp(s: Session, c: Call)
    requires IsDuplicate(s, Key(c))
    ensures Apply(s, c) == (s, Returned)
  {
  }

  /** Redelivering calls, in any number and any interleaving, leaves exactly the session that
      the first deliveries alone would leave. */
  lemma {:induction false} RedeliveryIsInvisible(s: Session, calls: seq<Call>)
    requires s.applied !! Keys(calls)
    ensures Run(s, calls).0 == Run(s, FirstDeliveries(calls)).0
  {
    if calls != [] {
      var n := |calls| - 1;
      KeysOfPrefix(calls, n);
      RedeliveryIsInvisible(s, calls[..n]);
      LastIsDuplicate(s, calls);
      var firsts := FirstDeliveries(calls[..n]);
      if Counted(calls, n) {
        assert (firsts + [calls[n]])[..|firsts|] == firsts;
      } else {
        DuplicateIsNoOp(Run(s, calls[..n]).0, calls[n]);
        assert firsts + [] == firsts;
      }
      hide Apply, Counted, Keys;
    }
  }

  /** And a redelivery never raises, even when the first delivery did. */
  lemma {:induction false} RedeliveryNeverRaises(s: Session, calls: seq<Call>, i: nat)
    requires s.applied !! Keys(calls)
    requires i < |calls| && !Counted(calls, i)
    ensures Run(s, calls).1[i] == Returned
  {
    var n := |calls| - 1;
    if i < n {
      KeysOfPrefix(calls, n);
      CountedPrefix(calls, n, i);
      RedeliveryNeverRaises(s, calls[..n], i);
    } else {
      LastIsDuplicate(s, calls);
      DuplicateIsNoOp(Run(s, calls[..n]).0, calls[n]);
    }
  }

  lemma {:induction false} CountedPrefix(calls: seq<Call>, n: nat, i: nat)
    requires i < n <= |calls|
    ensures Counted(calls, i) == Counted(calls[..n], i)
  {
    if !Counted(calls, i) {
      var j :| 0 <= j < i && Key(calls[j]) == Key(calls[i]);
      assert calls[..n][j] == calls[j] && calls[..n][i] == calls[i];
    }
  }

  // ----- exact sums -----

  function TotalDebit(calls: seq<Call>): real {
    if calls == [] then 0.0 else TotalDebit(calls[..|calls| - 1]) + Debit(calls[|calls| - 1])
  }

  function TotalSize(calls: seq<Call>): (r: real)
    ensures r >= 0.0
  {
    if calls == [] then 0.0 else TotalSize(calls[..|calls| - 1]) + Abs(Debit(calls[|calls| - 1]))
  }

  function TotalTokens(calls: seq<Call>): int {
    if calls == [] then 0 else TotalTokens(calls[..|calls| - 1]) + Tokens(calls[|calls| - 1])
  }

  /** Every debit is a whole number of units of 10^unit. */
  ghost predicate DebitsOnGrid(unit: int, calls: seq<Call>) {
    forall i :: 0 <= i < |calls| ==> OnGrid(unit, Debit(calls[i]))
  }

  lemma {:induction false} TokensByOne(s: Session, c: Call)
    ensures Apply(s, c).0.tokens == s.tokens + if IsDuplicate(s, Key(c)) then 0 else Tokens(c)
  {
  }

  /** Under arbitrary redelivery and any rounding, the tokens are the sum over the first delivery of
      each operation and the calls without a key, those that raised included. */
  lemma {:induction false} TokensAreExact(s: Session, calls: seq<Call>)
    requires s.applied !! Keys(calls)
    ensures Run(s, calls).0.tokens == s.tokens + TotalTokens(FirstDeliveries(calls))
  {
    if calls != [] {
      var n := |calls| - 1;
      KeysOfPrefix(calls, n);
      LastIsDuplicate(s, calls);
      TokensByOne(Run(s, calls[..n]).0, calls[n]);
      hide Counted, Keys, Apply, IsDuplicate, Tokens;
      TokensAreExact(s, calls[..n]);
      var firsts := FirstDeliveries(calls[..n]);
      if Counted(calls, n) {
        assert (firsts + [calls[n]])[..|firsts|] == firsts;
      } else {
        assert firsts + [] == firsts;
      }
    }
  }

  /** So is the cost, when the debits share a decimal unit and their total size stays within 28
      digits of it. */
  lemma {:induction false} TotalsAreExact(s: Session, calls: seq<Call>, unit: int)
    requires s.applied !! Keys(calls)
    requires DebitsOnGrid(unit, calls) && OnGrid(unit, s.cost)
    requires Abs(s.cost) + TotalSize(FirstDeliveries(calls)) < Pow10(PRECISION + unit)
    ensures var end := Run(s, calls).0;
            && end.cost == s.cost + TotalDebit(FirstDeliveries(calls))
            && end.tokens == s.tokens + TotalTokens(FirstDeliveries(calls))
            && OnGrid(unit, end.cost)
            && Abs(end.cost) <= Abs(s.cost) + TotalSize(FirstDeliveries(calls))
  {
    if calls != [] {
      var n := |calls| - 1;
      KeysOfPrefix(calls, n);
      LastIsDuplicate(s, calls);
      TokensAreExact(s, calls);
      var firsts := FirstDeliveries(calls[..n]);
      if Counted(calls, n) {
        assert (firsts + [calls[n]])[..|firsts|] == firsts;
        TotalsAreExact(s, calls[..n], unit);
        LastDebitIsExact(Run(s, calls[..n]).0, calls[n], unit);
      } else {
        assert firsts + [] == firsts;
        TotalsAreExact(s, calls[..n], unit);
      }
    }
  }

  lemma {:induction false} LastDebitIsExact(s: Session, c: Call, unit: int)
    requires !IsDuplicate(s, Key(c))
    requires OnGrid(unit, s.cost) && OnGrid(unit, Debit(c))
    requires Abs(s.cost) + Abs(Debit(c)) < Pow10(PRECISION + unit)
    ensures Apply(s, c).0.cost == s.cost + Debit(c)
    ensures OnGrid(unit, s.cost + Debit(c))
  {
    GridSum(unit, s.cost, Debit(c));
    GridFits(unit, s.cost + Debit(c));
  }

  // ----- breaches -----

  /** Call `i` of a run is a debit that left the cost above the cap. */
  predicate Breaches(s: Session, calls: seq<Call>, i: nat)
    requires i < |calls|
  {
    !calls[i].Check? && Counted(calls, i) && Run(s, calls[..i + 1]).0.cost > s.limit
  }

  function BreachAlerts(s: Session, calls: seq<Call>, n: nat): seq<Alert>
    requires n <= |calls|
  {
    if n == 0 then []
    else
      BreachAlerts(s, calls, n - 1) +
      if Breaches(s, calls, n - 1) then [Alert(Run(s, calls[..n]).0.cost, s.limit)] else []
  }

  lemma {:induction false} OneCallAlerts(s: Session, c: Call)
    ensures var (s1, o) := Apply(s, c);
            && s1.limit == s.limit
            && (c.Check? ==> s1 == s && o == if s.cost >= s.limit then BudgetExceeded else Returned)
            && (!c.Check? && IsDuplicate(s, Key(c)) ==> s1 == s && o == Returned)
            && (!c.Check? && !IsDuplicate(s, Key(c)) ==>
                  && o == (if s1.cost > s.limit then BudgetExceeded else Returned)
                  && s1.alerts == s.alerts + if s1.cost > s.limit then [Alert(s1.cost, s.limit)] else [])
  {
  }

  /** In any run, a debit raises exactly when it is not a redelivery and leaves the cost above the
      cap, and a check exactly when the cost has reached it; the alerts are those of the raising
      debits, in order, each with the cost it left. */
  lemma {:induction false} BreachesAreRecorded(s: Session, calls: seq<Call>, i: nat)
    requires s.applied !! Keys(calls) && i <= |calls|
    ensures Run(s, calls[..i]).0.alerts == s.alerts + BreachAlerts(s, calls, i)
    ensures Run(s, calls[..i]).0.limit == s.limit
    ensures i < |calls| ==>
              Run(s, calls[..i + 1]).1[i] ==
              if calls[i].Check? then (if Run(s, calls[..i]).0.cost >= s.limit then BudgetExceeded else Returned)
              else if Breaches(s, calls, i) then BudgetExceeded else Returned
  {
    if i > 0 { BreachesAreRecorded(s, calls, i - 1); }
    if i > 0 { LastCallAlerts(s, calls, i - 1); }
    if i < |calls| { LastCallAlerts(s, calls, i); }
    hide Run, Breaches, Keys;
  }

  lemma {:induction false} LastCallAlerts(s: Session, calls: seq<Call>, i: nat)
    requires s.applied !! Keys(calls) && i < |calls| && Run(s, calls[..i]).0.limit == s.limit
    ensures var (before, after) := (Run(s, calls[..i]), Run(s, calls[..i + 1]));
            && after.0.limit == s.limit
            && after.0.alerts == before.0.alerts +
                 (if Breaches(s, calls, i) then [Alert(after.0.cost, s.limit)] else [])
            && after.1[i] ==
               if calls[i].Check? then (if before.0.cost >= s.limit then BudgetExceeded else Returned)
               else if Breaches(s, calls, i) then BudgetExceeded else Returned
  {
    var upto, before := calls[..i + 1], Run(s, calls[..i]).0;
    assert upto[..i] == calls[..i];
    KeysOfPrefix(calls, i + 1);
    LastIsDuplicate(s, upto);
    CountedPrefix(calls, i + 1, i);
    OneCallAlerts(before, calls[i]);
    assert before.alerts + [] == before.alerts;
    hide Apply, Keys, Counted, IsDuplicate;
  }

  // ----- snapshots -----

  /** A session restored from its snapshot answers every later run of calls as the
      uninterrupted session does: same outcomes, same final fields. */
  lemma {:induction false} SnapshotIsTransparent(s: Session, calls: seq<Call>)
    ensures Deserialize(Serialize(s)) == s
    ensures Run(Deserialize(Serialize(s)), calls) == Run(s, calls)
  {
    assert (set x | x in Serialize(s).appliedIds) == s.applied;
  }

  // ----- rebuilding from history -----

  function Ops(history: seq<Entry>): set<string> {
    set e | e in history :: e.op
  }

  /** `amounts` says what each operation debits, and no entry disagrees with it. */
  ghost predicate Agrees(history: seq<Entry>, amounts: map<string, real>) {
    forall e :: e in history ==> e.op in amounts && amounts[e.op] == Restored(e)
  }

  ghost predicate Payable(amounts: map<string, real>, unit: int) {
    && (forall k :: k in amounts ==> amounts[k] >= 0.0 && OnGrid(unit, amounts[k]))
    && SumOver(amounts.Keys, amounts) < Pow10(PRECISION + unit)
  }

  lemma {:induction false} OpsOfTail(history: seq<Entry>)
    requires history != []
    ensures Ops(history) == {history[0].op} + Ops(history[1..])
  {
    assert history == [history[0]] + history[1..];
  }

  /** One entry that was not applied yet. */
  lemma {:induction false} ReplayOne(s: Session, e: Entry, amounts: map<string, real>, unit: int)
    requires Payable(amounts, unit) && e.op in amounts && amounts[e.op] == Restored(e)
    requires s.applied <= amounts.Keys && s.cost == SumOver(s.applied, amounts) && OnGrid(unit, s.cost)
    requires e.op !in s.applied
    ensures var (s1, o) := SpendTokens(s, e.tokens, Price(e), Some(e.op));
            && s1.applied == s.applied + {e.op} && s1.limit == s.limit
            && s1.cost == SumOver(s1.applied, amounts) && OnGrid(unit, s1.cost)
            && o == if s1.cost > s.limit then BudgetExceeded else Returned
  {
    SumOverAdd(s.applied, amounts, e.op);
    SumOverMonotone(s.applied + {e.op}, amounts.Keys, amounts);
    SumOverMonotone(s.applied, amounts.Keys, amounts);
    GridSum(unit, s.cost, Restored(e));
    GridFits(unit, s.cost + Restored(e));
  }

  /** The replay loop, started with some operations already applied. */
  lemma {:induction false} ReplayTotals(s: Session, history: seq<Entry>, amounts: map<string, real>, unit: int)
    requires Agrees(history, amounts) && Payable(amounts, unit)
    requires s.applied <= amounts.Keys && s.cost == SumOver(s.applied, amounts) && OnGrid(unit, s.cost)
    requires s.applied == {} || s.cost <= s.limit
    ensures var (end, o) := Replay(s, history);
            var total := SumOver(s.applied + Ops(history), amounts);
            && (o == BudgetExceeded <==> history != [] && total > s.limit)
            && (o != BudgetExceeded ==> o == Returned && end.cost == total && end.applied == s.applied + Ops(history))
    decreases |history|
  {
    if history == [] {
      assert s.applied + Ops(history) == s.applied;
    } else {
      var e := history[0];
      assert e in history;
      OpsOfTail(history);
      var (s1, o) := SpendTokens(s, e.tokens, Price(e), Some(e.op));
      if e.op in s.applied {
        assert s.applied + Ops(history) == s.applied + Ops(history[1..]);
        ReplayTotals(s, history[1..], amounts, unit);
        if history[1..] == [] { assert s.applied + Ops(history) == s.applied; }
      } else {
        ReplayOne(s, e, amounts, unit);
        hide SpendTokens;
        assert s.applied + Ops(history) == s1.applied + Ops(history[1..]);
        if o == Returned {
          ReplayTotals(s1, history[1..], amounts, unit);
          if history[1..] == [] { assert s1.applied + Ops(history[1..]) == s1.applied; }
        } else {
          SumOverMonotone(s1.applied, s.applied + Ops(history), amounts);
        }
      }
    }
  }

  /** `restore_from_history` raises exactly when the total over distinct operations exceeds
      the cap, and otherwise rebuilds that total and the set of applied ids.  Entries of one
      operation agree, amounts are non-negative and sums fit the precision. */
  lemma {:induction false} RestoreRaisesIff(id: string, agentType: string, limit: real, history: seq<Entry>,
                         amounts: map<string, real>, unit: int)
    requires Agrees(history, amounts) && Payable(amounts, unit)
    ensures var (end, o) := Replay(Fresh(id, agentType, limit), history);
            var total := SumOver(Ops(history), amounts);
            && (o == BudgetExceeded <==> history != [] && total > limit)
            && (o != BudgetExceeded ==> o == Returned && end.cost == total && end.applied == Ops(history))
  {
    GridZero(unit);
    ReplayTotals(Fresh(id, agentType, limit), history, amounts, unit);
    assert {} + Ops(history) == Ops(history);
  }

  /** `counts` says how many tokens each operation used, and no entry disagrees with it. */
  ghost predicate Counts(history: seq<Entry>, counts: map<string, real>) {
    forall e :: e in history ==> e.op in counts && counts[e.op] == e.tokens as real
  }

  /** One entry that does not raise. */
  lemma {:induction false} EntryCounts(s: Session, e: Entry, counts: map<string, real>)
    requires e.op in counts && counts[e.op] == e.tokens as real
    requires s.applied <= counts.Keys && s.tokens as real == SumOver(s.applied, counts)
    ensures var (s1, o) := SpendTokens(s, e.tokens, Price(e), Some(e.op));
            o == Returned ==>
              && s1 == s.(tokens := s1.tokens, cost := s1.cost, applied := s1.applied)
              && s1.applied == s.applied + {e.op} && s1.tokens as real == SumOver(s1.applied, counts)
  {
    if e.op in s.applied { assert s.applied + {e.op} == s.applied; } else { SumOverAdd(s.applied, counts, e.op); }
  }

  /** A replay that returns has counted the tokens of each distinct operation once, however amounts
      are rounded, and changed nothing but tokens, cost and ids. */
  lemma {:induction false} ReplayCounts(s: Session, history: seq<Entry>, counts: map<string, real>)
    requires Counts(history, counts)
    requires s.applied <= counts.Keys && s.tokens as real == SumOver(s.applied, counts)
    ensures var (end, o) := Replay(s, history);
            o == Returned ==>
              && end == s.(tokens := end.tokens, cost := end.cost, applied := end.applied)
              && end.applied == s.applied + Ops(history) <= counts.Keys
              && end.tokens as real == SumOver(end.applied, counts)
    decreases |history|
  {
    if history == [] {
      assert s.applied + Ops(history) == s.applied;
    } else {
      var e := history[0];
      assert e in history;
      OpsOfTail(history);
      EntryCounts(s, e, counts);
      var (s1, o) := SpendTokens(s, e.tokens, Price(e), Some(e.op));
      hide SpendTokens;
      if o == Returned {
        ReplayCounts(s1, history[1..], counts);
        assert s.applied + Ops(history) == s1.applied + Ops(history[1..]);
      }
    }
  }

  /** So the outcome and the whole rebuilt session depend on which operations a history holds, not on
      their order or on how often they were delivered. */
  lemma {:induction false} RestoreIgnoresOrderAndDuplicates(
    id: string, agentType: string, limit: real, h1: seq<Entry>, h2: seq<Entry>,
    amounts: map<string, real>, counts: map<string, real>, unit: int)
    requires forall e :: e in h1 <==> e in h2
    requires Agrees(h1, amounts) && Payable(amounts, unit) && Counts(h1, counts)
    ensures var (s1, o1) := Replay(Fresh(id, agentType, limit), h1);
            var (s2, o2) := Replay(Fresh(id, agentType, limit), h2);
            o1 == o2 && (o1 == Returned ==> s1 == s2)
  {
    assert Ops(h1) == Ops(h2);
    RestoreRaisesIff(id, agentType, limit, h1, amounts, unit);
    RestoreRaisesIff(id, agentType, limit, h2, amounts, unit);
    ReplayCounts(Fresh(id, agentType, limit), h1, counts);
    ReplayCounts(Fresh(id, agentType, limit), h2, counts);
    assert h1 != [] ==> h1[0] in h1;
    assert h2 != [] ==> h2[0] in h2;
    hide Replay, Ops;
  }
}

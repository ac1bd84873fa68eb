/** The budget activities: each delivery rebuilds the session from the history the workflow
    owns, so an activity may be redelivered any number of times. */
module BudgetActivities {
  import opened Prelude
  import opened DecimalContext
  import opened BudgetLedger
  import BudgetTheorems
  import Strings

  datatype RecordInput = RecordInput(
    taskId: string,
    agentType: string,
    sessionId: string,
    limit: real,
    tokens: int,
    price: real,
    history: seq<Entry>)

  datatype RecordResult = RecordResult(snapshot: Snapshot, history: seq<Entry>)

  datatype ActivityError = MissingTaskId | BudgetExceededError

  /** The idempotency key of an activity execution; retries of it share the key. */
  function OperationId(workflowId: Option<string>, activityId: string): string {
    if workflowId.Some? then workflowId.value + ":" + activityId else activityId
  }

  /** `budget_pre_check` */
  function PreCheck(taskId: string, agentType: string, sessionId: string, limit: real, history: seq<Entry>)
    : Result<Snapshot, ActivityError>
  {
    if taskId == "" then Err(MissingTaskId)
    else
      var (s, o) := Replay(Fresh(sessionId, agentType, limit), history);
      if o != Returned || CheckBudget(s) != Returned then Err(BudgetExceededError) else Ok(Serialize(s))
  }

  /** What `budget_record_spend` answers: a function of its input and operation id alone. */
  function RecordSpend(inp: RecordInput, op: string): Result<RecordResult, ActivityError> {
    if inp.taskId == "" then Err(MissingTaskId)
    else
      var (s, o) := Replay(Fresh(inp.sessionId, inp.agentType, inp.limit), inp.history);
      if o != Returned then Err(BudgetExceededError)
      else
        var (s', o') := SpendTokens(s, inp.tokens, inp.price, Some(op));
        if o' != Returned then Err(BudgetExceededError)
        else
          var added := if op in s.applied then [] else [Entry(op, Mul(inp.price, inp.tokens as real), inp.tokens)];
          Ok(RecordResult(Serialize(s'), inp.history + added))
  }

  class Activities {
    const enforcer: BudgetEnforcer

    constructor (enforcer: BudgetEnforcer)
      ensures this.enforcer == enforcer
    {
      this.enforcer := enforcer;
    }

    /** Whatever the shared registry holds from earlier deliveries or other tasks, the answer is
        the same, and no other session is touched. */
    method BudgetRecordSpend(inp: RecordInput, workflowId: Option<string>, activityId: string)
      returns (r: Result<RecordResult, ActivityError>)
      requires enforcer.Valid()
      modifies enforcer
      ensures enforcer.Valid()
      ensures r == RecordSpend(inp, OperationId(workflowId, activityId))
      ensures forall k :: k != inp.sessionId ==>
                (k in enforcer.sessions <==> k in old(enforcer.sessions)) &&
                (k in enforcer.sessions ==> enforcer.sessions[k] == old(enforcer.sessions)[k])
    {
      if inp.taskId == "" { return Err(MissingTaskId); }
      var op := OperationId(workflowId, activityId);
      var s, o := enforcer.RestoreFromHistory(inp.sessionId, inp.agentType, inp.limit, inp.history);
      if o != Returned { return Err(BudgetExceededError); }
      var existing := s.applied;
      o := enforcer.RecordTokens(inp.sessionId, inp.tokens, inp.price, Some(op));
      if o != Returned { return Err(BudgetExceededError); }
      var history := inp.history;
      if op !in existing {
        history := history + [Entry(op, Mul(inp.price, inp.tokens as real), inp.tokens)];
      } else {
        assert history + [] == history;
      }
      return Ok(RecordResult(Serialize(s.State()), history));
    }

    method BudgetPreCheck(taskId: string, agentType: string, sessionId: string, limit: real, history: seq<Entry>)
      returns (r: Result<Snapshot, ActivityError>)
      requires enforcer.Valid()
      modifies enforcer
      ensures enforcer.Valid()
      ensures r == PreCheck(taskId, agentType, sessionId, limit, history)
      ensures forall k :: k != sessionId ==>
                (k in enforcer.sessions <==> k in old(enforcer.sessions)) &&
                (k in enforcer.sessions ==> enforcer.sessions[k] == old(enforcer.sessions)[k])
    {
      if taskId == "" { return Err(MissingTaskId); }
      var s, o := enforcer.RestoreFromHistory(sessionId, agentType, limit, history);
      if o != Returned { return Err(BudgetExceededError); }
      o := enforcer.Check(sessionId);
      if o != Returned { return Err(BudgetExceededError); }
      return Ok(Serialize(s.State()));
    }
  }

  /** On an empty ledger the activity debits exactly tokens times price, and answers iff that is
      within the cap. */
  lemma {:induction false} FirstRecord(inp: RecordInput, op: string)
    requires inp.history == [] && inp.taskId != ""
    ensures var amount := Mul(inp.tokens as real, inp.price);
            && (RecordSpend(inp, op).Ok? <==> amount <= inp.limit)
            && (RecordSpend(inp, op).Ok? ==> RecordSpend(inp, op).value.snapshot.cost == amount)
  {
    var fresh0 := Fresh(inp.sessionId, inp.agentType, inp.limit);
    assert Replay(fresh0, inp.history) == (fresh0, Returned);
    FirstCost(inp.tokens as real, inp.price);
  }

  lemma {:induction false} FirstCost(tokens: real, price: real)
    ensures Add(0.0, Mul(tokens, price)) == Mul(tokens, price)
  {
    hide *;
    MulIsRound(tokens, price);
    AddToZero(tokens * price);
  }

  // ----- what the activities answer -----

  /** Within one workflow different activities have different operation ids; across workflows they do
      as long as activity ids hold no colon. */
  lemma {:induction false} OperationIdsDiffer(w1: string, a1: string, w2: string, a2: string)
    ensures OperationId(Some(w1), a1) == OperationId(Some(w1), a2) <==> a1 == a2
    ensures OperationId(None, a1) == OperationId(None, a2) <==> a1 == a2
    ensures ':' !in a1 && ':' !in a2 ==>
              && (OperationId(Some(w1), a1) == OperationId(Some(w2), a2) <==> w1 == w2 && a1 == a2)
              && OperationId(None, a1) != OperationId(Some(w2), a2)
  {
    var x, y, z := OperationId(Some(w1), a1), OperationId(Some(w2), a2), OperationId(Some(w1), a2);
    assert x[|w1| + 1..] == a1 && z[|w1| + 1..] == a2 && y[|w2| + 1..] == a2;
    assert x[|w1|] == ':' && y[|w2|] == ':' && x[..|w1|] == w1 && y[..|w2|] == w2;
    if ':' !in a1 && ':' !in a2 && x == y {
      assert forall i :: |w1| < i < |x| ==> x[i] == a1[i - |w1| - 1];
      assert forall i :: |w2| < i < |y| ==> y[i] == a2[i - |w2| - 1];
      assert |w1| == |w2|;
    }
  }

  /** With a colon they need not. */
  lemma {:induction false} OperationIdsCanCollide()
    ensures OperationId(Some("w"), "1:2") == OperationId(Some("w:1"), "2")
  {
    assert "w" + ":" + "1:2" == "w:1" + ":" + "2";
  }

  /** Without a task id neither activity answers, whatever else it is given. */
  lemma {:induction false} TaskIdIsRequired(inp: RecordInput, op: string)
    ensures RecordSpend(inp, op) == Err(MissingTaskId) <==> inp.taskId == ""
    ensures PreCheck(inp.taskId, inp.agentType, inp.sessionId, inp.limit, inp.history) == Err(MissingTaskId) <==>
            inp.taskId == ""
  {
  }

  /** The totals that a history's distinct operations add up to. */
  ghost predicate Shows(n: Snapshot, cost: real, tokens: real, ops: set<string>) {
    && n.cost == cost && n.tokens as real == tokens && n.alerts == []
    && Strings.Increasing(n.appliedIds) && (forall x :: x in n.appliedIds <==> x in ops)
  }

  /** Entries of one operation agree in amount and tokens, and the amounts fit the precision. */
  ghost predicate AddsUp(history: seq<Entry>, amounts: map<string, real>, counts: map<string, real>, unit: int) {
    && BudgetTheorems.Agrees(history, amounts) && BudgetTheorems.Payable(amounts, unit)
    && BudgetTheorems.Counts(history, counts)
  }

  lemma {:induction false} ReplayedTotals(
    id: string, agentType: string, limit: real, history: seq<Entry>,
    amounts: map<string, real>, counts: map<string, real>, unit: int)
    requires AddsUp(history, amounts, counts, unit)
    ensures BudgetTheorems.Ops(history) <= amounts.Keys && BudgetTheorems.Ops(history) <= counts.Keys
    ensures var (s, o) := Replay(Fresh(id, agentType, limit), history);
            var total := SumOver(BudgetTheorems.Ops(history), amounts);
            && (o == BudgetExceeded <==> history != [] && total > limit)
            && (o != BudgetExceeded ==>
                  && o == Returned && s.id == id && s.agentType == agentType && s.limit == limit && s.alerts == []
                  && s.cost == total && s.applied == BudgetTheorems.Ops(history)
                  && s.tokens as real == SumOver(BudgetTheorems.Ops(history), counts))
  {
    BudgetTheorems.RestoreRaisesIff(id, agentType, limit, history, amounts, unit);
    BudgetTheorems.ReplayCounts(Fresh(id, agentType, limit), history, counts);
    assert {} + BudgetTheorems.Ops(history) == BudgetTheorems.Ops(history);
    hide Replay;
  }

  /** The pre-check answers exactly when the total over distinct operations is strictly below the cap,
      and then shows that total, their tokens and their ids. */
  lemma {:induction false} PreCheckAnswersIff(
    taskId: string, agentType: string, sessionId: string, limit: real, history: seq<Entry>,
    amounts: map<string, real>, counts: map<string, real>, unit: int)
    requires taskId != "" && AddsUp(history, amounts, counts, unit)
    ensures BudgetTheorems.Ops(history) <= amounts.Keys && BudgetTheorems.Ops(history) <= counts.Keys
    ensures var r := PreCheck(taskId, agentType, sessionId, limit, history);
            var ops := BudgetTheorems.Ops(history);
            var total := SumOver(ops, amounts);
            && (r.Ok? <==> total < limit)
            && (r.Err? ==> r.error == BudgetExceededError)
            && (r.Ok? ==>
                  && r.value.id == sessionId && r.value.agentType == agentType && r.value.limit == limit
                  && Shows(r.value, total, SumOver(ops, counts), ops))
  {
    ReplayedTotals(sessionId, agentType, limit, history, amounts, counts, unit);
    hide Replay, BudgetTheorems.Ops, SumOver;
    hide AddsUp;
    if history == [] { NothingReplays(sessionId, agentType, limit); }
  }

  lemma {:induction false} NothingReplays(id: string, agentType: string, limit: real)
    ensures Replay(Fresh(id, agentType, limit), []) == (Fresh(id, agentType, limit), Returned)
  {
  }

  /** On an empty history that is: exactly when there is something to spend. */
  lemma {:induction false} FirstPreCheck(taskId: string, agentType: string, sessionId: string, limit: real)
    requires taskId != ""
    ensures var r := PreCheck(taskId, agentType, sessionId, limit, []);
            && (r.Ok? <==> 0.0 < limit)
            && (r.Ok? ==> Shows(r.value, 0.0, 0.0, {}))
  {
    NothingReplays(sessionId, agentType, limit);
  }

  /** Recording an operation that its history already holds answers exactly when the total over
      distinct operations is within the cap, and changes nothing. */
  lemma {:induction false} RecordAgainAnswersIff(
    inp: RecordInput, op: string, amounts: map<string, real>, counts: map<string, real>, unit: int)
    requires inp.taskId != "" && AddsUp(inp.history, amounts, counts, unit)
    requires op in BudgetTheorems.Ops(inp.history)
    ensures BudgetTheorems.Ops(inp.history) <= amounts.Keys && BudgetTheorems.Ops(inp.history) <= counts.Keys
    ensures var r, ops := RecordSpend(inp, op), BudgetTheorems.Ops(inp.history);
            && (r.Ok? <==> SumOver(ops, amounts) <= inp.limit)
            && (r.Err? ==> r.error == BudgetExceededError)
            && (r.Ok? ==> r.value.history == inp.history)
            && (r.Ok? ==> Shows(r.value.snapshot, SumOver(ops, amounts), SumOver(ops, counts), ops))
  {
    ReplayedTotals(inp.sessionId, inp.agentType, inp.limit, inp.history, amounts, counts, unit);
    OpsOfNothing(inp.history);
    hide *;
    var (s, o) := Replay(Fresh(inp.sessionId, inp.agentType, inp.limit), inp.history);
    if o == Returned { RecordAfterReplay(inp, op, s); } else { RecordAfterRaise(inp, op); }
  }

  /** Recording a new operation answers exactly when the history is within the cap and stays so with
      the rounded cost added; it then shows the new totals and appends the entry to replay. */
  lemma {:induction false} RecordNewAnswersIff(
    inp: RecordInput, op: string, amounts: map<string, real>, counts: map<string, real>, unit: int)
    requires inp.taskId != "" && AddsUp(inp.history, amounts, counts, unit)
    requires op !in BudgetTheorems.Ops(inp.history)
    ensures BudgetTheorems.Ops(inp.history) <= amounts.Keys && BudgetTheorems.Ops(inp.history) <= counts.Keys
    ensures var r, ops := RecordSpend(inp, op), BudgetTheorems.Ops(inp.history);
            var total := SumOver(ops, amounts);
            var cost := Add(total, Mul(inp.tokens as real, inp.price));
            && (r.Ok? <==> (inp.history == [] || total <= inp.limit) && cost <= inp.limit)
            && (r.Err? ==> r.error == BudgetExceededError)
            && (r.Ok? ==>
                  && r.value.history == inp.history + [Entry(op, Mul(inp.price, inp.tokens as real), inp.tokens)]
                  && Shows(r.value.snapshot, cost, SumOver(ops, counts) + inp.tokens as real, ops + {op}))
  {
    hide *;
    ReplayedTotals(inp.sessionId, inp.agentType, inp.limit, inp.history, amounts, counts, unit);
    if inp.history == [] { NothingReplays(inp.sessionId, inp.agentType, inp.limit); }
    var (s, o) := Replay(Fresh(inp.sessionId, inp.agentType, inp.limit), inp.history);
    if o == Returned {
      RecordAfterReplay(inp, op, s);
    } else {
      RecordAfterRaise(inp, op);
    }
  }

  lemma {:induction false} RecordAfterRaise(inp: RecordInput, op: string)
    requires inp.taskId != "" && Replay(Fresh(inp.sessionId, inp.agentType, inp.limit), inp.history).1 != Returned
    ensures RecordSpend(inp, op) == Err(BudgetExceededError)
  {
  }

  /** Recording on the rebuilt session. */
  lemma {:induction false} RecordAfterReplay(inp: RecordInput, op: string, s: Session)
    requires inp.taskId != "" && s.alerts == []
    requires Replay(Fresh(inp.sessionId, inp.agentType, inp.limit), inp.history) == (s, Returned)
    ensures var r, amount := RecordSpend(inp, op), Mul(inp.tokens as real, inp.price);
            && (r.Err? ==> r.error == BudgetExceededError)
            && if op in s.applied then
                 r.Ok? && r.value.history == inp.history && Shows(r.value.snapshot, s.cost, s.tokens as real, s.applied)
               else
                 && (r.Ok? <==> Add(s.cost, amount) <= s.limit)
                 && (r.Ok? ==>
                       && r.value.history == inp.history + [Entry(op, Mul(inp.price, inp.tokens as real), inp.tokens)]
                       && Shows(r.value.snapshot, Add(s.cost, amount), s.tokens as real + inp.tokens as real,
                                s.applied + {op}))
  {
    assert inp.history + [] == inp.history;
    SerializedShows(s);
    SerializedShows(SpendTokens(s, inp.tokens, inp.price, Some(op)).0);
    hide Replay, Mul, Add, Shows, Serialize;
  }

  lemma {:induction false} SerializedShows(s: Session)
    ensures s.alerts == [] ==> Shows(Serialize(s), s.cost, s.tokens as real, s.applied)
  {
  }

  lemma {:induction false} OpsOfNothing(history: seq<Entry>)
    ensures history == [] ==> BudgetTheorems.Ops(history) == {}
  {
  }

  // ----- redelivery -----

  /** The price and the product fit the precision, so the entry written for them restores to
      the amount that was debited. */
  ghost predicate Fits(price: real, tokens: int) {
    Representable(price) && Representable(price * tokens as real)
  }

  lemma {:induction false} EntryRestores(op: string, price: real, tokens: int)
    requires Fits(price, tokens)
    ensures Restored(Entry(op, Mul(price, tokens as real), tokens)) == Mul(tokens as real, price)
  {
    if tokens != 0 {
      DivideThenMultiply(price, tokens as real);
    }
  }

  /** What `n` tokens cost at the price recovered from an entry, before rounding. */
  function Recovered(e: Entry): real {
    e.tokens as real * Price(e)
  }

  /** In general an entry restores exactly iff its amount, at the last of the 28 digits of
      tokens times the recovered price, is the number nearest to that product. */
  lemma {:induction false} EntryRestoresIff(e: Entry)
    ensures Restored(e) == e.amount <==>
            if Recovered(e) == 0.0 then e.amount == 0.0
            else
              var place := Magnitude(Abs(Recovered(e))) + 1 - PRECISION;
              exists m :: e.amount == Scaled(m, place) && Nearest(Recovered(e) / Pow10(place), m)
  {
    RestoredIsRound(e);
    hide Price, Recovered, Restored, Mul;
    if Recovered(e) != 0.0 {
      NearestAtPlace(Recovered(e), e.amount);
    }
  }

  /** An entry without tokens restores to nothing, whatever amount it carries. */
  lemma {:induction false} ZeroTokensRestoreNothing(e: Entry)
    requires e.tokens == 0
    ensures Restored(e) == 0.0
    ensures Restored(e) == e.amount <==> e.amount == 0.0
  {
    RestoredIsRound(e);
    assert Recovered(e) == 0.0;
  }

  lemma {:induction false} RestoredIsRound(e: Entry)
    ensures Restored(e) == Round(Recovered(e))
  {
  }

  lemma {:induction false} NearestAtPlace(x: real, a: real)
    requires x != 0.0
    ensures var place := Magnitude(Abs(x)) + 1 - PRECISION;
            Round(x) == a <==> exists m :: a == Scaled(m, place) && Nearest(x / Pow10(place), m)
  {
    var g := Magnitude(Abs(x));
    var place := g + 1 - PRECISION;
    if Round(x) == a {
      RoundAt(x, place);
      RoundIff(x, g, HalfEven(x / Pow10(place)));
    }
    if m :| a == Scaled(m, place) && Nearest(x / Pow10(place), m) {
      RoundIff(x, g, m);
    }
  }

  lemma {:induction false} ReplayAppend(s: Session, history: seq<Entry>, e: Entry)
    ensures var (s1, o) := Replay(s, history);
            Replay(s, history + [e]) ==
            if o != Returned then (s1, o) else SpendTokens(s1, e.tokens, Price(e), Some(e.op))
    decreases |history|
  {
    if history == [] {
      assert ([e])[1..] == [];
    } else {
      assert (history + [e])[1..] == history[1..] + [e];
      ReplayAppend(SpendTokens(s, history[0].tokens, Price(history[0]), Some(history[0].op)).0, history[1..], e);
    }
  }

  /** Replaying the returned history rebuilds the returned snapshot: cost, tokens, ids, alerts. */
  lemma {:induction false} ReturnedHistoryReplays(inp: RecordInput, op: string)
    requires RecordSpend(inp, op).Ok?
    requires Fits(inp.price, inp.tokens)
    ensures var out := RecordSpend(inp, op).value;
            var (s, o) := Replay(Fresh(inp.sessionId, inp.agentType, inp.limit), out.history);
            o == Returned && Serialize(s) == out.snapshot && op in s.applied
  {
    var fresh0 := Fresh(inp.sessionId, inp.agentType, inp.limit);
    var (s, o) := Replay(fresh0, inp.history);
    if op in s.applied {
      assert inp.history + [] == inp.history;
    } else {
      var e := Entry(op, Mul(inp.price, inp.tokens as real), inp.tokens);
      ReplayAppend(fresh0, inp.history, e);
      EntryRestores(op, inp.price, inp.tokens);
    }
  }

  /** Delivering again with the returned history changes nothing: same snapshot, same history. */
  lemma {:induction false} RedeliveryIsStable(inp: RecordInput, op: string)
    requires RecordSpend(inp, op).Ok?
    requires Fits(inp.price, inp.tokens)
    ensures RecordSpend(inp.(history := RecordSpend(inp, op).value.history), op) == RecordSpend(inp, op)
  {
    ReturnedHistoryReplays(inp, op);
    var out := RecordSpend(inp, op).value;
    assert out.history + [] == out.history;
  }

  /** Without that hypothesis redelivery is stable exactly when replaying the new entry debits
      what recording it did: an operation already in the history is never at risk. */
  lemma {:induction false} RedeliveryIsStableIff(inp: RecordInput, op: string)
    requires RecordSpend(inp, op).Ok?
    ensures var s := Replay(Fresh(inp.sessionId, inp.agentType, inp.limit), inp.history).0;
            var entry := Entry(op, Mul(inp.price, inp.tokens as real), inp.tokens);
            var again := RecordSpend(inp.(history := RecordSpend(inp, op).value.history), op);
            again == RecordSpend(inp, op) <==>
            op in s.applied || Add(s.cost, Restored(entry)) == Add(s.cost, Mul(inp.tokens as real, inp.price))
  {
    var fresh0 := Fresh(inp.sessionId, inp.agentType, inp.limit);
    var s := Replay(fresh0, inp.history).0;
    var out := RecordSpend(inp, op).value;
    assert out.history + [] == out.history;
    if op in s.applied {
      assert inp.history + [] == inp.history;
    } else {
      var e := Entry(op, Mul(inp.price, inp.tokens as real), inp.tokens);
      ReplayAppend(fresh0, inp.history, e);
    }
  }

  /** A price of 28 digits whose product does not fit: the same operation, delivered again with
      the history it returned, reports a smaller spend. */
  lemma {:induction false} RedeliveryCanDrift()
    ensures var inp := RecordInput("t", "general", "s", 1.0, 3, THIRD, []);
            && RecordSpend(inp, "op").Ok?
            && RecordSpend(inp, "op").value.snapshot.cost == 1.0
            && var again := RecordSpend(inp.(history := RecordSpend(inp, "op").value.history), "op");
               again.Ok? && again.value.snapshot.cost == 0.9999999999999999999999999999
  {
    ThirdDoesNotComeBack();
    var e := Entry("op", 1.0, 3);
    var fresh0 := Fresh("s", "general", 1.0);
    assert Price(e) == Div(1.0, 3.0);
    ReplayAppend(fresh0, [], e);
    assert [] + [e] == [e];
  }

  /** Each delivery is made with the original history or with one returned earlier. */
  ghost predicate Deliveries(inp: RecordInput, op: string, histories: seq<seq<Entry>>) {
    forall i :: 0 <= i < |histories| ==>
      || histories[i] == inp.history
      || exists j :: 0 <= j < i &&
           RecordSpend(inp.(history := histories[j]), op).Ok? &&
           histories[i] == RecordSpend(inp.(history := histories[j]), op).value.history
  }

  /** Any number of deliveries, each with the old or a returned history, give one answer. */
  lemma {:induction false} AllDeliveriesAgree(inp: RecordInput, op: string, histories: seq<seq<Entry>>, i: nat)
    requires Deliveries(inp, op, histories) && i < |histories|
    requires Fits(inp.price, inp.tokens)
    ensures RecordSpend(inp.(history := histories[i]), op) == RecordSpend(inp, op)
  {
    if histories[i] != inp.history {
      var j :| 0 <= j < i &&
           RecordSpend(inp.(history := histories[j]), op).Ok? &&
           histories[i] == RecordSpend(inp.(history := histories[j]), op).value.history;
      AllDeliveriesAgree(inp, op, histories, j);
      RedeliveryIsStable(inp, op);
    } else {
      assert inp.(history := histories[i]) == inp;
    }
  }

  // ----- a whole ledger written by the activity -----

  datatype Record = Record(op: string, tokens: int, price: real)

  /** Successive activities, each handed the history the previous one returned. */
  function Chain(inp: RecordInput, records: seq<Record>): Result<RecordInput, ActivityError> {
    if records == [] then Ok(inp)
    else
      var n := |records| - 1;
      var before := Chain(inp, records[..n]);
      if before.Err? then before
      else
        var r := RecordSpend(before.value.(tokens := records[n].tokens, price := records[n].price), records[n].op);
        if r.Err? then Err(r.error) else Ok(before.value.(history := r.value.history))
  }

  function CallOf(r: Record): BudgetTheorems.Call {
    BudgetTheorems.RecordTokens(Some(r.op), r.tokens, r.price)
  }

  function Calls(records: seq<Record>): seq<BudgetTheorems.Call> {
    seq(|records|, i requires 0 <= i < |records| => CallOf(records[i]))
  }

  /** The history a chain writes replays to the session that recording the same operations on
      one live session would leave. */
  lemma {:induction false} ChainReplays(inp: RecordInput, records: seq<Record>)
    requires inp.history == [] && inp.taskId != ""
    requires Chain(inp, records).Ok?
    requires forall i :: 0 <= i < |records| ==> Fits(records[i].price, records[i].tokens)
    ensures var end := Chain(inp, records).value;
            && end == inp.(history := end.history)
            && Replay(Fresh(inp.sessionId, inp.agentType, inp.limit), end.history) ==
               (BudgetTheorems.Run(Fresh(inp.sessionId, inp.agentType, inp.limit), Calls(records)).0, Returned)
  {
    if records != [] {
      var n := |records| - 1;
      ChainReplays(inp, records[..n]);
      assert Calls(records)[..n] == Calls(records[..n]);
      ChainStep(Chain(inp, records[..n]).value, records[n]);
      hide RecordSpend, Fits, Replay, BudgetTheorems.Apply;
      var fresh0 := Fresh(inp.sessionId, inp.agentType, inp.limit);
      assert BudgetTheorems.Apply(BudgetTheorems.Run(fresh0, Calls(records[..n])).0, Calls(records)[n]).0 ==
             BudgetTheorems.Run(fresh0, Calls(records)).0;
    }
  }

  /** One more activity: its history replays to what the call leaves on the live session. */
  lemma {:induction false} ChainStep(before: RecordInput, record: Record)
    requires before.taskId != "" && Fits(record.price, record.tokens)
    requires RecordSpend(before.(tokens := record.tokens, price := record.price), record.op).Ok?
    ensures var fresh0 := Fresh(before.sessionId, before.agentType, before.limit);
            var r := RecordSpend(before.(tokens := record.tokens, price := record.price), record.op).value;
            Replay(fresh0, r.history) ==
            (BudgetTheorems.Apply(Replay(fresh0, before.history).0, CallOf(record)).0, Returned)
  {
    var fresh0 := Fresh(before.sessionId, before.agentType, before.limit);
    if record.op in Replay(fresh0, before.history).0.applied {
      assert before.history + [] == before.history;
    } else {
      var e := Entry(record.op, Mul(record.price, record.tokens as real), record.tokens);
      ReplayAppend(fresh0, before.history, e);
      EntryRestores(e.op, record.price, record.tokens);
    }
    hide Fits, Mul, Price;
  }

  /** The unrounded cost of a record. */
  function Cost(r: Record): real {
    r.price * r.tokens as real
  }

  ghost predicate CostsFit(records: seq<Record>, unit: int) {
    forall i :: 0 <= i < |records| ==> Fits(records[i].price, records[i].tokens) && OnGrid(unit, Cost(records[i]))
  }

  lemma {:induction false} DebitsAreCosts(records: seq<Record>, unit: int)
    requires CostsFit(records, unit)
    ensures forall i :: 0 <= i < |records| ==> BudgetTheorems.Debit(Calls(records)[i]) == Cost(records[i])
    ensures BudgetTheorems.DebitsOnGrid(unit, Calls(records))
  {
    hide Mul, Cost, Representable, OnGrid;
    forall i | 0 <= i < |records| ensures BudgetTheorems.Debit(Calls(records)[i]) == Cost(records[i]) {
      CostIsProduct(records[i]);
      DebitIsCost(records[i]);
      CallDebitsMul(records[i]);
    }
  }

  lemma {:induction false} CallDebitsMul(r: Record)
    ensures BudgetTheorems.Debit(CallOf(r)) == Mul(r.tokens as real, r.price)
  {
    hide Mul;
  }

  lemma {:induction false} DebitIsCost(r: Record)
    requires Representable(Cost(r))
    ensures Mul(r.tokens as real, r.price) == Cost(r)
  {
    hide *;
    MulIsRound(r.price, r.tokens as real);
    CostIsProduct(r);
    RoundExact(Cost(r));
  }

  lemma {:induction false} CostIsProduct(r: Record)
    ensures Cost(r) == r.price * r.tokens as real
  {
  }

  /** So a history written by the activity replays to the exact sum of price times tokens over
      its distinct operations, when products and sums fit the precision. */
  lemma {:induction false} ChainTotalIsExact(inp: RecordInput, records: seq<Record>, unit: int)
    requires inp.history == [] && inp.taskId != ""
    requires Chain(inp, records).Ok?
    requires CostsFit(records, unit)
    requires BudgetTheorems.TotalSize(BudgetTheorems.FirstDeliveries(Calls(records))) < Pow10(PRECISION + unit)
    ensures var (s, o) := Replay(Fresh(inp.sessionId, inp.agentType, inp.limit), Chain(inp, records).value.history);
            var firsts := BudgetTheorems.FirstDeliveries(Calls(records));
            && o == Returned
            && s.cost == BudgetTheorems.TotalDebit(firsts)
            && s.tokens == BudgetTheorems.TotalTokens(firsts)
    ensures forall i :: 0 <= i < |records| ==> BudgetTheorems.Debit(Calls(records)[i]) == Cost(records[i])
  {
    ChainReplays(inp, records);
    DebitsAreCosts(records, unit);
    GridZero(unit);
    BudgetTheorems.TotalsAreExact(Fresh(inp.sessionId, inp.agentType, inp.limit), Calls(records), unit);
  }
}

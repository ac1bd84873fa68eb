/** Budget sessions: an idempotent ledger keyed by operation id.

    The functions give the effect of one call on a session value; the classes are the live
    session objects and the registry that updates them in place.
 */
module BudgetLedger {
  import opened Prelude
  import opened DecimalContext
  import Strings

  /** The text of an alert carries the spend and the cap it breached. */
  datatype Alert = Alert(spent: real, limit: real)

  datatype Session = Session(
    id: string,
    agentType: string,
    limit: real,
    tokens: int,
    cost: real,
    alerts: seq<Alert>,
    applied: set<string>)

  /** How a call ends: it returns, or it raises one of two exceptions. */
  datatype Outcome = Returned | BudgetExceeded | NoSession

  function Fresh(id: string, agentType: string, limit: real): Session {
    Session(id, agentType, limit, 0, 0.0, [], {})
  }

  predicate IsDuplicate(s: Session, op: Option<string>) {
    op.Some? && op.value in s.applied
  }

  function Mark(applied: set<string>, op: Option<string>): set<string> {
    if op.Some? then applied + {op.value} else applied
  }

  /** `record_spend`: the debit and the key are kept even when the cap is breached. */
  function Spend(s: Session, amount: real, op: Option<string>): (Session, Outcome) {
    if IsDuplicate(s, op) then (s, Returned)
    else
      var cost := Add(s.cost, amount);
      var debited := s.(cost := cost, applied := Mark(s.applied, op));
      if cost > s.limit then (debited.(alerts := s.alerts + [Alert(cost, s.limit)]), BudgetExceeded)
      else (debited, Returned)
  }

  /** `record_tokens` */
  function SpendTokens(s: Session, tokens: int, price: real, op: Option<string>): (Session, Outcome) {
    if IsDuplicate(s, op) then (s, Returned)
    else Spend(s.(tokens := s.tokens + tokens), Mul(tokens as real, price), op)
  }

  /** `check_budget` */
  function CheckBudget(s: Session): Outcome {
    if s.cost >= s.limit then BudgetExceeded else Returned
  }

  // ----- histories -----

  datatype Entry = Entry(op: string, amount: real, tokens: int)

  /** `_resolve_cost_per_token` */
  function Price(e: Entry): real {
    if e.tokens == 0 then 0.0 else Div(e.amount, e.tokens as real)
  }

  /** What replaying an entry debits. */
  function Restored(e: Entry): real {
    Mul(e.tokens as real, Price(e))
  }

  /** The replay loop of `restore_from_history`: it stops at the first entry that raises. */
  function Replay(s: Session, history: seq<Entry>): (Session, Outcome)
    decreases |history|
  {
    if history == [] then (s, Returned)
    else
      var (s1, o) := SpendTokens(s, history[0].tokens, Price(history[0]), Some(history[0].op));
      if o != Returned then (s1, o) else Replay(s1, history[1..])
  }

  // ----- snapshots -----

  /** A serialized session; the id set travels as a sorted list. */
  datatype Snapshot = Snapshot(
    id: string,
    agentType: string,
    limit: real,
    tokens: int,
    cost: real,
    alerts: seq<Alert>,
    appliedIds: seq<string>)

  function Serialize(s: Session): Snapshot {
    Snapshot(s.id, s.agentType, s.limit, s.tokens, s.cost, s.alerts, Strings.Sorted(s.applied))
  }

  function Deserialize(n: Snapshot): Session {
    Session(n.id, n.agentType, n.limit, n.tokens, n.cost, n.alerts, set x | x in n.appliedIds)
  }

  // ----- live objects -----

  class BudgetSession {
    const id: string
    const agentType: string
    const limit: real
    var tokens: int
    var cost: real
    var alerts: seq<Alert>
    var applied: set<string>

    constructor (s: Session)
      ensures State() == s
    {
      id, agentType, limit := s.id, s.agentType, s.limit;
      tokens, cost, alerts, applied := s.tokens, s.cost, s.alerts, s.applied;
    }

    function State(): Session
      reads this
    {
      Session(id, agentType, limit, tokens, cost, alerts, applied)
    }
  }

  class BudgetEnforcer {
    var sessions: map<string, BudgetSession>

    constructor ()
      ensures sessions == map[]
    {
      sessions := map[];
    }

    /** Every session is registered under its own id. */
    ghost predicate Valid()
      reads this
    {
      forall k :: k in sessions ==> sessions[k].id == k
    }

    method CreateSession(id: string, agentType: string, limit: real) returns (s: BudgetSession)
      requires Valid()
      modifies this
      ensures Valid() && fresh(s)
      ensures s.State() == Fresh(id, agentType, limit)
      ensures sessions == old(sessions)[id := s]
    {
      s := new BudgetSession(Fresh(id, agentType, limit));
      sessions := sessions[id := s];
    }

    method RecordSpend(id: string, amount: real, op: Option<string>) returns (o: Outcome)
      requires Valid()
      modifies if id in sessions then {sessions[id]} else {}
      ensures Valid() && sessions == old(sessions)
      ensures id !in sessions ==> o == NoSession
      ensures id in sessions ==>
                (sessions[id].State(), o) == Spend(old(sessions[id].State()), amount, op)
    {
      if id !in sessions { return NoSession; }
      var s := sessions[id];
      if op.Some? && op.value in s.applied { return Returned; }
      s.cost := Add(s.cost, amount);
      if op.Some? { s.applied := s.applied + {op.value}; }
      if s.cost > s.limit {
        s.alerts := s.alerts + [Alert(s.cost, s.limit)];
        return BudgetExceeded;
      }
      return Returned;
    }

    method RecordTokens(id: string, tokens: int, price: real, op: Option<string>) returns (o: Outcome)
      requires Valid()
      modifies if id in sessions then {sessions[id]} else {}
      ensures Valid() && sessions == old(sessions)
      ensures id !in sessions ==> o == NoSession
      ensures id in sessions ==>
                (sessions[id].State(), o) == SpendTokens(old(sessions[id].State()), tokens, price, op)
    {
      if id !in sessions { return NoSession; }
      var s := sessions[id];
      if op.Some? && op.value in s.applied { return Returned; }
      s.tokens := s.tokens + tokens;
      o := RecordSpend(id, Mul(tokens as real, price), op);
    }

    method Check(id: string) returns (o: Outcome)
      requires Valid()
      ensures o == if id in sessions then CheckBudget(sessions[id].State()) else NoSession
    {
      if id !in sessions { return NoSession; }
      o := if sessions[id].cost >= sessions[id].limit then BudgetExceeded else Returned;
    }

    /** Registers a new session first, then replays into it; a raise leaves it registered. */
    method RestoreFromHistory(id: string, agentType: string, limit: real, history: seq<Entry>)
      returns (s: BudgetSession, o: Outcome)
      requires Valid()
      modifies this
      ensures Valid() && fresh(s) && sessions == old(sessions)[id := s]
      ensures (s.State(), o) == Replay(Fresh(id, agentType, limit), history)
    {
      s := new BudgetSession(Fresh(id, agentType, limit));
      sessions := sessions[id := s];
      o := Returned;
      var i := 0;
      while i < |history|
        invariant 0 <= i <= |history|
        invariant Valid() && fresh(s) && sessions == old(sessions)[id := s]
        invariant o == Returned
        invariant Replay(s.State(), history[i..]) == Replay(Fresh(id, agentType, limit), history)
      {
        var e := history[i];
        assert history[i..][0] == e && history[i..][1..] == history[i + 1..];
        o := RecordTokens(id, e.tokens, Price(e), Some(e.op));
        if o != Returned { return; }
        i := i + 1;
      }
    }

    method RestoreSession(snapshot: Snapshot) returns (s: BudgetSession)
      requires Valid()
      modifies this
      ensures Valid() && fresh(s) && sessions == old(sessions)[snapshot.id := s]
      ensures s.State() == Deserialize(snapshot)
    {
      s := new BudgetSession(Deserialize(snapshot));
      sessions := sessions[s.id := s];
    }
  }
}

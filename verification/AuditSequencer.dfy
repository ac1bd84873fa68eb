/** The audit logger's per-task sequencer: gapless numbers and clamped clocks under a lock. */
module AuditSequencer {
  import opened Prelude
  import Strings
  import Timestamps

  /** A task-scoped event about to be numbered: the reading it carries and whether the caller
      imposed that reading. */
  datatype Request = Request(task: string, time: int, imposed: bool)

  datatype Kind = Event | SkewWarning(attempted: int)

  datatype Record = Record(task: string, number: nat, time: int, kind: Kind)

  datatype Reservation = Reservation(number: nat, time: int, warning: Option<Record>)

  datatype Sequencer = Sequencer(counters: map<string, nat>, last: map<string, int>)

  const EMPTY := Sequencer(map[], map[])

  function Counter(s: Sequencer, task: string): nat {
    if task in s.counters then s.counters[task] else 0
  }

  predicate Behind(s: Sequencer, r: Request) {
    r.task in s.last && r.time < s.last[r.task]
  }

  /** Reserving: an imposed reading behind the last one is refused; a clock reading behind it
      is clamped and takes a warning number first. */
  function Reserve(s: Sequencer, r: Request): (Sequencer, Option<Reservation>) {
    if Behind(s, r) && r.imposed then (s, None)
    else
      var n := Counter(s, r.task);
      var time := if Behind(s, r) then s.last[r.task] else r.time;
      var m := if Behind(s, r) then n + 1 else n;
      var warning := if Behind(s, r) then Some(Record(r.task, n, time, SkewWarning(r.time))) else None;
      (Sequencer(s.counters[r.task := m + 1], s.last[r.task := time]), Some(Reservation(m, time, warning)))
  }

  /** What the caller then emits, outside the lock. */
  function Emitted(r: Request, res: Option<Reservation>): seq<Record> {
    if res.None? then []
    else
      (if res.value.warning.Some? then [res.value.warning.value] else []) +
      [Record(r.task, res.value.number, res.value.time, Event)]
  }

  class AuditLogger {
    var counters: map<string, nat>
    var lastTimestamps: map<string, int>

    constructor ()
      ensures State() == EMPTY
    {
      counters, lastTimestamps := map[], map[];
    }

    function State(): Sequencer
      reads this
    {
      Sequencer(counters, lastTimestamps)
    }

    /** `_reserve_task_event_metadata`; `None` is the `AuditOrderingError`. */
    method ReserveMetadata(task: string, override: Option<Timestamps.DateTime>, clock: Timestamps.DateTime)
      returns (r: Option<Reservation>)
      modifies this
      ensures var reading := if override.Some? then override.value else clock;
              (State(), r) == Reserve(old(State()), Request(task, Timestamps.Instant(reading), override.Some?))
    {
      var candidate := Timestamps.Instant(if override.Some? then override.value else clock);
      var previous := if task in lastTimestamps then Some(lastTimestamps[task]) else None;
      if override.Some? && previous.Some? && candidate < previous.value { return None; }
      var warning := None;
      var effective := candidate;
      if override.None? && previous.Some? && candidate < previous.value {
        var number := if task in counters then counters[task] else 0;
        counters := counters[task := number + 1];
        effective := previous.value;
        warning := Some(Record(task, number, effective, SkewWarning(candidate)));
      }
      var number := if task in counters then counters[task] else 0;
      counters := counters[task := number + 1];
      lastTimestamps := lastTimestamps[task := effective];
      assert counters == old(counters)[task := number + 1];
      return Some(Reservation(number, effective, warning));
    }
  }

  // ----- runs: the order in which threads and tasks take the lock -----

  /** The sequencer and the records after a run of reservations. */
  function Run(requests: seq<Request>): (Sequencer, seq<Record>) {
    if requests == [] then (EMPTY, [])
    else
      var n := |requests| - 1;
      var (s, records) := Run(requests[..n]);
      var (s', res) := Reserve(s, requests[n]);
      (s', records + Emitted(requests[n], res))
  }

  function Trail(records: seq<Record>, task: string): seq<Record> {
    if records == [] then []
    else
      var n := |records| - 1;
      Trail(records[..n], task) + if records[n].task == task then [records[n]] else []
  }

  function Mine(requests: seq<Request>, task: string): seq<Request> {
    if requests == [] then []
    else
      var n := |requests| - 1;
      Mine(requests[..n], task) + if requests[n].task == task then [requests[n]] else []
  }

  lemma {:induction false} TrailConcat(a: seq<Record>, b: seq<Record>, task: string)
    ensures Trail(a + b, task) == Trail(a, task) + Trail(b, task)
  {
    if b == [] {
      assert a + b == a;
    } else {
      assert (a + b)[..|a + b| - 1] == a + b[..|b| - 1];
      TrailConcat(a, b[..|b| - 1], task);
    }
  }

  lemma {:induction false} TrailOfEmitted(r: Request, res: Option<Reservation>, task: string)
    requires res.Some? && res.value.warning.Some? ==> res.value.warning.value.task == r.task
    ensures Trail(Emitted(r, res), task) == if r.task == task then Emitted(r, res) else []
  {
    var e := Emitted(r, res);
    if |e| == 1 {
      assert e[..0] == [];
    } else if |e| == 2 {
      assert e[..1][..0] == [] && e[..1] == [e[0]];
      assert Trail(e[..1], task) == if r.task == task then [e[0]] else [];
      assert e == [e[0]] + [e[1]];
    }
  }

  predicate AgreeOn(a: Sequencer, b: Sequencer, task: string) {
    && Counter(a, task) == Counter(b, task)
    && (task in a.last <==> task in b.last)
    && (task in a.last ==> a.last[task] == b.last[task])
  }

  lemma {:induction false} StepProjects(a: Sequencer, b: Sequencer, r: Request, task: string)
    requires AgreeOn(a, b, task)
    ensures r.task == task ==> Reserve(a, r).1 == Reserve(b, r).1 && AgreeOn(Reserve(a, r).0, Reserve(b, r).0, task)
    ensures r.task != task ==> AgreeOn(Reserve(a, r).0, b, task)
    ensures Reserve(a, r).1.Some? && Reserve(a, r).1.value.warning.Some? ==>
              Reserve(a, r).1.value.warning.value.task == r.task
  {
  }

  /** A log and the run of one task alone show the same trail and the same counters for it. */
  ghost predicate SameTrail(all: (Sequencer, seq<Record>), own: (Sequencer, seq<Record>), task: string) {
    Trail(all.1, task) == own.1 && Trail(own.1, task) == own.1 && AgreeOn(all.0, own.0, task)
  }

  function ReserveAndEmit(log: (Sequencer, seq<Record>), r: Request): (Sequencer, seq<Record>) {
    var (s, res) := Reserve(log.0, r);
    (s, log.1 + Emitted(r, res))
  }

  /** One reservation extends the log and the run of its own task alike. */
  lemma {:induction false} StepIsIndependent(
    all: (Sequencer, seq<Record>), own: (Sequencer, seq<Record>), r: Request, task: string)
    requires SameTrail(all, own, task)
    ensures SameTrail(ReserveAndEmit(all, r), if r.task == task then ReserveAndEmit(own, r) else own, task)
  {
    StepProjects(all.0, own.0, r, task);
    var emitted := Emitted(r, Reserve(all.0, r).1);
    TrailConcat(all.1, emitted, task);
    TrailConcat(own.1, emitted, task);
    TrailOfEmitted(r, Reserve(all.0, r).1, task);
    hide Reserve, Emitted, Trail, AgreeOn;
  }

  lemma {:induction false} RunLast(requests: seq<Request>)
    requires requests != []
    ensures Run(requests) == ReserveAndEmit(Run(requests[..|requests| - 1]), requests[|requests| - 1])
  {
  }

  lemma {:induction false} RunOfMine(requests: seq<Request>, task: string)
    requires requests != []
    ensures var (before, r) := (Mine(requests[..|requests| - 1], task), requests[|requests| - 1]);
            Run(Mine(requests, task)) == if r.task == task then ReserveAndEmit(Run(before), r) else Run(before)
  {
    var before, r := Mine(requests[..|requests| - 1], task), requests[|requests| - 1];
    if r.task == task {
      assert Mine(requests, task) == before + [r];
      RunLast(before + [r]);
      assert (before + [r])[..|before|] == before;
    } else {
      assert Mine(requests, task) == before;
    }
    hide Run, ReserveAndEmit;
  }

  /** Each task's trail is the one it would have alone, however tasks and threads interleave. */
  lemma {:induction false} TasksAreIndependent(requests: seq<Request>, task: string)
    ensures SameTrail(Run(requests), Run(Mine(requests, task)), task)
  {
    if requests != [] {
      hide SameTrail, ReserveAndEmit, Run, Mine;
      var n := |requests| - 1;
      TasksAreIndependent(requests[..n], task);
      StepIsIndependent(Run(requests[..n]), Run(Mine(requests[..n], task)), requests[n], task);
      RunLast(requests);
      RunOfMine(requests, task);
    }
  }

  // ----- one task's trail -----

  predicate SameTask(requests: seq<Request>) {
    forall i, j :: 0 <= i < j < |requests| ==> requests[i].task == requests[j].task
  }

  /** The latest reading among all requests, refused ones included. */
  function Latest(requests: seq<Request>): int
    requires requests != []
  {
    var n := |requests| - 1;
    if n == 0 then requests[0].time
    else if requests[n].time > Latest(requests[..n]) then requests[n].time
    else Latest(requests[..n])
  }

  predicate Late(requests: seq<Request>) {
    |requests| > 1 && requests[|requests| - 1].time < Latest(requests[..|requests| - 1])
  }

  lemma {:induction false} LatestIsMaximum(requests: seq<Request>)
    requires requests != []
    ensures forall i :: 0 <= i < |requests| ==> requests[i].time <= Latest(requests)
    ensures exists i :: 0 <= i < |requests| && requests[i].time == Latest(requests)
  {
    var n := |requests| - 1;
    assert requests[n].time <= Latest(requests);
    if n > 0 {
      LatestIsMaximum(requests[..n]);
      var i :| 0 <= i < n && requests[..n][i].time == Latest(requests[..n]);
      assert requests[i].time == Latest(requests[..n]);
      forall j | 0 <= j < n ensures requests[j].time <= Latest(requests) {
        assert requests[..n][j].time <= Latest(requests[..n]);
      }
    }
  }

  /** What the last of a task's requests adds: nothing if it imposed a late reading; otherwise an
      event stamped with the running maximum, preceded by a warning if the clock ran behind. */
  function LastAdds(requests: seq<Request>, number: nat): seq<Record>
    requires requests != []
  {
    var r := requests[|requests| - 1];
    var latest := Latest(requests);
    if !Late(requests) then [Record(r.task, number, latest, Event)]
    else if r.imposed then []
    else [Record(r.task, number, latest, SkewWarning(r.time)), Record(r.task, number + 1, latest, Event)]
  }

  function ExpectedTrail(requests: seq<Request>): seq<Record> {
    if requests == [] then []
    else
      var before := ExpectedTrail(requests[..|requests| - 1]);
      before + LastAdds(requests, |before|)
  }

  /** The counter is the length of the trail and the last timestamp is the latest reading. */
  ghost predicate InStep(s: Sequencer, requests: seq<Request>) {
    if requests == [] then s == EMPTY
    else
      var task := requests[0].task;
      Counter(s, task) == |ExpectedTrail(requests)| && task in s.last && s.last[task] == Latest(requests)
  }

  lemma {:induction false} ReserveKeepsStep(s: Sequencer, requests: seq<Request>)
    requires requests != [] && InStep(s, requests[..|requests| - 1])
    requires requests[|requests| - 1].task == requests[0].task
    ensures var r := requests[|requests| - 1];
            var (s', res) := Reserve(s, r);
            && Emitted(r, res) == LastAdds(requests, |ExpectedTrail(requests[..|requests| - 1])|)
            && InStep(s', requests)
  {
  }

  /** So the trail is exactly the expected one. */
  lemma {:induction false} TrailIsExpected(requests: seq<Request>)
    requires SameTask(requests)
    ensures Run(requests).1 == ExpectedTrail(requests)
    ensures InStep(Run(requests).0, requests)
  {
    if requests != [] {
      var n := |requests| - 1;
      TrailIsExpected(requests[..n]);
      ReserveKeepsStep(Run(requests[..n]).0, requests);
      hide Reserve, Emitted, LastAdds, InStep, SameTask;
    }
  }

  /** Numbers are 0, 1, 2, ... without gap or repeat, and times never go back along them. */
  lemma {:induction false} TrailIsGapless(requests: seq<Request>)
    ensures forall i :: 0 <= i < |ExpectedTrail(requests)| ==> ExpectedTrail(requests)[i].number == i
    ensures requests != [] ==>
              forall i :: 0 <= i < |ExpectedTrail(requests)| ==> ExpectedTrail(requests)[i].time <= Latest(requests)
    ensures forall i, j :: 0 <= i < j < |ExpectedTrail(requests)| ==>
              ExpectedTrail(requests)[i].time <= ExpectedTrail(requests)[j].time
  {
    if requests != [] {
      var n := |requests| - 1;
      TrailIsGapless(requests[..n]);
      var before, after := ExpectedTrail(requests[..n]), ExpectedTrail(requests);
      forall i | 0 <= i < |after| ensures after[i].time <= Latest(requests) {
        if i < |before| { assert after[i] == before[i]; }
      }
    }
  }

  /** For every interleaving, a task's trail is numbered 0..n-1, carries the running maximum of
      its readings and depends on its own requests only. */
  lemma {:induction false} TrailsAreSequenced(requests: seq<Request>, task: string)
    ensures var trail := Trail(Run(requests).1, task);
            && trail == ExpectedTrail(Mine(requests, task))
            && (forall i :: 0 <= i < |trail| ==> trail[i].number == i)
            && (forall i, j :: 0 <= i < j < |trail| ==> trail[i].time <= trail[j].time)
  {
    MineIsSameTask(requests, task);
    TasksAreIndependent(requests, task);
    TrailIsExpected(Mine(requests, task));
    TrailIsGapless(Mine(requests, task));
  }

  lemma {:induction false} MineIsSameTask(requests: seq<Request>, task: string)
    ensures forall i :: 0 <= i < |Mine(requests, task)| ==> Mine(requests, task)[i].task == task
    ensures SameTask(Mine(requests, task))
  {
    if requests != [] { MineIsSameTask(requests[..|requests| - 1], task); }
  }

  // ----- emission happens outside the lock -----

  lemma {:induction false} IncreasingFromBelow(out: seq<Record>, i: nat)
    requires i < |out|
    requires forall a, b :: 0 <= a < b < |out| ==> out[a].number < out[b].number
    ensures out[i].number >= i
  {
    if i > 0 { IncreasingFromBelow(out, i - 1); }
  }

  lemma {:induction false} IncreasingFromAbove(out: seq<Record>, i: nat)
    requires i < |out|
    requires forall a, b :: 0 <= a < b < |out| ==> out[a].number < out[b].number
    requires forall a :: 0 <= a < |out| ==> out[a].number < |out|
    ensures out[i].number <= i
    decreases |out| - i
  {
    if i + 1 < |out| { IncreasingFromAbove(out, i + 1); }
  }

  /** Records numbered 0..n-1 are recovered from any shuffle of them by sorting on the number. */
  lemma {:induction false} SortingIsUnique(trail: seq<Record>, out: seq<Record>)
    requires forall i :: 0 <= i < |trail| ==> trail[i].number == i
    requires multiset(out) == multiset(trail)
    requires forall i, j :: 0 <= i < j < |out| ==> out[i].number < out[j].number
    ensures out == trail
  {
    assert |multiset(out)| == |out| && |multiset(trail)| == |trail|;
    forall i | 0 <= i < |out| ensures out[i] in trail {
      assert out[i] in multiset(out);
      assert out[i] in multiset(trail);
    }
    forall i | 0 <= i < |out| ensures out[i] == trail[i] {
      IncreasingFromBelow(out, i);
      IncreasingFromAbove(out, i);
    }
  }

  /** Whatever order a task's records reach the log in, sorting them by number gives back the
      order of reservation; and their formatted timestamps are then in string order. */
  lemma {:induction false} SortingRecoversTheTrail(requests: seq<Request>, task: string, out: seq<Record>)
    requires multiset(out) == multiset(Trail(Run(requests).1, task))
    requires forall i, j :: 0 <= i < j < |out| ==> out[i].number < out[j].number
    ensures out == Trail(Run(requests).1, task)
    ensures forall i, j :: 0 <= i < j < |out| && Timestamps.InRange(out[i].time) && Timestamps.InRange(out[j].time) ==>
              Strings.AtMost(Timestamps.Format(out[i].time), Timestamps.Format(out[j].time))
  {
    hide Run, Trail, Timestamps.InRange, Timestamps.Format;
    TrailsAreSequenced(requests, task);
    SortingIsUnique(Trail(Run(requests).1, task), out);
    forall i, j | 0 <= i < j < |out| && Timestamps.InRange(out[i].time) && Timestamps.InRange(out[j].time)
      ensures Strings.AtMost(Timestamps.Format(out[i].time), Timestamps.Format(out[j].time))
    {
      Timestamps.FormatOrder(out[i].time, out[j].time);
    }
  }
}

/** Dictionaries whose entries expire, and the in-memory store of used DPoP proof ids. */
module ReplayStore {
  /** The entries that have not expired at `now`. */
  function Purged(entries: map<string, real>, now: real): map<string, real> {
    map k | k in entries && entries[k] > now :: entries[k]
  }

  /** The purge loop: collect the expired keys, then drop them one by one. */
  method Purge(entries: map<string, real>, now: real) returns (left: map<string, real>)
    ensures left == Purged(entries, now)
  {
    left := entries;
    var expired := set k | k in entries && entries[k] <= now;
    while expired != {}
      invariant left.Keys <= entries.Keys
      invariant forall k :: k in left ==> left[k] == entries[k]
      invariant forall k :: k in entries && entries[k] > now ==> k in left
      invariant forall k :: k in left && left[k] <= now ==> k in expired
      invariant forall k :: k in expired ==> k in entries && entries[k] <= now
      decreases expired
    {
      var k :| k in expired;
      left := left - {k};
      expired := expired - {k};
    }
    assert left.Keys == Purged(entries, now).Keys;
  }

  /** `register_if_unused` */
  function Register(entries: map<string, real>, jti: string, ttl: int, now: real): (map<string, real>, bool) {
    var kept := Purged(entries, now);
    if jti in kept then (kept, false) else (kept[jti := now + ttl as real], true)
  }

  class InMemoryStore {
    var entries: map<string, real>

    constructor ()
      ensures entries == map[]
    {
      entries := map[];
    }

    method RegisterIfUnused(jti: string, ttl: int, now: real) returns (unused: bool)
      modifies this
      ensures (entries, unused) == Register(old(entries), jti, ttl, now)
    {
      entries := Purge(entries, now);
      if jti in entries { return false; }
      entries := entries[jti := now + ttl as real];
      return true;
    }
  }

  // ----- the store agrees with its history -----

  datatype Attempt = Attempt(jti: string, ttl: int, now: real)

  function Deadline(a: Attempt): real {
    a.now + a.ttl as real
  }

  function Run(entries: map<string, real>, attempts: seq<Attempt>): (r: (map<string, real>, seq<bool>))
    ensures |r.1| == |attempts|
  {
    if attempts == [] then (entries, [])
    else
      var n := |attempts| - 1;
      var (e, oks) := Run(entries, attempts[..n]);
      var (e', ok) := Register(e, attempts[n].jti, attempts[n].ttl, attempts[n].now);
      (e', oks + [ok])
  }

  ghost predicate Ordered(attempts: seq<Attempt>) {
    forall i, j :: 0 <= i < j < |attempts| ==> attempts[i].now <= attempts[j].now
  }

  /** An earlier registration of the same id is still in force when `attempts[i]` is made. */
  ghost predicate Blocked(attempts: seq<Attempt>, oks: seq<bool>, i: nat)
    requires i < |attempts| && |oks| == |attempts|
  {
    exists j :: 0 <= j < i && oks[j] && attempts[j].jti == attempts[i].jti && Deadline(attempts[j]) > attempts[i].now
  }

  /** Entries are deadlines of registrations, and every deadline still ahead is an entry. */
  ghost predicate Tracks(entries: map<string, real>, attempts: seq<Attempt>, oks: seq<bool>, now: real)
    requires |oks| == |attempts|
  {
    && (forall k :: k in entries ==>
          exists j :: 0 <= j < |attempts| && oks[j] && attempts[j].jti == k && Deadline(attempts[j]) == entries[k])
    && (forall j :: 0 <= j < |attempts| && oks[j] && Deadline(attempts[j]) > now ==>
          attempts[j].jti in entries && entries[attempts[j].jti] == Deadline(attempts[j]))
  }

  lemma {:induction false} RegisterTracks(
    entries: map<string, real>, attempts: seq<Attempt>, oks: seq<bool>, now: real, a: Attempt)
    requires |oks| == |attempts| && Tracks(entries, attempts, oks, now) && now <= a.now
    ensures var (e, ok) := Register(entries, a.jti, a.ttl, a.now);
            && (ok <==> !Blocked(attempts + [a], oks + [ok], |attempts|))
            && Tracks(e, attempts + [a], oks + [ok], a.now)
  {
    var (e, ok) := Register(entries, a.jti, a.ttl, a.now);
    var all, all' := attempts + [a], oks + [ok];
    var n := |attempts|;
    assert all[n] == a && all'[n] == ok;
    forall k | k in e
      ensures exists j :: 0 <= j < |all| && all'[j] && all[j].jti == k && Deadline(all[j]) == e[k]
    {
      if k == a.jti && ok {
        assert all'[n] && all[n].jti == k && Deadline(all[n]) == e[k];
      } else {
        var j :| 0 <= j < n && oks[j] && attempts[j].jti == k && Deadline(attempts[j]) == entries[k];
        assert all'[j] && all[j].jti == k && Deadline(all[j]) == e[k];
      }
    }
    if a.jti in Purged(entries, a.now) {
      var j :| 0 <= j < n && oks[j] && attempts[j].jti == a.jti && Deadline(attempts[j]) == entries[a.jti];
      assert all'[j] && all[j].jti == a.jti && Deadline(all[j]) > a.now;
    }
    if Blocked(all, all', n) {
      var j :| 0 <= j < n && all'[j] && all[j].jti == a.jti && Deadline(all[j]) > a.now;
      assert oks[j] && attempts[j].jti == a.jti && Deadline(attempts[j]) > now;
    }
  }

  lemma {:induction false} RunTracks(attempts: seq<Attempt>, now: real)
    requires Ordered(attempts) && (attempts != [] ==> attempts[|attempts| - 1].now <= now)
    ensures Tracks(Run(map[], attempts).0, attempts, Run(map[], attempts).1, now)
  {
    if attempts != [] {
      var n := |attempts| - 1;
      RunTracks(attempts[..n], attempts[n].now);
      var (e, oks) := Run(map[], attempts[..n]);
      RegisterTracks(e, attempts[..n], oks, attempts[n].now, attempts[n]);
      assert attempts == attempts[..n] + [attempts[n]];
      hide Register, Tracks, Blocked;
      TracksLater(Run(map[], attempts).0, attempts, Run(map[], attempts).1, attempts[n].now, now);
    }
  }

  lemma {:induction false} TracksLater(
    entries: map<string, real>, attempts: seq<Attempt>, oks: seq<bool>, now: real, later: real)
    requires |oks| == |attempts| && Tracks(entries, attempts, oks, now) && now <= later
    ensures Tracks(entries, attempts, oks, later)
  {
  }

  /** Over any run on one non-decreasing clock, an id is accepted exactly when no earlier accepted
      registration of it is still within its lifetime. */
  lemma {:induction false} AcceptedIffNotBlocked(attempts: seq<Attempt>, i: nat)
    requires Ordered(attempts) && i < |attempts|
    ensures var oks := Run(map[], attempts).1;
            oks[i] <==> !Blocked(attempts, oks, i)
  {
    var n := |attempts| - 1;
    var oks := Run(map[], attempts).1;
    var (e, before) := Run(map[], attempts[..n]);
    assert oks[..n] == before;
    if i < n {
      AcceptedIffNotBlocked(attempts[..n], i);
      BlockedPrefix(attempts, oks, n, i);
    } else {
      RunTracks(attempts[..n], attempts[n].now);
      RegisterTracks(e, attempts[..n], before, attempts[n].now, attempts[n]);
      assert attempts == attempts[..n] + [attempts[n]];
    }
  }

  lemma {:induction false} BlockedPrefix(attempts: seq<Attempt>, oks: seq<bool>, n: nat, i: nat)
    requires |oks| == |attempts| && i < n <= |attempts|
    ensures Blocked(attempts[..n], oks[..n], i) <==> Blocked(attempts, oks, i)
  {
    if Blocked(attempts, oks, i) {
      var j :| 0 <= j < i && oks[j] && attempts[j].jti == attempts[i].jti && Deadline(attempts[j]) > attempts[i].now;
      assert oks[..n][j] && attempts[..n][j].jti == attempts[..n][i].jti;
    }
  }
}

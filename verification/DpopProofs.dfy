/** Validating DPoP proofs: the checks of section 4.3 of RFC 9449, then replay protection as in
    its section 11.1.  Signatures and hashes are abstract. */
module DpopProofs {
  import opened Prelude
  import RS = ReplayStore

  datatype Claims = Claims(jti: string, htm: string, htu: string, iat: int, ath: Option<string>, nonce: Option<string>)

  /** The key embedded in a proof's header. */
  datatype HeaderKey = NoKey | UnsupportedKey | PublicKey(thumbprint: string)

  /** A presented proof: the header it decodes to, whether its signature verifies under the
      embedded key, and its claims if they have the required shape. */
  datatype Proof =
    | Unreadable
    | Proof(typ: string, key: HeaderKey, verifies: bool, claims: Option<Claims>)

  /** What the proof is presented for; `ath` is the hash of the access token, if one is given. */
  datatype Target = Target(htm: string, htu: string, ath: Option<string>, nonce: Option<string>)

  datatype Settings = Settings(ttl: int, skew: int)

  datatype ProofError =
    | BadHeader | BadType | MissingKey | BadKey | BadSignature | BadClaims
    | MethodMismatch | UrlMismatch | OutsideWindow | NonceMismatch | TokenMismatch
    | Replayed

  function Upper(s: string): string {
    seq(|s|, i requires 0 <= i < |s| => if 'a' <= s[i] <= 'z' then s[i] - 'a' + 'A' else s[i])
  }

  /** Every check made before the replay store is touched. */
  function Screen(cfg: Settings, p: Proof, t: Target, now: real): Result<Claims, ProofError> {
    if p.Unreadable? then Err(BadHeader)
    else if p.typ != "dpop+jwt" then Err(BadType)
    else if p.key.NoKey? then Err(MissingKey)
    else if p.key.UnsupportedKey? then Err(BadKey)
    else if !p.verifies then Err(BadSignature)
    else if p.claims.None? then Err(BadClaims)
    else
      var c := p.claims.value;
      if Upper(c.htm) != Upper(t.htm) then Err(MethodMismatch)
      else if c.htu != t.htu then Err(UrlMismatch)
      else if (c.iat as real) < now - cfg.ttl as real || c.iat as real > now + cfg.skew as real then Err(OutsideWindow)
      else if t.nonce.Some? && c.nonce != t.nonce then Err(NonceMismatch)
      else if t.ath.Some? && c.ath != t.ath then Err(TokenMismatch)
      else Ok(c)
  }

  /** `validate_dpop_proof` */
  function Validate(cfg: Settings, store: map<string, real>, p: Proof, t: Target, now: real)
    : (map<string, real>, Result<Claims, ProofError>)
  {
    var screened := Screen(cfg, p, t, now);
    if screened.Err? then (store, screened)
    else
      var (store', unused) := RS.Register(store, screened.value.jti, cfg.ttl, now);
      if unused then (store', screened) else (store', Err(Replayed))
  }

  method ValidateDpopProof(store: RS.InMemoryStore, cfg: Settings, p: Proof, t: Target, now: real)
    returns (r: Result<Claims, ProofError>)
    modifies store
    ensures (store.entries, r) == Validate(cfg, old(store.entries), p, t, now)
  {
    r := Screen(cfg, p, t, now);
    if r.Err? { return; }
    var unused := store.RegisterIfUnused(r.value.jti, cfg.ttl, now);
    if !unused { r := Err(Replayed); }
  }

  // ----- what is accepted -----

  /** Two characters are one letter up to case, or equal. */
  predicate SameLetter(x: char, y: char) {
    || x == y
    || ('a' <= x <= 'z' && y as int == x as int - 32)
    || ('a' <= y <= 'z' && x as int == y as int - 32)
  }

  predicate SameIgnoringCase(a: string, b: string) {
    |a| == |b| && forall i :: 0 <= i < |a| ==> SameLetter(a[i], b[i])
  }

  lemma {:induction false} UpperIgnoresCase(a: string, b: string)
    ensures Upper(a) == Upper(b) <==> SameIgnoringCase(a, b)
  {
    if Upper(a) == Upper(b) {
      assert |a| == |Upper(a)| == |b|;
      forall i | 0 <= i < |a| ensures SameLetter(a[i], b[i]) { assert Upper(a)[i] == Upper(b)[i]; }
    }
  }

  /** One requirement on a presented proof and the error reported when it is the first to fail. */
  datatype Requirement = Requirement(met: bool, error: ProofError)

  /** The requirements in the order they are checked, the replay store last. */
  function Requirements(cfg: Settings, store: map<string, real>, p: Proof, t: Target, now: real): seq<Requirement> {
    if p.Unreadable? then [Requirement(false, BadHeader)]
    else if p.claims.None? then Signed(p) + [Requirement(false, BadClaims)]
    else Signed(p) + Matching(cfg, store, p.claims.value, t, now)
  }

  function Signed(p: Proof): seq<Requirement>
    requires p.Proof?
  {
    [Requirement(p.typ == "dpop+jwt", BadType), Requirement(p.key != NoKey, MissingKey),
     Requirement(p.key != UnsupportedKey, BadKey), Requirement(p.verifies, BadSignature)]
  }

  function Matching(cfg: Settings, store: map<string, real>, c: Claims, t: Target, now: real): seq<Requirement> {
    [Requirement(SameIgnoringCase(c.htm, t.htm), MethodMismatch), Requirement(c.htu == t.htu, UrlMismatch),
     Requirement(now - cfg.ttl as real <= c.iat as real <= now + cfg.skew as real, OutsideWindow),
     Requirement(t.nonce == None || c.nonce == t.nonce, NonceMismatch),
     Requirement(t.ath == None || c.ath == t.ath, TokenMismatch),
     Requirement(c.jti in store ==> store[c.jti] <= now, Replayed)]
  }

  function FirstUnmet(rs: seq<Requirement>): Option<ProofError> {
    if rs == [] then None else if !rs[0].met then Some(rs[0].error) else FirstUnmet(rs[1..])
  }

  lemma {:induction false} FirstUnmetJoins(a: seq<Requirement>, b: seq<Requirement>)
    ensures FirstUnmet(a + b) == if FirstUnmet(a).Some? then FirstUnmet(a) else FirstUnmet(b)
  {
    if a == [] {
      assert a + b == b;
    } else {
      assert (a + b)[1..] == a[1..] + b;
      FirstUnmetJoins(a[1..], b);
    }
  }

  lemma {:induction false} SignedUnmet(p: Proof)
    requires p.Proof?
    ensures FirstUnmet(Signed(p)) ==
            if p.typ != "dpop+jwt" then Some(BadType) else if p.key == NoKey then Some(MissingKey)
            else if p.key == UnsupportedKey then Some(BadKey) else if !p.verifies then Some(BadSignature) else None
  {
    var rs := Signed(p);
    assert rs == [rs[0]] + ([rs[1]] + ([rs[2]] + [rs[3]]));
    FirstUnmetJoins([rs[0]], [rs[1]] + ([rs[2]] + [rs[3]]));
    FirstUnmetJoins([rs[1]], [rs[2]] + [rs[3]]);
    FirstUnmetJoins([rs[2]], [rs[3]]);
  }

  lemma {:induction false} MatchingUnmet(cfg: Settings, store: map<string, real>, c: Claims, t: Target, now: real)
    ensures var rs := Matching(cfg, store, c, t, now);
            FirstUnmet(rs) ==
            if !rs[0].met then Some(MethodMismatch) else if !rs[1].met then Some(UrlMismatch)
            else if !rs[2].met then Some(OutsideWindow) else if !rs[3].met then Some(NonceMismatch)
            else if !rs[4].met then Some(TokenMismatch) else if !rs[5].met then Some(Replayed) else None
  {
    var rs := Matching(cfg, store, c, t, now);
    assert rs == [rs[0]] + ([rs[1]] + ([rs[2]] + ([rs[3]] + ([rs[4]] + [rs[5]]))));
    FirstUnmetJoins([rs[0]], [rs[1]] + ([rs[2]] + ([rs[3]] + ([rs[4]] + [rs[5]]))));
    FirstUnmetJoins([rs[1]], [rs[2]] + ([rs[3]] + ([rs[4]] + [rs[5]])));
    FirstUnmetJoins([rs[2]], [rs[3]] + ([rs[4]] + [rs[5]]));
    FirstUnmetJoins([rs[3]], [rs[4]] + [rs[5]]);
    FirstUnmetJoins([rs[4]], [rs[5]]);
  }

  /** The answer is the claims if every requirement is met, and otherwise the error of the first that
      is not; an accepted id is held for the lifetime from now on. */
  lemma {:induction false} AnswerIsFirstUnmet(cfg: Settings, store: map<string, real>, p: Proof, t: Target, now: real)
    ensures var (after, r) := Validate(cfg, store, p, t, now);
            match FirstUnmet(Requirements(cfg, store, p, t, now))
            case Some(e) => r == Err(e)
            case None =>
              && p.Proof? && p.claims.Some? && r == Ok(p.claims.value)
              && after == RS.Purged(store, now)[p.claims.value.jti := now + cfg.ttl as real]
  {
    if p.Proof? {
      SignedUnmet(p);
      if p.claims.None? {
        FirstUnmetJoins(Signed(p), [Requirement(false, BadClaims)]);
      } else {
        var c := p.claims.value;
        UpperIgnoresCase(c.htm, t.htm);
        MatchingUnmet(cfg, store, c, t, now);
        FirstUnmetJoins(Signed(p), Matching(cfg, store, c, t, now));
      }
    }
    hide FirstUnmet, Upper, Signed, SameIgnoringCase;
  }

  /** A signed DPoP proof with a supported key whose claims match the request and lie in the window. */
  predicate Sound(cfg: Settings, p: Proof, t: Target, now: real) {
    && p.Proof? && p.typ == "dpop+jwt" && p.key.PublicKey? && p.verifies && p.claims.Some?
    && var c := p.claims.value;
       && SameIgnoringCase(c.htm, t.htm) && c.htu == t.htu
       && now - cfg.ttl as real <= c.iat as real <= now + cfg.skew as real
       && (t.nonce.Some? ==> c.nonce == t.nonce) && (t.ath.Some? ==> c.ath == t.ath)
  }

  /** A presented proof is accepted exactly when it is sound and its id is not held. */
  lemma {:induction false} AcceptedIff(cfg: Settings, store: map<string, real>, p: Proof, t: Target, now: real)
    ensures Screen(cfg, p, t, now).Ok? <==> Sound(cfg, p, t, now)
    ensures Validate(cfg, store, p, t, now).1.Ok? <==>
            Sound(cfg, p, t, now) && var jti := p.claims.value.jti; jti in store ==> store[jti] <= now
  {
    if p.Proof? && p.claims.Some? { UpperIgnoresCase(p.claims.value.htm, t.htm); }
    hide Upper, SameIgnoringCase;
  }

  /** Only an accepted proof consumes its id: a failed check leaves the store as it was, and a
      replay at most lets expired entries go. */
  lemma {:induction false} RejectionConsumesNothing(
    cfg: Settings, store: map<string, real>, p: Proof, t: Target, now: real)
    requires Validate(cfg, store, p, t, now).1.Err?
    ensures var (store', r) := Validate(cfg, store, p, t, now);
            && (r.error != Replayed ==> store' == store)
            && (r.error == Replayed ==> store' == RS.Purged(store, now) && Screen(cfg, p, t, now).value.jti in store)
  {
  }

  // ----- runs -----

  datatype Presentation = Presentation(proof: Proof, target: Target, now: real)

  function Run(cfg: Settings, store: map<string, real>, ps: seq<Presentation>)
    : (r: (map<string, real>, seq<Result<Claims, ProofError>>))
    ensures |r.1| == |ps|
  {
    if ps == [] then (store, [])
    else
      var n := |ps| - 1;
      var (s, rs) := Run(cfg, store, ps[..n]);
      var (s', r) := Validate(cfg, s, ps[n].proof, ps[n].target, ps[n].now);
      (s', rs + [r])
  }

  ghost predicate Ordered(ps: seq<Presentation>) {
    forall i, j :: 0 <= i < j < |ps| ==> ps[i].now <= ps[j].now
  }

  lemma {:induction false} RunPrefix(cfg: Settings, store: map<string, real>, ps: seq<Presentation>, i: nat)
    requires i < |ps|
    ensures Run(cfg, store, ps).1[i] ==
            Validate(cfg, Run(cfg, store, ps[..i]).0, ps[i].proof, ps[i].target, ps[i].now).1
  {
    var n := |ps| - 1;
    if i < n {
      RunPrefix(cfg, store, ps[..n], i);
      assert ps[..n][..i] == ps[..i];
    }
  }

  /** One validation leaves an entry alone whose time has not run out. */
  lemma {:induction false} EntrySurvives(
    cfg: Settings, store: map<string, real>, p: Proof, t: Target, now: real, jti: string)
    requires jti in store && now < store[jti]
    ensures var after := Validate(cfg, store, p, t, now).0;
            jti in after && after[jti] == store[jti]
  {
  }

  /** An accepted id stays in the store until its time has run out. */
  lemma {:induction false} EntryStays(cfg: Settings, store: map<string, real>, ps: seq<Presentation>, i: nat, n: nat)
    requires Ordered(ps) && i < n <= |ps|
    requires Run(cfg, store, ps).1[i].Ok?
    requires n < |ps| && ps[n].now < ps[i].now + cfg.ttl as real
    ensures var jti := Run(cfg, store, ps).1[i].value.jti;
            var entries := Run(cfg, store, ps[..n]).0;
            jti in entries && entries[jti] == ps[i].now + cfg.ttl as real
  {
    RunPrefix(cfg, store, ps, i);
    assert ps[..n][..n - 1] == ps[..n - 1];
    if i + 1 < n {
      EntryStays(cfg, store, ps, i, n - 1);
      var last, jti := ps[n - 1], Run(cfg, store, ps).1[i].value.jti;
      EntrySurvives(cfg, Run(cfg, store, ps[..n - 1]).0, last.proof, last.target, last.now, jti);
    }
  }

  /** Two acceptances of one proof id are at least the lifetime apart. */
  lemma {:induction false} AcceptancesAreApart(
    cfg: Settings, store: map<string, real>, ps: seq<Presentation>, i: nat, j: nat)
    requires Ordered(ps) && i < j < |ps|
    requires Run(cfg, store, ps).1[i].Ok? && Run(cfg, store, ps).1[j].Ok?
    requires Run(cfg, store, ps).1[i].value.jti == Run(cfg, store, ps).1[j].value.jti
    ensures ps[j].now >= ps[i].now + cfg.ttl as real
  {
    if ps[j].now < ps[i].now + cfg.ttl as real {
      EntryStays(cfg, store, ps, i, j);
      RunPrefix(cfg, store, ps, j);
      assert false;
    }
  }

  /** Every id in the store was put there by an acceptance. */
  lemma {:induction false} EntryHasSource(cfg: Settings, ps: seq<Presentation>, n: nat, jti: string)
    requires n <= |ps| && jti in Run(cfg, map[], ps[..n]).0
    ensures exists j: nat :: j < n && HoldsFrom(cfg, ps, j, jti, Run(cfg, map[], ps[..n]).0[jti])
  {
    if n > 0 {
      var before, last := Run(cfg, map[], ps[..n - 1]).0, ps[n - 1];
      assert ps[..n][..n - 1] == ps[..n - 1];
      RunPrefix(cfg, map[], ps, n - 1);
      var (after, r) := Validate(cfg, before, last.proof, last.target, last.now);
      if r.Ok? && r.value.jti == jti {
        assert HoldsFrom(cfg, ps, n - 1, jti, after[jti]);
      } else {
        EntryHasSource(cfg, ps, n - 1, jti);
      }
    }
  }

  /** Presentation `j` was accepted and holds its id until `deadline`. */
  predicate HoldsFrom(cfg: Settings, ps: seq<Presentation>, j: nat, jti: string, deadline: real) {
    && j < |ps| && Run(cfg, map[], ps).1[j].Ok? && Run(cfg, map[], ps).1[j].value.jti == jti
    && deadline == ps[j].now + cfg.ttl as real
  }

  predicate StillHeld(cfg: Settings, ps: seq<Presentation>, j: nat, jti: string, now: real) {
    j < |ps| && HoldsFrom(cfg, ps, j, jti, ps[j].now + cfg.ttl as real) && now < ps[j].now + cfg.ttl as real
  }

  /** In any run, a proof is accepted exactly when it is sound and no proof with its id was accepted
      within the lifetime before. */
  lemma {:induction false} AcceptedInRunIff(cfg: Settings, ps: seq<Presentation>, i: nat)
    requires Ordered(ps) && i < |ps|
    ensures var p := ps[i];
            Run(cfg, map[], ps).1[i].Ok? <==>
            && Sound(cfg, p.proof, p.target, p.now)
            && !exists j: nat :: j < i && StillHeld(cfg, ps, j, p.proof.claims.value.jti, p.now)
  {
    var p, store := ps[i], Run(cfg, map[], ps[..i]).0;
    RunPrefix(cfg, map[], ps, i);
    AcceptedIff(cfg, store, p.proof, p.target, p.now);
    if Sound(cfg, p.proof, p.target, p.now) {
      var jti := p.proof.claims.value.jti;
      if j: nat :| j < i && StillHeld(cfg, ps, j, jti, p.now) { EntryStays(cfg, map[], ps, j, i); }
      if jti in store && p.now < store[jti] {
        EntryHasSource(cfg, ps, i, jti);
        var j: nat :| j < i && HoldsFrom(cfg, ps, j, jti, store[jti]);
        assert StillHeld(cfg, ps, j, jti, p.now);
      }
    }
    hide Validate, Sound, Run;
  }

  /** A proof is accepted only between iat - skew and iat + ttl. */
  lemma {:induction false} AcceptanceIsInWindow(cfg: Settings, store: map<string, real>, ps: seq<Presentation>, i: nat)
    requires i < |ps| && Run(cfg, store, ps).1[i].Ok?
    ensures var c := Run(cfg, store, ps).1[i].value;
            c.iat as real - cfg.skew as real <= ps[i].now <= c.iat as real + cfg.ttl as real
  {
    RunPrefix(cfg, store, ps, i);
  }

  /** `at` lists acceptances of one set of claims, in order. */
  ghost predicate AcceptancesOf(
    cfg: Settings, store: map<string, real>, ps: seq<Presentation>, c: Claims, at: seq<nat>) {
    && (forall k :: 0 <= k < |at| ==> at[k] < |ps| && Run(cfg, store, ps).1[at[k]] == Ok(c))
    && (forall k, l :: 0 <= k < l < |at| ==> at[k] < at[l])
  }

  lemma {:induction false} AcceptancesSpread(
    cfg: Settings, store: map<string, real>, ps: seq<Presentation>, c: Claims, at: seq<nat>, k: nat)
    requires Ordered(ps) && AcceptancesOf(cfg, store, ps, c, at) && k < |at| && cfg.ttl > 0
    ensures ps[at[k]].now >= ps[at[0]].now + (k * cfg.ttl) as real
  {
    if k > 0 {
      AcceptancesSpread(cfg, store, ps, c, at, k - 1);
      AcceptancesAreApart(cfg, store, ps, at[k - 1], at[k]);
      assert k * cfg.ttl == (k - 1) * cfg.ttl + cfg.ttl;
    }
  }

  /** No run accepts one proof more than 1 + (ttl + skew) / ttl times; a proof issued before its
      first acceptance is accepted once. */
  lemma {:induction false} AcceptancesAreFew(
    cfg: Settings, store: map<string, real>, ps: seq<Presentation>, c: Claims, at: seq<nat>)
    requires Ordered(ps) && AcceptancesOf(cfg, store, ps, c, at) && cfg.ttl > 0 && cfg.skew >= 0
    ensures |at| <= 1 + (cfg.ttl + cfg.skew) / cfg.ttl
    ensures at != [] && (c.iat as real) < ps[at[0]].now ==> |at| == 1
  {
    if at != [] {
      var last := |at| - 1;
      AcceptancesSpread(cfg, store, ps, c, at, last);
      AcceptanceIsInWindow(cfg, store, ps, at[0]);
      AcceptanceIsInWindow(cfg, store, ps, at[last]);
      assert last * cfg.ttl <= cfg.ttl + cfg.skew;
      DivideOut(last, cfg.ttl, cfg.ttl + cfg.skew);
      if last >= 1 { AtLeastOnce(last, cfg.ttl); }
    }
  }

  lemma {:induction false} DivideOut(k: nat, d: int, n: int)
    requires d > 0 && k * d <= n
    ensures k <= n / d
  {
    if k > n / d {
      MulStrict(k, n / d, d);
      assert false;
    }
  }

  lemma {:induction false} MulStrict(k: int, q: int, d: int)
    requires k >= q + 1 && d > 0
    ensures k * d >= q * d + d
  {
    assert (k - q - 1) * d >= 0;
    assert k * d == (k - q - 1) * d + q * d + d;
  }

  lemma {:induction false} AtLeastOnce(k: nat, d: int)
    requires k >= 1 && d > 0
    ensures k * d >= d
  {
  }

  /** Whether a proof can ever be accepted again is settled by its issue time: exactly the proofs
      issued no earlier than their acceptance can. */
  lemma {:induction false} CanBeAcceptedAgainIff(
    cfg: Settings, store: map<string, real>, p: Proof, t: Target, now: real)
    requires cfg.ttl >= 0 && cfg.skew >= 0
    requires Validate(cfg, store, p, t, now).1.Ok?
    ensures var (after, r) := Validate(cfg, store, p, t, now);
            (exists later :: later >= now && Validate(cfg, after, p, t, later).1.Ok?) <==> r.value.iat as real >= now
  {
    var (after, r) := Validate(cfg, store, p, t, now);
    if r.value.iat as real >= now {
      var later := now + cfg.ttl as real;
      assert Validate(cfg, after, p, t, later).1.Ok?;
    }
  }

  /** A proof dated at its first use and kept for sixty seconds: it is accepted again at the sixtieth. */
  lemma {:induction false} SameProofTwice()
    ensures var c := Claims("id", "GET", "https://a", 100, None, None);
            var p := Proof("dpop+jwt", PublicKey("k"), true, Some(c));
            var t := Target("get", "https://a", None, None);
            var ps := [Presentation(p, t, 100.0), Presentation(p, t, 159.0), Presentation(p, t, 160.0)];
            Run(Settings(60, 5), map[], ps).1 == [Ok(c), Err(Replayed), Ok(c)]
  {
    var cfg := Settings(60, 5);
    var c := Claims("id", "GET", "https://a", 100, None, None);
    var p := Proof("dpop+jwt", PublicKey("k"), true, Some(c));
    var t := Target("get", "https://a", None, None);
    var ps := [Presentation(p, t, 100.0), Presentation(p, t, 159.0), Presentation(p, t, 160.0)];
    assert Upper("get") == "GET" == Upper("GET");
    hide Upper;
    var held: map<string, real> := map["id" := 160.0];
    assert RS.Purged(map[], 100.0) == map[] && RS.Purged(held, 159.0) == held;
    assert Validate(cfg, map[], p, t, 100.0) == (held, Ok(c));
    assert Validate(cfg, held, p, t, 159.0) == (held, Err(Replayed));
    assert Validate(cfg, held, p, t, 160.0).1 == Ok(c);
    hide Validate;
    var none: seq<Result<Claims, ProofError>>, one, two := [], [Ok(c)], [Ok(c), Err(Replayed)];
    assert ps[..1][..0] == [] && ps[..2][..1] == ps[..1];
    assert Run(cfg, map[], []) == (map[], none);
    assert none + [Ok(c)] == one && one + [Err(Replayed)] == two;
    assert Run(cfg, map[], ps[..1]) == (held, one);
    assert Run(cfg, map[], ps[..2]) == (held, two);
  }
}

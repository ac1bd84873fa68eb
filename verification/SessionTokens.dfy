/** Short-lived tokens: issue with rotation, revocation, and validation.

    A token is modelled by the claims it decodes to and by whether its signature is genuine.
    One clock is read once per call.
 */
module SessionTokens {
  import opened Prelude
  import RS = ReplayStore
  import Dpop = DpopProofs

  /** `token_expiry_seconds`: the default lifetime, and how long an entry without an explicit
      expiry stays on the revocation list.  It is a setting, so no value is fixed here. */
  const EXPIRY: real

  /** `hash` stands for the SHA-256 hash of the token's text, as a proof's `ath` claim carries it. */
  datatype Token = Token(jti: string, exp: real, jkt: Option<string>, genuine: bool, hash: string)

  datatype Manager = Manager(revoked: map<string, real>, rotation: map<string, string>)

  const EMPTY := Manager(map[], map[])

  datatype TokenError =
    | EmptyIdentity | SigningFailed
    | BadToken | TokenExpired | TokenRevoked
    | NotSenderConstrained | WrongKey
    | ProofRejected(cause: Dpop.ProofError)

  /** The parameters of one `issue_token` call; `jti` is the id it would draw, `signs` says
      whether building and signing the claims succeeds, and `hash` is that of the text it signs. */
  datatype Issuance = Issuance(
    identified: bool, jti: string, lifetime: Option<real>, rotationKey: Option<string>, jkt: Option<string>,
    signs: bool, hash: string)

  function RevokeJti(s: Manager, jti: string, expiry: Option<real>, now: real): Manager {
    s.(revoked := s.revoked[jti := if expiry.Some? then expiry.value else now + EXPIRY])
  }

  /** `issue_token`: the previous token of the rotation key is revoked before the new one is
      signed, and stays revoked if signing fails. */
  function Issue(s: Manager, i: Issuance, now: real): (Manager, Result<Token, TokenError>) {
    if !i.identified then (s, Err(EmptyIdentity))
    else
      var purged := s.(revoked := RS.Purged(s.revoked, now));
      var rotated :=
        if i.rotationKey.Some? && i.rotationKey.value in s.rotation
        then RevokeJti(purged, s.rotation[i.rotationKey.value], None, now)
        else purged;
      if !i.signs then (rotated, Err(SigningFailed))
      else
        var indexed :=
          if i.rotationKey.Some? then rotated.(rotation := rotated.rotation[i.rotationKey.value := i.jti]) else rotated;
        (indexed, Ok(Token(i.jti, now + Lifetime(i), i.jkt, true, i.hash)))
  }

  function Lifetime(i: Issuance): real {
    if i.lifetime.Some? then i.lifetime.value else EXPIRY
  }

  /** `validate_token` */
  function ValidateToken(s: Manager, t: Token, now: real): (Manager, Result<Token, TokenError>) {
    if !t.genuine then (s, Err(BadToken))
    else if t.exp < now then (s, Err(TokenExpired))
    else
      var purged := s.(revoked := RS.Purged(s.revoked, now));
      if t.jti in purged.revoked then (purged, Err(TokenRevoked)) else (purged, Ok(t))
  }

  /** What one call answers, whatever the manager holds: a caller without identity and a failed signing
      are refused; otherwise the token carries the drawn id, the key and the text it was issued for,
      and runs out after the lifetime asked for or the default one. */
  lemma {:induction false} IssueAnswers(s: Manager, i: Issuance, now: real)
    ensures var r := Issue(s, i, now).1;
            && (r.Err? <==> !i.identified || !i.signs)
            && (r.Err? ==> r.error == if !i.identified then EmptyIdentity else SigningFailed)
            && (r.Ok? ==>
                  && r.value.jti == i.jti && r.value.jkt == i.jkt && r.value.hash == i.hash && r.value.genuine
                  && (i.lifetime.Some? ==> r.value.exp == now + i.lifetime.value)
                  && (i.lifetime.None? ==> r.value.exp == now + EXPIRY))
  {
  }

  /** A token is accepted exactly when it is genuine, has not run out and its id is not held on the
      revocation list; the first of these that fails gives the error. */
  lemma {:induction false} ValidatedIff(s: Manager, t: Token, now: real)
    ensures var r := ValidateToken(s, t, now).1;
            && (r == Ok(t) <==> t.genuine && now <= t.exp && (t.jti in s.revoked ==> s.revoked[t.jti] <= now))
            && (r == Err(BadToken) <==> !t.genuine)
            && (r == Err(TokenExpired) <==> t.genuine && t.exp < now)
            && (r == Err(TokenRevoked) <==>
                  t.genuine && now <= t.exp && t.jti in s.revoked && now < s.revoked[t.jti])
  {
  }

  /** A revoked id stays on the list until the given expiry, or for the default lifetime, and no longer. */
  lemma {:induction false} RevocationLasts(s: Manager, jti: string, expiry: Option<real>, now: real, later: real)
    requires now <= later
    ensures var until := if expiry.Some? then expiry.value else now + EXPIRY;
            jti in RS.Purged(RevokeJti(s, jti, expiry, now).revoked, later) <==> later < until
  {
  }

  class SessionManager {
    var revoked: map<string, real>
    var rotation: map<string, string>
    const replayStore: RS.InMemoryStore

    constructor (store: RS.InMemoryStore)
      ensures State() == EMPTY && replayStore == store
    {
      revoked, rotation, replayStore := map[], map[], store;
    }

    function State(): Manager
      reads this
    {
      Manager(revoked, rotation)
    }

    method IssueToken(i: Issuance, now: real) returns (r: Result<Token, TokenError>)
      modifies this
      ensures (State(), r) == Issue(old(State()), i, now)
    {
      if !i.identified { return Err(EmptyIdentity); }
      revoked := RS.Purge(revoked, now);
      if i.rotationKey.Some? && i.rotationKey.value in rotation {
        Revoke(rotation[i.rotationKey.value], None, now);
      }
      if !i.signs { return Err(SigningFailed); }
      var exp := now + if i.lifetime.Some? then i.lifetime.value else EXPIRY;
      if i.rotationKey.Some? {
        rotation := rotation[i.rotationKey.value := i.jti];
      }
      return Ok(Token(i.jti, exp, i.jkt, true, i.hash));
    }

    method Validate(t: Token, now: real) returns (r: Result<Token, TokenError>)
      modifies this
      ensures (State(), r) == ValidateToken(old(State()), t, now)
    {
      if !t.genuine { return Err(BadToken); }
      if t.exp < now { return Err(TokenExpired); }
      revoked := RS.Purge(revoked, now);
      assert RS.Purged(revoked, now) == revoked;
      var out := IsRevoked(t.jti, now);
      if out { return Err(TokenRevoked); }
      return Ok(t);
    }

    method IsRevoked(jti: string, now: real) returns (b: bool)
      modifies this
      ensures State() == old(State()).(revoked := RS.Purged(old(revoked), now))
      ensures b == (jti in revoked)
    {
      revoked := RS.Purge(revoked, now);
      b := jti in revoked;
    }

    method Revoke(jti: string, expiry: Option<real>, now: real)
      modifies this
      ensures State() == RevokeJti(old(State()), jti, expiry, now)
    {
      revoked := revoked[jti := if expiry.Some? then expiry.value else now + EXPIRY];
    }

    /** `validate_sender_constrained_token`: the token first, then the key binding, then the proof, which
        must carry the hash of this token; a failure before the proof's own checks leaves the replay
        store alone. */
    method ValidateSenderConstrained(
      cfg: Dpop.Settings, t: Token, p: Dpop.Proof, htm: string, htu: string, nonce: Option<string>, now: real)
      returns (r: Result<Token, TokenError>)
      modifies this, replayStore
      ensures State() == ValidateToken(old(State()), t, now).0
      ensures r.Ok? <==>
                && t.genuine && now <= t.exp && (t.jti in old(revoked) ==> old(revoked)[t.jti] <= now)
                && t.jkt.Some? && p.Proof? && p.key == Dpop.PublicKey(t.jkt.value)
                && Dpop.Sound(cfg, p, Dpop.Target(htm, htu, Some(t.hash), nonce), now)
                && var jti := p.claims.value.jti;
                   jti in old(replayStore.entries) ==> old(replayStore.entries)[jti] <= now
      ensures r.Ok? ==> r.value == t && p.claims.Some? && p.claims.value.ath == Some(t.hash)
      ensures r.Err? ==>
                r.error ==
                if ValidateToken(old(State()), t, now).1.Err? then ValidateToken(old(State()), t, now).1.error
                else if t.jkt.None? then NotSenderConstrained
                else if p.Unreadable? then ProofRejected(Dpop.BadHeader)
                else if p.key.NoKey? then ProofRejected(Dpop.MissingKey)
                else if p.key.UnsupportedKey? then ProofRejected(Dpop.BadKey)
                else if p.key.thumbprint != t.jkt.value then WrongKey
                else
                  var target := Dpop.Target(htm, htu, Some(t.hash), nonce);
                  var v := Dpop.Validate(cfg, old(replayStore.entries), p, target, now).1;
                  if v.Err? then ProofRejected(v.error) else r.error
      ensures r.Ok? ==>
                replayStore.entries ==
                RS.Purged(old(replayStore.entries), now)[p.claims.value.jti := now + cfg.ttl as real]
      ensures r == Err(ProofRejected(Dpop.Replayed)) ==> replayStore.entries == RS.Purged(old(replayStore.entries), now)
      ensures r.Err? && r.error != ProofRejected(Dpop.Replayed) ==> replayStore.entries == old(replayStore.entries)
    {
      ValidatedIff(State(), t, now);
      Dpop.AcceptedIff(cfg, replayStore.entries, p, Dpop.Target(htm, htu, Some(t.hash), nonce), now);
      hide Dpop.Upper, Dpop.SameIgnoringCase;
      r := Validate(t, now);
      if r.Err? { return; }
      if t.jkt.None? { return Err(NotSenderConstrained); }
      if p.Unreadable? { return Err(ProofRejected(Dpop.BadHeader)); }
      if p.key.NoKey? { return Err(ProofRejected(Dpop.MissingKey)); }
      if p.key.UnsupportedKey? { return Err(ProofRejected(Dpop.BadKey)); }
      if p.key.thumbprint != t.jkt.value { return Err(WrongKey); }
      var target := Dpop.Target(htm, htu, Some(t.hash), nonce);
      var v := Dpop.ValidateDpopProof(replayStore, cfg, p, target, now);
      if v.Err? { r := Err(ProofRejected(v.error)); }
    }
  }

  // ----- runs -----

  datatype Op =
    | IssueOp(issuance: Issuance)
    | ValidateOp(token: Token)
    | RevokeOp(jti: string, expiry: Option<real>)

  datatype Timed = Timed(op: Op, now: real)

  function Apply(s: Manager, e: Timed): Manager {
    match e.op
    case IssueOp(i) => Issue(s, i, e.now).0
    case ValidateOp(t) => ValidateToken(s, t, e.now).0
    case RevokeOp(jti, expiry) => RevokeJti(s, jti, expiry, e.now)
  }

  function Run(events: seq<Timed>): Manager {
    if events == [] then EMPTY else Apply(Run(events[..|events| - 1]), events[|events| - 1])
  }

  /** Event `i` puts a token into the world. */
  predicate Issues(events: seq<Timed>, i: nat)
    requires i < |events|
  {
    events[i].op.IssueOp? && events[i].op.issuance.identified && events[i].op.issuance.signs
  }

  /** The token event `i` issues. */
  function TokenOf(events: seq<Timed>, i: nat): Token
    requires i < |events| && Issues(events, i)
  {
    var c := events[i].op.issuance;
    Token(c.jti, events[i].now + Lifetime(c), c.jkt, true, c.hash)
  }

  /** An event withdraws a token issued under `key`: a later issue under the key, successful or
      not, or an explicit revocation of its id. */
  predicate Hits(e: Timed, t: Token, key: Option<string>) {
    match e.op
    case IssueOp(later) => later.identified && key.Some? && later.rotationKey == key
    case RevokeOp(jti, _) => jti == t.jti
    case ValidateOp(_) => false
  }

  predicate Withdraws(events: seq<Timed>, k: nat, i: nat)
    requires i < k < |events| && Issues(events, i)
  {
    Hits(events[k], TokenOf(events, i), events[i].op.issuance.rotationKey)
  }

  ghost predicate Withdrawn(events: seq<Timed>, i: nat)
    requires i < |events| && Issues(events, i)
  {
    exists k :: i < k < |events| && Withdraws(events, k, i)
  }

  /** The id an event brings into play. */
  function IdOf(e: Timed): Option<string> {
    match e.op
    case IssueOp(i) => Some(i.jti)
    case RevokeOp(jti, _) => Some(jti)
    case ValidateOp(_) => None
  }

  /** An explicit revocation of `t` with an expiry of its own. */
  predicate Names(e: Timed, t: Token) {
    e.op.RevokeOp? && e.op.jti == t.jti && e.op.expiry.Some?
  }

  /** The clock does not go back, drawn ids are new, lifetimes do not exceed the default, and an
      explicit revocation lasts at least as long as the token it names. */
  ghost predicate Proper(events: seq<Timed>) {
    && (forall i, j :: 0 <= i < j < |events| ==> events[i].now <= events[j].now)
    && (forall i, j :: 0 <= i < j < |events| && events[j].op.IssueOp? ==>
          IdOf(events[i]) != Some(events[j].op.issuance.jti))
    && (forall i :: 0 <= i < |events| && Issues(events, i) ==> Lifetime(events[i].op.issuance) <= EXPIRY)
    && (forall i, j :: 0 <= i < j < |events| && Issues(events, i) && Names(events[j], TokenOf(events, i)) ==>
          events[j].op.expiry.value >= TokenOf(events, i).exp)
  }

  /** How the two dictionaries reflect a token: a withdrawn one is on the revocation list as long
      as it lives; another is not on it, and is the one its key points to. */
  ghost predicate Shows(s: Manager, t: Token, key: Option<string>, withdrawn: bool, now: real) {
    if withdrawn then t.exp > now ==> t.jti in s.revoked && s.revoked[t.jti] >= t.exp
    else t.jti !in s.revoked && (key.Some? ==> key.value in s.rotation && s.rotation[key.value] == t.jti)
  }

  ghost predicate Reflected(events: seq<Timed>, s: Manager, i: nat, now: real)
    requires i < |events| && Issues(events, i)
  {
    Shows(s, TokenOf(events, i), events[i].op.issuance.rotationKey, Withdrawn(events, i), now)
  }

  predicate IssuedUnder(events: seq<Timed>, i: nat, key: string, jti: string)
    requires i < |events|
  {
    Issues(events, i) && events[i].op.issuance.rotationKey == Some(key) && events[i].op.issuance.jti == jti
  }

  /** Every indexed id is that of a token issued under the key. */
  ghost predicate Indexed(events: seq<Timed>, s: Manager) {
    forall key :: key in s.rotation ==> exists i :: 0 <= i < |events| && IssuedUnder(events, i, key, s.rotation[key])
  }

  lemma {:induction false} ProperPrefix(events: seq<Timed>, n: nat)
    requires Proper(events) && n <= |events|
    ensures Proper(events[..n])
  {
    var prefix := events[..n];
    forall i, j | 0 <= i < j < |prefix| && Issues(prefix, i) && Names(prefix[j], TokenOf(prefix, i))
      ensures prefix[j].op.expiry.value >= TokenOf(prefix, i).exp
    {
      assert Issues(events, i) && Names(events[j], TokenOf(events, i));
    }
  }

  lemma {:induction false} IndexHolds(events: seq<Timed>)
    ensures Indexed(events, Run(events))
  {
    if events != [] {
      var n := |events| - 1;
      IndexHolds(events[..n]);
      var before, after := Run(events[..n]), Run(events);
      forall key | key in after.rotation
        ensures exists i :: 0 <= i < |events| && IssuedUnder(events, i, key, after.rotation[key])
      {
        if Issues(events, n) && events[n].op.issuance.rotationKey == Some(key) {
          assert IssuedUnder(events, n, key, after.rotation[key]);
        } else {
          var i :| 0 <= i < n && IssuedUnder(events[..n], i, key, before.rotation[key]);
          assert IssuedUnder(events, i, key, after.rotation[key]);
        }
      }
    }
  }

  lemma {:induction false} WithdrawnByLast(events: seq<Timed>, i: nat)
    requires i < |events| - 1 && Issues(events, i)
    ensures Issues(events[..|events| - 1], i)
    ensures Withdrawn(events, i) <==> Withdrawn(events[..|events| - 1], i) || Withdraws(events, |events| - 1, i)
  {
    var n := |events| - 1;
    if Withdrawn(events[..n], i) {
      var k :| i < k < n && Withdraws(events[..n], k, i);
      assert Withdraws(events, k, i);
    }
    if Withdrawn(events, i) && !Withdraws(events, n, i) {
      var k :| i < k < |events| && Withdraws(events, k, i);
      assert Withdraws(events[..n], k, i);
    }
  }

  /** The id an issue revokes belongs to no token but those of its own key. */
  lemma {:induction false} RotatedIdIsOfKey(events: seq<Timed>, i: nat, key: string)
    requires Proper(events) && i < |events| && Issues(events, i)
    requires key in Run(events).rotation && Run(events).rotation[key] == events[i].op.issuance.jti
    ensures events[i].op.issuance.rotationKey == Some(key)
  {
    IndexHolds(events);
    var j :| 0 <= j < |events| && IssuedUnder(events, j, key, Run(events).rotation[key]);
    assert IdOf(events[i]) == IdOf(events[j]);
    assert i == j;
  }

  /** No id is on either list before it is drawn. */
  lemma {:induction false} UnknownIdIsClean(events: seq<Timed>, jti: string)
    requires forall i :: 0 <= i < |events| ==> IdOf(events[i]) != Some(jti)
    ensures jti !in Run(events).revoked
    ensures forall key :: key in Run(events).rotation ==> Run(events).rotation[key] != jti
  {
    if events != [] {
      var n := |events| - 1;
      forall i | 0 <= i < n ensures IdOf(events[..n][i]) != Some(jti) { assert IdOf(events[i]) != Some(jti); }
      UnknownIdIsClean(events[..n], jti);
      assert IdOf(events[n]) != Some(jti);
    }
  }

  lemma {:induction false} ReflectedInRun(events: seq<Timed>, i: nat)
    requires Proper(events) && i < |events| && Issues(events, i)
    ensures Reflected(events, Run(events), i, events[|events| - 1].now)
  {
    var n := |events| - 1;
    ProperPrefix(events, n);
    var before := Run(events[..n]);
    var e := events[n];
    if i == n {
      forall j | 0 <= j < n ensures IdOf(events[..n][j]) != Some(events[n].op.issuance.jti) {
        assert IdOf(events[j]) != Some(events[n].op.issuance.jti);
      }
      UnknownIdIsClean(events[..n], events[n].op.issuance.jti);
    } else {
      WithdrawnByLast(events, i);
      ReflectedInRun(events[..n], i);
      StepReflects(events, i);
    }
  }

  /** One event, seen from the state it happens in. */
  lemma {:induction false} StepShows(s: Manager, e: Timed, t: Token, key: Option<string>, withdrawn: bool, now: real)
    requires now <= e.now && Shows(s, t, key, withdrawn, now)
    requires t.exp <= e.now + EXPIRY
    requires Names(e, t) ==> e.op.expiry.value >= t.exp
    requires e.op.IssueOp? ==>
               && e.op.issuance.jti != t.jti
               && (forall k :: k in s.rotation && s.rotation[k] == t.jti ==> key == Some(k))
    ensures Shows(Apply(s, e), t, key, withdrawn || Hits(e, t, key), e.now)
  {
  }

  /** What a proper run gives each of its tokens at its last event. */
  lemma {:induction false} LastEventFacts(events: seq<Timed>, i: nat)
    requires Proper(events) && i < |events| - 1 && Issues(events, i)
    ensures var (e, t) := (events[|events| - 1], TokenOf(events, i));
            && events[|events| - 2].now <= e.now
            && t.exp <= e.now + EXPIRY
            && (Names(e, t) ==> e.op.expiry.value >= t.exp)
            && (e.op.IssueOp? ==> e.op.issuance.jti != t.jti)
            && (Withdraws(events, |events| - 1, i) <==> Hits(e, t, events[i].op.issuance.rotationKey))
  {
    var n := |events| - 1;
    assert events[i].now <= events[n].now;
    assert IdOf(events[i]) == Some(events[i].op.issuance.jti);
  }

  lemma {:induction false} IndexedByKey(events: seq<Timed>, n: nat, i: nat)
    requires Proper(events) && i < n <= |events| && Issues(events, i)
    ensures var s := Run(events[..n]);
            forall k :: k in s.rotation && s.rotation[k] == TokenOf(events, i).jti ==>
              events[i].op.issuance.rotationKey == Some(k)
  {
    ProperPrefix(events, n);
    var s := Run(events[..n]);
    forall k | k in s.rotation && s.rotation[k] == TokenOf(events, i).jti
      ensures events[i].op.issuance.rotationKey == Some(k)
    {
      RotatedIdIsOfKey(events[..n], i, k);
    }
  }

  lemma {:induction false} StepReflects(events: seq<Timed>, i: nat)
    requires Proper(events) && i < |events| - 1 && Issues(events, i)
    requires Issues(events[..|events| - 1], i)
    requires Reflected(events[..|events| - 1], Run(events[..|events| - 1]), i, events[|events| - 2].now)
    requires Withdrawn(events, i) <==> Withdrawn(events[..|events| - 1], i) || Withdraws(events, |events| - 1, i)
    ensures Reflected(events, Run(events), i, events[|events| - 1].now)
  {
    var n := |events| - 1;
    IndexedByKey(events, n, i);
    LastEventFacts(events, i);
    hide Proper, Shows, Withdrawn, Withdraws, Apply, Hits, Names;
    StepShows(Run(events[..n]), events[n], TokenOf(events, i), events[i].op.issuance.rotationKey,
              Withdrawn(events[..n], i), events[n - 1].now);
  }

  // ----- main results -----

  /** What the issue at event `i` returned to its caller. */
  function Answer(events: seq<Timed>, i: nat): Result<Token, TokenError>
    requires i < |events| && events[i].op.IssueOp?
  {
    Issue(Run(events[..i]), events[i].op.issuance, events[i].now).1
  }

  /** Event `i` is an issue that returned `t`. */
  predicate Returned(events: seq<Timed>, i: nat, t: Token) {
    i < |events| && events[i].op.IssueOp? && Answer(events, i) == Ok(t)
  }

  lemma {:induction false} ReturnedIsIssued(events: seq<Timed>, i: nat, t: Token)
    requires Returned(events, i, t)
    ensures Issues(events, i) && TokenOf(events, i) == t
  {
    IssueAnswers(Run(events[..i]), events[i].op.issuance, events[i].now);
  }

  /** The dictionaries answer as the history does: a token that an issue returned and that has not run
      out is accepted exactly when no event since its issue has withdrawn it. */
  lemma {:induction false} AcceptedIffNotWithdrawn(events: seq<Timed>, i: nat, t: Token, now: real)
    requires Proper(events) && Returned(events, i, t)
    requires events[|events| - 1].now <= now < t.exp
    ensures Issues(events, i)
    ensures ValidateToken(Run(events), t, now).1.Ok? <==> !Withdrawn(events, i)
  {
    ReturnedIsIssued(events, i, t);
    ReflectedInRun(events, i);
  }

  /** Under one rotation key at most one returned token that has not run out is accepted at any
      instant, and it is the one returned last. */
  lemma {:induction false} AtMostOneAccepted(events: seq<Timed>, i: nat, t: Token, j: nat, u: Token, now: real)
    requires Proper(events) && Returned(events, i, t) && Returned(events, j, u)
    requires events[i].op.issuance.rotationKey.Some?
    requires events[i].op.issuance.rotationKey == events[j].op.issuance.rotationKey
    requires events[|events| - 1].now <= now < t.exp
    requires ValidateToken(Run(events), t, now).1.Ok?
    ensures j <= i
    ensures now < u.exp && ValidateToken(Run(events), u, now).1.Ok? ==> i == j && t == u
  {
    ReturnedIsIssued(events, j, u);
    AcceptedIffNotWithdrawn(events, i, t, now);
    if i < j { assert Withdraws(events, j, i); }
    if j < i && now < u.exp {
      assert Withdraws(events, i, j);
      AcceptedIffNotWithdrawn(events, j, u, now);
    }
  }

  /** A retry retires the token of every earlier attempt: from the moment a call under the same key
      starts to issue, no token returned before is accepted again, even if the new one is never signed. */
  lemma {:induction false} RetryRetiresEarlierTokens(events: seq<Timed>, i: nat, t: Token, k: nat, now: real)
    requires Proper(events) && i < k < |events| && Returned(events, i, t)
    requires events[k].op.IssueOp? && events[k].op.issuance.identified
    requires events[i].op.issuance.rotationKey.Some?
    requires events[k].op.issuance.rotationKey == events[i].op.issuance.rotationKey
    requires events[|events| - 1].now <= now < t.exp
    ensures ValidateToken(Run(events), t, now).1 == Err(TokenRevoked)
  {
    ReturnedIsIssued(events, i, t);
    assert Withdraws(events, k, i);
    AcceptedIffNotWithdrawn(events, i, t, now);
    ValidatedIff(Run(events), t, now);
  }
}

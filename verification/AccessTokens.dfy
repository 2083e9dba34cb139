// Signing keys, access-token minting, revocation by jti and validation.
//
// Signatures are symbolic: a JWT verifies under a key exactly when the server
// signed that JWT with that key. Every action is one SQL statement or one
// computation of a handler; a handler that has selected a key, or signed and
// not yet recorded a token, is a `Mint` in flight.

module AccessTokens {
  import opened Common
  import opened Scopes

  datatype Config = Config(issuer: string, ttlSeconds: nat)

  const KEY_GRACE := 24 * 3600 * SECOND

  // The tolerance of the JWT library on `exp`.
  const LEEWAY_SECONDS := 60

  datatype KeyRow = KeyRow(createdAt: Time, retiredAt: Option<Time>)

  type Keys = map<Id, KeyRow>

  datatype Alg = RS256 | OtherAlg

  // An ID token carries no jti, no actor type and no scope.
  datatype Claims = Claims(
    iss: string, sub: Id, aud: ClientId, exp: int, jti: Option<Id>, kind: Option<ActorKind>, org: Option<Id>,
    scope: Option<string>)

  // Any JWT a caller may present; `signer` is the key of its signature, if it is one of ours.
  datatype Jwt = Jwt(alg: Alg, kid: Option<Id>, claims: Claims, signer: Option<Id>)

  datatype Record = Record(kind: ActorKind, sub: Id, org: Option<Id>, client: ClientId, expiresAt: Time, revoked: bool)

  datatype Request = Request(actor: Actor, org: Option<Id>, client: ClientId, scopes: seq<Scope>)

  datatype Validated = Validated(jti: Id, actor: Actor, org: Id, client: ClientId, scopes: seq<Scope>)

  // Active actors: memberships, service accounts and devices, by organization.
  type Active = set<(Actor, Id)>

  // --------------------------------------------------- statements, on values

  predicate IsActiveKey(keys: Keys, kid: Id) {
    && kid in keys && keys[kid].retiredAt.None?
    && forall k :: k in keys && keys[k].retiredAt.None? ==> keys[k].createdAt <= keys[kid].createdAt
  }

  function RetireKeys(keys: Keys, now: Time): Keys {
    map k | k in keys :: if keys[k].retiredAt.None? then keys[k].(retiredAt := Some(now)) else keys[k]
  }

  function VerificationKeys(keys: Keys, now: Time): set<Id> {
    set k | k in keys && (keys[k].retiredAt.None? || keys[k].retiredAt.value > now - KEY_GRACE)
  }

  function ExpSeconds(cfg: Config, now: nat): int {
    now / SECOND + cfg.ttlSeconds
  }

  function SignAccess(cfg: Config, kid: Id, jti: Id, req: Request, now: nat): Jwt {
    Jwt(RS256, Some(kid),
        Claims(cfg.issuer, req.actor.id, req.client, ExpSeconds(cfg, now), Some(jti), Some(req.actor.kind), req.org,
               Some(JoinScopes(req.scopes))),
        Some(kid))
  }

  function SignId(cfg: Config, kid: Id, req: Request, now: nat): Jwt {
    Jwt(RS256, Some(kid),
        Claims(cfg.issuer, req.actor.id, req.client, ExpSeconds(cfg, now), None, None, req.org, None),
        Some(kid))
  }

  function RecordOf(req: Request, exp: int): Record {
    Record(req.actor.kind, req.actor.id, req.org, req.client, exp * SECOND, false)
  }

  function RevokeJti(records: map<Id, Record>, jti: Id): map<Id, Record> {
    if jti in records then records[jti := records[jti].(revoked := true)] else records
  }

  predicate OfUser(r: Record, user: Id, within: Option<Id>) {
    r.kind.User? && r.sub == user && (within.None? || within == r.org)
  }

  function RevokeUser(records: map<Id, Record>, user: Id, within: Option<Id>): map<Id, Record> {
    map j | j in records :: if OfUser(records[j], user, within) then records[j].(revoked := true) else records[j]
  }

  // Decoding under one key: signature, issuer and expiry with leeway.
  predicate Decodes(cfg: Config, signed: set<Jwt>, jwt: Jwt, key: Id, now: nat) {
    && jwt in signed && jwt.signer == Some(key)
    && jwt.claims.iss == cfg.issuer
    && jwt.claims.exp >= now / SECOND - LEEWAY_SECONDS
  }

  predicate SomeKeyDecodes(cfg: Config, keys: Keys, signed: set<Jwt>, jwt: Jwt, now: nat) {
    exists k :: k in VerificationKeys(keys, now) && (jwt.kid.None? || jwt.kid == Some(k)) && Decodes(cfg, signed, jwt, k, now)
  }

  predicate RecordAgrees(r: Record, claims: Claims, now: nat) {
    && !r.revoked && r.expiresAt > now
    && Some(r.kind) == claims.kind && r.sub == claims.sub && r.org == claims.org && r.client == claims.aud
  }

  // The scopes a claim stands for: its pieces between single spaces.
  function ScopesOf(claims: Claims): seq<Scope> {
    if claims.scope.None? then [] else SplitAtSpaces(claims.scope.value)
  }

  // What the bearer-token check answers at one instant.
  function CheckToken(cfg: Config, keys: Keys, records: map<Id, Record>, signed: set<Jwt>, active: Active, now: nat,
                      jwt: Jwt, audience: Option<ClientId>): Option<Validated>
  {
    if jwt.alg != RS256 || !SomeKeyDecodes(cfg, keys, signed, jwt, now) then None
    else if audience.Some? && audience.value != jwt.claims.aud then None
    else if jwt.claims.jti.None? || jwt.claims.jti.value !in records then None
    else if !RecordAgrees(records[jwt.claims.jti.value], jwt.claims, now) then None
    else if jwt.claims.org.None? then None
    else
      var actor := Actor(jwt.claims.kind.value, jwt.claims.sub);
      if (actor, jwt.claims.org.value) !in active then None
      else Some(Validated(jwt.claims.jti.value, actor, jwt.claims.org.value, jwt.claims.aud, ScopesOf(jwt.claims)))
  }

  // ------------------------------------------------------------------ runs

  datatype Mint =
    | KeyHeld(kid: Id, selectedAt: nat)
    | SignedToken(jwt: Jwt, req: Request, selectedAt: nat, signedAt: nat)

  datatype Event =
    | Issued(jwt: Jwt, req: Request, selectedAt: nat, signedAt: nat)
    | RevokedJti(jti: Id, presenter: ClientId)
    | RevokedUser(user: Id, within: Option<Id>)

  datatype State = State(
    now: nat, keys: Keys, signed: set<Jwt>, records: map<Id, Record>, active: Active,
    mints: map<Id, Mint>, used: set<Id>, log: seq<Event>)

  const Init := State(0, map[], {}, map[], {}, map[], {}, [])

  datatype Action =
    | Tick(elapsed: nat)
    | SetActive(actor: Actor, org: Id, on: bool)
    | Retire
    | InsertKey(kid: Id)
    | SelectKey(pid: Id, kid: Id)
    | GenerateKey(pid: Id, kid: Id)
    | SignAccessToken(pid: Id, jti: Id, req: Request)
    | SignIdToken(pid: Id, req: Request)
    | RecordToken(pid: Id)
    | RevokeByJti(jti: Id, presenter: ClientId)
    | RevokeByUser(user: Id, within: Option<Id>)

  function ApplyInsertKey(s: State, kid: Id): State {
    if kid in s.used then s
    else s.(keys := s.keys[kid := KeyRow(s.now, None)], used := s.used + {kid})
  }

  // `ensure_active_key` finding a key, or generating one because it found none.
  function ApplySelectKey(s: State, a: Action): State
    requires a.SelectKey? || a.GenerateKey?
  {
    if a.pid in s.mints then s
    else if a.SelectKey? then
      if IsActiveKey(s.keys, a.kid) then s.(mints := s.mints[a.pid := KeyHeld(a.kid, s.now)]) else s
    else if a.kid in s.used then s
    else ApplyInsertKey(s, a.kid).(mints := s.mints[a.pid := KeyHeld(a.kid, s.now)])
  }

  function ApplySignAccess(cfg: Config, s: State, a: Action): State
    requires a.SignAccessToken?
  {
    if a.pid !in s.mints || !s.mints[a.pid].KeyHeld? || a.jti in s.used then s
    else
      var held := s.mints[a.pid];
      var jwt := SignAccess(cfg, held.kid, a.jti, a.req, s.now);
      s.(signed := s.signed + {jwt}, used := s.used + {a.jti},
         mints := s.mints[a.pid := SignedToken(jwt, a.req, held.selectedAt, s.now)])
  }

  function ApplySignId(cfg: Config, s: State, a: Action): State
    requires a.SignIdToken?
  {
    if a.pid !in s.mints || !s.mints[a.pid].KeyHeld? then s
    else s.(signed := s.signed + {SignId(cfg, s.mints[a.pid].kid, a.req, s.now)}, mints := s.mints - {a.pid})
  }

  function ApplyRecord(s: State, a: Action): State
    requires a.RecordToken?
  {
    if a.pid !in s.mints || !s.mints[a.pid].SignedToken? then s
    else
      var m := s.mints[a.pid];
      if m.jwt.claims.jti.None? then s
      else s.(records := s.records[m.jwt.claims.jti.value := RecordOf(m.req, m.jwt.claims.exp)],
              mints := s.mints - {a.pid},
              log := s.log + [Issued(m.jwt, m.req, m.selectedAt, m.signedAt)])
  }

  function ApplyRevoke(s: State, a: Action): State
    requires a.RevokeByJti? || a.RevokeByUser?
  {
    if a.RevokeByJti? then s.(records := RevokeJti(s.records, a.jti), log := s.log + [RevokedJti(a.jti, a.presenter)])
    else s.(records := RevokeUser(s.records, a.user, a.within), log := s.log + [RevokedUser(a.user, a.within)])
  }

  // One atomic step. An action whose guard fails changes nothing.
  function Apply(cfg: Config, s: State, a: Action): State {
    match a
    case Tick(elapsed) => s.(now := s.now + elapsed)
    case SetActive(actor, org, on) => s.(active := if on then s.active + {(actor, org)} else s.active - {(actor, org)})
    case Retire => s.(keys := RetireKeys(s.keys, s.now))
    case InsertKey(kid) => ApplyInsertKey(s, kid)
    case SelectKey(_, _) => ApplySelectKey(s, a)
    case GenerateKey(_, _) => ApplySelectKey(s, a)
    case SignAccessToken(_, _, _) => ApplySignAccess(cfg, s, a)
    case SignIdToken(_, _) => ApplySignId(cfg, s, a)
    case RecordToken(_) => ApplyRecord(s, a)
    case RevokeByJti(_, _) => ApplyRevoke(s, a)
    case RevokeByUser(_, _) => ApplyRevoke(s, a)
  }

  // A handler holds the newest key that is not retired at that instant.
  lemma SelectKeyExactly(cfg: Config, s: State, pid: Id, kid: Id)
    ensures var s' := Apply(cfg, s, SelectKey(pid, kid));
            if && pid !in s.mints && kid in s.keys && s.keys[kid].retiredAt.None?
               && forall k :: k in s.keys && s.keys[k].retiredAt.None? ==> s.keys[k].createdAt <= s.keys[kid].createdAt
            then s' == s.(mints := s.mints[pid := KeyHeld(kid, s.now)])
            else s' == s
  {
  }

  // It signs with the key it holds, for the configured lifetime from then on.
  lemma SignAccessExactly(cfg: Config, s: State, pid: Id, jti: Id, req: Request)
    ensures var s' := Apply(cfg, s, SignAccessToken(pid, jti, req));
            if pid in s.mints && s.mints[pid].KeyHeld? && jti !in s.used then
              var kid := s.mints[pid].kid;
              var claims := Claims(cfg.issuer, req.actor.id, req.client, s.now / SECOND + cfg.ttlSeconds, Some(jti),
                                   Some(req.actor.kind), req.org, Some(JoinScopes(req.scopes)));
              var jwt := Jwt(RS256, Some(kid), claims, Some(kid));
              s' == s.(signed := s.signed + {jwt}, used := s.used + {jti},
                       mints := s.mints[pid := SignedToken(jwt, req, s.mints[pid].selectedAt, s.now)])
            else s' == s
  {
  }

  // The record repeats the claims; the token is valid from this statement on.
  lemma RecordExactly(cfg: Config, s: State, pid: Id)
    ensures var s' := Apply(cfg, s, RecordToken(pid));
            if pid in s.mints && s.mints[pid].SignedToken? && s.mints[pid].jwt.claims.jti.Some? then
              var m := s.mints[pid];
              var record := Record(m.req.actor.kind, m.req.actor.id, m.req.org, m.req.client, m.jwt.claims.exp * SECOND, false);
              s' == s.(records := s.records[m.jwt.claims.jti.value := record], mints := s.mints - {pid},
                       log := s.log + [Issued(m.jwt, m.req, m.selectedAt, m.signedAt)])
            else s' == s
  {
  }

  lemma RevokeByJtiExactly(cfg: Config, s: State, jti: Id, presenter: ClientId)
    ensures var s' := Apply(cfg, s, RevokeByJti(jti, presenter));
            && s' == s.(records := s'.records, log := s.log + [RevokedJti(jti, presenter)])
            && s'.records.Keys == s.records.Keys
            && forall j :: j in s.records ==> s'.records[j] == if j == jti then s.records[j].(revoked := true) else s.records[j]
  {
  }

  lemma RevokeByUserExactly(cfg: Config, s: State, user: Id, within: Option<Id>)
    ensures var s' := Apply(cfg, s, RevokeByUser(user, within));
            && s' == s.(records := s'.records, log := s.log + [RevokedUser(user, within)])
            && s'.records.Keys == s.records.Keys
            && forall j :: j in s.records ==>
                 var was := s.records[j];
                 s'.records[j] == if was.kind == User && was.sub == user && (within.None? || within == was.org)
                                  then was.(revoked := true) else was
  {
  }

  // Retiring touches the active keys only; a new key is active at once.
  lemma RetireExactly(cfg: Config, s: State)
    ensures var s' := Apply(cfg, s, Retire);
            && s' == s.(keys := s'.keys) && s'.keys.Keys == s.keys.Keys
            && forall k :: k in s.keys ==>
                 s'.keys[k] == if s.keys[k].retiredAt.None? then KeyRow(s.keys[k].createdAt, Some(s.now)) else s.keys[k]
  {
  }

  function Exec(cfg: Config, s: State, actions: seq<Action>): State {
    if actions == [] then s
    else Apply(cfg, Exec(cfg, s, actions[..|actions| - 1]), actions[|actions| - 1])
  }

  ghost predicate Reachable(cfg: Config, s: State) {
    exists actions :: s == Exec(cfg, Init, actions)
  }

  // --------------------------------------------------------------- validation

  // What the bearer-token check answers in a state.
  function Validate(cfg: Config, s: State, jwt: Jwt, audience: Option<ClientId>): Option<Validated> {
    CheckToken(cfg, s.keys, s.records, s.signed, s.active, s.now, jwt, audience)
  }

  // ---------------------------------------------------------------- the service

  // The handlers on the tables themselves, statement by statement.
  class TokenAuthority {
    const cfg: Config
    var keys: Keys
    var records: map<Id, Record>

    constructor (cfg: Config)
      ensures this.cfg == cfg && keys == map[] && records == map[]
    {
      this.cfg := cfg;
      keys, records := map[], map[];
    }

    // The newest key that is not retired; a fresh one only when there is none.
    method EnsureActiveKey(freshKid: Id, now: Time) returns (kid: Id)
      requires freshKid !in keys && forall k :: k in keys ==> keys[k].createdAt <= now
      modifies this`keys
      ensures kid in keys && keys[kid].retiredAt.None?
      ensures forall k :: k in keys && keys[k].retiredAt.None? ==> keys[k].createdAt <= keys[kid].createdAt
      ensures keys == if exists k :: k in old(keys) && old(keys)[k].retiredAt.None?
                      then old(keys) else old(keys)[freshKid := KeyRow(now, None)]
    {
      var candidates := set k | k in keys && keys[k].retiredAt.None?;
      if candidates == {} {
        assert forall k :: k in keys ==> k !in candidates;
        keys := keys[freshKid := KeyRow(now, None)];
        return freshKid;
      }
      kid :| kid in candidates;
      var rest := candidates - {kid};
      while rest != {}
        invariant rest <= candidates && kid in candidates
        invariant forall k :: k in candidates && k !in rest ==> keys[k].createdAt <= keys[kid].createdAt
        decreases rest
      {
        var k :| k in rest;
        if keys[k].createdAt > keys[kid].createdAt {
          kid := k;
        }
        rest := rest - {k};
      }
    }

    // Retires whatever is active and stores a new key: afterwards the new key
    // is the only active one, and every key that verified still does.
    method RotateKey(freshKid: Id, now: Time)
      requires freshKid !in keys
      modifies this`keys
      ensures keys == RetireKeys(old(keys), now)[freshKid := KeyRow(now, None)]
      ensures keys.Keys == old(keys).Keys + {freshKid} && keys[freshKid] == KeyRow(now, None)
      ensures forall k :: k in old(keys) ==>
                && keys[k].createdAt == old(keys)[k].createdAt
                && keys[k].retiredAt == if old(keys)[k].retiredAt.Some? then old(keys)[k].retiredAt else Some(now)
      ensures forall k :: IsActiveKey(keys, k) <==> k == freshKid
      ensures VerificationKeys(keys, now) == VerificationKeys(old(keys), now) + {freshKid}
    {
      keys := RetireKeys(keys, now);
      keys := keys[freshKid := KeyRow(now, None)];
    }

    method MintAccessToken(freshKid: Id, jti: Id, req: Request, now: nat) returns (jwt: Jwt, expiresIn: int)
      requires freshKid !in keys && jti !in records && forall k :: k in keys ==> keys[k].createdAt <= now
      modifies this`keys, this`records
      // Signed with the newest key that is not retired, whose id the header names.
      ensures jwt.alg == RS256 && jwt.kid == jwt.signer && jwt.signer.Some?
      ensures jwt.signer.value in keys && keys[jwt.signer.value].retiredAt.None?
      ensures forall k :: k in keys && keys[k].retiredAt.None? ==> keys[k].createdAt <= keys[jwt.signer.value].createdAt
      // Token, record and answer agree on the lifetime, which is the configured one.
      ensures jwt.claims.exp - now / SECOND == expiresIn == cfg.ttlSeconds
      ensures records.Keys == old(records).Keys + {jti} && forall j :: j in old(records) ==> records[j] == old(records)[j]
      ensures records[jti].expiresAt == (now / SECOND + cfg.ttlSeconds) * SECOND && !records[jti].revoked
      // Both speak of the actor, organization and client of the request.
      ensures jwt.claims.iss == cfg.issuer && jwt.claims.jti == Some(jti)
      ensures jwt.claims.sub == records[jti].sub == req.actor.id && jwt.claims.org == records[jti].org == req.org
      ensures jwt.claims.aud == records[jti].client == req.client
      ensures jwt.claims.kind == Some(req.actor.kind) && records[jti].kind == req.actor.kind
      ensures jwt.claims.scope == Some(JoinScopes(req.scopes))
      ensures jwt == SignAccess(cfg, jwt.signer.value, jti, req, now) && records[jti] == RecordOf(req, jwt.claims.exp)
    {
      var kid := EnsureActiveKey(freshKid, now);
      var issuedAt := now / SECOND;
      var exp := issuedAt + cfg.ttlSeconds;
      var claims := Claims(cfg.issuer, req.actor.id, req.client, exp, Some(jti), Some(req.actor.kind), req.org,
                           Some(JoinScopes(req.scopes)));
      jwt := Jwt(RS256, Some(kid), claims, Some(kid));
      records := records[jti := Record(req.actor.kind, req.actor.id, req.org, req.client, exp * SECOND, false)];
      expiresIn := exp - issuedAt;
    }

    // The access-token half of `revoke_user_tokens`: exactly the records of the
    // user, everywhere or in one organization, are revoked.
    method RevokeUserTokens(user: Id, within: Option<Id>)
      modifies this`records
      ensures records == RevokeUser(old(records), user, within)
      ensures records.Keys == old(records).Keys
      ensures forall j :: j in records ==>
                var was := old(records)[j];
                && (records[j].revoked <==> was.revoked || (was.kind == User && was.sub == user && (within.None? || within == was.org)))
                && records[j] == was.(revoked := records[j].revoked)
    {
      records := RevokeUser(records, user, within);
    }

    // The bearer-token check. On first boot it generates the key that is missing.
    method ValidateAccessToken(freshKid: Id, signed: set<Jwt>, active: Active, now: nat, jwt: Jwt, audience: Option<ClientId>)
      returns (result: Option<Validated>)
      requires freshKid !in keys && forall k :: k in keys ==> keys[k].createdAt <= now
      modifies this`keys
      ensures result == CheckToken(cfg, keys, records, signed, active, now, jwt, audience)
      ensures keys == old(keys) || keys == old(keys)[freshKid := KeyRow(now, None)]
      ensures keys != old(keys) ==> jwt.alg == RS256 && forall k :: k in old(keys) ==> old(keys)[k].retiredAt.Some?
    {
      if jwt.alg != RS256 {
        return None;
      }
      var _ := EnsureActiveKey(freshKid, now);
      result := CheckAgainstKeys(signed, active, now, jwt, audience);
    }

    // The rest of the check, in the order of its queries.
    method CheckAgainstKeys(signed: set<Jwt>, active: Active, now: nat, jwt: Jwt, audience: Option<ClientId>)
      returns (result: Option<Validated>)
      requires jwt.alg == RS256
      ensures result == CheckToken(cfg, keys, records, signed, active, now, jwt, audience)
    {
      var tried := VerificationKeys(keys, now);
      var decoded := false;
      while tried != {} && !decoded
        invariant tried <= VerificationKeys(keys, now)
        invariant decoded ==> SomeKeyDecodes(cfg, keys, signed, jwt, now)
        invariant forall k :: k in VerificationKeys(keys, now) && k !in tried && !decoded ==>
                    !((jwt.kid.None? || jwt.kid == Some(k)) && Decodes(cfg, signed, jwt, k, now))
        decreases tried
      {
        var k :| k in tried;
        decoded := (jwt.kid.None? || jwt.kid == Some(k)) && Decodes(cfg, signed, jwt, k, now);
        tried := tried - {k};
      }
      if !decoded {
        return None;
      }
      if audience.Some? && audience.value != jwt.claims.aud {
        return None;
      }
      if jwt.claims.jti.None? || jwt.claims.jti.value !in records {
        return None;
      }
      var record := records[jwt.claims.jti.value];
      if record.revoked || record.expiresAt <= now || Some(record.kind) != jwt.claims.kind
         || record.sub != jwt.claims.sub || record.org != jwt.claims.org || record.client != jwt.claims.aud {
        return None;
      }
      if jwt.claims.org.None? {
        return None;
      }
      var actor := Actor(jwt.claims.kind.value, jwt.claims.sub);
      if (actor, jwt.claims.org.value) !in active {
        return None;
      }
      var scopes: seq<Scope> := [];
      if jwt.claims.scope.Some? {
        scopes := SplitAtSpaces(jwt.claims.scope.value);
      }
      return Some(Validated(jwt.claims.jti.value, actor, jwt.claims.org.value, jwt.claims.aud, scopes));
    }
  }

  // --------------------------------------------------------- reading the log

  predicate Revokes(e: Event, claims: Claims) {
    match e
    case Issued(_, _, _, _) => false
    case RevokedJti(jti, _) => claims.jti == Some(jti)
    case RevokedUser(user, within) => claims.kind == Some(User) && claims.sub == user && (within.None? || within == claims.org)
  }

  predicate IssuedBy(e: Event, jwt: Jwt) {
    e.Issued? && e.jwt == jwt
  }

  ghost predicate WasIssued(log: seq<Event>, jwt: Jwt) {
    exists i :: 0 <= i < |log| && IssuedBy(log[i], jwt)
  }

  // A revocation that covers the token was called after the token was issued.
  ghost predicate WasRevoked(log: seq<Event>, jwt: Jwt) {
    exists i, j :: 0 <= i < j < |log| && IssuedBy(log[i], jwt) && Revokes(log[j], jwt.claims)
  }

  lemma LogGrows(log: seq<Event>, e: Event, jwt: Jwt)
    ensures WasIssued(log + [e], jwt) <==> WasIssued(log, jwt) || IssuedBy(e, jwt)
    ensures WasRevoked(log + [e], jwt) <==> WasRevoked(log, jwt) || (WasIssued(log, jwt) && Revokes(e, jwt.claims))
  {
    var bigger := log + [e];
    assert bigger[|log|] == e;
    if WasIssued(log, jwt) {
      var i :| 0 <= i < |log| && IssuedBy(log[i], jwt);
      assert IssuedBy(bigger[i], jwt);
      if Revokes(e, jwt.claims) {
        assert IssuedBy(bigger[i], jwt) && Revokes(bigger[|log|], jwt.claims);
      }
    }
    if WasRevoked(log, jwt) {
      var i, j :| 0 <= i < j < |log| && IssuedBy(log[i], jwt) && Revokes(log[j], jwt.claims);
      assert IssuedBy(bigger[i], jwt) && Revokes(bigger[j], jwt.claims);
    }
  }

  // ------------------------------------------------------------- invariant

  // A key held since `selectedAt` has not been retired before that.
  ghost predicate KeyGood(s: State, kid: Id, selectedAt: nat) {
    kid in s.keys && selectedAt <= s.now && (s.keys[kid].retiredAt.Some? ==> s.keys[kid].retiredAt.value >= selectedAt)
  }

  ghost predicate TokenGood(cfg: Config, s: State, jwt: Jwt, req: Request, selectedAt: nat, signedAt: nat) {
    && jwt in s.signed && jwt.claims.jti.Some? && selectedAt <= signedAt <= s.now
    && jwt.signer.Some? && KeyGood(s, jwt.signer.value, selectedAt)
    && jwt == SignAccess(cfg, jwt.signer.value, jwt.claims.jti.value, req, signedAt)
  }

  ghost predicate SignedGood(cfg: Config, s: State, jwt: Jwt) {
    && jwt.alg == RS256 && jwt.claims.iss == cfg.issuer && jwt.signer.Some? && jwt.kid == jwt.signer
    && jwt.signer.value in s.keys
    && (jwt.claims.jti.Some? ==> jwt.claims.jti.value in s.used)
  }

  // The record is that of the token, and marked as the log tells.
  ghost predicate RecordTells(log: seq<Event>, r: Record, jwt: Jwt) {
    && Some(r.kind) == jwt.claims.kind && r.sub == jwt.claims.sub && r.org == jwt.claims.org
    && r.client == jwt.claims.aud && r.expiresAt == jwt.claims.exp * SECOND
    && (r.revoked <==> WasRevoked(log, jwt))
  }

  ghost predicate RecordGood(s: State, jwt: Jwt) {
    var jti := jwt.claims.jti;
    var told := jti.Some? && jti.value in s.records && RecordTells(s.log, s.records[jti.value], jwt);
    told
  }

  ghost predicate MintGood(cfg: Config, s: State, m: Mint) {
    match m
    case KeyHeld(kid, selectedAt) => KeyGood(s, kid, selectedAt)
    case SignedToken(jwt, req, selectedAt, signedAt) =>
      TokenGood(cfg, s, jwt, req, selectedAt, signedAt) && jwt.claims.jti.value !in s.records
  }

  ghost predicate EventGood(cfg: Config, s: State, e: Event) {
    e.Issued? ==> TokenGood(cfg, s, e.jwt, e.req, e.selectedAt, e.signedAt) && RecordGood(s, e.jwt)
  }

  // Every record belongs to an issued token.
  ghost predicate JtiIssued(s: State, jti: Id) {
    exists jwt :: WasIssued(s.log, jwt) && jwt.claims.jti == Some(jti)
  }

  ghost predicate AllSigned(cfg: Config, s: State) {
    forall jwt {:trigger SignedGood(cfg, s, jwt)} :: jwt in s.signed ==> SignedGood(cfg, s, jwt)
  }

  ghost predicate OneJwtPerJti(s: State) {
    forall a, b :: a in s.signed && b in s.signed && a.claims.jti.Some? && a.claims.jti == b.claims.jti ==> a == b
  }

  ghost predicate AllMints(cfg: Config, s: State) {
    forall pid {:trigger MintGood(cfg, s, s.mints[pid])} :: pid in s.mints ==> MintGood(cfg, s, s.mints[pid])
  }

  ghost predicate DistinctMints(s: State) {
    forall p, q :: p in s.mints && q in s.mints && p != q && s.mints[p].SignedToken? && s.mints[q].SignedToken?
                   ==> s.mints[p].jwt != s.mints[q].jwt
  }

  ghost predicate AllEvents(cfg: Config, s: State) {
    forall e {:trigger EventGood(cfg, s, e)} :: e in s.log ==> EventGood(cfg, s, e)
  }

  ghost predicate AllRecords(s: State) {
    forall jti {:trigger JtiIssued(s, jti)} :: jti in s.records ==> JtiIssued(s, jti)
  }

  // Log and records tell the same.
  ghost predicate Told(cfg: Config, s: State) {
    var told := AllEvents(cfg, s) && AllRecords(s);
    told
  }

  ghost predicate KeysUsed(s: State) {
    (forall k :: k in s.keys ==> k in s.used) && (forall k :: k in s.keys && s.keys[k].retiredAt.Some? ==> s.keys[k].retiredAt.value <= s.now)
  }

  ghost predicate Inv(cfg: Config, s: State) {
    var signed := AllSigned(cfg, s) && OneJwtPerJti(s) && KeysUsed(s);
    var mints := AllMints(cfg, s) && DistinctMints(s);
    var linked := signed && mints && Told(cfg, s);
    linked
  }

  // ------------------------------------------- every step keeps the invariant

  // Keys are added and retired, never removed or revived.
  ghost predicate KeysEvolve(s: State, s': State) {
    && s.now <= s'.now && s.used <= s'.used && s.signed <= s'.signed
    && (forall k :: k in s.keys ==>
          k in s'.keys && (s'.keys[k].retiredAt == s.keys[k].retiredAt
                           || (s'.keys[k].retiredAt.Some? && s'.keys[k].retiredAt.value >= s.now)))
  }

  lemma TokenStaysGood(cfg: Config, s: State, s': State, jwt: Jwt, req: Request, selectedAt: nat, signedAt: nat)
    requires TokenGood(cfg, s, jwt, req, selectedAt, signedAt) && KeysEvolve(s, s')
    ensures TokenGood(cfg, s', jwt, req, selectedAt, signedAt)
  {
  }

  lemma SignedStaysGood(cfg: Config, s: State, s': State)
    requires AllSigned(cfg, s) && KeysEvolve(s, s')
    requires forall jwt :: jwt in s'.signed && jwt !in s.signed ==> SignedGood(cfg, s', jwt)
    ensures AllSigned(cfg, s')
  {
    forall jwt | jwt in s'.signed
      ensures SignedGood(cfg, s', jwt)
    {
      if jwt in s.signed {
        assert SignedGood(cfg, s, jwt);
      }
    }
  }

  lemma MintsStayGood(cfg: Config, s: State, s': State)
    requires AllMints(cfg, s) && KeysEvolve(s, s')
    requires forall jti :: jti in s'.records && jti !in s.records ==>
               forall pid :: pid in s'.mints && s'.mints[pid].SignedToken? ==> s'.mints[pid].jwt.claims.jti != Some(jti)
    requires forall pid :: pid in s'.mints ==>
               (pid in s.mints && s'.mints[pid] == s.mints[pid]) || MintGood(cfg, s', s'.mints[pid])
    ensures AllMints(cfg, s')
  {
    forall pid | pid in s'.mints
      ensures MintGood(cfg, s', s'.mints[pid])
    {
      if pid in s.mints && s'.mints[pid] == s.mints[pid] {
        var m := s.mints[pid];
        assert MintGood(cfg, s, m);
        if m.SignedToken? {
          TokenStaysGood(cfg, s, s', m.jwt, m.req, m.selectedAt, m.signedAt);
        }
      }
    }
  }

  lemma QuietEvents(cfg: Config, s: State, s': State)
    requires Told(cfg, s) && KeysEvolve(s, s') && s'.log == s.log && s'.records == s.records
    ensures Told(cfg, s')
  {
    forall e | e in s'.log
      ensures EventGood(cfg, s', e)
    {
      assert EventGood(cfg, s, e);
      if e.Issued? {
        TokenStaysGood(cfg, s, s', e.jwt, e.req, e.selectedAt, e.signedAt);
      }
    }
    forall jti | jti in s'.records
      ensures JtiIssued(s', jti)
    {
      assert JtiIssued(s, jti);
    }
  }

  // Steps that neither record nor revoke.
  lemma QuietStep(cfg: Config, s: State, s': State)
    requires Inv(cfg, s) && KeysEvolve(s, s') && KeysUsed(s') && s'.log == s.log && s'.records == s.records
    requires forall jwt :: jwt in s'.signed && jwt !in s.signed ==>
               && SignedGood(cfg, s', jwt)
               && forall other :: other in s'.signed && jwt.claims.jti.Some? && other.claims.jti == jwt.claims.jti ==> other == jwt
    requires forall pid :: pid in s'.mints ==>
               (pid in s.mints && s'.mints[pid] == s.mints[pid]) || MintGood(cfg, s', s'.mints[pid])
    requires DistinctMints(s')
    ensures Inv(cfg, s')
  {
    SignedStaysGood(cfg, s, s');
    MintsStayGood(cfg, s, s');
    QuietEvents(cfg, s, s');
  }

  lemma SelectKeepsInv(cfg: Config, s: State, a: Action)
    requires Inv(cfg, s) && (a.SelectKey? || a.GenerateKey?)
    ensures Inv(cfg, ApplySelectKey(s, a))
  {
    QuietStep(cfg, s, ApplySelectKey(s, a));
  }

  lemma SignAccessKeepsInv(cfg: Config, s: State, a: Action)
    requires Inv(cfg, s) && a.SignAccessToken?
    ensures Inv(cfg, ApplySignAccess(cfg, s, a))
  {
    var s' := ApplySignAccess(cfg, s, a);
    if s' != s {
      var held := s.mints[a.pid];
      var jwt := s'.mints[a.pid].jwt;
      assert MintGood(cfg, s, held);
      FreshJti(cfg, s, a.jti);
      assert MintGood(cfg, s', s'.mints[a.pid]);
      SignedMintsAreSigned(cfg, s);
      QuietStep(cfg, s, s');
    }
  }

  lemma SignedMintsAreSigned(cfg: Config, s: State)
    requires AllMints(cfg, s)
    ensures forall pid :: pid in s.mints && s.mints[pid].SignedToken? ==> s.mints[pid].jwt in s.signed
  {
    forall pid | pid in s.mints && s.mints[pid].SignedToken?
      ensures s.mints[pid].jwt in s.signed
    {
      assert MintGood(cfg, s, s.mints[pid]);
    }
  }

  lemma FreshJti(cfg: Config, s: State, jti: Id)
    requires Inv(cfg, s) && jti !in s.used
    ensures forall jwt :: jwt in s.signed ==> jwt.claims.jti != Some(jti)
    ensures jti !in s.records
  {
    forall jwt | jwt in s.signed
      ensures jwt.claims.jti != Some(jti)
    {
      assert SignedGood(cfg, s, jwt);
    }
    if jti in s.records {
      assert JtiIssued(s, jti);
      var jwt :| WasIssued(s.log, jwt) && jwt.claims.jti == Some(jti);
      IssuedIsGood(cfg, s, jwt);
      assert false;
    }
  }

  lemma IssuedIsGood(cfg: Config, s: State, jwt: Jwt)
    requires AllEvents(cfg, s) && WasIssued(s.log, jwt)
    ensures var good := jwt in s.signed && RecordGood(s, jwt); good
    ensures exists req: Request, selectedAt: nat, signedAt: nat ::
              Issued(jwt, req, selectedAt, signedAt) in s.log && TokenGood(cfg, s, jwt, req, selectedAt, signedAt)
  {
    var i :| 0 <= i < |s.log| && IssuedBy(s.log[i], jwt);
    assert EventGood(cfg, s, s.log[i]);
    assert s.log[i] == Issued(jwt, s.log[i].req, s.log[i].selectedAt, s.log[i].signedAt);
  }

  lemma SignIdKeepsInv(cfg: Config, s: State, a: Action)
    requires Inv(cfg, s) && a.SignIdToken?
    ensures Inv(cfg, ApplySignId(cfg, s, a))
  {
    var s' := ApplySignId(cfg, s, a);
    if s' != s {
      assert MintGood(cfg, s, s.mints[a.pid]);
      QuietStep(cfg, s, s');
    }
  }

  lemma RecordEvents(cfg: Config, s: State, s': State, pid: Id)
    requires Inv(cfg, s) && pid in s.mints && s.mints[pid].SignedToken?
    requires s' == ApplyRecord(s, RecordToken(pid))
    ensures Told(cfg, s')
  {
    var m := s.mints[pid];
    var e := Issued(m.jwt, m.req, m.selectedAt, m.signedAt);
    assert MintGood(cfg, s, m);
    forall e' | e' in s'.log
      ensures EventGood(cfg, s', e')
    {
      if e'.Issued? {
        LogGrows(s.log, e, e'.jwt);
        if e' in s.log {
          assert EventGood(cfg, s, e');
          TokenStaysGood(cfg, s, s', e'.jwt, e'.req, e'.selectedAt, e'.signedAt);
        } else {
          TokenStaysGood(cfg, s, s', m.jwt, m.req, m.selectedAt, m.signedAt);
          NeverIssuedYet(cfg, s, m.jwt);
        }
      }
    }
    forall jti | jti in s'.records
      ensures JtiIssued(s', jti)
    {
      if jti in s.records {
        assert JtiIssued(s, jti);
        var jwt :| WasIssued(s.log, jwt) && jwt.claims.jti == Some(jti);
        LogGrows(s.log, e, jwt);
      } else {
        LogGrows(s.log, e, m.jwt);
      }
    }
  }

  lemma NeverIssuedYet(cfg: Config, s: State, jwt: Jwt)
    requires AllEvents(cfg, s) && (jwt.claims.jti.Some? ==> jwt.claims.jti.value !in s.records)
    ensures !WasIssued(s.log, jwt)
  {
    if WasIssued(s.log, jwt) {
      IssuedIsGood(cfg, s, jwt);
    }
  }

  lemma RecordKeepsInv(cfg: Config, s: State, a: Action)
    requires Inv(cfg, s) && a.RecordToken?
    ensures Inv(cfg, ApplyRecord(s, a))
  {
    var s' := ApplyRecord(s, a);
    if a.pid in s.mints && s.mints[a.pid].SignedToken? {
      RecordEvents(cfg, s, s', a.pid);
      SignedStaysGood(cfg, s, s');
      SignedMintsAreSigned(cfg, s);
      assert MintGood(cfg, s, s.mints[a.pid]);
      MintsStayGood(cfg, s, s');
    }
  }

  // One UPDATE that marks the records of the tokens the event speaks of.
  ghost predicate RevokesExactly(s: State, s': State, e: Event) {
    && s' == s.(records := s'.records, log := s.log + [e]) && !e.Issued?
    && s'.records.Keys == s.records.Keys
    && (forall j :: j in s.records ==> s'.records[j] == s.records[j].(revoked := s'.records[j].revoked))
    && (forall jwt :: RecordGood(s, jwt) ==>
          (s'.records[jwt.claims.jti.value].revoked <==>
             s.records[jwt.claims.jti.value].revoked || Revokes(e, jwt.claims)))
  }

  lemma RevocationKeepsInv(cfg: Config, s: State, s': State, e: Event)
    requires Inv(cfg, s) && RevokesExactly(s, s', e)
    ensures Inv(cfg, s')
  {
    SignedStaysGood(cfg, s, s');
    MintsStayGood(cfg, s, s');
    forall e' | e' in s'.log
      ensures EventGood(cfg, s', e')
    {
      if e'.Issued? {
        assert EventGood(cfg, s, e');
        TokenStaysGood(cfg, s, s', e'.jwt, e'.req, e'.selectedAt, e'.signedAt);
        LogGrows(s.log, e, e'.jwt);
        assert e' in s.log;
        var i :| 0 <= i < |s.log| && s.log[i] == e';
        assert IssuedBy(s.log[i], e'.jwt);
      }
    }
    forall jti | jti in s'.records
      ensures JtiIssued(s', jti)
    {
      assert JtiIssued(s, jti);
      var jwt :| WasIssued(s.log, jwt) && jwt.claims.jti == Some(jti);
      LogGrows(s.log, e, jwt);
    }
  }

  lemma RevokeKeepsInv(cfg: Config, s: State, a: Action)
    requires Inv(cfg, s) && (a.RevokeByJti? || a.RevokeByUser?)
    ensures Inv(cfg, ApplyRevoke(s, a))
  {
    RevocationKeepsInv(cfg, s, ApplyRevoke(s, a),
                       if a.RevokeByJti? then RevokedJti(a.jti, a.presenter) else RevokedUser(a.user, a.within));
  }

  // Every atomic step keeps the invariant.
  lemma ApplyKeepsInv(cfg: Config, s: State, a: Action)
    requires Inv(cfg, s)
    ensures Inv(cfg, Apply(cfg, s, a))
  {
    match a
    case Tick(elapsed) => QuietStep(cfg, s, s.(now := s.now + elapsed));
    case SetActive(actor, org, on) =>
      QuietStep(cfg, s, s.(active := if on then s.active + {(actor, org)} else s.active - {(actor, org)}));
    case Retire => QuietStep(cfg, s, s.(keys := RetireKeys(s.keys, s.now)));
    case InsertKey(kid) => QuietStep(cfg, s, ApplyInsertKey(s, kid));
    case SelectKey(_, _) => SelectKeepsInv(cfg, s, a);
    case GenerateKey(_, _) => SelectKeepsInv(cfg, s, a);
    case SignAccessToken(_, _, _) => SignAccessKeepsInv(cfg, s, a);
    case SignIdToken(_, _) => SignIdKeepsInv(cfg, s, a);
    case RecordToken(_) => RecordKeepsInv(cfg, s, a);
    case RevokeByJti(_, _) => RevokeKeepsInv(cfg, s, a);
    case RevokeByUser(_, _) => RevokeKeepsInv(cfg, s, a);
  }

  lemma {:induction false} ExecKeepsInv(cfg: Config, s: State, actions: seq<Action>)
    requires Inv(cfg, s)
    ensures Inv(cfg, Exec(cfg, s, actions))
    decreases |actions|
  {
    if actions != [] {
      ExecKeepsInv(cfg, s, actions[..|actions| - 1]);
      ApplyKeepsInv(cfg, Exec(cfg, s, actions[..|actions| - 1]), actions[|actions| - 1]);
    }
  }

  lemma ReachableInv(cfg: Config, s: State)
    requires Reachable(cfg, s)
    ensures Inv(cfg, s)
  {
    var actions :| s == Exec(cfg, Init, actions);
    ExecKeepsInv(cfg, Init, actions);
  }

  // ---------------------------------------------------------- main results

  // A token signed at this instant lives for the configured time, counted in whole seconds.
  function ExpiryOf(cfg: Config, signedAt: nat): int {
    (signedAt / SECOND + cfg.ttlSeconds) * SECOND
  }

  // Key grace: a token that expires at most 24 hours after its key was
  // selected finds that key among the verification keys at every instant
  // before it expires, whatever was rotated in between.
  lemma KeyOutlivesToken(cfg: Config, s: State, jwt: Jwt, req: Request, selectedAt: nat, signedAt: nat)
    requires Reachable(cfg, s) && Issued(jwt, req, selectedAt, signedAt) in s.log
    requires ExpiryOf(cfg, signedAt) - selectedAt <= 24 * 3600 * SECOND
    requires s.now < ExpiryOf(cfg, signedAt)
    ensures exists kid :: jwt.kid == jwt.signer == Some(kid) && kid in VerificationKeys(s.keys, s.now)
  {
    ReachableInv(cfg, s);
    assert EventGood(cfg, s, Issued(jwt, req, selectedAt, signedAt));
    assert SignedGood(cfg, s, jwt);
    assert jwt.signer.value in VerificationKeys(s.keys, s.now);
  }

  predicate ActorActive(active: Active, claims: Claims) {
    claims.kind.Some? && claims.org.Some? && (Actor(claims.kind.value, claims.sub), claims.org.value) in active
  }

  // Exactly which JWTs the bearer-token check accepts, in every reachable
  // state and for any JWT a caller may present; an ID token is never one of them.
  lemma ValidationIsExact(cfg: Config, s: State, jwt: Jwt, audience: Option<ClientId>)
    requires Reachable(cfg, s)
    ensures Validate(cfg, s, jwt, audience).Some? <==>
              && WasIssued(s.log, jwt)
              && s.now < jwt.claims.exp * SECOND
              && !WasRevoked(s.log, jwt)
              && ActorActive(s.active, jwt.claims)
              && (audience.Some? ==> audience.value == jwt.claims.aud)
              && jwt.signer.Some? && jwt.signer.value in VerificationKeys(s.keys, s.now)
    ensures forall kid, req, at: nat :: Validate(cfg, s, SignId(cfg, kid, req, at), audience).None?
    ensures Validate(cfg, s, jwt, audience).Some? ==>
              Validate(cfg, s, jwt, audience).value
              == Validated(jwt.claims.jti.value, Actor(jwt.claims.kind.value, jwt.claims.sub), jwt.claims.org.value,
                           jwt.claims.aud, ScopesOf(jwt.claims))
  {
    ReachableInv(cfg, s);
    if WasIssued(s.log, jwt) {
      IssuedIsGood(cfg, s, jwt);
      assert SignedGood(cfg, s, jwt);
      if s.now < jwt.claims.exp * SECOND && jwt.signer.value in VerificationKeys(s.keys, s.now) {
        assert Decodes(cfg, s.signed, jwt, jwt.signer.value, s.now);
      }
    }
    if Validate(cfg, s, jwt, audience).Some? {
      AcceptedWasIssued(cfg, s, jwt, audience);
    }
  }

  lemma AcceptedWasIssued(cfg: Config, s: State, jwt: Jwt, audience: Option<ClientId>)
    requires Inv(cfg, s) && Validate(cfg, s, jwt, audience).Some?
    ensures WasIssued(s.log, jwt) && jwt.signer.Some? && jwt.signer.value in VerificationKeys(s.keys, s.now)
  {
    var jti := jwt.claims.jti.value;
    assert JtiIssued(s, jti);
    var issued :| WasIssued(s.log, issued) && issued.claims.jti == Some(jti);
    IssuedIsGood(cfg, s, issued);
    var k :| k in VerificationKeys(s.keys, s.now) && (jwt.kid.None? || jwt.kid == Some(k))
             && Decodes(cfg, s.signed, jwt, k, s.now);
    assert issued == jwt;
  }

  // An accepted token speaks for exactly what it was minted for: actor,
  // organization, client and, in order, the scopes.
  lemma AcceptedIsAsMinted(cfg: Config, s: State, jwt: Jwt, audience: Option<ClientId>)
    requires Reachable(cfg, s) && Validate(cfg, s, jwt, audience).Some?
    ensures exists req, selectedAt, signedAt ::
              && Issued(jwt, req, selectedAt, signedAt) in s.log
              && var v := Validate(cfg, s, jwt, audience).value;
                 && v.actor == req.actor && Some(v.org) == req.org && v.client == req.client
                 && (req.scopes != [] && (forall scope :: scope in req.scopes ==> IsWord(scope)) ==> v.scopes == req.scopes)
  {
    ReachableInv(cfg, s);
    AcceptedWasIssued(cfg, s, jwt, audience);
    IssuedIsGood(cfg, s, jwt);
    var req: Request, selectedAt: nat, signedAt: nat :|
      Issued(jwt, req, selectedAt, signedAt) in s.log && TokenGood(cfg, s, jwt, req, selectedAt, signedAt);
    if req.scopes != [] && forall scope :: scope in req.scopes ==> IsWord(scope) {
      SplitUndoesJoin(req.scopes);
    }
  }

  // A token is accepted at no instant before it was signed, and never once its
  // configured lifetime is over.
  lemma AcceptedWithinLifetime(cfg: Config, s: State, jwt: Jwt, req: Request, selectedAt: nat, signedAt: nat,
                               audience: Option<ClientId>)
    requires Reachable(cfg, s) && Issued(jwt, req, selectedAt, signedAt) in s.log
    requires Validate(cfg, s, jwt, audience).Some?
    ensures signedAt <= s.now < (signedAt / SECOND + cfg.ttlSeconds) * SECOND
  {
    ReachableInv(cfg, s);
    assert EventGood(cfg, s, Issued(jwt, req, selectedAt, signedAt));
  }

  // Within the grace period the keys drop out of the characterisation:
  // rotation never makes a token unusable. It is accepted exactly while its
  // configured lifetime lasts, nobody has revoked it since it was issued, and
  // the actor it was minted for is active in its organization.
  lemma ValidationIgnoresRotation(cfg: Config, s: State, jwt: Jwt, req: Request, selectedAt: nat, signedAt: nat)
    requires Reachable(cfg, s) && Issued(jwt, req, selectedAt, signedAt) in s.log
    requires (signedAt / SECOND + cfg.ttlSeconds) * SECOND - selectedAt <= 24 * 3600 * SECOND
    ensures Validate(cfg, s, jwt, None).Some? <==>
              && s.now < (signedAt / SECOND + cfg.ttlSeconds) * SECOND
              && !WasRevoked(s.log, jwt)
              && req.org.Some? && (req.actor, req.org.value) in s.active
    ensures signedAt <= s.now
  {
    ValidationIsExact(cfg, s, jwt, None);
    var i :| 0 <= i < |s.log| && s.log[i] == Issued(jwt, req, selectedAt, signedAt);
    assert IssuedBy(s.log[i], jwt);
    ReachableInv(cfg, s);
    assert EventGood(cfg, s, s.log[i]);
    if s.now < ExpiryOf(cfg, signedAt) {
      KeyOutlivesToken(cfg, s, jwt, req, selectedAt, signedAt);
    }
  }

  lemma ReachableStep(cfg: Config, s: State, a: Action)
    requires Reachable(cfg, s)
    ensures Reachable(cfg, Apply(cfg, s, a))
  {
    var actions :| s == Exec(cfg, Init, actions);
    assert (actions + [a])[..|actions|] == actions;
    assert Apply(cfg, s, a) == Exec(cfg, Init, actions + [a]);
  }

  lemma {:induction false} ReachableRun(cfg: Config, s: State, later: seq<Action>)
    requires Reachable(cfg, s)
    ensures Reachable(cfg, Exec(cfg, s, later))
    decreases |later|
  {
    if later != [] {
      ReachableRun(cfg, s, later[..|later| - 1]);
      ReachableStep(cfg, Exec(cfg, s, later[..|later| - 1]), later[|later| - 1]);
    }
  }

  lemma LogOnlyGrows(cfg: Config, s: State, a: Action)
    ensures Apply(cfg, s, a).log == s.log || exists e :: Apply(cfg, s, a).log == s.log + [e]
  {
  }

  lemma {:induction false} RevocationLasts(cfg: Config, s: State, later: seq<Action>, jwt: Jwt)
    requires WasRevoked(s.log, jwt)
    ensures WasRevoked(Exec(cfg, s, later).log, jwt)
    decreases |later|
  {
    if later != [] {
      var front, a := later[..|later| - 1], later[|later| - 1];
      RevocationLasts(cfg, s, front, jwt);
      var before := Exec(cfg, s, front);
      LogOnlyGrows(cfg, before, a);
      if Apply(cfg, before, a).log != before.log {
        var e :| Apply(cfg, before, a).log == before.log + [e];
        LogGrows(before.log, e, jwt);
      }
    }
  }

  // A revoked token is never accepted again.
  lemma RevokedIsRejectedForever(cfg: Config, s: State, later: seq<Action>, jwt: Jwt, audience: Option<ClientId>)
    requires Reachable(cfg, s) && WasRevoked(s.log, jwt)
    ensures Validate(cfg, Exec(cfg, s, later), jwt, audience).None?
  {
    ReachableRun(cfg, s, later);
    RevocationLasts(cfg, s, later, jwt);
    ValidationIsExact(cfg, Exec(cfg, s, later), jwt, audience);
  }

  // Revoking a user's tokens covers every token issued to that user by then.
  lemma UserRevocationIsForever(cfg: Config, s: State, user: Id, within: Option<Id>, later: seq<Action>, jwt: Jwt,
                                audience: Option<ClientId>)
    requires Reachable(cfg, s) && WasIssued(s.log, jwt)
    requires jwt.claims.kind == Some(User) && jwt.claims.sub == user && (within.None? || within == jwt.claims.org)
    ensures Validate(cfg, Exec(cfg, Apply(cfg, s, RevokeByUser(user, within)), later), jwt, audience).None?
  {
    ReachableStep(cfg, s, RevokeByUser(user, within));
    LogGrows(s.log, RevokedUser(user, within), jwt);
    RevokedIsRejectedForever(cfg, Apply(cfg, s, RevokeByUser(user, within)), later, jwt, audience);
  }

  // Past the bound some run leaves an unexpired, unrevoked token without a verification key.
  lemma KeyCanBeLost(cfg: Config, selectedAt: nat, signedAt: nat)
    requires selectedAt <= signedAt && cfg.ttlSeconds > 0 && ExpiryOf(cfg, signedAt) - selectedAt > 24 * 3600 * SECOND
    ensures exists s, jwt, req ::
              Reachable(cfg, s) && !WasRevoked(s.log, jwt) && !KeyIsThere(cfg, s, jwt, req, selectedAt, signedAt)
  {
    var req := Request(Actor(User, 0), Some(0), "", ["openid"]);
    var jwt := SignAccess(cfg, 1, 2, req, signedAt);
    var held := HeldState(selectedAt, signedAt);
    KeyHeldEarly(cfg, selectedAt, signedAt);
    var signed := Apply(cfg, held, SignAccessToken(0, 2, req));
    ReachableStep(cfg, held, SignAccessToken(0, 2, req));
    var recorded := Apply(cfg, signed, RecordToken(0));
    ReachableStep(cfg, signed, RecordToken(0));
    assert recorded.log == [Issued(jwt, req, selectedAt, signedAt)];
    var end := selectedAt + KEY_GRACE;
    var wait := if signedAt < end then end - signedAt else 0;
    var s := Apply(cfg, recorded, Tick(wait));
    ReachableStep(cfg, recorded, Tick(wait));
    assert signedAt < ExpiryOf(cfg, signedAt);
    assert !WasRevoked(s.log, jwt) && !KeyIsThere(cfg, s, jwt, req, selectedAt, signedAt);
  }

  // A handler has selected a key that was retired at once, and is slow.
  function HeldState(selectedAt: nat, signedAt: nat): State {
    Init.(now := signedAt, keys := map[1 := KeyRow(selectedAt, Some(selectedAt))],
          mints := map[0 := KeyHeld(1, selectedAt)], used := {1})
  }

  lemma KeyHeldEarly(cfg: Config, selectedAt: nat, signedAt: nat)
    requires selectedAt <= signedAt
    ensures Reachable(cfg, HeldState(selectedAt, signedAt))
  {
    assert Init == Exec(cfg, Init, []);
    var s0 := Apply(cfg, Init, Tick(selectedAt));
    ReachableStep(cfg, Init, Tick(selectedAt));
    var s1 := Apply(cfg, s0, GenerateKey(0, 1));
    ReachableStep(cfg, s0, GenerateKey(0, 1));
    var s2 := Apply(cfg, s1, Retire);
    ReachableStep(cfg, s1, Retire);
    ReachableStep(cfg, s2, Tick(signedAt - selectedAt));
    assert Apply(cfg, s2, Tick(signedAt - selectedAt)) == HeldState(selectedAt, signedAt);
  }

  ghost predicate KeyIsThere(cfg: Config, s: State, jwt: Jwt, req: Request, selectedAt: nat, signedAt: nat) {
    Issued(jwt, req, selectedAt, signedAt) in s.log && s.now < ExpiryOf(cfg, signedAt) ==>
      jwt.signer.Some? && jwt.signer.value in VerificationKeys(s.keys, s.now)
  }

  // For every pair of instants: no run loses the key of an unexpired token
  // selected at the one and signed at the other, if and only if the token
  // expires at most 24 hours after the selection, or at once.
  lemma GraceConditionIsExact(cfg: Config, selectedAt: nat, signedAt: nat)
    requires selectedAt <= signedAt
    ensures (forall s, jwt, req :: Reachable(cfg, s) ==> KeyIsThere(cfg, s, jwt, req, selectedAt, signedAt))
            <==> ExpiryOf(cfg, signedAt) - selectedAt <= 24 * 3600 * SECOND || cfg.ttlSeconds == 0
  {
    if ExpiryOf(cfg, signedAt) - selectedAt <= 24 * 3600 * SECOND || cfg.ttlSeconds == 0 {
      forall s, jwt, req | Reachable(cfg, s)
        ensures KeyIsThere(cfg, s, jwt, req, selectedAt, signedAt)
      {
        if Issued(jwt, req, selectedAt, signedAt) in s.log && s.now < ExpiryOf(cfg, signedAt) {
          ReachableInv(cfg, s);
          assert EventGood(cfg, s, Issued(jwt, req, selectedAt, signedAt));
          KeyOutlivesToken(cfg, s, jwt, req, selectedAt, signedAt);
        }
      }
    } else {
      KeyCanBeLost(cfg, selectedAt, signedAt);
      var s, jwt, req :| Reachable(cfg, s) && !KeyIsThere(cfg, s, jwt, req, selectedAt, signedAt);
      assert !KeyIsThere(cfg, s, jwt, req, selectedAt, signedAt);
    }
  }
}

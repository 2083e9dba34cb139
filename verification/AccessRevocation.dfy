// Revoking access tokens: what the revocation endpoint touches, and which tokens
// a revocation does not reach.

module AccessRevocation {
  import opened Common
  import opened AccessTokens
  import RT = RefreshTokens

  // ------------------------------------------------------------- the endpoint

  // A presented string, read as a refresh token and as a JWT or bare jti.
  datatype Presented = Presented(token: Id, jti: Option<Id>)

  // What an authenticated client does to both tables.
  function RevokeAt(rows: RT.Table, records: map<Id, Record>, presented: Presented, presenter: ClientId, now: Time)
    : (RT.Table, map<Id, Record>)
  {
    if presented.token in rows then
      var row := rows[presented.token];
      (if row.client == presenter && RT.Live(row) then RT.RevokeOne(rows, row.id, now) else rows, records)
    else
      (rows, if presented.jti.Some? then RevokeJti(records, presented.jti.value) else records)
  }

  class RevocationEndpoint {
    const store: RT.RefreshTokenStore
    var records: map<Id, Record>

    constructor (store: RT.RefreshTokenStore)
      ensures this.store == store && records == map[]
    {
      this.store := store;
      records := map[];
    }

    // Always answered alike. Without authentication nothing happens. A stored
    // refresh token is revoked for its own client, and then the call is over; else
    // the record of the jti is revoked, whoever presents it.
    method Revoke(presented: Presented, presenter: Option<ClientId>, now: Time)
      requires store.Valid()
      modifies this`records, store
      ensures store.Valid() && store.rows.Keys == old(store.rows).Keys && records.Keys == old(records).Keys
      ensures forall id :: id in store.rows ==>
                store.rows[id] ==
                  if presenter.Some? && id == presented.token && old(store.rows)[id].client == presenter.value
                     && old(store.rows)[id].revokedAt.None?
                  then old(store.rows)[id].(revokedAt := Some(now)) else old(store.rows)[id]
      ensures forall jti :: jti in records ==>
                records[jti] ==
                  if presenter.Some? && presented.token !in old(store.rows) && presented.jti == Some(jti)
                  then old(records)[jti].(revoked := true) else old(records)[jti]
      ensures (store.rows, records) ==
                if presenter.None? then old((store.rows, records))
                else RevokeAt(old(store.rows), old(records), presented, presenter.value, now)
    {
      if presenter.None? {
        return;
      }
      assert presented.token in store.rows ==> store.rows[presented.token].id == presented.token;
      var found := store.Revoke(presented.token, presenter.value, now);
      if found || presented.jti.None? {
        return;
      }
      var jti := presented.jti.value;
      if jti in records && !records[jti].revoked {
        records := records[jti := records[jti].(revoked := true)];
      }
      assert records == RevokeJti(old(records), jti);
    }
  }

  // Only tokens issued to the presenting client change.
  predicate KeepsToOwnership(rows: RT.Table, records: map<Id, Record>, rows': RT.Table, records': map<Id, Record>,
                             presenter: ClientId)
  {
    && (forall id :: id in rows ==> id in rows' && (rows'[id] == rows[id] || rows[id].client == presenter))
    && (forall jti :: jti in records ==> jti in records' && (records'[jti] == records[jti] || records[jti].client == presenter))
  }

  // Presenting a token keeps to ownership if and only if it names a stored
  // refresh token, or its jti no unrevoked record, or one of the presenter's own.
  lemma OwnershipIsKeptExactly(rows: RT.Table, records: map<Id, Record>, presented: Presented, presenter: ClientId, now: Time)
    requires forall id :: id in rows ==> rows[id].id == id
    ensures var (rows', records') := RevokeAt(rows, records, presented, presenter, now);
            KeepsToOwnership(rows, records, rows', records', presenter) <==>
              || presented.token in rows
              || presented.jti.None? || presented.jti.value !in records || records[presented.jti.value].revoked
              || records[presented.jti.value].client == presenter
  {
    var (rows', records') := RevokeAt(rows, records, presented, presenter, now);
    if presented.token !in rows && presented.jti.Some? && presented.jti.value in records {
      var r := records[presented.jti.value];
      assert records'[presented.jti.value] == r.(revoked := true);
    }
  }

  // An accepted token is ended by whoever names its jti, and by nobody who names another.
  lemma JtiRevocationIsExact(cfg: Config, s: State, jwt: Jwt, audience: Option<ClientId>, jti: Id, presenter: ClientId)
    requires Reachable(cfg, s) && Validate(cfg, s, jwt, audience).Some?
    ensures Validate(cfg, Apply(cfg, s, RevokeByJti(jti, presenter)), jwt, audience).None? <==> jwt.claims.jti == Some(jti)
  {
    ReachableStep(cfg, s, RevokeByJti(jti, presenter));
    LogGrows(s.log, RevokedJti(jti, presenter), jwt);
    ValidationIsExact(cfg, s, jwt, audience);
    ValidationIsExact(cfg, Apply(cfg, s, RevokeByJti(jti, presenter)), jwt, audience);
  }

  // ----------------------------------------------------------------- a token

  const USER_ACTOR: Actor := Actor(User, 7)

  const REQUEST: Request := Request(USER_ACTOR, Some(1), "first", ["openid"])

  // A token of an active user, signed and not yet recorded.
  function SignedState(cfg: Config): State {
    var jwt := SignAccess(cfg, 1, 2, REQUEST, 0);
    Init.(keys := map[1 := KeyRow(0, None)], signed := {jwt}, active := {(USER_ACTOR, 1)},
          mints := map[0 := SignedToken(jwt, REQUEST, 0, 0)], used := {1, 2})
  }

  lemma SignedUserToken(cfg: Config)
    ensures Reachable(cfg, SignedState(cfg))
  {
    assert Init == Exec(cfg, Init, []);
    var a, b, c := SetActive(USER_ACTOR, 1, true), GenerateKey(0, 1), SignAccessToken(0, 2, REQUEST);
    ReachableStep(cfg, Init, a);
    var s1 := Apply(cfg, Init, a);
    ReachableStep(cfg, s1, b);
    var s2 := Apply(cfg, s1, b);
    ReachableStep(cfg, s2, c);
    assert Apply(cfg, s2, c) == SignedState(cfg);
  }

  lemma RecordedIsAccepted(cfg: Config, s: State, pid: Id)
    requires Reachable(cfg, s) && pid in s.mints && s.mints[pid].SignedToken? && s.now < s.mints[pid].jwt.claims.exp * SECOND
    requires ActorActive(s.active, s.mints[pid].jwt.claims)
    requires s.mints[pid].jwt.signer.Some? && s.mints[pid].jwt.signer.value in VerificationKeys(s.keys, s.now)
    ensures Validate(cfg, Apply(cfg, s, RecordToken(pid)), s.mints[pid].jwt, None).Some?
  {
    var m := s.mints[pid];
    ReachableInv(cfg, s);
    assert MintGood(cfg, s, m);
    NeverIssuedYet(cfg, s, m.jwt);
    NotIssuedNotRevoked(s.log, m.jwt);
    var t := Apply(cfg, s, RecordToken(pid));
    ReachableStep(cfg, s, RecordToken(pid));
    LogGrows(s.log, Issued(m.jwt, m.req, m.selectedAt, m.signedAt), m.jwt);
    ValidationIsExact(cfg, t, m.jwt, None);
  }

  lemma NotIssuedNotRevoked(log: seq<Event>, jwt: Jwt)
    requires !WasIssued(log, jwt)
    ensures !WasRevoked(log, jwt)
  {
  }

  lemma RecordedUserToken(cfg: Config)
    requires cfg.ttlSeconds > 0
    ensures Validate(cfg, Apply(cfg, SignedState(cfg), RecordToken(0)), SignAccess(cfg, 1, 2, REQUEST, 0), None).Some?
  {
    SignedUserToken(cfg);
    RecordedIsAccepted(cfg, SignedState(cfg), 0);
  }

  // One client ends the accepted token of another.
  lemma SomeClientEndsAnothersToken(cfg: Config)
    requires cfg.ttlSeconds > 0
    ensures exists s, jwt, jti, presenter ::
              && Reachable(cfg, s) && Validate(cfg, s, jwt, None).Some? && presenter != jwt.claims.aud
              && Validate(cfg, Apply(cfg, s, RevokeByJti(jti, presenter)), jwt, None).None?
  {
    var jwt := SignAccess(cfg, 1, 2, REQUEST, 0);
    var s := Apply(cfg, SignedState(cfg), RecordToken(0));
    SignedUserToken(cfg);
    ReachableStep(cfg, SignedState(cfg), RecordToken(0));
    RecordedUserToken(cfg);
    JtiRevocationIsExact(cfg, s, jwt, None, 2, "second");
    assert "second"[0] != "first"[0];
  }

  // ------------------------------------------------- tokens that come later

  ghost predicate InFlight(s: State, jwt: Jwt) {
    exists pid :: pid in s.mints && s.mints[pid].SignedToken? && s.mints[pid].jwt == jwt
  }

  // Signed tokens that no handler holds and that were not recorded.
  ghost function Lost(s: State): iset<Jwt> {
    iset jwt | jwt in s.signed && !InFlight(s, jwt) && !WasIssued(s.log, jwt)
  }

  lemma LostStaysLost(cfg: Config, s: State, a: Action, jwt: Jwt)
    requires Reachable(cfg, s) && jwt in Lost(s)
    ensures jwt in Lost(Apply(cfg, s, a))
  {
    var t := Apply(cfg, s, a);
    ReachableInv(cfg, s);
    assert SignedGood(cfg, s, jwt);
    if t.log != s.log {
      LogOnlyGrows(cfg, s, a);
      var e :| t.log == s.log + [e];
      assert e == t.log[|s.log|];
      LogGrows(s.log, e, jwt);
    }
  }

  lemma {:induction false} NeverRecorded(cfg: Config, s: State, later: seq<Action>, jwt: Jwt)
    requires Reachable(cfg, s) && jwt in Lost(s)
    ensures jwt in Lost(Exec(cfg, s, later))
    decreases |later|
  {
    if later != [] {
      var front := later[..|later| - 1];
      NeverRecorded(cfg, s, front, jwt);
      ReachableRun(cfg, s, front);
      LostStaysLost(cfg, Exec(cfg, s, front), later[|later| - 1], jwt);
    }
  }

  // A key that verifies later verifies now, and time does not go back.
  lemma KeysDoNotComeBack(cfg: Config, s: State, a: Action, kid: Id)
    requires Inv(cfg, s) && kid in s.keys
    ensures var t := Apply(cfg, s, a);
            && kid in t.keys && s.now <= t.now
            && (kid in VerificationKeys(t.keys, t.now) ==> kid in VerificationKeys(s.keys, s.now))
  {
  }

  lemma {:induction false} KeysNeverComeBack(cfg: Config, s: State, later: seq<Action>, kid: Id)
    requires Reachable(cfg, s) && kid in s.keys
    ensures var t := Exec(cfg, s, later);
            && kid in t.keys && s.now <= t.now
            && (kid in VerificationKeys(t.keys, t.now) ==> kid in VerificationKeys(s.keys, s.now))
    decreases |later|
  {
    if later != [] {
      var front := later[..|later| - 1];
      KeysNeverComeBack(cfg, s, front, kid);
      ReachableRun(cfg, s, front);
      ReachableInv(cfg, Exec(cfg, s, front));
      KeysDoNotComeBack(cfg, Exec(cfg, s, front), later[|later| - 1], kid);
    }
  }

  ghost predicate AcceptedLater(cfg: Config, s: State, jwt: Jwt) {
    exists later :: Validate(cfg, Exec(cfg, s, later), jwt, None).Some?
  }

  lemma LaterFromNow(cfg: Config, s: State, a: Action, jwt: Jwt)
    requires Validate(cfg, Apply(cfg, s, a), jwt, None).Some?
    ensures Validate(cfg, Exec(cfg, s, [a]), jwt, None).Some?
  {
    assert [a][..0] == [] && Exec(cfg, s, []) == s;
  }

  lemma LaterFromNext(cfg: Config, s: State, a: Action, b: Action, jwt: Jwt)
    requires Validate(cfg, Apply(cfg, Apply(cfg, s, a), b), jwt, None).Some?
    ensures Validate(cfg, Exec(cfg, s, [a, b]), jwt, None).Some?
  {
    assert [a, b][..1] == [a] && [a][..0] == [];
    assert Exec(cfg, s, []) == s && Exec(cfg, s, [a]) == Apply(cfg, s, a);
  }

  // A held token of an organization can be recorded, once its actor is active.
  lemma HeldIsAcceptedLater(cfg: Config, s: State, pid: Id)
    requires Reachable(cfg, s) && pid in s.mints && s.mints[pid].SignedToken? && s.mints[pid].jwt.claims.org.Some?
    requires s.now < s.mints[pid].jwt.claims.exp * SECOND
    requires s.mints[pid].jwt.signer.Some? && s.mints[pid].jwt.signer.value in VerificationKeys(s.keys, s.now)
    ensures AcceptedLater(cfg, s, s.mints[pid].jwt)
  {
    var jwt := s.mints[pid].jwt;
    ReachableInv(cfg, s);
    assert MintGood(cfg, s, s.mints[pid]);
    var a := SetActive(Actor(jwt.claims.kind.value, jwt.claims.sub), jwt.claims.org.value, true);
    ReachableStep(cfg, s, a);
    RecordedIsAccepted(cfg, Apply(cfg, s, a), pid);
    LaterFromNext(cfg, s, a, RecordToken(pid), jwt);
  }

  // In any reachable state: a signed and unrecorded token will be accepted some
  // time if and only if a handler still holds it for recording, it speaks for
  // an organization, has not expired, and its key still verifies.
  lemma UnrecordedIsAcceptedLaterExactly(cfg: Config, s: State, jwt: Jwt)
    requires Reachable(cfg, s) && jwt in s.signed && !WasIssued(s.log, jwt)
    ensures AcceptedLater(cfg, s, jwt) <==>
              && InFlight(s, jwt) && jwt.claims.org.Some? && s.now < jwt.claims.exp * SECOND
              && jwt.signer.Some? && jwt.signer.value in VerificationKeys(s.keys, s.now)
  {
    ReachableInv(cfg, s);
    assert SignedGood(cfg, s, jwt);
    if AcceptedLater(cfg, s, jwt) {
      var later :| Validate(cfg, Exec(cfg, s, later), jwt, None).Some?;
      KeysNeverComeBack(cfg, s, later, jwt.signer.value);
      ReachableRun(cfg, s, later);
      ValidationIsExact(cfg, Exec(cfg, s, later), jwt, None);
      if !InFlight(s, jwt) {
        NeverRecorded(cfg, s, later, jwt);
      }
    } else if InFlight(s, jwt) && jwt.claims.org.Some? && s.now < jwt.claims.exp * SECOND
              && jwt.signer.value in VerificationKeys(s.keys, s.now) {
      var pid :| pid in s.mints && s.mints[pid].SignedToken? && s.mints[pid].jwt == jwt;
      HeldIsAcceptedLater(cfg, s, pid);
    }
  }

  // A user's tokens are revoked. Of all tokens signed for the user by then,
  // recorded or not, exactly those are ever accepted again that a handler holds
  // for recording, for an organization, unexpired and with a verifying key.
  lemma UserRevocationReachesExactly(cfg: Config, s: State, user: Id, within: Option<Id>, jwt: Jwt)
    requires Reachable(cfg, s) && jwt in s.signed
    requires jwt.claims.kind == Some(User) && jwt.claims.sub == user && (within.None? || within == jwt.claims.org)
    ensures AcceptedLater(cfg, Apply(cfg, s, RevokeByUser(user, within)), jwt) <==>
              && InFlight(s, jwt) && jwt.claims.org.Some? && s.now < jwt.claims.exp * SECOND
              && jwt.signer.Some? && jwt.signer.value in VerificationKeys(s.keys, s.now)
  {
    var a := RevokeByUser(user, within);
    var t := Apply(cfg, s, a);
    ReachableStep(cfg, s, a);
    LogGrows(s.log, RevokedUser(user, within), jwt);
    if WasIssued(s.log, jwt) {
      ReachableInv(cfg, s);
      forall later ensures Validate(cfg, Exec(cfg, t, later), jwt, None).None? {
        UserRevocationIsForever(cfg, s, user, within, later, jwt, None);
      }
      if pid :| pid in s.mints && s.mints[pid].SignedToken? && s.mints[pid].jwt == jwt {
        assert MintGood(cfg, s, s.mints[pid]);
        NeverIssuedYet(cfg, s, jwt);
        assert false;
      }
    } else {
      UnrecordedIsAcceptedLaterExactly(cfg, t, jwt);
      assert InFlight(t, jwt) <==> InFlight(s, jwt);
    }
  }

  // A token signed before the revocation and recorded after it is accepted.
  lemma SomeTokenOutlivesUserRevocation(cfg: Config)
    requires cfg.ttlSeconds > 0
    ensures exists s, jwt, user :: Reachable(cfg, s) && jwt in s.signed && jwt.claims.kind == Some(User) && jwt.claims.sub == user
                                   && AcceptedLater(cfg, Apply(cfg, s, RevokeByUser(user, None)), jwt)
  {
    var s, jwt := SignedState(cfg), SignAccess(cfg, 1, 2, REQUEST, 0);
    SignedUserToken(cfg);
    ReachableInv(cfg, s);
    assert MintGood(cfg, s, s.mints[0]);
    assert s.mints[0].jwt == jwt;
    UserRevocationReachesExactly(cfg, s, 7, None, jwt);
  }
}

// The authorization endpoint and the exchanges of codes and refresh tokens as
// one handler goes through them, on the tables themselves.

module OAuthTables {
  import opened Common
  import opened OAuthRuns
  import opened Provenance
  import opened Scopes
  import RT = RefreshTokens

  datatype Exchange = Granted(req: RT.Request, withRefresh: bool) | Failed(error: CodeError) | NoSuchCode

  class CodesAndGrants {
    var codes: map<Id, CodeRow>
    var grants: map<GrantKey, Grant>

    ghost predicate Valid()
      reads this
    {
      forall id :: id in codes ==> codes[id].data.id == id
    }

    constructor ()
      ensures Valid() && codes == map[] && grants == map[]
    {
      codes, grants := map[], map[];
    }

    // From now on the code is exchangeable: exactly until it expires, by its
    // client, on its redirect URI if one is given, with a verifier for its
    // challenge, while the user is a member.
    method IssueAuthCode(data: CodeData)
      requires Valid() && data.id !in codes
      modifies this`codes
      ensures Valid() && codes == old(codes)[data.id := CodeRow(data, false)]
      ensures forall s256: string -> string, presenter: ClientId, verifier: string, redirect: Option<string>, member: bool, at: Time ::
                CheckCode(s256, codes[data.id], presenter, verifier, redirect, member, at).None? <==>
                  && at <= data.expiresAt && presenter == data.client && s256(verifier) == data.challenge && member
                  && (redirect.None? || redirect.value == data.redirect)
    {
      codes := codes[data.id := CodeRow(data, false)];
    }

    // Whether a request may skip the consent page.
    method CoveredByGrant(key: GrantKey, scopes: seq<Scope>) returns (covered: bool)
      ensures covered <==> key in grants && !grants[key].revoked && forall s :: s in scopes ==> s in grants[key].scopes
    {
      if key !in grants || grants[key].revoked {
        return false;
      }
      for i := 0 to |scopes|
        invariant forall j :: 0 <= j < i ==> scopes[j] in grants[key].scopes
      {
        if scopes[i] !in grants[key].scopes {
          return false;
        }
      }
      return true;
    }

    // Merges the scopes of a redeemed code into the stored grant.
    method UpsertGrant(key: GrantKey, scopes: seq<Scope>)
      modifies this`grants
      ensures grants == WriteGrant(old(grants), key, scopes, StoredScopes(old(grants), key))
      ensures grants.Keys == old(grants).Keys + {key} && forall k :: k in old(grants) && k != key ==> grants[k] == old(grants)[k]
      ensures key !in old(grants) ==> grants[key] == Grant(scopes, false)
      ensures key in old(grants) ==> grants[key].revoked == old(grants)[key].revoked
      ensures forall s :: s in grants[key].scopes ==> s in scopes || (key in old(grants) && s in old(grants)[key].scopes)
      ensures key in old(grants) ==> forall s :: s in old(grants)[key].scopes ==> s in grants[key].scopes
    {
      UpsertBounds(grants, key, scopes);
      var merged := scopes;
      if key in grants {
        var stored := grants[key].scopes;
        for i := 0 to |stored|
          invariant Merge(merged, stored[i..]) == Merge(scopes, stored)
        {
          if stored[i] !in merged {
            merged := merged + [stored[i]];
          }
        }
      }
      if merged == scopes {
        if key !in grants {
          grants := grants[key := Grant(merged, false)];
        }
      } else if key in grants {
        grants := grants[key := grants[key].(scopes := merged)];
      }
    }

    // The exchange of an authorization code up to the point of minting.
    method TokenAuthCode(s256: string -> string, members: set<(Id, Id)>, id: Id, presenter: ClientId,
                         verifier: string, redirectParam: Option<string>, now: Time)
      returns (result: Exchange)
      requires Valid()
      modifies this
      ensures Valid()
      ensures result == NoSuchCode <==> id !in old(codes)
      ensures id in old(codes) ==>
                var row := old(codes)[id];
                var error := CheckCode(s256, row, presenter, verifier, redirectParam, (row.data.user, row.data.org) in members, now);
                if error.Some? then result == Failed(error.value)
                else result == Granted(CodeRequest(row.data), "offline_access" in row.data.scopes)
      // The first check that fails decides the answer.
      ensures result == Failed(AlreadyUsed) <==> id in old(codes) && old(codes)[id].used
      ensures result == Failed(CodeExpired) <==> id in old(codes) && !old(codes)[id].used && old(codes)[id].data.expiresAt < now
      ensures result == Failed(WrongClient) <==>
                id in old(codes) && !old(codes)[id].used && now <= old(codes)[id].data.expiresAt && old(codes)[id].data.client != presenter
      ensures result == Failed(RedirectMismatch) <==>
                && id in old(codes) && !old(codes)[id].used && now <= old(codes)[id].data.expiresAt
                && old(codes)[id].data.client == presenter
                && redirectParam.Some? && redirectParam.value != old(codes)[id].data.redirect
      // Tokens are granted if and only if every check passes, for what the code was issued for.
      ensures result.Granted? <==>
                && id in old(codes) && !old(codes)[id].used && now <= old(codes)[id].data.expiresAt
                && old(codes)[id].data.client == presenter
                && (redirectParam.None? || redirectParam.value == old(codes)[id].data.redirect)
                && s256(verifier) == old(codes)[id].data.challenge
                && (old(codes)[id].data.user, old(codes)[id].data.org) in members
      ensures result == Failed(NotAMember) ==>
                id in old(codes) && s256(verifier) == old(codes)[id].data.challenge
                && (old(codes)[id].data.user, old(codes)[id].data.org) !in members
      ensures result == Failed(PkceFailed) ==> id in old(codes) && s256(verifier) != old(codes)[id].data.challenge
      ensures result.Granted? ==>
                var data := old(codes)[id].data;
                && result.req == RT.Request(presenter, Actor(User, data.user), data.org, data.scopes)
                && (result.withRefresh <==> "offline_access" in data.scopes)
                && codes == old(codes)[id := CodeRow(data, true)]
                && GrantKey(presenter, data.user, data.org) in grants
      ensures !result.Granted? ==> codes == old(codes) && grants == old(grants)
      ensures result.Granted? ==>
                var data := old(codes)[id].data;
                && codes == ConsumeCode(old(codes), id).0 && ConsumeCode(old(codes), id).1
                && grants == WriteGrant(old(grants), KeyOfCode(data, presenter), data.scopes,
                                        StoredScopes(old(grants), KeyOfCode(data, presenter)))
    {
      if id !in codes {
        return NoSuchCode;
      }
      var row := codes[id];
      if row.used {
        return Failed(AlreadyUsed);
      }
      if row.data.expiresAt < now {
        return Failed(CodeExpired);
      }
      if row.data.client != presenter {
        return Failed(WrongClient);
      }
      if redirectParam.Some? && redirectParam.value != row.data.redirect {
        return Failed(RedirectMismatch);
      }
      if s256(verifier) != row.data.challenge {
        return Failed(PkceFailed);
      }
      if (row.data.user, row.data.org) !in members {
        return Failed(NotAMember);
      }
      codes := codes[id := row.(used := true)];
      UpsertGrant(GrantKey(presenter, row.data.user, row.data.org), row.data.scopes);
      return Granted(RT.Request(presenter, Actor(User, row.data.user), row.data.org, row.data.scopes),
                     "offline_access" in row.data.scopes);
    }
  }

  // ----------------------------------------------------- the authorization endpoint

  datatype AuthorizeAnswer =
    | ErrorPage(reason: ClientProblem)
    | SentBack(error: RequestProblem)
    | NoSupportedScope
    | LoginPage
    | ConsentPage
    | CodeIssuedTo(code: CodeData)

  // Problems that are never reported to the redirect URI.
  datatype ClientProblem = UnknownClient | Disabled | UnregisteredRedirect

  datatype RequestProblem = UnsupportedResponseType | PkceRequired | OpenIdRequired | NoOrganization | AccessDenied

  datatype AuthorizeParams = AuthorizeParams(
    client: ClientId, redirect: string, responseType: string, scope: string, challenge: string, challengeMethod: string,
    prompt: Option<string>)

  // The checks of `authorize` in their order, for the signed-in user, if there
  // is one. A code is issued if and only if all pass and nothing has to be asked.
  method AuthorizeRequest(tables: CodesAndGrants, clients: map<ClientId, Client>, members: set<(Id, Id)>,
                          params: AuthorizeParams, user: Option<Id>, id: Id, now: Time, ttl: nat)
    returns (answer: AuthorizeAnswer)
    requires tables.Valid() && id !in tables.codes
    modifies tables`codes
    ensures tables.Valid()
    ensures answer == ErrorPage(UnknownClient) <==> params.client !in clients
    ensures answer == ErrorPage(Disabled) <==> params.client in clients && !clients[params.client].enabled
    ensures answer == ErrorPage(UnregisteredRedirect) <==>
              params.client in clients && clients[params.client].enabled && params.redirect !in clients[params.client].redirects
    // Nothing is ever sent to a redirect URI that the application has not registered.
    ensures answer.SentBack? || answer.CodeIssuedTo? ==>
              params.client in clients && clients[params.client].enabled && params.redirect in clients[params.client].redirects
    ensures answer == SentBack(UnsupportedResponseType) <==> !answer.ErrorPage? && params.responseType != "code"
    ensures answer == SentBack(PkceRequired) <==>
              !answer.ErrorPage? && params.responseType == "code" && (params.challengeMethod != "S256" || params.challenge == "")
    ensures answer == LoginPage ==> user.None? || params.prompt == Some("login")
    ensures answer == SentBack(RequestProblem.AccessDenied) ==>
              user.Some? && clients[params.client].org.Some? && (user.value, clients[params.client].org.value) !in members
    ensures answer.CodeIssuedTo? <==>
              && params.client in clients && clients[params.client].enabled && params.redirect in clients[params.client].redirects
              && params.responseType == "code" && params.challengeMethod == "S256" && params.challenge != ""
              && ParseScopes(params.scope).Some? && "openid" in ParseScopes(params.scope).value
              && user.Some? && params.prompt != Some("login") && params.prompt != Some("consent")
              && clients[params.client].org.Some? && (user.value, clients[params.client].org.value) in members
              && var key := GrantKey(params.client, user.value, clients[params.client].org.value);
                 key in tables.grants && !tables.grants[key].revoked
                 && forall s :: s in ParseScopes(params.scope).value ==> s in tables.grants[key].scopes
    ensures answer == ConsentPage ==> clients[params.client].org.Some? && user.Some?
                                      && (user.value, clients[params.client].org.value) in members
    ensures answer.CodeIssuedTo? ==>
              && answer.code == CodeData(id, params.client, user.value, clients[params.client].org.value,
                                         ParseScopes(params.scope).value, params.challenge, params.redirect, now + ttl)
              && tables.codes == old(tables.codes)[id := CodeRow(answer.code, false)]
    ensures !answer.CodeIssuedTo? ==> tables.codes == old(tables.codes)
  {
    if params.client !in clients {
      return ErrorPage(UnknownClient);
    }
    var client := clients[params.client];
    if !client.enabled {
      return ErrorPage(Disabled);
    }
    if params.redirect !in client.redirects {
      return ErrorPage(UnregisteredRedirect);
    }
    if params.responseType != "code" {
      return SentBack(UnsupportedResponseType);
    }
    if params.challengeMethod != "S256" || params.challenge == "" {
      return SentBack(PkceRequired);
    }
    var scopes := ParseScopes(params.scope);
    if scopes.None? {
      return NoSupportedScope;
    }
    if "openid" !in scopes.value {
      return SentBack(OpenIdRequired);
    }
    if user.None? || params.prompt == Some("login") {
      return LoginPage;
    }
    if client.org.None? {
      return SentBack(NoOrganization);
    }
    if (user.value, client.org.value) !in members {
      return SentBack(RequestProblem.AccessDenied);
    }
    var covered := tables.CoveredByGrant(GrantKey(params.client, user.value, client.org.value), scopes.value);
    if params.prompt == Some("consent") || !covered {
      return ConsentPage;
    }
    var code := CodeData(id, params.client, user.value, client.org.value, scopes.value, params.challenge, params.redirect, now + ttl);
    tables.IssueAuthCode(code);
    return CodeIssuedTo(code);
  }

  // ------------------------------------------------------------ the refresh grant

  datatype RefreshAnswer =
    | Refreshed(req: RT.Request, token: Id)
    | InvalidToken
    | OtherClients
    | TokenExpired
    | MembershipInactive
    | FamilyRevoked
    | TokenRevoked

  // `token_refresh` up to the point of minting. Who may present a token, and
  // that all that a refused caller can change is to give a stolen family away.
  method TokenRefresh(store: RT.RefreshTokenStore, members: set<(Id, Id)>, token: Id, presenter: ClientId, newId: Id,
                      now: Time, ttl: nat)
    returns (answer: RefreshAnswer)
    requires store.Valid() && newId !in store.rows
    modifies store
    ensures store.Valid()
    ensures answer.InvalidToken? <==> token !in old(store.rows)
    ensures answer.OtherClients? <==> token in old(store.rows) && old(store.rows)[token].client != presenter
    ensures answer.TokenExpired? <==>
              token in old(store.rows) && old(store.rows)[token].client == presenter && old(store.rows)[token].expiresAt < now
    ensures answer.MembershipInactive? <==>
              && token in old(store.rows) && old(store.rows)[token].client == presenter && now <= old(store.rows)[token].expiresAt
              && old(store.rows)[token].actor.kind == User
              && (old(store.rows)[token].actor.id, old(store.rows)[token].org) !in members
    ensures answer.Refreshed? <==>
              && token in old(store.rows) && old(store.rows)[token].client == presenter && now <= old(store.rows)[token].expiresAt
              && (old(store.rows)[token].actor.kind == User ==>
                    (old(store.rows)[token].actor.id, old(store.rows)[token].org) in members)
              && old(store.rows)[token].revokedAt.None?
    ensures answer.FamilyRevoked? ==>
              && (exists other :: other in old(store.rows) && old(store.rows)[other].rotatedFrom == Some(token))
              && token in old(store.rows) && RT.Dead(store.rows, old(store.rows)[token].family)
    ensures answer.TokenRevoked? ==>
              && token in old(store.rows) && old(store.rows)[token].revokedAt.Some?
              && forall other :: other in old(store.rows) ==> old(store.rows)[other].rotatedFrom != Some(token)
    ensures answer.Refreshed? ==>
              var was := old(store.rows)[token];
              var row := RT.Row(newId, was.family, Some(token), presenter, was.actor, was.org, was.scopes, now + ttl, None, None);
              && answer.req == RT.Request(presenter, was.actor, was.org, was.scopes) && answer.token == newId
              && store.rows == old(store.rows)[token := was.(revokedAt := Some(now))][newId := row]
    ensures !answer.Refreshed? && !answer.FamilyRevoked? ==> store.rows == old(store.rows)
  {
    var found := store.FindRefreshToken(token);
    if found.None? {
      return InvalidToken;
    }
    var row := found.value;
    if row.client != presenter {
      return OtherClients;
    }
    if row.expiresAt < now {
      return TokenExpired;
    }
    if row.actor.kind == User && (row.actor.id, row.org) !in members {
      return MembershipInactive;
    }
    var outcome := store.RotateRefreshToken(row, newId, now, ttl);
    if outcome.ReuseDetected? {
      return FamilyRevoked;
    }
    if outcome.Revoked? {
      return TokenRevoked;
    }
    return Refreshed(RT.Request(presenter, row.actor, row.org, row.scopes), newId);
  }
}

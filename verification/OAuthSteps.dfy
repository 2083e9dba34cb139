// What one step of a handler does to the tables: who may take it, what it
// stores, and that a step whose guard fails changes nothing.

module OAuthSteps {
  import opened Common
  import opened Scopes
  import opened OAuthRuns
  import RT = RefreshTokens

  // The application is enabled and has an organization, the redirect URI is one
  // of its own, and the user is an active member of that organization.
  predicate Trusted(s: State, user: Id, client: ClientId, redirect: string) {
    && client in s.clients && s.clients[client].enabled && redirect in s.clients[client].redirects
    && s.clients[client].org.Some? && (user, s.clients[client].org.value) in s.members
  }

  // A consent stores one unused code, for exactly what was asked and approved,
  // if and only if the application may be trusted and a supported scope is asked for.
  lemma ConsentExactly(s256: string -> string, s: State, user: Id, client: ClientId, scope: string, challenge: string,
                       redirect: string, id: Id, ttl: nat)
    ensures var s' := Apply(s256, s, Consent(user, client, scope, challenge, redirect, id, ttl));
            var scopes := ParseScopes(scope);
            if Trusted(s, user, client, redirect) && scopes.Some? && id !in s.used then
              var org := s.clients[client].org.value;
              var code := CodeData(id, client, user, org, scopes.value, challenge, redirect, s.refresh.now + ttl);
              s' == s.(codes := s.codes[id := CodeRow(code, false)], used := s.used + {id},
                       log := s.log + [ConsentGiven(user, client, org, scopes.value)] + [CodeIssued(code)])
            else s' == s
  {
  }

  // The consent page is skipped if and only if, in addition, the request is for
  // OpenID with a challenge, and an unrevoked grant holds every scope of it.
  lemma SilentAuthorizationExactly(s256: string -> string, s: State, pid: Id, user: Id, client: ClientId, scope: string,
                                   challenge: string, redirect: string, id: Id, ttl: nat)
    ensures var s' := Apply(s256, s, Authorize(pid, user, client, scope, challenge, redirect, id, ttl));
            var scopes := ParseScopes(scope);
            if && Trusted(s, user, client, redirect) && scopes.Some? && "openid" in scopes.value && challenge != ""
               && id !in s.used && pid !in s.procs
               && var key := GrantKey(client, user, s.clients[client].org.value);
                  key in s.grants && !s.grants[key].revoked && forall x :: x in scopes.value ==> x in s.grants[key].scopes
            then
              var code := CodeData(id, client, user, s.clients[client].org.value, scopes.value, challenge, redirect,
                                   s.refresh.now + ttl);
              s' == s.(procs := s.procs[pid := Authorizing(code)], used := s.used + {id})
            else s' == s
  {
  }

  // The code of a silent authorization is stored unused.
  lemma IssueCodeExactly(s256: string -> string, s: State, pid: Id)
    ensures var s' := Apply(s256, s, IssueCode(pid));
            if pid in s.procs && s.procs[pid].Authorizing? then
              var code := s.procs[pid].data;
              s' == s.(codes := s.codes[code.id := CodeRow(code, false)], log := s.log + [CodeIssued(code)], procs := s.procs - {pid})
            else s' == s
  {
  }

  // A handler takes a code along if and only if it is unused and unexpired, its
  // registered client presents it, on its redirect URI if one is given, with a
  // verifier for its challenge, and its user is still a member.
  lemma LoadCodeExactly(s256: string -> string, s: State, pid: Id, id: Id, presenter: ClientId, verifier: string,
                        redirectParam: Option<string>)
    ensures var s' := Apply(s256, s, LoadCode(pid, id, presenter, verifier, redirectParam));
            if && pid !in s.procs && presenter in s.clients && id in s.codes
               && !s.codes[id].used && s.refresh.now <= s.codes[id].data.expiresAt
               && s.codes[id].data.client == presenter
               && (redirectParam.None? || redirectParam.value == s.codes[id].data.redirect)
               && s256(verifier) == s.codes[id].data.challenge
               && (s.codes[id].data.user, s.codes[id].data.org) in s.members
            then s' == s.(procs := s.procs[pid := CodeLoaded(s.codes[id].data, presenter, verifier)])
            else s' == s
  {
  }

  // The code is marked used; whoever comes second ends with nothing.
  lemma UseCodeExactly(s256: string -> string, s: State, pid: Id)
    ensures var s' := Apply(s256, s, UseCode(pid));
            if pid in s.procs && s.procs[pid].CodeLoaded? then
              var (data, presenter, verifier) := (s.procs[pid].data, s.procs[pid].presenter, s.procs[pid].verifier);
              if data.id in s.codes && !s.codes[data.id].used
              then s' == s.(codes := s.codes[data.id := CodeRow(s.codes[data.id].data, true)],
                            procs := s.procs[pid := CodeConsumed(data, presenter, verifier)])
              else s' == s.(procs := s.procs - {pid})
            else s' == s
  {
  }

  // What is stored for the grant, if anything is, is read before it is written.
  lemma ReadGrantExactly(s256: string -> string, s: State, pid: Id)
    ensures var s' := Apply(s256, s, ReadGrant(pid));
            if pid in s.procs && s.procs[pid].CodeConsumed? then
              var (data, presenter, verifier) := (s.procs[pid].data, s.procs[pid].presenter, s.procs[pid].verifier);
              var key := GrantKey(presenter, data.user, data.org);
              s' == s.(procs := s.procs[pid := GrantRead(data, presenter, verifier,
                                                         if key in s.grants then Some(s.grants[key].scopes) else None)])
            else s' == s
  {
  }

  // From the stored grant to the point of minting: for the presenter and the
  // user, with a refresh token if and only if offline access was approved.
  lemma StoreGrantExactly(s256: string -> string, s: State, pid: Id)
    ensures var s' := Apply(s256, s, StoreGrant(pid));
            if pid in s.procs && s.procs[pid].GrantRead? then
              var (data, presenter, verifier) := (s.procs[pid].data, s.procs[pid].presenter, s.procs[pid].verifier);
              && s' == s.(grants := s'.grants, procs := s'.procs)
              && s'.procs == s.procs[pid := Minting(FromCode(data, presenter, verifier),
                                               RT.Request(presenter, Actor(User, data.user), data.org, data.scopes),
                                               "offline_access" in data.scopes)]
            else s' == s
  {
  }

  lemma MintAccessExactly(s256: string -> string, s: State, pid: Id)
    ensures var s' := Apply(s256, s, MintAccess(pid));
            if pid in s.procs && s.procs[pid].Minting? then
              var p := s.procs[pid];
              s' == s.(log := s.log + [AccessMinted(p.source, p.req)],
                       procs := if p.withRefresh then s.procs[pid := Refreshing(p.source, p.req)] else s.procs - {pid})
            else s' == s
  {
  }

  // A machine or a device gets an access token for OpenID alone.
  lemma MintMachineExactly(s256: string -> string, s: State, actor: Actor, client: ClientId, org: Id)
    ensures var s' := Apply(s256, s, MintMachine(actor, client, org));
            if actor.kind == User then s' == s
            else s' == s.(log := s.log + [AccessMinted(FromMachine, RT.Request(client, actor, org, ["openid"]))])
  {
  }

  // The first refresh token of an exchange: live, in a family of its own, for
  // what was minted before it, and for the whole configured lifetime.
  lemma MintRefreshExactly(s256: string -> string, s: State, pid: Id, token: Id, family: Id, ttl: nat)
    ensures var s' := Apply(s256, s, MintRefresh(pid, token, family, ttl));
            if && pid in s.procs && s.procs[pid].Refreshing? && token != family
               && token !in s.refresh.used && family !in s.refresh.used
            then
              var p := s.procs[pid];
              && s'.refresh.table == s.refresh.table[token := RT.Row(token, family, None, p.req.client, p.req.actor, p.req.org,
                                                                     p.req.scopes, s.refresh.now + ttl, None, None)]
              && s' == s.(refresh := s'.refresh, procs := s.procs - {pid}, log := s.log + [FamilyIssued(p.source, family, p.req)])
            else s' == s
  {
  }

  // A handler takes a refresh token along if and only if it is stored, its own
  // registered client presents it, it has not expired, and its user, if it is a
  // user's, is an active member. It may well be revoked already.
  lemma LoadRefreshExactly(s256: string -> string, s: State, pid: Id, token: Id, presenter: ClientId)
    ensures var s' := Apply(s256, s, LoadRefresh(pid, token, presenter));
            if && pid !in s.procs && presenter in s.clients && token in s.refresh.table
               && s.refresh.table[token].client == presenter
               && s.refresh.now <= s.refresh.table[token].expiresAt
               && (s.refresh.table[token].actor.kind == User ==>
                     (s.refresh.table[token].actor.id, s.refresh.table[token].org) in s.members)
            then
              && s' == s.(procs := s.procs[pid := RefreshLoaded(s.refresh.table[token], presenter)], refresh := s'.refresh)
              && s'.refresh == s.refresh.(held := s.refresh.held + {s.refresh.table[token]})
            else s' == s
  {
  }

  // It goes on to mint, for the presenter and the token's actor and scopes, if
  // and only if the stored token is still there and not revoked; else it ends.
  lemma RotateRefreshExactly(s256: string -> string, s: State, pid: Id, token: Id, ttl: nat)
    ensures var s' := Apply(s256, s, RotateRefresh(pid, token, ttl));
            if pid in s.procs && s.procs[pid].RefreshLoaded? && token !in s.refresh.used then
              var (stale, presenter) := (s.procs[pid].stale, s.procs[pid].presenter);
              && s' == s.(procs := s'.procs, refresh := s'.refresh)
              && s'.procs == (if stale.id in s.refresh.table && s.refresh.table[stale.id].revokedAt.None?
                              then s.procs[pid := Minting(FromRefresh(stale, presenter),
                                                     RT.Request(presenter, stale.actor, stale.org, stale.scopes), false)]
                              else s.procs - {pid})
            else s' == s
  {
  }

  // Revoking an application: its grant is marked, and the live refresh tokens of
  // that application, user and organization, and no others, stop being live.
  lemma RevokeGrantExactly(s256: string -> string, s: State, user: Id, client: ClientId, org: Id)
    ensures var s' := Apply(s256, s, RevokeGrant(user, client, org));
            var key := GrantKey(client, user, org);
            if key !in s.grants then s' == s
            else
              && s' == s.(grants := s.grants[key := Grant(s.grants[key].scopes, true)], refresh := s'.refresh)
              && s'.refresh.table.Keys == s.refresh.table.Keys
              && forall id :: id in s.refresh.table ==>
                   var row := s.refresh.table[id];
                   s'.refresh.table[id] ==
                     if row.client == client && row.actor == Actor(User, user) && row.org == org && row.revokedAt.None?
                     then row.(revokedAt := Some(s.refresh.now)) else row
  {
  }

  // Only applications with an organization start the device grant; the code is
  // pending, and lives for 15 minutes.
  lemma StartDeviceExactly(s256: string -> string, s: State, client: ClientId, scope: string, id: Id)
    ensures var s' := Apply(s256, s, StartDevice(client, scope, id));
            var scopes := ParseScopes(if scope == "" then "openid profile email" else scope);
            if client in s.clients && s.clients[client].org.Some? && scopes.Some? && id !in s.used then
              var data := DeviceData(id, client, s.clients[client].org.value, scopes.value, s.refresh.now + 900 * SECOND);
              s' == s.(devices := s.devices[id := DeviceRow(data, Pending, None, None)], used := s.used + {id},
                       log := s.log + [DeviceStarted(data)])
            else s' == s
  {
  }

  // Members of the application's organization decide, while the code is pending
  // and has not expired.
  lemma DecideDeviceExactly(s256: string -> string, s: State, user: Id, id: Id, approve: bool)
    ensures var s' := Apply(s256, s, DecideDevice(user, id, approve));
            if && id in s.devices && s.devices[id].status == Pending && s.refresh.now < s.devices[id].data.expiresAt
               && (user, s.devices[id].data.org) in s.members
            then
              var row := s.devices[id];
              s' == s.(devices := s.devices[id := DeviceRow(row.data, if approve then Approved else Denied,
                                                       if approve then Some(user) else None, row.lastPolledAt)],
                       log := s.log + [if approve then DeviceApproved(row.data, user) else DeviceRefused(id)])
            else s' == s
  {
  }

  // A poll takes an approved, unexpired row along for its own registered client;
  // a pending one keeps the time of the poll; any other poll leaves no trace.
  lemma PollDeviceExactly(s256: string -> string, s: State, pid: Id, id: Id, presenter: ClientId)
    ensures var s' := Apply(s256, s, PollDevice(pid, id, presenter));
            if && pid !in s.procs && id in s.devices && presenter in s.clients && s.devices[id].data.client == presenter
               && s.refresh.now <= s.devices[id].data.expiresAt
            then
              var row := s.devices[id];
              match row.status
              case Approved => s' == s.(procs := s.procs[pid := DeviceLoaded(row, presenter)])
              case Pending => s' == s.(devices := s.devices[id := DeviceRow(row.data, Pending, row.user, Some(s.refresh.now))])
              case _ => s' == s
            else s' == s
  {
    if id in s.devices {
      assert s.devices[id := s.devices[id]] == s.devices;
    }
  }

  // The approval is consumed by one handler; whoever comes second ends.
  lemma UseApprovalExactly(s256: string -> string, s: State, pid: Id)
    ensures var s' := Apply(s256, s, UseApproval(pid));
            if pid in s.procs && s.procs[pid].DeviceLoaded? then
              var (row, presenter) := (s.procs[pid].row, s.procs[pid].presenter);
              if row.data.id in s.devices && s.devices[row.data.id].status == Approved
              then s' == s.(devices := s.devices[row.data.id := s.devices[row.data.id].(status := Expired)],
                            procs := s.procs[pid := DeviceConsumed(row, presenter)])
              else s' == s.(procs := s.procs - {pid})
            else s' == s
  {
  }

  // Tokens are minted only if the approving user is still a member, with a
  // refresh token if and only if offline access was approved.
  lemma CheckApprovalExactly(s256: string -> string, s: State, pid: Id)
    ensures var s' := Apply(s256, s, CheckApproval(pid));
            if pid in s.procs && s.procs[pid].DeviceConsumed? then
              var (row, presenter) := (s.procs[pid].row, s.procs[pid].presenter);
              if row.user.Some? && (row.user.value, row.data.org) in s.members
              then s' == s.(procs := s.procs[pid := Minting(FromDevice(row.data, row.user.value, presenter),
                              RT.Request(row.data.client, Actor(User, row.user.value), row.data.org, row.data.scopes),
                              "offline_access" in row.data.scopes)])
              else s' == s.(procs := s.procs - {pid})
            else s' == s
  {
  }

  // Deleting an application takes its codes, grants, device codes and refresh tokens with it.
  lemma DeleteClientExactly(s256: string -> string, s: State, client: ClientId)
    ensures var s' := Apply(s256, s, DeleteClient(client));
            && (forall c :: c in s'.clients <==> c in s.clients && c != client)
            && (forall id :: id in s'.codes <==> id in s.codes && s.codes[id].data.client != client)
            && (forall k :: k in s'.grants <==> k in s.grants && k.client != client)
            && (forall id :: id in s'.devices <==> id in s.devices && s.devices[id].data.client != client)
            && (forall id :: id in s'.refresh.table <==> id in s.refresh.table && s.refresh.table[id].client != client)
            && (forall id :: id in s'.codes ==> s'.codes[id] == s.codes[id])
            && (forall k :: k in s'.grants ==> s'.grants[k] == s.grants[k])
            && (forall id :: id in s'.devices ==> s'.devices[id] == s.devices[id])
            && (forall id :: id in s'.refresh.table ==> s'.refresh.table[id] == s.refresh.table[id])
            && s'.members == s.members && s'.procs == s.procs
  {
  }

  // Deleting a user takes memberships, codes, grants and approvals, but not the refresh tokens.
  lemma DeleteUserExactly(s256: string -> string, s: State, user: Id)
    ensures var s' := Apply(s256, s, DeleteUser(user));
            && (forall u, org :: (u, org) in s'.members <==> (u, org) in s.members && u != user)
            && (forall id :: id in s'.codes <==> id in s.codes && s.codes[id].data.user != user)
            && (forall k :: k in s'.grants <==> k in s.grants && k.user != user)
            && (forall id :: id in s'.devices <==> id in s.devices && s.devices[id].user != Some(user))
            && (forall id :: id in s'.codes ==> s'.codes[id] == s.codes[id])
            && (forall k :: k in s'.grants ==> s'.grants[k] == s.grants[k])
            && (forall id :: id in s'.devices ==> s'.devices[id] == s.devices[id])
            && s'.clients == s.clients && s'.refresh == s.refresh && s'.procs == s.procs
  {
  }
}

// Consent, authorization codes, grants, the device grant and token minting as
// one transition system over the database tables.
//
// Every action is one SQL statement or transaction (the read-only statements
// of one guard are taken together). A handler between two statements is a
// `Proc` and keeps the rows it read; actions of all handlers interleave freely.
// S256 is any function `s256`; identifiers are fresh when they are generated.

module OAuthRuns {
  import opened Common
  import opened Scopes
  import RT = RefreshTokens

  // ------------------------------------------------------------------ tables

  // The columns of an authorization code that never change.
  datatype CodeData = CodeData(
    id: Id, client: ClientId, user: Id, org: Id, scopes: seq<Scope>,
    challenge: string, redirect: string, expiresAt: Time)

  datatype CodeRow = CodeRow(data: CodeData, used: bool)

  datatype GrantKey = GrantKey(client: ClientId, user: Id, org: Id)

  datatype Grant = Grant(scopes: seq<Scope>, revoked: bool)

  datatype Status = Pending | Approved | Denied | Expired

  datatype DeviceData = DeviceData(id: Id, client: ClientId, org: Id, scopes: seq<Scope>, expiresAt: Time)

  datatype DeviceRow = DeviceRow(data: DeviceData, status: Status, user: Option<Id>, lastPolledAt: Option<Time>)

  datatype Client = Client(org: Option<Id>, enabled: bool, redirects: set<string>)

  const DEVICE_CODE_TTL := 900 * SECOND

  const POLL_INTERVAL := 5 * SECOND

  // -------------------------------------------------------------- handlers

  // Where the right to mint comes from, and which client presented it.
  datatype Source =
    | FromCode(data: CodeData, presenter: ClientId, verifier: string)
    | FromDevice(device: DeviceData, user: Id, presenter: ClientId)
    | FromRefresh(stale: RT.Row, presenter: ClientId)
    | FromMachine

  datatype Proc =
    | Authorizing(data: CodeData)
    | CodeLoaded(data: CodeData, presenter: ClientId, verifier: string)
    | CodeConsumed(data: CodeData, presenter: ClientId, verifier: string)
    | GrantRead(data: CodeData, presenter: ClientId, verifier: string, existing: Option<seq<Scope>>)
    | DeviceLoaded(row: DeviceRow, presenter: ClientId)
    | DeviceConsumed(row: DeviceRow, presenter: ClientId)
    | RefreshLoaded(stale: RT.Row, presenter: ClientId)
    | Minting(source: Source, req: RT.Request, withRefresh: bool)
    | Refreshing(source: Source, req: RT.Request)

  // What users decided and what was issued, in order.
  datatype Event =
    | ConsentGiven(user: Id, client: ClientId, org: Id, scopes: seq<Scope>)
    | CodeIssued(code: CodeData)
    | DeviceStarted(device: DeviceData)
    | DeviceApproved(device: DeviceData, user: Id)
    | DeviceRefused(id: Id)
    | AccessMinted(source: Source, req: RT.Request)
    | FamilyIssued(source: Source, family: Id, req: RT.Request)

  datatype State = State(
    clients: map<ClientId, Client>,
    members: set<(Id, Id)>,
    codes: map<Id, CodeRow>,
    grants: map<GrantKey, Grant>,
    devices: map<Id, DeviceRow>,
    refresh: RT.State,
    procs: map<Id, Proc>,
    used: set<Id>,
    log: seq<Event>)

  const Init := State(map[], {}, map[], map[], map[], RT.Init, map[], {}, [])

  function Now(s: State): Time {
    s.refresh.now
  }

  function CodeRequest(data: CodeData): RT.Request {
    RT.Request(data.client, Actor(User, data.user), data.org, data.scopes)
  }

  function DeviceRequest(data: DeviceData, user: Id): RT.Request {
    RT.Request(data.client, Actor(User, user), data.org, data.scopes)
  }

  // --------------------------------------------------- statements, on values

  // Whether a stored grant lets `authorize` issue a code without asking.
  predicate GrantCovers(grants: map<GrantKey, Grant>, key: GrantKey, scopes: seq<Scope>) {
    key in grants && !grants[key].revoked && forall s :: s in scopes ==> s in grants[key].scopes
  }

  // Requested scopes, followed by the stored ones that were not requested.
  function Merge(merged: seq<Scope>, stored: seq<Scope>): seq<Scope>
    decreases |stored|
  {
    if stored == [] then merged
    else Merge(if stored[0] in merged then merged else merged + [stored[0]], stored[1..])
  }

  function StoredScopes(grants: map<GrantKey, Grant>, key: GrantKey): Option<seq<Scope>> {
    if key in grants then Some(grants[key].scopes) else None
  }

  // The writing half of the grant upsert, after `existing` was read.
  function WriteGrant(grants: map<GrantKey, Grant>, key: GrantKey, scopes: seq<Scope>, existing: Option<seq<Scope>>)
    : map<GrantKey, Grant>
  {
    var merged := Merge(scopes, if existing.Some? then existing.value else []);
    if merged == scopes then
      if key in grants then grants else grants[key := Grant(merged, false)]
    else
      if key in grants then grants[key := grants[key].(scopes := merged)] else grants
  }

  // Why the token endpoint refuses to exchange a code.
  datatype CodeError = AlreadyUsed | CodeExpired | WrongClient | RedirectMismatch | PkceFailed | NotAMember

  // The checks of the exchange, in their order, on a row just read.
  function CheckCode(s256: string -> string, row: CodeRow, presenter: ClientId, verifier: string,
                     redirectParam: Option<string>, member: bool, now: Time): Option<CodeError>
  {
    if row.used then Some(AlreadyUsed)
    else if row.data.expiresAt < now then Some(CodeExpired)
    else if row.data.client != presenter then Some(WrongClient)
    else if redirectParam.Some? && redirectParam.value != row.data.redirect then Some(RedirectMismatch)
    else if s256(verifier) != row.data.challenge then Some(PkceFailed)
    else if !member then Some(NotAMember)
    else None
  }

  function ConsumeCode(codes: map<Id, CodeRow>, id: Id): (map<Id, CodeRow>, bool) {
    if id in codes && !codes[id].used then (codes[id := codes[id].(used := true)], true) else (codes, false)
  }

  // The approve/deny UPDATE: pending and unexpired rows only.
  function Decide(devices: map<Id, DeviceRow>, id: Id, user: Id, approve: bool, now: Time): (map<Id, DeviceRow>, bool) {
    if id in devices && devices[id].status == Pending && devices[id].data.expiresAt > now then
      (devices[id := devices[id].(status := if approve then Approved else Denied,
                                  user := if approve then Some(user) else None)], true)
    else (devices, false)
  }

  function ConsumeApproval(devices: map<Id, DeviceRow>, id: Id): (map<Id, DeviceRow>, bool) {
    if id in devices && devices[id].status == Approved
    then (devices[id := devices[id].(status := Expired)], true) else (devices, false)
  }

  // What one poll of the token endpoint is told about its device code.
  datatype PollAnswer = ForAnotherClient | ExpiredToken | AccessDenied | Proceed | SlowDown | AuthorizationPending

  function AnswerPoll(row: DeviceRow, presenter: ClientId, now: Time): PollAnswer {
    if row.data.client != presenter then ForAnotherClient
    else if row.status == Expired || row.data.expiresAt < now then ExpiredToken
    else if row.status == Denied then AccessDenied
    else if row.status == Approved then Proceed
    else if row.lastPolledAt.Some? && now - row.lastPolledAt.value < POLL_INTERVAL then SlowDown
    else AuthorizationPending
  }

  // Every poll that finds the code pending, too early or not, is recorded.
  function RecordPoll(row: DeviceRow, presenter: ClientId, now: Time): DeviceRow {
    var answer := AnswerPoll(row, presenter, now);
    if answer.SlowDown? || answer.AuthorizationPending? then row.(lastPolledAt := Some(now)) else row
  }

  // ------------------------------------------------------------------ actions

  datatype Action =
    | OnRefresh(on: RT.Action)
    | SetClient(client: ClientId, settings: Client)
    | SetMember(user: Id, org: Id, active: bool)
    | DeleteClient(client: ClientId)
    | DeleteUser(user: Id)
    | Consent(user: Id, client: ClientId, scope: string, challenge: string, redirect: string, id: Id, ttl: nat)
    | Authorize(pid: Id, user: Id, client: ClientId, scope: string, challenge: string, redirect: string, id: Id, ttl: nat)
    | IssueCode(pid: Id)
    | LoadCode(pid: Id, id: Id, presenter: ClientId, verifier: string, redirectParam: Option<string>)
    | UseCode(pid: Id)
    | ReadGrant(pid: Id)
    | StoreGrant(pid: Id)
    | MintAccess(pid: Id)
    | MintRefresh(pid: Id, token: Id, family: Id, ttl: nat)
    | MintMachine(actor: Actor, client: ClientId, org: Id)
    | LoadRefresh(pid: Id, token: Id, presenter: ClientId)
    | RotateRefresh(pid: Id, token: Id, ttl: nat)
    | RevokeGrant(user: Id, client: ClientId, org: Id)
    | StartDevice(client: ClientId, scope: string, id: Id)
    | DecideDevice(user: Id, id: Id, approve: bool)
    | PollDevice(pid: Id, id: Id, presenter: ClientId)
    | UseApproval(pid: Id)
    | CheckApproval(pid: Id)
    | Abandon(pid: Id)

  function Finish(s: State, pid: Id): State {
    s.(procs := s.procs - {pid})
  }

  function Goto(s: State, pid: Id, proc: Proc): State {
    s.(procs := s.procs[pid := proc])
  }

  function OrgOf(s: State, client: ClientId): Option<Id> {
    if client in s.clients then s.clients[client].org else None
  }

  // The checks `authorize` and `consent` share before they trust a client.
  predicate MayAuthorize(s: State, user: Id, client: ClientId, redirect: string) {
    && client in s.clients && s.clients[client].enabled && redirect in s.clients[client].redirects
    && OrgOf(s, client).Some? && (user, OrgOf(s, client).value) in s.members
  }

  function NewCode(s: State, user: Id, client: ClientId, scopes: seq<Scope>, challenge: string, redirect: string,
                   id: Id, ttl: nat): CodeData
    requires OrgOf(s, client).Some?
  {
    CodeData(id, client, user, OrgOf(s, client).value, scopes, challenge, redirect, Now(s) + ttl)
  }

  function InsertCode(s: State, data: CodeData): State {
    s.(codes := s.codes[data.id := CodeRow(data, false)], log := s.log + [CodeIssued(data)])
  }

  function ApplyConsent(s: State, a: Action): State
    requires a.Consent?
  {
    var parsed := ParseScopes(a.scope);
    if !MayAuthorize(s, a.user, a.client, a.redirect) || parsed.None? || a.id in s.used then s
    else
      var data := NewCode(s, a.user, a.client, parsed.value, a.challenge, a.redirect, a.id, a.ttl);
      var approved := s.(used := s.used + {a.id}, log := s.log + [ConsentGiven(a.user, a.client, data.org, data.scopes)]);
      InsertCode(approved, data)
  }

  // The silent path: a stored grant covers the request.
  function ApplyAuthorize(s: State, a: Action): State
    requires a.Authorize?
  {
    var parsed := ParseScopes(a.scope);
    if !MayAuthorize(s, a.user, a.client, a.redirect) || parsed.None? || a.id in s.used || a.pid in s.procs || a.challenge == "" then s
    else
      var data := NewCode(s, a.user, a.client, parsed.value, a.challenge, a.redirect, a.id, a.ttl);
      if "openid" in data.scopes && GrantCovers(s.grants, GrantKey(a.client, a.user, data.org), data.scopes)
      then Goto(s.(used := s.used + {a.id}), a.pid, Authorizing(data)) else s
  }

  function ApplyIssueCode(s: State, a: Action): State
    requires a.IssueCode?
  {
    if a.pid in s.procs && s.procs[a.pid].Authorizing?
    then Finish(InsertCode(s, s.procs[a.pid].data), a.pid) else s
  }

  function ApplyLoadCode(s256: string -> string, s: State, a: Action): State
    requires a.LoadCode?
  {
    if a.pid in s.procs || a.presenter !in s.clients || a.id !in s.codes then s
    else
      var data := s.codes[a.id].data;
      if CheckCode(s256, s.codes[a.id], a.presenter, a.verifier, a.redirectParam,
                   (data.user, data.org) in s.members, Now(s)).Some? then s
      else Goto(s, a.pid, CodeLoaded(data, a.presenter, a.verifier))
  }

  function ApplyUseCode(s: State, a: Action): State
    requires a.UseCode?
  {
    if a.pid !in s.procs || !s.procs[a.pid].CodeLoaded? then s
    else
      var p := s.procs[a.pid];
      var (codes, hit) := ConsumeCode(s.codes, p.data.id);
      if hit then Goto(s.(codes := codes), a.pid, CodeConsumed(p.data, p.presenter, p.verifier)) else Finish(s, a.pid)
  }

  function KeyOfCode(data: CodeData, presenter: ClientId): GrantKey {
    GrantKey(presenter, data.user, data.org)
  }

  function ApplyReadGrant(s: State, a: Action): State
    requires a.ReadGrant?
  {
    if a.pid !in s.procs || !s.procs[a.pid].CodeConsumed? then s
    else
      var p := s.procs[a.pid];
      Goto(s, a.pid, GrantRead(p.data, p.presenter, p.verifier, StoredScopes(s.grants, KeyOfCode(p.data, p.presenter))))
  }

  function ApplyStoreGrant(s: State, a: Action): State
    requires a.StoreGrant?
  {
    if a.pid !in s.procs || !s.procs[a.pid].GrantRead? then s
    else
      var p := s.procs[a.pid];
      var grants := WriteGrant(s.grants, KeyOfCode(p.data, p.presenter), p.data.scopes, p.existing);
      var req := RT.Request(p.presenter, Actor(User, p.data.user), p.data.org, p.data.scopes);
      Goto(s.(grants := grants), a.pid,
           Minting(FromCode(p.data, p.presenter, p.verifier), req, "offline_access" in p.data.scopes))
  }

  function ApplyMintAccess(s: State, a: Action): State
    requires a.MintAccess?
  {
    if a.pid !in s.procs || !s.procs[a.pid].Minting? then s
    else
      var p := s.procs[a.pid];
      var minted := s.(log := s.log + [AccessMinted(p.source, p.req)]);
      if p.withRefresh then Goto(minted, a.pid, Refreshing(p.source, p.req)) else Finish(minted, a.pid)
  }

  function ApplyMintRefresh(s: State, a: Action): State
    requires a.MintRefresh?
  {
    if a.pid !in s.procs || !s.procs[a.pid].Refreshing?
       || a.token in s.refresh.used || a.family in s.refresh.used || a.token == a.family then s
    else
      var p := s.procs[a.pid];
      Finish(s.(refresh := RT.Apply(s.refresh, RT.Issue(a.token, a.family, p.req, a.ttl)),
                log := s.log + [FamilyIssued(p.source, a.family, p.req)]), a.pid)
  }

  function ApplyMintMachine(s: State, a: Action): State
    requires a.MintMachine?
  {
    if a.actor.kind.User? then s
    else s.(log := s.log + [AccessMinted(FromMachine, RT.Request(a.client, a.actor, a.org, ["openid"]))])
  }

  function ApplyLoadRefresh(s: State, a: Action): State
    requires a.LoadRefresh?
  {
    if a.pid in s.procs || a.token !in s.refresh.table || a.presenter !in s.clients then s
    else
      var row := s.refresh.table[a.token];
      if row.client != a.presenter || row.expiresAt < Now(s)
         || (row.actor.kind.User? && (row.actor.id, row.org) !in s.members) then s
      else Goto(s.(refresh := RT.Apply(s.refresh, RT.Find(a.token))), a.pid, RefreshLoaded(row, a.presenter))
  }

  function ApplyRotateRefresh(s: State, a: Action): State
    requires a.RotateRefresh?
  {
    if a.pid !in s.procs || !s.procs[a.pid].RefreshLoaded? || a.token in s.refresh.used then s
    else
      var (stale, presenter) := (s.procs[a.pid].stale, s.procs[a.pid].presenter);
      var req := RT.Request(presenter, stale.actor, stale.org, stale.scopes);
      var outcome := RT.Rotate(s.refresh.table, stale, a.token, Now(s), Now(s) + a.ttl).1;
      var s1 := s.(refresh := RT.Apply(s.refresh, RT.RotateStale(stale, a.token, a.ttl)));
      if outcome.Rotated? then Goto(s1, a.pid, Minting(FromRefresh(stale, presenter), req, false))
      else Finish(s1, a.pid)
  }

  function ApplyRevokeGrant(s: State, a: Action): State
    requires a.RevokeGrant?
  {
    var key := GrantKey(a.client, a.user, a.org);
    if key !in s.grants then s
    else s.(grants := s.grants[key := s.grants[key].(revoked := true)],
            refresh := RT.Apply(s.refresh, RT.RevokeGrant(a.client, a.user, a.org)))
  }

  function ApplyDeleteClient(s: State, a: Action): State
    requires a.DeleteClient?
  {
    s.(clients := s.clients - {a.client},
       codes := map id | id in s.codes && s.codes[id].data.client != a.client :: s.codes[id],
       grants := map k | k in s.grants && k.client != a.client :: s.grants[k],
       devices := map id | id in s.devices && s.devices[id].data.client != a.client :: s.devices[id],
       refresh := RT.Apply(s.refresh, RT.DeleteClient(a.client)))
  }

  function ApplyDeleteUser(s: State, a: Action): State
    requires a.DeleteUser?
  {
    s.(members := set m | m in s.members && m.0 != a.user :: m,
       codes := map id | id in s.codes && s.codes[id].data.user != a.user :: s.codes[id],
       grants := map k | k in s.grants && k.user != a.user :: s.grants[k],
       devices := map id | id in s.devices && s.devices[id].user != Some(a.user) :: s.devices[id])
  }

  function ApplyStartDevice(s: State, a: Action): State
    requires a.StartDevice?
  {
    var parsed := ParseScopes(if a.scope == "" then "openid profile email" else a.scope);
    if OrgOf(s, a.client).None? || parsed.None? || a.id in s.used then s
    else
      var data := DeviceData(a.id, a.client, OrgOf(s, a.client).value, parsed.value, Now(s) + DEVICE_CODE_TTL);
      s.(devices := s.devices[a.id := DeviceRow(data, Pending, None, None)],
         used := s.used + {a.id}, log := s.log + [DeviceStarted(data)])
  }

  function ApplyDecideDevice(s: State, a: Action): State
    requires a.DecideDevice?
  {
    if a.id !in s.devices || (a.user, s.devices[a.id].data.org) !in s.members then s
    else
      var (devices, hit) := Decide(s.devices, a.id, a.user, a.approve, Now(s));
      if !hit then s
      else s.(devices := devices,
              log := s.log + [if a.approve then DeviceApproved(s.devices[a.id].data, a.user) else DeviceRefused(a.id)])
  }

  // A poll of a pending row only leaves its mark on the row; an approved row is taken along.
  function ApplyPollDevice(s: State, a: Action): State
    requires a.PollDevice?
  {
    if a.pid in s.procs || a.id !in s.devices || a.presenter !in s.clients then s
    else
      var row := s.devices[a.id];
      if AnswerPoll(row, a.presenter, Now(s)).Proceed? then Goto(s, a.pid, DeviceLoaded(row, a.presenter))
      else s.(devices := s.devices[a.id := RecordPoll(row, a.presenter, Now(s))])
  }

  function ApplyUseApproval(s: State, a: Action): State
    requires a.UseApproval?
  {
    if a.pid !in s.procs || !s.procs[a.pid].DeviceLoaded? then s
    else
      var row := s.procs[a.pid].row;
      var (devices, hit) := ConsumeApproval(s.devices, row.data.id);
      if hit then Goto(s.(devices := devices), a.pid, DeviceConsumed(row, s.procs[a.pid].presenter)) else Finish(s, a.pid)
  }

  function ApplyCheckApproval(s: State, a: Action): State
    requires a.CheckApproval?
  {
    if a.pid !in s.procs || !s.procs[a.pid].DeviceConsumed? then s
    else
      var row := s.procs[a.pid].row;
      if row.user.None? || (row.user.value, row.data.org) !in s.members then Finish(s, a.pid)
      else Goto(s, a.pid, Minting(FromDevice(row.data, row.user.value, s.procs[a.pid].presenter),
                                  DeviceRequest(row.data, row.user.value), "offline_access" in row.data.scopes))
  }

  // The clock, and the revocations that concern refresh tokens alone.
  function ApplyOnRefresh(s: State, a: Action): State
    requires a.OnRefresh?
  {
    if a.on.Tick? || a.on.Find? || a.on.RevokeStale? || a.on.RevokeUser?
    then s.(refresh := RT.Apply(s.refresh, a.on)) else s
  }

  predicate IsCodeAction(a: Action) {
    a.Consent? || a.Authorize? || a.IssueCode? || a.LoadCode? || a.UseCode? || a.ReadGrant? || a.StoreGrant?
  }

  predicate IsTokenAction(a: Action) {
    a.MintAccess? || a.MintMachine? || a.MintRefresh? || a.LoadRefresh? || a.RotateRefresh?
  }

  predicate IsDeviceAction(a: Action) {
    a.StartDevice? || a.DecideDevice? || a.PollDevice? || a.UseApproval? || a.CheckApproval?
  }

  function ApplyCodeAction(s256: string -> string, s: State, a: Action): State
    requires IsCodeAction(a)
  {
    match a
    case Consent(_, _, _, _, _, _, _) => ApplyConsent(s, a)
    case Authorize(_, _, _, _, _, _, _, _) => ApplyAuthorize(s, a)
    case IssueCode(_) => ApplyIssueCode(s, a)
    case LoadCode(_, _, _, _, _) => ApplyLoadCode(s256, s, a)
    case UseCode(_) => ApplyUseCode(s, a)
    case ReadGrant(_) => ApplyReadGrant(s, a)
    case StoreGrant(_) => ApplyStoreGrant(s, a)
  }

  function ApplyTokenAction(s: State, a: Action): State
    requires IsTokenAction(a)
  {
    match a
    case MintAccess(_) => ApplyMintAccess(s, a)
    case MintMachine(_, _, _) => ApplyMintMachine(s, a)
    case MintRefresh(_, _, _, _) => ApplyMintRefresh(s, a)
    case LoadRefresh(_, _, _) => ApplyLoadRefresh(s, a)
    case RotateRefresh(_, _, _) => ApplyRotateRefresh(s, a)
  }

  function ApplyDeviceAction(s: State, a: Action): State
    requires IsDeviceAction(a)
  {
    match a
    case StartDevice(_, _, _) => ApplyStartDevice(s, a)
    case DecideDevice(_, _, _) => ApplyDecideDevice(s, a)
    case PollDevice(_, _, _) => ApplyPollDevice(s, a)
    case UseApproval(_) => ApplyUseApproval(s, a)
    case CheckApproval(_) => ApplyCheckApproval(s, a)
  }

  function ApplyTableAction(s: State, a: Action): State
    requires !IsCodeAction(a) && !IsTokenAction(a) && !IsDeviceAction(a)
  {
    match a
    case OnRefresh(_) => ApplyOnRefresh(s, a)
    case SetClient(client, settings) => s.(clients := s.clients[client := settings])
    case SetMember(user, org, active) => s.(members := if active then s.members + {(user, org)} else s.members - {(user, org)})
    case DeleteClient(_) => ApplyDeleteClient(s, a)
    case DeleteUser(_) => ApplyDeleteUser(s, a)
    case RevokeGrant(_, _, _) => ApplyRevokeGrant(s, a)
    case Abandon(pid) => Finish(s, pid)
  }

  // One atomic step. An action whose guard fails changes nothing.
  function Apply(s256: string -> string, s: State, a: Action): State {
    if IsCodeAction(a) then ApplyCodeAction(s256, s, a)
    else if IsTokenAction(a) then ApplyTokenAction(s, a)
    else if IsDeviceAction(a) then ApplyDeviceAction(s, a)
    else ApplyTableAction(s, a)
  }

  function Exec(s256: string -> string, s: State, actions: seq<Action>): State {
    if actions == [] then s
    else Apply(s256, Exec(s256, s, actions[..|actions| - 1]), actions[|actions| - 1])
  }

  ghost predicate Reachable(s256: string -> string, s: State) {
    exists actions :: s == Exec(s256, Init, actions)
  }

  lemma ReachableStep(s256: string -> string, s: State, a: Action)
    requires Reachable(s256, s)
    ensures Reachable(s256, Apply(s256, s, a))
  {
    var actions :| s == Exec(s256, Init, actions);
    assert (actions + [a])[..|actions|] == actions;
    assert Exec(s256, Init, actions + [a]) == Apply(s256, s, a);
  }
}

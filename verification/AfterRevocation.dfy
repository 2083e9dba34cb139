// What revoking a user's refresh tokens does not reach: exchanges under way,
// and codes and device approvals handed out before. A live token of the grant
// appears later exactly when something of that kind is outstanding.

module AfterRevocation {
  import opened Common
  import opened Scopes
  import opened OAuthRuns
  import opened Provenance
  import opened SingleUse
  import FamiliesInRuns
  import RT = RefreshTokens

  predicate ForKey(key: GrantKey, req: RT.Request) {
    req.client == key.client && req.actor == Actor(User, key.user) && req.org == key.org
  }

  // A request that ends in a refresh token of this grant.
  predicate Wants(key: GrantKey, req: RT.Request) {
    ForKey(key, req) && "offline_access" in req.scopes
  }

  predicate LiveFor(s: State, key: GrantKey, id: Id) {
    id in s.refresh.table && ForKey(key, RT.RequestOf(s.refresh.table[id])) && RT.Live(s.refresh.table[id])
  }

  ghost predicate NoLiveToken(s: State, key: GrantKey) {
    forall id {:trigger LiveFor(s, key, id)} :: !LiveFor(s, key, id)
  }

  // ------------------------------------------------------------- outstanding

  // Some verifier fits the code's challenge.
  ghost predicate Redeemable(s256: string -> string, data: CodeData) {
    exists verifier :: s256(verifier) == data.challenge
  }

  ghost predicate CodeOpen(s256: string -> string, s: State, key: GrantKey, id: Id) {
    && id in s.codes && !s.codes[id].used && Wants(key, CodeRequest(s.codes[id].data))
    && s.codes[id].data.expiresAt >= Now(s) && Redeemable(s256, s.codes[id].data)
  }

  predicate ApprovalWants(key: GrantKey, row: DeviceRow) {
    row.user.Some? && Wants(key, DeviceRequest(row.data, row.user.value))
  }

  predicate DeviceOpen(s: State, key: GrantKey, id: Id) {
    && id in s.devices && s.devices[id].status == Approved && ApprovalWants(key, s.devices[id])
    && s.devices[id].data.expiresAt >= Now(s)
  }

  predicate CodeUnused(s: State, id: Id) {
    id in s.codes && !s.codes[id].used
  }

  predicate StillApproved(s: State, id: Id) {
    id in s.devices && s.devices[id].status == Approved
  }

  ghost predicate ProcOpen(s256: string -> string, s: State, key: GrantKey, p: Proc) {
    match p
    case Authorizing(data) => Wants(key, CodeRequest(data)) && data.expiresAt >= Now(s) && Redeemable(s256, data)
    case CodeLoaded(data, _, _) => Wants(key, CodeRequest(data)) && CodeUnused(s, data.id)
    case CodeConsumed(data, _, _) => Wants(key, CodeRequest(data))
    case GrantRead(data, _, _, _) => Wants(key, CodeRequest(data))
    case DeviceLoaded(row, _) => ApprovalWants(key, row) && StillApproved(s, row.data.id)
    case DeviceConsumed(row, _) => ApprovalWants(key, row)
    case RefreshLoaded(_, _) => false
    case Minting(_, req, withRefresh) => withRefresh && ForKey(key, req)
    case Refreshing(_, req) => ForKey(key, req)
  }

  ghost predicate NoCodeOpen(s256: string -> string, s: State, key: GrantKey) {
    forall id {:trigger CodeOpen(s256, s, key, id)} :: !CodeOpen(s256, s, key, id)
  }

  ghost predicate NoDeviceOpen(s: State, key: GrantKey) {
    forall id {:trigger DeviceOpen(s, key, id)} :: !DeviceOpen(s, key, id)
  }

  ghost predicate NoProcOpen(s256: string -> string, s: State, key: GrantKey) {
    forall pid {:trigger ProcOpen(s256, s, key, s.procs[pid])} :: pid in s.procs ==> !ProcOpen(s256, s, key, s.procs[pid])
  }

  // No redeemable code, no approved device code and no handler past its checks
  // asks for a refresh token of this grant.
  ghost predicate NothingUnderWay(s256: string -> string, s: State, key: GrantKey) {
    var nothing := NoCodeOpen(s256, s, key) && NoDeviceOpen(s, key) && NoProcOpen(s256, s, key);
    nothing
  }

  // A step that gives the application something new to redeem: a consent, a
  // silent authorization on an unrevoked grant, or the approval of a device.
  predicate Anew(s: State, a: Action, key: GrantKey) {
    || ((a.Consent? || a.Authorize?) && a.user == key.user && a.client == key.client && OrgOf(s, a.client) == Some(key.org)
        && (a.Authorize? ==> key in s.grants && !s.grants[key].revoked))
    || (a.DecideDevice? && a.approve && a.user == key.user && a.id in s.devices
        && s.devices[a.id].data.client == key.client && s.devices[a.id].data.org == key.org)
  }

  ghost predicate NothingAnew(s256: string -> string, s: State, later: seq<Action>, key: GrantKey) {
    forall i :: 0 <= i < |later| ==> !Anew(Exec(s256, s, later[..i]), later[i], key)
  }

  // --------------------------------------------------- nothing comes of nothing

  predicate SameCode(s: State, s': State, id: Id) {
    && id in s.codes && id in s'.codes && s'.codes[id].data == s.codes[id].data
    && (s.codes[id].used ==> s'.codes[id].used)
  }

  predicate NotLoaded(s: State, id: Id) {
    forall pid :: pid in s.procs && s.procs[pid].CodeLoaded? ==> s.procs[pid].data.id != id
  }

  predicate SameDevice(s: State, s': State, id: Id) {
    && id in s.devices && id in s'.devices && s'.devices[id].data == s.devices[id].data
    && (s'.devices[id].status == Approved ==> s.devices[id].status == Approved && s'.devices[id].user == s.devices[id].user)
  }

  predicate NotHeld(s: State, id: Id) {
    forall pid :: pid in s.procs && s.procs[pid].DeviceLoaded? ==> s.procs[pid].row.data.id != id
  }

  ghost predicate CodeCalm(s256: string -> string, s: State, s': State, key: GrantKey, id: Id) {
    id in s'.codes ==> SameCode(s, s', id) || (!CodeOpen(s256, s', key, id) && NotLoaded(s, id))
  }

  ghost predicate DeviceCalm(s: State, s': State, key: GrantKey, id: Id) {
    id in s'.devices ==> SameDevice(s, s', id) || (!DeviceOpen(s', key, id) && NotHeld(s, id))
  }

  ghost predicate ProcCalm(s256: string -> string, s: State, s': State, key: GrantKey, pid: Id) {
    pid in s'.procs ==> (pid in s.procs && s'.procs[pid] == s.procs[pid]) || !ProcOpen(s256, s', key, s'.procs[pid])
  }

  // Whatever the step changes, it opens nothing for this grant.
  ghost predicate Calm(s256: string -> string, s: State, s': State, key: GrantKey) {
    var codes := forall id {:trigger CodeCalm(s256, s, s', key, id)} :: CodeCalm(s256, s, s', key, id);
    var devices := forall id {:trigger DeviceCalm(s, s', key, id)} :: DeviceCalm(s, s', key, id);
    var procs := forall pid {:trigger ProcCalm(s256, s, s', key, pid)} :: ProcCalm(s256, s, s', key, pid);
    var tokens := forall id {:trigger LiveFor(s', key, id)} :: LiveFor(s', key, id) ==> LiveFor(s, key, id);
    var calm := Now(s) <= Now(s') && codes && devices && procs && tokens;
    calm
  }

  ghost predicate Quiet(s256: string -> string, s: State, key: GrantKey) {
    var quiet := NoLiveToken(s, key) && NothingUnderWay(s256, s, key);
    quiet
  }

  lemma CalmKeepsQuiet(s256: string -> string, s: State, s': State, key: GrantKey)
    requires Quiet(s256, s, key) && Calm(s256, s, s', key)
    ensures Quiet(s256, s', key)
  {
    forall id ensures !CodeOpen(s256, s', key, id) {
      assert CodeCalm(s256, s, s', key, id) && !CodeOpen(s256, s, key, id);
    }
    forall id ensures !DeviceOpen(s', key, id) {
      assert DeviceCalm(s, s', key, id) && !DeviceOpen(s, key, id);
    }
    forall pid | pid in s'.procs ensures !ProcOpen(s256, s', key, s'.procs[pid]) {
      assert ProcCalm(s256, s, s', key, pid);
      if pid in s.procs && s'.procs[pid] == s.procs[pid] {
        SameProcStaysClosed(s256, s, s', key, pid);
      }
    }
    forall id ensures !LiveFor(s', key, id) { assert !LiveFor(s, key, id); }
  }

  lemma SameProcStaysClosed(s256: string -> string, s: State, s': State, key: GrantKey, pid: Id)
    requires Calm(s256, s, s', key) && pid in s.procs && !ProcOpen(s256, s, key, s.procs[pid])
    ensures !ProcOpen(s256, s', key, s.procs[pid])
  {
    var p := s.procs[pid];
    if p.CodeLoaded? {
      assert CodeCalm(s256, s, s', key, p.data.id);
    }
    if p.DeviceLoaded? {
      assert DeviceCalm(s, s', key, p.row.data.id);
    }
  }

  // Steps that leave the refresh tokens and the clock alone.
  lemma TablesCalm(s256: string -> string, s: State, s': State, key: GrantKey)
    requires s'.refresh == s.refresh
    requires forall id {:trigger CodeCalm(s256, s, s', key, id)} :: CodeCalm(s256, s, s', key, id)
    requires forall id {:trigger DeviceCalm(s, s', key, id)} :: DeviceCalm(s, s', key, id)
    requires forall pid {:trigger ProcCalm(s256, s, s', key, pid)} :: ProcCalm(s256, s, s', key, pid)
    ensures Calm(s256, s, s', key)
  {
    forall id ensures LiveFor(s', key, id) ==> LiveFor(s, key, id) { }
  }

  // A step of one handler, which inserts no code and no device code.
  ghost predicate OneHandlerMoves(s: State, s': State, pid: Id) {
    && (forall id :: id in s'.codes ==> SameCode(s, s', id))
    && (forall id :: id in s'.devices ==> SameDevice(s, s', id))
    && (forall other :: other in s'.procs && other != pid ==> other in s.procs && s'.procs[other] == s.procs[other])
  }

  lemma HandlerIsCalm(s256: string -> string, s: State, s': State, key: GrantKey, pid: Id)
    requires OneHandlerMoves(s, s', pid) && RowsCalm(s.refresh, s'.refresh, key) && ProcCalm(s256, s, s', key, pid)
    ensures Calm(s256, s, s', key)
  {
    forall id ensures CodeCalm(s256, s, s', key, id) { }
    forall id ensures DeviceCalm(s, s', key, id) { }
    forall other ensures ProcCalm(s256, s, s', key, other) { }
    RefreshCalm(s256, s, s', key);
  }

  // A handler goes to its next statement, or ends; no table changes.
  lemma NextStatementIsCalm(s256: string -> string, s: State, procs: map<Id, Proc>, key: GrantKey, pid: Id)
    requires forall other :: other in procs && other != pid ==> other in s.procs && procs[other] == s.procs[other]
    requires ProcCalm(s256, s, s.(procs := procs), key, pid)
    ensures Calm(s256, s, s.(procs := procs), key)
  {
    HandlerIsCalm(s256, s, s.(procs := procs), key, pid);
  }

  lemma CodeIsNotLoaded(s: State, id: Id)
    requires HoldersOk(s) && KeysClosed(s) && !HasKey(s.log, IssueKey(id))
    requires forall pid :: pid in s.procs && s.procs[pid].CodeLoaded? ==> CodeIssued(s.procs[pid].data) in s.log
    ensures NotLoaded(s, id)
  {
    forall pid | pid in s.procs && s.procs[pid].CodeLoaded?
      ensures s.procs[pid].data.id != id
    {
      IssuedHasKey(s.log, s.procs[pid].data);
    }
  }

  lemma LoadedWereIssued(s256: string -> string, s: State)
    requires ProcsOk(s256, s)
    ensures forall pid :: pid in s.procs && s.procs[pid].CodeLoaded? ==> CodeIssued(s.procs[pid].data) in s.log
    ensures forall pid :: pid in s.procs && s.procs[pid].DeviceLoaded? ==>
              s.procs[pid].row.user.Some? && DeviceApproved(s.procs[pid].row.data, s.procs[pid].row.user.value) in s.log
  {
    forall pid | pid in s.procs
      ensures s.procs[pid].CodeLoaded? ==> CodeIssued(s.procs[pid].data) in s.log
      ensures s.procs[pid].DeviceLoaded? ==>
                s.procs[pid].row.user.Some? && DeviceApproved(s.procs[pid].row.data, s.procs[pid].row.user.value) in s.log
    {
      assert ProcOk(s256, s, s.procs[pid]);
    }
  }

  lemma ConsentIsCalm(s256: string -> string, s: State, a: Action, key: GrantKey)
    requires KeyInv(s) && DataInv(s256, s) && a.Consent? && !Anew(s, a, key)
    ensures Calm(s256, s, ApplyConsent(s, a), key)
  {
    var s' := ApplyConsent(s, a);
    LoadedWereIssued(s256, s);
    if a.id !in s.used {
      FreshIsOpen(s, a.id);
      CodeIsNotLoaded(s, a.id);
    }
    forall id ensures CodeCalm(s256, s, s', key, id) { }
    forall id ensures DeviceCalm(s, s', key, id) { }
    forall pid ensures ProcCalm(s256, s, s', key, pid) { }
    TablesCalm(s256, s, s', key);
  }

  lemma AuthorizeIsCalm(s256: string -> string, s: State, a: Action, key: GrantKey)
    requires a.Authorize? && !Anew(s, a, key)
    ensures Calm(s256, s, ApplyAuthorize(s, a), key)
  {
    var s' := ApplyAuthorize(s, a);
    forall id ensures CodeCalm(s256, s, s', key, id) { }
    forall id ensures DeviceCalm(s, s', key, id) { }
    forall pid ensures ProcCalm(s256, s, s', key, pid) { }
    TablesCalm(s256, s, s', key);
  }

  lemma IssueCodeIsCalm(s256: string -> string, s: State, a: Action, key: GrantKey)
    requires KeyInv(s) && DataInv(s256, s) && Quiet(s256, s, key) && a.IssueCode?
    ensures Calm(s256, s, ApplyIssueCode(s, a), key)
  {
    var s' := ApplyIssueCode(s, a);
    if a.pid in s.procs && s.procs[a.pid].Authorizing? {
      LoadedWereIssued(s256, s);
      assert HolderOk(s, s.procs[a.pid]) && !ProcOpen(s256, s, key, s.procs[a.pid]);
      CodeIsNotLoaded(s, s.procs[a.pid].data.id);
    }
    forall id ensures CodeCalm(s256, s, s', key, id) { }
    forall id ensures DeviceCalm(s, s', key, id) { }
    forall pid ensures ProcCalm(s256, s, s', key, pid) { }
    TablesCalm(s256, s, s', key);
  }

  // From the code to the point of minting.
  lemma LoadCodeIsCalm(s256: string -> string, s: State, a: Action, key: GrantKey)
    requires Quiet(s256, s, key) && a.LoadCode?
    ensures Calm(s256, s, ApplyLoadCode(s256, s, a), key)
  {
    assert !CodeOpen(s256, s, key, a.id);
    HandlerIsCalm(s256, s, ApplyLoadCode(s256, s, a), key, a.pid);
  }

  lemma UseCodeIsCalm(s256: string -> string, s: State, a: Action, key: GrantKey)
    requires NoProcOpen(s256, s, key) && a.UseCode?
    ensures Calm(s256, s, ApplyUseCode(s, a), key)
  {
    if a.pid in s.procs {
      assert !ProcOpen(s256, s, key, s.procs[a.pid]);
    }
    HandlerIsCalm(s256, s, ApplyUseCode(s, a), key, a.pid);
  }

  lemma ReadGrantIsCalm(s256: string -> string, s: State, a: Action, key: GrantKey)
    requires NoProcOpen(s256, s, key) && a.ReadGrant?
    ensures Calm(s256, s, ApplyReadGrant(s, a), key)
  {
    if a.pid in s.procs {
      assert !ProcOpen(s256, s, key, s.procs[a.pid]);
    }
    HandlerIsCalm(s256, s, ApplyReadGrant(s, a), key, a.pid);
  }

  lemma StoreGrantIsCalm(s256: string -> string, s: State, a: Action, key: GrantKey)
    requires ProcsOk(s256, s) && NoProcOpen(s256, s, key) && a.StoreGrant?
    ensures Calm(s256, s, ApplyStoreGrant(s, a), key)
  {
    if a.pid in s.procs {
      assert ProcOk(s256, s, s.procs[a.pid]) && !ProcOpen(s256, s, key, s.procs[a.pid]);
    }
    var s' := ApplyStoreGrant(s, a);
    assert s'.codes == s.codes && s'.devices == s.devices && s'.refresh == s.refresh;
    HandlerIsCalm(s256, s, s', key, a.pid);
  }

  lemma CodeActionsAreCalm(s256: string -> string, s: State, a: Action, key: GrantKey)
    requires KeyInv(s) && DataInv(s256, s) && Quiet(s256, s, key) && IsCodeAction(a) && !Anew(s, a, key)
    ensures Calm(s256, s, ApplyCodeAction(s256, s, a), key)
  {
    if a.Consent? {
      ConsentIsCalm(s256, s, a, key);
    } else if a.Authorize? {
      AuthorizeIsCalm(s256, s, a, key);
    } else if a.IssueCode? {
      IssueCodeIsCalm(s256, s, a, key);
    } else if a.LoadCode? {
      LoadCodeIsCalm(s256, s, a, key);
    } else if a.UseCode? {
      UseCodeIsCalm(s256, s, a, key);
    } else if a.ReadGrant? {
      ReadGrantIsCalm(s256, s, a, key);
    } else {
      StoreGrantIsCalm(s256, s, a, key);
    }
  }

  // ------------------------------------------------------ refresh tokens

  // The refresh tokens take a step that makes no live row for this grant.
  ghost predicate RowsCalm(before: RT.State, after: RT.State, key: GrantKey) {
    && before.now <= after.now
    && forall id {:trigger after.table[id]} ::
         id in after.table && ForKey(key, RT.RequestOf(after.table[id])) && RT.Live(after.table[id]) ==>
           id in before.table && ForKey(key, RT.RequestOf(before.table[id])) && RT.Live(before.table[id])
  }

  lemma RevokingIsCalm(before: RT.State, a: RT.Action, key: GrantKey)
    requires !a.Issue? && !a.RotateStale?
    ensures RowsCalm(before, RT.Apply(before, a), key)
  {
  }

  lemma IssuingIsCalm(before: RT.State, a: RT.Action, key: GrantKey)
    requires a.Issue? && !ForKey(key, a.req)
    ensures RowsCalm(before, RT.Apply(before, a), key)
  {
  }

  // A row of the grant gets no successor, since none of them is live.
  lemma RotatingIsCalm(before: RT.State, a: RT.Action, key: GrantKey)
    requires RT.Inv(before) && a.RotateStale?
    requires forall id :: id in before.table && ForKey(key, RT.RequestOf(before.table[id])) ==> !RT.Live(before.table[id])
    ensures RowsCalm(before, RT.Apply(before, a), key)
  {
    if a.stale in before.held {
      assert RT.HeldKnown(before, a.stale);
    }
  }

  lemma RefreshCalm(s256: string -> string, s: State, s': State, key: GrantKey)
    requires RowsCalm(s.refresh, s'.refresh, key)
    requires forall id {:trigger CodeCalm(s256, s, s', key, id)} :: CodeCalm(s256, s, s', key, id)
    requires forall id {:trigger DeviceCalm(s, s', key, id)} :: DeviceCalm(s, s', key, id)
    requires forall pid {:trigger ProcCalm(s256, s, s', key, pid)} :: ProcCalm(s256, s, s', key, pid)
    ensures Calm(s256, s, s', key)
  {
    forall id ensures LiveFor(s', key, id) ==> LiveFor(s, key, id) { }
  }

  lemma NoneLive(s: State, key: GrantKey)
    requires NoLiveToken(s, key)
    ensures forall id :: id in s.refresh.table && ForKey(key, RT.RequestOf(s.refresh.table[id])) ==> !RT.Live(s.refresh.table[id])
  {
    forall id | id in s.refresh.table && ForKey(key, RT.RequestOf(s.refresh.table[id]))
      ensures !RT.Live(s.refresh.table[id])
    {
      assert !LiveFor(s, key, id);
    }
  }

  lemma MintIsCalm(s256: string -> string, s: State, a: Action, key: GrantKey)
    requires NoProcOpen(s256, s, key) && a.MintAccess?
    ensures Calm(s256, s, ApplyMintAccess(s, a), key)
  {
    if a.pid in s.procs {
      assert !ProcOpen(s256, s, key, s.procs[a.pid]);
    }
    var s' := ApplyMintAccess(s, a);
    assert s'.codes == s.codes && s'.devices == s.devices && s'.refresh == s.refresh;
    HandlerIsCalm(s256, s, s', key, a.pid);
  }

  lemma MintRefreshIsCalm(s256: string -> string, s: State, a: Action, key: GrantKey)
    requires NoProcOpen(s256, s, key) && a.MintRefresh?
    ensures Calm(s256, s, ApplyMintRefresh(s, a), key)
  {
    if a.pid in s.procs && s.procs[a.pid].Refreshing? {
      assert !ProcOpen(s256, s, key, s.procs[a.pid]);
      IssuingIsCalm(s.refresh, RT.Issue(a.token, a.family, s.procs[a.pid].req, a.ttl), key);
    }
    HandlerIsCalm(s256, s, ApplyMintRefresh(s, a), key, a.pid);
  }

  lemma LoadRefreshIsCalm(s256: string -> string, s: State, a: Action, key: GrantKey)
    requires a.LoadRefresh?
    ensures Calm(s256, s, ApplyLoadRefresh(s, a), key)
  {
    RevokingIsCalm(s.refresh, RT.Find(a.token), key);
    HandlerIsCalm(s256, s, ApplyLoadRefresh(s, a), key, a.pid);
  }

  lemma RotationRowsAreCalm(s: State, a: Action, key: GrantKey)
    requires RT.Inv(s.refresh) && NoLiveToken(s, key) && a.RotateRefresh?
    ensures RowsCalm(s.refresh, ApplyRotateRefresh(s, a).refresh, key)
  {
    NoneLive(s, key);
    if a.pid in s.procs && s.procs[a.pid].RefreshLoaded? {
      RotatingIsCalm(s.refresh, RT.RotateStale(s.procs[a.pid].stale, a.token, a.ttl), key);
    }
  }

  lemma RotationMoves(s: State, a: Action)
    requires a.RotateRefresh?
    ensures OneHandlerMoves(s, ApplyRotateRefresh(s, a), a.pid)
    ensures a.pid in ApplyRotateRefresh(s, a).procs ==>
              var p := ApplyRotateRefresh(s, a).procs[a.pid];
              (a.pid in s.procs && p == s.procs[a.pid]) || (p.Minting? && !p.withRefresh)
  {
    var s' := ApplyRotateRefresh(s, a);
    assert s'.codes == s.codes && s'.devices == s.devices;
  }

  lemma RotationIsCalm(s256: string -> string, s: State, a: Action, key: GrantKey)
    requires a.RotateRefresh? && RowsCalm(s.refresh, ApplyRotateRefresh(s, a).refresh, key)
    ensures Calm(s256, s, ApplyRotateRefresh(s, a), key)
  {
    var s' := ApplyRotateRefresh(s, a);
    RotationMoves(s, a);
    assert ProcCalm(s256, s, s', key, a.pid);
    HandlerIsCalm(s256, s, s', key, a.pid);
  }

  lemma TokenActionsAreCalm(s256: string -> string, s: State, a: Action, key: GrantKey)
    requires RT.Inv(s.refresh) && Quiet(s256, s, key) && IsTokenAction(a)
    ensures Calm(s256, s, ApplyTokenAction(s, a), key)
  {
    match a
    case MintAccess(_) => MintIsCalm(s256, s, a, key);
    case MintMachine(_, _, _) => HandlerIsCalm(s256, s, ApplyMintMachine(s, a), key, 0);
    case MintRefresh(_, _, _, _) => MintRefreshIsCalm(s256, s, a, key);
    case LoadRefresh(_, _, _) => LoadRefreshIsCalm(s256, s, a, key);
    case RotateRefresh(_, _, _) =>
      RotationRowsAreCalm(s, a, key);
      RotationIsCalm(s256, s, a, key);
  }

  // ------------------------------------------------------------- devices

  lemma PendingIsNotHeld(s: State, id: Id)
    requires KeysClosed(s) && (id in s.devices ==> s.devices[id].status == Pending)
    requires id !in s.devices ==> id !in s.used
    requires forall pid :: pid in s.procs && s.procs[pid].DeviceLoaded? ==>
               s.procs[pid].row.user.Some? && DeviceApproved(s.procs[pid].row.data, s.procs[pid].row.user.value) in s.log
    ensures NotHeld(s, id)
  {
    forall pid | pid in s.procs && s.procs[pid].DeviceLoaded?
      ensures s.procs[pid].row.data.id != id
    {
      var row := s.procs[pid].row;
      var i :| 0 <= i < |s.log| && s.log[i] == DeviceApproved(row.data, row.user.value);
      assert KeyOf(s.log[i]) == Some(DecisionKey(row.data.id));
      assert HasKey(s.log, DecisionKey(row.data.id));
      assert Closed(s, DecisionKey(row.data.id));
    }
  }

  lemma DecisionIsCalm(s256: string -> string, s: State, a: Action, key: GrantKey)
    requires KeyInv(s) && DataInv(s256, s) && !Anew(s, a, key) && (a.StartDevice? || a.DecideDevice?)
    ensures Calm(s256, s, ApplyDeviceAction(s, a), key)
  {
    var s' := ApplyDeviceAction(s, a);
    LoadedWereIssued(s256, s);
    if s' != s {
      if a.id in s.devices { assert DeviceOk(s, a.id); }
      PendingIsNotHeld(s, a.id);
    }
    forall id ensures CodeCalm(s256, s, s', key, id) { }
    forall id ensures DeviceCalm(s, s', key, id) { }
    forall pid ensures ProcCalm(s256, s, s', key, pid) { }
    TablesCalm(s256, s, s', key);
  }

  lemma PollIsCalm(s256: string -> string, s: State, a: Action, key: GrantKey)
    requires Quiet(s256, s, key) && a.PollDevice?
    ensures Calm(s256, s, ApplyPollDevice(s, a), key)
  {
    assert !DeviceOpen(s, key, a.id);
    HandlerIsCalm(s256, s, ApplyPollDevice(s, a), key, a.pid);
  }

  lemma UseApprovalIsCalm(s256: string -> string, s: State, a: Action, key: GrantKey)
    requires NoProcOpen(s256, s, key) && a.UseApproval?
    ensures Calm(s256, s, ApplyUseApproval(s, a), key)
  {
    if a.pid in s.procs {
      assert !ProcOpen(s256, s, key, s.procs[a.pid]);
    }
    HandlerIsCalm(s256, s, ApplyUseApproval(s, a), key, a.pid);
  }

  lemma CheckApprovalIsCalm(s256: string -> string, s: State, a: Action, key: GrantKey)
    requires NoProcOpen(s256, s, key) && a.CheckApproval?
    ensures Calm(s256, s, ApplyCheckApproval(s, a), key)
  {
    if a.pid in s.procs {
      assert !ProcOpen(s256, s, key, s.procs[a.pid]);
    }
    var s' := ApplyCheckApproval(s, a);
    assert s' == s.(procs := s'.procs);
    NextStatementIsCalm(s256, s, s'.procs, key, a.pid);
  }

  lemma DeviceActionsAreCalm(s256: string -> string, s: State, a: Action, key: GrantKey)
    requires KeyInv(s) && DataInv(s256, s) && Quiet(s256, s, key) && IsDeviceAction(a) && !Anew(s, a, key)
    ensures Calm(s256, s, ApplyDeviceAction(s, a), key)
  {
    if a.StartDevice? || a.DecideDevice? {
      DecisionIsCalm(s256, s, a, key);
    } else if a.PollDevice? {
      PollIsCalm(s256, s, a, key);
    } else if a.UseApproval? {
      UseApprovalIsCalm(s256, s, a, key);
    } else {
      CheckApprovalIsCalm(s256, s, a, key);
    }
  }

  lemma TableActionsAreCalm(s256: string -> string, s: State, a: Action, key: GrantKey)
    requires !IsCodeAction(a) && !IsTokenAction(a) && !IsDeviceAction(a)
    ensures Calm(s256, s, ApplyTableAction(s, a), key)
  {
    var s' := ApplyTableAction(s, a);
    if a.OnRefresh? {
      if !a.on.Issue? && !a.on.RotateStale? { RevokingIsCalm(s.refresh, a.on, key); }
    } else if a.RevokeGrant? {
      RevokingIsCalm(s.refresh, RT.RevokeGrant(a.client, a.user, a.org), key);
    } else if a.DeleteClient? {
      RevokingIsCalm(s.refresh, RT.DeleteClient(a.client), key);
    }
    assert RowsCalm(s.refresh, s'.refresh, key);
    forall id ensures CodeCalm(s256, s, s', key, id) { }
    forall id ensures DeviceCalm(s, s', key, id) { }
    forall pid ensures ProcCalm(s256, s, s', key, pid) { }
    RefreshCalm(s256, s, s', key);
  }

  // Where nothing is outstanding, no step but a new authorization changes that.
  lemma StepKeepsQuiet(s256: string -> string, s: State, a: Action, key: GrantKey)
    requires Reachable(s256, s) && Quiet(s256, s, key) && !Anew(s, a, key)
    ensures Quiet(s256, Apply(s256, s, a), key)
  {
    ReachableKeys(s256, s);
    FamiliesInRuns.RefreshIsReachable(s256, s);
    RT.ReachableInv(s.refresh);
    if IsCodeAction(a) {
      CodeActionsAreCalm(s256, s, a, key);
    } else if IsTokenAction(a) {
      TokenActionsAreCalm(s256, s, a, key);
    } else if IsDeviceAction(a) {
      DeviceActionsAreCalm(s256, s, a, key);
    } else {
      TableActionsAreCalm(s256, s, a, key);
    }
    CalmKeepsQuiet(s256, s, Apply(s256, s, a), key);
  }

  lemma {:induction false} RunKeepsQuiet(s256: string -> string, s: State, later: seq<Action>, key: GrantKey)
    requires Reachable(s256, s) && Quiet(s256, s, key) && NothingAnew(s256, s, later, key)
    ensures Reachable(s256, Exec(s256, s, later)) && Quiet(s256, Exec(s256, s, later), key)
    decreases |later|
  {
    if later != [] {
      var front, a := later[..|later| - 1], later[|later| - 1];
      forall i | 0 <= i < |front| ensures !Anew(Exec(s256, s, front[..i]), front[i], key) {
        assert front[..i] == later[..i];
      }
      RunKeepsQuiet(s256, s, front, key);
      ReachableStep(s256, Exec(s256, s, front), a);
      StepKeepsQuiet(s256, Exec(s256, s, front), a, key);
    }
  }
}

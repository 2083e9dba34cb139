// Scope provenance: in every run, nothing that is stored, issued or minted in a
// user's name carries a scope which that user did not approve for that client
// and organization.

module Provenance {
  import opened Common
  import opened Scopes
  import opened OAuthRuns
  import RT = RefreshTokens

  // ---------------------------------------------------- approvals and sources

  predicate Approves(e: Event, user: Id, client: ClientId, org: Id, scope: Scope) {
    match e
    case ConsentGiven(u, c, o, scopes) => u == user && c == client && o == org && scope in scopes
    case DeviceApproved(d, u) => u == user && d.client == client && d.org == org && scope in d.scopes
    case _ => false
  }

  // The user explicitly approved this scope for this client and organization.
  ghost predicate ApprovedScope(log: seq<Event>, user: Id, client: ClientId, org: Id, scope: Scope) {
    exists e :: e in log && Approves(e, user, client, org, scope)
  }

  // Supported scopes, and nothing in a user's name beyond what that user approved.
  ghost predicate Covered(log: seq<Event>, req: RT.Request) {
    && AreScopes(req.scopes)
    && (req.actor.kind.User? ==>
          forall s :: s in req.scopes ==> ApprovedScope(log, req.actor.id, req.client, req.org, s))
  }

  ghost predicate SourceOk(s256: string -> string, log: seq<Event>, source: Source, req: RT.Request) {
    match source
    case FromCode(data, presenter, verifier) =>
      CodeIssued(data) in log && presenter == data.client && s256(verifier) == data.challenge && req == CodeRequest(data)
    case FromDevice(device, user, presenter) =>
      && DeviceStarted(device) in log && DeviceApproved(device, user) in log && presenter == device.client
      && req == DeviceRequest(device, user)
    case FromRefresh(stale, presenter) => presenter == stale.client && req == RT.RequestOf(stale)
    case FromMachine => !req.actor.kind.User?
  }

  // ------------------------------------------------------- what is stored is covered

  ghost predicate CodeOk(s: State, id: Id)
    requires id in s.codes
  {
    var data := s.codes[id].data;
    data.id == id && id in s.used && CodeIssued(data) in s.log && Covered(s.log, CodeRequest(data))
  }

  ghost predicate GrantOk(s: State, key: GrantKey)
    requires key in s.grants
  {
    Covered(s.log, GrantRequest(key, s.grants[key].scopes))
  }

  function GrantRequest(key: GrantKey, scopes: seq<Scope>): RT.Request {
    RT.Request(key.client, Actor(User, key.user), key.org, scopes)
  }

  ghost predicate DeviceOk(s: State, id: Id)
    requires id in s.devices
  {
    var row := s.devices[id];
    && row.data.id == id && id in s.used && DeviceStarted(row.data) in s.log && AreScopes(row.data.scopes)
    && (row.status == Approved ==> row.user.Some?)
    && (row.user.Some? ==> DeviceApproved(row.data, row.user.value) in s.log)
  }

  ghost predicate ExchangeOk(s256: string -> string, s: State, data: CodeData, presenter: ClientId, verifier: string) {
    && data.id in s.used && presenter == data.client && s256(verifier) == data.challenge
    && CodeIssued(data) in s.log && Covered(s.log, CodeRequest(data))
  }

  ghost predicate ProcOk(s256: string -> string, s: State, p: Proc) {
    match p
    case Authorizing(data) => data.id in s.used && Covered(s.log, CodeRequest(data))
    case CodeLoaded(data, presenter, verifier) => ExchangeOk(s256, s, data, presenter, verifier)
    case CodeConsumed(data, presenter, verifier) => ExchangeOk(s256, s, data, presenter, verifier)
    case GrantRead(data, presenter, verifier, existing) =>
      && ExchangeOk(s256, s, data, presenter, verifier)
      && (existing.Some? ==> Covered(s.log, GrantRequest(KeyOfCode(data, presenter), existing.value)))
    case DeviceLoaded(row, presenter) => ApprovalOk(s, row) && presenter == row.data.client
    case DeviceConsumed(row, presenter) => ApprovalOk(s, row) && presenter == row.data.client
    case RefreshLoaded(stale, presenter) => stale in s.refresh.held && presenter == stale.client
    case Minting(source, req, withRefresh) =>
      && SourceOk(s256, s.log, source, req) && Covered(s.log, req)
      && (withRefresh ==> "offline_access" in req.scopes)
    case Refreshing(source, req) => SourceOk(s256, s.log, source, req) && Covered(s.log, req) && "offline_access" in req.scopes
  }

  ghost predicate ApprovalOk(s: State, row: DeviceRow) {
    row.data.id in s.used && row.user.Some? && DeviceStarted(row.data) in s.log && AreScopes(row.data.scopes)
    && DeviceApproved(row.data, row.user.value) in s.log
  }

  ghost predicate EventOk(s256: string -> string, s: State, e: Event) {
    && (e.AccessMinted? || e.FamilyIssued? ==> SourceOk(s256, s.log, e.source, e.req) && Covered(s.log, e.req))
    && (e.FamilyIssued? ==> "offline_access" in e.req.scopes)
  }

  // The family was issued for this request, on the right that the log names.
  ghost predicate FamilyKnown(log: seq<Event>, family: Id, req: RT.Request) {
    exists source :: FamilyIssued(source, family, req) in log
  }

  ghost predicate RefreshRowOk(s: State, row: RT.Row) {
    Covered(s.log, RT.RequestOf(row)) && FamilyKnown(s.log, row.family, RT.RequestOf(row))
  }

  ghost predicate CodesOk(s: State) {
    forall id {:trigger CodeOk(s, id)} :: id in s.codes ==> CodeOk(s, id)
  }

  ghost predicate GrantsOk(s: State) {
    forall key {:trigger GrantOk(s, key)} :: key in s.grants ==> GrantOk(s, key)
  }

  ghost predicate DevicesOk(s: State) {
    forall id {:trigger DeviceOk(s, id)} :: id in s.devices ==> DeviceOk(s, id)
  }

  ghost predicate ProcsOk(s256: string -> string, s: State) {
    forall pid {:trigger ProcOk(s256, s, s.procs[pid])} :: pid in s.procs ==> ProcOk(s256, s, s.procs[pid])
  }

  ghost predicate EventsOk(s256: string -> string, s: State) {
    forall e {:trigger EventOk(s256, s, e)} :: e in s.log ==> EventOk(s256, s, e)
  }

  ghost predicate RefreshOk(s: State) {
    var stored := forall id {:trigger RefreshRowOk(s, s.refresh.table[id])} ::
                    id in s.refresh.table ==> RefreshRowOk(s, s.refresh.table[id]);
    var ok := stored && forall row {:trigger RefreshRowOk(s, row)} :: row in s.refresh.held ==> RefreshRowOk(s, row);
    ok
  }

  ghost predicate DataInv(s256: string -> string, s: State) {
    var rows := CodesOk(s) && GrantsOk(s) && DevicesOk(s) && RefreshOk(s);
    var covered := rows && ProcsOk(s256, s) && EventsOk(s256, s);
    covered
  }

  // The log and the identifiers in use only grow.
  ghost predicate Grows(s: State, s': State) {
    s.log <= s'.log && s.used <= s'.used
  }

  lemma CoveredGrows(log: seq<Event>, log': seq<Event>, req: RT.Request)
    requires log <= log' && Covered(log, req)
    ensures Covered(log', req)
  {
    if req.actor.kind.User? {
      forall s | s in req.scopes
        ensures ApprovedScope(log', req.actor.id, req.client, req.org, s)
      {
        var e :| e in log && Approves(e, req.actor.id, req.client, req.org, s);
        assert e in log';
      }
    }
  }

  lemma CodesStayOk(s: State, s': State)
    requires CodesOk(s) && Grows(s, s')
    requires forall id :: id in s'.codes ==> (id in s.codes && s'.codes[id].data == s.codes[id].data) || CodeOk(s', id)
    ensures CodesOk(s')
  {
    forall id | id in s'.codes
      ensures CodeOk(s', id)
    {
      if id in s.codes && s'.codes[id].data == s.codes[id].data {
        assert CodeOk(s, id);
        CoveredGrows(s.log, s'.log, CodeRequest(s.codes[id].data));
      }
    }
  }

  lemma GrantsStayOk(s: State, s': State)
    requires GrantsOk(s) && Grows(s, s')
    requires forall key :: key in s'.grants ==>
               (key in s.grants && s'.grants[key].scopes == s.grants[key].scopes) || GrantOk(s', key)
    ensures GrantsOk(s')
  {
    forall key | key in s'.grants
      ensures GrantOk(s', key)
    {
      if key in s.grants && s'.grants[key].scopes == s.grants[key].scopes {
        assert GrantOk(s, key);
        CoveredGrows(s.log, s'.log, GrantRequest(key, s.grants[key].scopes));
      }
    }
  }

  lemma DevicesStayOk(s: State, s': State)
    requires DevicesOk(s) && Grows(s, s')
    requires forall id :: id in s'.devices ==> (id in s.devices && s'.devices[id] == s.devices[id]) || DeviceOk(s', id)
    ensures DevicesOk(s')
  {
    forall id | id in s'.devices
      ensures DeviceOk(s', id)
    {
      if id in s.devices && s'.devices[id] == s.devices[id] {
        assert DeviceOk(s, id);
      }
    }
  }

  lemma ProcStaysOk(s256: string -> string, s: State, s': State, p: Proc)
    requires ProcOk(s256, s, p) && Grows(s, s') && s.refresh.held <= s'.refresh.held
    ensures ProcOk(s256, s', p)
  {
    match p
    case Authorizing(data) => CoveredGrows(s.log, s'.log, CodeRequest(data));
    case CodeLoaded(data, _, _) => CoveredGrows(s.log, s'.log, CodeRequest(data));
    case CodeConsumed(data, _, _) => CoveredGrows(s.log, s'.log, CodeRequest(data));
    case GrantRead(data, presenter, _, existing) =>
      CoveredGrows(s.log, s'.log, CodeRequest(data));
      if existing.Some? {
        CoveredGrows(s.log, s'.log, GrantRequest(KeyOfCode(data, presenter), existing.value));
      }
    case Minting(_, req, _) => CoveredGrows(s.log, s'.log, req);
    case Refreshing(_, req) => CoveredGrows(s.log, s'.log, req);
    case _ =>
  }

  lemma ProcsStayOk(s256: string -> string, s: State, s': State)
    requires ProcsOk(s256, s) && Grows(s, s') && s.refresh.held <= s'.refresh.held
    requires forall pid :: pid in s'.procs ==>
               (pid in s.procs && s'.procs[pid] == s.procs[pid]) || ProcOk(s256, s', s'.procs[pid])
    ensures ProcsOk(s256, s')
  {
    forall pid | pid in s'.procs
      ensures ProcOk(s256, s', s'.procs[pid])
    {
      if pid in s.procs && s'.procs[pid] == s.procs[pid] {
        assert ProcOk(s256, s, s.procs[pid]);
        ProcStaysOk(s256, s, s', s.procs[pid]);
      }
    }
  }

  lemma EventsStayOk(s256: string -> string, s: State, s': State)
    requires EventsOk(s256, s) && Grows(s, s')
    requires forall e :: e in s'.log ==> e in s.log || EventOk(s256, s', e)
    ensures EventsOk(s256, s')
  {
    forall e | e in s'.log
      ensures EventOk(s256, s', e)
    {
      if e in s.log {
        assert EventOk(s256, s, e);
        if e.AccessMinted? || e.FamilyIssued? {
          CoveredGrows(s.log, s'.log, e.req);
        }
      }
    }
  }

  // A step of the refresh-token component invents no request: the rows it
  // leaves carry the request of an earlier row, or the one just issued for.
  lemma RefreshStaysOk(s: State, s': State, on: RT.Action)
    requires RefreshOk(s) && Grows(s, s') && s'.refresh == RT.Apply(s.refresh, on)
    requires on.Issue? ==> Covered(s'.log, on.req) && FamilyKnown(s'.log, on.family, on.req)
    ensures RefreshOk(s') && s.refresh.held <= s'.refresh.held
  {
    forall row | row in s'.refresh.held
      ensures RefreshRowOk(s', row)
    {
      assert row in s.refresh.held || row == s.refresh.table[on.token];
      RowStaysOk(s, s', row);
    }
    forall id | id in s'.refresh.table
      ensures RefreshRowOk(s', s'.refresh.table[id])
    {
      var row := s'.refresh.table[id];
      if id in s.refresh.table && SameGrant(s.refresh.table[id], row) {
        RowStaysOk(s, s', s.refresh.table[id]);
      } else if on.RotateStale? {
        RowStaysOk(s, s', on.stale);
      }
    }
  }

  predicate SameGrant(a: RT.Row, b: RT.Row) {
    RT.RequestOf(a) == RT.RequestOf(b) && a.family == b.family
  }

  lemma RowStaysOk(s: State, s': State, row: RT.Row)
    requires RefreshRowOk(s, row) && Grows(s, s')
    ensures RefreshRowOk(s', row)
  {
    CoveredGrows(s.log, s'.log, RT.RequestOf(row));
    var source :| FamilyIssued(source, row.family, RT.RequestOf(row)) in s.log;
    assert FamilyIssued(source, row.family, RT.RequestOf(row)) in s'.log;
  }

  lemma RefreshUntouchedOk(s: State, s': State)
    requires RefreshOk(s) && Grows(s, s') && s'.refresh == s.refresh
    ensures RefreshOk(s')
  {
    forall row | RefreshRowOk(s, row)
      ensures RefreshRowOk(s', row)
    {
      RowStaysOk(s, s', row);
    }
  }

  // ------------------------------------------ every step keeps DataInv

  ghost predicate OnlyProcsChange(s: State, s': State) {
    s'.codes == s.codes && s'.grants == s.grants && s'.devices == s.devices && s'.refresh == s.refresh
  }

  // A step that touches handlers and the log only.
  lemma ProcStepKeepsData(s256: string -> string, s: State, s': State)
    requires DataInv(s256, s) && Grows(s, s') && OnlyProcsChange(s, s')
    requires forall pid :: pid in s'.procs ==>
               (pid in s.procs && s'.procs[pid] == s.procs[pid]) || ProcOk(s256, s', s'.procs[pid])
    requires forall e :: e in s'.log ==> e in s.log || EventOk(s256, s', e)
    ensures DataInv(s256, s')
  {
    CodesStayOk(s, s');
    GrantsStayOk(s, s');
    DevicesStayOk(s, s');
    ProcsStayOk(s256, s, s');
    EventsStayOk(s256, s, s');
    RefreshUntouchedOk(s, s');
  }

  // A step of the refresh-token component by a handler.
  lemma RefreshStepKeepsData(s256: string -> string, s: State, s': State, on: RT.Action)
    requires DataInv(s256, s) && Grows(s, s') && forall e :: e in s'.log ==> e in s.log || EventOk(s256, s', e)
    requires s'.codes == s.codes && s'.devices == s.devices && s'.refresh == RT.Apply(s.refresh, on)
    requires forall key :: key in s'.grants ==> key in s.grants && s'.grants[key].scopes == s.grants[key].scopes
    requires on.Issue? ==> Covered(s'.log, on.req) && FamilyKnown(s'.log, on.family, on.req)
    requires s.refresh.held <= s'.refresh.held ==>
               forall pid :: pid in s'.procs ==>
                 (pid in s.procs && s'.procs[pid] == s.procs[pid]) || ProcOk(s256, s', s'.procs[pid])
    ensures DataInv(s256, s')
  {
    RefreshStaysOk(s, s', on);
    CodesStayOk(s, s');
    GrantsStayOk(s, s');
    DevicesStayOk(s, s');
    ProcsStayOk(s256, s, s');
    EventsStayOk(s256, s, s');
  }

  lemma InsertCodeKeepsData(s256: string -> string, s: State, data: CodeData)
    requires DataInv(s256, s) && data.id in s.used && Covered(s.log, CodeRequest(data))
    ensures DataInv(s256, InsertCode(s, data))
  {
    var s' := InsertCode(s, data);
    CoveredGrows(s.log, s'.log, CodeRequest(data));
    assert CodeOk(s', data.id);
    CodesStayOk(s, s');
    GrantsStayOk(s, s');
    DevicesStayOk(s, s');
    ProcsStayOk(s256, s, s');
    EventsStayOk(s256, s, s');
    RefreshUntouchedOk(s, s');
  }

  lemma ConsentKeepsData(s256: string -> string, s: State, a: Action)
    requires DataInv(s256, s) && a.Consent?
    ensures DataInv(s256, ApplyConsent(s, a))
  {
    var parsed := ParseScopes(a.scope);
    if MayAuthorize(s, a.user, a.client, a.redirect) && parsed.Some? && a.id !in s.used {
      var data := NewCode(s, a.user, a.client, parsed.value, a.challenge, a.redirect, a.id, a.ttl);
      ParsedAreScopes(a.scope);
      var given := ConsentGiven(a.user, a.client, data.org, data.scopes);
      var approved := s.(used := s.used + {a.id}, log := s.log + [given]);
      ProcStepKeepsData(s256, s, approved);
      assert Covered(approved.log, CodeRequest(data)) by {
        assert given in approved.log;
        assert forall scope :: scope in data.scopes ==> Approves(given, a.user, a.client, data.org, scope);
      }
      InsertCodeKeepsData(s256, approved, data);
    }
  }

  lemma AuthorizeKeepsData(s256: string -> string, s: State, a: Action)
    requires DataInv(s256, s) && a.Authorize?
    ensures DataInv(s256, ApplyAuthorize(s, a))
  {
    var s' := ApplyAuthorize(s, a);
    if s' != s {
      var data := s'.procs[a.pid].data;
      var key := GrantKey(a.client, a.user, data.org);
      ParsedAreScopes(a.scope);
      assert GrantOk(s, key);
      ProcStepKeepsData(s256, s, s');
    }
  }

  lemma IssueCodeKeepsData(s256: string -> string, s: State, a: Action)
    requires DataInv(s256, s) && a.IssueCode?
    ensures DataInv(s256, ApplyIssueCode(s, a))
  {
    if a.pid in s.procs && s.procs[a.pid].Authorizing? {
      assert ProcOk(s256, s, s.procs[a.pid]);
      InsertCodeKeepsData(s256, s, s.procs[a.pid].data);
      ProcStepKeepsData(s256, InsertCode(s, s.procs[a.pid].data), ApplyIssueCode(s, a));
    }
  }

  lemma LoadCodeKeepsData(s256: string -> string, s: State, a: Action)
    requires DataInv(s256, s) && a.LoadCode?
    ensures DataInv(s256, ApplyLoadCode(s256, s, a))
  {
    if ApplyLoadCode(s256, s, a) != s {
      assert CodeOk(s, a.id);
      ProcStepKeepsData(s256, s, ApplyLoadCode(s256, s, a));
    }
  }

  lemma MarkingCodesKeepsData(s256: string -> string, s: State, id: Id)
    requires DataInv(s256, s)
    ensures DataInv(s256, s.(codes := ConsumeCode(s.codes, id).0))
  {
    var s' := s.(codes := ConsumeCode(s.codes, id).0);
    CodesStayOk(s, s');
    GrantsStayOk(s, s');
    DevicesStayOk(s, s');
    ProcsStayOk(s256, s, s');
    EventsStayOk(s256, s, s');
    RefreshUntouchedOk(s, s');
  }

  lemma UseCodeKeepsData(s256: string -> string, s: State, a: Action)
    requires DataInv(s256, s) && a.UseCode?
    ensures DataInv(s256, ApplyUseCode(s, a))
  {
    if a.pid in s.procs && s.procs[a.pid].CodeLoaded? {
      var marked := s.(codes := ConsumeCode(s.codes, s.procs[a.pid].data.id).0);
      assert ProcOk(s256, s, s.procs[a.pid]);
      MarkingCodesKeepsData(s256, s, s.procs[a.pid].data.id);
      ProcStepKeepsData(s256, marked, ApplyUseCode(s, a));
    }
  }

  lemma ReadGrantKeepsData(s256: string -> string, s: State, a: Action)
    requires DataInv(s256, s) && a.ReadGrant?
    ensures DataInv(s256, ApplyReadGrant(s, a))
  {
    if a.pid in s.procs && s.procs[a.pid].CodeConsumed? {
      var p := s.procs[a.pid];
      assert ProcOk(s256, s, p);
      var key := KeyOfCode(p.data, p.presenter);
      assert key in s.grants ==> GrantOk(s, key);
      ProcStepKeepsData(s256, s, ApplyReadGrant(s, a));
    }
  }

  lemma {:induction false} MergeIsUnion(merged: seq<Scope>, stored: seq<Scope>)
    ensures forall s :: s in Merge(merged, stored) <==> s in merged || s in stored
    ensures merged <= Merge(merged, stored)
    decreases |stored|
  {
    if stored != [] {
      MergeIsUnion(if stored[0] in merged then merged else merged + [stored[0]], stored[1..]);
    }
  }

  lemma StoreGrantKeepsData(s256: string -> string, s: State, a: Action)
    requires DataInv(s256, s) && a.StoreGrant?
    ensures DataInv(s256, ApplyStoreGrant(s, a))
  {
    var s' := ApplyStoreGrant(s, a);
    if a.pid in s.procs && s.procs[a.pid].GrantRead? {
      var p := s.procs[a.pid];
      assert ProcOk(s256, s, p);
      var key := KeyOfCode(p.data, p.presenter);
      MergeIsUnion(p.data.scopes, if p.existing.Some? then p.existing.value else []);
      assert forall k :: k in s'.grants && k != key ==> k in s.grants && s'.grants[k] == s.grants[k];
      assert key in s'.grants ==> (key in s.grants && s'.grants[key] == s.grants[key]) || GrantOk(s', key);
      GrantsStayOk(s, s');
      CodesStayOk(s, s');
      DevicesStayOk(s, s');
      ProcsStayOk(s256, s, s');
      EventsStayOk(s256, s, s');
      RefreshUntouchedOk(s, s');
    }
  }

  lemma RecordedMintKeepsData(s256: string -> string, s: State, source: Source, req: RT.Request)
    requires DataInv(s256, s) && SourceOk(s256, s.log, source, req) && Covered(s.log, req)
    ensures DataInv(s256, s.(log := s.log + [AccessMinted(source, req)]))
  {
    var s' := s.(log := s.log + [AccessMinted(source, req)]);
    CoveredGrows(s.log, s'.log, req);
    assert EventOk(s256, s', AccessMinted(source, req));
    ProcStepKeepsData(s256, s, s');
  }

  lemma MintAccessKeepsData(s256: string -> string, s: State, a: Action)
    requires DataInv(s256, s) && a.MintAccess?
    ensures DataInv(s256, ApplyMintAccess(s, a))
  {
    if a.pid in s.procs && s.procs[a.pid].Minting? {
      var p := s.procs[a.pid];
      var minted := s.(log := s.log + [AccessMinted(p.source, p.req)]);
      assert ProcOk(s256, s, p);
      CoveredGrows(s.log, minted.log, p.req);
      RecordedMintKeepsData(s256, s, p.source, p.req);
      ProcStepKeepsData(s256, minted, ApplyMintAccess(s, a));
    }
  }

  lemma MintMachineKeepsData(s256: string -> string, s: State, a: Action)
    requires DataInv(s256, s) && a.MintMachine?
    ensures DataInv(s256, ApplyMintMachine(s, a))
  {
    if !a.actor.kind.User? {
      RecordedMintKeepsData(s256, s, FromMachine, RT.Request(a.client, a.actor, a.org, ["openid"]));
    }
  }

  lemma MintRefreshKeepsData(s256: string -> string, s: State, a: Action)
    requires DataInv(s256, s) && a.MintRefresh?
    ensures DataInv(s256, ApplyMintRefresh(s, a))
  {
    if a.pid in s.procs && s.procs[a.pid].Refreshing? {
      var p := s.procs[a.pid];
      var s' := ApplyMintRefresh(s, a);
      var issued := FamilyIssued(p.source, a.family, p.req);
      assert ProcOk(s256, s, p);
      if s' != s {
        CoveredGrows(s.log, s'.log, p.req);
        assert issued in s'.log && EventOk(s256, s', issued);
        RefreshStepKeepsData(s256, s, s', RT.Issue(a.token, a.family, p.req, a.ttl));
      }
    }
  }

  lemma LoadRefreshKeepsData(s256: string -> string, s: State, a: Action)
    requires DataInv(s256, s) && a.LoadRefresh?
    ensures DataInv(s256, ApplyLoadRefresh(s, a))
  {
    if ApplyLoadRefresh(s, a) != s {
      RefreshStepKeepsData(s256, s, ApplyLoadRefresh(s, a), RT.Find(a.token));
    }
  }

  lemma RotateRefreshKeepsData(s256: string -> string, s: State, a: Action)
    requires DataInv(s256, s) && a.RotateRefresh?
    ensures DataInv(s256, ApplyRotateRefresh(s, a))
  {
    if a.pid in s.procs && s.procs[a.pid].RefreshLoaded? && a.token !in s.refresh.used {
      var stale := s.procs[a.pid].stale;
      assert ProcOk(s256, s, s.procs[a.pid]);
      assert RefreshRowOk(s, stale);
      RotationMovesHandler(s, a);
      RotatedKeepsData(s256, s, a.pid, ApplyRotateRefresh(s, a).procs, RT.RotateStale(stale, a.token, a.ttl));
    }
  }

  // A handler whose rotation succeeds goes on to mint, for the client that
  // presented the token; any other ends.
  lemma RotationMovesHandler(s: State, a: Action)
    requires a.RotateRefresh? && a.pid in s.procs && s.procs[a.pid].RefreshLoaded? && a.token !in s.refresh.used
    ensures var s', stale, presenter := ApplyRotateRefresh(s, a), s.procs[a.pid].stale, s.procs[a.pid].presenter;
            && s' == s.(procs := s'.procs, refresh := RT.Apply(s.refresh, RT.RotateStale(stale, a.token, a.ttl)))
            && s'.procs - {a.pid} == s.procs - {a.pid}
            && (a.pid in s'.procs ==>
                  && RT.Rotate(s.refresh.table, stale, a.token, s.refresh.now, s.refresh.now + a.ttl).1.Rotated?
                  && s'.procs[a.pid] == Minting(FromRefresh(stale, presenter),
                                                RT.Request(presenter, stale.actor, stale.org, stale.scopes), false))
  {
  }

  lemma RotatedKeepsData(s256: string -> string, s: State, pid: Id, procs: map<Id, Proc>, on: RT.Action)
    requires DataInv(s256, s) && on.RotateStale? && RefreshRowOk(s, on.stale) && procs - {pid} == s.procs - {pid}
    requires pid in procs ==>
               procs[pid] == Minting(FromRefresh(on.stale, on.stale.client), RT.RequestOf(on.stale), false)
    ensures DataInv(s256, s.(procs := procs, refresh := RT.Apply(s.refresh, on)))
  {
    var s' := s.(procs := procs, refresh := RT.Apply(s.refresh, on));
    assert forall other :: other in procs && other != pid ==> other in procs - {pid};
    assert forall other :: other in s.procs && other != pid ==> other in s.procs - {pid};
    RefreshStepKeepsData(s256, s, s', on);
  }

  lemma RevokeGrantKeepsData(s256: string -> string, s: State, a: Action)
    requires DataInv(s256, s) && a.RevokeGrant?
    ensures DataInv(s256, ApplyRevokeGrant(s, a))
  {
    if GrantKey(a.client, a.user, a.org) in s.grants {
      RefreshStepKeepsData(s256, s, ApplyRevokeGrant(s, a), RT.RevokeGrant(a.client, a.user, a.org));
    }
  }

  lemma OnRefreshKeepsData(s256: string -> string, s: State, a: Action)
    requires DataInv(s256, s) && a.OnRefresh?
    ensures DataInv(s256, ApplyOnRefresh(s, a))
  {
    if a.on.Tick? || a.on.Find? || a.on.RevokeStale? || a.on.RevokeUser? {
      RefreshStepKeepsData(s256, s, ApplyOnRefresh(s, a), a.on);
    }
  }

  lemma DeletionKeepsData(s256: string -> string, s: State, s': State)
    requires DataInv(s256, s) && RefreshOk(s') && s.refresh.held <= s'.refresh.held
    requires s'.log == s.log && s'.used == s.used && s'.procs == s.procs
    requires forall id :: id in s'.codes ==> id in s.codes && s'.codes[id] == s.codes[id]
    requires forall key :: key in s'.grants ==> key in s.grants && s'.grants[key] == s.grants[key]
    requires forall id :: id in s'.devices ==> id in s.devices && s'.devices[id] == s.devices[id]
    ensures DataInv(s256, s')
  {
    CodesStayOk(s, s');
    GrantsStayOk(s, s');
    DevicesStayOk(s, s');
    ProcsStayOk(s256, s, s');
    EventsStayOk(s256, s, s');
  }

  lemma DeleteClientKeepsData(s256: string -> string, s: State, a: Action)
    requires DataInv(s256, s) && a.DeleteClient?
    ensures DataInv(s256, ApplyDeleteClient(s, a))
  {
    RefreshStaysOk(s, ApplyDeleteClient(s, a), RT.DeleteClient(a.client));
    DeletionKeepsData(s256, s, ApplyDeleteClient(s, a));
  }

  lemma DeleteUserKeepsData(s256: string -> string, s: State, a: Action)
    requires DataInv(s256, s) && a.DeleteUser?
    ensures DataInv(s256, ApplyDeleteUser(s, a))
  {
    RefreshUntouchedOk(s, ApplyDeleteUser(s, a));
    DeletionKeepsData(s256, s, ApplyDeleteUser(s, a));
  }

  // A step that changes one device row.
  lemma DeviceStepKeepsData(s256: string -> string, s: State, s': State, id: Id)
    requires DataInv(s256, s) && Grows(s, s')
    requires s'.codes == s.codes && s'.grants == s.grants && s'.refresh == s.refresh
    requires forall e :: e in s'.log ==> e in s.log || (!e.AccessMinted? && !e.FamilyIssued?)
    requires forall other :: other in s'.devices && other != id ==> other in s.devices && s'.devices[other] == s.devices[other]
    requires id in s'.devices ==> DeviceOk(s', id)
    requires forall pid :: pid in s'.procs ==>
               (pid in s.procs && s'.procs[pid] == s.procs[pid]) || ProcOk(s256, s', s'.procs[pid])
    ensures DataInv(s256, s')
  {
    DevicesStayOk(s, s');
    CodesStayOk(s, s');
    GrantsStayOk(s, s');
    ProcsStayOk(s256, s, s');
    EventsStayOk(s256, s, s');
    RefreshUntouchedOk(s, s');
  }

  lemma StartDeviceKeepsData(s256: string -> string, s: State, a: Action)
    requires DataInv(s256, s) && a.StartDevice?
    ensures DataInv(s256, ApplyStartDevice(s, a))
  {
    var s' := ApplyStartDevice(s, a);
    if s' != s {
      ParsedAreScopes(if a.scope == "" then "openid profile email" else a.scope);
      assert s'.log[|s.log|] == DeviceStarted(s'.devices[a.id].data);
      DeviceStepKeepsData(s256, s, s', a.id);
    }
  }

  lemma DecideDeviceKeepsData(s256: string -> string, s: State, a: Action)
    requires DataInv(s256, s) && a.DecideDevice?
    ensures DataInv(s256, ApplyDecideDevice(s, a))
  {
    var s' := ApplyDecideDevice(s, a);
    if s' != s {
      assert DeviceOk(s, a.id);
      assert s'.log[|s.log|] in s'.log;
      DeviceStepKeepsData(s256, s, s', a.id);
    }
  }

  lemma MarkingApprovalsKeepsData(s256: string -> string, s: State, id: Id)
    requires DataInv(s256, s)
    ensures DataInv(s256, s.(devices := ConsumeApproval(s.devices, id).0))
  {
    assert id in s.devices ==> DeviceOk(s, id);
    DeviceStepKeepsData(s256, s, s.(devices := ConsumeApproval(s.devices, id).0), id);
  }

  lemma UseApprovalKeepsData(s256: string -> string, s: State, a: Action)
    requires DataInv(s256, s) && a.UseApproval?
    ensures DataInv(s256, ApplyUseApproval(s, a))
  {
    if a.pid in s.procs && s.procs[a.pid].DeviceLoaded? {
      var marked := s.(devices := ConsumeApproval(s.devices, s.procs[a.pid].row.data.id).0);
      assert ProcOk(s256, s, s.procs[a.pid]);
      MarkingApprovalsKeepsData(s256, s, s.procs[a.pid].row.data.id);
      ProcStepKeepsData(s256, marked, ApplyUseApproval(s, a));
    }
  }

  lemma PollDeviceKeepsData(s256: string -> string, s: State, a: Action)
    requires DataInv(s256, s) && a.PollDevice?
    ensures DataInv(s256, ApplyPollDevice(s, a))
  {
    if a.pid !in s.procs && a.id in s.devices && a.presenter in s.clients {
      assert DeviceOk(s, a.id);
      if AnswerPoll(s.devices[a.id], a.presenter, Now(s)).Proceed? {
        ProcStepKeepsData(s256, s, ApplyPollDevice(s, a));
      } else {
        DeviceStepKeepsData(s256, s, ApplyPollDevice(s, a), a.id);
      }
    }
  }

  lemma ApprovalCovers(log: seq<Event>, data: DeviceData, user: Id)
    requires DeviceApproved(data, user) in log && AreScopes(data.scopes)
    ensures Covered(log, DeviceRequest(data, user))
  {
    assert forall scope :: scope in data.scopes ==>
        Approves(DeviceApproved(data, user), user, data.client, data.org, scope);
  }

  lemma CheckApprovalKeepsData(s256: string -> string, s: State, a: Action)
    requires DataInv(s256, s) && a.CheckApproval?
    ensures DataInv(s256, ApplyCheckApproval(s, a))
  {
    if a.pid in s.procs && s.procs[a.pid].DeviceConsumed? {
      var row := s.procs[a.pid].row;
      assert ProcOk(s256, s, s.procs[a.pid]);
      ApprovalCovers(s.log, row.data, row.user.value);
      ProcStepKeepsData(s256, s, ApplyCheckApproval(s, a));
    }
  }

  lemma CodeActionsKeepData(s256: string -> string, s: State, a: Action)
    requires DataInv(s256, s) && IsCodeAction(a)
    ensures DataInv(s256, ApplyCodeAction(s256, s, a))
  {
    match a
    case Consent(_, _, _, _, _, _, _) => ConsentKeepsData(s256, s, a);
    case Authorize(_, _, _, _, _, _, _, _) => AuthorizeKeepsData(s256, s, a);
    case IssueCode(_) => IssueCodeKeepsData(s256, s, a);
    case LoadCode(_, _, _, _, _) => LoadCodeKeepsData(s256, s, a);
    case UseCode(_) => UseCodeKeepsData(s256, s, a);
    case ReadGrant(_) => ReadGrantKeepsData(s256, s, a);
    case StoreGrant(_) => StoreGrantKeepsData(s256, s, a);
  }

  lemma TableActionsKeepData(s256: string -> string, s: State, a: Action)
    requires DataInv(s256, s) && !IsCodeAction(a) && !IsTokenAction(a) && !IsDeviceAction(a)
    ensures DataInv(s256, ApplyTableAction(s, a))
  {
    match a
    case OnRefresh(_) => OnRefreshKeepsData(s256, s, a);
    case SetClient(client, settings) => ProcStepKeepsData(s256, s, s.(clients := s.clients[client := settings]));
    case SetMember(user, org, active) => ProcStepKeepsData(s256, s, s.(members := if active then s.members + {(user, org)} else s.members - {(user, org)}));
    case DeleteClient(_) => DeleteClientKeepsData(s256, s, a);
    case DeleteUser(_) => DeleteUserKeepsData(s256, s, a);
    case RevokeGrant(_, _, _) => RevokeGrantKeepsData(s256, s, a);
    case Abandon(pid) => ProcStepKeepsData(s256, s, Finish(s, pid));
  }

  // Every atomic step keeps the invariant.
  lemma ApplyKeepsData(s256: string -> string, s: State, a: Action)
    requires DataInv(s256, s)
    ensures DataInv(s256, Apply(s256, s, a))
  {
    if IsCodeAction(a) {
      CodeActionsKeepData(s256, s, a);
    } else if IsTokenAction(a) {
      match a
      case MintAccess(_) => MintAccessKeepsData(s256, s, a);
      case MintMachine(_, _, _) => MintMachineKeepsData(s256, s, a);
      case MintRefresh(_, _, _, _) => MintRefreshKeepsData(s256, s, a);
      case LoadRefresh(_, _, _) => LoadRefreshKeepsData(s256, s, a);
      case RotateRefresh(_, _, _) => RotateRefreshKeepsData(s256, s, a);
    } else if IsDeviceAction(a) {
      match a
      case StartDevice(_, _, _) => StartDeviceKeepsData(s256, s, a);
      case DecideDevice(_, _, _) => DecideDeviceKeepsData(s256, s, a);
      case PollDevice(_, _, _) => PollDeviceKeepsData(s256, s, a);
      case UseApproval(_) => UseApprovalKeepsData(s256, s, a);
      case CheckApproval(_) => CheckApprovalKeepsData(s256, s, a);
    } else {
      TableActionsKeepData(s256, s, a);
    }
  }

  // ---------------------------------------------------------- main results

  lemma {:induction false} ExecKeepsData(s256: string -> string, s: State, actions: seq<Action>)
    requires DataInv(s256, s)
    ensures DataInv(s256, Exec(s256, s, actions))
    decreases |actions|
  {
    if actions != [] {
      ExecKeepsData(s256, s, actions[..|actions| - 1]);
      ApplyKeepsData(s256, Exec(s256, s, actions[..|actions| - 1]), actions[|actions| - 1]);
    }
  }

  lemma ReachableData(s256: string -> string, s: State)
    requires Reachable(s256, s)
    ensures DataInv(s256, s)
  {
    var actions :| s == Exec(s256, Init, actions);
    ExecKeepsData(s256, Init, actions);
  }

  // Every code, grant, refresh token and minted access token of every
  // reachable state stays within what its user approved.
  lemma ScopesNeverOutgrowApproval(s256: string -> string, s: State)
    requires Reachable(s256, s)
    ensures forall id :: id in s.codes ==> Covered(s.log, CodeRequest(s.codes[id].data))
    ensures forall key :: key in s.grants ==> Covered(s.log, GrantRequest(key, s.grants[key].scopes))
    ensures forall id :: id in s.refresh.table ==> Covered(s.log, RT.RequestOf(s.refresh.table[id]))
    ensures forall e :: e in s.log && e.AccessMinted? ==> Covered(s.log, e.req)
  {
    ReachableData(s256, s);
    forall id | id in s.codes
      ensures Covered(s.log, CodeRequest(s.codes[id].data))
    {
      assert CodeOk(s, id);
    }
    forall key | key in s.grants
      ensures Covered(s.log, GrantRequest(key, s.grants[key].scopes))
    {
      assert GrantOk(s, key);
    }
    forall id | id in s.refresh.table
      ensures Covered(s.log, RT.RequestOf(s.refresh.table[id]))
    {
      assert RefreshRowOk(s, s.refresh.table[id]);
    }
    forall e | e in s.log && e.AccessMinted?
      ensures Covered(s.log, e.req)
    {
      assert EventOk(s256, s, e);
    }
  }

  // When `authorize` issues a code silently, the user has already approved every scope in it.
  lemma SilentCodesWereApproved(s256: string -> string, s: State, key: GrantKey, scopes: seq<Scope>)
    requires Reachable(s256, s) && GrantCovers(s.grants, key, scopes)
    ensures forall scope :: scope in scopes ==> ApprovedScope(s.log, key.user, key.client, key.org, scope)
  {
    ReachableData(s256, s);
    assert GrantOk(s, key);
  }

  predicate DeletesGrant(a: Action, key: GrantKey) {
    (a.DeleteClient? && a.client == key.client) || (a.DeleteUser? && a.user == key.user)
  }

  // The upsert keeps the revocation mark, whatever is approved later.
  lemma RevokedGrantStaysRevoked(s256: string -> string, s: State, a: Action, key: GrantKey)
    requires key in s.grants && s.grants[key].revoked && !DeletesGrant(a, key)
    ensures key in Apply(s256, s, a).grants && Apply(s256, s, a).grants[key].revoked
  {
    if IsCodeAction(a) {
      assert key in ApplyCodeAction(s256, s, a).grants && ApplyCodeAction(s256, s, a).grants[key].revoked;
    } else if IsTokenAction(a) {
      assert ApplyTokenAction(s, a).grants == s.grants;
    } else if IsDeviceAction(a) {
      assert ApplyDeviceAction(s, a).grants == s.grants;
    } else {
      assert key in ApplyTableAction(s, a).grants && ApplyTableAction(s, a).grants[key].revoked;
    }
  }

  // A grant once revoked never again lets `authorize` skip the consent page,
  // however often the user approves the application again.
  lemma {:induction false} RevokedGrantIsNeverReused(s256: string -> string, s: State, later: seq<Action>, key: GrantKey)
    requires key in s.grants && s.grants[key].revoked
    requires forall i :: 0 <= i < |later| ==> !DeletesGrant(later[i], key)
    ensures key in Exec(s256, s, later).grants && Exec(s256, s, later).grants[key].revoked
    ensures forall scopes :: !GrantCovers(Exec(s256, s, later).grants, key, scopes)
    decreases |later|
  {
    if later != [] {
      RevokedGrantIsNeverReused(s256, s, later[..|later| - 1], key);
      RevokedGrantStaysRevoked(s256, Exec(s256, s, later[..|later| - 1]), later[|later| - 1], key);
    }
  }

  // The upsert, run without interleaving: the stored set grows by requested
  // scopes only, and stays as it is when the request already contains it.
  lemma UpsertBounds(grants: map<GrantKey, Grant>, key: GrantKey, scopes: seq<Scope>)
    ensures var grants' := WriteGrant(grants, key, scopes, StoredScopes(grants, key));
            var stored := if key in grants then grants[key].scopes else [];
            && grants'.Keys == grants.Keys + {key}
            && (forall k :: k in grants && k != key ==> grants'[k] == grants[k])
            && (forall s :: s in stored ==> s in grants'[key].scopes)
            && (forall s :: s in grants'[key].scopes ==> s in stored || s in scopes)
            && (key !in grants ==> grants'[key] == Grant(scopes, false))
            && (key in grants && (forall s :: s in stored ==> s in scopes) ==> grants' == grants)
            && (key in grants && (exists s :: s in stored && s !in scopes) ==>
                  forall s :: s in scopes ==> s in grants'[key].scopes)
  {
    var stored := if key in grants then grants[key].scopes else [];
    MergeIsUnion(scopes, stored);
    if forall s :: s in stored ==> s in scopes {
      MergeOfKnown(scopes, stored);
    }
  }

  // A request that contains the stored scopes and one more: it is not stored.
  lemma SomeUpsertIsNotTheUnion(key: GrantKey)
    ensures var grants := map[key := Grant(["openid"], false)];
            var scopes := ["openid", "email"];
            && WriteGrant(grants, key, scopes, StoredScopes(grants, key)) == grants
            && "email" in scopes && "email" !in grants[key].scopes
  {
    var grants := map[key := Grant(["openid"], false)];
    assert |"email"| != |"openid"|;
    assert ["openid", "email"][1] == "email";
    UpsertBounds(grants, key, ["openid", "email"]);
  }

  // The writing half alone, after any number of other writes since `existing`
  // was read. A stored scope is lost exactly when what was read brings something
  // new to the request and the scope is neither in it nor in the request.
  lemma StaleWriteKeeps(grants: map<GrantKey, Grant>, key: GrantKey, scopes: seq<Scope>, existing: Option<seq<Scope>>, scope: Scope)
    requires key in grants && scope in grants[key].scopes
    ensures var read := if existing.Some? then existing.value else [];
            var grants' := WriteGrant(grants, key, scopes, existing);
            && key in grants' && grants'[key].revoked == grants[key].revoked
            && (scope in grants'[key].scopes <==>
                  (forall r :: r in read ==> r in scopes) || scope in scopes || scope in read)
  {
    var read := if existing.Some? then existing.value else [];
    MergeIsUnion(scopes, read);
    if forall r :: r in read ==> r in scopes {
      MergeOfKnown(scopes, read);
    }
  }

  // The same of the step in a run: concurrent exchanges can undo each other's grants.
  lemma StoredScopeSurvives(s: State, a: Action, scope: Scope)
    requires a.StoreGrant? && a.pid in s.procs && s.procs[a.pid].GrantRead?
    requires KeyOfCode(s.procs[a.pid].data, s.procs[a.pid].presenter) in s.grants
    requires scope in s.grants[KeyOfCode(s.procs[a.pid].data, s.procs[a.pid].presenter)].scopes
    ensures var p := s.procs[a.pid];
            var key := KeyOfCode(p.data, p.presenter);
            var read := if p.existing.Some? then p.existing.value else [];
            && key in ApplyStoreGrant(s, a).grants
            && (scope in ApplyStoreGrant(s, a).grants[key].scopes <==>
                  (forall r :: r in read ==> r in p.data.scopes) || scope in p.data.scopes || scope in read)
  {
    var p := s.procs[a.pid];
    StaleWriteKeeps(s.grants, KeyOfCode(p.data, p.presenter), p.data.scopes, p.existing, scope);
  }

  lemma {:induction false} MergeOfKnown(merged: seq<Scope>, stored: seq<Scope>)
    requires forall s :: s in stored ==> s in merged
    ensures Merge(merged, stored) == merged
    decreases |stored|
  {
    if stored != [] {
      MergeOfKnown(merged, stored[1..]);
    }
  }
}

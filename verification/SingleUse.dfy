// Single use: an authorization code, a device code and a refresh token each lead
// to at most one minted token set, however the handlers that hold copies of their rows interleave.

module SingleUse {
  import opened Common
  import opened Scopes
  import opened OAuthRuns
  import opened Provenance
  import FamiliesInRuns
  import RT = RefreshTokens

  // What may happen at most once in a run.
  datatype Key =
    | IssueKey(id: Id)
    | StartKey(id: Id)
    | DecisionKey(id: Id)
    | CodeMintKey(id: Id)
    | DeviceMintKey(id: Id)
    | RefreshMintKey(id: Id)
    | CodeFamilyKey(id: Id)
    | DeviceFamilyKey(id: Id)

  function MintKeyOf(source: Source): Option<Key> {
    match source
    case FromCode(data, _, _) => Some(CodeMintKey(data.id))
    case FromDevice(device, _, _) => Some(DeviceMintKey(device.id))
    case FromRefresh(stale, _) => Some(RefreshMintKey(stale.id))
    case FromMachine => None
  }

  function FamilyKeyOf(source: Source): Option<Key> {
    match source
    case FromCode(data, _, _) => Some(CodeFamilyKey(data.id))
    case FromDevice(device, _, _) => Some(DeviceFamilyKey(device.id))
    case _ => None
  }

  function KeyOf(e: Event): Option<Key> {
    match e
    case ConsentGiven(_, _, _, _) => None
    case CodeIssued(code) => Some(IssueKey(code.id))
    case DeviceStarted(device) => Some(StartKey(device.id))
    case DeviceApproved(device, _) => Some(DecisionKey(device.id))
    case DeviceRefused(id) => Some(DecisionKey(id))
    case AccessMinted(source, _) => MintKeyOf(source)
    case FamilyIssued(source, _, _) => FamilyKeyOf(source)
  }

  // The one-time right that a handler has won and not yet exercised.
  function Holds(p: Proc): Option<Key> {
    match p
    case Authorizing(data) => Some(IssueKey(data.id))
    case CodeConsumed(data, _, _) => Some(CodeMintKey(data.id))
    case GrantRead(data, _, _, _) => Some(CodeMintKey(data.id))
    case DeviceConsumed(row, _) => Some(DeviceMintKey(row.data.id))
    case Minting(source, _, _) => MintKeyOf(source)
    case Refreshing(source, _) => FamilyKeyOf(source)
    case _ => None
  }

  ghost predicate HasKey(log: seq<Event>, k: Key) {
    exists i :: 0 <= i < |log| && KeyOf(log[i]) == Some(k)
  }

  ghost predicate UniqueKeys(log: seq<Event>) {
    forall i, j :: 0 <= i < j < |log| && KeyOf(log[i]).Some? ==> KeyOf(log[i]) != KeyOf(log[j])
  }

  // The database no longer lets anyone win this right.
  ghost predicate Closed(s: State, k: Key) {
    && k.id in (if k.RefreshMintKey? then s.refresh.used else s.used)
    && (match k
        case IssueKey(_) => true
        case StartKey(_) => true
        case DecisionKey(id) => id in s.devices ==> s.devices[id].status != Pending
        case CodeMintKey(id) => HasKey(s.log, IssueKey(id)) && (id in s.codes ==> s.codes[id].used)
        case DeviceMintKey(id) => id in s.devices ==> s.devices[id].status == Expired
        case RefreshMintKey(id) => id in s.refresh.table ==> !RT.Live(s.refresh.table[id])
        case CodeFamilyKey(id) => HasKey(s.log, CodeMintKey(id))
        case DeviceFamilyKey(id) => HasKey(s.log, DeviceMintKey(id)))
  }

  ghost predicate KeysClosed(s: State) {
    forall k {:trigger Closed(s, k)} :: HasKey(s.log, k) ==> Closed(s, k)
  }

  ghost predicate HolderOk(s: State, p: Proc) {
    Holds(p).Some? ==> Closed(s, Holds(p).value) && !HasKey(s.log, Holds(p).value)
  }

  ghost predicate HoldersOk(s: State) {
    forall pid {:trigger HolderOk(s, s.procs[pid])} :: pid in s.procs ==> HolderOk(s, s.procs[pid])
  }

  ghost predicate OneHolder(procs: map<Id, Proc>) {
    forall p, q :: p in procs && q in procs && p != q && Holds(procs[p]).Some? ==> Holds(procs[p]) != Holds(procs[q])
  }

  ghost predicate KeyInv(s: State) {
    var rights := UniqueKeys(s.log) && KeysClosed(s);
    var single := rights && HoldersOk(s) && OneHolder(s.procs);
    single
  }

  // Rows leave or move on; they come back only under identifiers never issued.
  predicate StatusMoves(from: Status, to: Status) {
    from == to || (from == Pending && (to == Approved || to == Denied)) || (from == Approved && to == Expired)
  }

  ghost predicate TokensMoveOn(before: RT.State, after: RT.State) {
    && before.used <= after.used
    && (forall id :: id in after.table && RT.Live(after.table[id]) ==>
          (id in before.table && RT.Live(before.table[id])) || id !in before.used)
  }

  lemma TokenStepsMoveOn(before: RT.State, on: RT.Action)
    ensures TokensMoveOn(before, RT.Apply(before, on))
  {
  }

  ghost predicate RowsMoveOn(s: State, s': State) {
    && Grows(s, s')
    && (forall id :: id in s'.codes ==>
          (id in s.codes && (s.codes[id].used ==> s'.codes[id].used)) || !HasKey(s.log, IssueKey(id)))
    && (forall id :: id in s'.devices ==>
          (id in s.devices && StatusMoves(s.devices[id].status, s'.devices[id].status)) || id !in s.used)
    && TokensMoveOn(s.refresh, s'.refresh)
  }

  lemma HasKeyGrows(log: seq<Event>, e: Event, k: Key)
    ensures HasKey(log + [e], k) <==> HasKey(log, k) || KeyOf(e) == Some(k)
  {
    var bigger := log + [e];
    assert bigger[|log|] == e;
    if HasKey(log, k) {
      var i :| 0 <= i < |log| && KeyOf(log[i]) == Some(k);
      assert KeyOf(bigger[i]) == Some(k);
    }
  }

  lemma HasKeyStays(log: seq<Event>, log': seq<Event>, k: Key)
    requires log <= log' && HasKey(log, k)
    ensures HasKey(log', k)
  {
    var i :| 0 <= i < |log| && KeyOf(log[i]) == Some(k);
    assert KeyOf(log'[i]) == Some(k);
  }

  lemma ClosedStays(s: State, s': State, k: Key)
    requires Closed(s, k) && RowsMoveOn(s, s')
    ensures Closed(s', k)
  {
    match k
    case CodeMintKey(id) => HasKeyStays(s.log, s'.log, IssueKey(id));
    case CodeFamilyKey(id) => HasKeyStays(s.log, s'.log, CodeMintKey(id));
    case DeviceFamilyKey(id) => HasKeyStays(s.log, s'.log, DeviceMintKey(id));
    case _ =>
  }

  // Steps that win no right and record nothing.
  lemma QuietStep(s: State, s': State)
    requires KeyInv(s) && RowsMoveOn(s, s') && s'.log == s.log
    requires forall pid :: pid in s'.procs ==>
               Holds(s'.procs[pid]).None? || (pid in s.procs && Holds(s'.procs[pid]) == Holds(s.procs[pid]))
    ensures KeyInv(s')
  {
    forall k | HasKey(s'.log, k)
      ensures Closed(s', k)
    {
      assert Closed(s, k);
      ClosedStays(s, s', k);
    }
    forall pid | pid in s'.procs
      ensures HolderOk(s', s'.procs[pid])
    {
      if Holds(s'.procs[pid]).Some? {
        assert HolderOk(s, s.procs[pid]);
        ClosedStays(s, s', Holds(s.procs[pid]).value);
      }
    }
  }

  // A handler takes up a right that nobody has exercised or holds.
  lemma TakingStep(s: State, s': State, pid: Id, k: Key)
    requires KeyInv(s) && RowsMoveOn(s, s') && s'.log == s.log
    requires !HasKey(s.log, k) && Closed(s', k)
    requires forall other :: other in s.procs && other != pid ==> Holds(s.procs[other]) != Some(k)
    requires s'.procs.Keys == s.procs.Keys + {pid} && Holds(s'.procs[pid]) == Some(k)
    requires forall other :: other in s.procs && other != pid ==> s'.procs[other] == s.procs[other]
    ensures KeyInv(s')
  {
    forall k' | HasKey(s'.log, k')
      ensures Closed(s', k')
    {
      assert Closed(s, k');
      ClosedStays(s, s', k');
    }
    forall other | other in s'.procs
      ensures HolderOk(s', s'.procs[other])
    {
      if other != pid && Holds(s'.procs[other]).Some? {
        assert HolderOk(s, s.procs[other]);
        ClosedStays(s, s', Holds(s.procs[other]).value);
      }
    }
  }

  // A handler wins a right that was open.
  lemma WinningStep(s: State, s': State, pid: Id, k: Key)
    requires KeyInv(s) && RowsMoveOn(s, s') && s'.log == s.log
    requires !Closed(s, k) && Closed(s', k)
    requires s'.procs.Keys == s.procs.Keys + {pid} && Holds(s'.procs[pid]) == Some(k)
    requires forall other :: other in s.procs && other != pid ==> s'.procs[other] == s.procs[other]
    ensures KeyInv(s')
  {
    forall other | other in s.procs
      ensures Holds(s.procs[other]) != Some(k)
    {
      assert HolderOk(s, s.procs[other]);
    }
    TakingStep(s, s', pid, k);
  }

  // An event is recorded by the holder of its right, or by a statement that
  // closes the right at the same instant.
  lemma RecordingStep(s: State, s': State, e: Event)
    requires KeyInv(s) && RowsMoveOn(s, s') && s'.log == s.log + [e]
    requires forall pid :: pid in s'.procs ==>
               Holds(s'.procs[pid]).None? || (pid in s.procs && s'.procs[pid] == s.procs[pid])
    requires KeyOf(e).Some? ==>
               && !HasKey(s.log, KeyOf(e).value) && Closed(s', KeyOf(e).value)
               && forall pid :: pid in s'.procs ==> Holds(s'.procs[pid]) != KeyOf(e)
    ensures KeyInv(s')
  {
    forall k | HasKey(s'.log, k)
      ensures Closed(s', k)
    {
      HasKeyGrows(s.log, e, k);
      if HasKey(s.log, k) {
        assert Closed(s, k);
        ClosedStays(s, s', k);
      }
    }
    forall pid | pid in s'.procs
      ensures HolderOk(s', s'.procs[pid])
    {
      if Holds(s'.procs[pid]).Some? {
        assert HolderOk(s, s.procs[pid]);
        ClosedStays(s, s', Holds(s.procs[pid]).value);
        HasKeyGrows(s.log, e, Holds(s.procs[pid]).value);
      }
    }
    forall i, j | 0 <= i < j < |s'.log| && KeyOf(s'.log[i]).Some?
      ensures KeyOf(s'.log[i]) != KeyOf(s'.log[j])
    {
      assert s'.log[i] == s.log[i];
    }
  }

  // --------------------------------------------- every step keeps KeyInv

  lemma IssuedHasKey(log: seq<Event>, data: CodeData)
    requires CodeIssued(data) in log
    ensures HasKey(log, IssueKey(data.id))
  {
    var i :| 0 <= i < |log| && log[i] == CodeIssued(data);
    assert KeyOf(log[i]) == Some(IssueKey(data.id));
  }

  lemma FreshIsOpen(s: State, id: Id)
    requires KeyInv(s) && id !in s.used
    ensures forall k: Key :: k.id == id && !k.RefreshMintKey? ==> !Closed(s, k) && !HasKey(s.log, k)
    ensures forall pid, k: Key :: pid in s.procs && k.id == id && !k.RefreshMintKey? ==> Holds(s.procs[pid]) != Some(k)
  {
    forall k: Key | k.id == id && !k.RefreshMintKey?
      ensures !HasKey(s.log, k)
    {
      assert HasKey(s.log, k) ==> Closed(s, k);
    }
    forall pid, k: Key | pid in s.procs && k.id == id && !k.RefreshMintKey?
      ensures Holds(s.procs[pid]) != Some(k)
    {
      assert HolderOk(s, s.procs[pid]);
    }
  }

  // Inserting a code whose identifier nobody has issued before.
  lemma InsertCodeKeepsKeys(s: State, data: CodeData, procs: map<Id, Proc>)
    requires KeyInv(s) && data.id in s.used && !HasKey(s.log, IssueKey(data.id))
    requires forall pid :: pid in procs ==> pid in s.procs && procs[pid] == s.procs[pid]
    requires forall pid :: pid in procs ==> Holds(procs[pid]) != Some(IssueKey(data.id))
    ensures KeyInv(InsertCode(s, data).(procs := procs))
  {
    var s' := InsertCode(s, data).(procs := procs);
    RecordingStep(s, s', CodeIssued(data));
  }

  lemma ConsentKeepsKeys(s: State, a: Action)
    requires KeyInv(s) && a.Consent?
    ensures KeyInv(ApplyConsent(s, a))
  {
    var parsed := ParseScopes(a.scope);
    if MayAuthorize(s, a.user, a.client, a.redirect) && parsed.Some? && a.id !in s.used {
      var data := NewCode(s, a.user, a.client, parsed.value, a.challenge, a.redirect, a.id, a.ttl);
      var given := ConsentGiven(a.user, a.client, data.org, data.scopes);
      var approved := s.(used := s.used + {a.id}, log := s.log + [given]);
      FreshIsOpen(s, a.id);
      RecordingStep(s, approved, given);
      HasKeyGrows(s.log, given, IssueKey(a.id));
      InsertCodeKeepsKeys(approved, data, approved.procs);
    }
  }

  lemma AuthorizeKeepsKeys(s: State, a: Action)
    requires KeyInv(s) && a.Authorize?
    ensures KeyInv(ApplyAuthorize(s, a))
  {
    var s' := ApplyAuthorize(s, a);
    if s' != s {
      WinningStep(s, s', a.pid, IssueKey(a.id));
    }
  }

  lemma IssueCodeKeepsKeys(s: State, a: Action)
    requires KeyInv(s) && a.IssueCode?
    ensures KeyInv(ApplyIssueCode(s, a))
  {
    if a.pid in s.procs && s.procs[a.pid].Authorizing? {
      var data := s.procs[a.pid].data;
      assert HolderOk(s, s.procs[a.pid]);
      InsertCodeKeepsKeys(s, data, s.procs - {a.pid});
    }
  }

  lemma UseCodeKeepsKeys(s256: string -> string, s: State, a: Action)
    requires KeyInv(s) && DataInv(s256, s) && a.UseCode?
    ensures KeyInv(ApplyUseCode(s, a))
  {
    if a.pid in s.procs && s.procs[a.pid].CodeLoaded? {
      var p := s.procs[a.pid];
      var (codes, hit) := ConsumeCode(s.codes, p.data.id);
      if hit {
        assert CodeOk(s, p.data.id);
        IssuedHasKey(s.log, s.codes[p.data.id].data);
        var s' := s.(codes := codes, procs := s.procs[a.pid := CodeConsumed(p.data, p.presenter, p.verifier)]);
        assert RowsMoveOn(s, s');
        WinningStep(s, s', a.pid, CodeMintKey(p.data.id));
      } else {
        QuietStep(s, Finish(s, a.pid));
      }
    }
  }

  lemma UseApprovalKeepsKeys(s256: string -> string, s: State, a: Action)
    requires KeyInv(s) && DataInv(s256, s) && a.UseApproval?
    ensures KeyInv(ApplyUseApproval(s, a))
  {
    if a.pid in s.procs && s.procs[a.pid].DeviceLoaded? {
      var row := s.procs[a.pid].row;
      var (devices, hit) := ConsumeApproval(s.devices, row.data.id);
      if hit {
        assert DeviceOk(s, row.data.id);
        var s' := s.(devices := devices, procs := s.procs[a.pid := DeviceConsumed(row, s.procs[a.pid].presenter)]);
        assert RowsMoveOn(s, s');
        WinningStep(s, s', a.pid, DeviceMintKey(row.data.id));
      } else {
        QuietStep(s, Finish(s, a.pid));
      }
    }
  }

  lemma MintAccessKeepsKeys(s: State, a: Action)
    requires KeyInv(s) && a.MintAccess?
    ensures KeyInv(ApplyMintAccess(s, a))
  {
    if a.pid in s.procs && s.procs[a.pid].Minting? {
      var p := s.procs[a.pid];
      var e := AccessMinted(p.source, p.req);
      var minted := s.(log := s.log + [e], procs := s.procs - {a.pid});
      assert RowsMoveOn(s, minted) && RowsMoveOn(minted, ApplyMintAccess(s, a));
      ExercisingKeepsKeys(s, a.pid, minted, e);
      if p.withRefresh && FamilyKeyOf(p.source).Some? {
        FamilyRightOpens(s, a.pid, e);
        TakingStep(minted, ApplyMintAccess(s, a), a.pid, FamilyKeyOf(p.source).value);
      } else {
        QuietStep(minted, ApplyMintAccess(s, a));
      }
    }
  }

  // Minting the access token entitles its handler, and no other, to the refresh family.
  lemma FamilyRightOpens(s: State, pid: Id, e: Event)
    requires KeyInv(s) && pid in s.procs && s.procs[pid].Minting? && FamilyKeyOf(s.procs[pid].source).Some?
    requires e == AccessMinted(s.procs[pid].source, s.procs[pid].req)
    ensures var k := FamilyKeyOf(s.procs[pid].source).value;
            var free := !HasKey(s.log + [e], k) && forall other :: other in s.procs ==> Holds(s.procs[other]) != Some(k);
            var granted := free && Closed(s.(log := s.log + [e]), k);
            granted
  {
    var p := s.procs[pid];
    var k := FamilyKeyOf(p.source).value;
    var mint := MintKeyOf(p.source).value;
    assert HolderOk(s, p) && !HasKey(s.log, mint);
    assert HasKey(s.log, k) ==> Closed(s, k);
    HasKeyGrows(s.log, e, k);
    HasKeyGrows(s.log, e, mint);
    forall other | other in s.procs
      ensures Holds(s.procs[other]) != Some(k)
    {
      assert HolderOk(s, s.procs[other]);
    }
  }

  // The holder of a right records the event it is for, and is done with it.
  lemma ExercisingKeepsKeys(s: State, pid: Id, s': State, e: Event)
    requires KeyInv(s) && pid in s.procs && KeyOf(e) == Holds(s.procs[pid])
    requires RowsMoveOn(s, s') && s'.log == s.log + [e] && s'.procs == s.procs - {pid}
    ensures KeyInv(s')
  {
    var p := s.procs[pid];
    assert HolderOk(s, p);
    if Holds(p).Some? {
      ClosedStays(s, s', Holds(p).value);
    }
    RecordingStep(s, s', e);
  }

  lemma StartDeviceKeepsKeys(s: State, a: Action)
    requires KeyInv(s) && a.StartDevice?
    ensures KeyInv(ApplyStartDevice(s, a))
  {
    var s' := ApplyStartDevice(s, a);
    if s' != s {
      FreshIsOpen(s, a.id);
      RecordingStep(s, s', DeviceStarted(s'.devices[a.id].data));
    }
  }

  lemma DecideDeviceKeepsKeys(s256: string -> string, s: State, a: Action)
    requires KeyInv(s) && DataInv(s256, s) && a.DecideDevice?
    ensures KeyInv(ApplyDecideDevice(s, a))
  {
    var s' := ApplyDecideDevice(s, a);
    if s' != s {
      assert DeviceOk(s, a.id);
      assert !Closed(s, DecisionKey(a.id));
      RecordingStep(s, s', if a.approve then DeviceApproved(s.devices[a.id].data, a.user) else DeviceRefused(a.id));
    }
  }

  lemma MintMachineKeepsKeys(s: State, a: Action)
    requires KeyInv(s) && a.MintMachine?
    ensures KeyInv(ApplyMintMachine(s, a))
  {
    if !a.actor.kind.User? {
      RecordingStep(s, ApplyMintMachine(s, a), AccessMinted(FromMachine, RT.Request(a.client, a.actor, a.org, ["openid"])));
    }
  }

  // The remaining actions neither win nor exercise a right.
  lemma OnRefreshKeepsKeys(s: State, a: Action)
    requires KeyInv(s) && a.OnRefresh?
    ensures KeyInv(ApplyOnRefresh(s, a))
  {
    TokenStepsMoveOn(s.refresh, a.on);
    QuietStep(s, ApplyOnRefresh(s, a));
  }

  lemma RevokeGrantKeepsKeys(s: State, a: Action)
    requires KeyInv(s) && a.RevokeGrant?
    ensures KeyInv(ApplyRevokeGrant(s, a))
  {
    QuietStep(s, ApplyRevokeGrant(s, a));
  }

  lemma DeleteClientKeepsKeys(s: State, a: Action)
    requires KeyInv(s) && a.DeleteClient?
    ensures KeyInv(ApplyDeleteClient(s, a))
  {
    QuietStep(s, ApplyDeleteClient(s, a));
  }

  lemma DeleteUserKeepsKeys(s: State, a: Action)
    requires KeyInv(s) && a.DeleteUser?
    ensures KeyInv(ApplyDeleteUser(s, a))
  {
    QuietStep(s, ApplyDeleteUser(s, a));
  }

  lemma LoadCodeKeepsKeys(s256: string -> string, s: State, a: Action)
    requires KeyInv(s) && a.LoadCode?
    ensures KeyInv(ApplyLoadCode(s256, s, a))
  {
    QuietStep(s, ApplyLoadCode(s256, s, a));
  }

  lemma ReadGrantKeepsKeys(s: State, a: Action)
    requires KeyInv(s) && a.ReadGrant?
    ensures KeyInv(ApplyReadGrant(s, a))
  {
    QuietStep(s, ApplyReadGrant(s, a));
  }

  lemma StoreGrantKeepsKeys(s: State, a: Action)
    requires KeyInv(s) && a.StoreGrant?
    ensures KeyInv(ApplyStoreGrant(s, a))
  {
    QuietStep(s, ApplyStoreGrant(s, a));
  }

  lemma MintRefreshKeepsKeys(s: State, a: Action)
    requires KeyInv(s) && a.MintRefresh?
    ensures KeyInv(ApplyMintRefresh(s, a))
  {
    var s' := ApplyMintRefresh(s, a);
    if s' != s {
      var p := s.procs[a.pid];
      ExercisingKeepsKeys(s, a.pid, s', FamilyIssued(p.source, a.family, p.req));
    }
  }

  lemma LoadRefreshKeepsKeys(s: State, a: Action)
    requires KeyInv(s) && a.LoadRefresh?
    ensures KeyInv(ApplyLoadRefresh(s, a))
  {
    QuietStep(s, ApplyLoadRefresh(s, a));
  }

  // Only the handler whose rotation finds the token live goes on to mint from it.
  lemma RotateRefreshKeepsKeys(s256: string -> string, s: State, a: Action)
    requires KeyInv(s) && DataInv(s256, s) && RT.Inv(s.refresh) && a.RotateRefresh?
    ensures KeyInv(ApplyRotateRefresh(s, a))
  {
    if a.pid in s.procs && s.procs[a.pid].RefreshLoaded? && a.token !in s.refresh.used {
      var stale := s.procs[a.pid].stale;
      assert ProcOk(s256, s, s.procs[a.pid]) && RT.HeldKnown(s.refresh, stale);
      RotationMovesHandler(s, a);
      TokenStepsMoveOn(s.refresh, RT.RotateStale(stale, a.token, a.ttl));
      RotationClosesToken(s.refresh, stale, a.token, a.ttl);
      RotatedKeepsKeys(s, a.pid, stale.id, ApplyRotateRefresh(s, a).procs, ApplyRotateRefresh(s, a).refresh);
    }
  }

  lemma RotatedKeepsKeys(s: State, pid: Id, id: Id, procs: map<Id, Proc>, after: RT.State)
    requires KeyInv(s) && TokensMoveOn(s.refresh, after) && pid in s.procs && procs - {pid} == s.procs - {pid}
    requires pid in procs ==>
               && Holds(procs[pid]) == Some(RefreshMintKey(id))
               && !Closed(s, RefreshMintKey(id)) && Closed(s.(refresh := after), RefreshMintKey(id))
    ensures KeyInv(s.(procs := procs, refresh := after))
  {
    var s' := s.(procs := procs, refresh := after);
    assert forall other :: other in procs && other != pid ==> other in procs - {pid};
    assert forall other :: other in s.procs && other != pid ==> other in s.procs - {pid};
    if pid in procs {
      WinningStep(s, s', pid, RefreshMintKey(id));
    } else {
      QuietStep(s, s');
    }
  }

  // A rotation that succeeds found the token live and leaves it revoked.
  lemma RotationClosesToken(before: RT.State, stale: RT.Row, token: Id, ttl: nat)
    requires stale in before.held && stale.id in before.used && token !in before.used
    ensures RT.Rotate(before.table, stale, token, before.now, before.now + ttl).1.Rotated? ==>
              && stale.id in before.table && RT.Live(before.table[stale.id])
              && var after := RT.Apply(before, RT.RotateStale(stale, token, ttl));
                 stale.id in after.used && (stale.id in after.table ==> !RT.Live(after.table[stale.id]))
  {
  }

  lemma PollDeviceKeepsKeys(s: State, a: Action)
    requires KeyInv(s) && a.PollDevice?
    ensures KeyInv(ApplyPollDevice(s, a))
  {
    var s' := ApplyPollDevice(s, a);
    assert s'.codes == s.codes && s'.log == s.log && s'.used == s.used;
    assert forall id :: id in s'.devices ==> id in s.devices && s'.devices[id].status == s.devices[id].status;
    QuietStep(s, s');
  }

  lemma CheckApprovalKeepsKeys(s: State, a: Action)
    requires KeyInv(s) && a.CheckApproval?
    ensures KeyInv(ApplyCheckApproval(s, a))
  {
    if a.pid in s.procs && s.procs[a.pid].DeviceConsumed? {
      var s' := ApplyCheckApproval(s, a);
      assert s' == s.(procs := s'.procs);
      assert a.pid in s'.procs ==> Holds(s'.procs[a.pid]) == Holds(s.procs[a.pid]);
      HandlersMoveOn(s, s'.procs, a.pid);
    }
  }

  // A handler goes to its next statement, or ends; no table changes.
  lemma HandlersMoveOn(s: State, procs: map<Id, Proc>, pid: Id)
    requires KeyInv(s) && pid in s.procs
    requires forall other :: other in procs && other != pid ==> other in s.procs && procs[other] == s.procs[other]
    requires pid in procs ==> Holds(procs[pid]).None? || Holds(procs[pid]) == Holds(s.procs[pid])
    ensures KeyInv(s.(procs := procs))
  {
    QuietStep(s, s.(procs := procs));
  }

  lemma CodeActionsKeepKeys(s256: string -> string, s: State, a: Action)
    requires KeyInv(s) && DataInv(s256, s) && IsCodeAction(a)
    ensures KeyInv(ApplyCodeAction(s256, s, a))
  {
    match a
    case Consent(_, _, _, _, _, _, _) => ConsentKeepsKeys(s, a);
    case Authorize(_, _, _, _, _, _, _, _) => AuthorizeKeepsKeys(s, a);
    case IssueCode(_) => IssueCodeKeepsKeys(s, a);
    case LoadCode(_, _, _, _, _) => LoadCodeKeepsKeys(s256, s, a);
    case UseCode(_) => UseCodeKeepsKeys(s256, s, a);
    case ReadGrant(_) => ReadGrantKeepsKeys(s, a);
    case StoreGrant(_) => StoreGrantKeepsKeys(s, a);
  }

  lemma TableActionsKeepKeys(s: State, a: Action)
    requires KeyInv(s) && !IsCodeAction(a) && !IsTokenAction(a) && !IsDeviceAction(a)
    ensures KeyInv(ApplyTableAction(s, a))
  {
    match a
    case OnRefresh(_) => OnRefreshKeepsKeys(s, a);
    case SetClient(client, settings) => QuietStep(s, s.(clients := s.clients[client := settings]));
    case SetMember(user, org, active) => QuietStep(s, s.(members := if active then s.members + {(user, org)} else s.members - {(user, org)}));
    case DeleteClient(_) => DeleteClientKeepsKeys(s, a);
    case DeleteUser(_) => DeleteUserKeepsKeys(s, a);
    case RevokeGrant(_, _, _) => RevokeGrantKeepsKeys(s, a);
    case Abandon(pid) => QuietStep(s, Finish(s, pid));
  }

  // Every atomic step keeps the invariant.
  lemma ApplyKeepsKeys(s256: string -> string, s: State, a: Action)
    requires KeyInv(s) && DataInv(s256, s) && RT.Inv(s.refresh)
    ensures KeyInv(Apply(s256, s, a))
  {
    if IsCodeAction(a) {
      CodeActionsKeepKeys(s256, s, a);
    } else if IsTokenAction(a) {
      match a
      case MintAccess(_) => MintAccessKeepsKeys(s, a);
      case MintMachine(_, _, _) => MintMachineKeepsKeys(s, a);
      case MintRefresh(_, _, _, _) => MintRefreshKeepsKeys(s, a);
      case LoadRefresh(_, _, _) => LoadRefreshKeepsKeys(s, a);
      case RotateRefresh(_, _, _) => RotateRefreshKeepsKeys(s256, s, a);
    } else if IsDeviceAction(a) {
      match a
      case StartDevice(_, _, _) => StartDeviceKeepsKeys(s, a);
      case DecideDevice(_, _, _) => DecideDeviceKeepsKeys(s256, s, a);
      case PollDevice(_, _, _) => PollDeviceKeepsKeys(s, a);
      case UseApproval(_) => UseApprovalKeepsKeys(s256, s, a);
      case CheckApproval(_) => CheckApprovalKeepsKeys(s, a);
    } else {
      TableActionsKeepKeys(s, a);
    }
  }

  lemma {:induction false} ExecKeepsKeys(s256: string -> string, s: State, actions: seq<Action>)
    requires KeyInv(s) && DataInv(s256, s) && RT.Inv(s.refresh)
    ensures KeyInv(Exec(s256, s, actions))
    decreases |actions|
  {
    if actions != [] {
      var moves := FamiliesInRuns.RunsMoveRefresh(s256, s, actions[..|actions| - 1]);
      RT.ExecKeepsInv(s.refresh, moves);
      ExecKeepsKeys(s256, s, actions[..|actions| - 1]);
      ExecKeepsData(s256, s, actions[..|actions| - 1]);
      ApplyKeepsKeys(s256, Exec(s256, s, actions[..|actions| - 1]), actions[|actions| - 1]);
    }
  }

  lemma ReachableKeys(s256: string -> string, s: State)
    requires Reachable(s256, s)
    ensures var both := KeyInv(s) && DataInv(s256, s); both
  {
    var actions :| s == Exec(s256, Init, actions);
    ExecKeepsData(s256, Init, actions);
    RT.InitInv();
    ExecKeepsKeys(s256, Init, actions);
  }

  // ---------------------------------------------------------- main results

  predicate MintsFor(e: Event, k: Key) {
    e.AccessMinted? && MintKeyOf(e.source) == Some(k)
  }

  // An authorization code mints at most once, for the client it was issued
  // to, on a verifier whose S256 image is its challenge, and with its own
  // user, organization and scopes.
  lemma CodeMintsAtMostOnce(s256: string -> string, s: State, i: nat)
    requires Reachable(s256, s) && i < |s.log| && s.log[i].AccessMinted? && s.log[i].source.FromCode?
    ensures var data := s.log[i].source.data;
            && CodeIssued(data) in s.log
            && (forall other :: CodeIssued(other) in s.log && other.id == data.id ==> other == data)
            && s.log[i].source.presenter == data.client
            && s256(s.log[i].source.verifier) == data.challenge
            && s.log[i].req == CodeRequest(data)
    ensures forall j :: 0 <= j < |s.log| && MintsFor(s.log[j], CodeMintKey(s.log[i].source.data.id)) ==> j == i
  {
    ReachableKeys(s256, s);
    var data := s.log[i].source.data;
    assert EventOk(s256, s, s.log[i]);
    forall other | CodeIssued(other) in s.log && other.id == data.id
      ensures other == data
    {
      var m :| 0 <= m < |s.log| && s.log[m] == CodeIssued(other);
      var n :| 0 <= n < |s.log| && s.log[n] == CodeIssued(data);
      assert KeyOf(s.log[m]) == KeyOf(s.log[n]);
    }
    forall j | 0 <= j < |s.log| && MintsFor(s.log[j], CodeMintKey(data.id))
      ensures j == i
    {
      assert KeyOf(s.log[j]) == KeyOf(s.log[i]);
    }
  }

  // A device code mints at most once, never after a refusal, for the one user
  // who approved it, presented by the client that started it and with its scopes.
  lemma DeviceMintsAtMostOnce(s256: string -> string, s: State, i: nat)
    requires Reachable(s256, s) && i < |s.log| && s.log[i].AccessMinted? && s.log[i].source.FromDevice?
    ensures var device, user := s.log[i].source.device, s.log[i].source.user;
            && DeviceStarted(device) in s.log && DeviceApproved(device, user) in s.log
            && DeviceRefused(device.id) !in s.log && s.log[i].source.presenter == device.client
            && (forall d, u :: DeviceApproved(d, u) in s.log && d.id == device.id ==> d == device && u == user)
            && (forall d :: DeviceStarted(d) in s.log && d.id == device.id ==> d == device)
            && s.log[i].req == DeviceRequest(device, user)
    ensures forall j :: 0 <= j < |s.log| && MintsFor(s.log[j], DeviceMintKey(s.log[i].source.device.id)) ==> j == i
  {
    ReachableKeys(s256, s);
    var device, user := s.log[i].source.device, s.log[i].source.user;
    assert EventOk(s256, s, s.log[i]);
    DecidedOnce(s.log, device, user);
    StartedOnce(s.log, device);
    forall j | 0 <= j < |s.log| && MintsFor(s.log[j], DeviceMintKey(device.id))
      ensures j == i
    {
      assert KeyOf(s.log[j]) == KeyOf(s.log[i]);
    }
  }

  // A refresh token mints at most once, presented by the client it was issued
  // to, and for its own actor, organization and scopes.
  lemma RefreshMintsAtMostOnce(s256: string -> string, s: State, i: nat)
    requires Reachable(s256, s) && i < |s.log| && s.log[i].AccessMinted? && s.log[i].source.FromRefresh?
    ensures var (stale, presenter) := (s.log[i].source.stale, s.log[i].source.presenter);
            && presenter == stale.client
            && s.log[i].req == RT.Request(presenter, stale.actor, stale.org, stale.scopes)
    ensures forall j :: 0 <= j < |s.log| && MintsFor(s.log[j], RefreshMintKey(s.log[i].source.stale.id)) ==> j == i
  {
    ReachableKeys(s256, s);
    assert EventOk(s256, s, s.log[i]);
    forall j | 0 <= j < |s.log| && MintsFor(s.log[j], RefreshMintKey(s.log[i].source.stale.id))
      ensures j == i
    {
      assert KeyOf(s.log[j]) == KeyOf(s.log[i]);
    }
  }

  // All that is minted on one code or device code is for one request.
  lemma SameRightSameRequest(s256: string -> string, s: State, i: nat, j: nat)
    requires Reachable(s256, s) && i < |s.log| && j < |s.log| && s.log[i].FamilyIssued? && FamilyKeyOf(s.log[i].source).Some?
    requires MintsFor(s.log[j], MintKeyOf(s.log[i].source).value)
    ensures s.log[j].req == s.log[i].req
  {
    ReachableKeys(s256, s);
    assert EventOk(s256, s, s.log[i]) && EventOk(s256, s, s.log[j]);
    if s.log[i].source.FromCode? {
      CodeMintsAtMostOnce(s256, s, j);
    } else {
      DeviceMintsAtMostOnce(s256, s, j);
    }
  }

  // The refresh family of an exchange: at most one for a code or device code,
  // for the same request as the access token minted just before, and only when
  // the approved scopes ask for it.
  lemma RightYieldsOneFamily(s256: string -> string, s: State, i: nat)
    requires Reachable(s256, s) && i < |s.log| && s.log[i].FamilyIssued? && FamilyKeyOf(s.log[i].source).Some?
    ensures "offline_access" in s.log[i].req.scopes
    ensures exists j :: 0 <= j < |s.log| && MintsFor(s.log[j], MintKeyOf(s.log[i].source).value)
                        && s.log[j].req == s.log[i].req
    ensures forall j :: 0 <= j < |s.log| && KeyOf(s.log[j]) == FamilyKeyOf(s.log[i].source) ==> j == i
  {
    ReachableKeys(s256, s);
    assert EventOk(s256, s, s.log[i]);
    var k := FamilyKeyOf(s.log[i].source).value;
    assert HasKey(s.log, k);
    assert Closed(s, k);
    var j :| 0 <= j < |s.log| && KeyOf(s.log[j]) == MintKeyOf(s.log[i].source);
    assert MintsFor(s.log[j], MintKeyOf(s.log[i].source).value);
    SameRightSameRequest(s256, s, i, j);
    forall j | 0 <= j < |s.log| && KeyOf(s.log[j]) == Some(k)
      ensures j == i
    {
      assert KeyOf(s.log[j]) == KeyOf(s.log[i]);
    }
  }

  // Every stored refresh token is of a family issued on some right; tokens
  // that go back to the same code or device code are of the same family.
  lemma OneFamilyPerRight(s256: string -> string, s: State, x: Id, y: Id)
    requires Reachable(s256, s) && x in s.refresh.table && y in s.refresh.table
    ensures FamilyKnown(s.log, s.refresh.table[x].family, RT.RequestOf(s.refresh.table[x]))
    ensures forall p, q, a, b :: FamilyIssued(p, s.refresh.table[x].family, a) in s.log
                                 && FamilyIssued(q, s.refresh.table[y].family, b) in s.log
                                 && FamilyKeyOf(p).Some? && FamilyKeyOf(p) == FamilyKeyOf(q) ==>
              s.refresh.table[x].family == s.refresh.table[y].family && p == q && a == b
  {
    ReachableKeys(s256, s);
    var f, g := s.refresh.table[x].family, s.refresh.table[y].family;
    assert RefreshRowOk(s, s.refresh.table[x]);
    forall p, q, a, b | FamilyIssued(p, f, a) in s.log && FamilyIssued(q, g, b) in s.log
                        && FamilyKeyOf(p).Some? && FamilyKeyOf(p) == FamilyKeyOf(q)
      ensures f == g && p == q && a == b
    {
      var i :| 0 <= i < |s.log| && s.log[i] == FamilyIssued(p, f, a);
      var j :| 0 <= j < |s.log| && s.log[j] == FamilyIssued(q, g, b);
      assert KeyOf(s.log[i]) == KeyOf(s.log[j]);
    }
  }

  lemma DecidedOnce(log: seq<Event>, device: DeviceData, user: Id)
    requires UniqueKeys(log) && DeviceApproved(device, user) in log
    ensures DeviceRefused(device.id) !in log
    ensures forall d, u :: DeviceApproved(d, u) in log && d.id == device.id ==> d == device && u == user
  {
    var n :| 0 <= n < |log| && log[n] == DeviceApproved(device, user);
    forall m | 0 <= m < |log| && KeyOf(log[m]) == Some(DecisionKey(device.id))
      ensures m == n
    {
      assert KeyOf(log[m]) == KeyOf(log[n]);
    }
  }

  lemma StartedOnce(log: seq<Event>, device: DeviceData)
    requires UniqueKeys(log) && DeviceStarted(device) in log
    ensures forall d :: DeviceStarted(d) in log && d.id == device.id ==> d == device
  {
    var n :| 0 <= n < |log| && log[n] == DeviceStarted(device);
    forall d | DeviceStarted(d) in log && d.id == device.id
      ensures d == device
    {
      var m :| 0 <= m < |log| && log[m] == DeviceStarted(d);
      assert KeyOf(log[m]) == KeyOf(log[n]);
    }
  }

  // A device row only ever moves from pending to approved or denied and from
  // approved to expired; nothing else about it changes but the approving user
  // and the time of the last poll.
  ghost predicate DeviceMovesForward(before: DeviceRow, after: DeviceRow) {
    && StatusMoves(before.status, after.status)
    && after.data == before.data
    && (before.status != Pending ==> after.user == before.user)
  }

  lemma DeviceStatusMovesForward(s256: string -> string, s: State, a: Action, id: Id)
    requires Reachable(s256, s) && id in s.devices && id in Apply(s256, s, a).devices
    ensures DeviceMovesForward(s.devices[id], Apply(s256, s, a).devices[id])
  {
    ReachableKeys(s256, s);
    assert DeviceOk(s, id);
    if IsCodeAction(a) {
      CodeActionsSpareDevices(s256, s, a);
    } else if IsTokenAction(a) {
      TokenActionsSpareDevices(s, a);
    } else if IsDeviceAction(a) {
      DeviceActionsMoveForward(s, a, id);
    } else {
      TableActionsSpareDevices(s, a, id);
    }
  }

  lemma CodeActionsSpareDevices(s256: string -> string, s: State, a: Action)
    requires IsCodeAction(a)
    ensures ApplyCodeAction(s256, s, a).devices == s.devices
  {
  }

  lemma TokenActionsSpareDevices(s: State, a: Action)
    requires IsTokenAction(a)
    ensures ApplyTokenAction(s, a).devices == s.devices
  {
  }

  lemma TableActionsSpareDevices(s: State, a: Action, id: Id)
    requires !IsCodeAction(a) && !IsTokenAction(a) && !IsDeviceAction(a)
    requires id in s.devices && id in ApplyTableAction(s, a).devices
    ensures ApplyTableAction(s, a).devices[id] == s.devices[id]
  {
  }

  lemma DeviceActionsMoveForward(s: State, a: Action, id: Id)
    requires IsDeviceAction(a) && id in s.devices && id in ApplyDeviceAction(s, a).devices
    requires id in s.used
    ensures DeviceMovesForward(s.devices[id], ApplyDeviceAction(s, a).devices[id])
  {
  }
}

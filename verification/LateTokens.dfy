// The other half of AfterRevocation: whatever is outstanding can still be
// turned into a live refresh token, so a revocation is final exactly when
// nothing is.

module LateTokens {
  import opened Common
  import opened Scopes
  import opened OAuthRuns
  import opened Provenance
  import opened SingleUse
  import opened AfterRevocation
  import ConcurrentExchanges
  import RT = RefreshTokens

  // Steps in which the user decides nothing and nobody is deleted.
  predicate IsRoutine(a: Action) {
    !a.Consent? && !a.Authorize? && !a.DecideDevice? && !a.DeleteClient? && !a.DeleteUser?
  }

  ghost predicate AllRoutine(later: seq<Action>) {
    forall i :: 0 <= i < |later| ==> IsRoutine(later[i])
  }

  ghost predicate CanYield(s256: string -> string, s: State, key: GrantKey) {
    exists later :: AllRoutine(later) && !NoLiveToken(Exec(s256, s, later), key)
  }

  lemma {:induction false} ExecFromFront(s256: string -> string, s: State, a: Action, later: seq<Action>)
    ensures Exec(s256, s, [a] + later) == Exec(s256, Apply(s256, s, a), later)
    decreases |later|
  {
    var all := [a] + later;
    if later == [] {
      assert all[..0] == [] && all[0] == a;
    } else {
      ExecFromFront(s256, s, a, later[..|later| - 1]);
      assert all[..|all| - 1] == [a] + later[..|later| - 1];
    }
  }

  lemma YieldsBefore(s256: string -> string, s: State, a: Action, key: GrantKey)
    requires IsRoutine(a) && CanYield(s256, Apply(s256, s, a), key)
    ensures CanYield(s256, s, key)
  {
    var later :| AllRoutine(later) && !NoLiveToken(Exec(s256, Apply(s256, s, a), later), key);
    ExecFromFront(s256, s, a, later);
    assert AllRoutine([a] + later);
  }

  lemma YieldsNow(s256: string -> string, s: State, key: GrantKey, id: Id)
    requires LiveFor(s, key, id)
    ensures CanYield(s256, s, key)
  {
    assert Exec(s256, s, []) == s;
    assert AllRoutine([]);
  }

  lemma {:induction false} SomeFreshId(used: set<Id>) returns (id: Id)
    ensures forall u :: u in used ==> u < id
    decreases used
  {
    if used == {} {
      return 0;
    }
    var u :| u in used;
    var rest := SomeFreshId(used - {u});
    id := if u < rest then rest else u + 1;
    assert forall v :: v in used ==> v == u || v in used - {u};
  }

  lemma RefreshingYields(s256: string -> string, s: State, key: GrantKey, pid: Id)
    requires pid in s.procs && s.procs[pid].Refreshing? && ForKey(key, s.procs[pid].req)
    ensures CanYield(s256, s, key)
  {
    var token := SomeFreshId(s.refresh.used + s.refresh.table.Keys);
    var a := MintRefresh(pid, token, token + 1, 0);
    var t := Apply(s256, s, a);
    assert t == ApplyMintRefresh(s, a);
    assert LiveFor(t, key, token);
    YieldsNow(s256, t, key, token);
    YieldsBefore(s256, s, a, key);
  }

  lemma MintingYields(s256: string -> string, s: State, key: GrantKey, pid: Id)
    requires pid in s.procs && s.procs[pid].Minting? && s.procs[pid].withRefresh && ForKey(key, s.procs[pid].req)
    ensures CanYield(s256, s, key)
  {
    var a := MintAccess(pid);
    assert Apply(s256, s, a) == ApplyMintAccess(s, a);
    RefreshingYields(s256, Apply(s256, s, a), key, pid);
    YieldsBefore(s256, s, a, key);
  }

  // ------------------------------------------------------------------- codes

  predicate Exchanging(key: GrantKey, p: Proc) {
    (p.CodeLoaded? || p.CodeConsumed? || p.GrantRead?) && p.presenter == p.data.client && Wants(key, CodeRequest(p.data))
  }

  lemma GrantReadYields(s256: string -> string, s: State, key: GrantKey, pid: Id)
    requires pid in s.procs && s.procs[pid].GrantRead? && Exchanging(key, s.procs[pid])
    ensures CanYield(s256, s, key)
  {
    var a := StoreGrant(pid);
    assert Apply(s256, s, a) == ApplyStoreGrant(s, a);
    MintingYields(s256, Apply(s256, s, a), key, pid);
    YieldsBefore(s256, s, a, key);
  }

  lemma CodeConsumedYields(s256: string -> string, s: State, key: GrantKey, pid: Id)
    requires pid in s.procs && s.procs[pid].CodeConsumed? && Exchanging(key, s.procs[pid])
    ensures CanYield(s256, s, key)
  {
    var a := ReadGrant(pid);
    assert Apply(s256, s, a) == ApplyReadGrant(s, a);
    GrantReadYields(s256, Apply(s256, s, a), key, pid);
    YieldsBefore(s256, s, a, key);
  }

  lemma CodeLoadedYields(s256: string -> string, s: State, key: GrantKey, pid: Id)
    requires pid in s.procs && s.procs[pid].CodeLoaded? && Exchanging(key, s.procs[pid]) && CodeUnused(s, s.procs[pid].data.id)
    ensures CanYield(s256, s, key)
  {
    var a := UseCode(pid);
    assert Apply(s256, s, a) == ApplyUseCode(s, a);
    CodeConsumedYields(s256, Apply(s256, s, a), key, pid);
    YieldsBefore(s256, s, a, key);
  }

  lemma LoadableCodeYields(s256: string -> string, s: State, key: GrantKey, id: Id)
    requires CodeOpen(s256, s, key, id) && s.codes[id].data.id == id
    requires s.codes[id].data.client in s.clients && (s.codes[id].data.user, s.codes[id].data.org) in s.members
    ensures CanYield(s256, s, key)
  {
    var data := s.codes[id].data;
    var verifier :| s256(verifier) == data.challenge;
    var pid := SomeFreshId(s.procs.Keys);
    var a := LoadCode(pid, id, data.client, verifier, None);
    assert Apply(s256, s, a) == ApplyLoadCode(s256, s, a) == Goto(s, pid, CodeLoaded(data, data.client, verifier));
    CodeLoadedYields(s256, Apply(s256, s, a), key, pid);
    YieldsBefore(s256, s, a, key);
  }

  // The application and the membership may have to be put back first.
  lemma CodeYields(s256: string -> string, s: State, key: GrantKey, id: Id)
    requires CodeOpen(s256, s, key, id) && s.codes[id].data.id == id
    ensures CanYield(s256, s, key)
  {
    var data := s.codes[id].data;
    var client := SetClient(data.client, Client(Some(data.org), true, {}));
    var member := SetMember(data.user, data.org, true);
    var s1 := Apply(s256, s, client);
    assert s1 == ApplyTableAction(s, client);
    var s2 := Apply(s256, s1, member);
    assert s2 == ApplyTableAction(s1, member);
    assert CodeOpen(s256, s2, key, id);
    LoadableCodeYields(s256, s2, key, id);
    YieldsBefore(s256, s1, member, key);
    YieldsBefore(s256, s, client, key);
  }

  lemma AuthorizingYields(s256: string -> string, s: State, key: GrantKey, pid: Id)
    requires pid in s.procs && s.procs[pid].Authorizing? && ProcOpen(s256, s, key, s.procs[pid])
    ensures CanYield(s256, s, key)
  {
    var a := IssueCode(pid);
    var data := s.procs[pid].data;
    assert Apply(s256, s, a) == ApplyIssueCode(s, a);
    assert CodeOpen(s256, Apply(s256, s, a), key, data.id);
    CodeYields(s256, Apply(s256, s, a), key, data.id);
    YieldsBefore(s256, s, a, key);
  }

  // ----------------------------------------------------------------- devices

  lemma DeviceConsumedYields(s256: string -> string, s: State, key: GrantKey, pid: Id)
    requires pid in s.procs && s.procs[pid].DeviceConsumed? && ApprovalWants(key, s.procs[pid].row)
    ensures CanYield(s256, s, key)
  {
    var row := s.procs[pid].row;
    var member := SetMember(row.user.value, row.data.org, true);
    var s1 := Apply(s256, s, member);
    assert s1 == ApplyTableAction(s, member);
    var a := CheckApproval(pid);
    assert Apply(s256, s1, a) == ApplyCheckApproval(s1, a);
    MintingYields(s256, Apply(s256, s1, a), key, pid);
    YieldsBefore(s256, s1, a, key);
    YieldsBefore(s256, s, member, key);
  }

  lemma DeviceLoadedYields(s256: string -> string, s: State, key: GrantKey, pid: Id)
    requires pid in s.procs && s.procs[pid].DeviceLoaded? && ApprovalWants(key, s.procs[pid].row)
    requires StillApproved(s, s.procs[pid].row.data.id)
    ensures CanYield(s256, s, key)
  {
    var a := UseApproval(pid);
    assert Apply(s256, s, a) == ApplyUseApproval(s, a);
    DeviceConsumedYields(s256, Apply(s256, s, a), key, pid);
    YieldsBefore(s256, s, a, key);
  }

  lemma DeviceYields(s256: string -> string, s: State, key: GrantKey, id: Id)
    requires DeviceOpen(s, key, id) && s.devices[id].data.id == id
    ensures CanYield(s256, s, key)
  {
    var row := s.devices[id];
    var client := SetClient(row.data.client, Client(Some(row.data.org), true, {}));
    var s1 := Apply(s256, s, client);
    assert s1 == ApplyTableAction(s, client);
    var pid := SomeFreshId(s.procs.Keys);
    var a := PollDevice(pid, id, row.data.client);
    assert Apply(s256, s1, a) == ApplyPollDevice(s1, a) == Goto(s1, pid, DeviceLoaded(row, row.data.client));
    DeviceLoadedYields(s256, Apply(s256, s1, a), key, pid);
    YieldsBefore(s256, s1, a, key);
    YieldsBefore(s256, s, client, key);
  }

  // ------------------------------------------------------------ both directions

  lemma OpenProcYields(s256: string -> string, s: State, key: GrantKey, pid: Id)
    requires ProcsOk(s256, s) && pid in s.procs && ProcOpen(s256, s, key, s.procs[pid])
    ensures CanYield(s256, s, key)
  {
    assert ProcOk(s256, s, s.procs[pid]);
    match s.procs[pid]
    case Authorizing(_) => AuthorizingYields(s256, s, key, pid);
    case CodeLoaded(_, _, _) => CodeLoadedYields(s256, s, key, pid);
    case CodeConsumed(_, _, _) => CodeConsumedYields(s256, s, key, pid);
    case GrantRead(_, _, _, _) => GrantReadYields(s256, s, key, pid);
    case DeviceLoaded(_, _) => DeviceLoadedYields(s256, s, key, pid);
    case DeviceConsumed(_, _) => DeviceConsumedYields(s256, s, key, pid);
    case Minting(_, _, _) => MintingYields(s256, s, key, pid);
    case Refreshing(_, _) => RefreshingYields(s256, s, key, pid);
  }

  lemma OutstandingYields(s256: string -> string, s: State, key: GrantKey)
    requires DataInv(s256, s) && !Quiet(s256, s, key)
    ensures CanYield(s256, s, key)
  {
    if id :| LiveFor(s, key, id) {
      YieldsNow(s256, s, key, id);
    } else if id :| CodeOpen(s256, s, key, id) {
      assert CodeOk(s, id);
      CodeYields(s256, s, key, id);
    } else if id :| DeviceOpen(s, key, id) {
      assert DeviceOk(s, id);
      DeviceYields(s256, s, key, id);
    } else {
      var pid :| pid in s.procs && ProcOpen(s256, s, key, s.procs[pid]);
      OpenProcYields(s256, s, key, pid);
    }
  }

  // In every reachable state: as long as the user authorizes nothing anew, no
  // token of the grant is ever live, if and only if none is live now and
  // nothing is under way.
  lemma NoneComesExactlyWhenQuiet(s256: string -> string, s: State, key: GrantKey)
    requires Reachable(s256, s)
    ensures (forall later :: NothingAnew(s256, s, later, key) ==> NoLiveToken(Exec(s256, s, later), key))
            <==> Quiet(s256, s, key)
  {
    if Quiet(s256, s, key) {
      forall later | NothingAnew(s256, s, later, key)
        ensures NoLiveToken(Exec(s256, s, later), key)
      {
        RunKeepsQuiet(s256, s, later, key);
      }
    } else {
      ReachableData(s256, s);
      OutstandingYields(s256, s, key);
      var later :| AllRoutine(later) && !NoLiveToken(Exec(s256, s, later), key);
      assert NothingAnew(s256, s, later, key);
    }
  }

  // --------------------------------------------------------- the two revocations

  // The user neither consents to the application nor approves a device again,
  // and neither of the two is deleted.
  predicate LeavesAlone(a: Action, key: GrantKey) {
    && !(a.Consent? && a.user == key.user && a.client == key.client)
    && !(a.DecideDevice? && a.approve && a.user == key.user)
    && !DeletesGrant(a, key)
  }

  ghost predicate AllLeaveAlone(later: seq<Action>, key: GrantKey) {
    forall i :: 0 <= i < |later| ==> LeavesAlone(later[i], key)
  }

  // On a revoked grant the user's other doings authorize nothing.
  lemma RevokedStaysRevoked(s256: string -> string, s: State, later: seq<Action>, key: GrantKey)
    requires key in s.grants && s.grants[key].revoked && AllLeaveAlone(later, key)
    ensures NothingAnew(s256, s, later, key)
  {
    forall i | 0 <= i < |later|
      ensures !Anew(Exec(s256, s, later[..i]), later[i], key)
    {
      RevokedGrantIsNeverReused(s256, s, later[..i], key);
    }
  }

  lemma RevokingLeavesNoLiveToken(s: State, a: Action, key: GrantKey)
    requires a.RevokeGrant? && key == GrantKey(a.client, a.user, a.org) && key in s.grants
    ensures NoLiveToken(ApplyRevokeGrant(s, a), key)
    ensures key in ApplyRevokeGrant(s, a).grants && ApplyRevokeGrant(s, a).grants[key].revoked
  {
  }

  // What is under way is not touched by a revocation.
  lemma SameUnderWay(s256: string -> string, s: State, t: State, key: GrantKey)
    requires t.codes == s.codes && t.devices == s.devices && t.procs == s.procs && Now(t) == Now(s)
    ensures NothingUnderWay(s256, t, key) <==> NothingUnderWay(s256, s, key)
  {
    forall id ensures CodeOpen(s256, t, key, id) <==> CodeOpen(s256, s, key, id) { }
    forall id ensures DeviceOpen(t, key, id) <==> DeviceOpen(s, key, id) { }
    forall pid | pid in s.procs ensures ProcOpen(s256, t, key, t.procs[pid]) <==> ProcOpen(s256, s, key, s.procs[pid]) { }
    if NothingUnderWay(s256, s, key) {
      forall id ensures !CodeOpen(s256, t, key, id) { assert !CodeOpen(s256, s, key, id); }
      forall id ensures !DeviceOpen(t, key, id) { assert !DeviceOpen(s, key, id); }
      forall pid | pid in t.procs ensures !ProcOpen(s256, t, key, t.procs[pid]) { assert !ProcOpen(s256, s, key, s.procs[pid]); }
    }
    if NothingUnderWay(s256, t, key) {
      forall id ensures !CodeOpen(s256, s, key, id) { assert !CodeOpen(s256, t, key, id); }
      forall id ensures !DeviceOpen(s, key, id) { assert !DeviceOpen(t, key, id); }
      forall pid | pid in s.procs ensures !ProcOpen(s256, s, key, s.procs[pid]) { assert !ProcOpen(s256, t, key, t.procs[pid]); }
    }
  }

  // A user revokes an application's grant. No token of the grant is ever live
  // again, unless the user authorizes it anew, if and only if nothing was under
  // way. Short of deletions only a consent or a device approval is anew.
  lemma GrantRevocationIsFinalExactly(s256: string -> string, s: State, a: Action, key: GrantKey)
    requires Reachable(s256, s) && a.RevokeGrant? && key == GrantKey(a.client, a.user, a.org) && key in s.grants
    ensures (forall later :: NothingAnew(s256, Apply(s256, s, a), later, key) ==> NoLiveToken(Exec(s256, Apply(s256, s, a), later), key))
            <==> NothingUnderWay(s256, s, key)
    ensures (forall later :: AllLeaveAlone(later, key) ==> NoLiveToken(Exec(s256, Apply(s256, s, a), later), key))
            <==> NothingUnderWay(s256, s, key)
  {
    var t := Apply(s256, s, a);
    assert t == ApplyRevokeGrant(s, a);
    ReachableStep(s256, s, a);
    RevokingLeavesNoLiveToken(s, a, key);
    SameUnderWay(s256, s, t, key);
    NoneComesExactlyWhenQuiet(s256, t, key);
    if NothingUnderWay(s256, s, key) {
      forall later | AllLeaveAlone(later, key)
        ensures NoLiveToken(Exec(s256, t, later), key)
      {
        RevokedStaysRevoked(s256, t, later, key);
        RunKeepsQuiet(s256, t, later, key);
      }
    } else {
      ReachableData(s256, t);
      OutstandingYields(s256, t, key);
      var later :| AllRoutine(later) && !NoLiveToken(Exec(s256, t, later), key);
      assert AllLeaveAlone(later, key);
    }
  }

  lemma UserRevocationLeavesNoLiveToken(s: State, user: Id, within: Option<Id>, key: GrantKey)
    requires key.user == user && (within.None? || within == Some(key.org))
    ensures NoLiveToken(ApplyOnRefresh(s, OnRefresh(RT.RevokeUser(user, within))), key)
  {
  }

  // A user's tokens are revoked, as by a password reset. The same, as long as
  // the user authorizes nothing anew, silently or not.
  lemma UserRevocationIsFinalExactly(s256: string -> string, s: State, user: Id, within: Option<Id>, key: GrantKey)
    requires Reachable(s256, s) && key.user == user && (within.None? || within == Some(key.org))
    ensures var t := Apply(s256, s, OnRefresh(RT.RevokeUser(user, within)));
            (forall later :: NothingAnew(s256, t, later, key) ==> NoLiveToken(Exec(s256, t, later), key))
            <==> NothingUnderWay(s256, s, key)
  {
    var a := OnRefresh(RT.RevokeUser(user, within));
    var t := Apply(s256, s, a);
    assert t == ApplyOnRefresh(s, a);
    ReachableStep(s256, s, a);
    UserRevocationLeavesNoLiveToken(s, user, within, key);
    SameUnderWay(s256, s, t, key);
    NoneComesExactlyWhenQuiet(s256, t, key);
  }

  // ------------------------------------------------------------- a run

  ghost predicate Outlived(s256: string -> string, s: State, a: Action, later: seq<Action>, key: GrantKey) {
    && Reachable(s256, s) && a.RevokeGrant? && key == GrantKey(a.client, a.user, a.org) && key in s.grants
    && AllLeaveAlone(later, key) && !NoLiveToken(Exec(s256, Apply(s256, s, a), later), key)
  }

  // A code that asks for a refresh token, issued beside a stored grant.
  lemma GrantAndOpenCode(s256: string -> string)
    ensures exists s :: Reachable(s256, s) && ConcurrentExchanges.KEY in s.grants && !NothingUnderWay(s256, s, ConcurrentExchanges.KEY)
  {
    var granted := ConcurrentExchanges.FirstGrant(s256);
    var s := ConcurrentExchanges.ApprovedCode(s256, granted, 11, ["openid", "offline_access"]);
    assert s256("verifier") == s.codes[11].data.challenge;
    assert ["openid", "offline_access"][1] == "offline_access";
    assert CodeOpen(s256, s, ConcurrentExchanges.KEY, 11);
    assert !NothingUnderWay(s256, s, ConcurrentExchanges.KEY);
  }

  // The code is exchanged after the grant is revoked.
  lemma SomeTokenOutlivesRevocation(s256: string -> string)
    ensures exists s, a, later, key :: Outlived(s256, s, a, later, key)
  {
    var key := ConcurrentExchanges.KEY;
    GrantAndOpenCode(s256);
    var s :| Reachable(s256, s) && key in s.grants && !NothingUnderWay(s256, s, key);
    var a := RevokeGrant(1, ConcurrentExchanges.APP, 1);
    GrantRevocationIsFinalExactly(s256, s, a, key);
    var later :| AllLeaveAlone(later, key) && !NoLiveToken(Exec(s256, Apply(s256, s, a), later), key);
    assert Outlived(s256, s, a, later, key);
  }

  ghost predicate OutlivedUser(s256: string -> string, s: State, user: Id, later: seq<Action>, key: GrantKey) {
    var t := Apply(s256, s, OnRefresh(RT.RevokeUser(user, None)));
    Reachable(s256, s) && key.user == user && NothingAnew(s256, t, later, key) && !NoLiveToken(Exec(s256, t, later), key)
  }

  // The code is exchanged after all of the user's tokens are revoked.
  lemma SomeTokenOutlivesUserRevocation(s256: string -> string)
    ensures exists s, user, later, key :: OutlivedUser(s256, s, user, later, key)
  {
    var key := ConcurrentExchanges.KEY;
    GrantAndOpenCode(s256);
    var s :| Reachable(s256, s) && key in s.grants && !NothingUnderWay(s256, s, key);
    UserRevocationIsFinalExactly(s256, s, 1, None, key);
    var t := Apply(s256, s, OnRefresh(RT.RevokeUser(1, None)));
    var later :| NothingAnew(s256, t, later, key) && !NoLiveToken(Exec(s256, t, later), key);
    assert OutlivedUser(s256, s, 1, later, key);
  }
}

// The refresh-token theorems carried over to runs of the whole system: consent,
// exchanges, device grants and rotations interleaved.

module FamiliesInRuns {
  import opened Common
  import opened OAuthRuns
  import Provenance
  import RT = RefreshTokens

  // What a step of the system means for the refresh tokens: a step of theirs, or nothing.
  ghost predicate RefreshMoves(before: RT.State, after: RT.State) {
    after == before || exists a :: after == RT.Apply(before, a)
  }

  lemma StepsMoveRefresh(s256: string -> string, s: State, a: Action)
    ensures RefreshMoves(s.refresh, Apply(s256, s, a).refresh)
  {
    if IsCodeAction(a) {
      assert ApplyCodeAction(s256, s, a).refresh == s.refresh;
    } else if IsDeviceAction(a) {
      assert ApplyDeviceAction(s, a).refresh == s.refresh;
    }
  }

  // Every run of the system is, for the refresh tokens, a run of their own.
  lemma {:induction false} RunsMoveRefresh(s256: string -> string, s: State, actions: seq<Action>) returns (moves: seq<RT.Action>)
    ensures Exec(s256, s, actions).refresh == RT.Exec(s.refresh, moves)
    decreases |actions|
  {
    if actions == [] {
      return [];
    }
    var front := actions[..|actions| - 1];
    moves := RunsMoveRefresh(s256, s, front);
    var before := Exec(s256, s, front);
    StepsMoveRefresh(s256, before, actions[|actions| - 1]);
    var after := Exec(s256, s, actions).refresh;
    if after != before.refresh {
      var a :| after == RT.Apply(before.refresh, a);
      assert (moves + [a])[..|moves|] == moves;
      moves := moves + [a];
    }
  }

  lemma RefreshIsReachable(s256: string -> string, s: State)
    requires Reachable(s256, s)
    ensures RT.Reachable(s.refresh)
  {
    var actions :| s == Exec(s256, Init, actions);
    var moves := RunsMoveRefresh(s256, Init, actions);
    assert s.refresh == RT.Exec(RT.Init, moves);
  }

  // A handler that read a refresh token earlier gets a successor out of it
  // exactly when nobody rotated or revoked the token before; its family is one
  // chain, and the handler serves the client that the token was issued to.
  lemma InFlightRotationDecidedByHistory(s256: string -> string, s: State, pid: Id, newId: Id, exp: Time)
    requires Reachable(s256, s) && pid in s.procs && s.procs[pid].RefreshLoaded?
    ensures var stale := s.procs[pid].stale;
            var outcome := RT.Rotate(s.refresh.table, stale, newId, Now(s), exp).1;
            && (outcome.Rotated? <==> !RT.WasDropped(s.refresh.log, stale) && !RT.WasRotated(s.refresh.log, stale.id)
                                      && !RT.WasRevoked(s.refresh.log, stale))
            && (outcome.ReuseDetected? <==> !RT.WasDropped(s.refresh.log, stale) && RT.WasRotated(s.refresh.log, stale.id))
            && (stale.id in s.refresh.table ==> RT.Linear(s.refresh.table, s.refresh.table[stale.id].family))
            && s.procs[pid].presenter == stale.client
  {
    RefreshIsReachable(s256, s);
    Provenance.ReachableData(s256, s);
    var stale := s.procs[pid].stale;
    assert Provenance.ProcOk(s256, s, s.procs[pid]);
    RT.OutcomeDecidedByHistory(s.refresh, stale, newId, exp);
    if stale.id in s.refresh.table {
      RT.FamiliesAreLinear(s.refresh, stale.id);
    }
  }

  // A dead family stays dead in every continuation, whatever handlers are in flight.
  lemma DeathLasts(s256: string -> string, s: State, later: seq<Action>, family: Id)
    requires Reachable(s256, s) && family in s.refresh.used && RT.Dead(s.refresh.table, family)
    ensures RT.Dead(Exec(s256, s, later).refresh.table, family)
  {
    RefreshIsReachable(s256, s);
    RT.ReachableInv(s.refresh);
    var moves := RunsMoveRefresh(s256, s, later);
    RT.ExecKeepsDead(s.refresh, moves, family);
  }

  lemma RevokingGrantKills(s: State, a: Action, id: Id)
    requires RT.Inv(s.refresh) && a.RevokeGrant? && GrantKey(a.client, a.user, a.org) in s.grants
    requires id in s.refresh.table && RT.OfGrant(a.client, a.user, a.org)(s.refresh.table[id])
    ensures var t, family := ApplyRevokeGrant(s, a).refresh, s.refresh.table[id].family;
            var killed := RT.Dead(t.table, family) && family in t.used;
            killed
  {
    var family := s.refresh.table[id].family;
    var after := ApplyRevokeGrant(s, a).refresh.table;
    assert RT.RowKnown(s.refresh, id) && RT.ChainKnown(s.refresh, id);
    forall other | other in after && after[other].family == family ensures !RT.Live(after[other]) {
      assert RT.ChainKnown(s.refresh, other);
      RT.ChainConsequences(s.refresh.table, family, id, other);
    }
  }

  // When a user revokes an application's grant, every refresh-token family that
  // the grant has then is dead from then on, even for rotations already under way.
  lemma RevokedGrantEndsItsTokens(s256: string -> string, s: State, a: Action, later: seq<Action>, id: Id)
    requires Reachable(s256, s) && a.RevokeGrant? && GrantKey(a.client, a.user, a.org) in s.grants
    requires id in s.refresh.table && RT.OfGrant(a.client, a.user, a.org)(s.refresh.table[id])
    ensures RT.Dead(Exec(s256, Apply(s256, s, a), later).refresh.table, s.refresh.table[id].family)
  {
    RefreshIsReachable(s256, s);
    RT.ReachableInv(s.refresh);
    RevokingGrantKills(s, a, id);
    ReachableStep(s256, s, a);
    assert Apply(s256, s, a) == ApplyRevokeGrant(s, a);
    DeathLasts(s256, Apply(s256, s, a), later, s.refresh.table[id].family);
  }

  lemma RevokingUserKills(s: RT.State, user: Id, within: Option<Id>, id: Id)
    requires RT.Inv(s) && id in s.table && RT.OfUser(user, within)(s.table[id])
    ensures var t, family := RT.Apply(s, RT.RevokeUser(user, within)), s.table[id].family;
            var killed := RT.Dead(t.table, family) && family in t.used;
            killed
  {
    var family := s.table[id].family;
    var after := RT.Apply(s, RT.RevokeUser(user, within)).table;
    assert RT.RowKnown(s, id) && RT.ChainKnown(s, id);
    forall other | other in after && after[other].family == family ensures !RT.Live(after[other]) {
      assert RT.ChainKnown(s, other);
      RT.ChainConsequences(s.table, family, id, other);
    }
  }

  // Resetting or changing a password, deleting the account, and losing a
  // membership all revoke the user's tokens: the families there are then are dead from then on.
  lemma RevokedUserLosesFamilies(s256: string -> string, s: State, user: Id, within: Option<Id>, later: seq<Action>, id: Id)
    requires Reachable(s256, s) && id in s.refresh.table && RT.OfUser(user, within)(s.refresh.table[id])
    ensures var t := Apply(s256, s, OnRefresh(RT.RevokeUser(user, within)));
            RT.Dead(Exec(s256, t, later).refresh.table, s.refresh.table[id].family)
  {
    var a := OnRefresh(RT.RevokeUser(user, within));
    RefreshIsReachable(s256, s);
    RT.ReachableInv(s.refresh);
    RevokingUserKills(s.refresh, user, within, id);
    ReachableStep(s256, s, a);
    assert Apply(s256, s, a) == ApplyOnRefresh(s, a);
    DeathLasts(s256, Apply(s256, s, a), later, s.refresh.table[id].family);
  }

  // No handler gets tokens out of a dead family: a rotation only detects reuse or fails.
  lemma DeadFamilyMintsNothing(s256: string -> string, s: State, a: Action)
    requires Reachable(s256, s) && a.RotateRefresh? && a.pid in s.procs && s.procs[a.pid].RefreshLoaded?
    requires RT.Dead(s.refresh.table, s.procs[a.pid].stale.family)
    ensures a.token !in s.refresh.used ==> a.pid !in Apply(s256, s, a).procs
  {
    Provenance.ReachableData(s256, s);
    RefreshIsReachable(s256, s);
    RT.ReachableInv(s.refresh);
    var stale := s.procs[a.pid].stale;
    assert Provenance.ProcOk(s256, s, s.procs[a.pid]);
    assert RT.HeldKnown(s.refresh, stale);
    assert Apply(s256, s, a) == ApplyRotateRefresh(s, a);
  }
}

// Who can do what: how the handlers change the permissions of members.

module OrgPermissions {
  import opened Common
  import opened Orgs
  import opened Ownership

  // Whoever gains a permission in a step was given it: as founder, by accepting
  // an invitation, by the owner, or by a member with the right to give it.
  ghost predicate Granted(s: State, a: Action, org: Id, user: Id) {
    || (a.Creation? && a.org == org && a.caller == user)
    || (a.Acceptance? && a.caller == user && a.invitation in s.invitations && s.invitations[a.invitation].org == org)
    || (a.Transfer? && a.org == org && IsOwnerOf(s, org, a.caller) && a.target == user && IsActiveMember(s, (org, user)))
    || (a.Assignment? && a.org == org && a.target == user && HasPermission(s, (org, a.caller), MEMBERS_MANAGE))
    || (a.StatusChange? && a.status == Active && a.org == org && a.target == user && HasPermission(s, (org, a.caller), MEMBERS_SUSPEND))
    || (a.RoleUpdate? && a.org == org && (org, user) in s.members && s.members[(org, user)].role == Some(a.role)
        && HasPermission(s, (org, a.caller), ROLES_MANAGE))
  }

  ghost predicate Gains(s: State, t: State, org: Id, user: Id, permission: Permission) {
    !Authorize(s, (org, user), permission) && Authorize(t, (org, user), permission)
  }

  // A permission needs a membership with a role that is or was there.
  lemma OnlyOwnSeatMatters(s: State, t: State, org: Id, user: Id, permission: Permission)
    requires org in s.orgs && t.roles == s.roles && Gains(s, t, org, user, permission)
    ensures (org, user) in t.members && ((org, user) in s.members ==> t.members[(org, user)] != s.members[(org, user)])
  {
  }

  lemma MemberStepGrants(s: State, a: Action, org: Id, user: Id, permission: Permission)
    requires Reachable(s) && IsMemberAction(a) && org in s.orgs && Gains(s, MemberStep(s, a).0, org, user, permission)
    ensures Granted(s, a, org, user)
  {
    if a.Transfer? {
      TransferGrants(s, a, org, user, permission);
    } else {
      SeatChangeGrants(s, a, org, user);
      OnlyOwnSeatMatters(s, MemberStep(s, a).0, org, user, permission);
    }
  }

  lemma SeatChangeGrants(s: State, a: Action, org: Id, user: Id)
    requires IsMemberAction(a) && !a.Transfer? && IsActiveMember(MemberStep(s, a).0, (org, user))
    ensures MemberStep(s, a).0.roles == s.roles
    ensures Granted(s, a, org, user)
            || ((org, user) in s.members && MemberStep(s, a).0.members[(org, user)] == s.members[(org, user)])
  {
  }

  lemma TransferGrants(s: State, a: Action, org: Id, user: Id, permission: Permission)
    requires Reachable(s) && a.Transfer? && org in s.orgs && Gains(s, MemberStep(s, a).0, org, user, permission)
    ensures Granted(s, a, org, user)
  {
    TransferOutcome(s, a.caller, a.org, a.target, a.reauth);
    OwnerMayDoEverything(s, org, permission);
    var t := MemberStep(s, a).0;
    OnlyOwnSeatMatters(s, t, org, user, permission);
  }

  lemma SameRoleSamePermissions(s: State, t: State, seat: Seat, permission: Permission)
    requires t.orgs == s.orgs && t.members == s.members && RoleOf(t, seat) == RoleOf(s, seat)
    ensures Authorize(t, seat, permission) <==> Authorize(s, seat, permission)
  {
  }

  // A role that somebody holds is neither deleted nor replaced.
  lemma HeldRoleStays(s: State, a: Action, seat: Seat, role: Id)
    requires IsRoleAction(a) && IdsAreFresh(s, a) && !(a.RoleUpdate? && a.role == role)
    requires seat in s.members && s.members[seat].role == Some(role) && role in s.roles
    ensures role in RoleStep(s, a).0.roles && RoleStep(s, a).0.roles[role] == s.roles[role]
  {
  }

  // Creating or deleting a role changes nobody's permissions, and editing one
  // only those of its holders.
  lemma RoleStepsAreContained(s: State, a: Action, org: Id, user: Id, permission: Permission)
    requires Reachable(s) && IsRoleAction(a) && IdsAreFresh(s, a)
    requires a.RoleUpdate? && (org, user) in s.members ==> s.members[(org, user)].role != Some(a.role)
    ensures Authorize(RoleStep(s, a).0, (org, user), permission) <==> Authorize(s, (org, user), permission)
  {
    RoleStepsKeepOwners(s, a);
    var seat := (org, user);
    if seat in s.members {
      assert s.members[seat].role.Some? && s.members[seat].role.value in s.roles by {
        ReachableInv(s);
        assert SeatOk(s, seat);
      }
      HeldRoleStays(s, a, seat, s.members[seat].role.value);
      SameRoleSamePermissions(s, RoleStep(s, a).0, seat, permission);
    }
  }

  lemma RoleUpdateGrants(s: State, a: Action, org: Id, user: Id, permission: Permission)
    requires Reachable(s) && a.RoleUpdate? && (org, user) in s.members && s.members[(org, user)].role == Some(a.role)
    requires Gains(s, RoleStep(s, a).0, org, user, permission)
    ensures Granted(s, a, org, user)
  {
    assert RoleStep(s, a).0 != s;
    assert Authorize(s, (a.org, a.caller), ROLES_MANAGE) && a.role in s.roles && s.roles[a.role].org == Some(a.org);
    ReachableInv(s);
    assert SeatOk(s, (org, user)) && SeatOk(s, (a.org, a.caller));
  }

  lemma RoleStepGrants(s: State, a: Action, org: Id, user: Id, permission: Permission)
    requires Reachable(s) && IsRoleAction(a) && IdsAreFresh(s, a) && org in s.orgs
    requires Gains(s, RoleStep(s, a).0, org, user, permission)
    ensures Granted(s, a, org, user)
  {
    if a.RoleUpdate? && (org, user) in s.members && s.members[(org, user)].role == Some(a.role) {
      RoleUpdateGrants(s, a, org, user, permission);
    } else {
      RoleStepsAreContained(s, a, org, user, permission);
    }
  }

  lemma JoinStepGrants(s: State, a: Action, org: Id, user: Id, permission: Permission)
    requires Reachable(s) && !IsMemberAction(a) && !IsRoleAction(a) && IdsAreFresh(s, a)
    requires Gains(s, JoinStep(s, a).0, org, user, permission)
    ensures Granted(s, a, org, user)
  {
    ReachableInv(s);
    assert SeatOk(s, (org, user));
    if a.Creation? {
      CreationGrants(s, a, org, user, permission);
    }
  }

  lemma CreationGrants(s: State, a: Action, org: Id, user: Id, permission: Permission)
    requires Inv(s) && a.Creation? && IdsAreFresh(s, a) && Gains(s, JoinStep(s, a).0, org, user, permission)
    ensures Granted(s, a, org, user)
  {
    NewOrgIsSeeded(s, a.org, a.ids);
    SeededRows(s.roles, a.org, a.ids);
    assert SeatOk(s, (org, user));
  }

  lemma MembersAreOfOrgs(s: State, a: Action, org: Id, user: Id, permission: Permission)
    requires IsMemberAction(a) || IsRoleAction(a)
    requires IdsAreFresh(s, a) && org !in s.orgs
    ensures IsMemberAction(a) ==> !Authorize(MemberStep(s, a).0, (org, user), permission)
    ensures IsRoleAction(a) ==> !Authorize(RoleStep(s, a).0, (org, user), permission)
  {
    if IsRoleAction(a) {
      RoleStepsKeepOwners(s, a);
    }
  }

  lemma PermissionsAreGranted(s: State, a: Action, org: Id, user: Id, permission: Permission)
    requires Reachable(s) && Gains(s, Perform(s, a).0, org, user, permission)
    ensures Granted(s, a, org, user)
  {
    if CallerExists(s, a) && IdsAreFresh(s, a) {
      if !IsMemberAction(a) && !IsRoleAction(a) {
        JoinStepGrants(s, a, org, user, permission);
      } else if org !in s.orgs {
        MembersAreOfOrgs(s, a, org, user, permission);
        assert false;
      } else if IsMemberAction(a) {
        MemberStepGrants(s, a, org, user, permission);
      } else {
        RoleStepGrants(s, a, org, user, permission);
      }
    }
  }

  // Lifting a suspension gives the member back exactly what it had.
  lemma RestoringUndoesSuspension(s: State, caller: Id, org: Id, target: Id)
    requires UpdateMemberStatus(s, caller, org, target, Suspended, true).1.Done?
    ensures var t := UpdateMemberStatus(s, caller, org, target, Suspended, true).0;
            && !IsActiveMember(t, (org, target))
            && (forall permission :: !Authorize(t, (org, target), permission))
            && UpdateMemberStatus(t, caller, org, target, Active, true) ==
                 (s.(revocations := s.revocations + [Revocation(target, Some(org))]), Done)
  {
    var (t, _) := UpdateMemberStatus(s, caller, org, target, Suspended, true);
    assert Authorize(t, (org, caller), MEMBERS_SUSPEND);
    assert UpdateMemberStatus(t, caller, org, target, Active, true).0.members == s.members;
  }

  // An invitation just made is accepted, while it lasts, by exactly the user
  // with its address, who then holds the role it offers.
  lemma InvitationIsForItsAddress(s: State, caller: Id, org: Id, invitation: Id, email: Option<Email>, role: Id, ttl: nat, user: Id)
    requires Reachable(s) && user in s.users && CreateInvitation(s, caller, org, invitation, email, role, ttl).1.Done?
    ensures var t := CreateInvitation(s, caller, org, invitation, email, role, ttl).0;
            && (AcceptInvitation(t, user, invitation).1.Done? <==> email == Some(s.users[user]))
            && (AcceptInvitation(t, user, invitation).1.Done? ==>
                  && AcceptInvitation(t, user, invitation).0.members == s.members[(org, user) := Member(Some(role), Active)]
                  && Assignable(s, org, role) && (org, user) !in s.members)
  {
    ReachableInv(s);
    assert SeatOk(s, (org, caller));
  }

  // ------------------------------------------------------- roles that change

  // What an update gives and takes: active holders have exactly the new
  // permissions, without new ones everybody keeps theirs, and the role is found
  // under its new name.
  lemma UpdatedRoleDecides(s: State, caller: Id, org: Id, role: Id, name: Option<string>, perms: Option<seq<Permission>>,
                           reauth: bool, user: Id, permission: Permission)
    requires Reachable(s) && UpdateRole(s, caller, org, role, name, perms, reauth).1.Done?
    ensures var t := UpdateRole(s, caller, org, role, name, perms, reauth).0;
            && (perms.Some? && IsActiveMember(s, (org, user)) && s.members[(org, user)].role == Some(role) ==>
                  (Authorize(t, (org, user), permission) <==> permission in perms.value))
            && (perms.None? ==> forall o :: Authorize(t, (o, user), permission) <==> Authorize(s, (o, user), permission))
            && (name.Some? ==> FindOrgRole(t.roles, org, Trim(name.value)) == Some(role))
  {
    ReachableInv(s);
    assert SeatOk(s, (org, user));
    if name.Some? {
      RenamedIsFound(s, caller, org, role, name, perms, reauth);
    }
    if perms.None? {
      forall o ensures Authorize(UpdateRole(s, caller, org, role, name, perms, reauth).0, (o, user), permission)
                       <==> Authorize(s, (o, user), permission) {
        SamePermsSameAuthority(s, UpdateRole(s, caller, org, role, name, perms, reauth).0, (o, user), permission);
      }
    }
  }

  lemma RenamedIsFound(s: State, caller: Id, org: Id, role: Id, name: Option<string>, perms: Option<seq<Permission>>, reauth: bool)
    requires Inv(s) && UpdateRole(s, caller, org, role, name, perms, reauth).1.Done? && name.Some?
    ensures FindOrgRole(UpdateRole(s, caller, org, role, name, perms, reauth).0.roles, org, Trim(name.value)) == Some(role)
  {
    var roles := UpdateRole(s, caller, org, role, name, perms, reauth).0.roles;
    RoleUpdateKeeps(s, caller, org, role, name, perms, reauth);
    assert IsOrgRole(roles, org, Trim(name.value), role);
    assert SameName(roles, role, FindOrgRole(roles, org, Trim(name.value)).value);
  }

  lemma SamePermsSameAuthority(s: State, t: State, seat: Seat, permission: Permission)
    requires t.members == s.members && t.orgs == s.orgs && t.roles.Keys == s.roles.Keys
    requires forall r :: r in s.roles ==> t.roles[r].perms == s.roles[r].perms && t.roles[r].owner == s.roles[r].owner
    ensures Authorize(t, seat, permission) <==> Authorize(s, seat, permission)
  {
  }

  // A role that was created and handed to a member grants that member exactly
  // the permissions it was created with.
  lemma CreatedRoleGrants(s: State, caller: Id, org: Id, role: Id, name: string, perms: seq<Permission>,
                          giver: Id, target: Id, permission: Permission)
    requires Reachable(s) && role !in s.roles && CreateRole(s, caller, org, role, name, perms).1.Done?
    requires SetMemberRole(CreateRole(s, caller, org, role, name, perms).0, giver, org, target, role, true).1.Done?
    ensures var t := SetMemberRole(CreateRole(s, caller, org, role, name, perms).0, giver, org, target, role, true).0;
            Authorize(t, (org, target), permission) <==> permission in perms
  {
    ReachableInv(s);
    assert SeatOk(s, (org, target));
    var r := CreateRole(s, caller, org, role, name, perms).0;
    assert r.roles[role].perms == PermSet(perms) && !r.roles[role].owner && r.orgs == s.orgs && r.members == s.members;
    var t := SetMemberRole(r, giver, org, target, role, true).0;
    assert t.roles == r.roles && t.orgs == s.orgs && RoleOf(t, (org, target)) == Some(r.roles[role]);
  }

  // ------------------------------------------------------- invitations

  predicate Spent(s: State, invitation: Id) {
    invitation in s.invitations && (s.invitations[invitation].accepted || s.invitations[invitation].revoked)
  }

  lemma MemberStepsSpareInvitations(s: State, a: Action)
    requires IsMemberAction(a)
    ensures MemberStep(s, a).0.invitations == s.invitations
  {
  }

  lemma RoleStepsSpareInvitations(s: State, a: Action)
    requires IsRoleAction(a)
    ensures RoleStep(s, a).0.invitations == s.invitations
  {
  }

  lemma JoinStepKeepsSpent(s: State, a: Action, invitation: Id)
    requires Spent(s, invitation) && !IsMemberAction(a) && !IsRoleAction(a) && IdsAreFresh(s, a)
    ensures Spent(JoinStep(s, a).0, invitation)
  {
  }

  lemma StepKeepsSpent(s: State, a: Action, invitation: Id)
    requires Spent(s, invitation)
    ensures Spent(Perform(s, a).0, invitation)
  {
    if CallerExists(s, a) && IdsAreFresh(s, a) {
      if IsMemberAction(a) {
        MemberStepsSpareInvitations(s, a);
      } else if IsRoleAction(a) {
        RoleStepsSpareInvitations(s, a);
      } else {
        JoinStepKeepsSpent(s, a, invitation);
      }
    }
  }

  // An invitation that was accepted, or revoked, lets nobody in ever after.
  lemma {:induction false} SpentInvitationIsRefusedForever(s: State, later: seq<Action>, invitation: Id, user: Id)
    requires Spent(s, invitation)
    ensures var t := Exec(s, later);
            var over := Spent(t, invitation) && !AcceptInvitation(t, user, invitation).1.Done?;
            over
    decreases |later|
  {
    if later != [] {
      SpentInvitationIsRefusedForever(s, later[..|later| - 1], invitation, user);
      StepKeepsSpent(Exec(s, later[..|later| - 1]), later[|later| - 1], invitation);
    }
  }

  // Revoking an open invitation, and accepting it, spend it.
  lemma InvitationsAreSpent(s: State, caller: Id, org: Id, invitation: Id)
    ensures RevokeInvitation(s, caller, org, invitation).1.Done? ==>
              !Spent(s, invitation) && Spent(RevokeInvitation(s, caller, org, invitation).0, invitation)
    ensures AcceptInvitation(s, caller, invitation).1.Done? ==>
              !Spent(s, invitation) && Spent(AcceptInvitation(s, caller, invitation).0, invitation)
  {
  }
}

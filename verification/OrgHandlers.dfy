// The organization handlers on the tables themselves, check by check and
// statement by statement, against what each does as one step.

module OrgHandlers {
  import opened Common
  import opened Ownership
  import AccessTokens
  import O = Orgs

  class Directory {
    var now: nat
    var users: map<Id, O.Email>
    var orgs: map<Id, O.Org>
    var roles: map<Id, O.Role>
    var members: map<O.Seat, O.Member>
    var invitations: map<Id, O.Invitation>
    var machines: map<Id, Id>
    var revocations: seq<O.Revocation>

    function View(): O.State
      reads this
    {
      O.State(now, users, orgs, roles, members, invitations, machines, revocations)
    }

    ghost predicate Valid()
      reads this
    {
      Inv(View())
    }

    constructor ()
      ensures Valid() && View() == O.Init
    {
      now, users, orgs, members, invitations, machines, revocations := 0, map[], map[], map[], map[], map[], [];
      roles := O.Init.roles;
    }

    // Inserts the built-in roles one by one, unless the organization has roles already.
    method SeedOrgRoles(org: Id, ids: seq<Id>)
      requires O.FreshIds(roles, ids)
      modifies this`roles
      ensures roles == O.SeedOrgRoles(old(roles), org, ids)
    {
      if exists r :: r in roles && roles[r].org == Some(org) {
        return;
      }
      var built := [(O.OWNER, true, {}), (O.ADMINISTRATOR, false, O.ADMIN_PERMS),
                    (O.MEMBER, false, O.MEMBER_PERMS), (O.VIEWER, false, O.VIEWER_PERMS)];
      BuiltInRows();
      for i := 0 to |built|
        invariant roles == O.Seeded(old(roles), org, ids, i)
      {
        var (name, owner, perms) := built[i];
        roles := roles[ids[i] := O.Role(Some(org), name, true, owner, perms)];
      }
    }

    method FindOrgRole(org: Id, name: string) returns (found: Option<Id>)
      requires NamesUnique(roles)
      ensures found == O.FindOrgRole(roles, org, name)
    {
      if r :| r in roles && O.IsOrgRole(roles, org, name, r) {
        var other := O.FindOrgRole(roles, org, name).value;
        assert SameName(roles, r, other);
        return Some(r);
      }
      return None;
    }

    // The transaction of a new organization: its row, its roles, its owner.
    method StoreOrg(caller: Id, org: Id, slug: string, ids: seq<Id>)
      requires Valid() && caller in users && org !in orgs && O.FreshIds(roles, ids) && !O.SlugTaken(View(), slug)
      modifies this`orgs, this`roles, this`members
      ensures (View(), O.Done) == O.CreateOrg(old(View()), caller, org, Some(slug), ids)
    {
      NewOrgIsSeeded(View(), org, ids);
      SeededNamesUnique(View(), org, ids);
      SeededHasBuiltIns(roles, org, ids, org);
      orgs := orgs[org := O.Org(slug, caller)];
      SeedOrgRoles(org, ids);
      var role := FindOrgRole(org, O.OWNER);
      assert O.HasOrgRole(roles, org, O.BUILT_IN[0]);
      members := members[(org, caller) := O.Member(role, O.Active)];
    }

    method CreateOrg(caller: Id, org: Id, slug: Option<string>, ids: seq<Id>) returns (outcome: O.Outcome)
      requires Valid() && caller in users && org !in orgs && O.FreshIds(roles, ids)
      modifies this`orgs, this`roles, this`members
      ensures Valid() && (View(), outcome) == O.CreateOrg(old(View()), caller, org, slug, ids)
      ensures !outcome.Done? ==> View() == old(View())
    {
      CreationKeeps(View(), caller, org, slug, ids);
      if slug.None? {
        return O.Refused(O.Validation);
      }
      var taken := O.SlugTaken(View(), slug.value);
      if taken {
        return O.Refused(O.Conflict);
      }
      StoreOrg(caller, org, slug.value, ids);
      return O.Done;
    }

    method TransferOwnership(caller: Id, org: Id, target: Id, reauth: bool) returns (outcome: O.Outcome)
      requires Valid()
      modifies this
      ensures Valid() && (View(), outcome) == O.TransferOwnership(old(View()), caller, org, target, reauth)
      ensures !outcome.Done? ==> View() == old(View())
    {
      TransferKeeps(View(), caller, org, target, reauth);
      if !reauth {
        return O.Refused(O.ReauthRequired);
      }
      var principal := O.LoadPrincipal(View(), (org, caller));
      if principal.None? || !principal.value.owner {
        return O.Refused(O.Forbidden);
      }
      if target == caller || (org, target) !in members || members[(org, target)].status != O.Active {
        return O.Refused(O.Validation);
      }
      var ownerRole := FindOrgRole(org, O.OWNER);
      var adminRole := FindOrgRole(org, O.ADMINISTRATOR);
      if ownerRole.None? || adminRole.None? {
        return O.Refused(O.Internal);
      }
      members := members[(org, caller) := members[(org, caller)].(role := adminRole)];
      members := members[(org, target) := members[(org, target)].(role := ownerRole)];
      orgs := orgs[org := orgs[org].(owner := target)];
      return O.Done;
    }

    // What forbids the caller to change another's membership, if anything does:
    // nothing exactly when the caller has the permission, has signed in lately,
    // and the target is somebody else who does not hold the owner role.
    method ValidateTarget(caller: Id, org: Id, target: Id, permission: O.Permission, reauth: bool)
      returns (error: Option<O.ApiError>)
      ensures error == O.TargetError(View(), caller, org, target, permission, reauth)
      ensures Valid() ==>
                (error.None? <==>
                   && O.HasPermission(View(), (org, caller), permission) && reauth && target != caller
                   && !O.HoldsOwnerRole(View(), (org, target)))
    {
      if Valid() {
        assert SeatOk(View(), (org, caller)) && SeatOk(View(), (org, target)) && OwnerOk(View(), org);
      }
      if !O.Authorize(View(), (org, caller), permission) {
        return Some(O.Forbidden);
      }
      if !reauth {
        return Some(O.ReauthRequired);
      }
      if target == caller {
        return Some(O.Validation);
      }
      if org in orgs && orgs[org].owner == target {
        return Some(O.Validation);
      }
      return None;
    }

    method SetMemberRole(caller: Id, org: Id, target: Id, role: Id, reauth: bool) returns (outcome: O.Outcome)
      modifies this
      ensures (View(), outcome) == O.SetMemberRole(old(View()), caller, org, target, role, reauth)
      ensures old(Valid()) ==> Valid()
      ensures !outcome.Done? ==> View() == old(View())
      ensures outcome.Done? ==>
                && O.Assignable(View(), org, role) && (org, target) in old(members)
                && View() == old(View()).(members := members)
                && members == old(members)[(org, target) := O.Member(Some(role), O.Active)]
                && O.IsActiveMember(old(View()), (org, target)) && !O.IsOwnerOf(View(), org, target)
    {
      if Valid() {
        AssignmentKeeps(View(), caller, org, target, role, reauth);
      }
      var error := ValidateTarget(caller, org, target, O.MEMBERS_MANAGE, reauth);
      if error.Some? {
        return O.Refused(error.value);
      }
      if role !in roles {
        return O.Refused(O.Validation);
      }
      if roles[role].org.None? {
        return O.Refused(O.Internal);
      }
      if roles[role].org.value != org || roles[role].owner {
        return O.Refused(O.Validation);
      }
      if (org, target) !in members || members[(org, target)].status != O.Active {
        return O.Refused(O.NotFound);
      }
      members := members[(org, target) := members[(org, target)].(role := Some(role))];
      return O.Done;
    }

    method UpdateMemberStatus(caller: Id, org: Id, target: Id, status: O.Status, reauth: bool) returns (outcome: O.Outcome)
      modifies this
      ensures (View(), outcome) == O.UpdateMemberStatus(old(View()), caller, org, target, status, reauth)
      ensures old(Valid()) ==> Valid()
      ensures !outcome.Done? ==> View() == old(View())
      ensures outcome.Done? ==>
                && (O.IsActiveMember(View(), (org, target)) <==> status == O.Active)
                && View() == old(View()).(members := members, revocations := revocations)
                && (forall k :: k in members && k != (org, target) ==> k in old(members) && members[k] == old(members)[k])
                && !O.IsOwnerOf(View(), org, target)
                && (status == O.Suspended ==> revocations == old(revocations) + [O.Revocation(target, Some(org))])
    {
      if Valid() {
        StatusKeeps(View(), caller, org, target, status, reauth);
      }
      var error := ValidateTarget(caller, org, target, O.MEMBERS_SUSPEND, reauth);
      if error.Some? {
        return O.Refused(error.value);
      }
      if (org, target) !in members || members[(org, target)].status == status {
        return O.Refused(O.NotFound);
      }
      members := members[(org, target) := members[(org, target)].(status := status)];
      if status == O.Suspended {
        revocations := revocations + [O.Revocation(target, Some(org))];
      }
      return O.Done;
    }

    method RemoveMember(caller: Id, org: Id, target: Id, reauth: bool) returns (outcome: O.Outcome)
      modifies this
      ensures (View(), outcome) == O.RemoveMember(old(View()), caller, org, target, reauth)
      ensures old(Valid()) ==> Valid()
      ensures !outcome.Done? ==> View() == old(View())
      ensures outcome.Done? ==>
                && members.Keys == old(members).Keys - {(org, target)} && (forall k :: k in members ==> members[k] == old(members)[k])
                && View() == old(View()).(members := members, revocations := revocations)
                && !O.IsOwnerOf(View(), org, target) && revocations == old(revocations) + [O.Revocation(target, Some(org))]
    {
      if Valid() {
        RemovalKeeps(View(), caller, org, target, reauth);
      }
      if !O.Authorize(View(), (org, caller), O.MEMBERS_REMOVE) {
        return O.Refused(O.Forbidden);
      }
      if target != caller {
        var error := ValidateTarget(caller, org, target, O.MEMBERS_REMOVE, reauth);
        if error.Some? {
          return O.Refused(error.value);
        }
      }
      if org in orgs && orgs[org].owner == target {
        return O.Refused(O.Validation);
      }
      if (org, target) !in members {
        return O.Refused(O.NotFound);
      }
      members := members - {(org, target)};
      revocations := revocations + [O.Revocation(target, Some(org))];
      return O.Done;
    }

    // What forbids an invitation; when nothing does, the address belongs to no
    // member and the role may be handed out.
    method ValidateInvite(caller: Id, org: Id, email: Option<O.Email>, role: Id) returns (error: Option<O.ApiError>)
      ensures error == O.InviteError(View(), caller, org, email, role)
      ensures error.None? ==>
                && email.Some? && role in roles && roles[role].org == Some(org) && !roles[role].owner
                && (forall k :: k in members && k.0 == org && k.1 in users ==> users[k.1] != email.value)
                && O.Authorize(View(), (org, caller), O.MEMBERS_INVITE)
    {
      if !O.Authorize(View(), (org, caller), O.MEMBERS_INVITE) {
        return Some(O.Forbidden);
      }
      if email.None? {
        return Some(O.Validation);
      }
      if role !in roles || roles[role].org != Some(org) || roles[role].owner {
        return Some(O.Validation);
      }
      if exists k :: k in members && k.0 == org && k.1 in users && users[k.1] == email.value {
        return Some(O.Conflict);
      }
      return None;
    }

    // Valid tables stay valid by `InvitationKeeps`.
    method CreateInvitation(caller: Id, org: Id, invitation: Id, email: Option<O.Email>, role: Id, ttl: nat)
      returns (outcome: O.Outcome)
      modifies this`invitations
      ensures (View(), outcome) == O.CreateInvitation(old(View()), caller, org, invitation, email, role, ttl)
      ensures !outcome.Done? ==> View() == old(View())
    {
      var error := ValidateInvite(caller, org, email, role);
      if error.Some? {
        return O.Refused(error.value);
      }
      invitations := invitations[invitation := O.Invitation(org, email.value, Some(role), now + ttl, false, false)];
      return O.Done;
    }

    method RevokeInvitation(caller: Id, org: Id, invitation: Id) returns (outcome: O.Outcome)
      modifies this`invitations
      ensures (View(), outcome) == O.RevokeInvitation(old(View()), caller, org, invitation)
      ensures old(Valid()) ==> Valid()
      ensures !outcome.Done? ==> View() == old(View())
    {
      if Valid() {
        InviteRevocationKeeps(View(), caller, org, invitation);
      }
      if !O.Authorize(View(), (org, caller), O.MEMBERS_MANAGE) {
        return O.Refused(O.Forbidden);
      }
      if invitation !in invitations || invitations[invitation].org != org
         || invitations[invitation].accepted || invitations[invitation].revoked {
        return O.Refused(O.NotFound);
      }
      invitations := invitations[invitation := invitations[invitation].(revoked := true)];
      return O.Done;
    }

    method AcceptInvitation(caller: Id, invitation: Id) returns (outcome: O.Outcome)
      requires Valid() && caller in users
      modifies this
      ensures Valid() && (View(), outcome) == O.AcceptInvitation(old(View()), caller, invitation)
      ensures !outcome.Done? ==> View() == old(View())
    {
      AcceptanceKeeps(View(), caller, invitation);
      if invitation !in invitations || invitations[invitation].org !in orgs {
        return O.Refused(O.TokenInvalid);
      }
      var i := invitations[invitation];
      if i.accepted || i.revoked {
        return O.Refused(O.Gone);
      }
      if i.expiresAt < now {
        return O.Refused(O.Gone);
      }
      if i.email != users[caller] {
        return O.Refused(O.Forbidden);
      }
      var role := i.role;
      if role.None? || role.value !in roles || roles[role.value].org != Some(i.org) || roles[role.value].owner {
        role := FindOrgRole(i.org, O.MEMBER);
      }
      if (i.org, caller) in members {
        return O.Refused(O.Conflict);
      }
      members := members[(i.org, caller) := O.Member(role, O.Active)];
      invitations := invitations[invitation := i.(accepted := true)];
      return O.Done;
    }

    // Inserts the permissions row by row; None when a row is there twice.
    method InsertPermissions(perms: seq<O.Permission>) returns (inserted: Option<set<O.Permission>>)
      ensures inserted == if O.HasDuplicates(perms) then None else Some(O.PermSet(perms))
    {
      var rows: set<O.Permission> := {};
      for i := 0 to |perms|
        invariant rows == set j | 0 <= j < i :: perms[j]
        invariant forall j, k :: 0 <= j < k < i ==> perms[j] != perms[k]
      {
        if perms[i] in rows {
          return None;
        }
        rows := rows + {perms[i]};
      }
      return Some(rows);
    }

    method CreateRole(caller: Id, org: Id, role: Id, name: string, perms: seq<O.Permission>) returns (outcome: O.Outcome)
      modifies this
      ensures outcome.Done? ==>
                && View() == old(View()).(roles := roles) && roles.Keys == old(roles).Keys + {role}
                && (forall r :: r in old(roles) && r != role ==> roles[r] == old(roles)[r])
                && roles[role].org == Some(org) && !roles[role].system && !roles[role].owner
                && roles[role].name == O.Trim(name) && (forall p :: p in roles[role].perms <==> p in perms)
      ensures (View(), outcome) == O.CreateRole(old(View()), caller, org, role, name, perms)
      ensures old(Valid()) && role !in old(roles) ==> Valid()
      ensures !outcome.Done? ==> View() == old(View())
    {
      if Valid() && role !in roles {
        RoleCreationKeeps(View(), caller, org, role, name, perms);
      }
      if !O.Authorize(View(), (org, caller), O.ROLES_MANAGE) {
        return O.Refused(O.Forbidden);
      }
      var valid := O.ValidateRoleName(name);
      if valid.None? || !O.ValidatePermissions(perms) {
        return O.Refused(O.Validation);
      }
      if O.NameTaken(roles, org, valid.value, role) {
        return O.Refused(O.Conflict);
      }
      var rows := InsertPermissions(perms);
      if rows.None? {
        return O.Refused(O.Internal);
      }
      roles := roles[role := O.Role(Some(org), valid.value, false, false, rows.value)];
      return O.Done;
    }

    // The updates reach the table only when the transaction commits.
    method UpdateRole(caller: Id, org: Id, role: Id, name: Option<string>, perms: Option<seq<O.Permission>>, reauth: bool)
      returns (outcome: O.Outcome)
      modifies this
      ensures outcome.Done? ==>
                && role in old(roles) && View() == old(View()).(roles := roles) && roles.Keys == old(roles).Keys
                && (forall r :: r in roles && r != role ==> roles[r] == old(roles)[r])
                && roles[role].org == old(roles)[role].org == Some(org) && !roles[role].system && !roles[role].owner
                && (forall p :: p in roles[role].perms <==> if perms.Some? then p in perms.value else p in old(roles)[role].perms)
                && roles[role].name == (if name.Some? then O.Trim(name.value) else old(roles)[role].name)
      ensures (View(), outcome) == O.UpdateRole(old(View()), caller, org, role, name, perms, reauth)
      ensures old(Valid()) ==> Valid()
      ensures !outcome.Done? ==> View() == old(View())
    {
      if Valid() {
        RoleUpdateKeeps(View(), caller, org, role, name, perms, reauth);
      }
      if !O.Authorize(View(), (org, caller), O.ROLES_MANAGE) {
        return O.Refused(O.Forbidden);
      }
      if !reauth {
        return O.Refused(O.ReauthRequired);
      }
      if role !in roles || roles[role].org != Some(org) {
        return O.Refused(O.NotFound);
      }
      var row := roles[role];
      if row.system || row.owner {
        return O.Refused(O.Validation);
      }
      if name.Some? {
        var valid := O.ValidateRoleName(name.value);
        if valid.None? {
          return O.Refused(O.Validation);
        }
        if O.NameTaken(roles, org, valid.value, role) {
          return O.Refused(O.Conflict);
        }
        row := row.(name := valid.value);
      }
      if perms.Some? {
        if !O.ValidatePermissions(perms.value) {
          return O.Refused(O.Validation);
        }
        var rows := InsertPermissions(perms.value);
        if rows.None? {
          return O.Refused(O.Internal);
        }
        row := row.(perms := rows.value);
      }
      roles := roles[role := row];
      return O.Done;
    }

    method DeleteRole(caller: Id, org: Id, role: Id, reauth: bool) returns (outcome: O.Outcome)
      modifies this
      ensures (View(), outcome) == O.DeleteRole(old(View()), caller, org, role, reauth)
      ensures old(Valid()) ==> Valid()
      ensures !outcome.Done? ==> View() == old(View())
      ensures outcome.Done? ==>
                && role !in roles && View() == old(View()).(roles := roles)
                && (forall r :: r in old(roles) && r != role ==> r in roles && roles[r] == old(roles)[r])
                && (forall k :: k in members ==> members[k].role != Some(role))
                && (forall i :: i in invitations ==> invitations[i].role != Some(role))
    {
      if Valid() {
        RoleDeletionKeeps(View(), caller, org, role, reauth);
      }
      if !reauth {
        return O.Refused(O.ReauthRequired);
      }
      if !O.Authorize(View(), (org, caller), O.ROLES_MANAGE) {
        return O.Refused(O.Forbidden);
      }
      if role !in roles || roles[role].org != Some(org) {
        return O.Refused(O.NotFound);
      }
      if roles[role].system || roles[role].owner {
        return O.Refused(O.Validation);
      }
      if O.RoleHeld(View(), role) {
        return O.Refused(O.Conflict);
      }
      if O.RoleInvited(View(), role) {
        return O.Refused(O.Internal);
      }
      roles := roles - {role};
      return O.Done;
    }

    // The cascade on the user row removes the memberships one by one.
    method DeleteAccount(caller: Id, reauth: bool) returns (outcome: O.Outcome)
      modifies this
      ensures (View(), outcome) == O.DeleteAccount(old(View()), caller, reauth)
      ensures old(Valid()) ==> Valid()
      ensures !outcome.Done? ==> View() == old(View())
      ensures outcome.Done? ==>
                && caller !in users && (forall o :: o in orgs ==> orgs[o].owner != caller)
                && (forall k :: k in members <==> k in old(members) && k.1 != caller)
                && revocations == old(revocations) + [O.Revocation(caller, None)]
    {
      if Valid() {
        DeletionKeeps(View(), caller, reauth);
      }
      if !reauth {
        return O.Refused(O.ReauthRequired);
      }
      if exists o :: o in orgs && orgs[o].owner == caller {
        return O.Refused(O.Conflict);
      }
      revocations := revocations + [O.Revocation(caller, None)];
      users := users - {caller};
      members := map k | k in members && k.1 != caller :: members[k];
      return O.Done;
    }

    // Two lookups decide, after the caller's own token and organization.
    method PermissionCheck(token: Option<AccessTokens.Validated>, org: Id, user: Id, permission: O.Permission)
      returns (answer: O.Answer)
      requires Valid()
      ensures answer == O.PermissionCheck(View(), token, org, user, permission)
      ensures answer.Answered? ==> (answer.allowed <==> O.Authorize(View(), (org, user), permission))
    {
      assert SeatOk(View(), (org, user));
      if token.None? {
        return O.Rejected(O.Unauthorized);
      }
      if token.value.actor.kind == User || token.value.org != org {
        return O.Rejected(O.Forbidden);
      }
      if !O.IsValidPermission(permission) {
        return O.Rejected(O.Validation);
      }
      var member := O.IsActiveMember(View(), (org, user));
      var permitted := O.HasPermission(View(), (org, user), permission);
      return O.Answered(member && permitted);
    }
  }

  lemma BuiltInRows()
    ensures O.BUILT_IN == [O.OWNER, O.ADMINISTRATOR, O.MEMBER, O.VIEWER]
    ensures O.PermsOf(O.OWNER) == {} && O.PermsOf(O.ADMINISTRATOR) == O.ADMIN_PERMS
    ensures O.PermsOf(O.MEMBER) == O.MEMBER_PERMS && O.PermsOf(O.VIEWER) == O.VIEWER_PERMS
    ensures forall i :: 0 <= i < 4 ==> (O.BUILT_IN[i] == O.OWNER <==> i == 0)
  {
    assert |O.OWNER| == 5 && |O.ADMINISTRATOR| == 13 && |O.MEMBER| == 6 && |O.VIEWER| == 6 && O.MEMBER[0] != O.VIEWER[0];
  }
}

// What one call of each organization handler does: exactly when it goes
// through, what it then changes, and that a refused call changes nothing.

module OrgSteps {
  import opened Common
  import opened Orgs
  import opened Scopes

  lemma RegistrationExactly(s: State, user: Id, email: Email)
    ensures var (t, outcome) := AddUser(s, user, email);
            && (outcome.Done? <==> user !in s.users && forall u :: u in s.users ==> s.users[u] != email)
            && t == if outcome.Done? then s.(users := s.users[user := email]) else s
  {
  }

  // The slug is taken from then on, and the founder is an active member in the
  // role named Owner of that organization; no other membership changes.
  lemma CreationExactly(s: State, caller: Id, org: Id, slug: Option<string>, ids: seq<Id>)
    requires |ids| == 4
    ensures var (t, outcome) := CreateOrg(s, caller, org, slug, ids);
            && (outcome == Refused(Validation) <==> slug.None?)
            && (outcome == Refused(Conflict) <==> slug.Some? && exists o :: o in s.orgs && s.orgs[o].slug == slug.value)
            && (outcome.Done? ==>
                  && t == s.(orgs := s.orgs[org := Org(slug.value, caller)], roles := t.roles, members := t.members)
                  && (org, caller) in t.members && t.members[(org, caller)].status == Active
                  && t.members[(org, caller)].role.Some? && t.members[(org, caller)].role.value in t.roles
                  && t.roles[t.members[(org, caller)].role.value].org == Some(org)
                  && t.roles[t.members[(org, caller)].role.value].name == "Owner"
                  && t.members == s.members[(org, caller) := t.members[(org, caller)]])
            && (!outcome.Done? ==> t == s)
  {
  }

  // Two seats change hands, and nothing but their roles and the owner column.
  lemma TransferExactly(s: State, caller: Id, org: Id, target: Id, reauth: bool)
    ensures var (t, outcome) := TransferOwnership(s, caller, org, target, reauth);
            && (outcome == Refused(ReauthRequired) <==> !reauth)
            && (outcome.Done? ==>
                  && t == s.(orgs := t.orgs, members := t.members) && t.members.Keys == s.members.Keys
                  && (forall k :: k in s.members && k != (org, caller) && k != (org, target) ==> t.members[k] == s.members[k])
                  && (forall k :: k in s.members ==> t.members[k].status == s.members[k].status)
                  && (org in s.orgs ==> t.orgs == s.orgs[org := Org(s.orgs[org].slug, target)]))
            && (!outcome.Done? ==> t == s)
  {
  }

  // Another member gets a role that may be handed out in the organization.
  lemma AssignmentExactly(s: State, caller: Id, org: Id, target: Id, role: Id, reauth: bool)
    ensures var (t, outcome) := SetMemberRole(s, caller, org, target, role, reauth);
            && (outcome == Refused(Forbidden) <==> !Authorize(s, (org, caller), "org.members.manage"))
            && (outcome == Refused(ReauthRequired) <==> Authorize(s, (org, caller), "org.members.manage") && !reauth)
            && (outcome.Done? <==>
                  && Authorize(s, (org, caller), "org.members.manage") && reauth
                  && target != caller && !(org in s.orgs && s.orgs[org].owner == target)
                  && role in s.roles && s.roles[role].org == Some(org) && !s.roles[role].owner
                  && (org, target) in s.members && s.members[(org, target)].status == Active)
            && t == if outcome.Done? then s.(members := s.members[(org, target) := Member(Some(role), Active)]) else s
  {
  }

  // Suspending takes the tokens of the organization along, restoring does not.
  lemma StatusChangeExactly(s: State, caller: Id, org: Id, target: Id, status: Status, reauth: bool)
    ensures var (t, outcome) := UpdateMemberStatus(s, caller, org, target, status, reauth);
            && (outcome == Refused(Forbidden) <==> !Authorize(s, (org, caller), "org.members.suspend"))
            && (outcome == Refused(ReauthRequired) <==> Authorize(s, (org, caller), "org.members.suspend") && !reauth)
            && (outcome.Done? <==>
                  && Authorize(s, (org, caller), "org.members.suspend") && reauth
                  && target != caller && !(org in s.orgs && s.orgs[org].owner == target)
                  && (org, target) in s.members && s.members[(org, target)].status != status)
            && t == if outcome.Done?
                    then s.(members := s.members[(org, target) := Member(s.members[(org, target)].role, status)],
                            revocations := if status == Suspended then s.revocations + [Revocation(target, Some(org))] else s.revocations)
                    else s
  {
  }

  // Removing oneself takes no recent sign-in; the owner is never removed.
  lemma RemovalExactly(s: State, caller: Id, org: Id, target: Id, reauth: bool)
    ensures var (t, outcome) := RemoveMember(s, caller, org, target, reauth);
            && (outcome == Refused(Forbidden) <==> !Authorize(s, (org, caller), "org.members.remove"))
            && (outcome == Refused(ReauthRequired) <==>
                  Authorize(s, (org, caller), "org.members.remove") && target != caller && !reauth)
            && (outcome.Done? <==>
                  && Authorize(s, (org, caller), "org.members.remove") && (target == caller || reauth)
                  && !(org in s.orgs && s.orgs[org].owner == target) && (org, target) in s.members)
            && t == if outcome.Done?
                    then s.(members := s.members - {(org, target)},
                            revocations := s.revocations + [Revocation(target, Some(org))])
                    else s
  {
  }

  // The invitation offers the role, to the address, and lasts for the configured time.
  lemma InvitationExactly(s: State, caller: Id, org: Id, invitation: Id, email: Option<Email>, role: Id, ttl: nat)
    ensures var (t, outcome) := CreateInvitation(s, caller, org, invitation, email, role, ttl);
            && (outcome == Refused(Forbidden) <==> !Authorize(s, (org, caller), "org.members.invite"))
            && (outcome.Done? <==>
                  && Authorize(s, (org, caller), "org.members.invite") && email.Some?
                  && role in s.roles && s.roles[role].org == Some(org) && !s.roles[role].owner
                  && forall k :: k in s.members && k.0 == org && k.1 in s.users ==> s.users[k.1] != email.value)
            && t == if outcome.Done?
                    then s.(invitations := s.invitations[invitation :=
                              Invitation(org, email.value, Some(role), s.now + ttl, false, false)])
                    else s
  {
  }

  lemma InviteRevocationExactly(s: State, caller: Id, org: Id, invitation: Id)
    ensures var (t, outcome) := RevokeInvitation(s, caller, org, invitation);
            && (outcome == Refused(Forbidden) <==> !Authorize(s, (org, caller), "org.members.manage"))
            && (outcome.Done? <==>
                  && Authorize(s, (org, caller), "org.members.manage")
                  && invitation in s.invitations && s.invitations[invitation].org == org
                  && !s.invitations[invitation].accepted && !s.invitations[invitation].revoked)
            && t == if outcome.Done?
                    then s.(invitations := s.invitations[invitation := s.invitations[invitation].(revoked := true)]) else s
  {
  }

  // An invitation is open to the user with its address, until it is over, as
  // long as that user is no member; suspended members are not let in again.
  lemma AcceptanceExactly(s: State, caller: Id, invitation: Id)
    ensures var (t, outcome) := AcceptInvitation(s, caller, invitation);
            && (outcome.Done? <==>
                  && invitation in s.invitations && s.invitations[invitation].org in s.orgs
                  && !s.invitations[invitation].accepted && !s.invitations[invitation].revoked
                  && s.now <= s.invitations[invitation].expiresAt
                  && caller in s.users && s.users[caller] == s.invitations[invitation].email
                  && (s.invitations[invitation].org, caller) !in s.members)
            && (outcome.Done? ==>
                  var i := s.invitations[invitation];
                  && t == s.(members := t.members, invitations := s.invitations[invitation := i.(accepted := true)])
                  && (i.org, caller) in t.members && t.members[(i.org, caller)].status == Active
                  && (i.role.Some? && i.role.value in s.roles && s.roles[i.role.value].org == Some(i.org) && !s.roles[i.role.value].owner ==>
                        t.members[(i.org, caller)].role == i.role)
                  && t.members == s.members[(i.org, caller) := t.members[(i.org, caller)]])
            && (!outcome.Done? ==> t == s)
  {
  }

  // The new role grants what was asked for and nothing else.
  lemma RoleCreationExactly(s: State, caller: Id, org: Id, role: Id, name: string, perms: seq<Permission>)
    ensures var (t, outcome) := CreateRole(s, caller, org, role, name, perms);
            && (outcome == Refused(Forbidden) <==> !Authorize(s, (org, caller), "org.roles.manage"))
            && (outcome.Done? <==>
                  && Authorize(s, (org, caller), "org.roles.manage") && ValidateRoleName(name).Some?
                  && 1 <= |perms| <= 200 && (forall i :: 0 <= i < |perms| ==> IsValidPermission(perms[i]))
                  && (forall r :: r in s.roles && r != role && s.roles[r].org == Some(org) ==> s.roles[r].name != Trim(name))
                  && (forall i, j :: 0 <= i < j < |perms| ==> perms[i] != perms[j]))
            && (outcome.Done? ==>
                  && t == s.(roles := t.roles) && t.roles.Keys == s.roles.Keys + {role}
                  && (forall r :: r in s.roles && r != role ==> t.roles[r] == s.roles[r])
                  && t.roles[role].org == Some(org) && t.roles[role].name == Trim(name)
                  && !t.roles[role].system && !t.roles[role].owner
                  && (forall p :: p in t.roles[role].perms <==> p in perms))
            && (!outcome.Done? ==> t == s)
  {
  }

  // A custom role is renamed, or given exactly the new permissions, or both.
  lemma RoleUpdateExactly(s: State, caller: Id, org: Id, role: Id, name: Option<string>, perms: Option<seq<Permission>>,
                          reauth: bool)
    ensures var (t, outcome) := UpdateRole(s, caller, org, role, name, perms, reauth);
            && (outcome == Refused(Forbidden) <==> !Authorize(s, (org, caller), "org.roles.manage"))
            && (outcome == Refused(ReauthRequired) <==> Authorize(s, (org, caller), "org.roles.manage") && !reauth)
            && (outcome.Done? <==>
                  && Authorize(s, (org, caller), "org.roles.manage") && reauth
                  && role in s.roles && s.roles[role].org == Some(org) && !s.roles[role].system && !s.roles[role].owner
                  && (name.Some? ==>
                        && ValidateRoleName(name.value).Some?
                        && forall r :: r in s.roles && r != role && s.roles[r].org == Some(org) ==> s.roles[r].name != Trim(name.value))
                  && (perms.Some? ==>
                        && 1 <= |perms.value| <= 200 && (forall i :: 0 <= i < |perms.value| ==> IsValidPermission(perms.value[i]))
                        && forall i, j :: 0 <= i < j < |perms.value| ==> perms.value[i] != perms.value[j]))
            && (outcome.Done? ==>
                  && t == s.(roles := t.roles) && t.roles.Keys == s.roles.Keys
                  && (forall r :: r in s.roles && r != role ==> t.roles[r] == s.roles[r])
                  && t.roles[role] == s.roles[role].(name := t.roles[role].name, perms := t.roles[role].perms)
                  && t.roles[role].name == (if name.Some? then Trim(name.value) else s.roles[role].name)
                  && (forall p :: p in t.roles[role].perms <==> if perms.Some? then p in perms.value else p in s.roles[role].perms))
            && (!outcome.Done? ==> t == s)
  {
  }

  // Only a custom role that nobody holds and no invitation offers is deleted.
  lemma RoleDeletionExactly(s: State, caller: Id, org: Id, role: Id, reauth: bool)
    ensures var (t, outcome) := DeleteRole(s, caller, org, role, reauth);
            && (outcome == Refused(ReauthRequired) <==> !reauth)
            && (outcome == Refused(Forbidden) <==> reauth && !Authorize(s, (org, caller), "org.roles.manage"))
            && (outcome.Done? <==>
                  && reauth && Authorize(s, (org, caller), "org.roles.manage")
                  && role in s.roles && s.roles[role].org == Some(org) && !s.roles[role].system && !s.roles[role].owner
                  && (forall k :: k in s.members ==> s.members[k].role != Some(role))
                  && (forall m :: m in s.machines ==> s.machines[m] != role)
                  && (forall i :: i in s.invitations ==> s.invitations[i].role != Some(role)))
            && t == if outcome.Done? then s.(roles := s.roles - {role}) else s
  {
  }

  // Owners must hand over first; everybody else goes with all memberships and tokens.
  lemma AccountDeletionExactly(s: State, caller: Id, reauth: bool)
    ensures var (t, outcome) := DeleteAccount(s, caller, reauth);
            && (outcome == Refused(ReauthRequired) <==> !reauth)
            && (outcome.Done? <==> reauth && forall o :: o in s.orgs ==> s.orgs[o].owner != caller)
            && (outcome.Done? ==>
                  && t == s.(users := s.users - {caller}, members := t.members, revocations := s.revocations + [Revocation(caller, None)])
                  && (forall k :: k in t.members <==> k in s.members && k.1 != caller)
                  && (forall k :: k in t.members ==> t.members[k] == s.members[k]))
            && (!outcome.Done? ==> t == s)
  {
  }

  lemma MachineAssignmentExactly(s: State, caller: Id, org: Id, machine: Id, role: Id)
    ensures var (t, outcome) := AssignMachine(s, caller, org, machine, role);
            && (outcome.Done? <==>
                  && Authorize(s, (org, caller), "org.service-accounts.manage")
                  && role in s.roles && s.roles[role].org == Some(org) && !s.roles[role].owner)
            && t == if outcome.Done? then s.(machines := s.machines[machine := role]) else s
  {
  }

  // A call in a run is the handler's call by a signed-in user, with its own arguments.
  lemma MemberCalls(s: State, caller: Id, org: Id, target: Id, role: Id, status: Status, reauth: bool)
    ensures caller in s.users ==>
              && Perform(s, Transfer(caller, org, target, reauth)) == TransferOwnership(s, caller, org, target, reauth)
              && Perform(s, Assignment(caller, org, target, role, reauth)) == SetMemberRole(s, caller, org, target, role, reauth)
              && Perform(s, StatusChange(caller, org, target, status, reauth))
                 == UpdateMemberStatus(s, caller, org, target, status, reauth)
              && Perform(s, Removal(caller, org, target, reauth)) == RemoveMember(s, caller, org, target, reauth)
              && Perform(s, AccountDeletion(caller, reauth)) == DeleteAccount(s, caller, reauth)
  {
  }

  lemma JoinCalls(s: State, caller: Id, org: Id, invitation: Id)
    ensures caller in s.users ==>
              && Perform(s, InviteRevocation(caller, org, invitation)) == RevokeInvitation(s, caller, org, invitation)
              && Perform(s, Acceptance(caller, invitation)) == AcceptInvitation(s, caller, invitation)
    ensures caller !in s.users ==> Perform(s, Acceptance(caller, invitation)) == (s, Refused(Unauthorized))
  {
  }

  lemma RoleCalls(s: State, caller: Id, org: Id, role: Id, name: string, newName: Option<string>, perms: seq<Permission>,
                  newPerms: Option<seq<Permission>>, reauth: bool)
    ensures caller in s.users ==>
              && (role !in s.roles ==>
                    Perform(s, RoleCreation(caller, org, role, name, perms)) == CreateRole(s, caller, org, role, name, perms))
              && Perform(s, RoleUpdate(caller, org, role, newName, newPerms, reauth))
                 == UpdateRole(s, caller, org, role, newName, newPerms, reauth)
              && Perform(s, RoleDeletion(caller, org, role, reauth)) == DeleteRole(s, caller, org, role, reauth)
  {
  }

  // ------------------------------------------------- names and permissions

  // What the three lesser built-in roles allow: members and viewers only read.
  lemma BuiltInRolesAllow()
    ensures MEMBER_PERMS == {"org.overview.read", "org.members.read", "org.teams.read", "org.roles.read", "org.apps.read",
                             "org.settings.read"}
    ensures VIEWER_PERMS - MEMBER_PERMS <= {"org.service-accounts.read", "org.devices.read", "org.audit.read"} <= VIEWER_PERMS
    ensures ADMIN_PERMS - VIEWER_PERMS <=
              {"org.members.manage", "org.members.invite", "org.members.suspend", "org.members.remove", "org.teams.manage",
               "org.roles.manage", "org.apps.manage", "org.service-accounts.manage", "org.devices.manage",
               "org.settings.manage"} <= ADMIN_PERMS
    ensures MEMBER_PERMS <= VIEWER_PERMS <= ADMIN_PERMS
  {
  }

  predicate Blank(text: string) {
    forall i :: 0 <= i < |text| ==> IsWhitespace(text[i])
  }

  lemma {:induction false} TrimLeftSplits(text: string)
    ensures exists before :: Blank(before) && text == before + TrimLeft(text)
    ensures TrimLeft(text) != "" ==> !IsWhitespace(TrimLeft(text)[0])
  {
    if text != "" && IsWhitespace(text[0]) {
      TrimLeftSplits(text[1..]);
      var rest :| Blank(rest) && text[1..] == rest + TrimLeft(text);
      var before := [text[0]] + rest;
      assert Blank(before) && text == before + TrimLeft(text);
    } else {
      assert Blank("") && text == "" + TrimLeft(text);
    }
  }

  lemma {:induction false} TrimRightSplits(text: string)
    ensures exists after :: Blank(after) && text == TrimRight(text) + after
    ensures TrimRight(text) != "" ==> !IsWhitespace(TrimRight(text)[|TrimRight(text)| - 1])
  {
    if text != "" && IsWhitespace(text[|text| - 1]) {
      TrimRightSplits(text[..|text| - 1]);
      var rest :| Blank(rest) && text[..|text| - 1] == TrimRight(text) + rest;
      var after := rest + [text[|text| - 1]];
      assert Blank(after) && text == TrimRight(text) + after;
    } else {
      assert Blank("") && text == TrimRight(text) + "";
    }
  }

  // Trimming takes whitespace off both ends and leaves none there.
  lemma TrimTakesEnds(text: string)
    ensures exists before, after :: Blank(before) && Blank(after) && text == before + Trim(text) + after
    ensures forall i :: 0 <= i < |Trim(text)| && (i == 0 || i == |Trim(text)| - 1) ==> !IsWhitespace(Trim(text)[i])
  {
    TrimLeftSplits(text);
    TrimRightSplits(TrimLeft(text));
    var before :| Blank(before) && text == before + TrimLeft(text);
    var after :| Blank(after) && TrimLeft(text) == Trim(text) + after;
    assert text == before + Trim(text) + after;
    if Trim(text) != "" {
      assert TrimLeft(text)[0] == Trim(text)[0];
    }
  }

  // A role keeps its trimmed name of 1 to 64 characters unless a built-in role is called so.
  lemma RoleNamesExactly(text: string)
    ensures ValidateRoleName(text) ==
              if 1 <= |Trim(text)| <= 64 && Trim(text) != "Owner" && Trim(text) != "Administrator"
                 && Trim(text) != "Member" && Trim(text) != "Viewer"
              then Some(Trim(text)) else None
  {
    assert BUILT_IN == ["Owner", "Administrator", "Member", "Viewer"];
    assert forall name :: name in BUILT_IN <==> name == "Owner" || name == "Administrator" || name == "Member" || name == "Viewer";
  }

  function Dotted(segments: seq<string>): string
    requires segments != []
  {
    if |segments| == 1 then segments[0] else segments[0] + ['.'] + Dotted(segments[1..])
  }

  lemma {:induction false} SplitUndoesDotted(segments: seq<string>)
    requires segments != [] && forall s :: s in segments ==> '.' !in s
    ensures SplitAt(Dotted(segments), '.') == segments
  {
    assert '.' !in segments[0];
    if |segments| == 1 {
      SplitAfterFirst(segments[0], '.', "");
    } else {
      SplitAfterFirst(segments[0], '.', Dotted(segments[1..]));
      SplitUndoesDotted(segments[1..]);
    }
  }

  predicate LowerOrDigit(c: char) {
    'a' <= c <= 'z' || '0' <= c <= '9' || c == '-'
  }

  // A permission is three or more segments of lower-case letters, digits and
  // hyphens, each starting with a letter and at most 32 characters long.
  lemma PermissionsExactly(segments: seq<string>)
    requires segments != [] && forall s :: s in segments ==> '.' !in s
    ensures IsValidPermission(Dotted(segments)) <==>
              && |segments| >= 3
              && forall i :: 0 <= i < |segments| ==>
                   && 1 <= |segments[i]| <= 32 && 'a' <= segments[i][0] <= 'z'
                   && forall j :: 0 <= j < |segments[i]| ==> LowerOrDigit(segments[i][j])
  {
    SplitUndoesDotted(segments);
  }
}

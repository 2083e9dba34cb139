// What every sequence of organization handlers keeps: the owner column, the
// owner role and the owner's status always tell the same story.

module Ownership {
  import opened Common
  import opened Orgs
  import AccessTokens

  // --------------------------------------------------------------- invariant

  ghost predicate RoleOk(s: State, r: Id) {
    r in s.roles && s.roles[r].org.Some? ==>
      var role := s.roles[r];
      && role.org.value in s.orgs
      && (role.name in BUILT_IN ==> role == BuiltInRole(role.org.value, role.name))
      && (role.name !in BUILT_IN ==> !role.owner && !role.system)
  }

  ghost predicate RolesOk(s: State) {
    forall r {:trigger RoleOk(s, r)} :: RoleOk(s, r)
  }

  predicate SameName(roles: map<Id, Role>, r: Id, q: Id) {
    r in roles && q in roles && roles[r].org.Some? && roles[r].org == roles[q].org && roles[r].name == roles[q].name
  }

  ghost predicate NamesUnique(roles: map<Id, Role>) {
    forall r, q {:trigger SameName(roles, r, q)} :: SameName(roles, r, q) ==> r == q
  }

  ghost predicate HasBuiltIns(roles: map<Id, Role>, org: Id) {
    forall i {:trigger BUILT_IN[i]} :: 0 <= i < |BUILT_IN| ==> HasOrgRole(roles, org, BUILT_IN[i])
  }

  ghost predicate OrgsSeeded(s: State) {
    forall o {:trigger HasBuiltIns(s.roles, o)} :: o in s.orgs ==> HasBuiltIns(s.roles, o)
  }

  // A member's role is a role of that organization, the owner role only for the owner.
  ghost predicate SeatOk(s: State, k: Seat) {
    k in s.members ==>
      && k.0 in s.orgs && k.1 in s.users
      && RoleOf(s, k).Some? && RoleOf(s, k).value.org == Some(k.0)
      && (RoleOf(s, k).value.owner ==> k.1 == s.orgs[k.0].owner)
  }

  ghost predicate SeatsOk(s: State) {
    forall k {:trigger SeatOk(s, k)} :: SeatOk(s, k)
  }

  ghost predicate OwnerOk(s: State, org: Id) {
    org in s.orgs ==> IsActiveMember(s, (org, s.orgs[org].owner)) && HoldsOwnerRole(s, (org, s.orgs[org].owner))
  }

  ghost predicate OwnersOk(s: State) {
    forall o {:trigger OwnerOk(s, o)} :: OwnerOk(s, o)
  }

  // An invitation keeps its role in place.
  ghost predicate InvitationOk(s: State, i: Id) {
    i in s.invitations ==> s.invitations[i].role.Some? && Assignable(s, s.invitations[i].org, s.invitations[i].role.value)
  }

  ghost predicate InvitationsOk(s: State) {
    forall i {:trigger InvitationOk(s, i)} :: InvitationOk(s, i)
  }

  ghost predicate AllSeated(s: State) {
    var seated := SeatsOk(s) && OwnersOk(s) && InvitationsOk(s);
    seated
  }

  ghost predicate Inv(s: State) {
    var roles := RolesOk(s) && NamesUnique(s.roles) && OrgsSeeded(s);
    var owned := roles && AllSeated(s);
    owned
  }

  // ------------------------------------------------------------ member steps

  // The right role is found by name.
  lemma FoundRole(s: State, org: Id, i: nat)
    requires RolesOk(s) && OrgsSeeded(s) && org in s.orgs && i < |BUILT_IN|
    ensures FindOrgRole(s.roles, org, BUILT_IN[i]).Some?
    ensures FindOrgRole(s.roles, org, BUILT_IN[i]).value in s.roles
    ensures s.roles[FindOrgRole(s.roles, org, BUILT_IN[i]).value] == BuiltInRole(org, BUILT_IN[i])
  {
    assert HasBuiltIns(s.roles, org);
    var r := FindOrgRole(s.roles, org, BUILT_IN[i]).value;
    assert RoleOk(s, r);
  }

  lemma TransferKeeps(s: State, caller: Id, org: Id, target: Id, reauth: bool)
    requires Inv(s)
    ensures Inv(TransferOwnership(s, caller, org, target, reauth).0)
  {
    var (t, outcome) := TransferOwnership(s, caller, org, target, reauth);
    if outcome.Done? {
      assert SeatOk(s, (org, caller)) && OwnerOk(s, org);
      FoundRole(s, org, 0);
      FoundRole(s, org, 1);
      forall r ensures RoleOk(t, r) { assert RoleOk(s, r); }
      forall o | o in t.orgs ensures HasBuiltIns(t.roles, o) { assert HasBuiltIns(s.roles, o); }
      forall k ensures SeatOk(t, k) { assert SeatOk(s, k); }
      forall o ensures OwnerOk(t, o) { assert OwnerOk(s, o); }
      forall i ensures InvitationOk(t, i) { assert InvitationOk(s, i); }
    }
  }

  // A step that leaves the roles, the owners and the owners' seats alone needs only its seats checked.
  ghost predicate OnlySeatsMoved(s: State, t: State) {
    && t.roles == s.roles && t.orgs == s.orgs && t.invitations == s.invitations
    && forall o :: o in s.orgs ==>
         var seat := (o, s.orgs[o].owner);
         seat in s.members ==> seat in t.members && t.members[seat] == s.members[seat]
  }

  lemma SeatMoves(s: State, t: State)
    requires Inv(s) && OnlySeatsMoved(s, t) && SeatsOk(t)
    ensures Inv(t)
  {
    forall r ensures RoleOk(t, r) { assert RoleOk(s, r); }
    forall o | o in t.orgs ensures HasBuiltIns(t.roles, o) { assert HasBuiltIns(s.roles, o); }
    forall o ensures OwnerOk(t, o) { assert OwnerOk(s, o); }
    forall i ensures InvitationOk(t, i) { assert InvitationOk(s, i); }
  }

  lemma AssignmentKeeps(s: State, caller: Id, org: Id, target: Id, role: Id, reauth: bool)
    requires Inv(s)
    ensures Inv(SetMemberRole(s, caller, org, target, role, reauth).0)
  {
    var (t, outcome) := SetMemberRole(s, caller, org, target, role, reauth);
    if outcome.Done? {
      forall k ensures SeatOk(t, k) { assert SeatOk(s, k); }
      SeatMoves(s, t);
    }
  }

  lemma StatusKeeps(s: State, caller: Id, org: Id, target: Id, status: Status, reauth: bool)
    requires Inv(s)
    ensures Inv(UpdateMemberStatus(s, caller, org, target, status, reauth).0)
  {
    var (t, outcome) := UpdateMemberStatus(s, caller, org, target, status, reauth);
    if outcome.Done? {
      forall k ensures SeatOk(t, k) { assert SeatOk(s, k); }
      SeatMoves(s, t);
    }
  }

  lemma RemovalKeeps(s: State, caller: Id, org: Id, target: Id, reauth: bool)
    requires Inv(s)
    ensures Inv(RemoveMember(s, caller, org, target, reauth).0)
  {
    var (t, outcome) := RemoveMember(s, caller, org, target, reauth);
    if outcome.Done? {
      forall k ensures SeatOk(t, k) { assert SeatOk(s, k); }
      SeatMoves(s, t);
    }
  }

  lemma DeletionKeeps(s: State, caller: Id, reauth: bool)
    requires Inv(s)
    ensures Inv(DeleteAccount(s, caller, reauth).0)
  {
    var (t, outcome) := DeleteAccount(s, caller, reauth);
    if outcome.Done? {
      forall k ensures SeatOk(t, k) { assert SeatOk(s, k); }
      SeatMoves(s, t);
    }
  }

  lemma MemberStepKeeps(s: State, a: Action)
    requires Inv(s) && IsMemberAction(a)
    ensures Inv(MemberStep(s, a).0)
  {
    match a
    case Transfer(caller, org, target, reauth) => TransferKeeps(s, caller, org, target, reauth);
    case Assignment(caller, org, target, role, reauth) => AssignmentKeeps(s, caller, org, target, role, reauth);
    case StatusChange(caller, org, target, status, reauth) => StatusKeeps(s, caller, org, target, status, reauth);
    case Removal(caller, org, target, reauth) => RemovalKeeps(s, caller, org, target, reauth);
    case AccountDeletion(caller, reauth) => DeletionKeeps(s, caller, reauth);
  }

  // -------------------------------------------------------------- role steps

  // The built-in roles are found as long as no system role goes away.
  lemma BuiltInsStay(s: State, t: State)
    requires RolesOk(s) && OrgsSeeded(s) && t.orgs == s.orgs
    requires forall r {:trigger s.roles[r]} :: r in s.roles && s.roles[r].system ==> r in t.roles && t.roles[r] == s.roles[r]
    ensures OrgsSeeded(t)
  {
    forall o | o in t.orgs ensures HasBuiltIns(t.roles, o) {
      forall i | 0 <= i < |BUILT_IN| ensures HasOrgRole(t.roles, o, BUILT_IN[i]) {
        FoundRole(s, o, i);
        assert IsOrgRole(t.roles, o, BUILT_IN[i], FindOrgRole(s.roles, o, BUILT_IN[i]).value);
      }
    }
  }

  // A custom role of an organization replaces nothing, or another custom role of that organization.
  lemma CustomRoleKeeps(s: State, t: State, r: Id, row: Role)
    requires Inv(s) && t == s.(roles := s.roles[r := row])
    requires row.org.Some? && row.org.value in s.orgs && row.name !in BUILT_IN && !row.owner && !row.system
    requires r in s.roles ==> s.roles[r].org == row.org && !s.roles[r].owner && !s.roles[r].system
    requires !NameTaken(s.roles, row.org.value, row.name, r)
    ensures Inv(t)
  {
    forall q ensures RoleOk(t, q) { assert RoleOk(s, q); }
    forall p, q | SameName(t.roles, p, q) ensures p == q { assert p == r || q == r || SameName(s.roles, p, q); }
    BuiltInsStay(s, t);
    forall k ensures SeatOk(t, k) { assert SeatOk(s, k); }
    forall o ensures OwnerOk(t, o) { assert OwnerOk(s, o); assert o in s.orgs ==> SeatOk(s, (o, s.orgs[o].owner)); }
    forall i ensures InvitationOk(t, i) { assert InvitationOk(s, i); }
  }

  lemma RoleCreationKeeps(s: State, caller: Id, org: Id, role: Id, name: string, perms: seq<Permission>)
    requires Inv(s) && role !in s.roles
    ensures Inv(CreateRole(s, caller, org, role, name, perms).0)
  {
    var (t, outcome) := CreateRole(s, caller, org, role, name, perms);
    if outcome.Done? {
      CustomRoleKeeps(s, t, role, t.roles[role]);
    }
  }

  // The name of a custom role is taken by no other role of its organization.
  lemma OwnNameIsFree(s: State, role: Id)
    requires NamesUnique(s.roles) && role in s.roles && s.roles[role].org.Some?
    ensures !NameTaken(s.roles, s.roles[role].org.value, s.roles[role].name, role)
  {
    forall r | r in s.roles && r != role ensures !SameName(s.roles, r, role) { }
  }

  lemma RoleUpdateKeeps(s: State, caller: Id, org: Id, role: Id, name: Option<string>, perms: Option<seq<Permission>>, reauth: bool)
    requires Inv(s)
    ensures Inv(UpdateRole(s, caller, org, role, name, perms, reauth).0)
  {
    var (t, outcome) := UpdateRole(s, caller, org, role, name, perms, reauth);
    if outcome.Done? {
      assert RoleOk(s, role);
      OwnNameIsFree(s, role);
      CustomRoleKeeps(s, t, role, t.roles[role]);
    }
  }

  // A custom role that nobody holds and no invitation offers can go.
  lemma DroppedRoleKeeps(s: State, t: State, role: Id)
    requires Inv(s) && t == s.(roles := s.roles - {role})
    requires role in s.roles && !s.roles[role].system && !RoleHeld(s, role) && !RoleInvited(s, role)
    ensures AllSeated(t)
  {
    forall k ensures SeatOk(t, k) { assert SeatOk(s, k); }
    forall o ensures OwnerOk(t, o) { assert OwnerOk(s, o); assert o in s.orgs ==> SeatOk(s, (o, s.orgs[o].owner)); }
    forall i ensures InvitationOk(t, i) { assert InvitationOk(s, i); }
  }

  lemma RoleDeletionKeeps(s: State, caller: Id, org: Id, role: Id, reauth: bool)
    requires Inv(s)
    ensures Inv(DeleteRole(s, caller, org, role, reauth).0)
  {
    var (t, outcome) := DeleteRole(s, caller, org, role, reauth);
    if outcome.Done? {
      forall q ensures RoleOk(t, q) { assert RoleOk(s, q); }
      forall p, q | SameName(t.roles, p, q) ensures p == q { assert SameName(s.roles, p, q); }
      BuiltInsStay(s, t);
      DroppedRoleKeeps(s, t, role);
    }
  }

  lemma MachinesDoNotMatter(s: State, t: State)
    requires Inv(s) && t == s.(machines := t.machines)
    ensures Inv(t)
  {
    forall k ensures SeatOk(t, k) { assert SeatOk(s, k); }
    SeatMoves(s, t);
  }

  lemma RoleStepKeeps(s: State, a: Action)
    requires Inv(s) && IsRoleAction(a) && IdsAreFresh(s, a)
    ensures Inv(RoleStep(s, a).0)
  {
    match a
    case RoleCreation(caller, org, role, name, perms) => RoleCreationKeeps(s, caller, org, role, name, perms);
    case RoleUpdate(caller, org, role, name, perms, reauth) => RoleUpdateKeeps(s, caller, org, role, name, perms, reauth);
    case RoleDeletion(caller, org, role, reauth) => RoleDeletionKeeps(s, caller, org, role, reauth);
    case MachineAssignment(caller, org, machine, role) => MachinesDoNotMatter(s, AssignMachine(s, caller, org, machine, role).0);
    case MachineRemoval(machine) => MachinesDoNotMatter(s, s.(machines := s.machines - {machine}));
  }

  // -------------------------------------------------------------- join steps

  lemma {:induction false} SeededLookup(roles: map<Id, Role>, org: Id, ids: seq<Id>, n: nat, r: Id)
    requires |ids| == |BUILT_IN| && n <= |BUILT_IN|
    ensures r in Seeded(roles, org, ids, n) <==> r in roles || r in ids[..n]
    ensures r in roles && r !in ids[..n] ==> Seeded(roles, org, ids, n)[r] == roles[r]
  {
    if n > 0 {
      SeededLookup(roles, org, ids, n - 1, r);
      assert ids[..n] == ids[..n - 1] + [ids[n - 1]];
    }
  }

  lemma {:induction false} SeededRow(roles: map<Id, Role>, org: Id, ids: seq<Id>, n: nat, i: nat)
    requires FreshIds(roles, ids) && i < n <= |BUILT_IN|
    ensures ids[i] in Seeded(roles, org, ids, n)
    ensures Seeded(roles, org, ids, n)[ids[i]] == BuiltInRole(org, BUILT_IN[i])
  {
    if i < n - 1 {
      SeededRow(roles, org, ids, n - 1, i);
    }
  }

  // What seeding adds: under the fresh identifiers, the built-in roles.
  lemma SeededRows(roles: map<Id, Role>, org: Id, ids: seq<Id>)
    requires FreshIds(roles, ids)
    ensures forall r {:trigger r in Seeded(roles, org, ids, |BUILT_IN|)} :: r in Seeded(roles, org, ids, |BUILT_IN|) <==> r in roles || r in ids
    ensures forall r {:trigger Seeded(roles, org, ids, |BUILT_IN|)[r]} :: r in roles ==> Seeded(roles, org, ids, |BUILT_IN|)[r] == roles[r]
    ensures forall i :: 0 <= i < |ids| ==> ids[i] in Seeded(roles, org, ids, |BUILT_IN|) &&
                                           Seeded(roles, org, ids, |BUILT_IN|)[ids[i]] == BuiltInRole(org, BUILT_IN[i])
  {
    assert ids[..|BUILT_IN|] == ids;
    forall r
      ensures r in Seeded(roles, org, ids, |BUILT_IN|) <==> r in roles || r in ids
      ensures r in roles ==> Seeded(roles, org, ids, |BUILT_IN|)[r] == roles[r]
    {
      SeededLookup(roles, org, ids, |BUILT_IN|, r);
    }
    forall i | 0 <= i < |ids|
      ensures ids[i] in Seeded(roles, org, ids, |BUILT_IN|)
      ensures Seeded(roles, org, ids, |BUILT_IN|)[ids[i]] == BuiltInRole(org, BUILT_IN[i])
    {
      SeededRow(roles, org, ids, |BUILT_IN|, i);
    }
  }

  lemma SeededRoleOk(s: State, t: State, org: Id, ids: seq<Id>, r: Id)
    requires RolesOk(s) && FreshIds(s.roles, ids)
    requires t.roles == Seeded(s.roles, org, ids, |BUILT_IN|) && org in t.orgs && forall o :: o in s.orgs ==> o in t.orgs
    ensures RoleOk(t, r)
  {
    SeededRows(s.roles, org, ids);
    assert RoleOk(s, r);
    if r in t.roles && r !in s.roles {
      var i :| 0 <= i < |BUILT_IN| && ids[i] == r;
      assert t.roles[r] == BuiltInRole(org, BUILT_IN[i]);
      assert BUILT_IN[i] in BUILT_IN;
    }
  }

  lemma SeededNamesUnique(s: State, org: Id, ids: seq<Id>)
    requires RolesOk(s) && NamesUnique(s.roles) && org !in s.orgs && FreshIds(s.roles, ids)
    ensures NamesUnique(Seeded(s.roles, org, ids, |BUILT_IN|))
  {
    var roles := Seeded(s.roles, org, ids, |BUILT_IN|);
    SeededRows(s.roles, org, ids);
    forall p, q | SameName(roles, p, q) ensures p == q {
      assert RoleOk(s, p) && RoleOk(s, q);
      if p in s.roles {
        assert q in s.roles;
        assert SameName(s.roles, p, q);
      } else {
        assert q !in s.roles;
        var i :| 0 <= i < |BUILT_IN| && ids[i] == p;
        var j :| 0 <= j < |BUILT_IN| && ids[j] == q;
        BuiltInNamesDiffer(i, j);
      }
    }
  }

  lemma BuiltInNamesDiffer(i: nat, j: nat)
    requires i < |BUILT_IN| && j < |BUILT_IN| && BUILT_IN[i] == BUILT_IN[j]
    ensures i == j
  {
    assert |OWNER| == 5 && |ADMINISTRATOR| == 13 && |MEMBER| == 6 && |VIEWER| == 6 && MEMBER[0] != VIEWER[0];
  }

  lemma SeededHasBuiltIns(roles: map<Id, Role>, org: Id, ids: seq<Id>, o: Id)
    requires FreshIds(roles, ids) && (o == org || HasBuiltIns(roles, o))
    ensures HasBuiltIns(Seeded(roles, org, ids, |BUILT_IN|), o)
  {
    var after := Seeded(roles, org, ids, |BUILT_IN|);
    SeededRows(roles, org, ids);
    forall i | 0 <= i < |BUILT_IN| ensures HasOrgRole(after, o, BUILT_IN[i]) {
      var r := if o == org then ids[i] else FindOrgRole(roles, o, BUILT_IN[i]).value;
      assert IsOrgRole(after, o, BUILT_IN[i], r);
    }
  }

  // The roles of a new organization are the four built-in ones.
  lemma NewOrgIsSeeded(s: State, org: Id, ids: seq<Id>)
    requires RolesOk(s) && org !in s.orgs && |ids| == |BUILT_IN|
    ensures SeedOrgRoles(s.roles, org, ids) == Seeded(s.roles, org, ids, |BUILT_IN|)
  {
    forall r | r in s.roles ensures s.roles[r].org != Some(org) { assert RoleOk(s, r); }
  }

  lemma CreationSeats(s: State, t: State, caller: Id, org: Id, slug: string, ids: seq<Id>, role: Id)
    requires Inv(s) && caller in s.users && org !in s.orgs && FreshIds(s.roles, ids)
    requires t == s.(orgs := s.orgs[org := Org(slug, caller)], roles := Seeded(s.roles, org, ids, |BUILT_IN|),
                     members := s.members[(org, caller) := Member(Some(role), Active)])
    requires role in t.roles && t.roles[role] == BuiltInRole(org, OWNER)
    ensures AllSeated(t)
  {
    SeededRows(s.roles, org, ids);
    forall k ensures SeatOk(t, k) { assert SeatOk(s, k); }
    forall o ensures OwnerOk(t, o) { assert OwnerOk(s, o); assert o in s.orgs ==> SeatOk(s, (o, s.orgs[o].owner)); }
    forall i ensures InvitationOk(t, i) { assert InvitationOk(s, i); }
  }

  lemma CreationKeeps(s: State, caller: Id, org: Id, slug: Option<string>, ids: seq<Id>)
    requires Inv(s) && caller in s.users && org !in s.orgs && FreshIds(s.roles, ids)
    ensures Inv(CreateOrg(s, caller, org, slug, ids).0)
  {
    var (t, outcome) := CreateOrg(s, caller, org, slug, ids);
    if outcome.Done? {
      NewOrgIsSeeded(s, org, ids);
      forall r ensures RoleOk(t, r) { SeededRoleOk(s, t, org, ids, r); }
      SeededNamesUnique(s, org, ids);
      forall o | o in t.orgs ensures HasBuiltIns(t.roles, o) {
        assert o in s.orgs ==> HasBuiltIns(s.roles, o);
        SeededHasBuiltIns(s.roles, org, ids, o);
      }
      FoundRole(t, org, 0);
      CreationSeats(s, t, caller, org, slug.value, ids, FindOrgRole(t.roles, org, OWNER).value);
    }
  }

  lemma AcceptanceKeeps(s: State, caller: Id, invitation: Id)
    requires Inv(s)
    ensures Inv(AcceptInvitation(s, caller, invitation).0)
  {
    var (t, outcome) := AcceptInvitation(s, caller, invitation);
    if outcome.Done? {
      assert InvitationOk(s, invitation);
      forall r ensures RoleOk(t, r) { assert RoleOk(s, r); }
      forall o | o in t.orgs ensures HasBuiltIns(t.roles, o) { assert HasBuiltIns(s.roles, o); }
      forall k ensures SeatOk(t, k) { assert SeatOk(s, k); }
      forall o ensures OwnerOk(t, o) { assert OwnerOk(s, o); }
      forall i ensures InvitationOk(t, i) { assert InvitationOk(s, i); }
    }
  }

  lemma InvitationsMove(s: State, t: State)
    requires Inv(s) && t == s.(invitations := t.invitations) && InvitationsOk(t)
    ensures Inv(t)
  {
    forall r ensures RoleOk(t, r) { assert RoleOk(s, r); }
    forall o | o in t.orgs ensures HasBuiltIns(t.roles, o) { assert HasBuiltIns(s.roles, o); }
    forall k ensures SeatOk(t, k) { assert SeatOk(s, k); }
    forall o ensures OwnerOk(t, o) { assert OwnerOk(s, o); }
  }

  lemma InvitationKeeps(s: State, caller: Id, org: Id, invitation: Id, email: Option<Email>, role: Id, ttl: nat)
    requires Inv(s) && invitation !in s.invitations
    ensures Inv(CreateInvitation(s, caller, org, invitation, email, role, ttl).0)
  {
    var t := CreateInvitation(s, caller, org, invitation, email, role, ttl).0;
    forall i ensures InvitationOk(t, i) { assert InvitationOk(s, i); }
    InvitationsMove(s, t);
  }

  lemma InviteRevocationKeeps(s: State, caller: Id, org: Id, invitation: Id)
    requires Inv(s)
    ensures Inv(RevokeInvitation(s, caller, org, invitation).0)
  {
    var t := RevokeInvitation(s, caller, org, invitation).0;
    forall i ensures InvitationOk(t, i) { assert InvitationOk(s, i); }
    InvitationsMove(s, t);
  }

  lemma JoinStepKeeps(s: State, a: Action)
    requires Inv(s) && !IsMemberAction(a) && !IsRoleAction(a) && IdsAreFresh(s, a) && CallerExists(s, a)
    ensures Inv(JoinStep(s, a).0)
  {
    var t := JoinStep(s, a).0;
    match a
    case Creation(caller, org, slug, ids) => CreationKeeps(s, caller, org, slug, ids);
    case Acceptance(caller, invitation) => AcceptanceKeeps(s, caller, invitation);
    case Tick(_) =>
      forall k ensures SeatOk(t, k) { assert SeatOk(s, k); }
      SeatMoves(s, t);
    case Registration(_, _) =>
      forall k ensures SeatOk(t, k) { assert SeatOk(s, k); }
      SeatMoves(s, t);
    case Invite(caller, org, invitation, to, role, ttl) => InvitationKeeps(s, caller, org, invitation, to, role, ttl);
    case InviteRevocation(caller, org, invitation) => InviteRevocationKeeps(s, caller, org, invitation);
  }

  lemma PerformKeepsInv(s: State, a: Action)
    requires Inv(s)
    ensures Inv(Perform(s, a).0)
  {
    if CallerExists(s, a) && IdsAreFresh(s, a) {
      if IsMemberAction(a) {
        MemberStepKeeps(s, a);
      } else if IsRoleAction(a) {
        RoleStepKeeps(s, a);
      } else {
        JoinStepKeeps(s, a);
      }
    }
  }

  lemma InitInv()
    ensures Inv(Init)
  {
  }

  lemma {:induction false} ExecKeepsInv(s: State, actions: seq<Action>)
    requires Inv(s)
    ensures Inv(Exec(s, actions))
    decreases |actions|
  {
    if actions != [] {
      ExecKeepsInv(s, actions[..|actions| - 1]);
      PerformKeepsInv(Exec(s, actions[..|actions| - 1]), actions[|actions| - 1]);
    }
  }

  lemma ReachableInv(s: State)
    requires Reachable(s)
    ensures Inv(s)
  {
    InitInv();
    var actions :| s == Exec(Init, actions);
    ExecKeepsInv(Init, actions);
  }

  // ------------------------------------------------------------ consequences

  // In every reachable state exactly one user holds an organization's owner role:
  // the one in its owner column, an active member. Every other role a member
  // holds belongs to the same organization.
  lemma OneOwnerPerOrganization(s: State, org: Id)
    requires Reachable(s) && org in s.orgs
    ensures IsActiveMember(s, (org, s.orgs[org].owner)) && s.orgs[org].owner in s.users
    ensures forall user :: HoldsOwnerRole(s, (org, user)) <==> user == s.orgs[org].owner
    ensures forall user :: (org, user) in s.members ==> RoleOf(s, (org, user)).Some? && RoleOf(s, (org, user)).value.org == Some(org)
  {
    ReachableInv(s);
    assert OwnerOk(s, org) && SeatOk(s, (org, s.orgs[org].owner));
    forall user ensures HoldsOwnerRole(s, (org, user)) ==> user == s.orgs[org].owner { assert SeatOk(s, (org, user)); }
    forall user | (org, user) in s.members
      ensures RoleOf(s, (org, user)).Some? && RoleOf(s, (org, user)).value.org == Some(org)
    { assert SeatOk(s, (org, user)); }
  }

  // An organization always has its four built-in roles, exactly as they were seeded.
  lemma BuiltInRolesNeverChange(s: State, org: Id, name: string)
    requires Reachable(s) && org in s.orgs && name in BUILT_IN
    ensures exists r :: IsOrgRole(s.roles, org, name, r) && s.roles[r] == BuiltInRole(org, name)
                        && forall q :: IsOrgRole(s.roles, org, name, q) ==> q == r
  {
    ReachableInv(s);
    var i :| 0 <= i < |BUILT_IN| && BUILT_IN[i] == name;
    FoundRole(s, org, i);
    var r := FindOrgRole(s.roles, org, name).value;
    forall q | IsOrgRole(s.roles, org, name, q) ensures q == r { assert SameName(s.roles, q, r); }
  }

  // The owner is never locked out of anything.
  lemma OwnerMayDoEverything(s: State, org: Id, permission: Permission)
    requires Reachable(s) && org in s.orgs
    ensures Authorize(s, (org, s.orgs[org].owner), permission) && HasPermission(s, (org, s.orgs[org].owner), permission)
  {
    OneOwnerPerOrganization(s, org);
    assert HoldsOwnerRole(s, (org, s.orgs[org].owner));
  }

  // Products asking about a user get the answer the server itself would act on.
  lemma CheckAgreesWithAuthorize(s: State, token: Option<AccessTokens.Validated>, org: Id, user: Id, permission: Permission)
    requires Reachable(s)
    ensures PermissionCheck(s, token, org, user, permission) == Answered(true) ==> Authorize(s, (org, user), permission)
    ensures PermissionCheck(s, token, org, user, permission) == Answered(false) ==> !Authorize(s, (org, user), permission)
    ensures PermissionCheck(s, token, org, user, permission).Answered? <==>
              token.Some? && !token.value.actor.kind.User? && token.value.org == org && IsValidPermission(permission)
  {
    ReachableInv(s);
    assert SeatOk(s, (org, user));
  }

  // An authorization rests on an active membership and on a role of that very organization.
  lemma AuthorityStaysInsideTheOrganization(s: State, org: Id, user: Id, permission: Permission)
    requires Reachable(s)
    ensures Authorize(s, (org, user), permission) <==>
              && IsActiveMember(s, (org, user)) && user in s.users
              && (exists r :: r in s.roles && s.members[(org, user)].role == Some(r) && s.roles[r].org == Some(org)
                              && (permission in s.roles[r].perms || (s.roles[r].owner && IsOwnerOf(s, org, user))))
  {
    ReachableInv(s);
    assert SeatOk(s, (org, user));
  }

  lemma OtherMemberStepsKeepOwners(s: State, a: Action)
    requires IsMemberAction(a) && !a.Transfer?
    ensures MemberStep(s, a).0.orgs == s.orgs
  {
  }

  lemma RoleStepsKeepOwners(s: State, a: Action)
    requires IsRoleAction(a)
    ensures RoleStep(s, a).0.orgs == s.orgs && RoleStep(s, a).0.members == s.members
  {
  }

  lemma JoinStepsKeepOwners(s: State, a: Action, org: Id)
    requires !IsMemberAction(a) && !IsRoleAction(a) && IdsAreFresh(s, a) && org in s.orgs
    ensures org in JoinStep(s, a).0.orgs && JoinStep(s, a).0.orgs[org] == s.orgs[org]
  {
  }

  lemma OtherStepsKeepOwners(s: State, a: Action, org: Id)
    requires org in s.orgs && !a.Transfer?
    ensures org in Perform(s, a).0.orgs && Perform(s, a).0.orgs[org] == s.orgs[org]
  {
    if CallerExists(s, a) && IdsAreFresh(s, a) {
      if IsMemberAction(a) {
        OtherMemberStepsKeepOwners(s, a);
      } else if IsRoleAction(a) {
        RoleStepsKeepOwners(s, a);
      } else {
        JoinStepsKeepOwners(s, a, org);
      }
    }
  }

  // Exactly when a transfer goes through, and what it then does.
  lemma TransferOutcome(s: State, caller: Id, org: Id, target: Id, reauth: bool)
    requires Reachable(s)
    ensures var (t, outcome) := TransferOwnership(s, caller, org, target, reauth);
            && (outcome.Done? <==> reauth && IsOwnerOf(s, org, caller) && target != caller && IsActiveMember(s, (org, target)))
            && (outcome.Done? ==>
                  && t.orgs == s.orgs[org := s.orgs[org].(owner := target)]
                  && HoldsOwnerRole(t, (org, target)) && !HoldsOwnerRole(t, (org, caller))
                  && RoleOf(t, (org, caller)) == Some(BuiltInRole(org, ADMINISTRATOR)))
            && (!outcome.Done? ==> t == s)
            && outcome != Refused(Internal)
  {
    ReachableInv(s);
    assert SeatOk(s, (org, caller)) && OwnerOk(s, org);
    if org in s.orgs {
      OneOwnerPerOrganization(s, org);
      FoundRole(s, org, 0);
      FoundRole(s, org, 1);
    }
  }

  // Ownership moves only when the current owner hands it to another active
  // member, who then holds the owner role; the old owner stays as Administrator.
  lemma OwnershipMovesOnlyByTransfer(s: State, a: Action, org: Id)
    requires Reachable(s) && org in s.orgs
    ensures org in Perform(s, a).0.orgs
    ensures Perform(s, a).0.orgs[org].owner != s.orgs[org].owner <==>
              && a.Transfer? && a.org == org && a.caller == s.orgs[org].owner && a.reauth
              && a.target != a.caller && IsActiveMember(s, (org, a.target))
    ensures Perform(s, a).0.orgs[org].owner != s.orgs[org].owner ==>
              && Perform(s, a).0.orgs[org].owner == a.target && HoldsOwnerRole(Perform(s, a).0, (org, a.target))
              && RoleOf(Perform(s, a).0, (org, a.caller)) == Some(BuiltInRole(org, ADMINISTRATOR))
  {
    if a.Transfer? {
      OneOwnerPerOrganization(s, org);
      TransferOutcome(s, a.caller, a.org, a.target, a.reauth);
      assert a.caller in s.users ==> Perform(s, a) == TransferOwnership(s, a.caller, a.org, a.target, a.reauth);
    } else {
      OtherStepsKeepOwners(s, a, org);
    }
  }

  ghost predicate OwnerSeatKept(s: State, t: State, org: Id)
    requires org in s.orgs
  {
    var seat := (org, s.orgs[org].owner);
    seat in t.members && seat in s.members && t.members[seat] == s.members[seat]
  }

  // Short of a transfer no step of anybody, the owner included, touches the owner's membership.
  lemma OwnerSeatIsUntouchable(s: State, a: Action, org: Id)
    requires Reachable(s) && org in s.orgs
    requires !(a.Transfer? && a.org == org && Perform(s, a).1.Done?)
    ensures OwnerSeatKept(s, Perform(s, a).0, org)
  {
    OneOwnerPerOrganization(s, org);
    if CallerExists(s, a) && IdsAreFresh(s, a) {
      if IsMemberAction(a) {
        MemberStepsKeepOwnerSeat(s, a, org);
      } else if IsRoleAction(a) {
        RoleStepsKeepOwners(s, a);
      } else {
        JoinStepsKeepOwnerSeat(s, a, org);
      }
    }
  }

  lemma MemberStepsKeepOwnerSeat(s: State, a: Action, org: Id)
    requires IsMemberAction(a) && org in s.orgs && (org, s.orgs[org].owner) in s.members
    requires !(a.Transfer? && a.org == org && MemberStep(s, a).1.Done?)
    ensures OwnerSeatKept(s, MemberStep(s, a).0, org)
  {
  }

  lemma JoinStepsKeepOwnerSeat(s: State, a: Action, org: Id)
    requires !IsMemberAction(a) && !IsRoleAction(a) && IdsAreFresh(s, a)
    requires org in s.orgs && (org, s.orgs[org].owner) in s.members
    ensures OwnerSeatKept(s, JoinStep(s, a).0, org)
  {
  }

  // The role an invitation offers outlives it, so accepting never falls back to Member.
  lemma AcceptanceGivesTheOfferedRole(s: State, caller: Id, invitation: Id)
    requires Reachable(s) && AcceptInvitation(s, caller, invitation).1.Done?
    ensures caller in s.users && s.invitations[invitation].email == s.users[caller]
    ensures var i := s.invitations[invitation];
            && (i.org, caller) !in s.members && !i.accepted && !i.revoked && s.now <= i.expiresAt
            && AcceptInvitation(s, caller, invitation).0.members == s.members[(i.org, caller) := Member(i.role, Active)]
            && i.role.Some? && Assignable(s, i.org, i.role.value)
            && AcceptInvitation(s, caller, invitation).0.invitations[invitation].accepted
  {
    ReachableInv(s);
    assert InvitationOk(s, invitation);
  }

  predicate TokensRevoked(s: State, t: State, org: Id, user: Id) {
    t.revocations == s.revocations + [Revocation(user, Some(org))] || t.revocations == s.revocations + [Revocation(user, None)]
  }

  // A user who stops being an active member has the tokens of that organization revoked in the same step.
  lemma LeavingRevokesTokens(s: State, a: Action, org: Id, user: Id)
    requires IsActiveMember(s, (org, user)) && !IsActiveMember(Perform(s, a).0, (org, user))
    ensures TokensRevoked(s, Perform(s, a).0, org, user)
  {
    assert CallerExists(s, a) && IdsAreFresh(s, a);
    if IsMemberAction(a) {
      LeavingByMemberStep(s, a, org, user);
    } else if IsRoleAction(a) {
      RoleStepsKeepOwners(s, a);
      assert false;
    } else {
      JoinStepsKeepActive(s, a, org, user);
      assert false;
    }
  }

  lemma LeavingByMemberStep(s: State, a: Action, org: Id, user: Id)
    requires IsMemberAction(a) && IsActiveMember(s, (org, user)) && !IsActiveMember(MemberStep(s, a).0, (org, user))
    ensures TokensRevoked(s, MemberStep(s, a).0, org, user)
  {
  }

  lemma JoinStepsKeepActive(s: State, a: Action, org: Id, user: Id)
    requires !IsMemberAction(a) && !IsRoleAction(a) && IdsAreFresh(s, a) && IsActiveMember(s, (org, user))
    ensures IsActiveMember(JoinStep(s, a).0, (org, user))
  {
  }

  // Leaving an organization takes the permission to remove members, which the
  // built-in Member and Viewer roles lack: their holders cannot leave.
  lemma LeavingNeedsPermission(s: State, org: Id, user: Id, reauth: bool)
    requires Reachable(s)
    ensures RemoveMember(s, user, org, user, reauth).1.Done? <==>
              HasPermission(s, (org, user), MEMBERS_REMOVE) && !IsOwnerOf(s, org, user)
    ensures RoleOf(s, (org, user)).Some? && RoleOf(s, (org, user)).value.name in {MEMBER, VIEWER} ==>
              RemoveMember(s, user, org, user, reauth) == (s, Refused(Forbidden))
  {
    ReachableInv(s);
    assert SeatOk(s, (org, user));
    var seat := (org, user);
    if RoleOf(s, seat).Some? && RoleOf(s, seat).value.name in {MEMBER, VIEWER} {
      assert RoleOk(s, s.members[seat].role.value);
      BuiltInsCannotRemove();
    }
  }

  lemma BuiltInsCannotRemove()
    ensures MEMBERS_REMOVE !in PermsOf(MEMBER) && MEMBERS_REMOVE !in PermsOf(VIEWER) && MEMBER != OWNER && VIEWER != OWNER
    ensures MEMBER in BUILT_IN && VIEWER in BUILT_IN
  {
    assert |MEMBERS_REMOVE| == 18;
    assert MEMBERS_REMOVE[17] == 'e' && MEMBERS_REMOVE[12] == 'r' && MEMBERS_REMOVE[13] == 'e' && MEMBERS_REMOVE[14] == 'm';
    assert BUILT_IN[2] == MEMBER && BUILT_IN[3] == VIEWER;
  }

  lemma ReachStep(s: State, a: Action)
    requires Reachable(s)
    ensures Reachable(Perform(s, a).0)
  {
    var actions :| s == Exec(Init, actions);
    assert (actions + [a])[..|actions|] == actions;
    assert Exec(Init, actions + [a]) == Perform(s, a).0;
  }

  ghost predicate CannotLeave(s: State, org: Id, user: Id) {
    IsActiveMember(s, (org, user)) && !IsOwnerOf(s, org, user) && RemoveMember(s, user, org, user, true) == (s, Refused(Forbidden))
  }

  lemma CreationSucceeds(s: State, caller: Id, org: Id, slug: string, ids: seq<Id>) returns (t: State)
    requires Reachable(s) && caller in s.users && org !in s.orgs && !SlugTaken(s, slug) && FreshIds(s.roles, ids)
    ensures Reachable(t) && t.now == s.now && t.users == s.users && t.invitations == s.invitations
    ensures t.orgs == s.orgs[org := Org(slug, caller)] && forall k :: k in t.members ==> k in s.members || k == (org, caller)
    ensures ids[2] in t.roles && t.roles[ids[2]] == BuiltInRole(org, MEMBER)
  {
    var a := Creation(caller, org, Some(slug), ids);
    ReachStep(s, a);
    t := Perform(s, a).0;
    assert Perform(s, a) == CreateOrg(s, caller, org, Some(slug), ids);
    ReachableInv(s);
    NewOrgIsSeeded(s, org, ids);
    SeededRow(s.roles, org, ids, |BUILT_IN|, 2);
    SeededHasBuiltIns(s.roles, org, ids, org);
    assert HasOrgRole(Seeded(s.roles, org, ids, |BUILT_IN|), org, BUILT_IN[0]);
  }

  lemma InviteSucceeds(s: State, caller: Id, org: Id, invitation: Id, email: Email, role: Id) returns (t: State)
    requires Reachable(s) && caller in s.users && IsOwnerOf(s, org, caller) && Assignable(s, org, role)
    requires invitation !in s.invitations && !EmailIsMember(s, org, email)
    ensures Reachable(t) && t == s.(invitations := s.invitations[invitation := Invitation(org, email, Some(role), s.now, false, false)])
  {
    var a := Invite(caller, org, invitation, Some(email), role, 0);
    OwnerMayDoEverything(s, org, MEMBERS_INVITE);
    ReachStep(s, a);
    t := Perform(s, a).0;
    assert Perform(s, a) == CreateInvitation(s, caller, org, invitation, Some(email), role, 0);
  }

  lemma AcceptanceSucceeds(s: State, caller: Id, invitation: Id) returns (t: State)
    requires Reachable(s) && caller in s.users && invitation in s.invitations
    requires var i := s.invitations[invitation];
             !i.accepted && !i.revoked && i.expiresAt == s.now && i.email == s.users[caller] && (i.org, caller) !in s.members
    ensures Reachable(t) && t.orgs == s.orgs && t.roles == s.roles
    ensures var i := s.invitations[invitation]; t.members == s.members[(i.org, caller) := Member(i.role, Active)]
  {
    var a := Acceptance(caller, invitation);
    var i := s.invitations[invitation];
    assert i.org in s.orgs && i.role.Some? && Assignable(s, i.org, i.role.value) by {
      ReachableInv(s);
      assert InvitationOk(s, invitation) && RoleOk(s, i.role.value);
    }
    ReachStep(s, a);
    t := Perform(s, a).0;
    assert Perform(s, a) == AcceptInvitation(s, caller, invitation);
  }

  lemma RegistrationSucceeds(s: State, user: Id, email: Email)
    requires user !in s.users && forall u :: u in s.users ==> s.users[u] != email
    ensures Perform(s, Registration(user, email)).0 == s.(users := s.users[user := email])
  {
    assert Perform(s, Registration(user, email)) == AddUser(s, user, email);
  }

  lemma TwoUsers()
    ensures Reachable(Init.(users := map[1 := "ann", 2 := "bob"]))
  {
    assert Exec(Init, []) == Init && "ann"[0] != "bob"[0];
    RegistrationSucceeds(Init, 1, "ann");
    ReachStep(Init, Registration(1, "ann"));
    var one := Perform(Init, Registration(1, "ann")).0;
    RegistrationSucceeds(one, 2, "bob");
    ReachStep(one, Registration(2, "bob"));
    assert one.users[2 := "bob"] == map[1 := "ann", 2 := "bob"];
  }

  // An invited member who accepts cannot leave again.
  lemma SomeMemberCannotLeave()
    ensures exists s, org, user :: Reachable(s) && CannotLeave(s, org, user)
  {
    var two := Init.(users := map[1 := "ann", 2 := "bob"]);
    TwoUsers();
    assert "ann"[0] != "bob"[0];
    var created := CreationSucceeds(two, 1, 10, "org", [21, 22, 23, 24]);
    BuiltInsCannotRemove();
    assert !EmailIsMember(created, 10, "bob");
    var invited := InviteSucceeds(created, 1, 10, 30, "bob", 23);
    assert (10, 2) !in invited.members;
    var joined := AcceptanceSucceeds(invited, 2, 30);
    LeavingNeedsPermission(joined, 10, 2, true);
    assert Reachable(joined) && CannotLeave(joined, 10, 2);
  }
}

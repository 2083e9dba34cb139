// Organizations, memberships, roles and invitations: what each handler does to
// the tables, as one step.

module Orgs {
  import opened Common
  import opened Scopes
  import AccessTokens

  type Email = string

  type Permission = string

  const OVERVIEW_READ := "org.overview.read"
  const MEMBERS_READ := "org.members.read"
  const MEMBERS_MANAGE := "org.members.manage"
  const MEMBERS_INVITE := "org.members.invite"
  const MEMBERS_SUSPEND := "org.members.suspend"
  const MEMBERS_REMOVE := "org.members.remove"
  const TEAMS_READ := "org.teams.read"
  const TEAMS_MANAGE := "org.teams.manage"
  const ROLES_READ := "org.roles.read"
  const ROLES_MANAGE := "org.roles.manage"
  const APPS_READ := "org.apps.read"
  const APPS_MANAGE := "org.apps.manage"
  const SERVICE_ACCOUNTS_READ := "org.service-accounts.read"
  const SERVICE_ACCOUNTS_MANAGE := "org.service-accounts.manage"
  const DEVICES_READ := "org.devices.read"
  const DEVICES_MANAGE := "org.devices.manage"
  const AUDIT_READ := "org.audit.read"
  const SETTINGS_READ := "org.settings.read"
  const SETTINGS_MANAGE := "org.settings.manage"

  const MEMBER_PERMS: set<Permission> :=
    {OVERVIEW_READ, MEMBERS_READ, TEAMS_READ, ROLES_READ, APPS_READ, SETTINGS_READ}

  const VIEWER_PERMS: set<Permission> :=
    MEMBER_PERMS + {SERVICE_ACCOUNTS_READ, DEVICES_READ, AUDIT_READ}

  const ADMIN_PERMS: set<Permission> :=
    VIEWER_PERMS + {MEMBERS_MANAGE, MEMBERS_INVITE, MEMBERS_SUSPEND, MEMBERS_REMOVE, TEAMS_MANAGE, ROLES_MANAGE,
                    APPS_MANAGE, SERVICE_ACCOUNTS_MANAGE, DEVICES_MANAGE, SETTINGS_MANAGE}

  const OWNER := "Owner"
  const ADMINISTRATOR := "Administrator"
  const MEMBER := "Member"
  const VIEWER := "Viewer"

  const BUILT_IN: seq<string> := [OWNER, ADMINISTRATOR, MEMBER, VIEWER]

  datatype Org = Org(slug: string, owner: Id)

  // A role without an organization is a template.
  datatype Role = Role(org: Option<Id>, name: string, system: bool, owner: bool, perms: set<Permission>)

  datatype Status = Active | Suspended

  datatype Member = Member(role: Option<Id>, status: Status)

  datatype Invitation = Invitation(org: Id, email: Email, role: Option<Id>, expiresAt: Time, accepted: bool, revoked: bool)

  // A call of `revoke_user_tokens`.
  datatype Revocation = Revocation(user: Id, within: Option<Id>)

  // An organization and one of its users.
  type Seat = (Id, Id)

  datatype State = State(
    now: nat,
    users: map<Id, Email>,
    orgs: map<Id, Org>,
    roles: map<Id, Role>,
    members: map<Seat, Member>,
    invitations: map<Id, Invitation>,
    machines: map<Id, Id>,  // service accounts with a role, and that role
    revocations: seq<Revocation>)

  datatype ApiError =
    | Unauthorized | Forbidden | ReauthRequired | Validation | Conflict | NotFound | Gone | TokenInvalid | Internal

  datatype Outcome = Done | Refused(error: ApiError)

  // ------------------------------------------------------------ authorization

  function PermsOf(name: string): set<Permission> {
    if name == ADMINISTRATOR then ADMIN_PERMS
    else if name == MEMBER then MEMBER_PERMS
    else if name == VIEWER then VIEWER_PERMS
    else {}
  }

  function BuiltInRole(org: Id, name: string): Role {
    Role(Some(org), name, true, name == OWNER, PermsOf(name))
  }

  // The role of a seat, as the left join of a membership with the roles finds it.
  function RoleOf(s: State, seat: Seat): Option<Role> {
    if seat in s.members && s.members[seat].role.Some? && s.members[seat].role.value in s.roles
    then Some(s.roles[s.members[seat].role.value]) else None
  }

  predicate HoldsOwnerRole(s: State, seat: Seat) {
    RoleOf(s, seat).Some? && RoleOf(s, seat).value.owner
  }

  predicate IsActiveMember(s: State, seat: Seat) {
    seat in s.members && s.members[seat].status == Active
  }

  predicate HasPermission(s: State, seat: Seat, permission: Permission) {
    && IsActiveMember(s, seat) && RoleOf(s, seat).Some?
    && (RoleOf(s, seat).value.owner || permission in RoleOf(s, seat).value.perms)
  }

  datatype Principal = Principal(user: Id, org: Id, owner: bool, status: Status)

  function LoadPrincipal(s: State, seat: Seat): Option<Principal> {
    if seat in s.members && seat.0 in s.orgs
    then Some(Principal(seat.1, seat.0, HoldsOwnerRole(s, seat), s.members[seat].status)) else None
  }

  predicate Authorize(s: State, seat: Seat, permission: Permission) {
    var principal := LoadPrincipal(s, seat);
    principal.Some? && principal.value.status == Active && (principal.value.owner || HasPermission(s, seat, permission))
  }

  predicate IsOwnerOf(s: State, org: Id, user: Id) {
    org in s.orgs && s.orgs[org].owner == user
  }

  // ------------------------------------------------------------------- roles

  predicate IsOrgRole(roles: map<Id, Role>, org: Id, name: string, role: Id) {
    role in roles && roles[role].org == Some(org) && roles[role].name == name
  }

  ghost predicate HasOrgRole(roles: map<Id, Role>, org: Id, name: string) {
    exists role :: IsOrgRole(roles, org, name, role)
  }

  ghost function FindOrgRole(roles: map<Id, Role>, org: Id, name: string): (found: Option<Id>)
    ensures found.Some? <==> HasOrgRole(roles, org, name)
    ensures found.Some? ==> IsOrgRole(roles, org, name, found.value)
  {
    if HasOrgRole(roles, org, name) then var role :| IsOrgRole(roles, org, name, role); Some(role) else None
  }

  // A role of this organization that may be handed out.
  predicate Assignable(s: State, org: Id, role: Id) {
    role in s.roles && s.roles[role].org == Some(org) && !s.roles[role].owner
  }

  // Identifiers for the four built-in roles.
  predicate FreshIds(roles: map<Id, Role>, ids: seq<Id>) {
    && |ids| == |BUILT_IN|
    && (forall i :: 0 <= i < |ids| ==> ids[i] !in roles)
    && (forall i, j :: 0 <= i < j < |ids| ==> ids[i] != ids[j])
  }

  function Seeded(roles: map<Id, Role>, org: Id, ids: seq<Id>, n: nat): map<Id, Role>
    requires n <= |BUILT_IN| == |ids|
  {
    if n == 0 then roles else Seeded(roles, org, ids, n - 1)[ids[n - 1] := BuiltInRole(org, BUILT_IN[n - 1])]
  }

  ghost function SeedOrgRoles(roles: map<Id, Role>, org: Id, ids: seq<Id>): map<Id, Role>
    requires |ids| == |BUILT_IN|
  {
    if exists r :: r in roles && roles[r].org == Some(org) then roles else Seeded(roles, org, ids, |BUILT_IN|)
  }

  function TrimLeft(text: string): string {
    if text != "" && IsWhitespace(text[0]) then TrimLeft(text[1..]) else text
  }

  function TrimRight(text: string): string {
    if text != "" && IsWhitespace(text[|text| - 1]) then TrimRight(text[..|text| - 1]) else text
  }

  function Trim(text: string): string {
    TrimRight(TrimLeft(text))
  }

  // The name a custom role would get; the names of built-in roles are reserved.
  function ValidateRoleName(text: string): Option<string> {
    var name := Trim(text);
    if name == "" || |name| > 64 || name in BUILT_IN then None else Some(name)
  }

  predicate IsSegment(segment: string) {
    && 1 <= |segment| <= 32 && 'a' <= segment[0] <= 'z'
    && forall i :: 0 <= i < |segment| ==> 'a' <= segment[i] <= 'z' || '0' <= segment[i] <= '9' || segment[i] == '-'
  }

  predicate IsValidPermission(permission: Permission) {
    var segments := SplitAt(permission, '.');
    |segments| >= 3 && forall i :: 0 <= i < |segments| ==> IsSegment(segments[i])
  }

  predicate ValidatePermissions(perms: seq<Permission>) {
    1 <= |perms| <= 200 && forall i :: 0 <= i < |perms| ==> IsValidPermission(perms[i])
  }

  predicate HasDuplicates(perms: seq<Permission>) {
    exists i, j :: 0 <= i < j < |perms| && perms[i] == perms[j]
  }

  function PermSet(perms: seq<Permission>): set<Permission> {
    set i | 0 <= i < |perms| :: perms[i]
  }

  predicate NameTaken(roles: map<Id, Role>, org: Id, name: string, other: Id) {
    exists r :: r in roles && r != other && roles[r].org == Some(org) && roles[r].name == name
  }

  // ---------------------------------------------------------------- handlers

  type Step = (State, Outcome)

  function Refuse(s: State, error: ApiError): Step {
    (s, Refused(error))
  }

  predicate SlugTaken(s: State, slug: string) {
    exists o :: o in s.orgs && s.orgs[o].slug == slug
  }

  // `slug` is None when the name or the slug is malformed.
  ghost function CreateOrg(s: State, caller: Id, org: Id, slug: Option<string>, ids: seq<Id>): Step
    requires |ids| == |BUILT_IN|
  {
    if slug.None? then Refuse(s, Validation)
    else if SlugTaken(s, slug.value) then Refuse(s, Conflict)
    else
      var roles := SeedOrgRoles(s.roles, org, ids);
      var role := FindOrgRole(roles, org, OWNER);
      if role.None? then Refuse(s, Internal)
      else (s.(orgs := s.orgs[org := Org(slug.value, caller)], roles := roles,
               members := s.members[(org, caller) := Member(role, Active)]), Done)
  }

  function AssignRole(members: map<Seat, Member>, seat: Seat, role: Id): map<Seat, Member> {
    if seat in members then members[seat := members[seat].(role := Some(role))] else members
  }

  ghost function TransferOwnership(s: State, caller: Id, org: Id, target: Id, reauth: bool): Step {
    var principal := LoadPrincipal(s, (org, caller));
    if !reauth then Refuse(s, ReauthRequired)
    else if principal.None? || !principal.value.owner then Refuse(s, Forbidden)
    else if target == caller || !IsActiveMember(s, (org, target)) then Refuse(s, Validation)
    else
      var ownerRole := FindOrgRole(s.roles, org, OWNER);
      var adminRole := FindOrgRole(s.roles, org, ADMINISTRATOR);
      if ownerRole.None? || adminRole.None? then Refuse(s, Internal)
      else (s.(members := AssignRole(AssignRole(s.members, (org, caller), adminRole.value), (org, target), ownerRole.value),
               orgs := if org in s.orgs then s.orgs[org := s.orgs[org].(owner := target)] else s.orgs), Done)
  }

  // What forbids the caller to change a membership, if anything does.
  function TargetError(s: State, caller: Id, org: Id, target: Id, permission: Permission, reauth: bool): Option<ApiError> {
    if !Authorize(s, (org, caller), permission) then Some(Forbidden)
    else if !reauth then Some(ReauthRequired)
    else if target == caller || IsOwnerOf(s, org, target) then Some(Validation)
    else None
  }

  function SetMemberRole(s: State, caller: Id, org: Id, target: Id, role: Id, reauth: bool): Step {
    var error := TargetError(s, caller, org, target, MEMBERS_MANAGE, reauth);
    if error.Some? then Refuse(s, error.value)
    else if role !in s.roles then Refuse(s, Validation)
    else if s.roles[role].org.None? then Refuse(s, Internal)  // a template's NULL organization does not decode
    else if s.roles[role].org != Some(org) || s.roles[role].owner then Refuse(s, Validation)
    else if !IsActiveMember(s, (org, target)) then Refuse(s, NotFound)
    else (s.(members := AssignRole(s.members, (org, target), role)), Done)
  }

  function UpdateMemberStatus(s: State, caller: Id, org: Id, target: Id, status: Status, reauth: bool): Step {
    var error := TargetError(s, caller, org, target, MEMBERS_SUSPEND, reauth);
    var seat := (org, target);
    if error.Some? then Refuse(s, error.value)
    else if seat !in s.members || s.members[seat].status == status then Refuse(s, NotFound)
    else (s.(members := s.members[seat := s.members[seat].(status := status)],
             revocations := if status == Suspended then s.revocations + [Revocation(target, Some(org))]
                            else s.revocations), Done)
  }

  function RemoveMember(s: State, caller: Id, org: Id, target: Id, reauth: bool): Step {
    if !Authorize(s, (org, caller), MEMBERS_REMOVE) then Refuse(s, Forbidden)
    else if target != caller && !reauth then Refuse(s, ReauthRequired)
    else if IsOwnerOf(s, org, target) then Refuse(s, Validation)
    else if (org, target) !in s.members then Refuse(s, NotFound)
    else (s.(members := s.members - {(org, target)},
             revocations := s.revocations + [Revocation(target, Some(org))]), Done)
  }

  predicate EmailIsMember(s: State, org: Id, email: Email) {
    exists k :: k in s.members && k.0 == org && k.1 in s.users && s.users[k.1] == email
  }

  // What forbids an invitation, if anything does; `email` is None when the address is malformed.
  function InviteError(s: State, caller: Id, org: Id, email: Option<Email>, role: Id): (error: Option<ApiError>)
    ensures error.None? ==> email.Some?
  {
    if !Authorize(s, (org, caller), MEMBERS_INVITE) then Some(Forbidden)
    else if email.None? || !Assignable(s, org, role) then Some(Validation)
    else if EmailIsMember(s, org, email.value) then Some(Conflict)
    else None
  }

  function CreateInvitation(s: State, caller: Id, org: Id, invitation: Id, email: Option<Email>, role: Id, ttl: nat): Step {
    var error := InviteError(s, caller, org, email, role);
    if error.Some? then Refuse(s, error.value)
    else (s.(invitations := s.invitations[invitation := Invitation(org, email.value, Some(role), s.now + ttl, false, false)]), Done)
  }

  function RevokeInvitation(s: State, caller: Id, org: Id, invitation: Id): Step {
    if !Authorize(s, (org, caller), MEMBERS_MANAGE) then Refuse(s, Forbidden)
    else if invitation !in s.invitations || s.invitations[invitation].org != org
            || s.invitations[invitation].accepted || s.invitations[invitation].revoked then Refuse(s, NotFound)
    else (s.(invitations := s.invitations[invitation := s.invitations[invitation].(revoked := true)]), Done)
  }

  ghost function AcceptInvitation(s: State, caller: Id, invitation: Id): Step {
    if invitation !in s.invitations || s.invitations[invitation].org !in s.orgs then Refuse(s, TokenInvalid)
    else
      var i := s.invitations[invitation];
      if i.accepted || i.revoked || i.expiresAt < s.now then Refuse(s, Gone)
      else if caller !in s.users || i.email != s.users[caller] then Refuse(s, Forbidden)
      else
        var role := if i.role.Some? && Assignable(s, i.org, i.role.value) then i.role else FindOrgRole(s.roles, i.org, MEMBER);
        if (i.org, caller) in s.members then Refuse(s, Conflict)
        else (s.(members := s.members[(i.org, caller) := Member(role, Active)],
                 invitations := s.invitations[invitation := i.(accepted := true)]), Done)
  }

  function CreateRole(s: State, caller: Id, org: Id, role: Id, name: string, perms: seq<Permission>): Step {
    var valid := ValidateRoleName(name);
    if !Authorize(s, (org, caller), ROLES_MANAGE) then Refuse(s, Forbidden)
    else if valid.None? || !ValidatePermissions(perms) then Refuse(s, Validation)
    else if NameTaken(s.roles, org, valid.value, role) then Refuse(s, Conflict)
    else if HasDuplicates(perms) then Refuse(s, Internal)  // the primary key of role_permissions
    else (s.(roles := s.roles[role := Role(Some(org), valid.value, false, false, PermSet(perms))]), Done)
  }

  // The refusal of a role update's transaction, which then leaves no trace.
  function UpdateError(s: State, org: Id, role: Id, name: Option<string>, perms: Option<seq<Permission>>): Option<ApiError> {
    if name.Some? && ValidateRoleName(name.value).None? then Some(Validation)
    else if name.Some? && NameTaken(s.roles, org, ValidateRoleName(name.value).value, role) then Some(Conflict)
    else if perms.Some? && !ValidatePermissions(perms.value) then Some(Validation)
    else if perms.Some? && HasDuplicates(perms.value) then Some(Internal)
    else None
  }

  // What keeps a custom role of this organization from being edited or deleted.
  function CustomRoleError(s: State, org: Id, role: Id): Option<ApiError> {
    if role !in s.roles || s.roles[role].org != Some(org) then Some(NotFound)
    else if s.roles[role].system || s.roles[role].owner then Some(Validation)
    else None
  }

  function UpdateRole(s: State, caller: Id, org: Id, role: Id, name: Option<string>, perms: Option<seq<Permission>>,
                      reauth: bool): Step
  {
    if !Authorize(s, (org, caller), ROLES_MANAGE) then Refuse(s, Forbidden)
    else if !reauth then Refuse(s, ReauthRequired)
    else if CustomRoleError(s, org, role).Some? then Refuse(s, CustomRoleError(s, org, role).value)
    else if UpdateError(s, org, role, name, perms).Some? then Refuse(s, UpdateError(s, org, role, name, perms).value)
    else
      var row := s.roles[role];
      var renamed := if name.Some? && ValidateRoleName(name.value).Some? then ValidateRoleName(name.value).value else row.name;
      (s.(roles := s.roles[role := row.(name := renamed,
                                        perms := if perms.Some? then PermSet(perms.value) else row.perms)]), Done)
  }

  predicate RoleHeld(s: State, role: Id) {
    || (exists k :: k in s.members && s.members[k].role == Some(role))
    || (exists m :: m in s.machines && s.machines[m] == role)
  }

  // The foreign key of the invitations blocks the deletion too, as a database error.
  predicate RoleInvited(s: State, role: Id) {
    exists i :: i in s.invitations && s.invitations[i].role == Some(role)
  }

  function DeleteRole(s: State, caller: Id, org: Id, role: Id, reauth: bool): Step {
    if !reauth then Refuse(s, ReauthRequired)
    else if !Authorize(s, (org, caller), ROLES_MANAGE) then Refuse(s, Forbidden)
    else if CustomRoleError(s, org, role).Some? then Refuse(s, CustomRoleError(s, org, role).value)
    else if RoleHeld(s, role) then Refuse(s, Conflict)
    else if RoleInvited(s, role) then Refuse(s, Internal)
    else (s.(roles := s.roles - {role}), Done)
  }

  // Deleting a user row takes its memberships along.
  function DeleteAccount(s: State, caller: Id, reauth: bool): Step {
    if !reauth then Refuse(s, ReauthRequired)
    else if exists o :: o in s.orgs && s.orgs[o].owner == caller then Refuse(s, Conflict)
    else (s.(users := s.users - {caller},
             members := map k | k in s.members && k.1 != caller :: s.members[k],
             revocations := s.revocations + [Revocation(caller, None)]), Done)
  }

  // A service account is given a role of its organization.
  function AssignMachine(s: State, caller: Id, org: Id, machine: Id, role: Id): Step {
    if !Authorize(s, (org, caller), SERVICE_ACCOUNTS_MANAGE) then Refuse(s, Forbidden)
    else if !Assignable(s, org, role) then Refuse(s, Validation)
    else (s.(machines := s.machines[machine := role]), Done)
  }

  datatype Answer = Answered(allowed: bool) | Rejected(error: ApiError)

  // The permission check offered to products, behind a bearer token.
  function PermissionCheck(s: State, token: Option<AccessTokens.Validated>, org: Id, user: Id, permission: Permission): Answer {
    if token.None? then Rejected(Unauthorized)
    else if token.value.actor.kind.User? || token.value.org != org then Rejected(Forbidden)
    else if !IsValidPermission(permission) then Rejected(Validation)
    else Answered(IsActiveMember(s, (org, user)) && HasPermission(s, (org, user), permission))
  }

  // ------------------------------------------------------------------- runs

  // Four templates outside every organization are there from the start.
  const Init := State(0, map[], map[],
                      map[1 := Role(None, OWNER, true, true, {}), 2 := Role(None, ADMINISTRATOR, true, false, {}),
                          3 := Role(None, MEMBER, true, false, {}), 4 := Role(None, VIEWER, true, false, {})],
                      map[], map[], map[], [])

  datatype Action =
    | Tick(elapsed: nat)
    | Registration(user: Id, email: Email)
    | Creation(caller: Id, org: Id, slug: Option<string>, ids: seq<Id>)
    | Transfer(caller: Id, org: Id, target: Id, reauth: bool)
    | Assignment(caller: Id, org: Id, target: Id, role: Id, reauth: bool)
    | StatusChange(caller: Id, org: Id, target: Id, status: Status, reauth: bool)
    | Removal(caller: Id, org: Id, target: Id, reauth: bool)
    | Invite(caller: Id, org: Id, invitation: Id, to: Option<Email>, role: Id, ttl: nat)
    | InviteRevocation(caller: Id, org: Id, invitation: Id)
    | Acceptance(caller: Id, invitation: Id)
    | RoleCreation(caller: Id, org: Id, role: Id, name: string, perms: seq<Permission>)
    | RoleUpdate(caller: Id, org: Id, role: Id, newName: Option<string>, newPerms: Option<seq<Permission>>, reauth: bool)
    | RoleDeletion(caller: Id, org: Id, role: Id, reauth: bool)
    | AccountDeletion(caller: Id, reauth: bool)
    | MachineAssignment(caller: Id, org: Id, machine: Id, role: Id)
    | MachineRemoval(machine: Id)

  ghost function AddUser(s: State, user: Id, email: Email): Step {
    if user in s.users || exists u :: u in s.users && s.users[u] == email then Refuse(s, Conflict)
    else (s.(users := s.users[user := email]), Done)
  }

  // New rows get identifiers that are not in use.
  predicate IdsAreFresh(s: State, a: Action) {
    match a
    case Creation(_, org, _, ids) => org !in s.orgs && FreshIds(s.roles, ids)
    case Invite(_, _, invitation, _, _, _) => invitation !in s.invitations
    case RoleCreation(_, _, role, _, _) => role !in s.roles
    case _ => true
  }

  predicate CallerExists(s: State, a: Action) {
    a.Tick? || a.Registration? || a.MachineRemoval? || a.caller in s.users
  }

  ghost function MemberStep(s: State, a: Action): Step
    requires a.Transfer? || a.Assignment? || a.StatusChange? || a.Removal? || a.AccountDeletion?
  {
    match a
    case Transfer(caller, org, target, reauth) => TransferOwnership(s, caller, org, target, reauth)
    case Assignment(caller, org, target, role, reauth) => SetMemberRole(s, caller, org, target, role, reauth)
    case StatusChange(caller, org, target, status, reauth) => UpdateMemberStatus(s, caller, org, target, status, reauth)
    case Removal(caller, org, target, reauth) => RemoveMember(s, caller, org, target, reauth)
    case AccountDeletion(caller, reauth) => DeleteAccount(s, caller, reauth)
  }

  ghost function RoleStep(s: State, a: Action): Step
    requires a.RoleCreation? || a.RoleUpdate? || a.RoleDeletion? || a.MachineAssignment? || a.MachineRemoval?
  {
    match a
    case RoleCreation(caller, org, role, name, perms) => CreateRole(s, caller, org, role, name, perms)
    case RoleUpdate(caller, org, role, name, perms, reauth) => UpdateRole(s, caller, org, role, name, perms, reauth)
    case RoleDeletion(caller, org, role, reauth) => DeleteRole(s, caller, org, role, reauth)
    case MachineAssignment(caller, org, machine, role) => AssignMachine(s, caller, org, machine, role)
    case MachineRemoval(machine) => (s.(machines := s.machines - {machine}), Done)
  }

  ghost function JoinStep(s: State, a: Action): Step
    requires a.Tick? || a.Registration? || a.Creation? || a.Invite? || a.InviteRevocation? || a.Acceptance?
    requires IdsAreFresh(s, a)
  {
    match a
    case Tick(elapsed) => (s.(now := s.now + elapsed), Done)
    case Registration(user, email) => AddUser(s, user, email)
    case Creation(caller, org, slug, ids) => CreateOrg(s, caller, org, slug, ids)
    case Invite(caller, org, invitation, to, role, ttl) => CreateInvitation(s, caller, org, invitation, to, role, ttl)
    case InviteRevocation(caller, org, invitation) => RevokeInvitation(s, caller, org, invitation)
    case Acceptance(caller, invitation) => AcceptInvitation(s, caller, invitation)
  }

  predicate IsMemberAction(a: Action) {
    a.Transfer? || a.Assignment? || a.StatusChange? || a.Removal? || a.AccountDeletion?
  }

  predicate IsRoleAction(a: Action) {
    a.RoleCreation? || a.RoleUpdate? || a.RoleDeletion? || a.MachineAssignment? || a.MachineRemoval?
  }

  // One handler call by a signed-in user.
  ghost function Perform(s: State, a: Action): Step {
    if !CallerExists(s, a) then Refuse(s, Unauthorized)
    else if !IdsAreFresh(s, a) then Refuse(s, Internal)
    else if IsMemberAction(a) then MemberStep(s, a)
    else if IsRoleAction(a) then RoleStep(s, a)
    else JoinStep(s, a)
  }

  ghost function Exec(s: State, actions: seq<Action>): State {
    if actions == [] then s
    else Perform(Exec(s, actions[..|actions| - 1]), actions[|actions| - 1]).0
  }

  ghost predicate Reachable(s: State) {
    exists actions :: s == Exec(Init, actions)
  }
}

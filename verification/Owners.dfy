/**
 Who owns an organization: memberships, roles and invitations
 (src/modules/organization-users/organization-users.service.ts, src/modules/roles/roles.service.ts,
  src/modules/invitations/invitations.service.ts, src/common/helpers/role-hierarchy.helper.ts).

 Each service call is one step.
 */
module Owners {
  import opened Options

  type Id = nat

  /** A role name is a string: one of the two reserved ones, or any other. */
  datatype Name = OWNER | ADMINISTRATOR | Other(text: string)

  datatype Role = Role(org: Id, name: Name, system: bool)
  datatype Member = Member(user: Id, org: Id, role: Id)
  datatype InvitationStatus = PENDING | ACCEPTED | EXPIRED
  datatype Invitation = Invitation(org: Id, email: string, role: Id, status: InvitationStatus, expiresAt: int)

  /** `orgs` maps an organization to the two role rows it was created with. */
  datatype SystemRoles = SystemRoles(owner: Id, administrator: Id)

  datatype State = State(
    orgs: map<Id, SystemRoles>, roles: map<Id, Role>, members: map<Id, Member>, invitations: map<Id, Invitation>)

  const USER := Other("USER")
  const INVITATION_TTL := 48 * 60 * 60

  // ----- Ranks -----

  function Rank(role: Name): nat {
    if role == OWNER then 3 else if role == ADMINISTRATOR then 2 else 1
  }

  predicate CanModify(actor: Name, target: Name) {
    Rank(actor) > Rank(target)
  }

  predicate CanAssign(actor: Name, newRole: Name) {
    Rank(actor) > Rank(newRole)
  }

  /** The entity's rule: a second OWNER may not be given. */
  predicate CanAssignRole(newRole: Name, ownerCount: nat, current: Option<Name>) {
    newRole != OWNER || current == Some(OWNER) || ownerCount == 0
  }

  // ----- Lookups -----

  function RoleName(s: State, m: Member): Name {
    if m.role in s.roles then s.roles[m.role].name else USER
  }

  predicate IsNamed(s: State, id: Id, org: Id, name: Name) {
    id in s.roles && s.roles[id].org == org && s.roles[id].name == name
  }

  ghost function FindRole(s: State, org: Id, name: Name): (r: Option<Id>)
    ensures r.Some? ==> IsNamed(s, r.value, org, name)
    ensures r.None? ==> forall id :: !IsNamed(s, id, org, name)
  {
    if exists id :: IsNamed(s, id, org, name) then
      var id :| IsNamed(s, id, org, name);
      Some(id)
    else None
  }

  predicate IsMember(s: State, id: Id, user: Id, org: Id) {
    id in s.members && s.members[id].user == user && s.members[id].org == org
  }

  ghost function FindMember(s: State, user: Id, org: Id): (r: Option<Id>)
    ensures r.Some? ==> IsMember(s, r.value, user, org)
    ensures r.None? ==> forall id :: !IsMember(s, id, user, org)
  {
    if exists id :: IsMember(s, id, user, org) then
      var id :| IsMember(s, id, user, org);
      Some(id)
    else None
  }

  function OwnersOf(s: State, org: Id): set<Id> {
    set id | id in s.members && s.members[id].org == org && RoleName(s, s.members[id]) == OWNER
  }

  function MembersOf(s: State, org: Id): set<Id> {
    set id | id in s.members && s.members[id].org == org
  }

  function PendingOf(s: State, org: Id): set<Id> {
    set id | id in s.invitations && s.invitations[id].org == org && s.invitations[id].status == PENDING
  }

  /** assertUserLimitNotExceeded; None is an unlimited plan. */
  predicate LimitExceeded(s: State, org: Id, limit: Option<nat>) {
    limit.Some? && |MembersOf(s, org)| + |PendingOf(s, org)| >= limit.value
  }

  // ----- Service calls -----

  datatype Error = BadRequest | NotFound | Conflict | Forbidden | Failed
  datatype Result = Done(state: State) | Refused(error: Error)

  /** A member row; a second one for the same user and organization is a unique violation. */
  ghost function AddMember(s: State, id: Id, m: Member): Result {
    if FindMember(s, m.user, m.org).Some? then Refused(Failed) else Done(s.(members := s.members[id := m]))
  }

  ghost function CreateMember(s: State, id: Id, user: Id, org: Id, role: Option<Name>, limit: Option<nat>): Result {
    var given := if role.Some? then role.value else USER;
    if FindMember(s, user, org).Some? then Refused(Conflict)
    else if LimitExceeded(s, org, limit) then Refused(BadRequest)
    else if given == OWNER && !CanAssignRole(OWNER, |OwnersOf(s, org)|, None) then Refused(Conflict)
    else
      match FindRole(s, org, given)
      case None => Refused(NotFound)
      case Some(r) => AddMember(s, id, Member(user, org, r))
  }

  /** The rank rules apply to actors who are members; a global administrator need not be one. */
  ghost function ActorRefuses(s: State, actor: Id, target: Member, newRole: Option<Name>): bool {
    match FindMember(s, actor, target.org)
    case None => false
    case Some(a) =>
      var actorRole := RoleName(s, s.members[a]);
      !CanModify(actorRole, RoleName(s, target)) || (newRole.Some? && !CanAssign(actorRole, newRole.value))
  }

  ghost function UpdateMember(s: State, id: Id, newRole: Option<Name>, actor: Id): Result {
    if id !in s.members then Refused(NotFound)
    else
      var m := s.members[id];
      if RoleName(s, m) == OWNER then Refused(Forbidden)
      else if ActorRefuses(s, actor, m, newRole) then Refused(Forbidden)
      else if newRole.None? then Done(s)
      else if !CanAssignRole(newRole.value, |OwnersOf(s, m.org)|, Some(RoleName(s, m))) then Refused(Conflict)
      else
        match FindRole(s, m.org, newRole.value)
        case None => Refused(NotFound)
        case Some(r) => Done(s.(members := s.members[id := m.(role := r)]))
  }

  ghost function RemoveMember(s: State, id: Id, actor: Id): Result {
    if id !in s.members then Refused(NotFound)
    else if RoleName(s, s.members[id]) == OWNER then Refused(Forbidden)
    else if ActorRefuses(s, actor, s.members[id], None) then Refused(Forbidden)
    else Done(s.(members := s.members - {id}))
  }

  function RolesOf(s: State, org: Id): set<Id> {
    set id | id in s.roles && s.roles[id].org == org
  }

  function RoleLimit(plan: string): nat {
    if plan == "BASIC" then 3 else if plan == "PREMIUM" then 5 else 2
  }

  ghost function CreateRole(s: State, id: Id, org: Id, name: Name, plan: string): Result {
    if |RolesOf(s, org)| >= RoleLimit(plan) then Refused(BadRequest)
    else if FindRole(s, org, name).Some? then Refused(Conflict)
    else Done(s.(roles := s.roles[id := Role(org, name, false)]))
  }

  ghost function UpdateRole(s: State, id: Id, org: Id, name: Option<Name>): Result {
    if id !in s.roles || s.roles[id].org != org then Refused(NotFound)
    else if s.roles[id].system then Refused(BadRequest)
    else if name.None? then Done(s)
    else if name.value != s.roles[id].name && FindRole(s, org, name.value).Some? then Refused(Conflict)
    else Done(s.(roles := s.roles[id := s.roles[id].(name := name.value)]))
  }

  /** A role that memberships or invitations still point at cannot be deleted. */
  predicate InUse(s: State, id: Id) {
    (exists m :: m in s.members && s.members[m].role == id) || (exists i :: i in s.invitations && s.invitations[i].role == id)
  }

  function RemoveRole(s: State, id: Id, org: Id): Result {
    if id !in s.roles || s.roles[id].org != org then Refused(NotFound)
    else if s.roles[id].system then Refused(BadRequest)
    else if InUse(s, id) then Refused(Failed)
    else Done(s.(roles := s.roles - {id}))
  }

  predicate Invited(s: State, email: string, org: Id) {
    exists i :: i in s.invitations && s.invitations[i].email == email && s.invitations[i].org == org
                && s.invitations[i].status == PENDING
  }

  ghost function Invite(s: State, token: Id, org: Id, email: string, role: Name, now: int, limit: Option<nat>): Result {
    if role == OWNER then Refused(BadRequest)
    else if LimitExceeded(s, org, limit) then Refused(BadRequest)
    else if Invited(s, email, org) then Refused(Conflict)
    else
      match FindRole(s, org, role)
      case None => Refused(BadRequest)
      case Some(r) => Done(s.(invitations := s.invitations[token := Invitation(org, email, r, PENDING, now + INVITATION_TTL)]))
  }

  function Lower(s: string): string {
    seq(|s|, i requires 0 <= i < |s| => if 'A' <= s[i] <= 'Z' then s[i] + ('a' - 'A') else s[i])
  }

  function SetStatus(s: State, token: Id, status: InvitationStatus): State
    requires token in s.invitations
  {
    s.(invitations := s.invitations[token := s.invitations[token].(status := status)])
  }

  /** acceptInvitation: an expired invitation is marked so even though the call fails. */
  ghost function Accept(s: State, token: Id, id: Id, user: Id, email: string, now: int): (Result, State) {
    if token !in s.invitations then (Refused(NotFound), s)
    else
      var i := s.invitations[token];
      if i.status != PENDING then (Refused(BadRequest), s)
      else if now > i.expiresAt then (Refused(BadRequest), SetStatus(s, token, EXPIRED))
      else if Lower(i.email) != Lower(email) then (Refused(BadRequest), s)
      else if FindMember(s, user, i.org).Some? then (Refused(Conflict), s)
      else
        var t := SetStatus(s.(members := s.members[id := Member(user, i.org, i.role)]), token, ACCEPTED);
        (Done(t), t)
  }

  /** acceptInvitationInTransaction: no duplicate check of its own, and nothing is kept when it fails. */
  ghost function AcceptInTransaction(s: State, token: Id, id: Id, user: Id, email: string, now: int): Result {
    if token !in s.invitations then Refused(NotFound)
    else
      var i := s.invitations[token];
      if i.status != PENDING then Refused(BadRequest)
      else if now > i.expiresAt then Refused(BadRequest)
      else if Lower(i.email) != Lower(email) then Refused(BadRequest)
      else
        match AddMember(s, id, Member(user, i.org, i.role))
        case Refused(e) => Refused(e)
        case Done(t) => Done(SetStatus(t, token, ACCEPTED))
  }

  /** An organization is created with its two system roles and, in self-service, its owner. */
  function Found(s: State, org: Id, ownerRole: Id, adminRole: Id, owner: Option<(Id, Id)>): State {
    var roles := s.roles[ownerRole := Role(org, OWNER, true)][adminRole := Role(org, ADMINISTRATOR, true)];
    s.(orgs := s.orgs[org := SystemRoles(ownerRole, adminRole)], roles := roles,
       members := if owner.Some? then s.members[owner.value.0 := Member(owner.value.1, org, ownerRole)] else s.members)
  }

  // ----- Runs -----

  datatype Event =
    | FoundOrganization(org: Id, ownerRole: Id, adminRole: Id, owner: Option<(Id, Id)>)
    | AddMembership(id: Id, user: Id, org: Id, role: Option<Name>, limit: Option<nat>)
    | ChangeMembership(id: Id, role: Option<Name>, actor: Id)
    | EndMembership(id: Id, actor: Id)
    | AddRole(id: Id, org: Id, name: Name, plan: string)
    | ChangeRole(id: Id, org: Id, newName: Option<Name>)
    | EndRole(id: Id, org: Id)
    | SendInvitation(id: Id, org: Id, email: string, roleName: Name, now: int, limit: Option<nat>)
    | AcceptInvitation(token: Id, id: Id, user: Id, email: string, now: int)
    | AcceptOnRegistration(token: Id, id: Id, user: Id, email: string, now: int)
    | DropInvitation(token: Id)

  function After(s: State, r: Result): State {
    if r.Done? then r.state else s
  }

  /** Ids are fresh uuids; an event that reuses one does nothing. */
  ghost function Step(s: State, e: Event): State {
    match e
    case FoundOrganization(org, o, a, owner) =>
      if org in s.orgs || o in s.roles || a in s.roles || o == a || (owner.Some? && owner.value.0 in s.members) then s
      else Found(s, org, o, a, owner)
    case AddMembership(id, user, org, role, limit) =>
      if id in s.members || org !in s.orgs then s else After(s, CreateMember(s, id, user, org, role, limit))
    case ChangeMembership(id, role, actor) => After(s, UpdateMember(s, id, role, actor))
    case EndMembership(id, actor) => After(s, RemoveMember(s, id, actor))
    case AddRole(id, org, name, plan) => if id in s.roles || org !in s.orgs then s else After(s, CreateRole(s, id, org, name, plan))
    case ChangeRole(id, org, name) => After(s, UpdateRole(s, id, org, name))
    case EndRole(id, org) => After(s, RemoveRole(s, id, org))
    case SendInvitation(id, org, email, role, now, limit) =>
      if id in s.invitations || org !in s.orgs then s else After(s, Invite(s, id, org, email, role, now, limit))
    case AcceptInvitation(token, id, user, email, now) => if id in s.members then s else Accept(s, token, id, user, email, now).1
    case AcceptOnRegistration(token, id, user, email, now) =>
      if id in s.members then s else After(s, AcceptInTransaction(s, token, id, user, email, now))
    case DropInvitation(token) => s.(invitations := s.invitations - {token})
  }

  ghost function Run(s: State, es: seq<Event>): State {
    if |es| == 0 then s else Step(Run(s, es[..|es| - 1]), es[|es| - 1])
  }

  // ----- The invariant -----

  predicate SystemRolesThere(s: State) {
    forall o :: o in s.orgs ==>
      s.orgs[o].owner in s.roles && s.roles[s.orgs[o].owner] == Role(o, OWNER, true)
      && s.orgs[o].administrator in s.roles && s.roles[s.orgs[o].administrator] == Role(o, ADMINISTRATOR, true)
  }

  predicate RolesDistinct(s: State) {
    forall i, j :: i in s.roles && j in s.roles && s.roles[i].org == s.roles[j].org && s.roles[i].name == s.roles[j].name ==> i == j
  }

  predicate RolesPlaced(s: State) {
    forall i :: i in s.roles ==> s.roles[i].org in s.orgs
  }

  predicate MembersPlaced(s: State) {
    forall m :: m in s.members ==> s.members[m].role in s.roles && s.roles[s.members[m].role].org == s.members[m].org
  }

  predicate InvitationsPlaced(s: State) {
    forall i :: i in s.invitations ==>
      s.invitations[i].role in s.roles && s.roles[s.invitations[i].role].org == s.invitations[i].org
      && s.roles[s.invitations[i].role].name != OWNER
  }

  predicate OneOwner(s: State) {
    forall m, n :: (m in s.members && n in s.members && s.members[m].org == s.members[n].org
                    && RoleName(s, s.members[m]) == OWNER && RoleName(s, s.members[n]) == OWNER) ==> m == n
  }

  predicate RolesOk(s: State) {
    SystemRolesThere(s) && RolesDistinct(s) && RolesPlaced(s)
  }

  predicate Inv(s: State) {
    RolesOk(s) && MembersPlaced(s) && InvitationsPlaced(s) && OneOwner(s)
  }

  /** A role row is still there, in the same organization, and named OWNER only if it was. */
  predicate Carried(s: State, t: State, r: Id) {
    r in s.roles && r in t.roles && t.roles[r].org == s.roles[r].org && (t.roles[r].name == OWNER <==> s.roles[r].name == OWNER)
  }

  /** Changing roles keeps the rest in order as long as the roles in use are carried over. */
  lemma RolesChange(s: State, t: State)
    requires Inv(s) && RolesOk(t) && t.members == s.members && t.invitations == s.invitations
    requires forall m :: m in s.members ==> Carried(s, t, s.members[m].role)
    requires forall i :: i in s.invitations ==> Carried(s, t, s.invitations[i].role)
    ensures Inv(t)
  {
    forall m | m in t.members
      ensures t.members[m].role in t.roles && t.roles[t.members[m].role].org == t.members[m].org
              && (RoleName(t, t.members[m]) == OWNER <==> RoleName(s, s.members[m]) == OWNER)
    {
      assert Carried(s, t, s.members[m].role);
    }
    forall i | i in t.invitations
      ensures t.invitations[i].role in t.roles && t.roles[t.invitations[i].role].org == t.invitations[i].org
              && t.roles[t.invitations[i].role].name != OWNER
    {
      assert Carried(s, t, s.invitations[i].role);
    }
  }

  // ----- Roles keep their names where names matter -----

  /** The only role named OWNER, or ADMINISTRATOR, is the system row. */
  lemma OnlySystemOwner(s: State, id: Id)
    requires RolesOk(s) && id in s.roles
    ensures s.roles[id].name == OWNER <==> id == s.orgs[s.roles[id].org].owner
    ensures s.roles[id].name == ADMINISTRATOR <==> id == s.orgs[s.roles[id].org].administrator
    ensures s.roles[id].name == OWNER ==> s.roles[id].system
  {
    var o := s.roles[id].org;
    assert s.roles[s.orgs[o].owner].org == o && s.roles[s.orgs[o].administrator].org == o;
  }

  /** A role row that may change keeps its rank: neither system name can be taken by renaming. */
  lemma RenameKeepsRank(s: State, id: Id, org: Id, name: Option<Name>, r: Id)
    requires Inv(s) && UpdateRole(s, id, org, name).Done? && r in s.roles
    ensures var t := UpdateRole(s, id, org, name).state;
            r in t.roles && Rank(t.roles[r].name) == Rank(s.roles[r].name) && (t.roles[r].name == OWNER <==> s.roles[r].name == OWNER)
            && t.roles[r].org == s.roles[r].org
  {
    OnlySystemOwner(s, r);
    assert IsNamed(s, s.orgs[s.roles[r].org].owner, s.roles[r].org, OWNER);
    assert IsNamed(s, s.orgs[s.roles[r].org].administrator, s.roles[r].org, ADMINISTRATOR);
  }

  // ----- Every step keeps the invariant -----

  lemma RenameKeeps(s: State, id: Id, org: Id, name: Option<Name>)
    requires Inv(s)
    ensures Inv(After(s, UpdateRole(s, id, org, name)))
  {
    if UpdateRole(s, id, org, name).Done? {
      var t := UpdateRole(s, id, org, name).state;
      RenameCarries(s, id, org, name);
      RenameKeepsRoles(s, id, org, name);
      RolesChange(s, t);
    }
  }

  lemma RenameCarries(s: State, id: Id, org: Id, name: Option<Name>)
    requires Inv(s) && UpdateRole(s, id, org, name).Done?
    ensures var t := UpdateRole(s, id, org, name).state;
            t.members == s.members && t.invitations == s.invitations
            && (forall m :: m in s.members ==> Carried(s, t, s.members[m].role))
            && (forall i :: i in s.invitations ==> Carried(s, t, s.invitations[i].role))
  {
    var t := UpdateRole(s, id, org, name).state;
    forall r | r in s.roles ensures Carried(s, t, r) {
      RenameKeepsRank(s, id, org, name, r);
    }
  }

  lemma RenameKeepsRoles(s: State, id: Id, org: Id, name: Option<Name>)
    requires RolesOk(s) && UpdateRole(s, id, org, name).Done?
    ensures RolesOk(UpdateRole(s, id, org, name).state)
  {
    if name.Some? {
      if name.value != s.roles[id].name {
        assert forall i :: !IsNamed(s, i, org, name.value);
      }
      RenamedDistinct(s, id, name.value);
      RenamedSystem(s, id, name.value);
    }
  }

  lemma RenamedDistinct(s: State, id: Id, name: Name)
    requires RolesDistinct(s) && id in s.roles
    requires name != s.roles[id].name ==> forall i :: !IsNamed(s, i, s.roles[id].org, name)
    ensures RolesDistinct(s.(roles := s.roles[id := s.roles[id].(name := name)]))
  {
    var t := s.(roles := s.roles[id := s.roles[id].(name := name)]);
    forall i, j | i in t.roles && j in t.roles && t.roles[i].org == t.roles[j].org && t.roles[i].name == t.roles[j].name
      ensures i == j
    {
      assert i != id && name != s.roles[id].name ==> !IsNamed(s, i, s.roles[id].org, name);
      assert j != id && name != s.roles[id].name ==> !IsNamed(s, j, s.roles[id].org, name);
    }
  }

  lemma RenamedSystem(s: State, id: Id, name: Name)
    requires SystemRolesThere(s) && RolesPlaced(s) && id in s.roles && !s.roles[id].system
    ensures var t := s.(roles := s.roles[id := s.roles[id].(name := name)]); SystemRolesThere(t) && RolesPlaced(t)
  {
    var t := s.(roles := s.roles[id := s.roles[id].(name := name)]);
    forall o | o in t.orgs
      ensures t.orgs[o].owner in t.roles && t.roles[t.orgs[o].owner] == Role(o, OWNER, true)
              && t.orgs[o].administrator in t.roles && t.roles[t.orgs[o].administrator] == Role(o, ADMINISTRATOR, true)
    {
      assert s.roles[s.orgs[o].owner].system && s.roles[s.orgs[o].administrator].system;
    }
  }

  lemma NewRoleDistinct(s: State, id: Id, org: Id, name: Name)
    requires RolesDistinct(s) && id !in s.roles && forall i :: !IsNamed(s, i, org, name)
    ensures RolesDistinct(s.(roles := s.roles[id := Role(org, name, false)]))
  {
    var t := s.(roles := s.roles[id := Role(org, name, false)]);
    forall i, j | i in t.roles && j in t.roles && t.roles[i].org == t.roles[j].org && t.roles[i].name == t.roles[j].name
      ensures i == j
    {
      assert i == id || !IsNamed(s, i, org, name);
      assert j == id || !IsNamed(s, j, org, name);
    }
  }

  lemma NewRolePlaced(s: State, id: Id, org: Id, name: Name)
    requires SystemRolesThere(s) && RolesPlaced(s) && id !in s.roles && org in s.orgs
    ensures var t := s.(roles := s.roles[id := Role(org, name, false)]); SystemRolesThere(t) && RolesPlaced(t)
  {}

  lemma NewRoleCarries(s: State, id: Id, r: Role)
    requires MembersPlaced(s) && InvitationsPlaced(s) && id !in s.roles
    ensures forall m :: m in s.members ==> Carried(s, s.(roles := s.roles[id := r]), s.members[m].role)
    ensures forall i :: i in s.invitations ==> Carried(s, s.(roles := s.roles[id := r]), s.invitations[i].role)
  {}

  lemma CreateRoleKeeps(s: State, id: Id, org: Id, name: Name, plan: string)
    requires Inv(s) && id !in s.roles && org in s.orgs
    ensures Inv(After(s, CreateRole(s, id, org, name, plan)))
  {
    if CreateRole(s, id, org, name, plan).Done? {
      NewRoleDistinct(s, id, org, name);
      NewRolePlaced(s, id, org, name);
      NewRoleCarries(s, id, Role(org, name, false));
      RolesChange(s, s.(roles := s.roles[id := Role(org, name, false)]));
    }
  }

  lemma FewerRolesThere(s: State, id: Id)
    requires SystemRolesThere(s) && id in s.roles && !s.roles[id].system
    ensures SystemRolesThere(s.(roles := s.roles - {id}))
  {
    forall o | o in s.orgs ensures s.orgs[o].owner != id && s.orgs[o].administrator != id {
      assert s.roles[s.orgs[o].owner].system && s.roles[s.orgs[o].administrator].system;
    }
  }

  lemma FewerRolesDistinct(s: State, id: Id)
    requires RolesDistinct(s) && RolesPlaced(s)
    ensures RolesDistinct(s.(roles := s.roles - {id})) && RolesPlaced(s.(roles := s.roles - {id}))
  {}

  lemma UnusedCarried(s: State, id: Id)
    requires MembersPlaced(s) && InvitationsPlaced(s) && !InUse(s, id)
    ensures forall m :: m in s.members ==> Carried(s, s.(roles := s.roles - {id}), s.members[m].role)
    ensures forall i :: i in s.invitations ==> Carried(s, s.(roles := s.roles - {id}), s.invitations[i].role)
  {}

  lemma RemoveRoleKeeps(s: State, id: Id, org: Id)
    requires Inv(s)
    ensures Inv(After(s, RemoveRole(s, id, org)))
  {
    if RemoveRole(s, id, org).Done? {
      FewerRolesThere(s, id);
      FewerRolesDistinct(s, id);
      UnusedCarried(s, id);
      RolesChange(s, s.(roles := s.roles - {id}));
    }
  }

  /** A new or changed member row, pointing at a role of its organization. */
  lemma PutMemberKeeps(s: State, id: Id, m: Member)
    requires Inv(s) && m.role in s.roles && s.roles[m.role].org == m.org
    requires id in s.members ==> s.members[id].org == m.org && RoleName(s, s.members[id]) != OWNER
    requires s.roles[m.role].name == OWNER ==> OwnersOf(s, m.org) == {}
    ensures Inv(s.(members := s.members[id := m]))
  {
    PutMemberOneOwner(s, id, m);
    PutMemberPlaced(s, id, m);
  }

  lemma PutMemberPlaced(s: State, id: Id, m: Member)
    requires MembersPlaced(s) && m.role in s.roles && s.roles[m.role].org == m.org
    ensures MembersPlaced(s.(members := s.members[id := m]))
  {}

  lemma PutMemberOneOwner(s: State, id: Id, m: Member)
    requires OneOwner(s) && m.role in s.roles
    requires id in s.members ==> s.members[id].org == m.org && RoleName(s, s.members[id]) != OWNER
    requires s.roles[m.role].name == OWNER ==> OwnersOf(s, m.org) == {}
    ensures OneOwner(s.(members := s.members[id := m]))
  {
    var t := s.(members := s.members[id := m]);
    forall j, k | j in t.members && k in t.members && t.members[j].org == t.members[k].org
                  && RoleName(t, t.members[j]) == OWNER && RoleName(t, t.members[k]) == OWNER
      ensures j == k
    {
      PutOwner(s, id, m, j);
      PutOwner(s, id, m, k);
    }
  }

  lemma PutOwner(s: State, id: Id, m: Member, j: Id)
    requires m.role in s.roles && (s.roles[m.role].name == OWNER ==> OwnersOf(s, m.org) == {})
    requires j in s.members[id := m].Keys
    requires RoleName(s, s.members[id := m][j]) == OWNER
    ensures j != id ==> j in OwnersOf(s, s.members[j].org)
    ensures j != id && s.members[j].org == m.org ==> s.roles[m.role].name != OWNER
  {}

  lemma CreateMemberKeeps(s: State, id: Id, user: Id, org: Id, role: Option<Name>, limit: Option<nat>)
    requires Inv(s) && id !in s.members
    ensures Inv(After(s, CreateMember(s, id, user, org, role, limit)))
  {
    if CreateMember(s, id, user, org, role, limit).Done? {
      var given := if role.Some? then role.value else USER;
      PutMemberKeeps(s, id, Member(user, org, FindRole(s, org, given).value));
    }
  }

  lemma UpdateMemberKeeps(s: State, id: Id, newRole: Option<Name>, actor: Id)
    requires Inv(s)
    ensures Inv(After(s, UpdateMember(s, id, newRole, actor)))
  {
    if UpdateMember(s, id, newRole, actor).Done? {
      if newRole.Some? {
        var m := s.members[id];
        PutMemberKeeps(s, id, m.(role := FindRole(s, m.org, newRole.value).value));
      }
    }
  }

  lemma RemoveMemberKeeps(s: State, id: Id)
    requires Inv(s)
    ensures Inv(s.(members := s.members - {id}))
  {}

  lemma InvitationsKeep(s: State, t: State)
    requires Inv(s) && t == s.(invitations := t.invitations)
    requires forall i :: i in t.invitations ==>
               t.invitations[i].role in s.roles && s.roles[t.invitations[i].role].org == t.invitations[i].org
               && s.roles[t.invitations[i].role].name != OWNER
    ensures Inv(t)
  {
    assert forall m :: m in s.members ==> RoleName(t, s.members[m]) == RoleName(s, s.members[m]);
  }

  lemma InviteKeeps(s: State, token: Id, org: Id, email: string, role: Name, now: int, limit: Option<nat>)
    requires Inv(s)
    ensures Inv(After(s, Invite(s, token, org, email, role, now, limit)))
  {
    if Invite(s, token, org, email, role, now, limit).Done? {
      var i := InviteShape(s, token, org, email, role, now, limit);
      PutInvitationKeeps(s, token, i);
    }
  }

  lemma PutInvitationKeeps(s: State, token: Id, i: Invitation)
    requires Inv(s) && i.role in s.roles && s.roles[i.role].org == i.org && s.roles[i.role].name != OWNER
    ensures Inv(s.(invitations := s.invitations[token := i]))
  {
    InvitationsKeep(s, s.(invitations := s.invitations[token := i]));
  }

  /** An accepted invitation adds a member whose role is not OWNER, whatever became of the role's name since. */
  lemma JoinKeeps(s: State, token: Id, id: Id, user: Id)
    requires Inv(s) && token in s.invitations && id !in s.members
    ensures var i := s.invitations[token];
            Inv(SetStatus(s.(members := s.members[id := Member(user, i.org, i.role)]), token, ACCEPTED))
            && RoleName(s, Member(user, i.org, i.role)) != OWNER
  {
    var i := s.invitations[token];
    PutMemberKeeps(s, id, Member(user, i.org, i.role));
    var joined := s.(members := s.members[id := Member(user, i.org, i.role)]);
    InvitationsKeep(joined, SetStatus(joined, token, ACCEPTED));
  }

  lemma FoundKeeps(s: State, org: Id, ownerRole: Id, adminRole: Id, owner: Option<(Id, Id)>)
    requires Inv(s) && org !in s.orgs && ownerRole !in s.roles && adminRole !in s.roles && ownerRole != adminRole
    requires owner.Some? ==> owner.value.0 !in s.members
    ensures Inv(Found(s, org, ownerRole, adminRole, owner))
  {
    var bare := Found(s, org, ownerRole, adminRole, None);
    FoundBare(s, org, ownerRole, adminRole);
    if owner.Some? {
      NobodyThere(s, bare, org);
      PutMemberKeeps(bare, owner.value.0, Member(owner.value.1, org, ownerRole));
    }
  }

  lemma FoundBare(s: State, org: Id, ownerRole: Id, adminRole: Id)
    requires Inv(s) && org !in s.orgs && ownerRole !in s.roles && adminRole !in s.roles && ownerRole != adminRole
    ensures Inv(Found(s, org, ownerRole, adminRole, None))
  {
    FoundPlaced(s, org, ownerRole, adminRole);
    FoundDistinct(s, org, ownerRole, adminRole);
    FoundCarried(s, org, ownerRole, adminRole);
    RolesChange(s, Found(s, org, ownerRole, adminRole, None));
  }

  lemma FoundCarried(s: State, org: Id, ownerRole: Id, adminRole: Id)
    requires MembersPlaced(s) && InvitationsPlaced(s) && ownerRole !in s.roles && adminRole !in s.roles
    ensures forall m :: m in s.members ==> Carried(s, Found(s, org, ownerRole, adminRole, None), s.members[m].role)
    ensures forall i :: i in s.invitations ==> Carried(s, Found(s, org, ownerRole, adminRole, None), s.invitations[i].role)
  {}

  lemma FoundPlaced(s: State, org: Id, ownerRole: Id, adminRole: Id)
    requires SystemRolesThere(s) && RolesPlaced(s) && org !in s.orgs
    requires ownerRole !in s.roles && adminRole !in s.roles && ownerRole != adminRole
    ensures SystemRolesThere(Found(s, org, ownerRole, adminRole, None)) && RolesPlaced(Found(s, org, ownerRole, adminRole, None))
  {}

  lemma FoundDistinct(s: State, org: Id, ownerRole: Id, adminRole: Id)
    requires RolesDistinct(s) && RolesPlaced(s) && org !in s.orgs
    requires ownerRole !in s.roles && adminRole !in s.roles && ownerRole != adminRole
    ensures RolesDistinct(Found(s, org, ownerRole, adminRole, None))
  {
    var t := Found(s, org, ownerRole, adminRole, None);
    assert forall i :: i in s.roles ==> s.roles[i].org != org && t.roles[i] == s.roles[i];
  }

  lemma NobodyThere(s: State, t: State, org: Id)
    requires MembersPlaced(s) && RolesPlaced(s) && org !in s.orgs && t.members == s.members
    ensures OwnersOf(t, org) == {}
  {
    assert forall m :: m in s.members ==> s.members[m].org in s.orgs;
  }

  lemma AcceptKeeps(s: State, token: Id, id: Id, user: Id, email: string, now: int)
    requires Inv(s) && id !in s.members
    ensures Inv(Accept(s, token, id, user, email, now).1)
  {
    AcceptShape(s, token, id, user, email, now);
    if token in s.invitations {
      ExpireKeeps(s, token);
      JoinKeeps(s, token, id, user);
    }
  }

  /** The tables after an acceptance: as they were, with the invitation expired, or joined. */
  lemma AcceptShape(s: State, token: Id, id: Id, user: Id, email: string, now: int)
    ensures token !in s.invitations ==> Accept(s, token, id, user, email, now).1 == s
    ensures token in s.invitations ==>
              var t := Accept(s, token, id, user, email, now).1;
              t == s || t == SetStatus(s, token, EXPIRED) || t == Joined(s, token, id, user)
  {}

  function Joined(s: State, token: Id, id: Id, user: Id): State
    requires token in s.invitations
  {
    var i := s.invitations[token];
    SetStatus(s.(members := s.members[id := Member(user, i.org, i.role)]), token, ACCEPTED)
  }

  lemma ExpireKeeps(s: State, token: Id)
    requires Inv(s) && token in s.invitations
    ensures Inv(SetStatus(s, token, EXPIRED))
  {
    InvitationsKeep(s, SetStatus(s, token, EXPIRED));
  }

  lemma EndMembershipKeeps(s: State, id: Id, actor: Id)
    requires Inv(s)
    ensures Inv(After(s, RemoveMember(s, id, actor)))
  {
    RemoveMemberKeeps(s, id);
  }

  lemma RegistrationKeeps(s: State, token: Id, id: Id, user: Id, email: string, now: int)
    requires Inv(s) && id !in s.members
    ensures Inv(After(s, AcceptInTransaction(s, token, id, user, email, now)))
  {
    if token in s.invitations {
      JoinKeeps(s, token, id, user);
    }
  }

  lemma StepKeeps(s: State, e: Event)
    requires Inv(s)
    ensures Inv(Step(s, e))
  {
    match e
    case FoundOrganization(org, o, a, owner) =>
      if !(org in s.orgs || o in s.roles || a in s.roles || o == a || (owner.Some? && owner.value.0 in s.members)) {
        FoundKeeps(s, org, o, a, owner);
      }
    case AddMembership(id, user, org, role, limit) =>
      if id !in s.members { CreateMemberKeeps(s, id, user, org, role, limit); }
    case ChangeMembership(id, role, actor) => UpdateMemberKeeps(s, id, role, actor);
    case EndMembership(id, actor) => EndMembershipKeeps(s, id, actor);
    case AddRole(id, org, name, plan) =>
      if id !in s.roles && org in s.orgs { CreateRoleKeeps(s, id, org, name, plan); }
    case ChangeRole(id, org, name) => RenameKeeps(s, id, org, name);
    case EndRole(id, org) => RemoveRoleKeeps(s, id, org);
    case SendInvitation(id, org, email, role, now, limit) => InviteKeeps(s, id, org, email, role, now, limit);
    case AcceptInvitation(token, id, user, email, now) =>
      if id !in s.members { AcceptKeeps(s, token, id, user, email, now); }
    case AcceptOnRegistration(token, id, user, email, now) =>
      if id !in s.members { RegistrationKeeps(s, token, id, user, email, now); }
    case DropInvitation(token) => InvitationsKeep(s, s.(invitations := s.invitations - {token}));
  }

  const EMPTY := State(map[], map[], map[], map[])

  lemma {:induction false} RunKeeps(s: State, es: seq<Event>)
    requires Inv(s)
    ensures Inv(Run(s, es))
    decreases |es|
  {
    if |es| > 0 {
      RunKeeps(s, es[..|es| - 1]);
      StepKeeps(Run(s, es[..|es| - 1]), es[|es| - 1]);
    }
  }

  /** In every run an organization has at most one OWNER, and no custom role is ever named OWNER. */
  lemma SingleOwner(es: seq<Event>, org: Id, r: Id)
    ensures |OwnersOf(Run(EMPTY, es), org)| <= 1
    ensures r in Run(EMPTY, es).roles && Run(EMPTY, es).roles[r].name == OWNER ==> Run(EMPTY, es).roles[r].system
  {
    RunKeeps(EMPTY, es);
    var s := Run(EMPTY, es);
    var owners := OwnersOf(s, org);
    if owners != {} {
      var m :| m in owners;
      assert owners == {m};
    }
    if r in s.roles {
      OnlySystemOwner(s, r);
    }
  }

  /** A user is a member of an organization at most once. */
  predicate MembersDistinct(s: State) {
    forall i, j :: (i in s.members && j in s.members && s.members[i].user == s.members[j].user
                    && s.members[i].org == s.members[j].org) ==> i == j
  }

  predicate Absent(s: State, id: Id, user: Id, org: Id) {
    forall j :: j in s.members && j != id ==> !(s.members[j].user == user && s.members[j].org == org)
  }

  lemma PutMemberDistinct(s: State, t: State, id: Id, m: Member)
    requires MembersDistinct(s) && Absent(s, id, m.user, m.org) && t.members == s.members[id := m]
    ensures MembersDistinct(t)
  {}

  lemma NoMemberAbsent(s: State, id: Id, user: Id, org: Id)
    requires FindMember(s, user, org).None?
    ensures Absent(s, id, user, org)
  {
    assert forall j :: j in s.members ==> !IsMember(s, j, user, org);
  }

  lemma AddedDistinct(s: State, id: Id, user: Id, org: Id, role: Option<Name>, limit: Option<nat>)
    requires MembersDistinct(s)
    ensures MembersDistinct(After(s, CreateMember(s, id, user, org, role, limit)))
  {
    var r := CreateMember(s, id, user, org, role, limit);
    if r.Done? {
      NoMemberAbsent(s, id, user, org);
      PutMemberDistinct(s, r.state, id, r.state.members[id]);
    }
  }

  lemma UpdatedDistinct(s: State, id: Id, newRole: Option<Name>, actor: Id)
    requires MembersDistinct(s)
    ensures MembersDistinct(After(s, UpdateMember(s, id, newRole, actor)))
  {
    var r := UpdateMember(s, id, newRole, actor);
    if r.Done? && newRole.Some? {
      PutMemberDistinct(s, r.state, id, r.state.members[id]);
    }
  }

  lemma JoinedDistinct(s: State, token: Id, id: Id, user: Id, email: string, now: int)
    requires MembersDistinct(s)
    ensures MembersDistinct(Accept(s, token, id, user, email, now).1)
    ensures MembersDistinct(After(s, AcceptInTransaction(s, token, id, user, email, now)))
  {
    if token in s.invitations && FindMember(s, user, s.invitations[token].org).None? {
      var i := s.invitations[token];
      NoMemberAbsent(s, id, user, i.org);
      PutMemberDistinct(s, s.(members := s.members[id := Member(user, i.org, i.role)]), id, Member(user, i.org, i.role));
    }
  }

  lemma FoundMembersDistinct(s: State, org: Id, o: Id, a: Id, owner: Option<(Id, Id)>)
    requires MembersDistinct(s) && MembersPlaced(s) && RolesPlaced(s) && org !in s.orgs
    ensures MembersDistinct(Found(s, org, o, a, owner))
  {
    assert forall m :: m in s.members ==> s.members[m].org in s.orgs;
    if owner.Some? {
      PutMemberDistinct(s, Found(s, org, o, a, owner), owner.value.0, Member(owner.value.1, org, o));
    }
  }

  lemma StepMembersDistinct(s: State, e: Event)
    requires Inv(s) && MembersDistinct(s)
    ensures MembersDistinct(Step(s, e))
  {
    match e
    case FoundOrganization(org, o, a, owner) => if org !in s.orgs { FoundMembersDistinct(s, org, o, a, owner); }
    case AddMembership(id, user, org, role, limit) => AddedDistinct(s, id, user, org, role, limit);
    case ChangeMembership(id, role, actor) => UpdatedDistinct(s, id, role, actor);
    case AcceptInvitation(token, id, user, email, now) => JoinedDistinct(s, token, id, user, email, now);
    case AcceptOnRegistration(token, id, user, email, now) => JoinedDistinct(s, token, id, user, email, now);
    case EndMembership(id, actor) => EndedDistinct(s, id, actor);
    case _ => SameMembers(s, e);
  }

  lemma EndedDistinct(s: State, id: Id, actor: Id)
    requires MembersDistinct(s)
    ensures MembersDistinct(After(s, RemoveMember(s, id, actor)))
  {}

  lemma SameMembers(s: State, e: Event)
    requires e.AddRole? || e.ChangeRole? || e.EndRole? || e.SendInvitation? || e.DropInvitation?
    ensures Step(s, e).members == s.members
  {}

  /** What the services rely on when they look a role or a membership up holds in every run. */
  lemma {:induction false} RunKeepsIndexes(s: State, es: seq<Event>)
    requires Inv(s) && MembersDistinct(s)
    ensures RolesDistinct(Run(s, es)) && MembersDistinct(Run(s, es))
    decreases |es|
  {
    RunKeeps(s, es);
    if |es| > 0 {
      RunKeepsIndexes(s, es[..|es| - 1]);
      RunKeeps(s, es[..|es| - 1]);
      StepMembersDistinct(Run(s, es[..|es| - 1]), es[|es| - 1]);
    }
  }

  predicate Owns(s: State, id: Id, user: Id, org: Id) {
    IsMember(s, id, user, org) && RoleName(s, s.members[id]) == OWNER
  }

  /** A step that leaves a member's row, and the role row it points at, as they were. */
  predicate Spares(s: State, t: State, id: Id) {
    id in s.members && id in t.members && t.members[id] == s.members[id]
    && (s.members[id].role in s.roles ==> s.members[id].role in t.roles && t.roles[s.members[id].role] == s.roles[s.members[id].role])
  }

  /** What a call about another membership, or an invitation, does to rows. */
  predicate OnlyMember(s: State, r: Result, id: Id) {
    r.Done? ==> r.state.roles == s.roles && r.state.members - {id} == s.members - {id}
  }

  lemma CreateMemberOnly(s: State, id: Id, user: Id, org: Id, role: Option<Name>, limit: Option<nat>)
    ensures OnlyMember(s, CreateMember(s, id, user, org, role, limit), id)
  {}

  lemma UpdateMemberOnly(s: State, id: Id, newRole: Option<Name>, actor: Id)
    ensures OnlyMember(s, UpdateMember(s, id, newRole, actor), id)
  {}

  lemma RemoveMemberOnly(s: State, id: Id, actor: Id)
    ensures OnlyMember(s, RemoveMember(s, id, actor), id)
  {}

  lemma AcceptOnly(s: State, token: Id, id: Id, user: Id, email: string, now: int)
    ensures OnlyMember(s, Done(Accept(s, token, id, user, email, now).1), id)
    ensures OnlyMember(s, AcceptInTransaction(s, token, id, user, email, now), id)
  {}

  lemma InviteOnly(s: State, token: Id, org: Id, email: string, role: Name, now: int, limit: Option<nat>, id: Id)
    ensures OnlyMember(s, Invite(s, token, org, email, role, now, limit), id)
  {}

  lemma OnlySpares(s: State, t: State, other: Id, id: Id)
    requires id in s.members && id != other && t.roles == s.roles && t.members - {other} == s.members - {other}
    ensures Spares(s, t, id)
  {
    assert id in s.members - {other} && id in t.members - {other};
    assert (s.members - {other})[id] == (t.members - {other})[id];
  }

  lemma OnlyStepSpares(s: State, r: Result, other: Id, id: Id)
    requires id in s.members && id != other && OnlyMember(s, r, other)
    ensures Spares(s, After(s, r), id)
  {
    if r.Done? {
      OnlySpares(s, r.state, other, id);
    }
  }

  lemma RolesSpare(s: State, e: Event, id: Id)
    requires id in s.members && (e.FoundOrganization? || e.AddRole? || e.EndRole?)
    ensures Spares(s, Step(s, e), id)
  {
    if e.EndRole? {
      assert s.members[id].role == e.id ==> InUse(s, e.id);
    }
  }

  lemma StepSpares(s: State, e: Event, id: Id)
    requires id in s.members && !e.ChangeRole?
    requires !(e.ChangeMembership? && e.id == id) && !(e.EndMembership? && e.id == id)
    ensures Spares(s, Step(s, e), id)
  {
    match e
    case AddMembership(i, user, org, role, limit) =>
      CreateMemberOnly(s, i, user, org, role, limit);
      if i !in s.members { OnlyStepSpares(s, CreateMember(s, i, user, org, role, limit), i, id); }
    case ChangeMembership(i, role, actor) =>
      UpdateMemberOnly(s, i, role, actor);
      OnlyStepSpares(s, UpdateMember(s, i, role, actor), i, id);
    case EndMembership(i, actor) =>
      RemoveMemberOnly(s, i, actor);
      OnlyStepSpares(s, RemoveMember(s, i, actor), i, id);
    case SendInvitation(i, org, email, role, now, limit) =>
      InviteOnly(s, i, org, email, role, now, limit, id + 1);
      OnlyStepSpares(s, Invite(s, i, org, email, role, now, limit), id + 1, id);
    case AcceptInvitation(token, i, user, email, now) =>
      AcceptOnly(s, token, i, user, email, now);
      if i !in s.members { OnlySpares(s, Accept(s, token, i, user, email, now).1, i, id); }
    case AcceptOnRegistration(token, i, user, email, now) =>
      AcceptOnly(s, token, i, user, email, now);
      if i !in s.members { OnlyStepSpares(s, AcceptInTransaction(s, token, i, user, email, now), i, id); }
    case DropInvitation(_) =>
    case _ => RolesSpare(s, e, id);
  }

  lemma StepKeepsOwner(s: State, e: Event, id: Id, user: Id, org: Id)
    requires Inv(s) && Owns(s, id, user, org)
    ensures Owns(Step(s, e), id, user, org)
  {
    if e.ChangeRole? {
      RenameKeepsOwner(s, e.id, e.org, e.newName, id, user, org);
    } else if (e.ChangeMembership? || e.EndMembership?) && e.id == id {
      OwnerUntouchable(s, e, id, user, org);
    } else {
      StepSpares(s, e, id);
      SparedOwner(s, Step(s, e), id, user, org);
    }
  }

  lemma RenameKeepsOwner(s: State, r: Id, o: Id, name: Option<Name>, id: Id, user: Id, org: Id)
    requires Inv(s) && Owns(s, id, user, org)
    ensures Owns(After(s, UpdateRole(s, r, o, name)), id, user, org)
  {
    RenameSparesRank(s, r, o, name, id);
  }

  lemma SparedOwner(s: State, t: State, id: Id, user: Id, org: Id)
    requires Spares(s, t, id) && s.members[id].role in s.roles && Owns(s, id, user, org)
    ensures Owns(t, id, user, org)
  {
    SparedRank(s, t, id);
  }

  /** Nobody may change or remove an OWNER. */
  lemma OwnerUntouchable(s: State, e: Event, id: Id, user: Id, org: Id)
    requires Owns(s, id, user, org) && (e.ChangeMembership? || e.EndMembership?) && e.id == id
    ensures Owns(Step(s, e), id, user, org)
  {}

  /** Once an organization has an OWNER, that membership persists through every run. */
  lemma {:induction false} OwnerPersists(s: State, es: seq<Event>, id: Id, user: Id, org: Id)
    requires Inv(s) && Owns(s, id, user, org)
    ensures Owns(Run(s, es), id, user, org)
    decreases |es|
  {
    if |es| > 0 {
      OwnerPersists(s, es[..|es| - 1], id, user, org);
      RunKeeps(s, es[..|es| - 1]);
      StepKeepsOwner(Run(s, es[..|es| - 1]), es[|es| - 1], id, user, org);
    }
  }

  // ----- Rank -----

  /** A member's update changes only someone of lower rank, leaves them below the actor, and touches no other membership. */
  lemma UpdateStaysBelow(s: State, id: Id, newRole: Option<Name>, actor: Id, a: Id)
    requires Inv(s) && id in s.members && UpdateMember(s, id, newRole, actor).Done?
    requires FindMember(s, actor, s.members[id].org) == Some(a)
    ensures var t := UpdateMember(s, id, newRole, actor).state;
            Rank(RoleName(s, s.members[id])) < Rank(RoleName(s, s.members[a]))
            && Rank(RoleName(t, t.members[id])) < Rank(RoleName(s, s.members[a]))
            && t.members - {id} == s.members - {id} && t.roles == s.roles && a != id
  {
    var m := s.members[id];
    assert !ActorRefuses(s, actor, m, newRole);
    UpdateMemberOnly(s, id, newRole, actor);
    if newRole.Some? {
      var r := FindRole(s, m.org, newRole.value).value;
      assert UpdateMember(s, id, newRole, actor).state == s.(members := s.members[id := m.(role := r)]);
    }
  }

  /** Nothing but an update of that membership changes the rank a member has. */
  lemma RankStable(s: State, e: Event, id: Id)
    requires Inv(s) && id in s.members && id in Step(s, e).members
    requires !(e.ChangeMembership? && e.id == id)
    ensures Rank(RoleName(Step(s, e), Step(s, e).members[id])) == Rank(RoleName(s, s.members[id]))
  {
    if e.ChangeRole? {
      RenameSparesRank(s, e.id, e.org, e.newName, id);
    } else if e.EndMembership? && e.id == id {
      EndedOrSame(s, id, e.actor);
    } else {
      StepSpares(s, e, id);
      SparedRank(s, Step(s, e), id);
    }
  }

  lemma SparedRank(s: State, t: State, id: Id)
    requires Spares(s, t, id) && s.members[id].role in s.roles
    ensures RoleName(t, t.members[id]) == RoleName(s, s.members[id])
  {}

  lemma EndedOrSame(s: State, id: Id, actor: Id)
    requires id in s.members && id in After(s, RemoveMember(s, id, actor)).members
    ensures After(s, RemoveMember(s, id, actor)) == s
  {}

  lemma RenameSparesRank(s: State, id: Id, org: Id, name: Option<Name>, m: Id)
    requires Inv(s) && m in s.members
    ensures var t := After(s, UpdateRole(s, id, org, name));
            t.members == s.members && Rank(RoleName(t, t.members[m])) == Rank(RoleName(s, s.members[m]))
  {
    if UpdateRole(s, id, org, name).Done? {
      RenameKeepsRank(s, id, org, name, s.members[m].role);
    }
  }

  /** Who may change whom, spelled out: an OWNER anybody but an OWNER, an ADMINISTRATOR only custom roles. */
  lemma HierarchyExact(actor: Name, target: Name)
    ensures CanModify(actor, target) <==> (actor == OWNER && target != OWNER) || (actor == ADMINISTRATOR && target.Other?)
    ensures CanAssign(actor, target) <==> CanModify(actor, target)
  {}

  /** An actor of the lowest rank can change nobody: custom roles have no rank over each other. */
  lemma CustomRolesChangeNobody(s: State, id: Id, newRole: Option<Name>, actor: Id, a: Id)
    requires id in s.members && FindMember(s, actor, s.members[id].org) == Some(a)
    requires Rank(RoleName(s, s.members[a])) == 1
    ensures UpdateMember(s, id, newRole, actor) == Refused(Forbidden) && RemoveMember(s, id, actor) == Refused(Forbidden)
  {}

  // ----- Plan limits -----

  /** Seats taken: members and pending invitations. */
  function Seats(s: State, org: Id): nat {
    |MembersOf(s, org)| + |PendingOf(s, org)|
  }

  lemma MemberTakesSeat(s: State, id: Id, user: Id, org: Id, role: Option<Name>, limit: nat)
    requires id !in s.members && CreateMember(s, id, user, org, role, Some(limit)).Done?
    ensures Seats(CreateMember(s, id, user, org, role, Some(limit)).state, org) <= limit
  {
    var t := CreateMember(s, id, user, org, role, Some(limit)).state;
    assert MembersOf(t, org) == MembersOf(s, org) + {id};
    assert PendingOf(t, org) == PendingOf(s, org);
  }

  lemma InvitedPending(s: State, token: Id, i: Invitation)
    requires token !in s.invitations && i.status == PENDING
    ensures var t := s.(invitations := s.invitations[token := i]);
            PendingOf(t, i.org) == PendingOf(s, i.org) + {token} && MembersOf(t, i.org) == MembersOf(s, i.org)
  {}

  lemma InviteShape(s: State, token: Id, org: Id, email: string, role: Name, now: int, limit: Option<nat>) returns (i: Invitation)
    requires Invite(s, token, org, email, role, now, limit).Done?
    ensures !LimitExceeded(s, org, limit) && i.org == org && i.status == PENDING && IsNamed(s, i.role, org, role) && role != OWNER
    ensures Invite(s, token, org, email, role, now, limit).state == s.(invitations := s.invitations[token := i])
  {
    i := Invite(s, token, org, email, role, now, limit).state.invitations[token];
  }

  lemma InvitationTakesSeat(s: State, token: Id, org: Id, email: string, role: Name, now: int, limit: nat)
    requires token !in s.invitations && Invite(s, token, org, email, role, now, Some(limit)).Done?
    ensures Seats(Invite(s, token, org, email, role, now, Some(limit)).state, org) <= limit
  {
    var i := InviteShape(s, token, org, email, role, now, Some(limit));
    InvitedPending(s, token, i);
  }

  /** Accepting an invitation turns its seat into a member's: the number of seats is unchanged. */
  lemma JoinKeepsSeats(s: State, token: Id, id: Id, user: Id)
    requires token in s.invitations && s.invitations[token].status == PENDING && id !in s.members
    ensures var i := s.invitations[token];
            Seats(SetStatus(s.(members := s.members[id := Member(user, i.org, i.role)]), token, ACCEPTED), i.org) == Seats(s, i.org)
  {
    var i := s.invitations[token];
    var joined := s.(members := s.members[id := Member(user, i.org, i.role)]);
    MembersJoined(s, joined, id, Member(user, i.org, i.role));
    PendingAccepted(joined, token);
    assert PendingOf(joined, i.org) == PendingOf(s, i.org);
  }

  lemma MembersJoined(s: State, t: State, id: Id, m: Member)
    requires id !in s.members && t.members == s.members[id := m]
    ensures MembersOf(t, m.org) == MembersOf(s, m.org) + {id} && id !in MembersOf(s, m.org)
  {}

  lemma PendingAccepted(s: State, token: Id)
    requires token in s.invitations && s.invitations[token].status == PENDING
    ensures var org := s.invitations[token].org; var t := SetStatus(s, token, ACCEPTED);
            PendingOf(t, org) == PendingOf(s, org) - {token} && token in PendingOf(s, org) && MembersOf(t, org) == MembersOf(s, org)
  {}

  /** Direct additions and invitations together never take an organization over its plan's limit. */
  lemma LimitHolds(s: State, org: Id, limit: nat, id: Id, user: Id, role: Option<Name>, email: string, name: Name, now: int)
    requires Seats(s, org) <= limit && id !in s.members && id !in s.invitations
    ensures Seats(After(s, CreateMember(s, id, user, org, role, Some(limit))), org) <= limit
    ensures Seats(After(s, Invite(s, id, org, email, name, now, Some(limit))), org) <= limit
  {
    if CreateMember(s, id, user, org, role, Some(limit)).Done? {
      MemberTakesSeat(s, id, user, org, role, limit);
    }
    if Invite(s, id, org, email, name, now, Some(limit)).Done? {
      InvitationTakesSeat(s, id, org, email, name, now, limit);
    }
  }

  /** An organization within its plan's number of roles stays within it. */
  lemma RolesCapped(s: State, id: Id, org: Id, name: Name, plan: string)
    requires id !in s.roles && |RolesOf(s, org)| <= RoleLimit(plan)
    ensures |RolesOf(After(s, CreateRole(s, id, org, name, plan)), org)| <= RoleLimit(plan)
    ensures CreateRole(s, id, org, name, plan).Done? ==> |RolesOf(CreateRole(s, id, org, name, plan).state, org)| == |RolesOf(s, org)| + 1
  {
    var r := CreateRole(s, id, org, name, plan);
    if r.Done? {
      assert RolesOf(r.state, org) == RolesOf(s, org) + {id};
    }
  }
}

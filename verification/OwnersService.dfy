/**
 The membership, role and invitation services in the form the code has: guards in order,
 an entity whose role is changed before it is persisted, rows created, updated and deleted.
 Each call is proved equal to its function in module Owners.
 */
module OwnersService {
  import opened Options
  import opened Owners

  function ErrorOf(r: Result): Option<Error> {
    if r.Done? then None else Some(r.error)
  }

  class Tables {
    var orgs: map<Id, SystemRoles>
    var roles: map<Id, Role>
    var members: map<Id, Member>
    var invitations: map<Id, Invitation>

    function State(): State
      reads this
    {
      Owners.State(orgs, roles, members, invitations)
    }

    /** What the database's unique indexes guarantee. */
    ghost predicate Indexed()
      reads this
    {
      RolesDistinct(State()) && MembersDistinct(State())
    }

    constructor ()
      ensures State() == EMPTY && Indexed()
    {
      orgs, roles, members, invitations := map[], map[], map[], map[];
    }

    method FindByName(org: Id, name: Name) returns (r: Option<Id>)
      requires Indexed()
      ensures r == FindRole(State(), org, name)
    {
      r := None;
      if id :| id in roles && roles[id].org == org && roles[id].name == name {
        assert IsNamed(State(), id, org, name);
        r := Some(id);
      } else {
        assert forall id :: !IsNamed(State(), id, org, name);
      }
    }

    method FindByUser(user: Id, org: Id) returns (r: Option<Id>)
      requires Indexed()
      ensures r == FindMember(State(), user, org)
    {
      r := None;
      if id :| id in members && members[id].user == user && members[id].org == org {
        assert IsMember(State(), id, user, org);
        r := Some(id);
      } else {
        assert forall id :: !IsMember(State(), id, user, org);
      }
    }

    method CountOwners(org: Id) returns (n: nat)
      ensures n == |OwnersOf(State(), org)|
    {
      n := |OwnersOf(State(), org)|;
    }
  }

  class OrganizationUserEntity {
    const userId: Id
    const organizationId: Id
    var role: Name

    constructor (s: State, m: Member)
      ensures userId == m.user && organizationId == m.org && role == RoleName(s, m)
    {
      userId, organizationId, role := m.user, m.org, RoleName(s, m);
    }

    method ApplyRoleChange(newRole: Name)
      modifies this
      ensures role == newRole
    {
      role := newRole;
    }
  }

  class OrganizationUsersService {
    const tables: Tables

    constructor (t: Tables)
      ensures tables == t
    {
      tables := t;
    }

    method Create(id: Id, user: Id, org: Id, role: Option<Name>, limit: Option<nat>) returns (error: Option<Error>)
      requires tables.Indexed() && id !in tables.members
      modifies tables`members
      ensures error == ErrorOf(CreateMember(old(tables.State()), id, user, org, role, limit))
      ensures tables.State() == After(old(tables.State()), CreateMember(old(tables.State()), id, user, org, role, limit))
    {
      var existing := tables.FindByUser(user, org);
      if existing.Some? {
        return Some(Conflict);
      }
      if LimitExceeded(tables.State(), org, limit) {
        return Some(BadRequest);
      }
      var assignedRole := if role.Some? then role.value else USER;
      if assignedRole == OWNER {
        var ownerCount := tables.CountOwners(org);
        if !CanAssignRole(OWNER, ownerCount, None) {
          return Some(Conflict);
        }
      }
      var roleRecord := tables.FindByName(org, assignedRole);
      if roleRecord.None? {
        return Some(NotFound);
      }
      tables.members := tables.members[id := Member(user, org, roleRecord.value)];
      error := None;
    }

    /** The rank rules, for actors who are members of the target's organization. */
    method Forbids(actor: Id, target: Member, newRole: Option<Name>) returns (forbidden: bool)
      requires tables.Indexed()
      ensures forbidden == ActorRefuses(tables.State(), actor, target, newRole)
    {
      var actorMember := tables.FindByUser(actor, target.org);
      if actorMember.None? {
        return false;
      }
      var actorRole := RoleName(tables.State(), tables.members[actorMember.value]);
      if !CanModify(actorRole, RoleName(tables.State(), target)) {
        return true;
      }
      forbidden := newRole.Some? && !CanAssign(actorRole, newRole.value);
    }

    method Update(id: Id, newRole: Option<Name>, actor: Id) returns (error: Option<Error>)
      requires tables.Indexed()
      modifies tables`members
      ensures error == ErrorOf(UpdateMember(old(tables.State()), id, newRole, actor))
      ensures tables.State() == After(old(tables.State()), UpdateMember(old(tables.State()), id, newRole, actor))
    {
      if id !in tables.members {
        return Some(NotFound);
      }
      var row := tables.members[id];
      var member := new OrganizationUserEntity(tables.State(), row);
      if member.role == OWNER {
        return Some(Forbidden);
      }
      var forbidden := Forbids(actor, row, newRole);
      if forbidden {
        return Some(Forbidden);
      }
      if newRole.None? {
        return None;
      }
      var ownerCount := tables.CountOwners(member.organizationId);
      if !CanAssignRole(newRole.value, ownerCount, Some(member.role)) {
        return Some(Conflict);
      }
      member.ApplyRoleChange(newRole.value);
      var connected := tables.FindByName(member.organizationId, member.role);
      if connected.None? {
        return Some(NotFound);
      }
      tables.members := tables.members[id := row.(role := connected.value)];
      error := None;
    }

    method Remove(id: Id, actor: Id) returns (error: Option<Error>)
      requires tables.Indexed()
      modifies tables`members
      ensures error == ErrorOf(RemoveMember(old(tables.State()), id, actor))
      ensures tables.State() == After(old(tables.State()), RemoveMember(old(tables.State()), id, actor))
    {
      if id !in tables.members {
        return Some(NotFound);
      }
      var row := tables.members[id];
      var member := new OrganizationUserEntity(tables.State(), row);
      if member.role == OWNER {
        return Some(Forbidden);
      }
      var forbidden := Forbids(actor, row, None);
      if forbidden {
        return Some(Forbidden);
      }
      tables.members := tables.members - {id};
      error := None;
    }
  }

  class RolesService {
    const tables: Tables

    constructor (t: Tables)
      ensures tables == t
    {
      tables := t;
    }

    method Create(id: Id, org: Id, name: Name, plan: string) returns (error: Option<Error>)
      requires tables.Indexed() && id !in tables.roles
      modifies tables`roles
      ensures error == ErrorOf(CreateRole(old(tables.State()), id, org, name, plan))
      ensures tables.State() == After(old(tables.State()), CreateRole(old(tables.State()), id, org, name, plan))
    {
      var count := |RolesOf(tables.State(), org)|;
      var limit := 2;
      if plan == "BASIC" {
        limit := 3;
      } else if plan == "PREMIUM" {
        limit := 5;
      }
      if count >= limit {
        return Some(BadRequest);
      }
      var existing := tables.FindByName(org, name);
      if existing.Some? {
        return Some(Conflict);
      }
      tables.roles := tables.roles[id := Role(org, name, false)];
      error := None;
    }

    method Update(id: Id, org: Id, name: Option<Name>) returns (error: Option<Error>)
      requires tables.Indexed()
      modifies tables`roles
      ensures error == ErrorOf(UpdateRole(old(tables.State()), id, org, name))
      ensures tables.State() == After(old(tables.State()), UpdateRole(old(tables.State()), id, org, name))
    {
      if id !in tables.roles || tables.roles[id].org != org {
        return Some(NotFound);
      }
      var role := tables.roles[id];
      if role.system {
        return Some(BadRequest);
      }
      if name.Some? && name.value != role.name {
        var existing := tables.FindByName(org, name.value);
        if existing.Some? {
          return Some(Conflict);
        }
      }
      if name.Some? {
        tables.roles := tables.roles[id := role.(name := name.value)];
      }
      error := None;
    }

    method Remove(id: Id, org: Id) returns (error: Option<Error>)
      modifies tables`roles
      ensures error == ErrorOf(RemoveRole(old(tables.State()), id, org))
      ensures tables.State() == After(old(tables.State()), RemoveRole(old(tables.State()), id, org))
    {
      if id !in tables.roles || tables.roles[id].org != org {
        return Some(NotFound);
      }
      if tables.roles[id].system {
        return Some(BadRequest);
      }
      if InUse(tables.State(), id) {
        return Some(Failed);
      }
      tables.roles := tables.roles - {id};
      error := None;
    }
  }

  class InvitationsService {
    const tables: Tables

    constructor (t: Tables)
      ensures tables == t
    {
      tables := t;
    }

    method CreateInvitation(token: Id, org: Id, email: string, role: Name, now: int, limit: Option<nat>) returns (error: Option<Error>)
      requires tables.Indexed() && token !in tables.invitations
      modifies tables`invitations
      ensures error == ErrorOf(Invite(old(tables.State()), token, org, email, role, now, limit))
      ensures tables.State() == After(old(tables.State()), Invite(old(tables.State()), token, org, email, role, now, limit))
    {
      if role == OWNER {
        return Some(BadRequest);
      }
      if LimitExceeded(tables.State(), org, limit) {
        return Some(BadRequest);
      }
      if Invited(tables.State(), email, org) {
        return Some(Conflict);
      }
      var roleData := tables.FindByName(org, role);
      if roleData.None? {
        return Some(BadRequest);
      }
      var expiresAt := now + INVITATION_TTL;
      tables.invitations := tables.invitations[token := Invitation(org, email, roleData.value, PENDING, expiresAt)];
      error := None;
    }

    method AcceptInvitation(token: Id, id: Id, user: Id, email: string, now: int) returns (error: Option<Error>)
      requires tables.Indexed() && id !in tables.members
      modifies tables`members, tables`invitations
      ensures error == ErrorOf(Accept(old(tables.State()), token, id, user, email, now).0)
      ensures tables.State() == Accept(old(tables.State()), token, id, user, email, now).1
    {
      if token !in tables.invitations {
        return Some(NotFound);
      }
      var invitation := tables.invitations[token];
      if invitation.status != PENDING {
        return Some(BadRequest);
      }
      if now > invitation.expiresAt {
        tables.invitations := tables.invitations[token := invitation.(status := EXPIRED)];
        return Some(BadRequest);
      }
      if Lower(invitation.email) != Lower(email) {
        return Some(BadRequest);
      }
      var alreadyMember := tables.FindByUser(user, invitation.org);
      if alreadyMember.Some? {
        return Some(Conflict);
      }
      tables.members := tables.members[id := Member(user, invitation.org, invitation.role)];
      tables.invitations := tables.invitations[token := invitation.(status := ACCEPTED)];
      error := None;
    }

    method AcceptInvitationInTransaction(token: Id, id: Id, user: Id, email: string, now: int) returns (error: Option<Error>)
      requires tables.Indexed() && id !in tables.members
      modifies tables`members, tables`invitations
      ensures error == ErrorOf(AcceptInTransaction(old(tables.State()), token, id, user, email, now))
      ensures tables.State() == After(old(tables.State()), AcceptInTransaction(old(tables.State()), token, id, user, email, now))
    {
      if token !in tables.invitations {
        return Some(NotFound);
      }
      var invitation := tables.invitations[token];
      if invitation.status != PENDING {
        return Some(BadRequest);
      }
      if now > invitation.expiresAt {
        return Some(BadRequest);
      }
      if Lower(invitation.email) != Lower(email) {
        return Some(BadRequest);
      }
      var taken := tables.FindByUser(user, invitation.org);
      if taken.Some? {
        return Some(Failed); // the unique index refuses the row
      }
      tables.members := tables.members[id := Member(user, invitation.org, invitation.role)];
      tables.invitations := tables.invitations[token := invitation.(status := ACCEPTED)];
      error := None;
    }
  }
}

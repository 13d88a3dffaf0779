/**
 Who may join, change or invite: for each membership, role and invitation request of
 module Owners, exactly when it is accepted, what each refusal means, and how every
 membership of a run came to be.
 */
module OwnerRequests {
  import opened Options
  import opened Owners

  // ----- Addresses -----

  /** The same letter, whatever its case. */
  predicate SameLetter(a: char, b: char) {
    a == b
    || ('A' <= a <= 'Z' && b as int - 'a' as int == a as int - 'A' as int)
    || ('A' <= b <= 'Z' && a as int - 'a' as int == b as int - 'A' as int)
  }

  predicate SameAddress(a: string, b: string) {
    |a| == |b| && forall i :: 0 <= i < |a| ==> SameLetter(a[i], b[i])
  }

  lemma LowerIff(a: string, b: string)
    ensures Lower(a) == Lower(b) <==> SameAddress(a, b)
  {
    if |a| == |b| {
      forall i | 0 <= i < |a| ensures Lower(a)[i] == Lower(b)[i] <==> SameLetter(a[i], b[i]) {}
      if SameAddress(a, b) {
        assert forall i :: 0 <= i < |a| ==> Lower(a)[i] == Lower(b)[i];
      } else {
        var i :| 0 <= i < |a| && !SameLetter(a[i], b[i]);
        assert Lower(a)[i] != Lower(b)[i];
      }
    } else {
      assert |Lower(a)| != |Lower(b)|;
    }
  }

  // ----- Accepting an invitation -----

  predicate Belongs(s: State, user: Id, org: Id) {
    exists m :: m in s.members && s.members[m].user == user && s.members[m].org == org
  }

  lemma FindsIff(s: State, user: Id, org: Id)
    ensures FindMember(s, user, org).Some? <==> Belongs(s, user, org)
  {
    if Belongs(s, user, org) {
      var m :| m in s.members && s.members[m].user == user && s.members[m].org == org;
      assert IsMember(s, m, user, org);
    }
  }

  predicate Lapsed(s: State, token: Id, now: int) {
    token in s.invitations && s.invitations[token].status == PENDING && now > s.invitations[token].expiresAt
  }

  /** The invitation is there, open, in time and for this address. */
  predicate InvitedTo(s: State, token: Id, email: string, now: int) {
    token in s.invitations
    && var i := s.invitations[token];
       i.status == PENDING && now <= i.expiresAt && SameAddress(i.email, email)
  }

  /** A signed-in user joins exactly when invited under their own address and not yet a member. */
  lemma AcceptedIff(s: State, token: Id, id: Id, user: Id, email: string, now: int)
    ensures var r := Accept(s, token, id, user, email, now).0;
            (r.Done? <==> InvitedTo(s, token, email, now) && !Belongs(s, user, s.invitations[token].org))
            && (r == Refused(NotFound) <==> token !in s.invitations)
            && (r == Refused(BadRequest) <==> token in s.invitations && !InvitedTo(s, token, email, now))
            && (r == Refused(Conflict) <==> InvitedTo(s, token, email, now) && Belongs(s, user, s.invitations[token].org))
  {
    if token in s.invitations {
      LowerIff(s.invitations[token].email, email);
      FindsIff(s, user, s.invitations[token].org);
    }
  }

  /** One membership with the invitation's organization and role, and the invitation used up. */
  ghost predicate Joins(s: State, t: State, token: Id, id: Id, user: Id) {
    token in s.invitations
    && var i := s.invitations[token];
       && t.orgs == s.orgs && t.roles == s.roles
       && t.members == s.members[id := Member(user, i.org, i.role)]
       && t.invitations == s.invitations[token := i.(status := ACCEPTED)]
  }

  /** What is stored: a membership and the accepted mark, or the expired mark alone, or nothing. */
  lemma AcceptedStores(s: State, token: Id, id: Id, user: Id, email: string, now: int)
    ensures var (r, t) := Accept(s, token, id, user, email, now);
            (r.Done? ==> Joins(s, t, token, id, user))
            && (r.Refused? && !Lapsed(s, token, now) ==> t == s)
            && (Lapsed(s, token, now) ==>
                  t == s.(invitations := s.invitations[token := s.invitations[token].(status := EXPIRED)]))
  {}

  /** Inside a registration the same conditions decide; the unique index is what refuses a member. */
  lemma RegisteredIff(s: State, token: Id, id: Id, user: Id, email: string, now: int)
    ensures var r := AcceptInTransaction(s, token, id, user, email, now);
            (r.Done? <==> InvitedTo(s, token, email, now) && !Belongs(s, user, s.invitations[token].org))
            && (r == Refused(NotFound) <==> token !in s.invitations)
            && (r == Refused(BadRequest) <==> token in s.invitations && !InvitedTo(s, token, email, now))
            && (r == Refused(Failed) <==> InvitedTo(s, token, email, now) && Belongs(s, user, s.invitations[token].org))
            && (r.Done? ==> Joins(s, r.state, token, id, user))
  {
    if token in s.invitations {
      LowerIff(s.invitations[token].email, email);
      FindsIff(s, user, s.invitations[token].org);
    }
  }

  // ----- How memberships come to be -----

  /** This event may make this membership row of a user. */
  predicate Admits(s: State, e: Event, id: Id, m: Member) {
    match e
    case FoundOrganization(org, ownerRole, _, owner) => owner == Some((id, m.user)) && m.org == org && m.role == ownerRole
    case AddMembership(i, user, org, _, _) => i == id && m.user == user && m.org == org
    case AcceptInvitation(token, i, user, email, now) => i == id && JoinsAs(s, token, user, email, now, m)
    case AcceptOnRegistration(token, i, user, email, now) => i == id && JoinsAs(s, token, user, email, now, m)
    case _ => false
  }

  predicate JoinsAs(s: State, token: Id, user: Id, email: string, now: int, m: Member) {
    InvitedTo(s, token, email, now) && m == Member(user, s.invitations[token].org, s.invitations[token].role)
  }

  lemma AcceptAdmits(s: State, e: Event, id: Id)
    requires (e.AcceptInvitation? || e.AcceptOnRegistration?) && id in Step(s, e).members && id !in s.members
    ensures Admits(s, e, id, Step(s, e).members[id])
  {
    if e.AcceptInvitation? {
      AcceptedIff(s, e.token, e.id, e.user, e.email, e.now);
      AcceptedStores(s, e.token, e.id, e.user, e.email, e.now);
    } else {
      RegisteredIff(s, e.token, e.id, e.user, e.email, e.now);
    }
  }

  lemma NewMemberAdmitted(s: State, e: Event, id: Id)
    requires id in Step(s, e).members && id !in s.members
    ensures Admits(s, e, id, Step(s, e).members[id])
  {
    if e.AcceptInvitation? || e.AcceptOnRegistration? {
      AcceptAdmits(s, e, id);
    } else if e.AddMembership? {
      CreateMemberOnly(s, e.id, e.user, e.org, e.role, e.limit);
    } else if e.ChangeMembership? {
      UpdateMemberOnly(s, e.id, e.role, e.actor);
    }
  }

  /** A row keeps its user and organization for as long as it exists. */
  lemma MemberKeepsPlace(s: State, e: Event, id: Id)
    requires id in s.members && id in Step(s, e).members
    ensures Step(s, e).members[id].user == s.members[id].user && Step(s, e).members[id].org == s.members[id].org
  {
    if e.AcceptInvitation? {
      AcceptOnly(s, e.token, e.id, e.user, e.email, e.now);
    } else if e.AcceptOnRegistration? {
      AcceptOnly(s, e.token, e.id, e.user, e.email, e.now);
    } else if e.AddMembership? {
      CreateMemberOnly(s, e.id, e.user, e.org, e.role, e.limit);
    }
  }

  ghost predicate AdmittedAt(s: State, es: seq<Event>, i: int, id: Id, user: Id, org: Id) {
    0 <= i < |es| && exists role :: Admits(Run(s, es[..i]), es[i], id, Member(user, org, role))
  }

  /**
   Over every run: whoever has become a member founded the organization, was added by an
   administrator's request, or accepted an open invitation sent to their own address.
   */
  lemma {:induction false} MembersWereAdmitted(s: State, es: seq<Event>, id: Id)
    requires id in Run(s, es).members && id !in s.members
    ensures var m := Run(s, es).members[id]; exists i :: AdmittedAt(s, es, i, id, m.user, m.org)
  {
    if |es| > 0 {
      var n := |es| - 1;
      var before, m := Run(s, es[..n]), Run(s, es).members[id];
      if id in before.members {
        MembersWereAdmitted(s, es[..n], id);
        MemberKeepsPlace(before, es[n], id);
        var i :| AdmittedAt(s, es[..n], i, id, m.user, m.org);
        assert es[..n][..i] == es[..i];
        assert AdmittedAt(s, es, i, id, m.user, m.org);
      } else {
        NewMemberAdmitted(before, es[n], id);
        assert Admits(before, es[n], id, Member(m.user, m.org, m.role));
        assert AdmittedAt(s, es, n, id, m.user, m.org);
      }
    }
  }

  // ----- Adding, changing and ending memberships -----

  predicate HasRole(s: State, org: Id, name: Name) {
    exists r :: r in s.roles && s.roles[r].org == org && s.roles[r].name == name
  }

  lemma FindsRoleIff(s: State, org: Id, name: Name)
    ensures FindRole(s, org, name).Some? <==> HasRole(s, org, name)
  {
    if HasRole(s, org, name) {
      var r :| r in s.roles && s.roles[r].org == org && s.roles[r].name == name;
      assert IsNamed(s, r, org, name);
    }
  }

  /** What a member's role is called now; a role row that is gone counts as USER. */
  function Title(s: State, m: Member): Name {
    if m.role in s.roles then s.roles[m.role].name else Other("USER")
  }

  predicate Owned(s: State, org: Id) {
    exists m :: m in s.members && s.members[m].org == org && Title(s, s.members[m]) == OWNER
  }

  lemma OwnedIff(s: State, org: Id)
    ensures |OwnersOf(s, org)| == 0 <==> !Owned(s, org)
  {
    if Owned(s, org) {
      var m :| m in s.members && s.members[m].org == org && Title(s, s.members[m]) == OWNER;
      assert m in OwnersOf(s, org);
    } else {
      assert OwnersOf(s, org) == {};
    }
  }

  /** Members and open invitations take up the plan. */
  predicate Full(s: State, org: Id, limit: Option<nat>) {
    var members := set m | m in s.members && s.members[m].org == org;
    var open := set i | i in s.invitations && s.invitations[i].org == org && s.invitations[i].status == PENDING;
    limit.Some? && |members| + |open| >= limit.value
  }

  lemma FullIff(s: State, org: Id, limit: Option<nat>)
    ensures LimitExceeded(s, org, limit) <==> Full(s, org, limit)
  {
    assert (set m | m in s.members && s.members[m].org == org) == MembersOf(s, org);
    assert (set i | i in s.invitations && s.invitations[i].org == org && s.invitations[i].status == PENDING) == PendingOf(s, org);
  }

  predicate MemberCause(s: State, user: Id, org: Id, name: Name, limit: Option<nat>, e: Error) {
    (e == Conflict && (Belongs(s, user, org) || (name == OWNER && Owned(s, org))))
    || (e == BadRequest && Full(s, org, limit))
    || (e == NotFound && !HasRole(s, org, name))
  }

  /** A membership is refused exactly when there is a cause to; without a role it is given USER. */
  lemma MemberRefusedFor(s: State, id: Id, user: Id, org: Id, role: Option<Name>, limit: Option<nat>, e: Error)
    ensures var r, name := CreateMember(s, id, user, org, role, limit), if role.Some? then role.value else Other("USER");
            (r == Refused(e) ==> MemberCause(s, user, org, name, limit, e))
            && (r.Done? ==> !MemberCause(s, user, org, name, limit, e)
                            && exists k :: IsNamed(s, k, org, name) && r.state == s.(members := s.members[id := Member(user, org, k)]))
  {
    var name := if role.Some? then role.value else Other("USER");
    FindsIff(s, user, org);
    FindsRoleIff(s, org, name);
    OwnedIff(s, org);
    FullIff(s, org, limit);
    if CreateMember(s, id, user, org, role, limit).Done? {
      var k := FindRole(s, org, name).value;
      assert IsNamed(s, k, org, name);
    }
  }

  /** OWNER is above everybody else, ADMINISTRATOR above every custom role, and a custom role above nobody. */
  predicate Outranks(a: Name, b: Name) {
    (a == OWNER && b != OWNER) || (a == ADMINISTRATOR && b != OWNER && b != ADMINISTRATOR)
  }

  /** The actor is a member there who does not outrank the target, or the role to be given. */
  predicate Outranked(s: State, actor: Id, target: Member, newRole: Option<Name>) {
    exists a :: a in s.members && IsMember(s, a, actor, target.org)
      && (!Outranks(Title(s, s.members[a]), Title(s, target))
          || (newRole.Some? && !Outranks(Title(s, s.members[a]), newRole.value)))
  }

  lemma ActorRefusesIff(s: State, actor: Id, target: Member, newRole: Option<Name>)
    requires MembersDistinct(s)
    ensures ActorRefuses(s, actor, target, newRole) <==> Outranked(s, actor, target, newRole)
  {
    var found := FindMember(s, actor, target.org);
    if found.Some? {
      forall a | IsMember(s, a, actor, target.org) ensures a == found.value {}
    }
  }

  predicate ChangeCause(s: State, id: Id, newRole: Option<Name>, actor: Id, e: Error) {
    if id !in s.members then e == NotFound
    else
      var m := s.members[id];
      (e == Forbidden && (Title(s, m) == OWNER || Outranked(s, actor, m, newRole)))
      || (newRole.Some?
          && ((e == Conflict && newRole.value == OWNER && Owned(s, m.org)) || (e == NotFound && !HasRole(s, m.org, newRole.value))))
  }

  lemma ChangeRefusedFor(s: State, id: Id, newRole: Option<Name>, actor: Id, e: Error)
    requires MembersDistinct(s)
    ensures var r := UpdateMember(s, id, newRole, actor);
            (r == Refused(e) ==> ChangeCause(s, id, newRole, actor, e))
            && (r.Done? ==> !ChangeCause(s, id, newRole, actor, e))
            && (r.Done? && newRole.None? ==> r.state == s)
            && (r.Done? && newRole.Some? ==>
                  exists k :: IsNamed(s, k, s.members[id].org, newRole.value)
                    && r.state == s.(members := s.members[id := s.members[id].(role := k)]))
  {
    if id in s.members {
      var m := s.members[id];
      ActorRefusesIff(s, actor, m, newRole);
      OwnedIff(s, m.org);
      if newRole.Some? {
        FindsRoleIff(s, m.org, newRole.value);
        if UpdateMember(s, id, newRole, actor).Done? {
          assert IsNamed(s, FindRole(s, m.org, newRole.value).value, m.org, newRole.value);
        }
      }
    }
  }

  lemma EndRefusedFor(s: State, id: Id, actor: Id)
    requires MembersDistinct(s)
    ensures var r := RemoveMember(s, id, actor);
            (r == Refused(NotFound) <==> id !in s.members)
            && (r == Refused(Forbidden) <==>
                  id in s.members && (Title(s, s.members[id]) == OWNER || Outranked(s, actor, s.members[id], None)))
            && (r.Done? <==>
                  id in s.members && Title(s, s.members[id]) != OWNER && !Outranked(s, actor, s.members[id], None))
            && (r.Done? ==> r.state == s.(members := s.members - {id}))
  {
    if id in s.members {
      ActorRefusesIff(s, actor, s.members[id], None);
    }
  }

  // ----- Roles -----

  /** Two roles come with the organization; a plan leaves room for this many in all. */
  predicate RolesFull(s: State, org: Id, plan: string) {
    var roles := set r | r in s.roles && s.roles[r].org == org;
    |roles| >= 5 || (plan != "PREMIUM" && |roles| >= 3) || (plan != "PREMIUM" && plan != "BASIC" && |roles| >= 2)
  }

  lemma RoleRefusedFor(s: State, id: Id, org: Id, name: Name, plan: string)
    ensures var r := CreateRole(s, id, org, name, plan);
            (r == Refused(BadRequest) <==> RolesFull(s, org, plan))
            && (r == Refused(Conflict) <==> !RolesFull(s, org, plan) && HasRole(s, org, name))
            && (r.Done? <==> !RolesFull(s, org, plan) && !HasRole(s, org, name))
            && (r.Done? ==> r.state == s.(roles := s.roles[id := Role(org, name, false)]))
  {
    FindsRoleIff(s, org, name);
    assert (set r | r in s.roles && s.roles[r].org == org) == RolesOf(s, org);
  }

  predicate Editable(s: State, id: Id, org: Id) {
    id in s.roles && s.roles[id].org == org && !s.roles[id].system
  }

  lemma RenameRefusedFor(s: State, id: Id, org: Id, name: Option<Name>)
    ensures var r := UpdateRole(s, id, org, name);
            var taken := id in s.roles && name.Some? && name.value != s.roles[id].name && HasRole(s, org, name.value);
            (r == Refused(NotFound) <==> id !in s.roles || s.roles[id].org != org)
            && (r == Refused(BadRequest) <==> id in s.roles && s.roles[id].org == org && s.roles[id].system)
            && (r == Refused(Conflict) <==> Editable(s, id, org) && taken)
            && (r.Done? <==> Editable(s, id, org) && !taken)
            && (r.Done? ==> r.state == if name.None? then s else s.(roles := s.roles[id := s.roles[id].(name := name.value)]))
  {
    if name.Some? {
      FindsRoleIff(s, org, name.value);
    }
  }

  lemma EndRoleRefusedFor(s: State, id: Id, org: Id)
    ensures var r := RemoveRole(s, id, org);
            var held := exists m :: m in s.members && s.members[m].role == id;
            var offered := exists i :: i in s.invitations && s.invitations[i].role == id;
            (r == Refused(NotFound) <==> id !in s.roles || s.roles[id].org != org)
            && (r == Refused(BadRequest) <==> id in s.roles && s.roles[id].org == org && s.roles[id].system)
            && (r == Refused(Failed) <==> Editable(s, id, org) && (held || offered))
            && (r.Done? <==> Editable(s, id, org) && !held && !offered)
            && (r.Done? ==> r.state == s.(roles := s.roles - {id}))
  {}

  // ----- Inviting -----

  predicate InviteCause(s: State, org: Id, email: string, role: Name, limit: Option<nat>, e: Error) {
    (e == BadRequest && (role == OWNER || Full(s, org, limit) || !HasRole(s, org, role)))
    || (e == Conflict
        && exists i :: i in s.invitations && s.invitations[i].email == email && s.invitations[i].org == org
                       && s.invitations[i].status == PENDING)
  }

  /** Refused exactly when there is a cause to; an invitation that is sent is open for 48 hours. */
  lemma InviteRefusedFor(s: State, token: Id, org: Id, email: string, role: Name, now: int, limit: Option<nat>, e: Error)
    ensures var r := Invite(s, token, org, email, role, now, limit);
            (r == Refused(e) ==> InviteCause(s, org, email, role, limit, e))
            && (r.Done? ==>
                  && !InviteCause(s, org, email, role, limit, e)
                  && exists k :: IsNamed(s, k, org, role)
                       && r.state == s.(invitations := s.invitations[token := Invitation(org, email, k, PENDING, now + 172800)]))
  {
    FindsRoleIff(s, org, role);
    FullIff(s, org, limit);
    if Invite(s, token, org, email, role, now, limit).Done? {
      assert IsNamed(s, FindRole(s, org, role).value, org, role);
    }
  }

  // ----- Events are calls -----

  /** With new ids, in an organization there is, an event does exactly what its call does. */
  lemma EventsAreCalls(s: State, e: Event)
    ensures e.AddMembership? && e.id !in s.members && e.org in s.orgs ==>
              Step(s, e) == After(s, CreateMember(s, e.id, e.user, e.org, e.role, e.limit))
    ensures e.AddRole? && e.id !in s.roles && e.org in s.orgs ==>
              Step(s, e) == After(s, CreateRole(s, e.id, e.org, e.name, e.plan))
    ensures e.SendInvitation? && e.id !in s.invitations && e.org in s.orgs ==>
              Step(s, e) == After(s, Invite(s, e.id, e.org, e.email, e.roleName, e.now, e.limit))
    ensures e.AcceptInvitation? && e.id !in s.members ==> Step(s, e) == Accept(s, e.token, e.id, e.user, e.email, e.now).1
    ensures e.AcceptOnRegistration? && e.id !in s.members ==>
              Step(s, e) == After(s, AcceptInTransaction(s, e.token, e.id, e.user, e.email, e.now))
  {}

  lemma EditsAreCalls(s: State, id: Id, org: Id, role: Option<Name>, actor: Id)
    ensures Step(s, ChangeMembership(id, role, actor)) == After(s, UpdateMember(s, id, role, actor))
    ensures Step(s, EndMembership(id, actor)) == After(s, RemoveMember(s, id, actor))
    ensures Step(s, ChangeRole(id, org, role)) == After(s, UpdateRole(s, id, org, role))
    ensures Step(s, EndRole(id, org)) == After(s, RemoveRole(s, id, org))
    ensures Step(s, DropInvitation(id)) == s.(invitations := s.invitations - {id})
  {}

  lemma RunNext(s: State, es: seq<Event>, e: Event)
    ensures Run(s, es + [e]) == Step(Run(s, es), e)
  {
    assert (es + [e])[..|es|] == es;
  }
}

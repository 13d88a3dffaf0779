/**
 The plan's user limit when requests overlap (src/modules/organizations/domain/user-limit.helper.ts):
 seats are counted before an invitation or a membership is inserted, and nothing holds
 the count in between.
 */
module SeatRuns {
  import opened Options
  import opened Owners

  type Client = nat

  /** A row whose request has passed the count and is still to be inserted. */
  datatype Ask = AskMember(member: Member) | AskInvitation(invitation: Invitation)

  /** One organization on a plan with a limit, and the requests between count and insert. */
  datatype Race = Race(s: State, waiting: map<Client, Ask>)

  datatype Move =
    | Check(client: Client, ask: Ask)
    | Insert(client: Client, id: Id)
    | Meanwhile(event: Event)

  predicate For(org: Id, ask: Ask) {
    if ask.AskMember? then ask.member.org == org else ask.invitation.org == org && ask.invitation.status == PENDING
  }

  /** These two are a check and an insert here. */
  predicate MakesSeat(org: Id, e: Event) {
    (e.AddMembership? || e.SendInvitation?) && e.org == org
  }

  ghost function Inserted(s: State, id: Id, ask: Ask): State {
    match ask
    case AskMember(m) => After(s, AddMember(s, id, m))
    case AskInvitation(i) => s.(invitations := s.invitations[id := i])
  }

  ghost function Step(org: Id, limit: nat, r: Race, e: Move): Race {
    match e
    case Check(c, ask) =>
      if c in r.waiting || !For(org, ask) || LimitExceeded(r.s, org, Some(limit)) then r
      else r.(waiting := r.waiting[c := ask])
    case Insert(c, id) =>
      if c !in r.waiting || id in r.s.members || id in r.s.invitations then r
      else Race(Inserted(r.s, id, r.waiting[c]), r.waiting - {c})
    case Meanwhile(event) => if MakesSeat(org, event) then r else r.(s := Owners.Step(r.s, event))
  }

  ghost function Run(org: Id, limit: nat, r: Race, es: seq<Move>): Race {
    if |es| == 0 then r else Step(org, limit, Run(org, limit, r, es[..|es| - 1]), es[|es| - 1])
  }

  /** Everything else happens in between as it does without the race, other organizations' rows included. */
  lemma MeanwhileIsEvent(org: Id, limit: nat, r: Race, e: Event)
    requires (e.AddMembership? || e.SendInvitation?) ==> e.org != org
    ensures Step(org, limit, r, Meanwhile(e)) == Race(Owners.Step(r.s, e), r.waiting)
  {}

  // ----- Seats -----

  lemma SubsetSize<T>(a: set<T>, b: set<T>)
    requires a <= b
    ensures |a| <= |b|
  {
    if a != {} {
      var x :| x in a;
      SubsetSize(a - {x}, b - {x});
    }
  }

  lemma FewerSeats(s: State, t: State, org: Id)
    requires MembersOf(t, org) <= MembersOf(s, org) && PendingOf(t, org) <= PendingOf(s, org)
    ensures Seats(t, org) <= Seats(s, org)
  {
    SubsetSize(MembersOf(t, org), MembersOf(s, org));
    SubsetSize(PendingOf(t, org), PendingOf(s, org));
  }

  /** Nothing but a check and insert gives an organization that exists another seat. */
  lemma OthersTakeNone(s: State, e: Event, org: Id)
    requires org in s.orgs && !MakesSeat(org, e)
    ensures Seats(Owners.Step(s, e), org) <= Seats(s, org)
  {
    if e.AcceptInvitation? || e.AcceptOnRegistration? {
      AcceptTakesNone(s, e, org);
    } else if e.AddMembership? || e.FoundOrganization? || e.SendInvitation? {
      ElsewhereTakesNone(s, e, org);
    } else if e.ChangeMembership? {
      ChangeTakesNone(s, e.id, e.role, e.actor, org);
    } else {
      DropTakesNone(s, e, org);
    }
  }

  lemma DropTakesNone(s: State, e: Event, org: Id)
    requires e.EndMembership? || e.DropInvitation? || e.AddRole? || e.ChangeRole? || e.EndRole?
    ensures Seats(Owners.Step(s, e), org) <= Seats(s, org)
  {
    FewerSeats(s, Owners.Step(s, e), org);
  }

  lemma ChangeTakesNone(s: State, id: Id, role: Option<Name>, actor: Id, org: Id)
    ensures Seats(After(s, UpdateMember(s, id, role, actor)), org) <= Seats(s, org)
  {
    FewerSeats(s, After(s, UpdateMember(s, id, role, actor)), org);
  }

  lemma ElsewhereTakesNone(s: State, e: Event, org: Id)
    requires org in s.orgs && !MakesSeat(org, e) && (e.AddMembership? || e.FoundOrganization? || e.SendInvitation?)
    ensures Seats(Owners.Step(s, e), org) <= Seats(s, org)
  {
    FewerSeats(s, Owners.Step(s, e), org);
  }

  lemma JoinedElsewhere(s: State, token: Id, id: Id, user: Id, org: Id)
    requires token in s.invitations && s.invitations[token].org != org && id !in s.members
    ensures var i := s.invitations[token];
            Seats(SetStatus(s.(members := s.members[id := Member(user, i.org, i.role)]), token, ACCEPTED), org) <= Seats(s, org)
  {
    var i := s.invitations[token];
    FewerSeats(s, SetStatus(s.(members := s.members[id := Member(user, i.org, i.role)]), token, ACCEPTED), org);
  }

  lemma JoinTakesNone(s: State, token: Id, id: Id, user: Id, org: Id)
    requires token in s.invitations && s.invitations[token].status == PENDING && id !in s.members
    ensures var i := s.invitations[token];
            Seats(SetStatus(s.(members := s.members[id := Member(user, i.org, i.role)]), token, ACCEPTED), org) <= Seats(s, org)
  {
    if s.invitations[token].org == org {
      JoinKeepsSeats(s, token, id, user);
    } else {
      JoinedElsewhere(s, token, id, user, org);
    }
  }

  lemma ExpiryTakesNone(s: State, token: Id, org: Id)
    requires token in s.invitations
    ensures Seats(SetStatus(s, token, EXPIRED), org) <= Seats(s, org)
  {
    FewerSeats(s, SetStatus(s, token, EXPIRED), org);
  }

  lemma AcceptTakesNone(s: State, e: Event, org: Id)
    requires e.AcceptInvitation? || e.AcceptOnRegistration?
    ensures Seats(Owners.Step(s, e), org) <= Seats(s, org)
  {
    if e.token in s.invitations && e.id !in s.members {
      ExpiryTakesNone(s, e.token, org);
      if s.invitations[e.token].status == PENDING {
        JoinTakesNone(s, e.token, e.id, e.user, org);
      }
    }
  }

  /** The row goes in: its id is new, and the user is not a member yet. */
  ghost predicate Lands(r: Race, e: Move) {
    e.Insert? && e.client in r.waiting && e.id !in r.s.members && e.id !in r.s.invitations
    && var ask := r.waiting[e.client];
       ask.AskMember? ==> AddMember(r.s, e.id, ask.member).Done?
  }

  ghost predicate RaceInv(org: Id, r: Race) {
    org in r.s.orgs && forall c :: c in r.waiting ==> For(org, r.waiting[c])
  }

  lemma LandingTakesOne(org: Id, limit: nat, r: Race, e: Move)
    requires RaceInv(org, r) && Lands(r, e)
    ensures Seats(Step(org, limit, r, e).s, org) == Seats(r.s, org) + 1
  {
    var ask := r.waiting[e.client];
    if ask.AskMember? {
      MembersJoined(r.s, Inserted(r.s, e.id, ask), e.id, ask.member);
      assert PendingOf(Inserted(r.s, e.id, ask), org) == PendingOf(r.s, org);
    } else {
      InvitedPending(r.s, e.id, ask.invitation);
      assert e.id !in PendingOf(r.s, org);
    }
  }

  lemma OnlyLandingsTake(org: Id, limit: nat, r: Race, e: Move)
    requires RaceInv(org, r) && !Lands(r, e)
    ensures Seats(Step(org, limit, r, e).s, org) <= Seats(r.s, org)
  {
    if e.Meanwhile? && !MakesSeat(org, e.event) {
      OthersTakeNone(r.s, e.event, org);
    }
  }

  lemma OrgStays(s: State, e: Event, org: Id)
    requires org in s.orgs
    ensures org in Owners.Step(s, e).orgs
  {}

  lemma StepKeepsRace(org: Id, limit: nat, r: Race, e: Move)
    requires RaceInv(org, r)
    ensures RaceInv(org, Step(org, limit, r, e))
  {
    if e.Meanwhile? {
      OrgStays(r.s, e.event, org);
    }
  }

  lemma {:induction false} RunKeepsRace(org: Id, limit: nat, r: Race, es: seq<Move>)
    requires RaceInv(org, r)
    ensures RaceInv(org, Run(org, limit, r, es))
    decreases |es|
  {
    if |es| > 0 {
      RunKeepsRace(org, limit, r, es[..|es| - 1]);
      StepKeepsRace(org, limit, Run(org, limit, r, es[..|es| - 1]), es[|es| - 1]);
    }
  }

  // ----- When the limit is exceeded -----

  /** In every run, an organization within its limit is taken over it exactly by a row that goes in when every seat is taken. */
  lemma ExceededIff(org: Id, limit: nat, r: Race, es: seq<Move>, e: Move)
    requires RaceInv(org, r)
    requires Seats(Run(org, limit, r, es).s, org) <= limit
    ensures Seats(Run(org, limit, r, es + [e]).s, org) > limit
       <==> Lands(Run(org, limit, r, es), e) && Seats(Run(org, limit, r, es).s, org) == limit
  {
    var t := Run(org, limit, r, es);
    RunKeepsRace(org, limit, r, es);
    assert (es + [e])[..|es|] == es;
    if Lands(t, e) {
      LandingTakesOne(org, limit, t, e);
    } else {
      OnlyLandingsTake(org, limit, t, e);
    }
  }

  /** The client passed its count at step i, and has been waiting since. */
  ghost predicate CheckedAt(org: Id, limit: nat, r: Race, es: seq<Move>, i: int, c: Client) {
    0 <= i < |es| && es[i].Check? && es[i].client == c && Seats(Run(org, limit, r, es[..i]).s, org) < limit
    && forall k :: i < k <= |es| ==> c in Run(org, limit, r, es[..k]).waiting
  }

  lemma WaitStep(org: Id, limit: nat, r: Race, e: Move, c: Client)
    requires c in Step(org, limit, r, e).waiting && c !in r.waiting
    ensures e.Check? && e.client == c && Seats(r.s, org) < limit
  {}

  lemma {:induction false} CheckedSince(org: Id, limit: nat, r: Race, es: seq<Move>, c: Client) returns (i: int)
    requires r.waiting == map[] && c in Run(org, limit, r, es).waiting
    ensures CheckedAt(org, limit, r, es, i, c)
    decreases |es|
  {
    var n := |es| - 1;
    assert es[..|es|] == es;
    if c in Run(org, limit, r, es[..n]).waiting {
      i := CheckedSince(org, limit, r, es[..n], c);
      forall k | 0 <= k <= n ensures Run(org, limit, r, es[..n][..k]) == Run(org, limit, r, es[..k]) {
        assert es[..n][..k] == es[..k];
      }
      assert es[..n][i] == es[i];
    } else {
      WaitStep(org, limit, Run(org, limit, r, es[..n]), es[n], c);
      i := n;
    }
  }

  ghost predicate LandsAt(org: Id, limit: nat, r: Race, es: seq<Move>, j: int) {
    0 <= j < |es| && Lands(Run(org, limit, r, es[..j]), es[j])
  }

  lemma {:induction false} SeatsOnlyFall(org: Id, limit: nat, r: Race, es: seq<Move>, i: nat, n: nat)
    requires RaceInv(org, r) && i <= n <= |es| && forall j :: i <= j < n ==> !LandsAt(org, limit, r, es, j)
    ensures Seats(Run(org, limit, r, es[..n]).s, org) <= Seats(Run(org, limit, r, es[..i]).s, org)
    decreases n
  {
    if i < n {
      SeatsOnlyFall(org, limit, r, es, i, n - 1);
      RunKeepsRace(org, limit, r, es[..n - 1]);
      assert !LandsAt(org, limit, r, es, n - 1);
      OnlyLandingsTake(org, limit, Run(org, limit, r, es[..n - 1]), es[n - 1]);
      assert es[..n][..n - 1] == es[..n - 1];
    }
  }

  /** It takes two: between the count of a request that exceeds the limit and its insert, another request's row went in. */
  lemma ExceededBetween(org: Id, limit: nat, r: Race, es: seq<Move>, e: Move) returns (i: int, j: int)
    requires RaceInv(org, r) && r.waiting == map[]
    requires Lands(Run(org, limit, r, es), e) && Seats(Run(org, limit, r, es).s, org) >= limit
    ensures CheckedAt(org, limit, r, es, i, e.client)
    ensures i < j && LandsAt(org, limit, r, es, j)
  {
    i := CheckedSince(org, limit, r, es, e.client);
    assert es[..|es|] == es;
    if forall k :: i <= k < |es| ==> !LandsAt(org, limit, r, es, k) {
      SeatsOnlyFall(org, limit, r, es, i, |es|);
      assert false;
    }
    j :| i <= j < |es| && LandsAt(org, limit, r, es, j);
    assert !LandsAt(org, limit, r, es, i);
  }

  // ----- A request nobody interrupts -----

  lemma AloneIsInvite(r: Race, c: Client, token: Id, org: Id, email: string, role: Name, now: int, limit: nat) returns (i: Invitation)
    requires c !in r.waiting && token !in r.s.invitations && token !in r.s.members
    requires Invite(r.s, token, org, email, role, now, Some(limit)).Done?
    ensures Step(org, limit, Step(org, limit, r, Check(c, AskInvitation(i))), Insert(c, token))
         == r.(s := Invite(r.s, token, org, email, role, now, Some(limit)).state)
  {
    i := InviteShape(r.s, token, org, email, role, now, Some(limit));
    assert r.waiting[c := AskInvitation(i)] - {c} == r.waiting;
  }

  // ----- Two invitations for one seat -----

  const EMPTY_TEAM := State(map[5 := SystemRoles(1, 2)], map[], map[], map[])
  const ANN := Invitation(5, "ann", 3, PENDING, 0)
  const BOB := Invitation(5, "bob", 3, PENDING, 0)
  const RUSH := [Check(0, AskInvitation(ANN)), Check(1, AskInvitation(BOB)), Insert(0, 0), Insert(1, 1)]

  lemma RunTake(org: Id, limit: nat, r: Race, es: seq<Move>, i: nat)
    requires i < |es|
    ensures Run(org, limit, r, es[..i + 1]) == Step(org, limit, Run(org, limit, r, es[..i]), es[i])
  {
    assert es[..i + 1][..i] == es[..i];
  }

  lemma NobodySeated()
    ensures Seats(EMPTY_TEAM, 5) == 0
  {
    assert MembersOf(EMPTY_TEAM, 5) == {} && PendingOf(EMPTY_TEAM, 5) == {};
  }

  lemma BothSeated()
    ensures Seats(EMPTY_TEAM.(invitations := map[0 := ANN, 1 := BOB]), 5) == 2
  {
    var t := EMPTY_TEAM.(invitations := map[0 := ANN, 1 := BOB]);
    assert MembersOf(t, 5) == {} && PendingOf(t, 5) == {0, 1};
  }

  /** Both are counted before either goes in: a plan for one user ends with two seats taken. */
  lemma BothSlipIn()
    ensures Seats(Run(5, 1, Race(EMPTY_TEAM, map[]), RUSH).s, 5) == 2
  {
    var r := Race(EMPTY_TEAM, map[]);
    NobodySeated();
    RunTake(5, 1, r, RUSH, 0);
    RunTake(5, 1, r, RUSH, 1);
    RunTake(5, 1, r, RUSH, 2);
    RunTake(5, 1, r, RUSH, 3);
    assert RUSH[..0] == [] && RUSH[..4] == RUSH;
    var t := Run(5, 1, r, RUSH[..2]);
    assert t.s == EMPTY_TEAM && t.waiting == map[0 := AskInvitation(ANN), 1 := AskInvitation(BOB)];
    assert map[][0 := ANN][1 := BOB] == map[0 := ANN, 1 := BOB];
    BothSeated();
  }
}

/**
 What lets a request or a refresh through, spelled out over the store, and where the
 sessions that do so come from in any run of module Sessions.
 */
module SessionAccess {
  import opened Options
  import opened Sessions
  import SessionRuns

  /** The store has an unexpired blob under exactly this application, user and session id. */
  predicate Holds(s: State, scope: Scope, user: User, sid: Sid) {
    var k := Metadata(Owner(scope, user), sid);
    k in s.cells && (s.cells[k].expiry.None? || s.now < s.cells[k].expiry.value)
  }

  // ----- The guard -----

  /** A bearer passes exactly when its token runs, names its application, the route does not ask for the other, and its session is held. */
  lemma PassesIff(s: State, b: Bearer, required: Option<Scope>)
    ensures GuardAccepts(s, b, required) <==>
              && s.now < b.exp
              && b.scope.Some?
              && (required.Some? ==> required.value == b.scope.value)
              && Holds(s, b.scope.value, b.user, b.sid)
  {}

  /** It leaves one write behind when five minutes have passed since the session was last seen, and else nothing. */
  lemma PassingWrites(s: State, b: Bearer, required: Option<Scope>, ticket: nat)
    requires GuardAccepts(s, b, required)
    ensures var k := Metadata(Owner(b.scope.value, b.user), b.sid);
            var blob := s.cells[k].blob;
            var seen := if blob.lastSeenAt.Some? then blob.lastSeenAt.value else blob.createdAt;
            Guard(s, b, required, ticket) ==
              if s.now >= seen + 300 then s.(pending := s.pending + {Write(k, blob.(lastSeenAt := Some(s.now)), ticket)}) else s
  {}

  // ----- Refreshing -----

  predicate RowStands(s: State, t: Token) {
    t in s.rows && s.rows[t].owner == t.owner
  }

  /** A refresh token is exchanged exactly when it runs, is shown to its own application, has its row, is in time, has its session and an active user. */
  lemma RefreshedIff(l: Lifetimes, s: State, t: Token, scope: Scope, active: bool, n: Sid)
    ensures Refresh(l, s, t, scope, active, n).Rotated? <==>
              && s.now < t.exp
              && t.owner.scope == scope
              && RowStands(s, t)
              && s.now <= s.rows[t].expiresAt
              && Holds(s, t.owner.scope, t.owner.user, t.sid)
              && active
  {}

  /** A refusal leaves the store alone, save that a row past its end or without its session is deleted. */
  lemma RefusedStores(l: Lifetimes, s: State, t: Token, scope: Scope, active: bool, n: Sid)
    requires Refresh(l, s, t, scope, active, n).Unauthorized?
    ensures var spent := s.now < t.exp && t.owner.scope == scope && RowStands(s, t)
                         && (s.now > s.rows[t].expiresAt || !Holds(s, t.owner.scope, t.owner.user, t.sid));
            Refresh(l, s, t, scope, active, n).state == if spent then s.(rows := s.rows - {t}) else s
  {}

  // ----- Where sessions come from -----

  /** This event may open that session: a sign-in, or an active user's refresh in the same application. */
  predicate Opens(e: Event, o: Owner, sid: Sid) {
    e == SignIn(o, sid)
    || (e.RefreshToken? && e.sid == sid && e.token.owner == o && e.scope == o.scope && e.userActive)
  }

  lemma StepOpens(l: Lifetimes, s: State, e: Event, sid: Sid)
    requires sid in Step(l, s, e).born && sid !in s.born
    ensures Opens(e, Step(l, s, e).born[sid].owner, sid)
  {
    if e.RefreshToken? {
      RefreshedIff(l, s, e.token, e.scope, e.userActive, e.sid);
    } else if SessionRuns.OnlyTakesAway(e) {
      SessionRuns.KillShrinks(l, s, e);
    }
  }

  lemma BirthStays(l: Lifetimes, s: State, e: Event, sid: Sid)
    requires sid in s.born
    ensures sid in Step(l, s, e).born && Step(l, s, e).born[sid] == s.born[sid]
  {
    SessionRuns.BornStays(l, s, e, sid);
  }

  lemma {:induction false} BornByEvent(l: Lifetimes, es: seq<Event>, sid: Sid)
    requires sid in Run(l, SessionRuns.EMPTY, es).born
    ensures exists i :: 0 <= i < |es| && Opens(es[i], Run(l, SessionRuns.EMPTY, es).born[sid].owner, sid)
  {
    if |es| > 0 {
      var n := |es| - 1;
      var before := Run(l, SessionRuns.EMPTY, es[..n]);
      if sid in before.born {
        BornByEvent(l, es[..n], sid);
        BirthStays(l, before, es[n], sid);
        var i :| 0 <= i < n && Opens(es[..n][i], before.born[sid].owner, sid);
        assert es[i] == es[..n][i];
      } else {
        StepOpens(l, before, es[n], sid);
      }
    }
  }

  /**
   In every run, whoever passes a route signed in to that route's application, or refreshed
   a token of it, as that user and with that session id; so a token of one application never
   passes a route of the other.
   */
  lemma PassesOnlyItsApplication(l: Lifetimes, es: seq<Event>, b: Bearer, required: Option<Scope>)
    requires GuardAccepts(Run(l, SessionRuns.EMPTY, es), b, required)
    ensures b.scope.Some? && (required.Some? ==> required == b.scope)
    ensures exists i :: 0 <= i < |es| && Opens(es[i], Owner(b.scope.value, b.user), b.sid)
  {
    var s := Run(l, SessionRuns.EMPTY, es);
    SessionRuns.EmptyFits(l);
    SessionRuns.RunFits(l, SessionRuns.EMPTY, es);
    PassesIff(s, b, required);
    SessionRuns.LiveBorn(l, s, Metadata(Owner(b.scope.value, b.user), b.sid));
    BornByEvent(l, es, b.sid);
  }

  /** Nor is a refresh token of one application ever exchanged by the other, or one of an inactive user by either. */
  lemma ExchangedOnlyAtItsApplication(l: Lifetimes, es: seq<Event>, t: Token, scope: Scope, active: bool, n: Sid)
    requires Refresh(l, Run(l, SessionRuns.EMPTY, es), t, scope, active, n).Rotated?
    ensures t.owner.scope == scope && active
    ensures exists i :: 0 <= i < |es| && Opens(es[i], t.owner, t.sid)
  {
    var s := Run(l, SessionRuns.EMPTY, es);
    SessionRuns.EmptyFits(l);
    SessionRuns.RunFits(l, SessionRuns.EMPTY, es);
    RefreshedIff(l, s, t, scope, active, n);
    SessionRuns.LiveBorn(l, s, Metadata(t.owner, t.sid));
    BornByEvent(l, es, t.sid);
  }

  // ----- What each call stores -----

  /** How long sessions of an application last. */
  function Lifetime(l: Lifetimes, scope: Scope): nat {
    match scope
    case ADMIN => l.admin
    case TENANT => l.tenant
  }

  function IndexOf(s: State, o: Owner): set<Sid> {
    if UserSessions(o) in s.sets then s.sets[UserSessions(o)] else {}
  }

  /** The indexes are as before but for one owner's. */
  ghost predicate Reindexed(s: State, t: State, o: Owner, members: set<Sid>) {
    forall p :: IndexOf(t, p) == if p == o then members else IndexOf(s, p)
  }

  /** Blob, row and token of a new session name the same end, its application's lifetime from now, and the store keeps the blob as long. */
  predicate Minted(l: Lifetimes, s: State, t: State, o: Owner, sid: Sid) {
    var life := Lifetime(l, o.scope);
    var end := s.now + life;
    t.cells == s.cells[Metadata(o, sid) := Cell(Blob(sid, s.now, end, None), if life == 0 then None else Some(end))]
    && t.rows == s.rows[Token(o, sid, end) := Row(o, end)]
  }

  lemma SignInStores(l: Lifetimes, s: State, o: Owner, sid: Sid)
    requires sid !in s.born
    ensures var t := Step(l, s, SignIn(o, sid));
            Minted(l, s, t, o, sid) && Reindexed(s, t, o, IndexOf(s, o) + {sid}) && t.pending == s.pending && t.captured == s.captured
  {}

  /** A session that is forgotten leaves the store and its index; nothing else changes. */
  lemma ForgetStores(s: State, o: Owner, sid: Sid)
    ensures var t := Forget(s, o, sid);
            t.cells == s.cells - {Metadata(o, sid)} && Reindexed(s, t, o, IndexOf(s, o) - {sid})
            && t == s.(cells := t.cells, sets := t.sets)
  {}

  /** Exchanging a token: the new session as by a sign-in, and the old one's blob, index entry and row gone. */
  lemma RotationStores(l: Lifetimes, s: State, t: Token, scope: Scope, active: bool, n: Sid)
    requires Refresh(l, s, t, scope, active, n).Rotated? && n !in s.born && n != t.sid
    ensures var u, o, end := Refresh(l, s, t, scope, active, n).state, t.owner, s.now + Lifetime(l, t.owner.scope);
            u.cells == s.cells[Metadata(o, n) := Cell(Blob(n, s.now, end, None), if end == s.now then None else Some(end))] - {Metadata(o, t.sid)}
            && u.rows == s.rows[Token(o, n, end) := Row(o, end)] - {t}
            && Reindexed(s, u, o, IndexOf(s, o) + {n} - {t.sid})
  {}

  /** One session is ended exactly when it is held, and reported missing otherwise. */
  lemma RevokeStores(s: State, o: Owner, sid: Sid)
    ensures Revoke(s, o, sid).Some? <==> Holds(s, o.scope, o.user, sid)
    ensures Revoke(s, o, sid).Some? ==> Revoke(s, o, sid).value == Forget(s, o, sid)
  {}

  /** Without an application it is looked for in the console first and in the dashboard only if it is not there. */
  lemma RevokeAnyScopeStores(s: State, user: User, sid: Sid)
    ensures RevokeAnyScope(s, user, sid)
         == if Holds(s, ADMIN, user, sid) then Some(Forget(s, Owner(ADMIN, user), sid))
            else if Holds(s, TENANT, user, sid) then Some(Forget(s, Owner(TENANT, user), sid))
            else None
  {}

  /** All others: of the indexed sessions the kept one alone is left, in the store and in the index. */
  lemma RevokeOthersStores(s: State, o: Owner, keep: Sid)
    ensures var t := RevokeOthers(s, o, keep);
            Reindexed(s, t, o, IndexOf(s, o) * {keep})
            && t == s.(cells := t.cells, sets := t.sets)
            && (forall k :: k in t.cells <==> k in s.cells && !(k.Metadata? && k.owner == o && k.sid in IndexOf(s, o) && k.sid != keep))
            && (forall k :: k in t.cells ==> t.cells[k] == s.cells[k])
  {}

  /** Everything: no index, no indexed blob and no refresh row of the user is left, in either application. */
  lemma RevokeAllStores(s: State, user: User)
    ensures var t := RevokeAll(s, user);
            && (forall o :: IndexOf(t, o) == if o.user == user then {} else IndexOf(s, o))
            && (forall k :: k in t.cells <==> k in s.cells && !(k.Metadata? && k.owner.user == user && k.sid in IndexOf(s, k.owner)))
            && (forall k :: k in t.cells ==> t.cells[k] == s.cells[k])
            && (forall x :: x in t.rows <==> x in s.rows && s.rows[x].owner.user != user)
            && (forall x :: x in t.rows ==> t.rows[x] == s.rows[x])
            && t == s.(cells := t.cells, sets := t.sets, rows := t.rows)
  {
    forall o: Owner | o.user == user ensures o == Owner(ADMIN, user) || o == Owner(TENANT, user) {
      match o.scope
      case ADMIN =>
      case TENANT =>
    }
  }

  /** Signing out forgets the session, and deletes the token shown with it only if its row is that user's in that application. */
  lemma LogoutStores(s: State, o: Owner, sid: Sid, t: Option<Token>)
    ensures var u, f := Logout(s, o, sid, t), Forget(s, o, sid);
            u.cells == f.cells && u.sets == f.sets
            && u.rows == (if t.Some? && t.value in s.rows && s.rows[t.value].owner == o then s.rows - {t.value} else s.rows)
  {
    ForgetStores(s, o, sid);
  }

  /** Listing drops from the index exactly the sessions the store no longer holds. */
  lemma ListStores(s: State, o: Owner)
    ensures var t := Pruned(s, o);
            Reindexed(s, t, o, set sid | sid in IndexOf(s, o) && Holds(s, o.scope, o.user, sid)) && t == s.(sets := t.sets)
  {}

  /** A key is found exactly while it is there and unexpired, with the blob stored last. */
  lemma FindsIff(s: State, k: RedisKey, blob: Blob)
    ensures Find(s, k) == Some(blob) <==>
              k in s.cells && (s.cells[k].expiry.None? || s.now < s.cells[k].expiry.value) && s.cells[k].blob == blob
  {}

  /** A write's TTL is read once: what is read is no longer pending, and the store is left alone. */
  lemma TtlReadOnce(s: State, w: Write)
    ensures CaptureTtl(s, w).pending == s.pending - {w} && CaptureTtl(s, w).cells == s.cells
  {}

  /** And it is set once, to the blob it was issued with. */
  lemma SetOnce(s: State, r: Reading)
    ensures SetCaptured(s, r).captured == s.captured - {r} && SetCaptured(s, r).pending == s.pending
    ensures r in s.captured ==> r.write.key in SetCaptured(s, r).cells && SetCaptured(s, r).cells[r.write.key].blob == r.write.blob
  {}

  /** Every event is its call; ending a session that is not there does nothing. */
  lemma EventsAreCalls(l: Lifetimes, s: State, o: Owner, sid: Sid, t: Option<Token>)
    ensures Step(l, s, Kill(o, sid)) == if Revoke(s, o, sid).Some? then Revoke(s, o, sid).value else s
    ensures Step(l, s, KillAnyScope(o.user, sid))
         == if RevokeAnyScope(s, o.user, sid).Some? then RevokeAnyScope(s, o.user, sid).value else s
    ensures Step(l, s, KillOthers(o, sid)) == RevokeOthers(s, o, sid)
    ensures Step(l, s, KillAll(o.user)) == RevokeAll(s, o.user)
    ensures Step(l, s, SignOut(o, sid, t)) == Logout(s, o, sid, t)
    ensures Step(l, s, ListSessions(o)) == Pruned(s, o)
  {}

  // ----- Redis keeps no empty set -----

  predicate NoEmptySet(s: State) {
    forall k :: k in s.sets ==> s.sets[k] != {}
  }

  lemma EndingKeepsSets(s: State, o: Owner, sid: Sid)
    requires NoEmptySet(s)
    ensures NoEmptySet(Forget(s, o, sid)) && NoEmptySet(RevokeOthers(s, o, sid)) && NoEmptySet(Pruned(s, o))
  {}

  lemma OpeningKeepsSets(l: Lifetimes, s: State, o: Owner, sid: Sid, root: Sid)
    requires NoEmptySet(s)
    ensures NoEmptySet(Mint(l, s, o, sid, root))
  {}

  lemma RefreshKeepsSets(l: Lifetimes, s: State, t: Token, scope: Scope, active: bool, n: Sid)
    requires NoEmptySet(s)
    ensures NoEmptySet(Refresh(l, s, t, scope, active, n).state)
  {
    if Refresh(l, s, t, scope, active, n).Rotated? {
      var minted := Mint(l, s, t.owner, n, RootOf(s, t.sid));
      OpeningKeepsSets(l, s, t.owner, n, RootOf(s, t.sid));
      EndingKeepsSets(minted.(rows := minted.rows - {t}, replaced := minted.replaced + {t.sid}), t.owner, t.sid);
    }
  }

  lemma StepKeepsSets(l: Lifetimes, s: State, e: Event)
    requires NoEmptySet(s)
    ensures NoEmptySet(Step(l, s, e))
  {
    match e
    case SignIn(o, sid) => OpeningKeepsSets(l, s, o, sid, sid);
    case RefreshToken(t, scope, active, sid) => RefreshKeepsSets(l, s, t, scope, active, sid);
    case SignOut(o, sid, _) => EndingKeepsSets(s, o, sid);
    case Kill(o, sid) => EndingKeepsSets(s, o, sid);
    case KillAnyScope(user, sid) =>
      EndingKeepsSets(s, Owner(ADMIN, user), sid);
      EndingKeepsSets(s, Owner(TENANT, user), sid);
    case KillOthers(o, keep) => EndingKeepsSets(s, o, keep);
    case ListSessions(o) => EndingKeepsSets(s, o, 0);
    case _ =>
  }

  lemma {:induction false} RunKeepsSets(l: Lifetimes, es: seq<Event>)
    ensures NoEmptySet(Run(l, SessionRuns.EMPTY, es))
  {
    if |es| > 0 {
      RunKeepsSets(l, es[..|es| - 1]);
      StepKeepsSets(l, Run(l, SessionRuns.EMPTY, es[..|es| - 1]), es[|es| - 1]);
    }
  }
}

/**
 Redis, the refresh_tokens table and the services over them in the form the code has:
 keys overwritten and deleted one by one, loops over a user's session ids, and token
 rows created and deleted. Each call is proved equal to its function in module Sessions.
 */
module SessionsService {
  import opened Options
  import opened Sessions

  predicate NoEmptySets(s: State) {
    forall k :: k in s.sets ==> s.sets[k] != {}
  }

  function Ids(s: seq<Sid>): set<Sid> {
    set x | x in s
  }

  predicate Distinct(s: seq<Sid>) {
    forall i, j :: 0 <= i < j < |s| ==> s[i] != s[j]
  }

  lemma PushId(s: seq<Sid>, sid: Sid)
    requires sid !in Ids(s)
    ensures Ids(s + [sid]) == Ids(s) + {sid}
    ensures Distinct(s) ==> Distinct(s + [sid])
  {}

  /** The ids listed so far and those left are the members, none twice. */
  predicate Split(ids: seq<Sid>, left: set<Sid>, members: set<Sid>) {
    Ids(ids) + left == members && Ids(ids) * left == {} && Distinct(ids)
  }

  lemma SplitNext(ids: seq<Sid>, left: set<Sid>, members: set<Sid>, sid: Sid)
    requires Split(ids, left, members) && sid in left
    ensures Split(ids + [sid], left - {sid}, members)
  {
    assert sid !in Ids(ids);
    PushId(ids, sid);
    assert Ids(ids) + {sid} + (left - {sid}) == members;
  }

  lemma DistinctSize(s: seq<Sid>)
    requires Distinct(s)
    ensures |Ids(s)| == |s|
  {
    if |s| > 0 {
      var front, last := s[..|s| - 1], s[|s| - 1];
      assert s == front + [last];
      assert Ids(s) == Ids(front) + {last};
      DistinctSize(front);
    }
  }

  /** What RedisCacheService reaches, with the writes nobody waits for, and the refresh_tokens table. */
  class Backend {
    var cells: map<RedisKey, Cell>
    var sets: map<RedisKey, set<Sid>>
    var queue: set<Write>
    var captured: set<Reading>
    var rows: map<Token, Row>
    var now: int
    ghost var born: map<Sid, Birth>
    ghost var replaced: set<Sid>
    ghost var revived: set<RedisKey>

    ghost function State(): State
      reads this
    {
      Sessions.State(cells, sets, rows, queue, captured, now, born, replaced, revived)
    }

    constructor ()
      ensures State() == Sessions.State(map[], map[], map[], {}, {}, 0, map[], {}, {})
    {
      cells, sets, queue, captured, rows, now := map[], map[], {}, {}, map[], 0;
      born, replaced, revived := map[], {}, {};
    }

    method Get(k: RedisKey) returns (blob: Option<Blob>)
      ensures blob == Find(State(), k)
    {
      if k !in cells {
        return None;
      }
      if cells[k].expiry.Some? && cells[k].expiry.value <= now {
        return None;
      }
      blob := Some(cells[k].blob);
    }

    /** -2: no such key. -1: no expiry. Otherwise the seconds left. */
    method TtlOf(k: RedisKey) returns (seconds: int)
      ensures seconds == -2 <==> !Live(State(), k)
      ensures seconds == -1 <==> Live(State(), k) && cells[k].expiry.None?
      ensures seconds >= 0 ==> Live(State(), k) && cells[k].expiry == Some(now + seconds)
      ensures seconds >= -2
    {
      var blob := Get(k);
      if blob.None? {
        return -2;
      }
      if cells[k].expiry.None? {
        return -1;
      }
      seconds := cells[k].expiry.value - now;
    }

    method Set(k: RedisKey, blob: Blob, ttlSeconds: nat)
      modifies this`cells
      ensures State() == Sessions.Set(old(State()), k, blob, ttlSeconds)
    {
      if ttlSeconds > 0 {
        cells := cells[k := Cell(blob, Some(now + ttlSeconds))];
        return;
      }
      cells := cells[k := Cell(blob, None)];
    }

    /** Up to the first await: the write reads its key's TTL, and ends there if the key is gone. */
    method SetPreservingTtl(w: Write) returns (going: bool)
      requires w in queue
      modifies this`queue, this`captured
      ensures State() == CaptureTtl(old(State()), w)
      ensures going <==> Live(old(State()), w.key)
    {
      var ttlSeconds := TtlOf(w.key);
      queue := queue - {w};
      if ttlSeconds == -2 {
        return false;
      }
      captured := captured + {Reading(w, if ttlSeconds == -1 then None else Some(ttlSeconds))};
      going := true;
    }

    /** What follows it, whenever that is: SET, with no look at the key. */
    method SetWithTtl(r: Reading)
      requires r in captured
      modifies this`cells, this`captured, this`revived
      ensures State() == SetCaptured(old(State()), r)
    {
      if !Live(State(), r.write.key) {
        revived := revived + {r.write.key};
      }
      captured := captured - {r};
      if r.ttl.None? {
        cells := cells[r.write.key := Cell(r.write.blob, None)];
        return;
      }
      cells := cells[r.write.key := Cell(r.write.blob, Some(now + r.ttl.value))];
    }

    /** DEL, on a key that holds a blob. */
    method DeleteBlob(k: RedisKey)
      modifies this`cells
      ensures cells == old(cells) - {k}
    {
      cells := cells - {k};
    }

    /** DEL, on a key that holds a set. */
    method DeleteSet(k: RedisKey)
      modifies this`sets
      ensures sets == old(sets) - {k}
    {
      sets := sets - {k};
    }

    method Sadd(k: RedisKey, sid: Sid)
      modifies this`sets
      ensures State() == Sessions.Sadd(old(State()), k, sid)
    {
      sets := sets[k := (if k in sets then sets[k] else {}) + {sid}];
    }

    method Srem(k: RedisKey, sid: Sid)
      modifies this`sets
      ensures State() == Sessions.Srem(old(State()), k, sid)
    {
      if k !in sets {
        return;
      }
      if sets[k] - {sid} == {} {
        sets := sets - {k};
      } else {
        sets := sets[k := sets[k] - {sid}];
      }
    }

    /** The members in some order, each once. */
    method Smembers(k: RedisKey) returns (ids: seq<Sid>)
      ensures Ids(ids) == Members(State(), k) && Distinct(ids)
    {
      var left := if k in sets then sets[k] else {};
      ids := [];
      while left != {}
        invariant Split(ids, left, Members(State(), k))
        decreases |left|
      {
        var sid :| sid in left;
        SplitNext(ids, left, Members(State(), k), sid);
        left := left - {sid};
        ids := ids + [sid];
      }
    }

    method Mget(keys: seq<RedisKey>) returns (stored: seq<Option<Blob>>)
      ensures |stored| == |keys|
      ensures forall i :: 0 <= i < |keys| ==> stored[i] == Find(State(), keys[i])
    {
      stored := [];
      for n := 0 to |keys|
        invariant |stored| == n
        invariant forall i :: 0 <= i < n ==> stored[i] == Find(State(), keys[i])
      {
        var blob := Get(keys[n]);
        stored := stored + [blob];
      }
    }
  }

  /** A listed session; `current` marks the one that asks. */
  datatype SessionView = SessionView(scope: Scope, current: bool, blob: Blob)

  predicate Shown(views: seq<SessionView>, b: Blob) {
    exists v :: v in views && v.blob == b
  }

  lemma ShownMore(views: seq<SessionView>, view: SessionView)
    ensures Shown(views + [view], view.blob)
    ensures forall b :: Shown(views, b) ==> Shown(views + [view], b)
  {
    assert view in views + [view];
    forall b | Shown(views, b) ensures Shown(views + [view], b) {
      var v :| v in views && v.blob == b;
      assert v in views + [view];
    }
  }

  /** Every live session is shown, and nothing else. */
  predicate ShowsExactly(s: State, o: Owner, views: seq<SessionView>) {
    (forall v :: v in views ==> exists sid :: sid in Members(s, UserSessions(o)) && Find(s, Metadata(o, sid)) == Some(v.blob))
    && (forall sid :: sid in Members(s, UserSessions(o)) && Find(s, Metadata(o, sid)).Some? ==>
          Shown(views, Find(s, Metadata(o, sid)).value))
  }

  function Trimmed(s: State, o: Owner, gone: set<Sid>): State {
    var left := Members(s, UserSessions(o)) - gone;
    s.(sets := if left == {} then s.sets - {UserSessions(o)} else s.sets[UserSessions(o) := left])
  }

  lemma TrimOne(s: State, o: Owner, gone: set<Sid>, sid: Sid)
    requires NoEmptySets(s)
    ensures Srem(Trimmed(s, o, gone), UserSessions(o), sid) == Trimmed(s, o, gone + {sid})
    ensures Trimmed(s, o, {}) == s
  {
    assert Members(s, UserSessions(o)) - gone - {sid} == Members(s, UserSessions(o)) - (gone + {sid});
    assert Members(s, UserSessions(o)) - {} == Members(s, UserSessions(o));
    assert Trimmed(s, o, {}).sets == s.sets;
  }

  lemma ForgetOne(s: State, o: Owner, gone: set<Sid>, sid: Sid)
    requires NoEmptySets(s)
    ensures Forget(ForgetAll(s, o, gone), o, sid) == ForgetAll(s, o, gone + {sid})
  {
    assert Members(s, UserSessions(o)) - gone - {sid} == Members(s, UserSessions(o)) - (gone + {sid});
    assert Forget(ForgetAll(s, o, gone), o, sid).cells == ForgetAll(s, o, gone + {sid}).cells;
    assert Forget(ForgetAll(s, o, gone), o, sid).sets == ForgetAll(s, o, gone + {sid}).sets;
  }

  lemma ForgetNone(s: State, o: Owner)
    requires NoEmptySets(s)
    ensures ForgetAll(s, o, {}) == s
  {
    assert Members(s, UserSessions(o)) - {} == Members(s, UserSessions(o));
    assert ForgetAll(s, o, {}).sets == s.sets;
    assert ForgetAll(s, o, {}).cells == s.cells;
  }

  class SessionsService {
    const backend: Backend

    constructor (b: Backend)
      ensures backend == b
    {
      backend := b;
    }

    /** The live sessions, and the index without the ids that have none. */
    method List(o: Owner, currentSid: Option<Sid>) returns (views: seq<SessionView>)
      requires NoEmptySets(backend.State())
      modifies backend`sets
      ensures backend.State() == Pruned(old(backend.State()), o)
      ensures forall v :: v in views ==> v.scope == o.scope && (v.current <==> currentSid == Some(v.blob.sid))
      ensures ShowsExactly(old(backend.State()), o, views)
    {
      ghost var was := backend.State();
      var sessionIds := backend.Smembers(UserSessions(o));
      var keys := seq(|sessionIds|, i requires 0 <= i < |sessionIds| => Metadata(o, sessionIds[i]));
      var stored := backend.Mget(keys);
      var expiredSids: seq<Sid> := [];
      views := [];
      for i := 0 to |stored|
        invariant backend.State() == was
        invariant forall sid :: sid in expiredSids <==> exists j :: 0 <= j < i && sessionIds[j] == sid && stored[j].None?
        invariant forall v :: v in views ==>
                    v.scope == o.scope && (v.current <==> currentSid == Some(v.blob.sid))
                    && exists j :: 0 <= j < i && stored[j] == Some(v.blob)
        invariant forall j :: 0 <= j < i && stored[j].Some? ==> Shown(views, stored[j].value)
      {
        if stored[i].None? {
          expiredSids := expiredSids + [sessionIds[i]];
        } else {
          var view := SessionView(o.scope, currentSid == Some(stored[i].value.sid), stored[i].value);
          ShownMore(views, view);
          views := views + [view];
        }
      }
      ViewsCover(was, o, sessionIds, stored, views);
      DeadAreExpired(was, o, sessionIds, stored, expiredSids);
      TrimOne(was, o, {}, 0);
      assert Ids(expiredSids[..0]) == {};
      for i := 0 to |expiredSids|
        invariant backend.State() == Trimmed(was, o, Ids(expiredSids[..i]))
      {
        TrimOne(was, o, Ids(expiredSids[..i]), expiredSids[i]);
        assert Ids(expiredSids[..i + 1]) == Ids(expiredSids[..i]) + {expiredSids[i]};
        backend.Srem(UserSessions(o), expiredSids[i]);
      }
      assert expiredSids[..|expiredSids|] == expiredSids;
    }

    static lemma DeadAreExpired(was: State, o: Owner, sessionIds: seq<Sid>, stored: seq<Option<Blob>>, expired: seq<Sid>)
      requires Ids(sessionIds) == Members(was, UserSessions(o)) && |stored| == |sessionIds|
      requires forall i :: 0 <= i < |stored| ==> stored[i] == Find(was, Metadata(o, sessionIds[i]))
      requires forall sid :: sid in expired <==> exists j :: 0 <= j < |stored| && sessionIds[j] == sid && stored[j].None?
      ensures Ids(expired) == Dead(was, o)
    {
      forall sid ensures sid in Ids(expired) <==> sid in Dead(was, o) {
        if sid in Dead(was, o) {
          assert sid in Ids(sessionIds);
          var j :| 0 <= j < |sessionIds| && sessionIds[j] == sid;
          assert stored[j].None?;
        }
        if sid in expired {
          var j :| 0 <= j < |stored| && sessionIds[j] == sid && stored[j].None?;
          assert sid in Ids(sessionIds);
        }
      }
    }

    static lemma ViewsCover(was: State, o: Owner, sessionIds: seq<Sid>, stored: seq<Option<Blob>>, views: seq<SessionView>)
      requires Ids(sessionIds) == Members(was, UserSessions(o)) && |stored| == |sessionIds|
      requires forall i :: 0 <= i < |stored| ==> stored[i] == Find(was, Metadata(o, sessionIds[i]))
      requires forall v :: v in views ==> exists j :: 0 <= j < |stored| && stored[j] == Some(v.blob)
      requires forall j :: 0 <= j < |stored| && stored[j].Some? ==> Shown(views, stored[j].value)
      ensures ShowsExactly(was, o, views)
    {
      forall v | v in views
        ensures exists sid :: sid in Members(was, UserSessions(o)) && Find(was, Metadata(o, sid)) == Some(v.blob)
      {
        var j :| 0 <= j < |stored| && stored[j] == Some(v.blob);
        assert sessionIds[j] in Ids(sessionIds);
      }
      forall sid | sid in Members(was, UserSessions(o)) && Find(was, Metadata(o, sid)).Some?
        ensures Shown(views, Find(was, Metadata(o, sid)).value)
      {
        assert sid in Ids(sessionIds);
        var j :| 0 <= j < |sessionIds| && sessionIds[j] == sid;
        assert stored[j].Some?;
      }
    }

    method Forget(o: Owner, sid: Sid)
      modifies backend`cells, backend`sets
      ensures backend.State() == Sessions.Forget(old(backend.State()), o, sid)
    {
      backend.DeleteBlob(Metadata(o, sid));
      backend.Srem(UserSessions(o), sid);
    }

    method Revoke(o: Owner, sid: Sid) returns (found: bool)
      modifies backend`cells, backend`sets
      ensures found <==> Sessions.Revoke(old(backend.State()), o, sid).Some?
      ensures backend.State() == OrElse(Sessions.Revoke(old(backend.State()), o, sid), old(backend.State()))
    {
      var exists' := backend.Get(Metadata(o, sid));
      if exists'.None? {
        return false;
      }
      Forget(o, sid);
      found := true;
    }

    method RevokeAnyScope(user: User, sid: Sid) returns (found: bool)
      modifies backend`cells, backend`sets
      ensures found <==> Sessions.RevokeAnyScope(old(backend.State()), user, sid).Some?
      ensures backend.State() == OrElse(Sessions.RevokeAnyScope(old(backend.State()), user, sid), old(backend.State()))
    {
      var admin := backend.Get(Metadata(Owner(ADMIN, user), sid));
      if admin.Some? {
        found := Revoke(Owner(ADMIN, user), sid);
        return;
      }
      var tenant := backend.Get(Metadata(Owner(TENANT, user), sid));
      if tenant.Some? {
        found := Revoke(Owner(TENANT, user), sid);
        return;
      }
      found := false;
    }

    method RevokeOthers(o: Owner, keepSid: Sid) returns (revoked: nat)
      requires NoEmptySets(backend.State())
      modifies backend`cells, backend`sets
      ensures backend.State() == Sessions.RevokeOthers(old(backend.State()), o, keepSid)
      ensures revoked == |Members(old(backend.State()), UserSessions(o)) - {keepSid}|
    {
      var sessionIds := backend.Smembers(UserSessions(o));
      var doomed := AllBut(sessionIds, keepSid);
      ForgetEach(o, doomed);
      DistinctSize(doomed);
      revoked := |doomed|;
    }

    static method AllBut(sessionIds: seq<Sid>, keepSid: Sid) returns (doomed: seq<Sid>)
      requires Distinct(sessionIds)
      ensures Ids(doomed) == Ids(sessionIds) - {keepSid} && Distinct(doomed)
    {
      doomed := [];
      for i := 0 to |sessionIds|
        invariant Ids(doomed) == Ids(sessionIds[..i]) - {keepSid} && Distinct(doomed)
      {
        assert sessionIds[..i + 1] == sessionIds[..i] + [sessionIds[i]];
        PushId(sessionIds[..i], sessionIds[i]);
        if sessionIds[i] != keepSid {
          PushId(doomed, sessionIds[i]);
          doomed := doomed + [sessionIds[i]];
        }
      }
      assert sessionIds[..|sessionIds|] == sessionIds;
    }

    method ForgetEach(o: Owner, doomed: seq<Sid>)
      requires NoEmptySets(backend.State())
      modifies backend`cells, backend`sets
      ensures backend.State() == ForgetAll(old(backend.State()), o, Ids(doomed))
    {
      ghost var was := backend.State();
      ForgetNone(was, o);
      assert Ids(doomed[..0]) == {};
      for i := 0 to |doomed|
        invariant backend.State() == ForgetAll(was, o, Ids(doomed[..i]))
      {
        ForgetOne(was, o, Ids(doomed[..i]), doomed[i]);
        assert Ids(doomed[..i + 1]) == Ids(doomed[..i]) + {doomed[i]};
        Forget(o, doomed[i]);
      }
      assert doomed[..|doomed|] == doomed;
    }

    /** One application of revokeAll: every indexed blob, then the index key itself. */
    method ClearOne(o: Owner) returns (count: nat)
      modifies backend`cells, backend`sets
      ensures backend.State() == ClearScope(old(backend.State()), o)
      ensures count == |Members(old(backend.State()), UserSessions(o))|
    {
      ghost var was := backend.State();
      var setKey := UserSessions(o);
      var sessionIds := backend.Smembers(setKey);
      DistinctSize(sessionIds);
      count := |sessionIds|;
      for i := 0 to |sessionIds|
        invariant backend.sets == was.sets
        invariant backend.cells == map k | k in was.cells && !(k.Metadata? && k.owner == o && k.sid in Ids(sessionIds[..i])) :: was.cells[k]
      {
        assert Ids(sessionIds[..i + 1]) == Ids(sessionIds[..i]) + {sessionIds[i]};
        backend.DeleteBlob(Metadata(o, sessionIds[i]));
      }
      assert sessionIds[..|sessionIds|] == sessionIds;
      backend.DeleteSet(setKey);
    }

    method RevokeAll(user: User) returns (sessionCount: nat)
      modifies backend`cells, backend`sets, backend`rows
      ensures backend.State() == Sessions.RevokeAll(old(backend.State()), user)
      ensures sessionCount == |Members(old(backend.State()), UserSessions(Owner(ADMIN, user)))|
                            + |Members(old(backend.State()), UserSessions(Owner(TENANT, user)))|
    {
      sessionCount := ClearOne(Owner(ADMIN, user));
      var more := ClearOne(Owner(TENANT, user));
      sessionCount := sessionCount + more;
      backend.rows := map t | t in backend.rows && backend.rows[t].owner.user != user :: backend.rows[t];
    }
  }

  class AuthService {
    const backend: Backend
    const sessions: SessionsService
    const lifetimes: Lifetimes

    constructor (s: SessionsService, l: Lifetimes)
      ensures sessions == s && backend == s.backend && lifetimes == l
    {
      sessions, backend, lifetimes := s, s.backend, l;
    }

    /** The new session id comes from the caller here; the root only names the lineage. */
    method GenerateAuthTokens(o: Owner, sid: Sid, ghost root: Sid) returns (token: Token)
      modifies backend`cells, backend`sets, backend`rows, backend`born
      ensures backend.State() == Mint(lifetimes, old(backend.State()), o, sid, root)
      ensures token == TokenOf(lifetimes, old(backend.now), o, sid) && token in backend.rows
    {
      var ttlSeconds := if o.scope == ADMIN then lifetimes.admin else lifetimes.tenant;
      var expiresAt := backend.now + ttlSeconds;
      var sessionData := Blob(sid, backend.now, expiresAt, None);
      backend.Set(Metadata(o, sid), sessionData, ttlSeconds);
      backend.Sadd(UserSessions(o), sid);
      token := Token(o, sid, expiresAt);
      backend.rows := backend.rows[token := Row(o, expiresAt)];
      backend.born := backend.born[sid := Birth(o, backend.now, root)];
    }

    method RefreshToken(t: Token, scope: Scope, userActive: bool, sid: Sid) returns (renewed: Option<Token>)
      requires backend == sessions.backend
      modifies backend`cells, backend`sets, backend`rows, backend`born, backend`replaced
      ensures backend.State() == Refresh(lifetimes, old(backend.State()), t, scope, userActive, sid).state
      ensures renewed.Some? <==> Refresh(lifetimes, old(backend.State()), t, scope, userActive, sid).Rotated?
      ensures renewed.Some? ==> renewed.value == TokenOf(lifetimes, old(backend.now), t.owner, sid)
    {
      if backend.now >= t.exp {
        return None;
      }
      if t.owner.scope != scope {
        return None;
      }
      if t !in backend.rows {
        return None;
      }
      var storedToken := backend.rows[t];
      if storedToken.owner.user != t.owner.user || storedToken.owner.scope != scope {
        return None;
      }
      if backend.now > storedToken.expiresAt {
        backend.rows := backend.rows - {t};
        return None;
      }
      var isSessionActive := backend.Get(Metadata(t.owner, t.sid));
      if isSessionActive.None? {
        backend.rows := backend.rows - {t};
        return None;
      }
      if !userActive {
        return None;
      }
      ghost var root := RootOf(backend.State(), t.sid);
      var token := GenerateAuthTokens(t.owner, sid, root);
      backend.rows := backend.rows - {t};
      backend.replaced := backend.replaced + {t.sid};
      sessions.Forget(t.owner, t.sid);
      renewed := Some(token);
    }

    method Logout(o: Owner, sid: Sid, t: Option<Token>)
      requires backend == sessions.backend
      modifies backend`cells, backend`sets, backend`rows
      ensures backend.State() == Sessions.Logout(old(backend.State()), o, sid, t)
    {
      sessions.Forget(o, sid);
      if t.Some? && t.value in backend.rows && backend.rows[t.value].owner == o {
        backend.rows := backend.rows - {t.value};
      }
    }

    method LogoutAll(user: User)
      requires backend == sessions.backend
      modifies backend`cells, backend`sets, backend`rows
      ensures backend.State() == Sessions.RevokeAll(old(backend.State()), user)
    {
      var count := sessions.RevokeAll(user);
    }
  }

  class JwtAuthGuard {
    const backend: Backend

    constructor (b: Backend)
      ensures backend == b
    {
      backend := b;
    }

    method CanActivate(b: Bearer, required: Option<Scope>, ticket: nat) returns (ok: bool)
      modifies backend`queue
      ensures ok <==>
                && backend.now < b.exp
                && b.scope.Some?
                && (required.Some? ==> required.value == b.scope.value)
                && var k := Metadata(Owner(b.scope.value, b.user), b.sid);
                   k in backend.cells && (backend.cells[k].expiry.None? || backend.now < backend.cells[k].expiry.value)
      ensures backend.State() == Guard(old(backend.State()), b, required, ticket)
    {
      if backend.now >= b.exp {
        return false;
      }
      if b.scope.None? {
        return false;
      }
      if required.Some? && b.scope != required {
        return false;
      }
      var sessionKey := Metadata(Owner(b.scope.value, b.user), b.sid);
      var session := backend.Get(sessionKey);
      if session.None? {
        return false;
      }
      RecordActivity(sessionKey, session.value, ticket);
      ok := true;
    }

    /** Issues the write and does not wait for it. */
    method RecordActivity(k: RedisKey, session: Blob, ticket: nat)
      modifies backend`queue
      ensures backend.queue == old(backend.queue)
                + if backend.now - LastSeen(session) < LAST_SEEN_RESOLUTION then {}
                  else {Write(k, session.(lastSeenAt := Some(backend.now)), ticket)}
    {
      var lastSeen := if session.lastSeenAt.Some? then session.lastSeenAt.value else session.createdAt;
      if backend.now - lastSeen < LAST_SEEN_RESOLUTION {
        return;
      }
      backend.queue := backend.queue + {Write(k, session.(lastSeenAt := Some(backend.now)), ticket)};
    }
  }
}

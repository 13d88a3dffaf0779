/**
 Sessions and refresh tokens over an expiring key-value store
 (src/modules/sessions/sessions.service.ts, src/modules/auth/auth.service.ts:393-624,
  src/infraestructure/redis/redis-cache.service.ts, src/common/guards/jwt-auth.guard.ts).

 Time is whole seconds. A service call is one step, except the guard's last-seen write,
 which nobody waits for: its two commands, TTL and SET, are steps of their own, each of
 which may run at any later time.
 */
module Sessions {
  import opened Options

  type User = nat
  type Sid = nat

  datatype Scope = ADMIN | TENANT
  datatype Owner = Owner(scope: Scope, user: User)
  datatype RedisKey = Metadata(owner: Owner, sid: Sid) | UserSessions(owner: Owner)

  datatype Blob = Blob(sid: Sid, createdAt: int, expiresAt: int, lastSeenAt: Option<int>)
  datatype Cell = Cell(blob: Blob, expiry: Option<int>)

  /** A signed token, as its claims; `exp` is checked by the signature library. */
  datatype Token = Token(owner: Owner, sid: Sid, exp: int)
  datatype Row = Row(owner: Owner, expiresAt: int)

  /** When and for whom a session id was minted, and the sign-in its lineage goes back to. */
  datatype Birth = Birth(owner: Owner, at: int, root: Sid)

  /** A last-seen write nobody waits for; the ticket tells equal ones apart. Once its TTL is read, `ttl` is what SET will be told. */
  datatype Write = Write(key: RedisKey, blob: Blob, ticket: nat)
  datatype Reading = Reading(write: Write, ttl: Option<nat>)

  datatype Lifetimes = Lifetimes(admin: nat, tenant: nat)

  /**
   `pending` are the writes before their TTL, `captured` those between TTL and SET. The last
   three fields are history: `replaced` are the ids a refresh exchanged for another, and
   `revived` the keys that a SET brought back.
   */
  datatype State = State(
    cells: map<RedisKey, Cell>, sets: map<RedisKey, set<Sid>>, rows: map<Token, Row>,
    pending: set<Write>, captured: set<Reading>, now: int,
    born: map<Sid, Birth>, replaced: set<Sid>, revived: set<RedisKey>)

  const LAST_SEEN_RESOLUTION := 300

  function Ttl(l: Lifetimes, scope: Scope): nat {
    if scope == ADMIN then l.admin else l.tenant
  }

  function EndOf(l: Lifetimes, b: Birth): int {
    b.at + Ttl(l, b.owner.scope)
  }

  // ----- The store -----

  /** GET finds the key: it is there and has not expired. */
  predicate Live(s: State, k: RedisKey) {
    k in s.cells && (s.cells[k].expiry.Some? ==> s.now < s.cells[k].expiry.value)
  }

  function Find(s: State, k: RedisKey): Option<Blob> {
    if Live(s, k) then Some(s.cells[k].blob) else None
  }

  function Members(s: State, k: RedisKey): set<Sid> {
    if k in s.sets then s.sets[k] else {}
  }

  function Set(s: State, k: RedisKey, blob: Blob, ttl: nat): State {
    s.(cells := s.cells[k := Cell(blob, if ttl > 0 then Some(s.now + ttl) else None)])
  }

  function Remaining(s: State, k: RedisKey): (ttl: Option<nat>)
    requires Live(s, k)
    ensures ttl.Some? ==> ttl.value > 0
  {
    if s.cells[k].expiry.Some? then Some(s.cells[k].expiry.value - s.now) else None
  }

  function ExpiryOf(now: int, ttl: Option<nat>): Option<int> {
    if ttl.Some? then Some(now + ttl.value) else None
  }

  /** setPreservingTtl up to its first await: TTL is read, and nothing more happens when the key is gone. */
  function CaptureTtl(s: State, w: Write): State {
    if w !in s.pending then s
    else if !Live(s, w.key) then s.(pending := s.pending - {w})
    else s.(pending := s.pending - {w}, captured := s.captured + {Reading(w, Remaining(s, w.key))})
  }

  /** The rest of it: SET with the lifetime read before, whatever has become of the key since. */
  function SetCaptured(s: State, r: Reading): State {
    if r !in s.captured then s
    else if Live(s, r.write.key) then Overwritten(s, r)
    else Overwritten(s, r).(revived := s.revived + {r.write.key})
  }

  function Overwritten(s: State, r: Reading): State {
    s.(cells := s.cells[r.write.key := Cell(r.write.blob, ExpiryOf(s.now, r.ttl))], captured := s.captured - {r})
  }

  function Sadd(s: State, k: RedisKey, sid: Sid): State {
    s.(sets := s.sets[k := Members(s, k) + {sid}])
  }

  /** Redis removes a set with its last member. */
  function Srem(s: State, k: RedisKey, sid: Sid): State {
    if k !in s.sets then s
    else if s.sets[k] - {sid} == {} then s.(sets := s.sets - {k})
    else s.(sets := s.sets[k := s.sets[k] - {sid}])
  }

  // ----- Sessions -----

  function Forget(s: State, o: Owner, sid: Sid): State {
    Srem(s.(cells := s.cells - {Metadata(o, sid)}), UserSessions(o), sid)
  }

  /** Forget many at once: their blobs go and they leave the index. */
  function ForgetAll(s: State, o: Owner, doomed: set<Sid>): State {
    var left := Members(s, UserSessions(o)) - doomed;
    s.(cells := map k | k in s.cells && !(k.Metadata? && k.owner == o && k.sid in doomed) :: s.cells[k],
       sets := if left == {} then s.sets - {UserSessions(o)} else s.sets[UserSessions(o) := left])
  }

  function Dead(s: State, o: Owner): set<Sid> {
    set sid | sid in Members(s, UserSessions(o)) && !Live(s, Metadata(o, sid))
  }

  /** list: what is live is shown, what is not is dropped from the index. */
  function Pruned(s: State, o: Owner): State {
    var left := Members(s, UserSessions(o)) - Dead(s, o);
    s.(sets := if left == {} then s.sets - {UserSessions(o)} else s.sets[UserSessions(o) := left])
  }

  function Revoke(s: State, o: Owner, sid: Sid): Option<State> {
    if Live(s, Metadata(o, sid)) then Some(Forget(s, o, sid)) else None
  }

  function RevokeAnyScope(s: State, user: User, sid: Sid): Option<State> {
    if Live(s, Metadata(Owner(ADMIN, user), sid)) then Revoke(s, Owner(ADMIN, user), sid)
    else Revoke(s, Owner(TENANT, user), sid)
  }

  function RevokeOthers(s: State, o: Owner, keep: Sid): State {
    ForgetAll(s, o, Members(s, UserSessions(o)) - {keep})
  }

  /** Both applications: every indexed blob, the index itself, and every refresh row of the user. */
  function ClearScope(s: State, o: Owner): State {
    s.(cells := map k | k in s.cells && !(k.Metadata? && k.owner == o && k.sid in Members(s, UserSessions(o))) :: s.cells[k],
       sets := s.sets - {UserSessions(o)})
  }

  function RevokeAll(s: State, user: User): State {
    var cleared := ClearScope(ClearScope(s, Owner(ADMIN, user)), Owner(TENANT, user));
    cleared.(rows := map t | t in s.rows && s.rows[t].owner.user != user :: s.rows[t])
  }

  // ----- Tokens -----

  function TokenOf(l: Lifetimes, now: int, o: Owner, sid: Sid): Token {
    Token(o, sid, now + Ttl(l, o.scope))
  }

  /** generateAuthTokens, with a fresh session id. */
  function Mint(l: Lifetimes, s: State, o: Owner, sid: Sid, root: Sid): State {
    var end := s.now + Ttl(l, o.scope);
    var t := Sadd(Set(s, Metadata(o, sid), Blob(sid, s.now, end, None), Ttl(l, o.scope)), UserSessions(o), sid);
    t.(rows := t.rows[TokenOf(l, s.now, o, sid) := Row(o, end)], born := t.born[sid := Birth(o, s.now, root)])
  }

  datatype Refreshed = Rotated(state: State) | Unauthorized(state: State)

  function RootOf(s: State, sid: Sid): Sid {
    if sid in s.born then s.born[sid].root else sid
  }

  /** refreshToken: every refusal leaves the store alone, but a dead token may lose its row. */
  function Refresh(l: Lifetimes, s: State, t: Token, scope: Scope, userActive: bool, fresh': Sid): Refreshed {
    if s.now >= t.exp then Unauthorized(s)
    else if t.owner.scope != scope then Unauthorized(s)
    else if t !in s.rows || s.rows[t].owner != t.owner then Unauthorized(s)
    else if s.now > s.rows[t].expiresAt then Unauthorized(s.(rows := s.rows - {t}))
    else if !Live(s, Metadata(t.owner, t.sid)) then Unauthorized(s.(rows := s.rows - {t}))
    else if !userActive then Unauthorized(s)
    else
      var minted := Mint(l, s, t.owner, fresh', RootOf(s, t.sid));
      Rotated(Forget(minted.(rows := minted.rows - {t}, replaced := minted.replaced + {t.sid}), t.owner, t.sid))
  }

  function Logout(s: State, o: Owner, sid: Sid, t: Option<Token>): State {
    var forgotten := Forget(s, o, sid);
    if t.Some? && t.value in forgotten.rows && forgotten.rows[t.value].owner == o
    then forgotten.(rows := forgotten.rows - {t.value}) else forgotten
  }

  // ----- The guard -----

  /** A bearer's claims; tokens older than the split have no scope. */
  datatype Bearer = Bearer(scope: Option<Scope>, user: User, sid: Sid, exp: int)

  predicate GuardAccepts(s: State, b: Bearer, required: Option<Scope>) {
    s.now < b.exp && b.scope.Some? && (required.Some? ==> b.scope == required)
    && Live(s, Metadata(Owner(b.scope.value, b.user), b.sid))
  }

  function LastSeen(b: Blob): int {
    if b.lastSeenAt.Some? then b.lastSeenAt.value else b.createdAt
  }

  /** The guard passes a request and may leave a last-seen write behind. */
  function Guard(s: State, b: Bearer, required: Option<Scope>, ticket: nat): State {
    if !GuardAccepts(s, b, required) then s
    else
      var k := Metadata(Owner(b.scope.value, b.user), b.sid);
      var blob := s.cells[k].blob;
      if s.now - LastSeen(blob) < LAST_SEEN_RESOLUTION then s
      else s.(pending := s.pending + {Write(k, blob.(lastSeenAt := Some(s.now)), ticket)})
  }

  // ----- Runs -----

  datatype Event =
    | SignIn(owner: Owner, sid: Sid)
    | RefreshToken(token: Token, scope: Scope, userActive: bool, sid: Sid)
    | SignOut(owner: Owner, sid: Sid, given: Option<Token>)
    | Kill(owner: Owner, sid: Sid)
    | KillAnyScope(user: User, sid: Sid)
    | KillOthers(owner: Owner, keep: Sid)
    | KillAll(user: User)
    | ListSessions(owner: Owner)
    | Request(bearer: Bearer, required: Option<Scope>, ticket: nat)
    | ReadTtl(write: Write)
    | LateSet(reading: Reading)
    | Tick(seconds: nat)

  function OrElse(r: Option<State>, s: State): State {
    if r.Some? then r.value else s
  }

  function Step(l: Lifetimes, s: State, e: Event): State {
    match e
    case SignIn(o, sid) => if sid in s.born then s else Mint(l, s, o, sid, sid)
    case RefreshToken(t, scope, active, sid) => if sid in s.born then s else Refresh(l, s, t, scope, active, sid).state
    case SignOut(o, sid, t) => Logout(s, o, sid, t)
    case Kill(o, sid) => OrElse(Revoke(s, o, sid), s)
    case KillAnyScope(user, sid) => OrElse(RevokeAnyScope(s, user, sid), s)
    case KillOthers(o, keep) => RevokeOthers(s, o, keep)
    case KillAll(user) => RevokeAll(s, user)
    case ListSessions(o) => Pruned(s, o)
    case Request(b, required, ticket) => Guard(s, b, required, ticket)
    case ReadTtl(w) => CaptureTtl(s, w)
    case LateSet(r) => SetCaptured(s, r)
    case Tick(d) => s.(now := s.now + d)
  }

  function Run(l: Lifetimes, s: State, es: seq<Event>): State {
    if |es| == 0 then s else Step(l, Run(l, s, es[..|es| - 1]), es[|es| - 1])
  }
}

/**
 What every run of module Sessions keeps, and what its last-seen writes can undo.
 */
module SessionRuns {
  import opened Options
  import opened Sessions

  // ----- The invariant -----

  predicate BlobFits(l: Lifetimes, s: State, k: RedisKey, b: Blob) {
    k.Metadata? && k.sid in s.born && s.born[k.sid].owner == k.owner
    && b.sid == k.sid && b.createdAt == s.born[k.sid].at && b.expiresAt == EndOf(l, s.born[k.sid])
  }

  /** Redis never drops a blob before the end it names, and keeps it for ever only if its scope has no lifetime. */
  predicate ExpiryFits(l: Lifetimes, s: State, k: RedisKey, expiry: Option<int>) {
    k.Metadata? && k.sid in s.born
    && if Ttl(l, k.owner.scope) > 0 then expiry.Some? && EndOf(l, s.born[k.sid]) <= expiry.value else expiry.None?
  }

  predicate CellFits(l: Lifetimes, s: State, k: RedisKey, c: Cell) {
    BlobFits(l, s, k, c.blob) && ExpiryFits(l, s, k, c.expiry)
  }

  predicate ReadingFits(l: Lifetimes, s: State, r: Reading) {
    BlobFits(l, s, r.write.key, r.write.blob) && ExpiryFits(l, s, r.write.key, ExpiryOf(s.now, r.ttl))
    && (r.ttl.Some? ==> r.ttl.value > 0)
  }

  predicate RowFits(l: Lifetimes, s: State, t: Token, r: Row) {
    t.sid in s.born && s.born[t.sid].owner == t.owner && r == Row(t.owner, t.exp) && t.exp == EndOf(l, s.born[t.sid])
  }

  predicate CellsFit(l: Lifetimes, s: State) {
    forall k :: k in s.cells ==> CellFits(l, s, k, s.cells[k])
  }

  predicate WritesFit(l: Lifetimes, s: State) {
    forall w :: w in s.pending ==> BlobFits(l, s, w.key, w.blob)
  }

  predicate ReadingsFit(l: Lifetimes, s: State) {
    forall r :: r in s.captured ==> ReadingFits(l, s, r)
  }

  predicate RowsFit(l: Lifetimes, s: State) {
    forall t :: t in s.rows ==> RowFits(l, s, t, s.rows[t])
  }

  predicate SetsBorn(s: State) {
    forall k, sid :: k in s.sets && sid in s.sets[k] ==> sid in s.born
  }

  /** Everything stored or on its way is as minting left it. */
  predicate Fits(l: Lifetimes, s: State) {
    CellsFit(l, s) && WritesFit(l, s) && ReadingsFit(l, s) && RowsFit(l, s) && SetsBorn(s)
  }

  /** The session can be used, and not because a late SET brought it back. */
  predicate Proper(s: State, k: RedisKey) {
    k.Metadata? && Live(s, k) && k !in s.revived
  }

  predicate Indexed(s: State) {
    forall k :: k in s.cells && Proper(s, k) ==> k.sid in Members(s, UserSessions(k.owner))
  }

  /** A replaced id has neither a proper session nor a refresh row left. */
  predicate NoneReplaced(s: State) {
    (forall k :: k in s.cells && Proper(s, k) ==> k.sid !in s.replaced)
    && (forall t :: t in s.rows ==> t.sid !in s.replaced)
  }

  predicate RootsBorn(born: map<Sid, Birth>, replaced: set<Sid>) {
    replaced <= born.Keys && forall sid :: sid in born ==> RootBorn(born, sid)
  }

  predicate RootBorn(born: map<Sid, Birth>, sid: Sid) {
    sid in born && born[sid].root in born
  }

  /** In a lineage, that is among ids with one root, only the newest has not been replaced. */
  ghost predicate OneHead(born: map<Sid, Birth>, replaced: set<Sid>) {
    forall a, b {:trigger born[a], born[b]} ::
      HeadOf(born, replaced, a) && HeadOf(born, replaced, b) && born[a].root == born[b].root ==> a == b
  }

  predicate HeadOf(born: map<Sid, Birth>, replaced: set<Sid>, a: Sid) {
    a in born && a !in replaced
  }

  ghost predicate Lineages(s: State) {
    RootsBorn(s.born, s.replaced) && OneHead(s.born, s.replaced)
  }

  ghost predicate Inv(l: Lifetimes, s: State) {
    Fits(l, s) && Indexed(s) && NoneReplaced(s) && Lineages(s)
  }

  lemma LiveBorn(l: Lifetimes, s: State, k: RedisKey)
    requires CellsFit(l, s) && Live(s, k)
    ensures k.Metadata? && k.sid in s.born && s.born[k.sid].owner == k.owner
  {
    assert CellFits(l, s, k, s.cells[k]);
  }

  // ----- Steps that only take away -----

  /** Cells, rows and index entries at most disappear; nothing is in flight that was not. */
  predicate Shrinks(s: State, t: State) {
    t.now == s.now && t.born == s.born && t.pending == s.pending && t.captured == s.captured
    && t.replaced == s.replaced && t.revived == s.revived
    && (forall k :: k in t.cells ==> k in s.cells && t.cells[k] == s.cells[k])
    && (forall x :: x in t.rows ==> x in s.rows && t.rows[x] == s.rows[x])
    && (forall k :: k in t.sets ==> k in s.sets && t.sets[k] <= s.sets[k])
  }

  lemma ShrinkFits(l: Lifetimes, s: State, t: State)
    requires Fits(l, s) && Shrinks(s, t)
    ensures Fits(l, t)
  {
    forall k | k in t.cells ensures CellFits(l, t, k, t.cells[k]) {
      assert CellFits(l, s, k, s.cells[k]);
    }
    forall w | w in t.pending ensures BlobFits(l, t, w.key, w.blob) {
      assert BlobFits(l, s, w.key, w.blob);
    }
    forall r | r in t.captured ensures ReadingFits(l, t, r) {
      assert ReadingFits(l, s, r);
    }
    forall x | x in t.rows ensures RowFits(l, t, x, t.rows[x]) {
      assert RowFits(l, s, x, s.rows[x]);
    }
  }

  lemma ShrinkLineages(s: State, t: State)
    requires NoneReplaced(s) && Lineages(s) && Shrinks(s, t)
    ensures NoneReplaced(t) && Lineages(t)
  {
    forall k | k in t.cells && Proper(t, k) ensures k.sid !in t.replaced {
      assert Proper(s, k);
    }
  }

  lemma ShrinkKeeps(l: Lifetimes, s: State, t: State)
    requires Inv(l, s) && Shrinks(s, t) && Indexed(t)
    ensures Inv(l, t)
  {
    ShrinkFits(l, s, t);
    ShrinkLineages(s, t);
  }

  /** What stays proper was proper and indexed before. */
  lemma StillIndexed(s: State, t: State, k: RedisKey)
    requires Indexed(s) && Shrinks(s, t) && k in t.cells && Proper(t, k)
    ensures k in s.cells && k.sid in Members(s, UserSessions(k.owner))
  {
    assert Proper(s, k);
  }

  lemma ForgetShrinks(s: State, o: Owner, sid: Sid)
    ensures Shrinks(s, Forget(s, o, sid))
    ensures Indexed(s) ==> Indexed(Forget(s, o, sid))
  {
    ForgetTakes(s, o, sid);
    var t := Forget(s, o, sid);
    if Indexed(s) {
      forall k | k in t.cells && Proper(t, k)
        ensures k.sid in Members(t, UserSessions(k.owner))
      {
        StillIndexed(s, t, k);
      }
    }
  }

  lemma ForgetTakes(s: State, o: Owner, sid: Sid)
    ensures Shrinks(s, Forget(s, o, sid))
  {}

  lemma RevokeOthersShrinks(s: State, o: Owner, keep: Sid)
    ensures Shrinks(s, RevokeOthers(s, o, keep))
    ensures Indexed(s) ==> Indexed(RevokeOthers(s, o, keep))
  {
    var t := RevokeOthers(s, o, keep);
    if Indexed(s) {
      forall k | k in t.cells && Proper(t, k)
        ensures k.sid in Members(t, UserSessions(k.owner))
      {
        StillIndexed(s, t, k);
      }
    }
  }

  lemma ClearScopeShrinks(s: State, o: Owner)
    ensures Shrinks(s, ClearScope(s, o))
    ensures Indexed(s) ==> Indexed(ClearScope(s, o))
  {
    var t := ClearScope(s, o);
    if Indexed(s) {
      forall k | k in t.cells && Proper(t, k)
        ensures k.sid in Members(t, UserSessions(k.owner))
      {
        StillIndexed(s, t, k);
      }
    }
  }

  lemma RevokeAllShrinks(s: State, user: User)
    ensures Shrinks(s, RevokeAll(s, user))
    ensures Indexed(s) ==> Indexed(RevokeAll(s, user))
  {
    var first := ClearScope(s, Owner(ADMIN, user));
    ClearScopeShrinks(s, Owner(ADMIN, user));
    ClearScopeShrinks(first, Owner(TENANT, user));
    var second := ClearScope(first, Owner(TENANT, user));
    var t := RevokeAll(s, user);
    if Indexed(s) {
      forall k | k in t.cells && Proper(t, k)
        ensures k.sid in Members(t, UserSessions(k.owner))
      {
        assert Proper(second, k);
      }
    }
  }

  /** Pruning drops from the index exactly the ids whose blob is gone, and nothing else anywhere. */
  lemma PruneExact(s: State, o: Owner, sid: Sid)
    requires sid in Members(s, UserSessions(o))
    ensures sid in Members(Pruned(s, o), UserSessions(o)) <==> Live(s, Metadata(o, sid))
    ensures Pruned(s, o).cells == s.cells && Pruned(s, o).rows == s.rows
    ensures forall p :: p != o ==> Members(Pruned(s, o), UserSessions(p)) == Members(s, UserSessions(p))
  {}

  lemma PrunedShrinks(s: State, o: Owner)
    ensures Shrinks(s, Pruned(s, o))
    ensures Indexed(s) ==> Indexed(Pruned(s, o))
  {
    var t := Pruned(s, o);
    if Indexed(s) {
      forall k | k in t.cells && Proper(t, k)
        ensures k.sid in Members(t, UserSessions(k.owner))
      {
        StillIndexed(s, t, k);
      }
    }
  }

  lemma RowDropShrinks(s: State, t: Token)
    ensures Shrinks(s, s.(rows := s.rows - {t}))
    ensures Indexed(s) ==> Indexed(s.(rows := s.rows - {t}))
  {
    var u := s.(rows := s.rows - {t});
    if Indexed(s) {
      forall k | k in u.cells && Proper(u, k)
        ensures k.sid in Members(u, UserSessions(k.owner))
      {
        StillIndexed(s, u, k);
      }
    }
  }

  lemma LogoutShrinks(s: State, o: Owner, sid: Sid, t: Option<Token>)
    ensures Shrinks(s, Logout(s, o, sid, t))
    ensures Indexed(s) ==> Indexed(Logout(s, o, sid, t))
  {
    ForgetShrinks(s, o, sid);
    if t.Some? {
      RowDropShrinks(Forget(s, o, sid), t.value);
    }
  }

  lemma AnyScopeShrinks(s: State, user: User, sid: Sid)
    ensures var t := OrElse(RevokeAnyScope(s, user, sid), s); Shrinks(s, t) && (Indexed(s) ==> Indexed(t))
  {
    ForgetShrinks(s, Owner(ADMIN, user), sid);
    ForgetShrinks(s, Owner(TENANT, user), sid);
  }

  predicate OnlyTakesAway(e: Event) {
    e.SignOut? || e.Kill? || e.KillAnyScope? || e.KillOthers? || e.KillAll? || e.ListSessions?
  }

  /** Every way of ending sessions, and listing them, only takes away. */
  lemma KillShrinks(l: Lifetimes, s: State, e: Event)
    requires OnlyTakesAway(e)
    ensures Shrinks(s, Step(l, s, e))
    ensures Indexed(s) ==> Indexed(Step(l, s, e))
  {
    match e
    case SignOut(o, sid, t) => LogoutShrinks(s, o, sid, t);
    case Kill(o, sid) => ForgetShrinks(s, o, sid);
    case KillAnyScope(user, sid) => AnyScopeShrinks(s, user, sid);
    case KillOthers(o, keep) => RevokeOthersShrinks(s, o, keep);
    case KillAll(user) => RevokeAllShrinks(s, user);
    case ListSessions(o) => PrunedShrinks(s, o);
  }

  lemma KillKeeps(l: Lifetimes, s: State, e: Event)
    requires Inv(l, s)
    requires OnlyTakesAway(e)
    ensures Inv(l, Step(l, s, e))
  {
    KillShrinks(l, s, e);
    ShrinkKeeps(l, s, Step(l, s, e));
  }

  // ----- Steps that mint -----

  lemma MintCells(l: Lifetimes, s: State, o: Owner, sid: Sid, root: Sid)
    requires CellsFit(l, s) && sid !in s.born
    ensures CellsFit(l, Mint(l, s, o, sid, root))
  {
    var t := Mint(l, s, o, sid, root);
    forall k | k in t.cells ensures CellFits(l, t, k, t.cells[k]) {
      if k != Metadata(o, sid) {
        assert CellFits(l, s, k, s.cells[k]);
      }
    }
  }

  lemma MintFlights(l: Lifetimes, s: State, o: Owner, sid: Sid, root: Sid)
    requires WritesFit(l, s) && ReadingsFit(l, s) && sid !in s.born
    ensures WritesFit(l, Mint(l, s, o, sid, root)) && ReadingsFit(l, Mint(l, s, o, sid, root))
  {
    var t := Mint(l, s, o, sid, root);
    forall w | w in t.pending ensures BlobFits(l, t, w.key, w.blob) {
      assert BlobFits(l, s, w.key, w.blob);
    }
    forall r | r in t.captured ensures ReadingFits(l, t, r) {
      assert ReadingFits(l, s, r);
    }
  }

  lemma MintRows(l: Lifetimes, s: State, o: Owner, sid: Sid, root: Sid)
    requires RowsFit(l, s) && SetsBorn(s) && sid !in s.born
    ensures RowsFit(l, Mint(l, s, o, sid, root)) && SetsBorn(Mint(l, s, o, sid, root))
  {
    var t := Mint(l, s, o, sid, root);
    forall x | x in t.rows ensures RowFits(l, t, x, t.rows[x]) {
      if x in s.rows {
        assert RowFits(l, s, x, s.rows[x]);
      }
    }
  }

  lemma MintFits(l: Lifetimes, s: State, o: Owner, sid: Sid, root: Sid)
    requires Fits(l, s) && sid !in s.born
    ensures Fits(l, Mint(l, s, o, sid, root))
  {
    MintCells(l, s, o, sid, root);
    MintFlights(l, s, o, sid, root);
    MintRows(l, s, o, sid, root);
  }

  lemma MintLive(l: Lifetimes, s: State, o: Owner, sid: Sid, root: Sid, k: RedisKey)
    requires k != Metadata(o, sid)
    ensures Live(Mint(l, s, o, sid, root), k) <==> Live(s, k)
  {}

  lemma MintIndexed(l: Lifetimes, s: State, o: Owner, sid: Sid, root: Sid)
    requires Indexed(s)
    ensures Indexed(Mint(l, s, o, sid, root))
  {
    var t := Mint(l, s, o, sid, root);
    forall k | k in t.cells && Proper(t, k)
      ensures k.sid in Members(t, UserSessions(k.owner))
    {
      if k != Metadata(o, sid) {
        assert Proper(s, k);
        assert k.sid in Members(s, UserSessions(k.owner));
      }
    }
  }

  lemma MintNoneReplaced(l: Lifetimes, s: State, o: Owner, sid: Sid, root: Sid)
    requires NoneReplaced(s) && sid !in s.replaced
    ensures NoneReplaced(Mint(l, s, o, sid, root))
  {
    var t := Mint(l, s, o, sid, root);
    forall k | k in t.cells && Proper(t, k) ensures k.sid !in t.replaced {
      if k != Metadata(o, sid) {
        assert Proper(s, k);
      }
    }
  }

  /** A new sign-in has a root no earlier session has. */
  lemma SignInHeads(born: map<Sid, Birth>, replaced: set<Sid>, sid: Sid, birth: Birth)
    requires RootsBorn(born, replaced) && OneHead(born, replaced) && sid !in born && birth.root == sid
    ensures RootsBorn(born[sid := birth], replaced)
    ensures OneHead(born[sid := birth], replaced)
  {
    MintRoots(born, replaced, sid, birth);
    var born' := born[sid := birth];
    forall a, b {:trigger born'[a], born'[b]} | HeadOf(born', replaced, a) && HeadOf(born', replaced, b) && born'[a].root == born'[b].root
      ensures a == b
    {
      assert a in born ==> RootBorn(born, a);
      assert b in born ==> RootBorn(born, b);
      SameHead(born, replaced, sid, birth, a, b);
    }
  }

  lemma MintRoots(born: map<Sid, Birth>, replaced: set<Sid>, sid: Sid, birth: Birth)
    requires RootsBorn(born, replaced) && birth.root in born[sid := birth].Keys && sid !in born
    ensures RootsBorn(born[sid := birth], replaced)
  {
    var born' := born[sid := birth];
    forall a | a in born' ensures RootBorn(born', a) {
      assert a in born ==> RootBorn(born, a);
    }
  }

  lemma SignInKeeps(l: Lifetimes, s: State, o: Owner, sid: Sid)
    requires Inv(l, s) && sid !in s.born
    ensures Inv(l, Mint(l, s, o, sid, sid))
  {
    MintFits(l, s, o, sid, sid);
    MintIndexed(l, s, o, sid, sid);
    MintNoneReplaced(l, s, o, sid, sid);
    SignInHeads(s.born, s.replaced, sid, Birth(o, s.now, sid));
  }

  /** The store after a successful refresh: minted, then the old row and the old session gone. */
  function Rotation(l: Lifetimes, s: State, t: Token, sid: Sid): State {
    Forget(Exchanged(l, s, t, sid), t.owner, t.sid)
  }

  function Exchanged(l: Lifetimes, s: State, t: Token, sid: Sid): State {
    var minted := Mint(l, s, t.owner, sid, RootOf(s, t.sid));
    minted.(rows := minted.rows - {t}, replaced := minted.replaced + {t.sid})
  }

  lemma RotationFits(l: Lifetimes, s: State, t: Token, sid: Sid)
    requires Fits(l, s) && sid !in s.born
    ensures Fits(l, Rotation(l, s, t, sid))
  {
    var minted := Mint(l, s, t.owner, sid, RootOf(s, t.sid));
    MintFits(l, s, t.owner, sid, RootOf(s, t.sid));
    RowDropShrinks(minted, t);
    ShrinkFits(l, minted, minted.(rows := minted.rows - {t}));
    ReplacedFits(l, minted.(rows := minted.rows - {t}), t.sid);
    ForgetShrinks(Exchanged(l, s, t, sid), t.owner, t.sid);
    ShrinkFits(l, Exchanged(l, s, t, sid), Rotation(l, s, t, sid));
  }

  lemma ReplacedFits(l: Lifetimes, s: State, sid: Sid)
    requires Fits(l, s)
    ensures Fits(l, s.(replaced := s.replaced + {sid}))
  {
    var t := s.(replaced := s.replaced + {sid});
    forall k | k in t.cells ensures CellFits(l, t, k, t.cells[k]) {
      assert CellFits(l, s, k, s.cells[k]);
    }
    forall w | w in t.pending ensures BlobFits(l, t, w.key, w.blob) {
      assert BlobFits(l, s, w.key, w.blob);
    }
    forall r | r in t.captured ensures ReadingFits(l, t, r) {
      assert ReadingFits(l, s, r);
    }
    forall x | x in t.rows ensures RowFits(l, t, x, t.rows[x]) {
      assert RowFits(l, s, x, s.rows[x]);
    }
  }

  lemma RotationIndexed(l: Lifetimes, s: State, t: Token, sid: Sid)
    requires Indexed(s)
    ensures Indexed(Rotation(l, s, t, sid))
  {
    var minted := Mint(l, s, t.owner, sid, RootOf(s, t.sid));
    var exchanged := Exchanged(l, s, t, sid);
    MintIndexed(l, s, t.owner, sid, RootOf(s, t.sid));
    forall k | k in exchanged.cells && Proper(exchanged, k)
      ensures k.sid in Members(exchanged, UserSessions(k.owner))
    {
      assert Proper(minted, k);
    }
    ForgetShrinks(exchanged, t.owner, t.sid);
  }

  lemma RotationLive(l: Lifetimes, s: State, t: Token, sid: Sid, k: RedisKey)
    requires k.Metadata? && sid !in s.born && t.sid in s.born
    ensures k != Metadata(t.owner, sid) ==> (Live(Rotation(l, s, t, sid), k) <==> Live(s, k) && k != Metadata(t.owner, t.sid))
    ensures Live(Rotation(l, s, t, sid), Metadata(t.owner, sid))
    ensures Rotation(l, s, t, sid).born == s.born[sid := Birth(t.owner, s.now, RootOf(s, t.sid))]
    ensures Rotation(l, s, t, sid).replaced == s.replaced + {t.sid}
    ensures Rotation(l, s, t, sid).revived == s.revived && Rotation(l, s, t, sid).captured == s.captured
  {}

  /** The old id loses its session and its row, so being replaced is all that is left of it. */
  lemma RotationNoneReplaced(l: Lifetimes, s: State, t: Token, sid: Sid)
    requires Fits(l, s) && NoneReplaced(s) && s.replaced <= s.born.Keys && sid !in s.born && t in s.rows
    ensures NoneReplaced(Rotation(l, s, t, sid))
  {
    var u := Rotation(l, s, t, sid);
    assert RowFits(l, s, t, s.rows[t]);
    forall k | k in u.cells && Proper(u, k) ensures k.sid !in u.replaced {
      RotationLive(l, s, t, sid, k);
      if k != Metadata(t.owner, sid) {
        assert Proper(s, k);
        LiveBorn(l, s, k);
      }
    }
    forall x | x in u.rows ensures x.sid !in u.replaced {
      if x in s.rows {
        assert RowFits(l, s, x, s.rows[x]);
      }
    }
  }

  /** The new id takes the place of the old one at the head of its lineage. */
  lemma RotationHeads(born: map<Sid, Birth>, replaced: set<Sid>, old': Sid, sid: Sid, birth: Birth)
    requires RootsBorn(born, replaced) && OneHead(born, replaced)
    requires sid !in born && old' in born && old' !in replaced && birth.root == born[old'].root
    ensures RootsBorn(born[sid := birth], replaced + {old'}) && OneHead(born[sid := birth], replaced + {old'})
  {
    RotationRoots(born, replaced, old', sid, birth);
    var born', replaced' := born[sid := birth], replaced + {old'};
    forall a, b {:trigger born'[a], born'[b]} | HeadOf(born', replaced', a) && HeadOf(born', replaced', b) && born'[a].root == born'[b].root
      ensures a == b
    {
      HeadIs(born, replaced, old', sid, birth, a);
      HeadIs(born, replaced, old', sid, birth, b);
      SameHead(born, replaced, sid, birth, a, b);
    }
  }

  lemma SameHead(born: map<Sid, Birth>, replaced: set<Sid>, sid: Sid, birth: Birth, a: Sid, b: Sid)
    requires OneHead(born, replaced) && sid !in born
    requires a == sid || (HeadOf(born, replaced, a) && born[a].root != birth.root)
    requires b == sid || (HeadOf(born, replaced, b) && born[b].root != birth.root)
    requires born[sid := birth][a].root == born[sid := birth][b].root
    ensures a == b
  {}

  lemma RotationRoots(born: map<Sid, Birth>, replaced: set<Sid>, old': Sid, sid: Sid, birth: Birth)
    requires RootsBorn(born, replaced) && sid !in born && old' in born && birth.root == born[old'].root
    ensures RootsBorn(born[sid := birth], replaced + {old'})
  {
    assert RootBorn(born, old');
    MintRoots(born, replaced, sid, birth);
  }

  lemma HeadIs(born: map<Sid, Birth>, replaced: set<Sid>, old': Sid, sid: Sid, birth: Birth, a: Sid)
    requires OneHead(born, replaced) && old' in born && old' !in replaced && birth.root == born[old'].root
    requires HeadOf(born[sid := birth], replaced + {old'}, a)
    ensures a == sid || (HeadOf(born, replaced, a) && born[a].root != birth.root)
  {}

  lemma RotationKeeps(l: Lifetimes, s: State, t: Token, sid: Sid)
    requires Inv(l, s) && sid !in s.born && t in s.rows
    ensures Inv(l, Rotation(l, s, t, sid))
  {
    assert RowFits(l, s, t, s.rows[t]);
    RotationFits(l, s, t, sid);
    RotationIndexed(l, s, t, sid);
    RotationNoneReplaced(l, s, t, sid);
    RotationLive(l, s, t, sid, Metadata(t.owner, sid));
    RotationHeads(s.born, s.replaced, t.sid, sid, Birth(t.owner, s.now, RootOf(s, t.sid)));
  }

  lemma RefreshKeeps(l: Lifetimes, s: State, t: Token, scope: Scope, active: bool, sid: Sid)
    requires Inv(l, s) && sid !in s.born
    ensures Inv(l, Refresh(l, s, t, scope, active, sid).state)
  {
    var r := Refresh(l, s, t, scope, active, sid);
    if r.Rotated? {
      RotationKeeps(l, s, t, sid);
    } else {
      RowDropShrinks(s, t);
      if r.state != s {
        ShrinkKeeps(l, s, r.state);
      }
    }
  }

  // ----- The guard, its writes, and time -----

  predicate SameRecords(s: State, t: State) {
    t.born == s.born && t.rows == s.rows && t.sets == s.sets && t.replaced == s.replaced
  }

  predicate NoMoreProper(s: State, t: State) {
    forall k :: k in t.cells && Proper(t, k) ==> k in s.cells && Proper(s, k)
  }

  lemma SameLineages(s: State, t: State)
    requires Indexed(s) && NoneReplaced(s) && Lineages(s) && SameRecords(s, t) && NoMoreProper(s, t)
    ensures Indexed(t) && NoneReplaced(t) && Lineages(t)
  {
    forall k | k in t.cells && Proper(t, k)
      ensures k.sid in Members(t, UserSessions(k.owner)) && k.sid !in t.replaced
    {
      assert Proper(s, k);
    }
  }

  lemma GuardFits(l: Lifetimes, s: State, b: Bearer, required: Option<Scope>, ticket: nat)
    requires Fits(l, s)
    ensures Fits(l, Guard(s, b, required, ticket))
  {
    var t := Guard(s, b, required, ticket);
    if t != s {
      var k := Metadata(Owner(b.scope.value, b.user), b.sid);
      assert CellFits(l, s, k, s.cells[k]);
      forall w | w in t.pending ensures BlobFits(l, t, w.key, w.blob) {
        assert w in s.pending ==> BlobFits(l, s, w.key, w.blob);
      }
      FlightFits(l, s, t);
    }
  }

  /** Changing only what is pending leaves the rest fitting. */
  lemma FlightFits(l: Lifetimes, s: State, t: State)
    requires Fits(l, s) && t == s.(pending := t.pending)
    ensures CellsFit(l, t) && ReadingsFit(l, t) && RowsFit(l, t) && SetsBorn(t)
  {
    forall k | k in t.cells ensures CellFits(l, t, k, t.cells[k]) {
      assert CellFits(l, s, k, s.cells[k]);
    }
    forall r | r in t.captured ensures ReadingFits(l, t, r) {
      assert ReadingFits(l, s, r);
    }
    forall x | x in t.rows ensures RowFits(l, t, x, t.rows[x]) {
      assert RowFits(l, s, x, s.rows[x]);
    }
  }

  lemma CaptureFits(l: Lifetimes, s: State, w: Write)
    requires Fits(l, s)
    ensures Fits(l, CaptureTtl(s, w))
  {
    CaptureStore(l, s, w);
    CaptureFlights(l, s, w);
  }

  lemma CaptureStore(l: Lifetimes, s: State, w: Write)
    requires CellsFit(l, s) && RowsFit(l, s) && SetsBorn(s)
    ensures CellsFit(l, CaptureTtl(s, w)) && RowsFit(l, CaptureTtl(s, w)) && SetsBorn(CaptureTtl(s, w))
  {
    CaptureRecords(s, w);
    SameStoreFits(l, s, CaptureTtl(s, w));
  }

  lemma CaptureRecords(s: State, w: Write)
    ensures CaptureTtl(s, w).cells == s.cells
    ensures SameRecords(s, CaptureTtl(s, w))
  {}

  lemma SameStoreFits(l: Lifetimes, s: State, t: State)
    requires CellsFit(l, s) && RowsFit(l, s) && SetsBorn(s) && t.cells == s.cells && SameRecords(s, t)
    ensures CellsFit(l, t) && RowsFit(l, t) && SetsBorn(t)
  {
    forall k | k in t.cells ensures CellFits(l, t, k, t.cells[k]) {
      assert CellFits(l, s, k, s.cells[k]);
    }
    forall x | x in t.rows ensures RowFits(l, t, x, t.rows[x]) {
      assert RowFits(l, s, x, s.rows[x]);
    }
  }

  lemma CaptureFlights(l: Lifetimes, s: State, w: Write)
    requires CellsFit(l, s) && WritesFit(l, s) && ReadingsFit(l, s)
    ensures WritesFit(l, CaptureTtl(s, w)) && ReadingsFit(l, CaptureTtl(s, w))
  {
    var t := CaptureTtl(s, w);
    forall x | x in t.pending ensures BlobFits(l, t, x.key, x.blob) {
      assert BlobFits(l, s, x.key, x.blob);
    }
    forall r | r in t.captured ensures ReadingFits(l, t, r) {
      assert r in s.captured ==> ReadingFits(l, s, r);
      assert r !in s.captured ==> BlobFits(l, s, w.key, w.blob) && CellFits(l, s, w.key, s.cells[w.key]);
    }
  }

  lemma SetFits(l: Lifetimes, s: State, r: Reading)
    requires Fits(l, s)
    ensures Fits(l, SetCaptured(s, r))
  {
    SetCells(l, s, r);
    SetFlights(l, s, r);
    SetRows(l, s, r);
  }

  lemma SetCells(l: Lifetimes, s: State, r: Reading)
    requires CellsFit(l, s) && ReadingsFit(l, s)
    ensures CellsFit(l, SetCaptured(s, r))
  {
    var t := SetCaptured(s, r);
    forall k | k in t.cells ensures CellFits(l, t, k, t.cells[k]) {
      assert k in s.cells ==> CellFits(l, s, k, s.cells[k]);
      assert r in s.captured ==> ReadingFits(l, s, r);
    }
  }

  lemma SetFlights(l: Lifetimes, s: State, r: Reading)
    requires WritesFit(l, s) && ReadingsFit(l, s)
    ensures WritesFit(l, SetCaptured(s, r)) && ReadingsFit(l, SetCaptured(s, r))
  {
    var t := SetCaptured(s, r);
    forall x | x in t.captured ensures ReadingFits(l, t, x) {
      assert ReadingFits(l, s, x);
    }
    forall w | w in t.pending ensures BlobFits(l, t, w.key, w.blob) {
      assert BlobFits(l, s, w.key, w.blob);
    }
  }

  lemma SetRows(l: Lifetimes, s: State, r: Reading)
    requires RowsFit(l, s) && SetsBorn(s)
    ensures RowsFit(l, SetCaptured(s, r)) && SetsBorn(SetCaptured(s, r))
  {
    var t := SetCaptured(s, r);
    forall x | x in t.rows ensures RowFits(l, t, x, t.rows[x]) {
      assert RowFits(l, s, x, s.rows[x]);
    }
  }

  lemma TickFits(l: Lifetimes, s: State, d: nat)
    requires Fits(l, s)
    ensures Fits(l, s.(now := s.now + d))
  {
    var t := s.(now := s.now + d);
    forall k | k in t.cells ensures CellFits(l, t, k, t.cells[k]) {
      assert CellFits(l, s, k, s.cells[k]);
    }
    forall r | r in t.captured ensures ReadingFits(l, t, r) {
      assert ReadingFits(l, s, r);
    }
    forall w | w in t.pending ensures BlobFits(l, t, w.key, w.blob) {
      assert BlobFits(l, s, w.key, w.blob);
    }
    forall x | x in t.rows ensures RowFits(l, t, x, t.rows[x]) {
      assert RowFits(l, s, x, s.rows[x]);
    }
  }

  /** Requests, their late writes and time. */
  predicate Passes(e: Event) {
    e.Request? || e.ReadTtl? || e.LateSet? || e.Tick?
  }

  /** They leave records alone, and a key that SET brings back is not proper. */
  lemma PassesSame(l: Lifetimes, s: State, e: Event)
    requires Passes(e)
    ensures SameRecords(s, Step(l, s, e))
    ensures NoMoreProper(s, Step(l, s, e))
  {
    if e.LateSet? {
      SetSame(s, e.reading);
    } else {
      NoWriteSame(l, s, e);
    }
  }

  lemma SetSame(s: State, r: Reading)
    ensures SameRecords(s, SetCaptured(s, r))
    ensures NoMoreProper(s, SetCaptured(s, r))
  {}

  lemma NoWriteSame(l: Lifetimes, s: State, e: Event)
    requires Passes(e) && !e.LateSet?
    ensures SameRecords(s, Step(l, s, e))
    ensures NoMoreProper(s, Step(l, s, e))
  {
    StillStored(l, s, e);
  }

  lemma StillStored(l: Lifetimes, s: State, e: Event)
    requires Passes(e) && !e.LateSet?
    ensures SameRecords(s, Step(l, s, e))
    ensures Step(l, s, e).cells == s.cells && Step(l, s, e).revived == s.revived && Step(l, s, e).now >= s.now
  {}

  lemma PassesFits(l: Lifetimes, s: State, e: Event)
    requires Fits(l, s) && Passes(e)
    ensures Fits(l, Step(l, s, e))
  {
    match e
    case Request(b, required, ticket) => GuardFits(l, s, b, required, ticket);
    case ReadTtl(w) => CaptureFits(l, s, w);
    case LateSet(r) => SetFits(l, s, r);
    case Tick(d) => TickFits(l, s, d);
  }

  lemma PassesKeeps(l: Lifetimes, s: State, e: Event)
    requires Inv(l, s) && Passes(e)
    ensures Inv(l, Step(l, s, e))
  {
    PassesFits(l, s, e);
    PassesSame(l, s, e);
    SameLineages(s, Step(l, s, e));
  }

  lemma MintStepKeeps(l: Lifetimes, s: State, e: Event)
    requires Inv(l, s) && (e.SignIn? || e.RefreshToken?)
    ensures Inv(l, Step(l, s, e))
  {
    if e.sid !in s.born {
      if e.SignIn? {
        SignInKeeps(l, s, e.owner, e.sid);
      } else {
        RefreshKeeps(l, s, e.token, e.scope, e.userActive, e.sid);
      }
    }
  }

  lemma StepKeeps(l: Lifetimes, s: State, e: Event)
    requires Inv(l, s)
    ensures Inv(l, Step(l, s, e))
  {
    if OnlyTakesAway(e) {
      KillKeeps(l, s, e);
    } else if e.SignIn? || e.RefreshToken? {
      MintStepKeeps(l, s, e);
    } else {
      PassesKeeps(l, s, e);
    }
  }

  const EMPTY := State(map[], map[], map[], {}, {}, 0, map[], {}, {})

  /**
   In every reachable state, each live blob no late SET brought back is in its index, each
   lineage has one id that was not replaced, a replaced id has no row and no such blob, and
   nothing expires before its end.
   */
  lemma {:induction false} RunKeeps(l: Lifetimes, s: State, es: seq<Event>)
    requires Inv(l, s)
    ensures Inv(l, Run(l, s, es))
    decreases |es|
  {
    if |es| > 0 {
      RunKeeps(l, s, es[..|es| - 1]);
      StepKeeps(l, Run(l, s, es[..|es| - 1]), es[|es| - 1]);
    }
  }

  lemma RunFits(l: Lifetimes, s: State, es: seq<Event>)
    requires Inv(l, s)
    ensures CellsFit(l, Run(l, s, es)) && ReadingsFit(l, Run(l, s, es))
  {
    RunKeeps(l, s, es);
  }

  lemma EmptyFits(l: Lifetimes)
    ensures Inv(l, EMPTY)
  {}

  // ----- What a late SET brings back -----

  /** A last-seen write of this key is between its TTL and its SET. */
  predicate InFlight(s: State, k: RedisKey) {
    exists r :: r in s.captured && r.write.key == k
  }

  /** This event reads that TTL, off a live key. */
  predicate Captures(s: State, e: Event, r: Reading) {
    e == ReadTtl(r.write) && r.write in s.pending && Live(s, r.write.key) && r.ttl == Remaining(s, r.write.key)
  }

  lemma StepCaptured(l: Lifetimes, s: State, e: Event, r: Reading)
    ensures r in Step(l, s, e).captured <==> Captures(s, e, r) || (r in s.captured && e != LateSet(r))
  {
    if OnlyTakesAway(e) {
      KillShrinks(l, s, e);
    }
  }

  predicate CapturedAt(l: Lifetimes, s: State, es: seq<Event>, i: int, r: Reading) {
    0 <= i < |es| && Captures(Run(l, s, es[..i]), es[i], r)
  }

  predicate NotSetFrom(es: seq<Event>, i: int, r: Reading) {
    forall j :: 0 <= i < j < |es| ==> es[j] != LateSet(r)
  }

  /** Its TTL was read while the key was live, and its SET has not happened since. */
  ghost predicate ReadWhileLive(l: Lifetimes, s: State, es: seq<Event>, r: Reading) {
    exists i :: CapturedAt(l, s, es, i, r) && NotSetFrom(es, i, r)
  }

  lemma {:induction false} CapturedIff(l: Lifetimes, s: State, es: seq<Event>, r: Reading)
    requires r !in s.captured
    ensures r in Run(l, s, es).captured <==> ReadWhileLive(l, s, es, r)
    decreases |es|
  {
    if |es| > 0 {
      var n := |es| - 1;
      CapturedIff(l, s, es[..n], r);
      StepCaptured(l, Run(l, s, es[..n]), es[n], r);
      if ReadWhileLive(l, s, es, r) {
        ReadBefore(l, s, es, r);
      } else {
        ReadByNow(l, s, es, r);
      }
    }
  }

  lemma CapturedAtFront(l: Lifetimes, s: State, es: seq<Event>, i: int, r: Reading)
    requires 0 <= i < |es| - 1
    ensures CapturedAt(l, s, es[..|es| - 1], i, r) <==> CapturedAt(l, s, es, i, r)
  {
    assert es[..|es| - 1][..i] == es[..i];
  }

  lemma ReadBefore(l: Lifetimes, s: State, es: seq<Event>, r: Reading)
    requires |es| > 0 && ReadWhileLive(l, s, es, r)
    ensures CapturedAt(l, s, es, |es| - 1, r) || (ReadWhileLive(l, s, es[..|es| - 1], r) && es[|es| - 1] != LateSet(r))
  {
    var i :| CapturedAt(l, s, es, i, r) && NotSetFrom(es, i, r);
    if i < |es| - 1 {
      CapturedAtFront(l, s, es, i, r);
      assert NotSetFrom(es[..|es| - 1], i, r);
    }
  }

  lemma ReadByNow(l: Lifetimes, s: State, es: seq<Event>, r: Reading)
    requires |es| > 0
    ensures CapturedAt(l, s, es, |es| - 1, r) ==> ReadWhileLive(l, s, es, r)
    ensures ReadWhileLive(l, s, es[..|es| - 1], r) && es[|es| - 1] != LateSet(r) ==> ReadWhileLive(l, s, es, r)
  {
    var n := |es| - 1;
    assert NotSetFrom(es, n, r);
    if ReadWhileLive(l, s, es[..n], r) && es[n] != LateSet(r) {
      var i :| CapturedAt(l, s, es[..n], i, r) && NotSetFrom(es[..n], i, r);
      CapturedAtFront(l, s, es, i, r);
      NotSetMore(es, n, i, r);
    }
  }

  lemma NotSetMore(es: seq<Event>, n: nat, i: nat, r: Reading)
    requires i < n == |es| - 1 && NotSetFrom(es[..n], i, r) && es[n] != LateSet(r)
    ensures NotSetFrom(es, i, r)
  {
    forall j | i < j < |es| ensures es[j] != LateSet(r) {
      if j < n {
        assert es[..n][j] == es[j];
      }
    }
  }

  lemma TtlPositive(l: Lifetimes, s: State, r: Reading)
    requires ReadingsFit(l, s) && r in s.captured && r.ttl.Some?
    ensures r.ttl.value > 0
  {
    assert ReadingFits(l, s, r);
  }

  lemma Lands(s: State, r: Reading, k: RedisKey)
    requires r in s.captured && (r.ttl.Some? ==> r.ttl.value > 0)
    ensures Live(SetCaptured(s, r), k) <==> Live(s, k) || k == r.write.key
    ensures k in SetCaptured(s, r).revived <==> k in s.revived || (k == r.write.key && !Live(s, k))
  {}

  /** SET makes its own key live and changes the life of no other. */
  lemma LateSetExact(l: Lifetimes, s: State, r: Reading, k: RedisKey)
    requires ReadingsFit(l, s) && r in s.captured
    ensures Live(SetCaptured(s, r), k) <==> Live(s, k) || k == r.write.key
    ensures k in SetCaptured(s, r).revived <==> k in s.revived || (k == r.write.key && !Live(s, k))
  {
    if r.ttl.Some? {
      TtlPositive(l, s, r);
    }
    Lands(s, r, k);
  }

  lemma StepRevives(l: Lifetimes, s: State, e: Event, k: RedisKey)
    requires CellsFit(l, s) && ReadingsFit(l, s) && k.Metadata? && k.sid in s.born && !Live(s, k)
    ensures Live(Step(l, s, e), k) <==> e.LateSet? && e.reading in s.captured && e.reading.write.key == k
  {
    if OnlyTakesAway(e) {
      KillShrinks(l, s, e);
    } else {
      match e
      case SignIn(o, n) => if n !in s.born { MintLive(l, s, o, n, n, k); }
      case RefreshToken(t, scope, active, n) => if n !in s.born { RefreshRevivesNone(l, s, t, scope, active, n, k); }
      case LateSet(r) => if r in s.captured { LateSetExact(l, s, r, k); }
      case ReadTtl(_) =>
      case Request(_, _, _) =>
      case Tick(_) =>
    }
  }

  lemma RefreshRevivesNone(l: Lifetimes, s: State, t: Token, scope: Scope, active: bool, n: Sid, k: RedisKey)
    requires CellsFit(l, s) && k.Metadata? && k.sid in s.born && !Live(s, k) && n !in s.born
    ensures !Live(Refresh(l, s, t, scope, active, n).state, k)
  {
    if Refresh(l, s, t, scope, active, n).Rotated? {
      LiveBorn(l, s, Metadata(t.owner, t.sid));
      RotationLive(l, s, t, n, k);
    }
  }

  /**
   In every run, what brings a dead session back is exactly the SET of a last-seen write
   whose TTL was read while the session was still live.
   */
  lemma RevivesIff(l: Lifetimes, es: seq<Event>, e: Event, k: RedisKey)
    requires k.Metadata? && k.sid in Run(l, EMPTY, es).born && !Live(Run(l, EMPTY, es), k)
    ensures Live(Step(l, Run(l, EMPTY, es), e), k)
            <==> e.LateSet? && e.reading.write.key == k && ReadWhileLive(l, EMPTY, es, e.reading)
  {
    EmptyFits(l);
    RunFits(l, EMPTY, es);
    StepRevives(l, Run(l, EMPTY, es), e, k);
    if e.LateSet? {
      CapturedIff(l, EMPTY, es, e.reading);
    }
  }

  // ----- Dead session ids -----

  predicate Buried(s: State, o: Owner, sid: Sid) {
    sid in s.born && !Live(s, Metadata(o, sid))
  }

  /** Dead, and no write in flight that could bring it back. */
  predicate Gone(s: State, o: Owner, sid: Sid) {
    Buried(s, o, sid) && !InFlight(s, Metadata(o, sid))
  }

  lemma BornStays(l: Lifetimes, s: State, e: Event, sid: Sid)
    requires sid in s.born
    ensures sid in Step(l, s, e).born
  {
    if OnlyTakesAway(e) {
      KillShrinks(l, s, e);
    }
  }

  lemma StepStaysGone(l: Lifetimes, s: State, e: Event, o: Owner, sid: Sid)
    requires CellsFit(l, s) && ReadingsFit(l, s) && Gone(s, o, sid)
    ensures Gone(Step(l, s, e), o, sid)
  {
    var k := Metadata(o, sid);
    BornStays(l, s, e, sid);
    StepRevives(l, s, e, k);
    forall r | r in Step(l, s, e).captured ensures r.write.key != k {
      StepCaptured(l, s, e, r);
    }
  }

  /** A session that was revoked or expired stays dead for ever if none of its last-seen writes is between TTL and SET. */
  lemma {:induction false} DeadStaysDead(l: Lifetimes, s: State, es: seq<Event>, o: Owner, sid: Sid)
    requires Inv(l, s) && Gone(s, o, sid)
    ensures Gone(Run(l, s, es), o, sid)
    decreases |es|
  {
    if |es| > 0 {
      DeadStaysDead(l, s, es[..|es| - 1], o, sid);
      RunFits(l, s, es[..|es| - 1]);
      StepStaysGone(l, Run(l, s, es[..|es| - 1]), es[|es| - 1], o, sid);
    }
  }

  /** Some run makes the key live, now or later. */
  ghost predicate MayLive(l: Lifetimes, s: State, k: RedisKey) {
    exists es :: Live(Run(l, s, es), k)
  }

  lemma RunOne(l: Lifetimes, s: State, e: Event)
    ensures Run(l, s, [e]) == Step(l, s, e) && Run(l, s, []) == s
  {
    assert [e][..0] == [];
  }

  lemma RunTake(l: Lifetimes, s: State, es: seq<Event>, i: nat)
    requires i < |es|
    ensures Run(l, s, es[..i + 1]) == Step(l, Run(l, s, es[..i]), es[i])
  {
    assert es[..i + 1][..i] == es[..i];
  }

  lemma RunMore(l: Lifetimes, s: State, es: seq<Event>, e: Event)
    ensures Run(l, s, es + [e]) == Step(l, Run(l, s, es), e)
  {
    assert (es + [e])[..|es|] == es;
  }

  lemma FlightLands(l: Lifetimes, s: State, k: RedisKey)
    requires ReadingsFit(l, s) && InFlight(s, k)
    ensures MayLive(l, s, k)
  {
    var r :| r in s.captured && r.write.key == k;
    LateSetExact(l, s, r, k);
    RunOne(l, s, LateSet(r));
    assert Live(Run(l, s, [LateSet(r)]), k);
  }

  /** A dead session can come back if and only if one of its last-seen writes is between TTL and SET. */
  lemma ComesBackIff(l: Lifetimes, s: State, o: Owner, sid: Sid)
    requires Inv(l, s) && Buried(s, o, sid)
    ensures MayLive(l, s, Metadata(o, sid)) <==> InFlight(s, Metadata(o, sid))
  {
    var k := Metadata(o, sid);
    if InFlight(s, k) {
      FlightLands(l, s, k);
    } else {
      forall es ensures !Live(Run(l, s, es), k) {
        DeadStaysDead(l, s, es, o, sid);
      }
    }
  }

  /** A dead session's tokens pass no guard and are exchanged for nothing. */
  lemma BuriedTokensFail(l: Lifetimes, s: State, o: Owner, sid: Sid, exp: int, required: Option<Scope>, scope: Scope, active: bool, n: Sid)
    requires Buried(s, o, sid)
    ensures !GuardAccepts(s, Bearer(Some(o.scope), o.user, sid, exp), required)
    ensures Refresh(l, s, Token(o, sid, exp), scope, active, n).Unauthorized?
  {}

  /** Some run, now or later, exchanges the token for a new one. */
  ghost predicate MayExchange(l: Lifetimes, s: State, t: Token) {
    exists es, scope, active, n :: Exchanges(l, Run(l, s, es), t, scope, active, n)
  }

  predicate Exchanges(l: Lifetimes, s: State, t: Token, scope: Scope, active: bool, n: Sid) {
    n !in s.born && Refresh(l, s, t, scope, active, n).Rotated?
  }

  lemma RowsBorn(l: Lifetimes, s: State, e: Event, t: Token)
    requires t !in s.rows && t.sid in s.born
    ensures t !in Step(l, s, e).rows
  {
    if OnlyTakesAway(e) {
      KillShrinks(l, s, e);
    }
  }

  /** A refresh row that was deleted never comes back, whatever is in flight. */
  lemma {:induction false} RowGoneForGood(l: Lifetimes, s: State, es: seq<Event>, t: Token)
    requires t !in s.rows && t.sid in s.born
    ensures t !in Run(l, s, es).rows && t.sid in Run(l, s, es).born
    decreases |es|
  {
    if |es| > 0 {
      RowGoneForGood(l, s, es[..|es| - 1], t);
      RowsBorn(l, Run(l, s, es[..|es| - 1]), es[|es| - 1], t);
      BornStays(l, Run(l, s, es[..|es| - 1]), es[|es| - 1], t.sid);
    }
  }

  lemma NowAdvances(l: Lifetimes, s: State, e: Event)
    ensures s.now <= Step(l, s, e).now
  {
    if OnlyTakesAway(e) {
      KillShrinks(l, s, e);
    }
  }

  lemma {:induction false} RunAdvances(l: Lifetimes, s: State, es: seq<Event>)
    ensures s.now <= Run(l, s, es).now
    decreases |es|
  {
    if |es| > 0 {
      RunAdvances(l, s, es[..|es| - 1]);
      NowAdvances(l, Run(l, s, es[..|es| - 1]), es[|es| - 1]);
    }
  }

  lemma {:induction false} UnusedId(used: set<Sid>) returns (n: Sid)
    ensures forall x :: x in used ==> x < n
  {
    if used == {} {
      n := 0;
    } else {
      var x :| x in used;
      var m := UnusedId(used - {x});
      n := if m > x then m else x + 1;
      assert forall y :: y in used ==> y == x || y in used - {x};
    }
  }

  /** What is left of a dead session's token: its row, within its time. */
  predicate RowServes(s: State, t: Token) {
    t in s.rows && s.rows[t].owner == t.owner && s.now < t.exp && s.now <= s.rows[t].expiresAt
  }

  /** It is never exchanged without its session, its row and its time. */
  lemma ExchangeNeeds(l: Lifetimes, s: State, t: Token, es: seq<Event>, scope: Scope, active: bool, n: Sid)
    requires Inv(l, s) && t.sid in s.born && Exchanges(l, Run(l, s, es), t, scope, active, n)
    ensures RowServes(s, t)
    ensures Live(Run(l, s, es), Metadata(t.owner, t.sid))
  {
    RunAdvances(l, s, es);
    if t !in s.rows {
      RowGoneForGood(l, s, es, t);
    }
    assert RowFits(l, s, t, s.rows[t]);
  }

  /** Once its session lives again, a token with a row that serves is exchanged. */
  lemma ExchangedOnceLive(l: Lifetimes, s: State, t: Token)
    requires RowServes(s, t) && Live(s, Metadata(t.owner, t.sid))
    ensures exists n :: Exchanges(l, s, t, t.owner.scope, true, n)
  {
    var n := UnusedId(s.born.Keys);
    assert n !in s.born;
    assert Exchanges(l, s, t, t.owner.scope, true, n);
  }

  lemma SetServes(s: State, r: Reading, t: Token)
    requires RowServes(s, t)
    ensures RowServes(SetCaptured(s, r), t)
  {}

  /**
   Whichever way a session died, its refresh token can still be exchanged for a new one if
   and only if a last-seen write of the session is between TTL and SET and the token's row
   is still there and in time.
   */
  lemma DeadTokenExchangedIff(l: Lifetimes, s: State, t: Token)
    requires Inv(l, s) && Buried(s, t.owner, t.sid)
    ensures MayExchange(l, s, t) <==> InFlight(s, Metadata(t.owner, t.sid)) && RowServes(s, t)
  {
    var k := Metadata(t.owner, t.sid);
    if MayExchange(l, s, t) {
      var es, scope, active, n :| Exchanges(l, Run(l, s, es), t, scope, active, n);
      ExchangeNeeds(l, s, t, es, scope, active, n);
      if !InFlight(s, k) {
        DeadStaysDead(l, s, es, t.owner, t.sid);
      }
    }
    if InFlight(s, k) && RowServes(s, t) {
      FlightExchanges(l, s, t);
    }
  }

  lemma LandedExchanges(l: Lifetimes, s: State, r: Reading, t: Token)
    requires r in s.captured && (r.ttl.Some? ==> r.ttl.value > 0)
    requires r.write.key == Metadata(t.owner, t.sid) && RowServes(s, t)
    ensures exists n :: Exchanges(l, SetCaptured(s, r), t, t.owner.scope, true, n)
  {
    Lands(s, r, r.write.key);
    SetServes(s, r, t);
    ExchangedOnceLive(l, SetCaptured(s, r), t);
  }

  lemma FlightExchanges(l: Lifetimes, s: State, t: Token)
    requires ReadingsFit(l, s) && InFlight(s, Metadata(t.owner, t.sid)) && RowServes(s, t)
    ensures MayExchange(l, s, t)
  {
    var r :| r in s.captured && r.write.key == Metadata(t.owner, t.sid);
    if r.ttl.Some? {
      TtlPositive(l, s, r);
    }
    LandedExchanges(l, s, r, t);
    RunOne(l, s, LateSet(r));
    OneStepExchange(l, s, LateSet(r), t);
  }

  lemma OneStepExchange(l: Lifetimes, s: State, e: Event, t: Token)
    requires Run(l, s, [e]) == Step(l, s, e) && exists n :: Exchanges(l, Step(l, s, e), t, t.owner.scope, true, n)
    ensures MayExchange(l, s, t)
  {
    var n :| Exchanges(l, Step(l, s, e), t, t.owner.scope, true, n);
    assert Exchanges(l, Run(l, s, [e]), t, t.owner.scope, true, n);
  }

  // ----- Revoking everything -----

  lemma RevokeAllKills(s: State, user: User, scope: Scope, sid: Sid)
    ensures var o := Owner(scope, user);
            Live(RevokeAll(s, user), Metadata(o, sid)) <==> Live(s, Metadata(o, sid)) && sid !in Members(s, UserSessions(o))
  {}

  lemma RevokeAllDropsTokens(l: Lifetimes, s: State, user: User, t: Token)
    requires Inv(l, s) && t in RevokeAll(s, user).rows
    ensures t.owner.user != user
  {
    assert RowFits(l, s, t, s.rows[t]);
  }

  /** After revokeAll no earlier refresh token of the user, of either application, is ever exchanged again. */
  lemma RevokeAllEndsRefreshing(l: Lifetimes, s: State, user: User, es: seq<Event>, scope: Scope, sid: Sid, exp: int,
                                asked: Scope, active: bool, n: Sid)
    requires Inv(l, s) && sid in s.born
    ensures Refresh(l, Run(l, RevokeAll(s, user), es), Token(Owner(scope, user), sid, exp), asked, active, n).Unauthorized?
  {
    var t := Token(Owner(scope, user), sid, exp);
    if t in RevokeAll(s, user).rows {
      RevokeAllDropsTokens(l, s, user, t);
    }
    RowGoneForGood(l, RevokeAll(s, user), es, t);
  }

  /** Nor is an earlier access token ever accepted, if no write of its session is in flight and none brought it back before. */
  lemma RevokeAllForGood(l: Lifetimes, s: State, user: User, es: seq<Event>, scope: Scope, sid: Sid, exp: int, required: Option<Scope>)
    requires Inv(l, s) && sid in s.born
    requires var k := Metadata(Owner(scope, user), sid); k !in s.revived && !InFlight(s, k)
    ensures !GuardAccepts(Run(l, RevokeAll(s, user), es), Bearer(Some(scope), user, sid, exp), required)
  {
    RevokeAllKeeps(l, s, user);
    RevokeAllBuries(s, user, scope, sid);
    GoneForGood(l, RevokeAll(s, user), es, Owner(scope, user), sid, exp, required);
  }

  lemma GoneForGood(l: Lifetimes, s: State, es: seq<Event>, o: Owner, sid: Sid, exp: int, required: Option<Scope>)
    requires Inv(l, s) && Gone(s, o, sid)
    ensures !GuardAccepts(Run(l, s, es), Bearer(Some(o.scope), o.user, sid, exp), required)
  {
    DeadStaysDead(l, s, es, o, sid);
  }

  lemma RevokeAllKeeps(l: Lifetimes, s: State, user: User)
    requires Inv(l, s)
    ensures Inv(l, RevokeAll(s, user))
  {
    RevokeAllShrinks(s, user);
    ShrinkKeeps(l, s, RevokeAll(s, user));
  }

  lemma RevokeAllBuries(s: State, user: User, scope: Scope, sid: Sid)
    requires Indexed(s) && sid in s.born
    requires var k := Metadata(Owner(scope, user), sid); k !in s.revived && !InFlight(s, k)
    ensures Gone(RevokeAll(s, user), Owner(scope, user), sid)
  {
    var k := Metadata(Owner(scope, user), sid);
    if Live(s, k) {
      assert Proper(s, k);
    }
    RevokeAllKills(s, user, scope, sid);
    RevokeAllShrinks(s, user);
  }

  /** An earlier session survives revokeAll, at once or later, exactly if it had left the index while live or a write of it is in flight. */
  lemma RevokeAllExact(l: Lifetimes, s: State, user: User, scope: Scope, sid: Sid)
    requires Inv(l, s) && sid in s.born
    ensures var o := Owner(scope, user); var k := Metadata(o, sid);
            MayLive(l, RevokeAll(s, user), k) <==> (Live(s, k) && sid !in Members(s, UserSessions(o))) || InFlight(s, k)
  {
    var o := Owner(scope, user);
    var t := RevokeAll(s, user);
    RevokeAllKills(s, user, scope, sid);
    RevokeAllKeeps(l, s, user);
    if Live(t, Metadata(o, sid)) {
      RunOne(l, t, Tick(0));
      assert Live(Run(l, t, []), Metadata(o, sid));
    } else {
      ComesBackIff(l, t, o, sid);
    }
  }

  /** A live session that is missing from its index is one a late SET brought back. */
  lemma StrayIsRevived(l: Lifetimes, s: State, k: RedisKey)
    requires Inv(l, s) && k.Metadata? && Live(s, k) && k.sid !in Members(s, UserSessions(k.owner))
    ensures k in s.revived
  {
    assert k !in s.revived ==> Proper(s, k);
  }

  const DAY := Lifetimes(86400, 86400)
  const VISITOR := Owner(TENANT, 1)
  const SEEN := Write(Metadata(VISITOR, 7), Blob(7, 0, 86400, Some(300)), 0)
  const READ := Reading(SEEN, Some(86100))
  const ACCESS := Bearer(Some(TENANT), 1, 7, 86400)

  /** A session five minutes old, a last-seen write of which has read its TTL. */
  const BETWEEN := State(
    map[SEEN.key := Cell(Blob(7, 0, 86400, None), Some(86400))], map[UserSessions(VISITOR) := {7}],
    map[Token(VISITOR, 7, 86400) := Row(VISITOR, 86400)], {}, {READ}, 300, map[7 := Birth(VISITOR, 0, 7)], {}, {})

  const VISIT := [SignIn(VISITOR, 7), Tick(300), Request(ACCESS, None, 0), ReadTtl(SEEN)]

  lemma Arrived()
    ensures Mint(DAY, EMPTY, VISITOR, 7, 7) == BETWEEN.(now := 0, captured := {})
  {
    var minted := Mint(DAY, EMPTY, VISITOR, 7, 7);
    assert minted.cells == BETWEEN.cells;
    assert {} + {7} == {7 as Sid};
    assert minted.sets == BETWEEN.sets;
    assert minted.rows == BETWEEN.rows;
    assert minted.born == BETWEEN.born;
  }

  /** Each later event of the visit. */
  lemma Went()
    ensures Step(DAY, BETWEEN.(now := 0, captured := {}), VISIT[1]) == BETWEEN.(captured := {})
    ensures Step(DAY, BETWEEN.(captured := {}), VISIT[2]) == BETWEEN.(captured := {}, pending := {SEEN})
    ensures Step(DAY, BETWEEN.(captured := {}, pending := {SEEN}), VISIT[3]) == BETWEEN
  {
    var u := CaptureTtl(BETWEEN.(captured := {}, pending := {SEEN}), SEEN);
    assert u.pending == {};
    assert u.captured == {READ};
  }

  lemma Visited()
    ensures Run(DAY, EMPTY, VISIT) == BETWEEN
  {
    Arrived();
    Went();
    RunTake(DAY, EMPTY, VISIT, 0);
    RunTake(DAY, EMPTY, VISIT, 1);
    RunTake(DAY, EMPTY, VISIT, 2);
    RunTake(DAY, EMPTY, VISIT, 3);
    assert VISIT[..4] == VISIT;
  }

  /**
   revokeAll between the two commands: the session is accepted again, it is in no index,
   and the next revokeAll misses it.
   */
  lemma RevokedComesBack()
    ensures var t := Run(DAY, EMPTY, VISIT + [KillAll(1)] + [LateSet(READ)]);
            GuardAccepts(t, ACCESS, None) && 7 !in Members(t, UserSessions(VISITOR)) && Live(RevokeAll(t, 1), SEEN.key)
  {
    Visited();
    RunMore(DAY, EMPTY, VISIT, KillAll(1));
    RunMore(DAY, EMPTY, VISIT + [KillAll(1)], LateSet(READ));
    var revoked := RevokeAll(BETWEEN, 1);
    RevokeAllShrinks(BETWEEN, 1);
    Lands(revoked, READ, SEEN.key);
    RevokeAllKills(SetCaptured(revoked, READ), 1, TENANT, 7);
  }

  const REVOCATION := Kill(VISITOR, 7)

  /** A revocation between the two commands: the token is exchanged, and the new session is live and in the index. */
  lemma RevokedTokenExchanged()
    ensures var t := Run(DAY, EMPTY, VISIT + [REVOCATION] + [LateSet(READ)]);
            var r := Refresh(DAY, t, Token(VISITOR, 7, 86400), TENANT, true, 8);
            r.Rotated? && Live(r.state, Metadata(VISITOR, 8)) && 8 in Members(r.state, UserSessions(VISITOR))
  {
    Visited();
    RunMore(DAY, EMPTY, VISIT, REVOCATION);
    RunMore(DAY, EMPTY, VISIT + [REVOCATION], LateSet(READ));
    var u := Forget(BETWEEN, VISITOR, 7);
    assert Step(DAY, BETWEEN, REVOCATION) == u;
    Lands(u, READ, SEEN.key);
    var t := SetCaptured(u, READ);
    RotationLive(DAY, t, Token(VISITOR, 7, 86400), 8, Metadata(VISITOR, 8));
  }

  /** After revokeOthers a session of that application is live exactly if it was and is the kept one, or is missing from the index. */
  lemma RevokeOthersExact(s: State, o: Owner, keep: Sid, sid: Sid)
    requires Indexed(s)
    ensures var k := Metadata(o, sid);
            (Live(RevokeOthers(s, o, keep), k) <==> Live(s, k) && (sid == keep || sid !in Members(s, UserSessions(o))))
            && (k !in s.revived ==> (Live(RevokeOthers(s, o, keep), k) <==> Live(s, k) && sid == keep))
  {
    if Live(s, Metadata(o, sid)) && Metadata(o, sid) !in s.revived {
      assert Proper(s, Metadata(o, sid));
    }
  }

  // ----- Rotation -----

  /** A refresh token succeeds at most once, whatever happens in between. */
  lemma RefreshedOnce(l: Lifetimes, s: State, t: Token, scope: Scope, active: bool, n: Sid,
                      es: seq<Event>, scope': Scope, active': bool, n': Sid)
    requires Inv(l, s) && n !in s.born && Refresh(l, s, t, scope, active, n).Rotated?
    ensures Refresh(l, Run(l, Refresh(l, s, t, scope, active, n).state, es), t, scope', active', n').Unauthorized?
  {
    assert RowFits(l, s, t, s.rows[t]);
    assert Refresh(l, s, t, scope, active, n).state == Rotation(l, s, t, n);
    RotationLive(l, s, t, n, Metadata(t.owner, n));
    RowGoneForGood(l, Rotation(l, s, t, n), es, t);
  }

  function LiveSids(s: State, o: Owner): set<Sid> {
    set k | k in s.cells && k.Metadata? && k.owner == o && Live(s, k) :: k.sid
  }

  lemma LiveSidIff(s: State, o: Owner, sid: Sid)
    ensures sid in LiveSids(s, o) <==> Live(s, Metadata(o, sid))
  {
    if Live(s, Metadata(o, sid)) {
      assert Metadata(o, sid) in s.cells && Metadata(o, sid).sid == sid;
    }
  }

  lemma RotatedSids(l: Lifetimes, s: State, t: Token, n: Sid)
    requires CellsFit(l, s) && n !in s.born && Live(s, Metadata(t.owner, t.sid))
    ensures LiveSids(Rotation(l, s, t, n), t.owner) == LiveSids(s, t.owner) - {t.sid} + {n}
  {
    LiveBorn(l, s, Metadata(t.owner, t.sid));
    forall sid
      ensures sid in LiveSids(Rotation(l, s, t, n), t.owner) <==> sid in LiveSids(s, t.owner) - {t.sid} + {n}
    {
      RotationLive(l, s, t, n, Metadata(t.owner, sid));
      LiveSidIff(s, t.owner, sid);
      LiveSidIff(Rotation(l, s, t, n), t.owner, sid);
    }
  }

  lemma Swapped(sids: set<Sid>, a: Sid, b: Sid)
    requires a in sids && b !in sids
    ensures |sids - {a} + {b}| == |sids|
  {}

  /** A success swaps one live session for another of the same user and application; their number is unchanged. */
  lemma RotationKeepsCount(l: Lifetimes, s: State, t: Token, scope: Scope, active: bool, n: Sid)
    requires Inv(l, s) && n !in s.born && Refresh(l, s, t, scope, active, n).Rotated?
    ensures var u := Refresh(l, s, t, scope, active, n).state;
            LiveSids(u, t.owner) == LiveSids(s, t.owner) - {t.sid} + {n}
            && |LiveSids(u, t.owner)| == |LiveSids(s, t.owner)|
            && t.owner.scope == scope
  {
    RotatedSids(l, s, t, n);
    LiveSidIff(s, t.owner, t.sid);
    FreshNotLive(l, s, t.owner, n);
    Swapped(LiveSids(s, t.owner), t.sid, n);
  }

  lemma FreshNotLive(l: Lifetimes, s: State, o: Owner, n: Sid)
    requires CellsFit(l, s) && n !in s.born
    ensures n !in LiveSids(s, o)
  {
    LiveSidIff(s, o, n);
    if Live(s, Metadata(o, n)) {
      LiveBorn(l, s, Metadata(o, n));
    }
  }

  /** In every run each lineage, that is each sign-in with all its refreshes, has at most one live session no late SET brought back. */
  lemma LineageAlone(l: Lifetimes, es: seq<Event>, j: RedisKey, k: RedisKey)
    requires var s := Run(l, EMPTY, es); Proper(s, j) && Proper(s, k) && RootOf(s, j.sid) == RootOf(s, k.sid)
    ensures j == k
  {
    EmptyFits(l);
    RunKeeps(l, EMPTY, es);
    LiveBorn(l, Run(l, EMPTY, es), j);
    LiveBorn(l, Run(l, EMPTY, es), k);
  }

  /** This session is live and goes back to that sign-in. */
  predicate LiveOf(s: State, root: Sid, k: RedisKey) {
    k.Metadata? && Live(s, k) && RootOf(s, k.sid) == root
  }

  ghost predicate Doubled(s: State, root: Sid) {
    exists j, k :: j != k && LiveOf(s, root, j) && LiveOf(s, root, k)
  }

  /** The SET lands on a dead session of the lineage while another one of it is live. */
  ghost predicate LandsBeside(s: State, r: Reading, root: Sid) {
    var k := r.write.key;
    k.Metadata? && !Live(s, k) && RootOf(s, k.sid) == root && exists j :: LiveOf(s, root, j)
  }

  lemma StillOneOf(s: State, t: State, root: Sid)
    requires !Doubled(s, root) && forall k :: LiveOf(t, root, k) ==> LiveOf(s, root, k)
    ensures !Doubled(t, root)
  {}

  lemma ShrinkOne(s: State, t: State, root: Sid)
    requires Shrinks(s, t) && !Doubled(s, root)
    ensures !Doubled(t, root)
  {
    StillOneOf(s, t, root);
  }

  lemma RootKnown(l: Lifetimes, s: State, k: RedisKey)
    requires CellsFit(l, s) && RootsBorn(s.born, s.replaced) && Live(s, k)
    ensures k.Metadata? && k.sid in s.born && RootOf(s, k.sid) in s.born
  {
    LiveBorn(l, s, k);
    assert RootBorn(s.born, k.sid);
  }

  lemma SignInOne(l: Lifetimes, s: State, o: Owner, sid: Sid, root: Sid)
    requires CellsFit(l, s) && RootsBorn(s.born, s.replaced) && sid !in s.born && !Doubled(s, root)
    ensures !Doubled(Mint(l, s, o, sid, sid), root)
  {
    var t := Mint(l, s, o, sid, sid);
    forall j, k | LiveOf(t, root, j) && LiveOf(t, root, k) ensures j == k {
      SignInLive(l, s, o, sid, root, j);
      SignInLive(l, s, o, sid, root, k);
    }
  }

  /** After a sign-in the live sessions of an earlier lineage are those it had; the new lineage has the new one. */
  lemma SignInLive(l: Lifetimes, s: State, o: Owner, sid: Sid, root: Sid, k: RedisKey)
    requires CellsFit(l, s) && RootsBorn(s.born, s.replaced) && sid !in s.born
    requires LiveOf(Mint(l, s, o, sid, sid), root, k)
    ensures if root == sid then k == Metadata(o, sid) else LiveOf(s, root, k)
  {
    if k != Metadata(o, sid) {
      MintLive(l, s, o, sid, sid, k);
      RootKnown(l, s, k);
    }
  }

  /** The new session is live in place of the old one. */
  lemma RotationOne(l: Lifetimes, s: State, t: Token, sid: Sid, root: Sid)
    requires CellsFit(l, s) && sid !in s.born && Live(s, Metadata(t.owner, t.sid)) && !Doubled(s, root)
    ensures !Doubled(Rotation(l, s, t, sid), root)
  {
    var u := Rotation(l, s, t, sid);
    forall j, k | LiveOf(u, root, j) && LiveOf(u, root, k) ensures j == k {
      RotationLiveOf(l, s, t, sid, root, j);
      RotationLiveOf(l, s, t, sid, root, k);
    }
  }

  lemma RotationLiveOf(l: Lifetimes, s: State, t: Token, sid: Sid, root: Sid, k: RedisKey)
    requires CellsFit(l, s) && sid !in s.born && Live(s, Metadata(t.owner, t.sid))
    requires LiveOf(Rotation(l, s, t, sid), root, k)
    ensures if k == Metadata(t.owner, sid) then RootOf(s, t.sid) == root && LiveOf(s, root, Metadata(t.owner, t.sid))
            else LiveOf(s, root, k) && k != Metadata(t.owner, t.sid)
  {
    LiveBorn(l, s, Metadata(t.owner, t.sid));
    RotationLive(l, s, t, sid, k);
    if k != Metadata(t.owner, sid) {
      LiveBorn(l, s, k);
    }
  }

  lemma RefreshOne(l: Lifetimes, s: State, t: Token, scope: Scope, active: bool, n: Sid, root: Sid)
    requires CellsFit(l, s) && n !in s.born && !Doubled(s, root)
    ensures !Doubled(Refresh(l, s, t, scope, active, n).state, root)
  {
    if Refresh(l, s, t, scope, active, n).Rotated? {
      RotationOne(l, s, t, n, root);
    } else {
      RowDropShrinks(s, t);
      if Refresh(l, s, t, scope, active, n).state != s {
        ShrinkOne(s, Refresh(l, s, t, scope, active, n).state, root);
      }
    }
  }

  lemma SetDoublesIff(l: Lifetimes, s: State, r: Reading, root: Sid)
    requires ReadingsFit(l, s) && r in s.captured && !Doubled(s, root)
    ensures Doubled(SetCaptured(s, r), root) <==> LandsBeside(s, r, root)
  {
    var t, k := SetCaptured(s, r), r.write.key;
    assert ReadingFits(l, s, r);
    forall j ensures LiveOf(t, root, j) <==> LiveOf(s, root, j) || (j == k && RootOf(s, k.sid) == root) {
      LateSetExact(l, s, r, j);
    }
    if LandsBeside(s, r, root) {
      var j :| LiveOf(s, root, j);
      assert j != k && LiveOf(t, root, j) && LiveOf(t, root, k);
    }
    if Doubled(t, root) {
      var i, j :| i != j && LiveOf(t, root, i) && LiveOf(t, root, j);
      assert LiveOf(s, root, i) || LiveOf(s, root, j);
    }
  }

  /** These leave what is live as it is, or dead. */
  lemma QuietOne(l: Lifetimes, s: State, e: Event, root: Sid)
    requires (e.Request? || e.ReadTtl? || e.Tick?) && !Doubled(s, root)
    ensures !Doubled(Step(l, s, e), root)
  {
    StillOneOf(s, Step(l, s, e), root);
  }

  /** The only event that doubles a lineage is a SET landing on a dead session of it beside a live one. */
  lemma StepDoublesIff(l: Lifetimes, s: State, e: Event, root: Sid)
    requires CellsFit(l, s) && ReadingsFit(l, s) && RootsBorn(s.born, s.replaced) && !Doubled(s, root)
    ensures Doubled(Step(l, s, e), root) <==> e.LateSet? && e.reading in s.captured && LandsBeside(s, e.reading, root)
  {
    if OnlyTakesAway(e) {
      KillShrinks(l, s, e);
      ShrinkOne(s, Step(l, s, e), root);
    } else if e.SignIn? {
      if e.sid !in s.born {
        SignInOne(l, s, e.owner, e.sid, root);
      }
    } else if e.RefreshToken? {
      if e.sid !in s.born {
        RefreshOne(l, s, e.token, e.scope, e.userActive, e.sid, root);
      }
    } else if e.LateSet? {
      if e.reading in s.captured {
        SetDoublesIff(l, s, e.reading, root);
      }
    } else {
      QuietOne(l, s, e, root);
    }
  }

  lemma RunRootsBorn(l: Lifetimes, s: State, es: seq<Event>)
    requires Inv(l, s)
    ensures RootsBorn(Run(l, s, es).born, Run(l, s, es).replaced)
  {
    RunKeeps(l, s, es);
  }

  /**
   In every run, a lineage with at most one live session comes to have two exactly by the
   SET of a last-seen write whose TTL was read while its session was live, which died
   since, while another session of the lineage is live.
   */
  lemma LineageDoublesIff(l: Lifetimes, es: seq<Event>, e: Event, root: Sid)
    requires !Doubled(Run(l, EMPTY, es), root)
    ensures Doubled(Step(l, Run(l, EMPTY, es), e), root)
       <==> e.LateSet? && ReadWhileLive(l, EMPTY, es, e.reading) && LandsBeside(Run(l, EMPTY, es), e.reading, root)
  {
    EmptyFits(l);
    RunFits(l, EMPTY, es);
    RunRootsBorn(l, EMPTY, es);
    StepDoublesIff(l, Run(l, EMPTY, es), e, root);
    if e.LateSet? {
      CapturedIff(l, EMPTY, es, e.reading);
    }
  }

  /** Step i of the run is such a SET. */
  ghost predicate DoublesAt(l: Lifetimes, es: seq<Event>, i: int, root: Sid) {
    0 <= i < |es| && es[i].LateSet? && ReadWhileLive(l, EMPTY, es[..i], es[i].reading)
    && LandsBeside(Run(l, EMPTY, es[..i]), es[i].reading, root)
  }

  lemma DoublesAtFront(l: Lifetimes, es: seq<Event>, i: int, root: Sid)
    requires |es| > 0 && DoublesAt(l, es[..|es| - 1], i, root)
    ensures DoublesAt(l, es, i, root)
  {
    assert es[..|es| - 1][..i] == es[..i] && es[..|es| - 1][i] == es[i];
  }

  lemma LastDoubles(l: Lifetimes, es: seq<Event>, root: Sid)
    requires |es| > 0 && Doubled(Run(l, EMPTY, es), root) && !Doubled(Run(l, EMPTY, es[..|es| - 1]), root)
    ensures DoublesAt(l, es, |es| - 1, root)
  {
    LineageDoublesIff(l, es[..|es| - 1], es[|es| - 1], root);
  }

  lemma NoneAtFirst(l: Lifetimes, root: Sid)
    ensures !Doubled(Run(l, EMPTY, []), root)
  {}

  /** So a lineage has two live sessions only after such a step, and never in a run without one. */
  lemma {:induction false} DoubledBySet(l: Lifetimes, es: seq<Event>, root: Sid)
    requires Doubled(Run(l, EMPTY, es), root)
    ensures exists i :: DoublesAt(l, es, i, root)
    decreases |es|
  {
    NoneAtFirst(l, root);
    assert |es| > 0;
    var front := es[..|es| - 1];
    if Doubled(Run(l, EMPTY, front), root) {
      DoubledBySet(l, front, root);
      var i :| DoublesAt(l, front, i, root);
      DoublesAtFront(l, es, i, root);
    } else {
      LastDoubles(l, es, root);
    }
  }

  const RENEWAL := RefreshToken(Token(VISITOR, 7, 86400), TENANT, true, 8)

  lemma Renewed()
    ensures var u := Step(DAY, BETWEEN, RENEWAL);
            READ in u.captured && Live(u, Metadata(VISITOR, 8)) && RootOf(u, 7) == 7 && RootOf(u, 8) == 7
  {
    RotationLive(DAY, BETWEEN, RENEWAL.token, 8, Metadata(VISITOR, 8));
    assert Step(DAY, BETWEEN, RENEWAL) == Rotation(DAY, BETWEEN, RENEWAL.token, 8);
  }

  /** A refresh between the two commands: the replaced session and the new one are both live. */
  lemma BothLive()
    ensures var t := Run(DAY, EMPTY, VISIT + [RENEWAL] + [LateSet(READ)]);
            LiveOf(t, 7, SEEN.key) && LiveOf(t, 7, Metadata(VISITOR, 8)) && Doubled(t, 7)
  {
    Visited();
    RunMore(DAY, EMPTY, VISIT, RENEWAL);
    RunMore(DAY, EMPTY, VISIT + [RENEWAL], LateSet(READ));
    Renewed();
    var u := Step(DAY, BETWEEN, RENEWAL);
    LandsLive(u, READ, Metadata(VISITOR, 8), 7);
  }

  lemma LandsLive(u: State, r: Reading, j: RedisKey, root: Sid)
    requires r in u.captured && (r.ttl.Some? ==> r.ttl.value > 0) && LiveOf(u, root, j)
    requires r.write.key.Metadata? && RootOf(u, r.write.key.sid) == root && j != r.write.key
    ensures LiveOf(SetCaptured(u, r), root, j) && LiveOf(SetCaptured(u, r), root, r.write.key)
    ensures Doubled(SetCaptured(u, r), root)
  {
    var t := SetCaptured(u, r);
    Lands(u, r, j);
    Lands(u, r, r.write.key);
    assert LiveOf(t, root, j) && LiveOf(t, root, r.write.key);
  }

  /** A refreshed session belongs to the lineage of the one it replaces. */
  lemma RotationKeepsLineage(l: Lifetimes, s: State, t: Token, scope: Scope, active: bool, n: Sid)
    requires Inv(l, s) && n !in s.born && Refresh(l, s, t, scope, active, n).Rotated?
    ensures RootOf(Refresh(l, s, t, scope, active, n).state, n) == RootOf(s, t.sid)
  {}

  // ----- Lifetimes -----

  /** The key expires at most n seconds late, as things are and whatever is in flight for it lands now. */
  predicate LateBy(l: Lifetimes, s: State, k: RedisKey, n: nat) {
    k.Metadata? && k.sid in s.born ==>
      var end := EndOf(l, s.born[k.sid]) + n;
      (k in s.cells && s.cells[k].expiry.Some? ==> s.cells[k].expiry.value <= end)
      && forall r :: r in s.captured && r.write.key == k && r.ttl.Some? ==> s.now + r.ttl.value <= end
  }

  /** The seconds this event lets pass while a write of the key is between TTL and SET. */
  function Delay(s: State, e: Event, k: RedisKey): nat {
    if e.Tick? && InFlight(s, k) then e.seconds else 0
  }

  function Delays(l: Lifetimes, s: State, es: seq<Event>, k: RedisKey): nat {
    if |es| == 0 then 0 else Delays(l, s, es[..|es| - 1], k) + Delay(Run(l, s, es[..|es| - 1]), es[|es| - 1], k)
  }

  lemma ShrinkLate(l: Lifetimes, s: State, t: State, k: RedisKey, n: nat)
    requires LateBy(l, s, k, n) && Shrinks(s, t)
    ensures LateBy(l, t, k, n)
  {}

  /** A key whose id was never minted holds nothing and has nothing in flight. */
  lemma UnbornUnused(l: Lifetimes, s: State, k: RedisKey)
    requires CellsFit(l, s) && ReadingsFit(l, s) && k.Metadata? && k.sid !in s.born
    ensures k !in s.cells && !InFlight(s, k)
  {
    forall j | j in s.cells ensures j != k {
      assert CellFits(l, s, j, s.cells[j]);
    }
    forall r | r in s.captured ensures r.write.key != k {
      assert ReadingFits(l, s, r);
    }
  }

  lemma MintLate(l: Lifetimes, s: State, o: Owner, sid: Sid, root: Sid, k: RedisKey, n: nat)
    requires CellsFit(l, s) && ReadingsFit(l, s) && LateBy(l, s, k, n) && sid !in s.born
    ensures LateBy(l, Mint(l, s, o, sid, root), k, n)
  {
    if k.Metadata? && k.sid == sid {
      UnbornUnused(l, s, k);
    }
  }

  lemma RefreshLate(l: Lifetimes, s: State, t: Token, scope: Scope, active: bool, sid: Sid, k: RedisKey, n: nat)
    requires CellsFit(l, s) && ReadingsFit(l, s) && LateBy(l, s, k, n) && sid !in s.born
    ensures LateBy(l, Refresh(l, s, t, scope, active, sid).state, k, n)
  {
    if Refresh(l, s, t, scope, active, sid).Rotated? {
      MintLate(l, s, t.owner, sid, RootOf(s, t.sid), k, n);
      assert LateBy(l, Exchanged(l, s, t, sid), k, n);
      ForgetShrinks(Exchanged(l, s, t, sid), t.owner, t.sid);
      ShrinkLate(l, Exchanged(l, s, t, sid), Rotation(l, s, t, sid), k, n);
    }
  }

  lemma TickLate(l: Lifetimes, s: State, d: nat, k: RedisKey, n: nat)
    requires LateBy(l, s, k, n)
    ensures LateBy(l, s.(now := s.now + d), k, n + if InFlight(s, k) then d else 0)
  {}

  lemma StepLate(l: Lifetimes, s: State, e: Event, k: RedisKey, n: nat)
    requires CellsFit(l, s) && ReadingsFit(l, s) && LateBy(l, s, k, n)
    ensures LateBy(l, Step(l, s, e), k, n + Delay(s, e, k))
  {
    if OnlyTakesAway(e) {
      KillShrinks(l, s, e);
      ShrinkLate(l, s, Step(l, s, e), k, n);
    } else {
      match e
      case SignIn(o, sid) => if sid !in s.born { MintLate(l, s, o, sid, sid, k, n); }
      case RefreshToken(t, scope, active, sid) => if sid !in s.born { RefreshLate(l, s, t, scope, active, sid, k, n); }
      case Tick(d) => TickLate(l, s, d, k, n);
      case Request(_, _, _) =>
      case ReadTtl(w) => CaptureLate(l, s, w, k, n);
      case LateSet(r) => SetLate(l, s, r, k, n);
    }
  }

  /** What remains of a lifetime is what is left to its expiry. */
  lemma CaptureLate(l: Lifetimes, s: State, w: Write, k: RedisKey, n: nat)
    requires LateBy(l, s, k, n)
    ensures LateBy(l, CaptureTtl(s, w), k, n)
  {}

  lemma SetLate(l: Lifetimes, s: State, r: Reading, k: RedisKey, n: nat)
    requires LateBy(l, s, k, n)
    ensures LateBy(l, SetCaptured(s, r), k, n)
  {}

  lemma {:induction false} RunLate(l: Lifetimes, s: State, es: seq<Event>, k: RedisKey, n: nat)
    requires Inv(l, s) && LateBy(l, s, k, n)
    ensures LateBy(l, Run(l, s, es), k, n + Delays(l, s, es, k))
    decreases |es|
  {
    if |es| > 0 {
      RunLate(l, s, es[..|es| - 1], k, n);
      LastLate(l, s, es, k, n + Delays(l, s, es[..|es| - 1], k));
    }
  }

  lemma LastLate(l: Lifetimes, s: State, es: seq<Event>, k: RedisKey, n: nat)
    requires |es| > 0 && Inv(l, s) && LateBy(l, Run(l, s, es[..|es| - 1]), k, n)
    ensures LateBy(l, Run(l, s, es), k, n + Delay(Run(l, s, es[..|es| - 1]), es[|es| - 1], k))
  {
    RunFits(l, s, es[..|es| - 1]);
    StepLate(l, Run(l, s, es[..|es| - 1]), es[|es| - 1], k, n);
  }

  /**
   In every run a session is live no longer than its application's lifetime after its minting,
   plus the seconds its last-seen writes spent between TTL and SET, however often it is used.
   */
  lemma NeverOutlives(l: Lifetimes, es: seq<Event>, o: Owner, sid: Sid)
    requires Ttl(l, o.scope) > 0 && Live(Run(l, EMPTY, es), Metadata(o, sid))
    ensures var t := Run(l, EMPTY, es);
            sid in t.born && t.now < EndOf(l, t.born[sid]) + Delays(l, EMPTY, es, Metadata(o, sid))
  {
    var t := Run(l, EMPTY, es);
    var k := Metadata(o, sid);
    EmptyFits(l);
    RunFits(l, EMPTY, es);
    RunLate(l, EMPTY, es, k, 0);
    assert CellFits(l, t, k, t.cells[k]);
  }

  /** The bound is reached: a delay between the two commands moves the expiry by exactly that delay. */
  lemma DelayExtends(l: Lifetimes, s: State, w: Write, d: nat, end: int)
    requires w in s.pending && Live(s, w.key) && s.cells[w.key].expiry == Some(end)
    ensures var r := Reading(w, Remaining(s, w.key));
            SetCaptured(CaptureTtl(s, w).(now := s.now + d), r).cells[w.key] == Cell(w.blob, Some(end + d))
  {}

  /** The store gives a freshly minted blob an expiry exactly when the configured lifetime is at least a second. */
  lemma ImmortalIff(l: Lifetimes, s: State, o: Owner, sid: Sid, root: Sid)
    ensures Mint(l, s, o, sid, root).cells[Metadata(o, sid)].expiry == None <==> Ttl(l, o.scope) == 0
    ensures Live(Mint(l, s, o, sid, root), Metadata(o, sid))
  {}

  predicate LiveAfter(s: State, k: RedisKey, d: nat) {
    Live(s.(now := s.now + d), k)
  }

  ghost predicate TimeEnds(s: State, k: RedisKey) {
    exists d: nat :: !LiveAfter(s, k, d)
  }

  lemma ExpiryEnds(s: State, k: RedisKey)
    requires Live(s, k)
    ensures TimeEnds(s, k) <==> s.cells[k].expiry.Some?
  {
    if s.cells[k].expiry.Some? {
      var d: nat := s.cells[k].expiry.value - s.now;
      assert !LiveAfter(s, k, d);
    }
  }

  /** In every reachable state: time alone ends a live session if and only if its application's lifetime is at least a second. */
  lemma TimeEndsIff(l: Lifetimes, es: seq<Event>, k: RedisKey)
    requires Live(Run(l, EMPTY, es), k)
    ensures TimeEnds(Run(l, EMPTY, es), k) <==> Ttl(l, k.owner.scope) > 0
  {
    var s := Run(l, EMPTY, es);
    EmptyFits(l);
    RunFits(l, EMPTY, es);
    assert CellFits(l, s, k, s.cells[k]);
    ExpiryEnds(s, k);
  }

  // ----- The two applications do not touch -----

  function ScopeOf(s: State, e: Event): Option<Scope> {
    match e
    case SignIn(o, _) => Some(o.scope)
    case RefreshToken(t, scope, _, _) => Some(scope)
    case SignOut(o, _, _) => Some(o.scope)
    case Kill(o, _) => Some(o.scope)
    case KillOthers(o, _) => Some(o.scope)
    case ListSessions(o) => Some(o.scope)
    case Request(b, _, _) => b.scope
    case ReadTtl(w) => Some(w.key.owner.scope)
    case LateSet(r) => Some(r.write.key.owner.scope)
    case _ => None
  }

  ghost predicate CellsUntouched(s: State, t: State, scope: Scope) {
    forall k: RedisKey :: k.owner.scope == scope ==>
      (k in s.cells <==> k in t.cells) && (k in s.cells && k in t.cells ==> s.cells[k] == t.cells[k])
      && Members(s, k) == Members(t, k)
  }

  ghost predicate RowsUntouched(s: State, t: State, scope: Scope) {
    forall x: Token :: x.owner.scope == scope ==>
      (x in s.rows <==> x in t.rows) && (x in s.rows && x in t.rows ==> s.rows[x] == t.rows[x])
  }

  lemma RefreshElsewhere(l: Lifetimes, s: State, t: Token, sc: Scope, active: bool, sid: Sid, scope: Scope)
    requires sc != scope
    ensures CellsUntouched(s, Refresh(l, s, t, sc, active, sid).state, scope)
  {
    if Refresh(l, s, t, sc, active, sid).Rotated? {
      MintElsewhere(l, s, t.owner, sid, RootOf(s, t.sid), scope);
      ForgetElsewhere(Exchanged(l, s, t, sid), t.owner, t.sid, scope);
    }
  }

  lemma FlightElsewhere(l: Lifetimes, s: State, e: Event, scope: Scope)
    requires e.Request? || e.ReadTtl? || (e.LateSet? && e.reading.write.key.owner.scope != scope)
    ensures CellsUntouched(s, Step(l, s, e), scope)
  {
    if e.LateSet? {
      SetElsewhere(s, e.reading, scope);
    } else {
      StoreLeftAlone(l, s, e);
    }
  }

  lemma SetElsewhere(s: State, r: Reading, scope: Scope)
    requires r.write.key.owner.scope != scope
    ensures CellsUntouched(s, SetCaptured(s, r), scope)
  {}

  lemma StoreLeftAlone(l: Lifetimes, s: State, e: Event)
    requires e.Request? || e.ReadTtl?
    ensures Step(l, s, e).cells == s.cells && Step(l, s, e).sets == s.sets
  {}

  /** Nothing but revokeAll and revokeAnyScope reaches the other application's sessions. */
  lemma OtherScopeSessions(l: Lifetimes, s: State, e: Event, scope: Scope)
    requires ScopeOf(s, e).Some? && ScopeOf(s, e).value != scope
    ensures CellsUntouched(s, Step(l, s, e), scope)
  {
    if e.Request? || e.ReadTtl? || e.LateSet? {
      FlightElsewhere(l, s, e, scope);
    } else if e.RefreshToken? {
      RefreshElsewhere(l, s, e.token, e.scope, e.userActive, e.sid, scope);
    } else {
      KillElsewhere(l, s, e, scope);
    }
  }

  lemma KillElsewhere(l: Lifetimes, s: State, e: Event, scope: Scope)
    requires e.SignIn? || e.SignOut? || e.Kill? || e.KillOthers? || e.ListSessions?
    requires e.owner.scope != scope
    ensures CellsUntouched(s, Step(l, s, e), scope)
  {
    match e
    case SignIn(o, sid) => MintElsewhere(l, s, o, sid, sid, scope);
    case SignOut(o, sid, t) => ForgetElsewhere(s, o, sid, scope);
    case Kill(o, sid) => ForgetElsewhere(s, o, sid, scope);
    case KillOthers(o, keep) =>
    case ListSessions(o) =>
  }

  lemma MintElsewhere(l: Lifetimes, s: State, o: Owner, sid: Sid, root: Sid, scope: Scope)
    requires o.scope != scope
    ensures CellsUntouched(s, Mint(l, s, o, sid, root), scope)
  {}

  lemma ForgetElsewhere(s: State, o: Owner, sid: Sid, scope: Scope)
    requires o.scope != scope
    ensures CellsUntouched(s, Forget(s, o, sid), scope)
  {}

  lemma MintRowsElsewhere(l: Lifetimes, s: State, o: Owner, sid: Sid, root: Sid, scope: Scope)
    requires o.scope != scope
    ensures RowsUntouched(s, Mint(l, s, o, sid, root), scope)
  {}

  lemma LogoutRowsElsewhere(l: Lifetimes, s: State, o: Owner, sid: Sid, t: Option<Token>, scope: Scope)
    requires RowsFit(l, s) && o.scope != scope
    ensures RowsUntouched(s, Logout(s, o, sid, t), scope)
  {
    if t.Some? && t.value in s.rows {
      assert RowFits(l, s, t.value, s.rows[t.value]);
    }
  }

  /** Nor the other application's refresh tokens. */
  lemma OtherScopeTokens(l: Lifetimes, s: State, e: Event, scope: Scope)
    requires RowsFit(l, s) && ScopeOf(s, e).Some? && ScopeOf(s, e).value != scope
    ensures RowsUntouched(s, Step(l, s, e), scope)
  {
    if e.SignIn? {
      MintRowsElsewhere(l, s, e.owner, e.sid, e.sid, scope);
    } else if e.RefreshToken? {
      RefreshRowsElsewhere(l, s, e.token, e.scope, e.userActive, e.sid, scope);
    } else if e.SignOut? {
      LogoutRowsElsewhere(l, s, e.owner, e.sid, e.given, scope);
    } else {
      RowsLeftAlone(l, s, e);
    }
  }

  lemma RefreshRowsElsewhere(l: Lifetimes, s: State, t: Token, sc: Scope, active: bool, sid: Sid, scope: Scope)
    requires sc != scope
    ensures RowsUntouched(s, Refresh(l, s, t, sc, active, sid).state, scope)
  {
    if t.owner.scope == sc {
      MintRowsElsewhere(l, s, t.owner, sid, RootOf(s, t.sid), scope);
    }
  }

  lemma RowsLeftAlone(l: Lifetimes, s: State, e: Event)
    requires e.Kill? || e.KillOthers? || e.ListSessions? || e.Request? || e.ReadTtl? || e.LateSet?
    ensures Step(l, s, e).rows == s.rows
  {}
}

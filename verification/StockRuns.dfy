/**
 Product stocks over runs in which two things happen that module Commerce leaves out: a
 movement by hand reads its stock and writes it in two steps
 (src/modules/inventory-movements/inventory-movements.service.ts:57-75), and a stock is
 given another location (src/modules/product-stocks/dto/update-product-stock.dto.ts:5,
 src/modules/product-stocks/product-stocks.service.ts:59-67).

 Movement rows and pending movements hold on to the stock row, so both follow it when it
 moves. A production does not: its removal looks for the main location again.
 */
module StockRuns {
  import opened Options
  import opened Sums
  import opened Inventory
  import opened Commerce
  import opened CommerceStocks

  type Client = nat

  /** A movement by hand that has read its stock. */
  datatype Read = Read(key: StockKey, quantity: real, kind: MovementType, seen: real)
  datatype State = State(shop: Shop, pending: map<Client, Read>)

  datatype Event =
    | ReadStock(client: Client, key: StockKey, product: Id, quantity: real, kind: MovementType)
    | WriteStock(client: Client)
    | Relocate(key: StockKey, location: string)
    | Ask(request: Request)

  // ----- Moving a stock -----

  function Rekey(k: StockKey, from: StockKey, to: StockKey): StockKey {
    if k == from then to else k
  }

  function RekeyRow(m: Movement, from: StockKey, to: StockKey): Movement {
    m.(key := Rekey(m.key, from, to))
  }

  function Rekeyed(ms: seq<Movement>, from: StockKey, to: StockKey): (r: seq<Movement>)
    ensures |r| == |ms|
  {
    seq(|ms|, i requires 0 <= i < |ms| => RekeyRow(ms[i], from, to))
  }

  function Relocated(w: Warehouse, from: StockKey, to: StockKey): Warehouse
    requires from in w.stocks
  {
    w.(stocks := (w.stocks - {from})[to := w.stocks[from]], movements := Rekeyed(w.movements, from, to))
  }

  function RekeyReads(pending: map<Client, Read>, from: StockKey, to: StockKey): map<Client, Read> {
    map c | c in pending :: pending[c].(key := Rekey(pending[c].key, from, to))
  }

  // ----- Steps -----

  function Stocks(s: State): Inventory.Stocks {
    s.shop.warehouse.stocks
  }

  function StepRead(s: State, c: Client, k: StockKey, product: Id, quantity: real, kind: MovementType): State {
    if c in s.pending || k !in Stocks(s) || k.product != product then s
    else s.(pending := s.pending[c := Read(k, quantity, kind, Stocks(s)[k])])
  }

  function StepWrite(s: State, c: Client): State {
    if c !in s.pending || s.pending[c].key !in Stocks(s) then s
    else
      var r := s.pending[c];
      State(s.shop.(warehouse := HandWrite(s.shop.warehouse, r.key, r.seen, r.quantity, r.kind)), s.pending - {c})
  }

  /** A product has one stock per location. */
  function StepRelocate(s: State, from: StockKey, to: StockKey): State {
    if from !in Stocks(s) || to in Stocks(s) then s
    else State(s.shop.(warehouse := Relocated(s.shop.warehouse, from, to)), RekeyReads(s.pending, from, to))
  }

  function Step(s: State, e: Event): State {
    match e
    case ReadStock(c, k, product, quantity, kind) => StepRead(s, c, k, product, quantity, kind)
    case WriteStock(c) => StepWrite(s, c)
    case Relocate(k, location) => StepRelocate(s, k, StockKey(k.product, location))
    case Ask(q) => s.(shop := Next(s.shop, q))
  }

  function Run(s: State, es: seq<Event>): State {
    if |es| == 0 then s else Step(Run(s, es[..|es| - 1]), es[|es| - 1])
  }

  /** A stock that is given another location keeps its quantity; its rows and the movements that have read it follow, all others stay. */
  lemma RelocationMoves(s: State, k: StockKey, location: string)
    requires k in Stocks(s) && StockKey(k.product, location) !in Stocks(s)
    ensures var t, to := Step(s, Relocate(k, location)), StockKey(k.product, location);
            var before, after := s.shop.warehouse.movements, t.shop.warehouse.movements;
            Stocks(t) == (Stocks(s) - {k})[to := Stocks(s)[k]]
            && |after| == |before|
            && (forall i :: 0 <= i < |before| ==> after[i] == before[i].(key := if before[i].key == k then to else before[i].key))
            && t.pending.Keys == s.pending.Keys
            && (forall c :: c in s.pending ==>
                  t.pending[c] == s.pending[c].(key := if s.pending[c].key == k then to else s.pending[c].key))
  {}

  /** A movement nobody interrupts is the request of module Commerce. */
  lemma AloneIsMoveByHand(s: State, c: Client, k: StockKey, product: Id, quantity: real, kind: MovementType)
    requires c !in s.pending
    ensures Step(Step(s, ReadStock(c, k, product, quantity, kind)), WriteStock(c))
         == Step(s, Ask(MoveByHand(k, product, quantity, kind)))
  {
    var t := Step(s, ReadStock(c, k, product, quantity, kind));
    if c in t.pending {
      assert t.pending - {c} == s.pending;
    }
  }

  // ----- What every run keeps -----

  predicate RowOf(ms: seq<Movement>, quantity: real) {
    |ms| == 1 && ms[0].quantity == quantity
  }

  /** Each production in the shop has one row, of its quantity, wherever its stock is now. */
  predicate OneRowEach(s: Shop) {
    forall i :: i in s.productions ==> RowOf(Own(s.warehouse, ByProduction(i)), s.productions[i].quantity)
  }

  predicate Placed(s: State) {
    RowsPlaced(s.shop) && OneRowEach(s.shop)
  }

  lemma StockInvPlaced(shop: Shop, pending: map<Client, Read>)
    requires StockInv(shop)
    ensures Placed(State(shop, pending)) && Tidy(shop.warehouse)
  {
    forall i | i in shop.productions ensures RowOf(Own(shop.warehouse, ByProduction(i)), shop.productions[i].quantity) {
      assert Own(shop.warehouse, ByProduction(i)) == Rows([shop.productions[i]], PRODUCTION, ByProduction(i));
    }
  }

  lemma RekeyedPush(ms: seq<Movement>, m: Movement, from: StockKey, to: StockKey)
    ensures Rekeyed(ms + [m], from, to) == Rekeyed(ms, from, to) + [RekeyRow(m, from, to)]
  {}

  lemma {:induction false} RekeyedOwn(ms: seq<Movement>, from: StockKey, to: StockKey, ref: Ref)
    ensures Keep(Rekeyed(ms, from, to), With(ref)) == Rekeyed(Keep(ms, With(ref)), from, to)
  {
    if |ms| > 0 {
      var front, last := ms[..|ms| - 1], ms[|ms| - 1];
      RekeyedOwn(front, from, to, ref);
      assert Rekeyed(ms, from, to)[..|ms| - 1] == Rekeyed(front, from, to);
      RekeyedPush(Keep(front, With(ref)), last, from, to);
    }
  }

  /** Rows at the old key count at the new one, which had none. */
  lemma {:induction false} RekeyedEffect(ms: seq<Movement>, from: StockKey, to: StockKey, k: StockKey)
    requires from != to && forall m :: m in ms ==> m.key != to
    ensures Sum(Rekeyed(ms, from, to), Effect(k))
         == if k == to then Sum(ms, Effect(from)) else if k == from then 0.0 else Sum(ms, Effect(k))
  {
    if |ms| > 0 {
      var n := |ms| - 1;
      assert ms[n] in ms;
      forall m | m in ms[..n] ensures m.key != to {
        assert m in ms;
      }
      RekeyedEffect(ms[..n], from, to, k);
      assert Rekeyed(ms, from, to)[..n] == Rekeyed(ms[..n], from, to);
    }
  }

  lemma RekeyedRow(ms: seq<Movement>, from: StockKey, to: StockKey, m: Movement) returns (before: Movement)
    requires m in Rekeyed(ms, from, to)
    ensures before in ms && m == RekeyRow(before, from, to)
  {
    var i :| 0 <= i < |ms| && Rekeyed(ms, from, to)[i] == m;
    before := ms[i];
  }

  /** Moving a stock keeps every stock explained. */
  lemma RelocationKeepsTidy(w: Warehouse, from: StockKey, to: StockKey)
    requires Tidy(w) && from in w.stocks && to !in w.stocks
    ensures Tidy(Relocated(w, from, to))
  {
    var v := Relocated(w, from, to);
    forall k | k in v.stocks ensures v.stocks[k] == Sum(v.movements, Effect(k)) {
      RekeyedEffect(w.movements, from, to, k);
    }
    forall m | m in v.movements ensures m.key in v.stocks && KindFits(m) {
      var before := RekeyedRow(w.movements, from, to, m);
    }
  }

  lemma RelocationKeepsPlaces(s: State, from: StockKey, to: StockKey)
    requires Placed(s)
    ensures Placed(StepRelocate(s, from, to))
  {
    var t := StepRelocate(s, from, to);
    if t != s {
      forall m | m in t.shop.warehouse.movements ensures Exists(t.shop, m.ref) {
        var before := RekeyedRow(s.shop.warehouse.movements, from, to, m);
        assert Exists(s.shop, before.ref);
      }
      forall i | i in t.shop.productions
        ensures RowOf(Own(t.shop.warehouse, ByProduction(i)), t.shop.productions[i].quantity)
      {
        RekeyedOwn(s.shop.warehouse.movements, from, to, ByProduction(i));
        assert RowOf(Own(s.shop.warehouse, ByProduction(i)), s.shop.productions[i].quantity);
      }
    }
  }

  lemma WriteKeepsPlaces(s: State, c: Client)
    requires Placed(s)
    ensures Placed(StepWrite(s, c))
  {
    var t := StepWrite(s, c);
    if t != s {
      var w, r := s.shop.warehouse, s.pending[c];
      var rows := Rows([HandLine(r.key, r.quantity)], r.kind, ByHand);
      forall m | m in t.shop.warehouse.movements ensures Exists(t.shop, m.ref) {
        assert m in w.movements || m in rows;
        assert m in w.movements ==> Exists(s.shop, m.ref);
      }
      forall i | i in t.shop.productions
        ensures RowOf(Own(t.shop.warehouse, ByProduction(i)), t.shop.productions[i].quantity)
      {
        KeepConcat(w.movements, rows, With(ByProduction(i)));
        KeepNone(rows, With(ByProduction(i)));
        assert Own(w, ByProduction(i)) + [] == Own(w, ByProduction(i));
        assert RowOf(Own(w, ByProduction(i)), s.shop.productions[i].quantity);
      }
    }
  }

  lemma AskKeepsRows(s: Shop, q: Request)
    requires RowsPlaced(s) && OneRowEach(s)
    ensures OneRowEach(Next(s, q))
  {
    var t := Next(s, q);
    forall i | i in t.productions
      ensures RowOf(Own(t.warehouse, ByProduction(i)), t.productions[i].quantity)
    {
      if Subject(q) != Some(ByProduction(i)) {
        OtherRowsKept(s, q, ByProduction(i));
        ProductionsStay(s, q, i);
        assert RowOf(Own(s.warehouse, ByProduction(i)), s.productions[i].quantity);
      } else if i in s.productions {
        assert RowOf(Own(s.warehouse, ByProduction(i)), s.productions[i].quantity);
      } else {
        ProducedRows(s, i, q.line);
      }
    }
  }

  lemma StepKeepsPlaced(s: State, e: Event)
    requires Placed(s)
    ensures Placed(Step(s, e))
  {
    match e
    case ReadStock(_, _, _, _, _) =>
    case WriteStock(c) => WriteKeepsPlaces(s, c);
    case Relocate(k, location) => RelocationKeepsPlaces(s, k, StockKey(k.product, location));
    case Ask(q) =>
      StepKeepsPlaces(s.shop, q);
      AskKeepsRows(s.shop, q);
  }

  lemma {:induction false} RunKeepsPlaced(s: State, es: seq<Event>)
    requires Placed(s)
    ensures Placed(Run(s, es))
    decreases |es|
  {
    if |es| > 0 {
      RunKeepsPlaced(s, es[..|es| - 1]);
      StepKeepsPlaced(Run(s, es[..|es| - 1]), es[|es| - 1]);
    }
  }

  // ----- When stocks stay explained -----

  /** The write comes from a quantity the stock no longer has. */
  predicate Overwrites(s: State, e: Event) {
    e.WriteStock? && e.client in s.pending && s.pending[e.client].key in Stocks(s)
    && s.pending[e.client].seen != Stocks(s)[s.pending[e.client].key]
  }

  /** The removed production's row points at another stock than the one that is decremented. */
  predicate Misplaces(s: State, e: Event) {
    e.Ask? && e.request.RemoveProduction? && e.request.id in s.shop.productions
    && var own := Own(s.shop.warehouse, ByProduction(e.request.id));
       var l := s.shop.productions[e.request.id];
       l.key in Stocks(s) && l.quantity != 0.0 && |own| == 1 && own[0].key != l.key
  }

  predicate Breaks(s: State, e: Event) {
    Overwrites(s, e) || Misplaces(s, e)
  }

  lemma WriteExact(s: State, c: Client)
    requires Tidy(s.shop.warehouse)
    ensures Tidy(StepWrite(s, c).shop.warehouse) <==> !Overwrites(s, WriteStock(c))
  {
    if c in s.pending && s.pending[c].key in Stocks(s) {
      var w, r := s.shop.warehouse, s.pending[c];
      ManualWriteExact(w, r.key, r.seen, r.quantity, r.kind);
      if r.seen == w.stocks[r.key] {
        HandMoveKeeps(w, r.key, r.quantity, r.kind);
      }
    }
  }

  lemma SumOne(m: Movement, k: StockKey)
    ensures Sum([m], Effect(k)) == Effect(k)(m)
  {
    SumPush([], m, Effect(k));
    assert [] + [m] == [m];
  }

  /** Removing a production with one row decrements one stock and takes the row off another, or the same. */
  lemma UnproduceExact(w: Warehouse, id: Id, l: Line, own: seq<Movement>)
    requires Tidy(w) && own == Own(w, ByProduction(id)) && RowOf(own, l.quantity) && l.key in w.stocks
    ensures Tidy(Unproduce(w, id, l).value) <==> own[0].key == l.key || l.quantity == 0.0
  {
    var v, m := Unproduce(w, id, l).value, own[0];
    assert own == [m];
    forall k ensures Sum(v.movements, Effect(k)) == Sum(w.movements, Effect(k)) - if m.key == k then l.quantity else 0.0 {
      EffectWithout(w, id, m, l.quantity, k);
    }
    if m.key != l.key && l.quantity != 0.0 {
      assert v.stocks[l.key] != Sum(v.movements, Effect(l.key));
    }
  }

  lemma EffectWithout(w: Warehouse, id: Id, m: Movement, quantity: real, k: StockKey)
    requires Tidy(w) && Own(w, ByProduction(id)) == [m] && m.quantity == quantity
    ensures Sum(Keep(w.movements, Not(With(ByProduction(id)))), Effect(k))
         == Sum(w.movements, Effect(k)) - if m.key == k then quantity else 0.0
  {
    assert m in Own(w, ByProduction(id));
    SumSplit(w.movements, With(ByProduction(id)), Effect(k));
    SumOne(m, k);
  }

  lemma RemovalExact(s: State, id: Id)
    requires Tidy(s.shop.warehouse) && OneRowEach(s.shop)
    ensures Tidy(Next(s.shop, RemoveProduction(id)).warehouse) <==> !Misplaces(s, Ask(RemoveProduction(id)))
  {
    if id in s.shop.productions && s.shop.productions[id].key in Stocks(s) {
      var own := Own(s.shop.warehouse, ByProduction(id));
      assert RowOf(own, s.shop.productions[id].quantity);
      UnproduceExact(s.shop.warehouse, id, s.shop.productions[id], own);
      RemovedWarehouse(s.shop, id);
    } else {
      RemovalRefused(s.shop, id);
    }
  }

  lemma RemovalRefused(s: Shop, id: Id)
    requires !(id in s.productions && s.productions[id].key in s.warehouse.stocks)
    ensures Next(s, RemoveProduction(id)) == s
  {}

  lemma RemovedWarehouse(s: Shop, id: Id)
    requires id in s.productions && s.productions[id].key in s.warehouse.stocks
    ensures Next(s, RemoveProduction(id)).warehouse == Unproduce(s.warehouse, id, s.productions[id]).value
  {}

  lemma AskExact(s: State, q: Request)
    requires Tidy(s.shop.warehouse) && OneRowEach(s.shop)
    ensures Tidy(Next(s.shop, q).warehouse) <==> !Misplaces(s, Ask(q))
  {
    if q.RemoveProduction? {
      RemovalExact(s, q.id);
    } else if Apply(s.shop, q).Done? {
      MostKeepTidy(s.shop, q);
      ApplyWarehouse(s.shop, q);
    }
  }

  lemma StepExact(s: State, e: Event)
    requires Tidy(s.shop.warehouse) && Placed(s)
    ensures Tidy(Step(s, e).shop.warehouse) <==> !Breaks(s, e)
  {
    match e
    case ReadStock(_, _, _, _, _) =>
    case WriteStock(c) => WriteExact(s, c);
    case Relocate(k, location) =>
      if k in Stocks(s) && StockKey(k.product, location) !in Stocks(s) {
        RelocationKeepsTidy(s.shop.warehouse, k, StockKey(k.product, location));
      }
    case Ask(q) => AskExact(s, q);
  }

  predicate ExplainedAt(s: State, es: seq<Event>, i: nat)
    requires i <= |es|
  {
    Tidy(Run(s, es[..i]).shop.warehouse)
  }

  predicate BreaksAt(s: State, es: seq<Event>, i: nat)
    requires i < |es|
  {
    Breaks(Run(s, es[..i]), es[i])
  }

  lemma NextExact(s: State, es: seq<Event>, i: nat)
    requires Placed(s) && i < |es| && ExplainedAt(s, es, i)
    ensures ExplainedAt(s, es, i + 1) <==> !BreaksAt(s, es, i)
  {
    RunKeepsPlaced(s, es[..i]);
    StepExact(Run(s, es[..i]), es[i]);
    assert es[..i + 1][..i] == es[..i];
  }

  /**
   In every run, every stock is at all times the signed sum of the rows that point at it if
   and only if no movement by hand writes from a quantity its stock no longer has and no
   production is removed whose stock is at another location by then.
   */
  lemma ExplainedIff(s: State, es: seq<Event>)
    requires Placed(s) && Tidy(s.shop.warehouse)
    ensures (forall i :: 0 <= i <= |es| ==> ExplainedAt(s, es, i)) <==> (forall i :: 0 <= i < |es| ==> !BreaksAt(s, es, i))
  {
    assert es[..0] == [];
    if forall i :: 0 <= i <= |es| ==> ExplainedAt(s, es, i) {
      forall i | 0 <= i < |es| ensures !BreaksAt(s, es, i) {
        NextExact(s, es, i);
      }
    }
    if forall i :: 0 <= i < |es| ==> !BreaksAt(s, es, i) {
      forall i | 0 <= i <= |es| ensures ExplainedAt(s, es, i) {
        ExplainedUpTo(s, es, i);
      }
    }
  }

  lemma {:induction false} ExplainedUpTo(s: State, es: seq<Event>, i: nat)
    requires Placed(s) && Tidy(s.shop.warehouse) && i <= |es|
    requires forall j :: 0 <= j < |es| ==> !BreaksAt(s, es, j)
    ensures ExplainedAt(s, es, i)
  {
    if i == 0 {
      assert es[..0] == [];
    } else {
      ExplainedUpTo(s, es, i - 1);
      NextExact(s, es, i - 1);
    }
  }

  // ----- A relocated production, removed -----

  const MADE := Line(SHELF, 5.0, None)
  const BACK := StockKey(1, "Back")
  const MADE_ROW := Movement(SHELF, 5.0, None, PRODUCTION, ByProduction(1))

  /** The shop of one product with these stocks and rows, and with production 1 in it or not. */
  function Corner(stocks: Inventory.Stocks, rows: seq<Movement>, made: bool): Shop {
    KIOSK.(warehouse := Warehouse(map[1 := true], stocks, rows), sales := map[], productions := if made then map[1 := MADE] else map[])
  }

  lemma MadeFive()
    ensures Next(Corner(map[], [], false), FinishProduction(1, MADE)) == Corner(map[SHELF := 5.0], [MADE_ROW], true)
  {
    var w := Stocking(Warehouse(map[1 := true], map[], []), [MADE]);
    assert [MADE][..0] == [] && MADE in [MADE];
    assert w.stocks == map[SHELF := 0.0];
    AskedOne(MADE, SHELF);
    assert Increased(w.stocks, [MADE]) == map[SHELF := 5.0];
    assert Rows([MADE], PRODUCTION, ByProduction(1)) == [MADE_ROW];
    assert [] + [MADE_ROW] == [MADE_ROW];
  }

  lemma MovedBack()
    ensures Relocated(Corner(map[SHELF := 5.0], [MADE_ROW], true).warehouse, SHELF, BACK)
         == Corner(map[BACK := 5.0], [MADE_ROW.(key := BACK)], true).warehouse
  {
    assert (map[SHELF := 5.0] - {SHELF})[BACK := 5.0] == map[BACK := 5.0];
    assert Rekeyed([MADE_ROW], SHELF, BACK) == [MADE_ROW.(key := BACK)];
  }

  lemma TakenOff()
    ensures var stocks := map[BACK := 5.0, SHELF := 0.0];
            Next(Corner(stocks, [MADE_ROW.(key := BACK)], true), RemoveProduction(1))
            == Corner(map[BACK := 5.0, SHELF := -5.0], [], false)
  {
    var stocks := map[BACK := 5.0, SHELF := 0.0];
    assert stocks[SHELF := 0.0 - 5.0] == map[BACK := 5.0, SHELF := -5.0];
    KeepNone([MADE_ROW.(key := BACK)], Not(With(ByProduction(1))));
    assert map[1 := MADE] - {1 as Id} == map[];
  }

  const ASTRAY := [Ask(FinishProduction(1, MADE)), Relocate(SHELF, "Back"), Ask(CreateStock(SHELF)), Ask(RemoveProduction(1))]

  lemma RunTake(s: State, es: seq<Event>, i: nat)
    requires i < |es|
    ensures Run(s, es[..i + 1]) == Step(Run(s, es[..i]), es[i])
  {
    assert es[..i + 1][..i] == es[..i];
  }

  function Idle(stocks: Inventory.Stocks, rows: seq<Movement>, made: bool): State {
    State(Corner(stocks, rows, made), map[])
  }

  lemma GoneBack()
    ensures Step(Idle(map[SHELF := 5.0], [MADE_ROW], true), Relocate(SHELF, "Back"))
         == Idle(map[BACK := 5.0], [MADE_ROW.(key := BACK)], true)
  {
    assert |"Back"| != |PRINCIPAL|;
    MovedBack();
    assert RekeyReads(map[], SHELF, BACK) == map[];
  }

  lemma NewShelf()
    ensures Step(Idle(map[BACK := 5.0], [MADE_ROW.(key := BACK)], true), Ask(CreateStock(SHELF)))
         == Idle(map[BACK := 5.0, SHELF := 0.0], [MADE_ROW.(key := BACK)], true)
  {
    assert |"Back"| != |PRINCIPAL|;
    assert map[BACK := 5.0][SHELF := 0.0] == map[BACK := 5.0, SHELF := 0.0];
  }

  /** Made, moved to the back, a new stock put at the main location, and removed: no row is left, but 5 and -5 are. */
  lemma StockAstray()
    ensures Run(Idle(map[], [], false), ASTRAY) == Idle(map[BACK := 5.0, SHELF := -5.0], [], false)
  {
    var s := Idle(map[], [], false);
    RunTake(s, ASTRAY, 0);
    RunTake(s, ASTRAY, 1);
    RunTake(s, ASTRAY, 2);
    RunTake(s, ASTRAY, 3);
    assert ASTRAY[..0] == [] && ASTRAY[..4] == ASTRAY;
    MadeFive();
    GoneBack();
    NewShelf();
    TakenOff();
  }

  // ----- What a pending movement has seen -----

  /** Step i is the client's read; it has not written since. */
  predicate ReadsAt(s: State, es: seq<Event>, i: int, c: Client) {
    0 <= i < |es| && es[i].ReadStock? && es[i].client == c && c !in Run(s, es[..i]).pending
    && es[i].key in Stocks(Run(s, es[..i])) && forall k :: i < k <= |es| ==> c in Run(s, es[..k]).pending
  }

  lemma PendingStep(s: State, e: Event, c: Client)
    requires c in Step(s, e).pending
    ensures c in s.pending ==>
              Step(s, e).pending[c].seen == s.pending[c].seen
              && Step(s, e).pending[c].quantity == s.pending[c].quantity && Step(s, e).pending[c].kind == s.pending[c].kind
    ensures c !in s.pending ==>
              e.ReadStock? && e.client == c && e.key in Stocks(s)
              && Step(s, e).pending[c] == Read(e.key, e.quantity, e.kind, Stocks(s)[e.key])
  {}

  /** A pending movement writes from what its stock held at the client's read: it overwrites whatever changed the stock since. */
  lemma {:induction false} SeenAtRead(s: State, es: seq<Event>, c: Client) returns (i: int)
    requires s.pending == map[] && c in Run(s, es).pending
    ensures ReadsAt(s, es, i, c)
    ensures Run(s, es).pending[c].seen == Stocks(Run(s, es[..i]))[es[i].key]
    ensures Run(s, es).pending[c].quantity == es[i].quantity && Run(s, es).pending[c].kind == es[i].kind
    decreases |es|
  {
    var n := |es| - 1;
    var mid := Run(s, es[..n]);
    PendingStep(mid, es[n], c);
    assert es[..|es|] == es;
    if c in mid.pending {
      i := SeenAtRead(s, es[..n], c);
      forall k | 0 <= k <= n ensures Run(s, es[..n][..k]) == Run(s, es[..k]) {
        assert es[..n][..k] == es[..k];
      }
      assert es[..n][i] == es[i];
    } else {
      i := n;
    }
  }
}

/**
 The production engine (module Productions) and the documents (module Commerce) write to
 the same product stocks and movement rows. Here both run over one shop: what the engine
 does to products is exactly the production requests of module Commerce.
 */
module ProductionStock {
  import opened Options
  import opened Sums
  import I = Inventory
  import C = Commerce
  import Consolidation
  import Stocks = CommerceStocks
  import P = Productions
  import Runs = ProductionRuns

  // ----- One shop, seen by both -----

  function Shelf(product: P.Key): I.StockKey {
    I.StockKey(product, I.PRINCIPAL)
  }

  /** The stocks at the main location, by product: the engine's view of them. */
  function ProductsOf(stocks: I.Stocks): (r: map<P.Key, real>)
    ensures forall p :: p in r <==> Shelf(p) in stocks
    ensures forall p :: p in r ==> r[p] == stocks[Shelf(p)]
  {
    map k | k in stocks && k.location == I.PRINCIPAL :: k.product := stocks[Shelf(k.product)]
  }

  function RowOf(m: P.InventoryMovement): I.Movement {
    I.Movement(Shelf(m.product), m.quantity, Some(m.unitCost), I.PRODUCTION, I.ByProduction(m.production))
  }

  function RowsOf(ms: seq<P.InventoryMovement>): (r: seq<I.Movement>)
    ensures |r| == |ms|
  {
    seq(|ms|, i requires 0 <= i < |ms| => RowOf(ms[i]))
  }

  function FromProduction(): I.Movement -> bool {
    (m: I.Movement) => m.ref.ByProduction?
  }

  /** The product line of a completed production. */
  function LineOf(p: P.Production): I.Line
    requires P.Sold(p) && p.produced > 0.0
  {
    I.Line(Shelf(p.product.value), p.produced, Some(Each(p.totalCost, p.produced)))
  }

  function Each(cost: real, produced: real): real
    requires produced > 0.0
  {
    cost / produced
  }

  predicate Stocked(p: P.Production) {
    p.status == P.COMPLETED && P.Sold(p) && p.produced > 0.0
  }

  predicate LineMirrors(lines: map<I.Id, I.Line>, productions: map<P.Key, P.Production>, id: P.Key) {
    if id in productions && Stocked(productions[id]) then id in lines && lines[id] == LineOf(productions[id]) else id !in lines
  }

  /** The shop knows exactly the completed productions that hold goods. */
  ghost predicate LinesMirror(lines: map<I.Id, I.Line>, productions: map<P.Key, P.Production>) {
    forall id :: LineMirrors(lines, productions, id)
  }

  predicate ProductMirrors(stocks: I.Stocks, products: map<P.Key, real>, p: P.Key) {
    if p in products then Shelf(p) in stocks && stocks[Shelf(p)] == products[p] else Shelf(p) !in stocks
  }

  ghost predicate Mirrors(shop: C.Shop, s: P.State) {
    ProductsMirror(shop.warehouse.stocks, s.products) && RowsMirror(shop.warehouse, s) && LinesMirror(shop.productions, s.productions)
  }

  /** The engine sees the stocks at the main location. */
  ghost predicate ProductsMirror(stocks: I.Stocks, products: map<P.Key, real>) {
    forall p :: ProductMirrors(stocks, products, p)
  }

  ghost predicate RowsMirror(w: C.Warehouse, s: P.State) {
    Keep(w.movements, FromProduction()) == RowsOf(s.inventory)
  }

  /** What an event of the engine does to products. */
  datatype Goods = Unmoved | Brought(id: P.Key, line: I.Line) | TakenBack(id: P.Key)

  function After(shop: C.Shop, g: Goods): C.Shop
    requires Possible(shop, g)
  {
    match g
    case Unmoved => shop
    case Brought(id, l) => shop.(warehouse := C.Produce(shop.warehouse, id, l), productions := shop.productions[id := l])
    case TakenBack(id) =>
      shop.(productions := shop.productions - {id},
            warehouse := C.Unproduce(shop.warehouse, id, shop.productions[id]).value)
  }

  predicate Possible(shop: C.Shop, g: Goods) {
    match g
    case Unmoved => true
    case Brought(id, _) => id !in shop.productions
    case TakenBack(id) => id in shop.productions && shop.productions[id].key in shop.warehouse.stocks
  }

  function RequestOf(g: Goods): C.Request
    requires !g.Unmoved?
  {
    if g.Brought? then C.FinishProduction(g.id, g.line) else C.RemoveProduction(g.id)
  }

  /** Goods move as the shop's own production requests move them. */
  lemma GoodsAreRequests(shop: C.Shop, g: Goods)
    requires !g.Unmoved? && Possible(shop, g)
    ensures C.Apply(shop, RequestOf(g)) == C.Done(After(shop, g))
  {}

  /** The shop, once the goods have moved, mirrors the engine. */
  ghost predicate Follows(shop: C.Shop, g: Goods, t: P.State) {
    Possible(shop, g) && Mirrors(After(shop, g), t)
  }

  // ----- Completing -----

  lemma RowsOfPush(ms: seq<P.InventoryMovement>, m: P.InventoryMovement)
    ensures RowsOf(ms + [m]) == RowsOf(ms) + [RowOf(m)]
  {}

  lemma ProducedAt(w: C.Warehouse, id: I.Id, l: I.Line, k: I.StockKey)
    ensures k in C.Produce(w, id, l).stocks <==> k in w.stocks || k == l.key
    ensures k in C.Produce(w, id, l).stocks ==>
              C.Produce(w, id, l).stocks[k]
              == (if k in w.stocks then w.stocks[k] else 0.0) + if l.key == k then l.quantity else 0.0
  {
    assert l in [l];
    Stocks.AskedOne(l, k);
  }

  lemma ProducedRow(w: C.Warehouse, id: I.Id, l: I.Line)
    ensures Keep(C.Produce(w, id, l).movements, FromProduction())
         == Keep(w.movements, FromProduction()) + I.Rows([l], I.PRODUCTION, I.ByProduction(id))
  {
    var rows := I.Rows([l], I.PRODUCTION, I.ByProduction(id));
    KeepConcat(w.movements, rows, FromProduction());
    KeepAll(rows, FromProduction());
  }

  /** What a completion that sold goods left in the engine's tables. */
  predicate Yielded(s: P.State, t: P.State, id: P.Key, p: P.Production) {
    Stocked(p) && t.productions == s.productions[id := p]
    && t.products == s.products[p.product.value := P.Held(s.products, p.product.value) + p.produced]
    && t.inventory == s.inventory + [P.InventoryMovement(id, p.product.value, p.produced, Each(p.totalCost, p.produced))]
  }

  lemma YieldMirrors(shop: C.Shop, s: P.State, t: P.State, id: P.Key, p: P.Production)
    requires Mirrors(shop, s) && Yielded(s, t, id, p) && id !in shop.productions
    ensures Follows(shop, Brought(id, LineOf(p)), t)
  {
    var l := LineOf(p);
    YieldedProduct(shop.warehouse, s.products, id, l);
    YieldedRow(shop.warehouse, s, t, id, p);
    LinesAdded(shop.productions, s.productions, id, p);
    BroughtMirrors(shop, id, l, t);
  }

  /** The three tables one by one. */
  lemma BroughtMirrors(shop: C.Shop, id: P.Key, l: I.Line, t: P.State)
    requires id !in shop.productions
    requires ProductsMirror(C.Produce(shop.warehouse, id, l).stocks, t.products)
    requires RowsMirror(C.Produce(shop.warehouse, id, l), t)
    requires LinesMirror(shop.productions[id := l], t.productions)
    ensures Follows(shop, Brought(id, l), t)
  {}

  lemma YieldedProduct(w: C.Warehouse, products: map<P.Key, real>, id: P.Key, l: I.Line)
    requires ProductsMirror(w.stocks, products) && l.key == Shelf(l.key.product)
    ensures ProductsMirror(C.Produce(w, id, l).stocks, products[l.key.product := P.Held(products, l.key.product) + l.quantity])
  {
    var after := products[l.key.product := P.Held(products, l.key.product) + l.quantity];
    forall p ensures ProductMirrors(C.Produce(w, id, l).stocks, after, p) {
      assert ProductMirrors(w.stocks, products, p);
      ProducedAt(w, id, l, Shelf(p));
    }
  }

  lemma YieldedRow(w: C.Warehouse, s: P.State, t: P.State, id: P.Key, p: P.Production)
    requires RowsMirror(w, s) && Yielded(s, t, id, p)
    ensures RowsMirror(C.Produce(w, id, LineOf(p)), t)
  {
    ProducedRow(w, id, LineOf(p));
    RowsOfPush(s.inventory, P.InventoryMovement(id, p.product.value, p.produced, Each(p.totalCost, p.produced)));
  }

  lemma LinesAdded(lines: map<I.Id, I.Line>, productions: map<P.Key, P.Production>, id: P.Key, p: P.Production)
    requires LinesMirror(lines, productions) && Stocked(p)
    ensures LinesMirror(lines[id := LineOf(p)], productions[id := p])
  {
    var lines', productions' := lines[id := LineOf(p)], productions[id := p];
    forall i ensures LineMirrors(lines', productions', i) {
      assert LineMirrors(lines, productions, i);
    }
  }

  lemma LinesSame(lines: map<I.Id, I.Line>, productions: map<P.Key, P.Production>, id: P.Key, p: P.Production)
    requires LinesMirror(lines, productions) && id !in lines && !Stocked(p)
    ensures LinesMirror(lines, productions[id := p])
  {
    var productions' := productions[id := p];
    forall i ensures LineMirrors(lines, productions', i) {
      assert LineMirrors(lines, productions, i);
    }
  }

  // ----- Removing -----

  lemma {:induction false} KeepSwap<T(!new)>(s: seq<T>, p: T -> bool, q: T -> bool)
    ensures Keep(Keep(s, p), q) == Keep(Keep(s, q), p)
  {
    if |s| > 0 {
      var front, last := s[..|s| - 1], s[|s| - 1];
      KeepSwap(front, p, q);
      KeepConcat(Keep(front, p), if p(last) then [last] else [], q);
      KeepConcat(Keep(front, q), if q(last) then [last] else [], p);
      KeepOne(last, p);
      KeepOne(last, q);
    }
  }

  lemma KeepOne<T(!new)>(x: T, p: T -> bool)
    ensures Keep([x], p) == if p(x) then [x] else []
  {
    assert [x][..0] == [];
  }

  lemma {:induction false} RowsOfKept(ms: seq<P.InventoryMovement>, id: P.Key)
    ensures Keep(RowsOf(ms), Not(I.With(I.ByProduction(id)))) == RowsOf(Keep(ms, Not(P.InventoryOf(id))))
  {
    if |ms| > 0 {
      var front, last := ms[..|ms| - 1], ms[|ms| - 1];
      RowsOfKept(front, id);
      assert RowsOf(ms)[..|ms| - 1] == RowsOf(front);
      RowsOfPush(Keep(front, Not(P.InventoryOf(id))), last);
    }
  }

  predicate Withdrawn(s: P.State, t: P.State, id: P.Key, p: P.Production) {
    Stocked(p) && t.productions == s.productions - {id}
    && p.product.value in s.products
    && t.products == s.products[p.product.value := s.products[p.product.value] - p.produced]
    && t.inventory == Keep(s.inventory, Not(P.InventoryOf(id)))
  }

  lemma WithdrawalMirrors(shop: C.Shop, s: P.State, t: P.State, id: P.Key, p: P.Production)
    requires Mirrors(shop, s) && id in s.productions && s.productions[id] == p && Withdrawn(s, t, id, p)
    ensures Follows(shop, TakenBack(id), t)
  {
    assert LineMirrors(shop.productions, s.productions, id);
    assert ProductMirrors(shop.warehouse.stocks, s.products, p.product.value);
    WithdrawnProduct(shop.warehouse, s.products, id, LineOf(p));
    WithdrawnRow(shop.warehouse, s, t, id, p);
    LinesRemoved(shop.productions, s.productions, id);
  }

  lemma WithdrawnProduct(w: C.Warehouse, products: map<P.Key, real>, id: P.Key, l: I.Line)
    requires ProductsMirror(w.stocks, products) && l.key == Shelf(l.key.product)
    requires l.key in w.stocks && l.key.product in products
    ensures ProductsMirror(C.Unproduce(w, id, l).value.stocks, products[l.key.product := products[l.key.product] - l.quantity])
  {
    var after := products[l.key.product := products[l.key.product] - l.quantity];
    forall p ensures ProductMirrors(C.Unproduce(w, id, l).value.stocks, after, p) {
      assert ProductMirrors(w.stocks, products, p);
      assert ProductMirrors(w.stocks, products, l.key.product);
    }
  }

  lemma WithdrawnRow(w: C.Warehouse, s: P.State, t: P.State, id: P.Key, p: P.Production)
    requires RowsMirror(w, s) && Withdrawn(s, t, id, p)
    requires C.Unproduce(w, id, LineOf(p)).Done?
    ensures RowsMirror(C.Unproduce(w, id, LineOf(p)).value, t)
  {
    KeepSwap(w.movements, FromProduction(), Not(I.With(I.ByProduction(id))));
    RowsOfKept(s.inventory, id);
  }

  lemma LinesRemoved(lines: map<I.Id, I.Line>, productions: map<P.Key, P.Production>, id: P.Key)
    requires LinesMirror(lines, productions)
    ensures LinesMirror(lines - {id}, productions - {id})
  {
    var lines', productions' := lines - {id}, productions - {id};
    forall i ensures LineMirrors(lines', productions', i) {
      assert LineMirrors(lines, productions, i);
    }
  }

  // ----- Everything else the engine does -----

  lemma NotYetThere(shop: C.Shop, s: P.State, id: P.Key)
    requires Mirrors(shop, s) && !(id in s.productions && Stocked(s.productions[id]))
    ensures id !in shop.productions
  {
    assert LineMirrors(shop.productions, s.productions, id);
  }

  /** No goods move: the production is deleted, or left in a state that holds none. */
  predicate Quiet(s: P.State, t: P.State, id: P.Key) {
    t.products == s.products && t.inventory == s.inventory
    && (t.productions == s.productions - {id}
        || (id in t.productions && !Stocked(t.productions[id]) && t.productions == s.productions[id := t.productions[id]]))
  }

  lemma QuietMirrors(shop: C.Shop, s: P.State, t: P.State, id: P.Key)
    requires Mirrors(shop, s) && Quiet(s, t, id) && id !in shop.productions
    ensures Mirrors(shop, t)
  {
    if t.productions == s.productions - {id} {
      LinesRemoved(shop.productions, s.productions, id);
      assert shop.productions - {id} == shop.productions;
    } else {
      LinesSame(shop.productions, s.productions, id, t.productions[id]);
    }
  }

  /** A completion yields goods or moves none. */
  lemma FinishYields(s: P.State, mid: P.State, id: P.Key, p: P.Production, acc: P.Acc)
    requires p.produced > 0.0 && mid.products == s.products && mid.inventory == s.inventory
    requires mid.productions == s.productions || mid.productions == s.productions[id := p]
    ensures var t := P.Finish(mid, id, p, acc);
            id in t.productions && (P.Sold(t.productions[id]) <==> P.Sold(p)) && t.productions[id].status == P.COMPLETED
            && if P.Sold(p) then Yielded(s, t, id, t.productions[id]) else Quiet(s, t, id)
  {
    var t := P.Finish(mid, id, p, acc);
    assert t.productions == s.productions[id := t.productions[id]];
  }

  /** The goods a production holds, before or after an event. */
  function Bringing(t: P.State, id: P.Key): Goods {
    if id in t.productions && Stocked(t.productions[id]) then Brought(id, LineOf(t.productions[id])) else Unmoved
  }

  function TakingBack(s: P.State, id: P.Key): Goods {
    if id in s.productions && Stocked(s.productions[id]) then TakenBack(id) else Unmoved
  }

  /** What an event of the engine does to products. */
  function GoodsOf(s: P.State, e: P.Event): Goods
    requires P.Inv(s) && P.Admissible(s, e)
  {
    if P.Outcome(s, e).Err? then Unmoved
    else if e.DoRemove? then TakingBack(s, e.id)
    else Bringing(P.Outcome(s, e).value, e.id)
  }

  predicate Completed(s: P.State, t: P.State, id: P.Key) {
    id in t.productions && t.productions[id].status == P.COMPLETED && t.productions[id].produced > 0.0
    && if P.Sold(t.productions[id]) then Yielded(s, t, id, t.productions[id]) else Quiet(s, t, id)
  }

  lemma CreateShape(s: P.State, id: P.Key, draft: bool, p: P.Production, inputs: seq<P.Input>)
    requires P.SizesOk(s) && P.Positive(inputs) && p.produced > 0.0 && P.Create(s, id, draft, p, inputs).Ok?
    ensures var t := P.Create(s, id, draft, p, inputs).value;
            if draft then Quiet(s, t, id) && id in t.productions && !Stocked(t.productions[id]) else Completed(s, t, id)
  {
    if !draft {
      var created := p.(status := P.COMPLETED, totalCost := 0.0);
      var mid := s.(productions := s.productions[id := created]);
      FinishYields(s, mid, id, created, P.ConsumeAll(mid, id, inputs).value);
    }
  }

  lemma CompleteShape(s: P.State, id: P.Key)
    requires P.Inv(s) && P.Complete(s, id).Ok?
    ensures Completed(s, P.Complete(s, id).value, id)
  {
    var inputs, acc := Runs.CompletionShape(s, id);
    FinishYields(s, Runs.Cleared(s, id), id, s.productions[id], acc);
  }

  lemma RemoveShape(s: P.State, id: P.Key)
    requires P.RowsOk(s) && P.Remove(s, id).Ok?
    ensures var t := P.Remove(s, id).value;
            id !in t.productions && if Stocked(s.productions[id]) then Withdrawn(s, t, id, s.productions[id]) else Quiet(s, t, id)
  {}

  lemma FinishFollows(shop: C.Shop, s: P.State, t: P.State, id: P.Key)
    requires Mirrors(shop, s) && id !in shop.productions && Completed(s, t, id)
    ensures Follows(shop, Bringing(t, id), t)
  {
    if P.Sold(t.productions[id]) {
      YieldMirrors(shop, s, t, id, t.productions[id]);
    } else {
      QuietMirrors(shop, s, t, id);
    }
  }

  lemma DraftFollows(shop: C.Shop, s: P.State, t: P.State, id: P.Key)
    requires Mirrors(shop, s) && id !in shop.productions && Quiet(s, t, id) && id in t.productions && !Stocked(t.productions[id])
    ensures Follows(shop, Bringing(t, id), t)
  {
    QuietMirrors(shop, s, t, id);
  }

  lemma RemovalFollows(shop: C.Shop, s: P.State, id: P.Key)
    requires P.RowsOk(s) && Mirrors(shop, s) && P.Remove(s, id).Ok?
    ensures Follows(shop, TakingBack(s, id), P.Remove(s, id).value)
  {
    RemoveShape(s, id);
    var t := P.Remove(s, id).value;
    if Stocked(s.productions[id]) {
      WithdrawalMirrors(shop, s, t, id, s.productions[id]);
    } else {
      NotYetThere(shop, s, id);
      QuietMirrors(shop, s, t, id);
    }
  }

  lemma CreateFollows(shop: C.Shop, s: P.State, id: P.Key, draft: bool, p: P.Production, inputs: seq<P.Input>)
    requires P.SizesOk(s) && P.Positive(inputs) && p.produced > 0.0 && P.Create(s, id, draft, p, inputs).Ok?
    requires Mirrors(shop, s) && id !in s.productions
    ensures Follows(shop, Bringing(P.Create(s, id, draft, p, inputs).value, id), P.Create(s, id, draft, p, inputs).value)
  {
    CreateShape(s, id, draft, p, inputs);
    NotYetThere(shop, s, id);
    if draft {
      DraftFollows(shop, s, P.Create(s, id, draft, p, inputs).value, id);
    } else {
      FinishFollows(shop, s, P.Create(s, id, draft, p, inputs).value, id);
    }
  }

  lemma CompleteFollows(shop: C.Shop, s: P.State, id: P.Key)
    requires P.Inv(s) && Mirrors(shop, s) && P.Complete(s, id).Ok?
    ensures Follows(shop, Bringing(P.Complete(s, id).value, id), P.Complete(s, id).value)
  {
    CompleteShape(s, id);
    NotYetThere(shop, s, id);
    FinishFollows(shop, s, P.Complete(s, id).value, id);
  }

  lemma CancelFollows(shop: C.Shop, s: P.State, id: P.Key)
    requires Mirrors(shop, s) && P.Cancel(s, id).Ok?
    ensures Follows(shop, Bringing(P.Cancel(s, id).value, id), P.Cancel(s, id).value)
  {
    NotYetThere(shop, s, id);
    DraftFollows(shop, s, P.Cancel(s, id).value, id);
  }

  lemma StepMirrors(shop: C.Shop, s: P.State, e: P.Event)
    requires P.Inv(s) && P.Admissible(s, e) && Mirrors(shop, s)
    ensures Follows(shop, GoodsOf(s, e), P.Step(s, e))
  {
    if P.Outcome(s, e).Ok? {
      match e
      case DoCreate(id, draft, p, inputs) => CreateFollows(shop, s, id, draft, p, inputs);
      case DoComplete(id) => CompleteFollows(shop, s, id);
      case DoCancel(id) => CancelFollows(shop, s, id);
      case DoRemove(id) => RemovalFollows(shop, s, id);
    }
  }

  /**
   An event of the engine that moves goods is a production request the shop accepts, and
   what the engine then holds of products and rows is what that request leaves.
   */
  lemma EngineIsRequest(shop: C.Shop, s: P.State, e: P.Event)
    requires P.Inv(s) && P.Admissible(s, e) && Mirrors(shop, s)
    ensures var g := GoodsOf(s, e);
            if g.Unmoved? then Mirrors(shop, P.Step(s, e))
            else C.Apply(shop, RequestOf(g)).Done? && Mirrors(C.Apply(shop, RequestOf(g)).value, P.Step(s, e))
  {
    StepMirrors(shop, s, e);
    if !GoodsOf(s, e).Unmoved? {
      GoodsAreRequests(shop, GoodsOf(s, e));
    }
  }

  // ----- What the rest of the shop does -----

  predicate OfficeWork(q: C.Request) {
    !q.FinishProduction? && !q.RemoveProduction?
  }

  lemma OfficeProductions(shop: C.Shop, q: C.Request)
    requires OfficeWork(q)
    ensures C.Next(shop, q).productions == shop.productions
  {
    if C.AboutSale(q) {
      Stocks.SaleFrame(shop, q);
    } else if C.AboutPurchase(q) {
      Stocks.PurchaseFrame(shop, q);
    } else {
      Stocks.ElseFrame(shop, q);
    }
  }

  lemma MoveKeepsRows(w: C.Warehouse, lines: seq<I.Line>, kind: I.MovementType, ref: I.Ref)
    requires !ref.ByProduction?
    ensures Keep(C.Move(w, lines, kind, ref).movements, FromProduction()) == Keep(w.movements, FromProduction())
  {
    var rows := I.Rows(lines, kind, ref);
    KeepConcat(w.movements, rows, FromProduction());
    KeepNone(rows, FromProduction());
  }

  lemma UnmoveKeepsRows(w: C.Warehouse, ref: I.Ref, adding: bool)
    requires !ref.ByProduction?
    ensures Keep(C.Unmove(w, ref, adding).movements, FromProduction()) == Keep(w.movements, FromProduction())
  {
    KeepKeep(w.movements, Not(I.With(ref)), FromProduction());
  }

  lemma OfficeRows(shop: C.Shop, q: C.Request)
    requires OfficeWork(q)
    ensures Keep(Stocks.WarehouseAfter(shop, q).movements, FromProduction()) == Keep(shop.warehouse.movements, FromProduction())
  {
    var w := shop.warehouse;
    match q
    case CreateSale(id, _, sale) => MoveKeepsRows(w, I.Lines(sale.items), I.SALE, I.BySale(id));
    case AddSaleItems(id, items) => MoveKeepsRows(w, I.Lines(items), I.SALE, I.BySale(id));
    case RemoveSale(id, _) => UnmoveKeepsRows(w, I.BySale(id), false);
    case CreatePurchase(id, _, p) =>
      MoveKeepsRows(C.Stocking(w, I.Lines(p.items)), C.Processed(p.status, I.Lines(p.items)), I.PURCHASE, I.ByPurchase(id));
    case AddPurchaseItems(id, items) => ReplacedKeepsRows(w, id, Consolidation.Consolidate(I.Lines(items)));
    case RemovePurchase(id, _) => UnmoveKeepsRows(w, I.ByPurchase(id), true);
    case MoveByHand(k, _, quantity, kind) => MoveKeepsRows(w, [C.HandLine(k, quantity)], kind, I.ByHand);
    case _ =>
  }

  lemma ReplacedKeepsRows(w: C.Warehouse, id: I.Id, lines: seq<I.Line>)
    ensures Keep(C.Replaced(w, id, lines).movements, FromProduction()) == Keep(w.movements, FromProduction())
  {
    UnmoveKeepsRows(C.Stocking(w, lines), I.ByPurchase(id), true);
    MoveKeepsRows(C.Unmove(C.Stocking(w, lines), I.ByPurchase(id), true), lines, I.PURCHASE, I.ByPurchase(id));
  }

  /** The engine next looks at products as the request left them. */
  function Seen(shop: C.Shop, s: P.State): P.State {
    s.(products := ProductsOf(shop.warehouse.stocks))
  }

  lemma OfficeMirrors(shop: C.Shop, s: P.State, q: C.Request)
    requires Mirrors(shop, s) && OfficeWork(q)
    ensures Mirrors(C.Next(shop, q), Seen(C.Next(shop, q), s))
  {
    OfficeProductions(shop, q);
    if C.Apply(shop, q).Done? {
      Stocks.ApplyWarehouse(shop, q);
      OfficeRows(shop, q);
    }
  }

  lemma SeenInv(shop: C.Shop, s: P.State)
    requires P.Inv(s)
    ensures P.Inv(Seen(shop, s))
  {
    var t := Seen(shop, s);
    forall u | u in t.usages ensures P.UsageOk(t, u) {
      assert P.UsageOk(s, u);
    }
  }

  // ----- Both at work -----

  datatype Work = Engine(event: P.Event) | Office(request: C.Request)
  datatype Site = Site(shop: C.Shop, engine: P.State)

  predicate Allowed(x: Site, w: Work) {
    match w
    case Engine(e) => P.Admissible(x.engine, e)
    case Office(q) => OfficeWork(q)
  }

  ghost predicate SiteInv(x: Site) {
    Mirrors(x.shop, x.engine) && P.Inv(x.engine) && Stocks.StockInv(x.shop)
  }

  /** The goods of an engine's event that its site can move; every one it calls for is (`StepMirrors`). */
  function Shipped(shop: C.Shop, g: Goods): C.Shop {
    if Possible(shop, g) then After(shop, g) else shop
  }

  function Done(x: Site, w: Work): Site
    requires P.Inv(x.engine) && Allowed(x, w)
  {
    match w
    case Engine(e) => Site(Shipped(x.shop, GoodsOf(x.engine, e)), P.Step(x.engine, e))
    case Office(q) => Site(C.Next(x.shop, q), Seen(C.Next(x.shop, q), x.engine))
  }

  lemma ShippedKeeps(shop: C.Shop, g: Goods)
    requires Stocks.StockInv(shop)
    ensures Stocks.StockInv(Shipped(shop, g))
  {
    if Possible(shop, g) && !g.Unmoved? {
      GoodsAreRequests(shop, g);
      Stocks.StepKeepsStocks(shop, RequestOf(g));
    }
  }

  lemma EngineKeeps(x: Site, e: P.Event)
    requires SiteInv(x) && P.Admissible(x.engine, e)
    ensures SiteInv(Done(x, Engine(e)))
  {
    StepMirrors(x.shop, x.engine, e);
    Runs.StepPreserves(x.engine, e);
    ShippedKeeps(x.shop, GoodsOf(x.engine, e));
  }

  lemma OfficeKeeps(x: Site, q: C.Request)
    requires SiteInv(x) && OfficeWork(q)
    ensures SiteInv(Done(x, Office(q)))
  {
    OfficeMirrors(x.shop, x.engine, q);
    SeenInv(C.Next(x.shop, q), x.engine);
    Stocks.StepKeepsStocks(x.shop, q);
  }

  lemma WorkKeeps(x: Site, w: Work)
    requires SiteInv(x) && Allowed(x, w)
    ensures SiteInv(Done(x, w))
  {
    match w
    case Engine(e) => EngineKeeps(x, e);
    case Office(q) => OfficeKeeps(x, q);
  }

  ghost predicate Leads(x: Site, ws: seq<Work>, y: Site)
    requires SiteInv(x)
    decreases |ws|
  {
    if |ws| == 0 then x == y
    else Allowed(x, ws[0]) && (WorkKeeps(x, ws[0]); Leads(Done(x, ws[0]), ws[1..], y))
  }

  /**
   In every run in which productions are created, completed, cancelled and removed between
   sales, purchases and movements, the stock the engine sees of a product is the signed
   sum of all rows pointing at it.
   */
  lemma {:induction false} SiteKeepsStocks(x: Site, ws: seq<Work>, y: Site)
    requires SiteInv(x) && Leads(x, ws, y)
    ensures SiteInv(y)
    ensures forall p :: p in y.engine.products ==>
              y.engine.products[p] == Sum(y.shop.warehouse.movements, I.Effect(Shelf(p)))
    decreases |ws|
  {
    if |ws| > 0 {
      WorkKeeps(x, ws[0]);
      SiteKeepsStocks(Done(x, ws[0]), ws[1..], y);
    } else {
      forall p | p in y.engine.products
        ensures y.engine.products[p] == Sum(y.shop.warehouse.movements, I.Effect(Shelf(p)))
      {
        assert ProductMirrors(y.shop.warehouse.stocks, y.engine.products, p);
      }
    }
  }
}

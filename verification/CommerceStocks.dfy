/**
 What every run of module Commerce keeps of stocks and rows: each stock is the signed
 sum of its movement rows, and a document's header agrees with its own rows.
 */
module CommerceStocks {
  import opened Options
  import opened Sums
  import opened Inventory
  import opened Consolidation
  import opened Commerce
  import Ledger

  // ----- A document's own rows -----

  function Own(w: Warehouse, ref: Ref): seq<Movement> {
    Keep(w.movements, With(ref))
  }

  lemma RowsCarry(lines: seq<Line>, kind: MovementType, ref: Ref)
    ensures forall m :: m in Rows(lines, kind, ref) ==> m.kind == kind && m.ref == ref
  {}

  /** New rows join their own document's and no other's. */
  lemma OwnAfterMove(w: Warehouse, lines: seq<Line>, kind: MovementType, ref: Ref, other: Ref)
    ensures Own(Move(w, lines, kind, ref), other) == Own(w, other) + if other == ref then Rows(lines, kind, ref) else []
  {
    var rows := Rows(lines, kind, ref);
    RowsCarry(lines, kind, ref);
    KeepConcat(w.movements, rows, With(other));
    if other == ref {
      KeepAll(rows, With(other));
    } else {
      KeepNone(rows, With(other));
    }
  }

  lemma OwnAfterUnmove(w: Warehouse, ref: Ref, adding: bool, other: Ref)
    ensures Own(Unmove(w, ref, adding), other) == if other == ref then [] else Own(w, other)
  {
    if other == ref {
      KeepNone(Unmove(w, ref, adding).movements, With(ref));
    } else {
      KeepKeep(w.movements, Not(With(ref)), With(other));
    }
  }

  lemma OwnAfterReplaced(w: Warehouse, id: Id, lines: seq<Line>, other: Ref)
    ensures Own(Replaced(w, id, lines), other)
         == if other == ByPurchase(id) then Rows(lines, PURCHASE, ByPurchase(id)) else Own(w, other)
  {
    OwnAfterUnmove(Stocking(w, lines), ByPurchase(id), true, other);
    OwnAfterMove(Unmove(Stocking(w, lines), ByPurchase(id), true), lines, PURCHASE, ByPurchase(id), other);
  }

  // ----- Each stock is explained by its rows -----

  predicate KindFits(m: Movement) {
    match m.ref
    case BySale(_) => m.kind == SALE
    case ByPurchase(_) => m.kind == PURCHASE
    case ByProduction(_) => m.kind == PRODUCTION
    case ByHand => true
  }

  predicate Tidy(w: Warehouse) {
    Explained(w.stocks, w.movements) && forall m :: m in w.movements ==> KindFits(m)
  }

  lemma MoveKeeps(w: Warehouse, lines: seq<Line>, kind: MovementType, ref: Ref)
    requires Tidy(w) && Stocked(w.stocks, lines)
    requires forall m :: m in Rows(lines, kind, ref) ==> KindFits(m)
    ensures Tidy(Move(w, lines, kind, ref))
  {
    RowsIncrease(w.stocks, w.movements, lines, kind, ref);
  }

  lemma UnmoveKeeps(w: Warehouse, ref: Ref, adding: bool)
    requires Tidy(w)
    requires match ref
             case BySale(_) => !adding
             case ByHand => false
             case _ => adding
    ensures Tidy(Unmove(w, ref, adding))
  {
    DeletedRowsReverse(w.stocks, w.movements, ref, adding);
  }

  lemma StockingKeeps(w: Warehouse, lines: seq<Line>)
    requires Tidy(w)
    ensures Tidy(Stocking(w, lines)) && Stocked(Stocking(w, lines).stocks, lines)
  {
    NewStocksExplained(w.stocks, w.movements, lines);
  }

  lemma ProcessedStocked(stocks: Stocks, status: DocStatus, lines: seq<Line>)
    requires Stocked(stocks, lines)
    ensures Stocked(stocks, Processed(status, lines))
  {
    ConsolidatedLines(lines);
    forall l | l in Consolidate(lines) ensures l.key in stocks {
      assert Named(Consolidate(lines), l.key);
    }
  }

  lemma BoughtKeeps(w: Warehouse, id: Id, status: DocStatus, lines: seq<Line>)
    requires Tidy(w)
    ensures Tidy(Bought(w, id, lines, Processed(status, lines)))
  {
    StockingKeeps(w, lines);
    ProcessedStocked(Stocking(w, lines).stocks, status, lines);
    RowsCarry(Processed(status, lines), PURCHASE, ByPurchase(id));
    MoveKeeps(Stocking(w, lines), Processed(status, lines), PURCHASE, ByPurchase(id));
  }

  lemma ReplacedKeeps(w: Warehouse, id: Id, lines: seq<Line>)
    requires Tidy(w)
    ensures Tidy(Replaced(w, id, lines))
  {
    StockingKeeps(w, lines);
    UnmoveKeeps(Stocking(w, lines), ByPurchase(id), true);
    RowsCarry(lines, PURCHASE, ByPurchase(id));
    MoveKeeps(Unmove(Stocking(w, lines), ByPurchase(id), true), lines, PURCHASE, ByPurchase(id));
  }

  lemma AskedOne(l: Line, k: StockKey)
    ensures Asked([l], k) == if l.key == k then l.quantity else 0.0
  {
    SumPush([], l, QuantityAt(k));
    assert [] + [l] == [l];
  }

  lemma HandMoveIsMove(w: Warehouse, k: StockKey, quantity: real, kind: MovementType)
    requires k in w.stocks
    ensures HandWrite(w, k, w.stocks[k], quantity, kind) == Move(w, [HandLine(k, quantity)], kind, ByHand)
  {
    forall j ensures Asked([HandLine(k, quantity)], j) == if j == k then quantity else 0.0 {
      AskedOne(HandLine(k, quantity), j);
    }
    assert HandWrite(w, k, w.stocks[k], quantity, kind).stocks == Move(w, [HandLine(k, quantity)], kind, ByHand).stocks;
  }

  lemma HandMoveKeeps(w: Warehouse, k: StockKey, quantity: real, kind: MovementType)
    requires Tidy(w) && k in w.stocks
    ensures Tidy(HandWrite(w, k, w.stocks[k], quantity, kind))
  {
    HandMoveIsMove(w, k, quantity, kind);
    MoveKeeps(w, [HandLine(k, quantity)], kind, ByHand);
  }

  lemma ProduceKeeps(w: Warehouse, id: Id, l: Line)
    requires Tidy(w)
    ensures Tidy(Produce(w, id, l))
  {
    StockingKeeps(w, [l]);
    RowsCarry([l], PRODUCTION, ByProduction(id));
    MoveKeeps(Stocking(w, [l]), [l], PRODUCTION, ByProduction(id));
  }

  lemma MovedOne(l: Line, kind: MovementType, ref: Ref, k: StockKey)
    ensures Moved(Rows([l], kind, ref), k) == if l.key == k then l.quantity else 0.0
  {
    var row := Rows([l], kind, ref)[0];
    SumPush([], row, MovedAt(k));
    assert [] + [row] == Rows([l], kind, ref);
  }

  /** Decrementing by the production's own quantity is undoing its one row. */
  lemma UnproduceIsUnmove(w: Warehouse, id: Id, l: Line)
    requires Own(w, ByProduction(id)) == Rows([l], PRODUCTION, ByProduction(id)) && Unproduce(w, id, l).Done?
    ensures Unproduce(w, id, l).value == Unmove(w, ByProduction(id), true)
  {
    forall k ensures Moved(Own(w, ByProduction(id)), k) == if l.key == k then l.quantity else 0.0 {
      MovedOne(l, PRODUCTION, ByProduction(id), k);
    }
    assert Unproduce(w, id, l).value.stocks == Unmove(w, ByProduction(id), true).stocks;
  }

  lemma UnproduceKeeps(w: Warehouse, id: Id, l: Line)
    requires Tidy(w) && Own(w, ByProduction(id)) == Rows([l], PRODUCTION, ByProduction(id)) && Unproduce(w, id, l).Done?
    ensures Tidy(Unproduce(w, id, l).value)
  {
    UnproduceIsUnmove(w, id, l);
    UnmoveKeeps(w, ByProduction(id), true);
  }

  lemma EmptyStockKeeps(w: Warehouse, k: StockKey)
    requires Tidy(w) && k !in w.stocks
    ensures Tidy(w.(stocks := w.stocks[k := 0.0]))
  {
    SumZero(w.movements, Effect(k));
  }

  // ----- Requests -----

  /** The document whose rows a request writes. */
  function Subject(q: Request): Option<Ref> {
    match q
    case CreateSale(id, _, _) => Some(BySale(id))
    case AddSaleItems(id, _) => Some(BySale(id))
    case RemoveSale(id, _) => Some(BySale(id))
    case CreatePurchase(id, _, _) => Some(ByPurchase(id))
    case AddPurchaseItems(id, _) => Some(ByPurchase(id))
    case RemovePurchase(id, _) => Some(ByPurchase(id))
    case FinishProduction(id, _) => Some(ByProduction(id))
    case RemoveProduction(id) => Some(ByProduction(id))
    case _ => None
  }

  predicate Exists(s: Shop, ref: Ref) {
    match ref
    case BySale(i) => i in s.sales
    case ByPurchase(i) => i in s.purchases
    case ByProduction(i) => i in s.productions
    case ByHand => true
  }

  predicate RowsPlaced(s: Shop) {
    forall m :: m in s.warehouse.movements ==> Exists(s, m.ref)
  }

  predicate ProductionRows(s: Shop) {
    forall i :: i in s.productions ==>
      Own(s.warehouse, ByProduction(i)) == Rows([s.productions[i]], PRODUCTION, ByProduction(i))
  }

  predicate StockInv(s: Shop) {
    Tidy(s.warehouse) && RowsPlaced(s) && ProductionRows(s)
  }

  /** What each accepted request does to the warehouse. */
  function WarehouseAfter(s: Shop, q: Request): Warehouse {
    var w := s.warehouse;
    match q
    case CreateSale(id, _, sale) => Move(w, Lines(sale.items), SALE, BySale(id))
    case AddSaleItems(id, items) => Move(w, Lines(items), SALE, BySale(id))
    case RemoveSale(id, _) => Unmove(w, BySale(id), false)
    case CreatePurchase(id, _, p) => Bought(w, id, Lines(p.items), Processed(p.status, Lines(p.items)))
    case AddPurchaseItems(id, items) => Replaced(w, id, Consolidate(Lines(items)))
    case RemovePurchase(id, _) => Unmove(w, ByPurchase(id), true)
    case MoveByHand(k, _, quantity, kind) => if k in w.stocks then HandWrite(w, k, w.stocks[k], quantity, kind) else w
    case FinishProduction(id, l) => Produce(w, id, l)
    case RemoveProduction(id) =>
      if id in s.productions && Unproduce(w, id, s.productions[id]).Done?
      then Unproduce(w, id, s.productions[id]).value else w
    case CreateStock(k) => w.(stocks := w.stocks[k := 0.0])
    case _ => w
  }

  lemma ApplyWarehouse(s: Shop, q: Request)
    requires Apply(s, q).Done?
    ensures Next(s, q).warehouse == WarehouseAfter(s, q)
  {
    if AboutSale(q) {
      SaleWarehouse(s, q);
    } else if AboutPurchase(q) {
      PurchaseWarehouse(s, q);
    } else {
      OtherWarehouse(s, q);
    }
  }

  /** Two tables agree but for one row. */
  ghost predicate OnlyAt<V>(m: map<Id, V>, n: map<Id, V>, id: Id) {
    forall i :: i != id ==> (i in m <==> i in n) && (i in m && i in n ==> m[i] == n[i])
  }

  ghost predicate SaleOnly(s: Shop, r: Result<Shop>, id: Id) {
    r.Done? ==> r.value.purchases == s.purchases && r.value.productions == s.productions && OnlyAt(s.sales, r.value.sales, id)
  }

  ghost predicate PurchaseOnly(s: Shop, r: Result<Shop>, id: Id) {
    r.Done? ==> r.value.sales == s.sales && r.value.productions == s.productions && OnlyAt(s.purchases, r.value.purchases, id)
  }

  lemma SaleCreateOnly(s: Shop, id: Id, rid: Id, q: SaleRequest)
    ensures SaleOnly(s, SaleCreate(s, id, rid, q), id)
  {}

  lemma SaleEditOnly(s: Shop, id: Id, account: Id, rid: Id, items: seq<Item>)
    ensures SaleOnly(s, SaleComplete(s, id, account, rid), id)
    ensures SaleOnly(s, SaleAddItems(s, id, items), id)
  {}

  lemma SaleRemoveOnly(s: Shop, id: Id, rid: Id)
    ensures SaleOnly(s, SaleRemove(s, id, rid), id)
  {}

  lemma PurchaseCreateOnly(s: Shop, id: Id, rid: Id, q: PurchaseRequest)
    ensures PurchaseOnly(s, PurchaseCreate(s, id, rid, q), id)
  {}

  lemma PurchaseEditOnly(s: Shop, id: Id, account: Id, rid: Id, items: seq<Item>)
    ensures PurchaseOnly(s, PurchaseComplete(s, id, account, rid), id)
    ensures PurchaseOnly(s, PurchaseAddItems(s, id, items), id)
  {}

  lemma PurchaseRemoveOnly(s: Shop, id: Id, rid: Id)
    ensures PurchaseOnly(s, PurchaseRemove(s, id, rid), id)
  {}

  /** A request about one sale touches no other document. */
  lemma SaleFrame(s: Shop, q: Request)
    requires AboutSale(q)
    ensures SaleOnly(s, Apply(s, q), q.id)
  {
    match q
    case CreateSale(id, rid, sale) => SaleCreateOnly(s, id, rid, sale);
    case CompleteSale(id, account, rid) => SaleEditOnly(s, id, account, rid, []);
    case AddSaleItems(id, items) => SaleEditOnly(s, id, 0, 0, items);
    case RemoveSale(id, rid) => SaleRemoveOnly(s, id, rid);
  }

  lemma PurchaseFrame(s: Shop, q: Request)
    requires AboutPurchase(q)
    ensures PurchaseOnly(s, Apply(s, q), q.id)
  {
    match q
    case CreatePurchase(id, rid, p) => PurchaseCreateOnly(s, id, rid, p);
    case CompletePurchase(id, account, rid) => PurchaseEditOnly(s, id, account, rid, []);
    case AddPurchaseItems(id, items) => PurchaseEditOnly(s, id, 0, 0, items);
    case RemovePurchase(id, rid) => PurchaseRemoveOnly(s, id, rid);
  }

  lemma ElseFrame(s: Shop, q: Request)
    requires !AboutSale(q) && !AboutPurchase(q)
    ensures Next(s, q).sales == s.sales && Next(s, q).purchases == s.purchases
    ensures q.FinishProduction? || q.RemoveProduction? ==> OnlyAt(s.productions, Next(s, q).productions, q.id)
    ensures !q.FinishProduction? && !q.RemoveProduction? ==> Next(s, q).productions == s.productions
  {
    ElseKeepsDocuments(s, q);
    ElseKeepsProductions(s, q);
  }

  lemma ElseKeepsDocuments(s: Shop, q: Request)
    requires !AboutSale(q) && !AboutPurchase(q)
    ensures Next(s, q).sales == s.sales
    ensures Next(s, q).purchases == s.purchases
  {}

  lemma ElseKeepsProductions(s: Shop, q: Request)
    requires !AboutSale(q) && !AboutPurchase(q)
    ensures q.FinishProduction? || q.RemoveProduction? ==> OnlyAt(s.productions, Next(s, q).productions, q.id)
    ensures !q.FinishProduction? && !q.RemoveProduction? ==> Next(s, q).productions == s.productions
  {}

  lemma SaleWarehouse(s: Shop, q: Request)
    requires Apply(s, q).Done? && AboutSale(q)
    ensures Next(s, q).warehouse == WarehouseAfter(s, q)
  {}

  lemma PurchaseWarehouses(s: Shop, id: Id, account: Id, rid: Id, items: seq<Item>)
    ensures PurchaseComplete(s, id, account, rid).Done? ==>
              PurchaseComplete(s, id, account, rid).value.warehouse == s.warehouse
    ensures PurchaseAddItems(s, id, items).Done? ==>
              PurchaseAddItems(s, id, items).value.warehouse == Replaced(s.warehouse, id, Consolidate(Lines(items)))
    ensures PurchaseRemove(s, id, rid).Done? ==>
              PurchaseRemove(s, id, rid).value.warehouse == Unmove(s.warehouse, ByPurchase(id), true)
  {}

  lemma PurchaseWarehouse(s: Shop, q: Request)
    requires Apply(s, q).Done? && AboutPurchase(q)
    ensures Next(s, q).warehouse == WarehouseAfter(s, q)
  {
    match q
    case CreatePurchase(id, rid, p) => PurchaseShape(s, id, rid, p);
    case CompletePurchase(id, account, rid) => PurchaseWarehouses(s, id, account, rid, []);
    case AddPurchaseItems(id, items) => PurchaseWarehouses(s, id, 0, 0, items);
    case RemovePurchase(id, rid) => PurchaseWarehouses(s, id, 0, rid, []);
  }

  lemma OtherWarehouse(s: Shop, q: Request)
    requires Apply(s, q).Done? && !AboutSale(q) && !AboutPurchase(q)
    ensures Next(s, q).warehouse == WarehouseAfter(s, q)
  {}

  /** The rows of a document are touched by nothing but requests about it. */
  lemma OtherRowsKept(s: Shop, q: Request, ref: Ref)
    requires Subject(q) != Some(ref) && ref != ByHand
    ensures Own(Next(s, q).warehouse, ref) == Own(s.warehouse, ref)
  {
    if Apply(s, q).Done? {
      ApplyWarehouse(s, q);
      OtherRows(s, q, ref);
    }
  }

  lemma OtherRows(s: Shop, q: Request, ref: Ref)
    requires Subject(q) != Some(ref) && ref != ByHand
    ensures Own(WarehouseAfter(s, q), ref) == Own(s.warehouse, ref)
  {
    var w := s.warehouse;
    match q
    case CreateSale(id, _, sale) => OwnAfterMove(w, Lines(sale.items), SALE, BySale(id), ref);
    case AddSaleItems(id, items) => OwnAfterMove(w, Lines(items), SALE, BySale(id), ref);
    case RemoveSale(id, _) => OwnAfterUnmove(w, BySale(id), false, ref);
    case CreatePurchase(id, _, p) => OwnAfterBought(w, id, Lines(p.items), Processed(p.status, Lines(p.items)), ref);
    case AddPurchaseItems(id, items) => OwnAfterReplaced(w, id, Consolidate(Lines(items)), ref);
    case RemovePurchase(id, _) => OwnAfterUnmove(w, ByPurchase(id), true, ref);
    case _ => OtherRowsElsewhere(s, q, ref);
  }

  lemma OwnAfterBought(w: Warehouse, id: Id, lines: seq<Line>, processed: seq<Line>, ref: Ref)
    requires ref != ByPurchase(id)
    ensures Own(Bought(w, id, lines, processed), ref) == Own(w, ref)
  {
    OwnAfterMove(Stocking(w, lines), processed, PURCHASE, ByPurchase(id), ref);
  }

  lemma OtherRowsElsewhere(s: Shop, q: Request, ref: Ref)
    requires Subject(q) != Some(ref) && ref != ByHand
    requires !(q.CreateSale? || q.AddSaleItems? || q.RemoveSale? || q.CreatePurchase? || q.AddPurchaseItems? || q.RemovePurchase?)
    ensures Own(WarehouseAfter(s, q), ref) == Own(s.warehouse, ref)
  {
    var w := s.warehouse;
    match q
    case MoveByHand(k, _, quantity, kind) => OwnAfterMove(w, [HandLine(k, quantity)], kind, ByHand, ref);
    case FinishProduction(id, l) => OwnAfterMove(Stocking(w, [l]), [l], PRODUCTION, ByProduction(id), ref);
    case RemoveProduction(id) => OwnAfterUnmove(w, ByProduction(id), true, ref);
    case _ =>
  }

  lemma StepKeepsTidy(s: Shop, q: Request)
    requires StockInv(s) && Apply(s, q).Done?
    ensures Tidy(WarehouseAfter(s, q))
  {
    if q.RemoveProduction? {
      UnproduceKeeps(s.warehouse, q.id, s.productions[q.id]);
    } else {
      MostKeepTidy(s, q);
    }
  }

  lemma MostKeepTidy(s: Shop, q: Request)
    requires Tidy(s.warehouse) && Apply(s, q).Done? && !q.RemoveProduction?
    ensures Tidy(WarehouseAfter(s, q))
  {
    var w := s.warehouse;
    match q
    case CreateSale(id, _, sale) => MoveKeeps(w, Lines(sale.items), SALE, BySale(id));
    case AddSaleItems(id, items) => MoveKeeps(w, Lines(items), SALE, BySale(id));
    case RemoveSale(id, _) => UnmoveKeeps(w, BySale(id), false);
    case CreatePurchase(id, _, p) => BoughtKeeps(w, id, p.status, Lines(p.items));
    case AddPurchaseItems(id, items) => ReplacedKeeps(w, id, Consolidate(Lines(items)));
    case RemovePurchase(id, _) => UnmoveKeeps(w, ByPurchase(id), true);
    case MoveByHand(k, _, quantity, kind) => HandMoveKeeps(w, k, quantity, kind);
    case FinishProduction(id, l) => ProduceKeeps(w, id, l);
    case CreateStock(k) => EmptyStockKeeps(w, k);
    case _ =>
  }

  /** A document exists after a request exactly if it did before, except the one the request is about. */
  lemma DocumentsStay(s: Shop, q: Request, ref: Ref)
    requires Subject(q) != Some(ref) && Exists(s, ref)
    ensures Exists(Next(s, q), ref)
  {
    if Apply(s, q).Done? {
      match ref
      case BySale(i) => SalesStay(s, q, i);
      case ByPurchase(i) => PurchasesStay(s, q, i);
      case ByProduction(i) => ProductionsStay(s, q, i);
      case ByHand =>
    }
  }

  lemma SalesStay(s: Shop, q: Request, i: Id)
    requires Subject(q) != Some(BySale(i)) && i in s.sales
    ensures i in Next(s, q).sales
  {
    SaleKept(s, q, i);
  }

  /** Only requests about a sale change its row, and only completing it is not in `Subject`. */
  lemma SaleKept(s: Shop, q: Request, i: Id)
    requires Subject(q) != Some(BySale(i))
    ensures i in Next(s, q).sales <==> i in s.sales
    ensures i in s.sales ==> Next(s, q).sales[i] == s.sales[i] || (q.CompleteSale? && q.id == i)
  {
    if AboutSale(q) {
      SaleFrame(s, q);
    } else if AboutPurchase(q) {
      PurchaseFrame(s, q);
    } else {
      ElseFrame(s, q);
    }
  }

  lemma PurchasesStay(s: Shop, q: Request, i: Id)
    requires Subject(q) != Some(ByPurchase(i)) && i in s.purchases
    ensures i in Next(s, q).purchases
  {
    PurchaseKept(s, q, i);
  }

  lemma PurchaseKept(s: Shop, q: Request, i: Id)
    requires Subject(q) != Some(ByPurchase(i))
    ensures i in Next(s, q).purchases <==> i in s.purchases
    ensures i in s.purchases ==> Next(s, q).purchases[i] == s.purchases[i] || (q.CompletePurchase? && q.id == i)
  {
    if AboutPurchase(q) {
      PurchaseFrame(s, q);
    } else if AboutSale(q) {
      SaleFrame(s, q);
    } else {
      ElseFrame(s, q);
    }
  }

  lemma NoRows(s: Shop, ref: Ref)
    requires RowsPlaced(s) && !Exists(s, ref)
    ensures Own(s.warehouse, ref) == []
  {
    KeepNone(s.warehouse.movements, With(ref));
  }

  predicate Deletes(q: Request) {
    q.RemoveSale? || q.RemovePurchase? || q.RemoveProduction?
  }

  /** A request that deletes a document deletes its rows. */
  lemma DeletedLeavesNoRows(s: Shop, q: Request)
    requires Deletes(q) && Apply(s, q).Done?
    ensures Own(WarehouseAfter(s, q), Subject(q).value) == []
  {
    match q
    case RemoveSale(id, _) => OwnAfterUnmove(s.warehouse, BySale(id), false, BySale(id));
    case RemovePurchase(id, _) => OwnAfterUnmove(s.warehouse, ByPurchase(id), true, ByPurchase(id));
    case RemoveProduction(id) => ProductionRowsGone(s, id);
  }

  lemma ProductionRowsGone(s: Shop, id: Id)
    requires id in s.productions && Unproduce(s.warehouse, id, s.productions[id]).Done?
    ensures Own(WarehouseAfter(s, RemoveProduction(id)), ByProduction(id)) == []
  {
    OwnAfterUnmove(s.warehouse, ByProduction(id), true, ByProduction(id));
  }

  lemma SubjectExists(s: Shop, q: Request)
    requires Apply(s, q).Done? && Subject(q).Some? && !Deletes(q)
    ensures Exists(Next(s, q), Subject(q).value)
  {}

  lemma StepKeepsPlaces(s: Shop, q: Request)
    requires RowsPlaced(s)
    ensures RowsPlaced(Next(s, q))
  {
    if Apply(s, q).Done? {
      var t := Next(s, q);
      forall m | m in t.warehouse.movements
        ensures Exists(t, m.ref)
      {
        assert m in Own(t.warehouse, m.ref);
        if m.ref == ByHand {
        } else if Subject(q) != Some(m.ref) {
          OtherRowsKept(s, q, m.ref);
          assert m in s.warehouse.movements;
          DocumentsStay(s, q, m.ref);
        } else if Deletes(q) {
          ApplyWarehouse(s, q);
          DeletedLeavesNoRows(s, q);
        } else {
          SubjectExists(s, q);
        }
      }
    }
  }

  lemma ProducedRows(s: Shop, id: Id, l: Line)
    requires RowsPlaced(s) && id !in s.productions
    ensures Own(Produce(s.warehouse, id, l), ByProduction(id)) == Rows([l], PRODUCTION, ByProduction(id))
  {
    NoRows(s, ByProduction(id));
    OwnAfterMove(Stocking(s.warehouse, [l]), [l], PRODUCTION, ByProduction(id), ByProduction(id));
  }

  lemma ProductionsStay(s: Shop, q: Request, i: Id)
    requires Subject(q) != Some(ByProduction(i))
    ensures i in Next(s, q).productions <==> i in s.productions
    ensures i in s.productions ==> Next(s, q).productions[i] == s.productions[i]
  {
    if AboutSale(q) {
      SaleFrame(s, q);
    } else if AboutPurchase(q) {
      PurchaseFrame(s, q);
    } else {
      ElseFrame(s, q);
    }
  }

  lemma StepKeepsProductions(s: Shop, q: Request)
    requires RowsPlaced(s) && ProductionRows(s)
    ensures ProductionRows(Next(s, q))
  {
    var t := Next(s, q);
    forall i | i in t.productions
      ensures Own(t.warehouse, ByProduction(i)) == Rows([t.productions[i]], PRODUCTION, ByProduction(i))
    {
      if Subject(q) != Some(ByProduction(i)) {
        OtherRowsKept(s, q, ByProduction(i));
        ProductionsStay(s, q, i);
      } else if q.FinishProduction? && i !in s.productions {
        ProducedRows(s, i, q.line);
      }
    }
  }

  lemma StepKeepsStocks(s: Shop, q: Request)
    requires StockInv(s)
    ensures StockInv(Next(s, q))
  {
    StepKeepsPlaces(s, q);
    StepKeepsProductions(s, q);
    if Apply(s, q).Done? {
      StepKeepsTidy(s, q);
      ApplyWarehouse(s, q);
    }
  }

  /** In every run each product stock is the signed sum of the movement rows pointing at it. */
  lemma {:induction false} RunKeepsStocks(s: Shop, qs: seq<Request>)
    requires StockInv(s)
    ensures StockInv(Run(s, qs))
    ensures var w := Run(s, qs).warehouse;
            forall k :: k in w.stocks ==> w.stocks[k] == Sum(w.movements, Effect(k))
    decreases |qs|
  {
    if |qs| > 0 {
      RunKeepsStocks(s, qs[..|qs| - 1]);
      StepKeepsStocks(Run(s, qs[..|qs| - 1]), qs[|qs| - 1]);
    }
  }

  // ----- Two manual movements that overlap -----

  lemma HandRowEffect(k: StockKey, quantity: real, kind: MovementType, j: StockKey)
    ensures Sum(Rows([HandLine(k, quantity)], kind, ByHand), Effect(j))
         == if j != k then 0.0 else if Adds(kind) then quantity else -quantity
  {
    RowsEffect([HandLine(k, quantity)], kind, ByHand, j);
    AskedOne(HandLine(k, quantity), j);
  }

  /**
   A manual movement writes an absolute quantity computed from a read made before its
   transaction. Stocks stay explained exactly when nothing changed that stock in between.
   */
  lemma ManualWriteExact(w: Warehouse, k: StockKey, read: real, quantity: real, kind: MovementType)
    requires Explained(w.stocks, w.movements) && k in w.stocks
    ensures var v := HandWrite(w, k, read, quantity, kind);
            Explained(v.stocks, v.movements) <==> read == w.stocks[k]
  {
    var v := HandWrite(w, k, read, quantity, kind);
    forall j | j in v.stocks
      ensures Sum(v.movements, Effect(j)) == w.stocks[j] + if j != k then 0.0 else if Adds(kind) then quantity else -quantity
    {
      SumConcat(w.movements, Rows([HandLine(k, quantity)], kind, ByHand), Effect(j));
      HandRowEffect(k, quantity, kind, j);
    }
    assert k in v.stocks;
  }

  const SHELF := StockKey(1, PRINCIPAL)

  /** Two movements of five each that both read the empty stock: the rows say ten, the stock says five. */
  lemma MovementLost()
    ensures var w := Warehouse(map[1 := true], map[SHELF := 0.0], []);
            var v := HandWrite(HandWrite(w, SHELF, 0.0, 5.0, ADJUSTMENT), SHELF, 0.0, 5.0, ADJUSTMENT);
            Tidy(w) && v.stocks[SHELF] == 5.0 && Sum(v.movements, Effect(SHELF)) == 10.0
  {
    var row := Rows([HandLine(SHELF, 5.0)], ADJUSTMENT, ByHand);
    HandRowEffect(SHELF, 5.0, ADJUSTMENT, SHELF);
    SumConcat(row, row, Effect(SHELF));
    assert [] + row == row;
  }

  // ----- Sale headers -----

  function PricedRow(): Movement -> real {
    (m: Movement) => if m.unit.Some? then Times(m.unit.value, m.quantity) else 0.0
  }

  function RowCost(w: Warehouse, ref: Ref): real {
    Sum(Own(w, ref), PricedRow())
  }

  lemma {:induction false} RowsCost(lines: seq<Line>, kind: MovementType, ref: Ref)
    ensures Sum(Rows(lines, kind, ref), PricedRow()) == CalcTotal(lines)
  {
    if |lines| > 0 {
      var n := |lines| - 1;
      RowsCost(lines[..n], kind, ref);
      assert Rows(lines, kind, ref)[..n] == Rows(lines[..n], kind, ref);
    }
  }

  lemma CostAfterMove(w: Warehouse, lines: seq<Line>, kind: MovementType, ref: Ref)
    ensures RowCost(Move(w, lines, kind, ref), ref) == RowCost(w, ref) + CalcTotal(lines)
  {
    OwnAfterMove(w, lines, kind, ref, ref);
    RowsCost(lines, kind, ref);
    SumConcat(Own(w, ref), Rows(lines, kind, ref), PricedRow());
  }

  predicate SaleAgrees(s: Shop, id: Id) {
    id in s.sales && s.sales[id].status != CANCELLED ==>
      s.sales[id].total + s.sales[id].discount == RowCost(s.warehouse, BySale(id))
  }

  predicate SalesAgree(s: Shop) {
    forall id :: id in s.sales ==> SaleAgrees(s, id)
  }

  /** The amounts in a sale's header change only by requests about that sale; completing it is not one. */
  lemma AmountsStay(s: Shop, q: Request, id: Id)
    requires Subject(q) != Some(BySale(id)) && id in Next(s, q).sales
    ensures id in s.sales
    ensures var a, b := s.sales[id], Next(s, q).sales[id];
            a.subtotal == b.subtotal && a.discount == b.discount && a.total == b.total
            && (a.status == CANCELLED <==> b.status == CANCELLED)
  {
    SaleKept(s, q, id);
    if q.CompleteSale? && q.id == id && Apply(s, q).Done? {
      CompletionKeepsAmounts(s, id, q.account, q.rid);
    }
  }

  lemma CompletionKeepsAmounts(s: Shop, id: Id, account: Id, rid: Id)
    requires SaleComplete(s, id, account, rid).Done?
    ensures var a, b := s.sales[id], SaleComplete(s, id, account, rid).value.sales[id];
            b == a.(status := COMPLETED, tx := Some(rid)) && a.status == PENDING
  {}

  lemma SaleCreateAgrees(s: Shop, id: Id, rid: Id, q: SaleRequest)
    requires RowsPlaced(s) && id !in s.sales && SaleCreate(s, id, rid, q).Done?
    ensures SaleAgrees(SaleCreate(s, id, rid, q).value, id)
  {
    NoRows(s, BySale(id));
    CostAfterMove(s.warehouse, Lines(q.items), SALE, BySale(id));
  }

  lemma SaleAddItemsAgrees(s: Shop, id: Id, items: seq<Item>)
    requires SaleAgrees(s, id) && SaleAddItems(s, id, items).Done?
    ensures SaleAgrees(SaleAddItems(s, id, items).value, id)
  {
    CostAfterMove(s.warehouse, Lines(items), SALE, BySale(id));
  }

  lemma SaleRequestAgrees(s: Shop, q: Request, id: Id)
    requires RowsPlaced(s) && (id in s.sales ==> SaleAgrees(s, id)) && Subject(q) == Some(BySale(id)) && Apply(s, q).Done?
    ensures SaleAgrees(Next(s, q), id)
  {
    match q
    case CreateSale(_, rid, sale) => SaleCreateAgrees(s, id, rid, sale);
    case AddSaleItems(_, items) => SaleAddItemsAgrees(s, id, items);
    case RemoveSale(_, rid) =>
  }

  lemma StepKeepsSales(s: Shop, q: Request)
    requires RowsPlaced(s) && SalesAgree(s)
    ensures SalesAgree(Next(s, q))
  {
    forall id | id in Next(s, q).sales
      ensures SaleAgrees(Next(s, q), id)
    {
      assert id in s.sales ==> SaleAgrees(s, id);
      if Subject(q) != Some(BySale(id)) {
        OtherRowsKept(s, q, BySale(id));
        AmountsStay(s, q, id);
      } else if Apply(s, q).Done? {
        SaleRequestAgrees(s, q, id);
      }
    }
  }

  /** For every sale that is not cancelled, total plus discount is the price of its rows, whatever was done to it. */
  lemma {:induction false} RunKeepsSales(s: Shop, qs: seq<Request>)
    requires RowsPlaced(s) && SalesAgree(s)
    ensures RowsPlaced(Run(s, qs)) && SalesAgree(Run(s, qs))
    decreases |qs|
  {
    if |qs| > 0 {
      RunKeepsSales(s, qs[..|qs| - 1]);
      StepKeepsPlaces(Run(s, qs[..|qs| - 1]), qs[|qs| - 1]);
      StepKeepsSales(Run(s, qs[..|qs| - 1]), qs[|qs| - 1]);
    }
  }

  /** The stored subtotal is written once: adding items leaves it behind unless they are worth nothing. */
  lemma SubtotalStale(s: Shop, id: Id, items: seq<Item>)
    requires SaleAddItems(s, id, items).Done?
    requires s.sales[id].total + s.sales[id].discount == s.sales[id].subtotal
    ensures var sale := SaleAddItems(s, id, items).value.sales[id];
            sale.total + sale.discount == sale.subtotal <==> CalcTotal(Lines(items)) == 0.0
  {}

  const EXTRA := Item(1, PRINCIPAL, 1.0, Some(5.0))
  const EXTRA_LINE := Line(SHELF, 1.0, Some(5.0))
  const TEN := Sale(PENDING, 10.0, 0.0, 10.0, None)
  const KIOSK := Shop(
    Warehouse(map[1 := true], map[SHELF := 9.0], []), Books(Ledger.Db(map[], map[], {}), map[], map[]), {}, map[],
    map[1 := TEN], map[], map[], map[])

  lemma LineOfOne(i: Item)
    requires i.location != ""
    ensures Lines([i]) == [Line(StockKey(i.product, i.location), i.quantity, i.unit)]
  {}

  lemma TotalOfOne(l: Line)
    ensures CalcTotal([l]) == Priced()(l)
  {
    SumPush([], l, Priced());
    assert [] + [l] == [l];
  }

  lemma ExtraPriced()
    ensures Lines([EXTRA]) == [EXTRA_LINE]
    ensures CalcTotal([EXTRA_LINE]) == 5.0
  {
    assert |PRINCIPAL| > 0;
    LineOfOne(EXTRA);
    TotalOfOne(EXTRA_LINE);
  }

  lemma ExtraFits()
    ensures StockRefusal(KIOSK.warehouse, [EXTRA_LINE]) == None
  {
    AskedOne(EXTRA_LINE, SHELF);
  }

  /** Adding one item worth 5 to a sale of 10 makes its total 15 and leaves its subtotal at 10. */
  lemma SubtotalLeftBehind()
    ensures SaleAddItems(KIOSK, 1, [EXTRA]).Done?
    ensures SaleAddItems(KIOSK, 1, [EXTRA]).value.sales[1] == TEN.(total := 15.0)
  {
    ExtraPriced();
    ExtraFits();
  }

  /** A discount is never more than the subtotal, so a sale of priced items never has a negative total to post. */
  lemma TotalNotNegative(q: SaleRequest)
    requires forall l :: l in Lines(q.items) ==> Priced()(l) >= 0.0
    requires q.discount.Applicable? ==> q.discount.value >= 0.0 && (q.discount.cap.Some? ==> q.discount.cap.value >= 0.0)
    ensures 0.0 <= NewSale(q).discount <= NewSale(q).subtotal
    ensures NewSale(q).total >= 0.0
  {
    SumNonNegative(Lines(q.items), Priced());
    if q.discount.Applicable? {
      NonNegativeProduct(NewSale(q).subtotal, q.discount.value);
    }
  }

  lemma NonNegativeProduct(a: real, b: real)
    requires a >= 0.0 && b >= 0.0
    ensures Times(a, b) >= 0.0
  {}

  /** What a percentage rule asks for before any ceiling. */
  function Share(subtotal: real, percent: real): real {
    Times(subtotal, percent) / 100.0
  }

  /** A discount is the greatest amount within all of its rule's ceilings: the subtotal, the rule's own figure and, for percentages, the cap. */
  lemma DiscountExact(d: Discount, subtotal: real, x: real)
    requires d.Applicable?
    ensures x <= DiscountAmount(d, subtotal)
       <==> x <= subtotal && (d.percentage ==> x <= Share(subtotal, d.value)) && (!d.percentage ==> x <= d.value)
            && (d.percentage && d.cap.Some? ==> x <= d.cap.value)
  {
    var amount := DiscountAmount(d, subtotal);
    if d.percentage {
      assert amount <= Share(subtotal, d.value) && (d.cap.Some? ==> amount <= d.cap.value);
      assert amount == Share(subtotal, d.value) || amount == subtotal || (d.cap.Some? && amount == d.cap.value);
    }
  }

  /** A new sale's subtotal is the price of its rows, and it is linked to the record that credited its total exactly if it is COMPLETED. */
  lemma SaleHeaderAtCreation(s: Shop, id: Id, rid: Id, q: SaleRequest)
    requires RowsPlaced(s) && id !in s.sales && SaleCreate(s, id, rid, q).Done?
    ensures var t := SaleCreate(s, id, rid, q).value;
            id in t.sales && t.sales[id].status == q.status && t.sales[id].subtotal == RowCost(t.warehouse, BySale(id))
            && t.sales[id].tx == (if q.status == COMPLETED then Some(rid) else None)
  {
    NoRows(s, BySale(id));
    CostAfterMove(s.warehouse, Lines(q.items), SALE, BySale(id));
  }

  // ----- No sale drives a stock below zero -----

  /** A sale that is accepted leaves every stock at or above zero, at every turn of its decrement loop. */
  lemma SaleKeepsNonNegative(s: Shop, id: Id, rid: Id, q: SaleRequest, n: nat)
    requires NonNegative(s.warehouse.stocks) && Positive(Lines(q.items)) && n <= |q.items|
    requires SaleCreate(s, id, rid, q).Done?
    ensures NonNegative(Decreased(s.warehouse.stocks, Lines(q.items)[..n]))
    ensures NonNegative(SaleCreate(s, id, rid, q).value.warehouse.stocks)
  {
    SufficientAtEveryTurn(s.warehouse.stocks, Lines(q.items), n);
    SufficientIff(s.warehouse.stocks, Lines(q.items));
  }

  lemma AddItemsKeepsNonNegative(s: Shop, id: Id, items: seq<Item>, n: nat)
    requires NonNegative(s.warehouse.stocks) && Positive(Lines(items)) && n <= |items|
    requires SaleAddItems(s, id, items).Done?
    ensures NonNegative(Decreased(s.warehouse.stocks, Lines(items)[..n]))
    ensures NonNegative(SaleAddItems(s, id, items).value.warehouse.stocks)
  {
    SufficientAtEveryTurn(s.warehouse.stocks, Lines(items), n);
    SufficientIff(s.warehouse.stocks, Lines(items));
  }

  /** Of sales over existing stock, exactly those that would leave some stock negative are refused for lack of it. */
  lemma SaleRefusedExactly(w: Warehouse, items: seq<Item>)
    requires NonNegative(w.stocks) && Positive(Lines(items)) && Known(w.catalog, Lines(items)) && Stocked(w.stocks, Lines(items))
    ensures StockRefusal(w, Lines(items)) == Some(Unprocessable) <==> !NonNegative(Decreased(w.stocks, Lines(items)))
  {
    SufficientIff(w.stocks, Lines(items));
  }

  // ----- Purchase headers -----

  predicate PurchaseAgrees(s: Shop, id: Id) {
    id in s.purchases && s.purchases[id].status != CANCELLED ==>
      s.purchases[id].total == RowCost(s.warehouse, ByPurchase(id))
  }

  lemma PurchaseShape(s: Shop, id: Id, rid: Id, q: PurchaseRequest)
    requires PurchaseCreate(s, id, rid, q).Done?
    ensures var t := PurchaseCreate(s, id, rid, q).value;
            var lines := Lines(q.items);
            t.warehouse == Bought(s.warehouse, id, lines, Processed(q.status, lines))
            && id in t.purchases && t.purchases[id].status == q.status && t.purchases[id].total == CalcTotal(lines)
  {}

  /**
   The header is computed from the lines as given, the rows of a PENDING purchase from the
   consolidated ones: they agree exactly when the repricings cancel out.
   */
  lemma PurchaseHeaderExact(s: Shop, id: Id, rid: Id, q: PurchaseRequest)
    requires RowsPlaced(s) && id !in s.purchases && PurchaseCreate(s, id, rid, q).Done?
    ensures var t := PurchaseCreate(s, id, rid, q).value;
            id in t.purchases && t.purchases[id].status == q.status
            && (t.purchases[id].total == RowCost(t.warehouse, ByPurchase(id))
                <==> q.status != PENDING || Sum(Lines(q.items), Repricing(Lines(q.items))) == 0.0)
  {
    var lines := Lines(q.items);
    PurchaseShape(s, id, rid, q);
    NoRows(s, ByPurchase(id));
    CostAfterMove(Stocking(s.warehouse, lines), Processed(q.status, lines), PURCHASE, ByPurchase(id));
    HeaderGap(lines);
  }

  /** Replacing the items always puts the header right, and leaves exactly the consolidated request as rows. */
  lemma ReplacedExactly(s: Shop, id: Id, items: seq<Item>)
    requires PurchaseAddItems(s, id, items).Done?
    ensures var t := PurchaseAddItems(s, id, items).value;
            PurchaseAgrees(t, id)
            && Own(t.warehouse, ByPurchase(id)) == Rows(Consolidate(Lines(items)), PURCHASE, ByPurchase(id))
            && t.purchases[id].total == CalcTotal(Consolidate(Lines(items)))
  {
    var lines := Consolidate(Lines(items));
    OwnAfterReplaced(s.warehouse, id, lines, ByPurchase(id));
    RowsCost(lines, PURCHASE, ByPurchase(id));
  }

  /** And each stock changes by the quantity now asked for minus the quantity of the replaced rows. */
  lemma ReplacedStocks(w: Warehouse, id: Id, items: seq<Item>, k: StockKey)
    requires k in Replaced(w, id, Consolidate(Lines(items))).stocks
    ensures Replaced(w, id, Consolidate(Lines(items))).stocks[k]
         == (if k in w.stocks then w.stocks[k] else 0.0) + Asked(Lines(items), k) - Moved(Own(w, ByPurchase(id)), k)
  {
    ConsolidatedQuantity(Lines(items), k);
  }

  lemma PurchaseTotalsStay(s: Shop, q: Request, id: Id)
    requires Subject(q) != Some(ByPurchase(id)) && id in s.purchases
    ensures id in Next(s, q).purchases
    ensures var a, b := s.purchases[id], Next(s, q).purchases[id];
            a.total == b.total && (a.status == CANCELLED <==> b.status == CANCELLED)
  {
    PurchaseKept(s, q, id);
    if q.CompletePurchase? && q.id == id && Apply(s, q).Done? {
      PurchaseCompletionKeepsTotal(s, id, q.account, q.rid);
    }
  }

  lemma PurchaseCompletionKeepsTotal(s: Shop, id: Id, account: Id, rid: Id)
    requires PurchaseComplete(s, id, account, rid).Done?
    ensures var a, b := s.purchases[id], PurchaseComplete(s, id, account, rid).value.purchases[id];
            b == a.(status := COMPLETED, tx := Some(rid)) && a.status == PENDING
  {}

  /** Once a purchase's header agrees with its rows, no request makes it disagree. */
  lemma PurchaseStaysAgreed(s: Shop, q: Request, id: Id)
    requires id in s.purchases && PurchaseAgrees(s, id)
    ensures PurchaseAgrees(Next(s, q), id)
  {
    if Subject(q) != Some(ByPurchase(id)) {
      OtherRowsKept(s, q, ByPurchase(id));
      PurchaseTotalsStay(s, q, id);
    } else if Apply(s, q).Done? {
      PurchaseRequestAgrees(s, q, id);
    }
  }

  lemma PurchaseRequestAgrees(s: Shop, q: Request, id: Id)
    requires id in s.purchases && Subject(q) == Some(ByPurchase(id)) && Apply(s, q).Done?
    ensures PurchaseAgrees(Next(s, q), id)
  {
    if q.AddPurchaseItems? {
      ReplacedExactly(s, id, q.items);
    }
  }

  // ----- CANCELLED is the end -----

  lemma CancelledHeader(s: Shop, q: Request, id: Id)
    requires id in s.sales && s.sales[id].status == CANCELLED
    ensures id in Next(s, q).sales && Next(s, q).sales[id] == s.sales[id]
    ensures Subject(q) == Some(BySale(id)) ==> Apply(s, q).Refused?
  {
    if AboutSale(q) && q.id == id {
      CancelledRefuses(s, q, id);
    } else {
      SaleKept(s, q, id);
    }
  }

  lemma CancelledRefuses(s: Shop, q: Request, id: Id)
    requires id in s.sales && s.sales[id].status == CANCELLED && AboutSale(q) && q.id == id
    ensures Apply(s, q).Refused?
  {}

  /** Nothing is ever done again to a cancelled sale or to its rows, whichever way it became cancelled. */
  lemma CancelledIsFinal(s: Shop, q: Request, id: Id)
    requires id in s.sales && s.sales[id].status == CANCELLED
    ensures id in Next(s, q).sales && Next(s, q).sales[id] == s.sales[id]
    ensures Own(Next(s, q).warehouse, BySale(id)) == Own(s.warehouse, BySale(id))
  {
    CancelledHeader(s, q, id);
    if Subject(q) != Some(BySale(id)) {
      OtherRowsKept(s, q, BySale(id));
    }
  }

  lemma CancelledPurchaseHeader(s: Shop, q: Request, id: Id)
    requires id in s.purchases && s.purchases[id].status == CANCELLED
    ensures id in Next(s, q).purchases && Next(s, q).purchases[id] == s.purchases[id]
    ensures Subject(q) == Some(ByPurchase(id)) ==> Apply(s, q).Refused?
  {
    if AboutPurchase(q) && q.id == id {
      CancelledPurchaseRefuses(s, q, id);
    } else {
      PurchaseKept(s, q, id);
    }
  }

  lemma CancelledPurchaseRefuses(s: Shop, q: Request, id: Id)
    requires id in s.purchases && s.purchases[id].status == CANCELLED && AboutPurchase(q) && q.id == id
    ensures Apply(s, q).Refused?
  {}

  lemma CancelledPurchaseIsFinal(s: Shop, q: Request, id: Id)
    requires id in s.purchases && s.purchases[id].status == CANCELLED
    ensures id in Next(s, q).purchases && Next(s, q).purchases[id] == s.purchases[id]
    ensures Own(Next(s, q).warehouse, ByPurchase(id)) == Own(s.warehouse, ByPurchase(id))
  {
    CancelledPurchaseHeader(s, q, id);
    if Subject(q) != Some(ByPurchase(id)) {
      OtherRowsKept(s, q, ByPurchase(id));
    }
  }

  // ----- When a cancelled document still holds stock -----

  /** The run draws no generated id twice. */
  predicate NeverCreates(qs: seq<Request>, ref: Ref) {
    forall i :: 0 <= i < |qs| && (qs[i].CreateSale? || qs[i].CreatePurchase?) ==> Subject(qs[i]) != Some(ref)
  }

  /** A document that became CANCELLED by being cancelled has no rows. */
  predicate EmptyOnceCancelled(s: Shop, ref: Ref) {
    match ref
    case BySale(id) => id in s.sales && s.sales[id].status == CANCELLED ==> Own(s.warehouse, ref) == []
    case ByPurchase(id) => id in s.purchases && s.purchases[id].status == CANCELLED ==> Own(s.warehouse, ref) == []
    case _ => true
  }

  lemma SaleStepEmpty(s: Shop, q: Request, id: Id)
    requires EmptyOnceCancelled(s, BySale(id)) && !(q.CreateSale? && q.id == id)
    ensures EmptyOnceCancelled(Next(s, q), BySale(id))
  {
    if Subject(q) != Some(BySale(id)) {
      SaleKept(s, q, id);
      OtherRowsKept(s, q, BySale(id));
      if id in s.sales {
        AmountsStay(s, q, id);
      }
    } else if Apply(s, q).Done? && q.RemoveSale? {
      ApplyWarehouse(s, q);
      DeletedLeavesNoRows(s, q);
    }
  }

  lemma PurchaseStepEmpty(s: Shop, q: Request, id: Id)
    requires EmptyOnceCancelled(s, ByPurchase(id)) && !(q.CreatePurchase? && q.id == id)
    ensures EmptyOnceCancelled(Next(s, q), ByPurchase(id))
  {
    if Subject(q) != Some(ByPurchase(id)) {
      PurchaseKept(s, q, id);
      OtherRowsKept(s, q, ByPurchase(id));
      if id in s.purchases {
        PurchaseTotalsStay(s, q, id);
      }
    } else if Apply(s, q).Done? && q.RemovePurchase? {
      ApplyWarehouse(s, q);
      DeletedLeavesNoRows(s, q);
    }
  }

  lemma {:induction false} SaleRunEmpty(s: Shop, qs: seq<Request>, id: Id)
    requires EmptyOnceCancelled(s, BySale(id)) && NeverCreates(qs, BySale(id))
    ensures EmptyOnceCancelled(Run(s, qs), BySale(id))
    decreases |qs|
  {
    if |qs| > 0 {
      SaleRunEmpty(s, qs[..|qs| - 1], id);
      SaleStepEmpty(Run(s, qs[..|qs| - 1]), qs[|qs| - 1], id);
    }
  }

  lemma {:induction false} PurchaseRunEmpty(s: Shop, qs: seq<Request>, id: Id)
    requires EmptyOnceCancelled(s, ByPurchase(id)) && NeverCreates(qs, ByPurchase(id))
    ensures EmptyOnceCancelled(Run(s, qs), ByPurchase(id))
    decreases |qs|
  {
    if |qs| > 0 {
      PurchaseRunEmpty(s, qs[..|qs| - 1], id);
      PurchaseStepEmpty(Run(s, qs[..|qs| - 1]), qs[|qs| - 1], id);
    }
  }

  /** A sale created as CANCELLED keeps for ever the rows it was given. */
  lemma {:induction false} CancelledCreationKeepsStock(s: Shop, id: Id, rid: Id, q: SaleRequest, qs: seq<Request>)
    requires RowsPlaced(s) && id !in s.sales && q.status == CANCELLED && SaleCreate(s, id, rid, q).Done?
    ensures var t := Run(SaleCreate(s, id, rid, q).value, qs);
            id in t.sales && t.sales[id].status == CANCELLED
            && Own(t.warehouse, BySale(id)) == Rows(Lines(q.items), SALE, BySale(id))
    decreases |qs|
  {
    var created := SaleCreate(s, id, rid, q).value;
    if |qs| == 0 {
      NoRows(s, BySale(id));
      OwnAfterMove(s.warehouse, Lines(q.items), SALE, BySale(id), BySale(id));
    } else {
      CancelledCreationKeepsStock(s, id, rid, q, qs[..|qs| - 1]);
      CancelledIsFinal(Run(created, qs[..|qs| - 1]), qs[|qs| - 1], id);
    }
  }

  lemma CancelledPurchaseRows(s: Shop, id: Id, rid: Id, q: PurchaseRequest)
    requires RowsPlaced(s) && id !in s.purchases && q.status == CANCELLED && PurchaseCreate(s, id, rid, q).Done?
    ensures var t := PurchaseCreate(s, id, rid, q).value;
            id in t.purchases && t.purchases[id].status == CANCELLED
            && Own(t.warehouse, ByPurchase(id)) == Rows(Lines(q.items), PURCHASE, ByPurchase(id))
  {
    PurchaseShape(s, id, rid, q);
    NoRows(s, ByPurchase(id));
    OwnAfterMove(Stocking(s.warehouse, Lines(q.items)), Lines(q.items), PURCHASE, ByPurchase(id), ByPurchase(id));
  }

  lemma {:induction false} CancelledPurchaseKeepsStock(s: Shop, id: Id, rid: Id, q: PurchaseRequest, qs: seq<Request>)
    requires RowsPlaced(s) && id !in s.purchases && q.status == CANCELLED && PurchaseCreate(s, id, rid, q).Done?
    ensures var t := Run(PurchaseCreate(s, id, rid, q).value, qs);
            id in t.purchases && t.purchases[id].status == CANCELLED
            && Own(t.warehouse, ByPurchase(id)) == Rows(Lines(q.items), PURCHASE, ByPurchase(id))
    decreases |qs|
  {
    var created := PurchaseCreate(s, id, rid, q).value;
    if |qs| == 0 {
      CancelledPurchaseRows(s, id, rid, q);
    } else {
      CancelledPurchaseKeepsStock(s, id, rid, q, qs[..|qs| - 1]);
      CancelledPurchaseIsFinal(Run(created, qs[..|qs| - 1]), qs[|qs| - 1], id);
    }
  }

  /**
   Whatever happens after a sale was created: once it is CANCELLED it holds no stock if and
   only if it was not created that way, or was created without items.
   */
  lemma CancelledSaleHoldsNothingIff(s: Shop, id: Id, rid: Id, q: SaleRequest, qs: seq<Request>)
    requires RowsPlaced(s) && id !in s.sales && SaleCreate(s, id, rid, q).Done? && NeverCreates(qs, BySale(id))
    requires var t := Run(SaleCreate(s, id, rid, q).value, qs); id in t.sales && t.sales[id].status == CANCELLED
    ensures Own(Run(SaleCreate(s, id, rid, q).value, qs).warehouse, BySale(id)) == []
       <==> q.status != CANCELLED || q.items == []
  {
    if q.status == CANCELLED {
      CancelledCreationKeepsStock(s, id, rid, q, qs);
    } else {
      SaleHeaderAtCreation(s, id, rid, q);
      SaleRunEmpty(SaleCreate(s, id, rid, q).value, qs, id);
    }
  }

  /** The same of purchases, which the same request type lets be created as CANCELLED. */
  lemma CancelledPurchaseHoldsNothingIff(s: Shop, id: Id, rid: Id, q: PurchaseRequest, qs: seq<Request>)
    requires RowsPlaced(s) && id !in s.purchases && PurchaseCreate(s, id, rid, q).Done? && NeverCreates(qs, ByPurchase(id))
    requires var t := Run(PurchaseCreate(s, id, rid, q).value, qs); id in t.purchases && t.purchases[id].status == CANCELLED
    ensures Own(Run(PurchaseCreate(s, id, rid, q).value, qs).warehouse, ByPurchase(id)) == []
       <==> q.status != CANCELLED || q.items == []
  {
    if q.status == CANCELLED {
      CancelledPurchaseKeepsStock(s, id, rid, q, qs);
    } else {
      PurchaseHeaderExact(s, id, rid, q);
      PurchaseRunEmpty(PurchaseCreate(s, id, rid, q).value, qs, id);
    }
  }
}

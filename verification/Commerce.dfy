/**
 Sales, product purchases, expenses, manual movements and manual ledger entries over
 one set of tables (src/modules/sales/sales.service.ts,
 src/modules/product-purchases/product-purchases.service.ts,
 src/modules/expenses/expenses.service.ts,
 src/modules/inventory-movements/inventory-movements.service.ts).

 Each request is one transaction: it yields the new tables or a refusal, and a
 refused request leaves every table as it was.
 */
module Commerce {
  import opened Options
  import opened Sums
  import opened Inventory
  import opened Consolidation
  import Ledger

  datatype DocStatus = PENDING | COMPLETED | CANCELLED
  datatype Sale = Sale(status: DocStatus, subtotal: real, discount: real, total: real, tx: Option<Id>)
  datatype Purchase = Purchase(status: DocStatus, total: real, tx: Option<Id>)
  datatype Expense = Expense(account: Id, category: Id, amount: real, tx: Option<Id>)

  /** Products with their isPurchased flag, stock rows and movement rows. */
  datatype Warehouse = Warehouse(catalog: map<Id, bool>, stocks: Stocks, movements: seq<Movement>)

  /** Accounts, records and account statuses; `byHand` marks the records that no document posted. */
  datatype Books = Books(db: Ledger.Db, status: map<Id, Ledger.Status>, byHand: map<Id, Ledger.Record>)

  /** The tables of one organization; `categories` maps an expense category to isActive. */
  datatype Shop = Shop(
    warehouse: Warehouse, books: Books, clients: set<Id>, categories: map<Id, bool>,
    sales: map<Id, Sale>, purchases: map<Id, Purchase>, expenses: map<Id, Expense>, productions: map<Id, Line>)

  datatype Error = BadRequest | NotFound | Conflict | Unprocessable | EntityError
  datatype Result<+T> = Done(value: T) | Refused(error: Error)

  // ----- The ledger as documents use it -----

  /** createTransaction inside the caller's transaction. */
  function Post(b: Books, p: Ledger.Params, rid: Id): Result<Books> {
    if p.account !in b.db.accounts then Refused(NotFound)
    else if p.account !in b.status || b.status[p.account] != Ledger.ACTIVE then Refused(Unprocessable)
    else
      match Ledger.Serial(b.db, Ledger.Create(p, rid))
      case None => Refused(EntityError)
      case Some(db) => Done(b.(db := db))
  }

  function HandPost(b: Books, p: Ledger.Params, rid: Id): Result<Books> {
    match Post(b, p, rid)
    case Refused(e) => Refused(e)
    case Done(c) =>
      if rid in c.db.records then Done(c.(byHand := c.byHand[rid := c.db.records[rid]])) else Refused(EntityError)
  }

  /** Only ADJUSTMENT records can be deleted, and deleting one reverts its balance change. */
  function HandRemove(b: Books, rid: Id): Result<Books> {
    if rid !in b.db.records then Refused(NotFound)
    else
      var r := b.db.records[rid];
      if r.params.operation != Ledger.ADJUSTMENT then Refused(BadRequest)
      else if r.params.account !in b.db.accounts then Refused(NotFound)
      else if r.params.account !in b.status || b.status[r.params.account] != Ledger.ACTIVE then Refused(Unprocessable)
      else
        match Ledger.Serial(b.db, Ledger.Remove(r))
        case None => Refused(BadRequest)
        case Some(db) => Done(b.(db := db, byHand := b.byHand - {rid}))
  }

  // ----- Stock rows of a document -----

  predicate Known(catalog: map<Id, bool>, lines: seq<Line>) {
    forall l :: l in lines ==> l.key.product in catalog
  }

  predicate Purchasable(catalog: map<Id, bool>, lines: seq<Line>) {
    forall l :: l in lines && l.key.product in catalog ==> catalog[l.key.product]
  }

  /** Write one row per line and move each stock by its line. */
  function Move(w: Warehouse, lines: seq<Line>, kind: MovementType, ref: Ref): Warehouse {
    w.(stocks := if Adds(kind) then Increased(w.stocks, lines) else Decreased(w.stocks, lines),
       movements := w.movements + Rows(lines, kind, ref))
  }

  /** Undo the stock effect of a document's rows and delete the rows. */
  function Unmove(w: Warehouse, ref: Ref, adding: bool): Warehouse {
    w.(stocks := Reversed(w.stocks, Keep(w.movements, With(ref)), adding),
       movements := Keep(w.movements, Not(With(ref))))
  }

  /** Upsert an empty stock row for every line that has none. */
  function Stocking(w: Warehouse, lines: seq<Line>): Warehouse {
    w.(stocks := WithStocks(w.stocks, lines))
  }

  // ----- Sales -----

  /** What looking a discount code up gave, and whether the rule applies to this sale. */
  datatype Discount =
    | NoCode
    | UnknownCode
    | Inapplicable
    | Applicable(percentage: bool, value: real, cap: Option<real>)

  function DiscountAmount(d: Discount, subtotal: real): real {
    match d
    case Applicable(percentage, value, cap) =>
      var raw := if percentage then Times(subtotal, value) / 100.0 else value;
      var amount := if percentage && cap.Some? && raw > cap.value then cap.value else raw;
      if amount > subtotal then subtotal else amount
    case _ => 0.0
  }

  datatype SaleRequest = SaleRequest(
    client: Option<Id>, status: DocStatus, account: Option<Id>, hasMethod: bool, discount: Discount, items: seq<Item>)

  /** Products exist, every stock row exists, and none would go below zero. */
  function StockRefusal(w: Warehouse, lines: seq<Line>): Option<Error> {
    if !Known(w.catalog, lines) then Some(BadRequest)
    else if !Stocked(w.stocks, lines) then Some(Unprocessable)
    else if !Sufficient(w.stocks, lines) then Some(Unprocessable)
    else None
  }

  function SaleRefusal(s: Shop, q: SaleRequest): Option<Error> {
    if q.status == COMPLETED && q.account.None? then Some(BadRequest)
    else if q.status == COMPLETED && !q.hasMethod then Some(BadRequest)
    else if q.client.Some? && q.client.value !in s.clients then Some(NotFound)
    else if q.discount.Inapplicable? then Some(BadRequest)
    else StockRefusal(s.warehouse, Lines(q.items))
  }

  function NewSale(q: SaleRequest): Sale {
    var subtotal := CalcTotal(Lines(q.items));
    var discount := DiscountAmount(q.discount, subtotal);
    Sale(q.status, subtotal, discount, subtotal - discount, None)
  }

  function SaleCreate(s: Shop, id: Id, rid: Id, q: SaleRequest): Result<Shop> {
    if SaleRefusal(s, q).Some? then Refused(SaleRefusal(s, q).value)
    else
      var sale := NewSale(q);
      var t := s.(warehouse := Move(s.warehouse, Lines(q.items), SALE, BySale(id)), sales := s.sales[id := sale]);
      if q.status == COMPLETED && q.account.Some? then CreditSale(t, id, sale, q.account.value, rid) else Done(t)
  }

  /** Credit the account with the sale's total and link the record. */
  function CreditSale(s: Shop, id: Id, sale: Sale, account: Id, rid: Id): Result<Shop> {
    match Post(s.books, Ledger.Params(account, Ledger.CREDIT, sale.total, Ledger.Operation.SALE), rid)
    case Refused(e) => Refused(e)
    case Done(b) => Done(s.(books := b, sales := s.sales[id := sale.(status := COMPLETED, tx := Some(rid))]))
  }

  function SaleComplete(s: Shop, id: Id, account: Id, rid: Id): Result<Shop> {
    if id !in s.sales then Refused(NotFound)
    else if s.sales[id].status != PENDING then Refused(Conflict)
    else CreditSale(s, id, s.sales[id], account, rid)
  }

  function SaleAddItems(s: Shop, id: Id, items: seq<Item>): Result<Shop> {
    var lines := Lines(items);
    if id !in s.sales then Refused(NotFound)
    else if s.sales[id].status != PENDING then Refused(Conflict)
    else if StockRefusal(s.warehouse, lines).Some? then Refused(StockRefusal(s.warehouse, lines).value)
    else
      var sale := s.sales[id];
      Done(s.(warehouse := Move(s.warehouse, lines, SALE, BySale(id)),
              sales := s.sales[id := sale.(total := sale.total + CalcTotal(lines))]))
  }

  function SaleRemove(s: Shop, id: Id, rid: Id): Result<Shop> {
    if id !in s.sales then Refused(NotFound)
    else
      var sale := s.sales[id];
      if sale.status == CANCELLED then Refused(Conflict)
      else
        var t := s.(warehouse := Unmove(s.warehouse, BySale(id), false));
        if sale.status == PENDING then Done(t.(sales := t.sales - {id}))
        else if sale.tx.None? then Refused(Conflict)
        else if sale.tx.value !in s.books.db.records then Refused(Conflict)
        else
          var account := s.books.db.records[sale.tx.value].params.account;
          match Post(t.books, Ledger.Params(account, Ledger.DEBIT, sale.total, Ledger.REFUND), rid)
          case Refused(e) => Refused(e)
          case Done(b) => Done(t.(books := b, sales := t.sales[id := sale.(status := CANCELLED)]))
  }

  // ----- Product purchases -----

  datatype PurchaseRequest = PurchaseRequest(status: DocStatus, account: Option<Id>, items: seq<Item>)

  function PurchaseRefusal(w: Warehouse, lines: seq<Line>): Option<Error> {
    if !Known(w.catalog, lines) then Some(BadRequest)
    else if !Purchasable(w.catalog, lines) then Some(BadRequest)
    else None
  }

  /** Only a PENDING purchase is consolidated before its rows are written. */
  function Processed(status: DocStatus, lines: seq<Line>): seq<Line> {
    if status == PENDING then Consolidate(lines) else lines
  }

  /** Stock rows for all lines, then one movement row per processed line. */
  function Bought(w: Warehouse, id: Id, lines: seq<Line>, processed: seq<Line>): Warehouse {
    Move(Stocking(w, lines), processed, PURCHASE, ByPurchase(id))
  }

  function PurchaseCreate(s: Shop, id: Id, rid: Id, q: PurchaseRequest): Result<Shop> {
    var lines := Lines(q.items);
    if q.status == COMPLETED && q.account.None? then Refused(BadRequest)
    else if PurchaseRefusal(s.warehouse, lines).Some? then Refused(PurchaseRefusal(s.warehouse, lines).value)
    else
      var purchase := Purchase(q.status, CalcTotal(lines), None);
      var t := s.(warehouse := Bought(s.warehouse, id, lines, Processed(q.status, lines)),
                  purchases := s.purchases[id := purchase]);
      if q.status == COMPLETED && q.account.Some? then DebitPurchase(t, id, purchase, q.account.value, rid) else Done(t)
  }

  function DebitPurchase(s: Shop, id: Id, purchase: Purchase, account: Id, rid: Id): Result<Shop> {
    match Post(s.books, Ledger.Params(account, Ledger.DEBIT, purchase.total, Ledger.Operation.PURCHASE), rid)
    case Refused(e) => Refused(e)
    case Done(b) => Done(s.(books := b, purchases := s.purchases[id := purchase.(status := COMPLETED, tx := Some(rid))]))
  }

  function PurchaseComplete(s: Shop, id: Id, account: Id, rid: Id): Result<Shop> {
    if id !in s.purchases then Refused(NotFound)
    else if s.purchases[id].status != PENDING then Refused(Conflict)
    else DebitPurchase(s, id, s.purchases[id], account, rid)
  }

  /** The rows a purchase has are reversed and deleted, and the given lines take their place. */
  function Replaced(w: Warehouse, id: Id, lines: seq<Line>): Warehouse {
    Move(Unmove(Stocking(w, lines), ByPurchase(id), true), lines, PURCHASE, ByPurchase(id))
  }

  /** Despite its name, it replaces the purchase's rows with the consolidated request. */
  function PurchaseAddItems(s: Shop, id: Id, items: seq<Item>): Result<Shop> {
    var lines := Consolidate(Lines(items));
    if id !in s.purchases then Refused(NotFound)
    else if s.purchases[id].status != PENDING then Refused(Conflict)
    else if PurchaseRefusal(s.warehouse, lines).Some? then Refused(PurchaseRefusal(s.warehouse, lines).value)
    else
      Done(s.(warehouse := Replaced(s.warehouse, id, lines),
              purchases := s.purchases[id := s.purchases[id].(total := CalcTotal(lines))]))
  }

  function PurchaseRemove(s: Shop, id: Id, rid: Id): Result<Shop> {
    if id !in s.purchases then Refused(NotFound)
    else
      var purchase := s.purchases[id];
      if purchase.status == CANCELLED then Refused(Conflict)
      else
        var t := s.(warehouse := Unmove(s.warehouse, ByPurchase(id), true));
        if purchase.status == PENDING then Done(t.(purchases := t.purchases - {id}))
        else if purchase.tx.None? then Refused(Conflict)
        else if purchase.tx.value !in s.books.db.records then Refused(Conflict)
        else
          var account := s.books.db.records[purchase.tx.value].params.account;
          match Post(t.books, Ledger.Params(account, Ledger.CREDIT, purchase.total, Ledger.REFUND), rid)
          case Refused(e) => Refused(e)
          case Done(b) => Done(t.(books := b, purchases := t.purchases[id := purchase.(status := CANCELLED)]))
  }

  // ----- Expenses -----

  function ExpenseCreate(s: Shop, id: Id, rid: Id, account: Id, category: Id, amount: real): Result<Shop> {
    if category !in s.categories then Refused(NotFound)
    else if !s.categories[category] then Refused(BadRequest)
    else if account !in s.books.db.accounts then Refused(NotFound)
    else
      match Post(s.books, Ledger.Params(account, Ledger.DEBIT, amount, Ledger.EXPENSE), rid)
      case Refused(e) => Refused(e)
      case Done(b) => Done(s.(books := b, expenses := s.expenses[id := Expense(account, category, amount, Some(rid))]))
  }

  function ExpenseUpdate(s: Shop, id: Id, category: Option<Id>): Result<Shop> {
    if id !in s.expenses then Refused(NotFound)
    else
      var e := s.expenses[id];
      if category.None? then Done(s)
      else if category.value != e.category && category.value !in s.categories then Refused(NotFound)
      else if category.value != e.category && !s.categories[category.value] then Refused(BadRequest)
      else Done(s.(expenses := s.expenses[id := e.(category := category.value)]))
  }

  function ExpenseRemove(s: Shop, id: Id, rid: Id): Result<Shop> {
    if id !in s.expenses then Refused(NotFound)
    else
      var e := s.expenses[id];
      var t := s.(expenses := s.expenses - {id});
      if e.tx.None? then Done(t)
      else
        match Post(t.books, Ledger.Params(e.account, Ledger.CREDIT, e.amount, Ledger.REFUND), rid)
        case Refused(error) => Refused(error)
        case Done(b) => Done(t.(books := b))
  }

  // ----- Movements by hand and from productions -----

  function HandLine(k: StockKey, quantity: real): Line {
    Line(k, quantity, None)
  }

  /** processMovement with nothing between its read of the stock and its write. */
  function HandMove(w: Warehouse, k: StockKey, product: Id, quantity: real, kind: MovementType): Result<Warehouse> {
    if k !in w.stocks then Refused(NotFound)
    else if k.product != product then Refused(BadRequest)
    else Done(HandWrite(w, k, w.stocks[k], quantity, kind))
  }

  /** The write of processMovement: the quantity comes from the stock as it was read before the transaction. */
  function HandWrite(w: Warehouse, k: StockKey, read: real, quantity: real, kind: MovementType): Warehouse {
    w.(stocks := w.stocks[k := if Adds(kind) then read + quantity else read - quantity],
       movements := w.movements + Rows([HandLine(k, quantity)], kind, ByHand))
  }

  /** A sellable production is completed: one row and one upserted stock at the main location. */
  function Produce(w: Warehouse, id: Id, l: Line): Warehouse {
    Move(Stocking(w, [l]), [l], PRODUCTION, ByProduction(id))
  }

  /** A completed sellable production is removed: its rows go and its quantity is decremented. */
  function Unproduce(w: Warehouse, id: Id, l: Line): Result<Warehouse> {
    if l.key !in w.stocks then Refused(NotFound)
    else Done(w.(stocks := w.stocks[l.key := w.stocks[l.key] - l.quantity],
                 movements := Keep(w.movements, Not(With(ByProduction(id))))))
  }

  // ----- Requests and runs -----

  datatype Request =
    | CreateSale(id: Id, rid: Id, sale: SaleRequest)
    | CompleteSale(id: Id, account: Id, rid: Id)
    | AddSaleItems(id: Id, items: seq<Item>)
    | RemoveSale(id: Id, rid: Id)
    | CreatePurchase(id: Id, rid: Id, purchase: PurchaseRequest)
    | CompletePurchase(id: Id, account: Id, rid: Id)
    | AddPurchaseItems(id: Id, items: seq<Item>)
    | RemovePurchase(id: Id, rid: Id)
    | CreateExpense(id: Id, rid: Id, account: Id, category: Id, amount: real)
    | UpdateExpense(id: Id, newCategory: Option<Id>)
    | RemoveExpense(id: Id, rid: Id)
    | PostByHand(params: Ledger.Params, rid: Id)
    | RemoveByHand(rid: Id)
    | MoveByHand(key: StockKey, product: Id, quantity: real, kind: MovementType)
    | FinishProduction(id: Id, line: Line)
    | RemoveProduction(id: Id)
    | CreateStock(key: StockKey)
    | OpenAccount(account: Id)
    | SetStatus(account: Id, newStatus: Ledger.Status)

  predicate AboutSale(q: Request) {
    q.CreateSale? || q.CompleteSale? || q.AddSaleItems? || q.RemoveSale?
  }

  predicate AboutPurchase(q: Request) {
    q.CreatePurchase? || q.CompletePurchase? || q.AddPurchaseItems? || q.RemovePurchase?
  }

  function InBooks(s: Shop, r: Result<Books>): Result<Shop> {
    match r
    case Refused(e) => Refused(e)
    case Done(b) => Done(s.(books := b))
  }

  function InWarehouse(s: Shop, r: Result<Warehouse>): Result<Shop> {
    match r
    case Refused(e) => Refused(e)
    case Done(w) => Done(s.(warehouse := w))
  }

  /** Ids are database-generated uuids: one that is taken is a unique violation. */
  function Apply(s: Shop, q: Request): Result<Shop> {
    match q
    case CreateSale(id, rid, sale) => if id in s.sales then Refused(Conflict) else SaleCreate(s, id, rid, sale)
    case CompleteSale(id, account, rid) => SaleComplete(s, id, account, rid)
    case AddSaleItems(id, items) => SaleAddItems(s, id, items)
    case RemoveSale(id, rid) => SaleRemove(s, id, rid)
    case CreatePurchase(id, rid, p) => if id in s.purchases then Refused(Conflict) else PurchaseCreate(s, id, rid, p)
    case CompletePurchase(id, account, rid) => PurchaseComplete(s, id, account, rid)
    case AddPurchaseItems(id, items) => PurchaseAddItems(s, id, items)
    case RemovePurchase(id, rid) => PurchaseRemove(s, id, rid)
    case CreateExpense(id, rid, a, c, amount) =>
      if id in s.expenses then Refused(Conflict) else ExpenseCreate(s, id, rid, a, c, amount)
    case UpdateExpense(id, c) => ExpenseUpdate(s, id, c)
    case RemoveExpense(id, rid) => ExpenseRemove(s, id, rid)
    case PostByHand(p, rid) => InBooks(s, HandPost(s.books, p, rid))
    case RemoveByHand(rid) => InBooks(s, HandRemove(s.books, rid))
    case MoveByHand(k, product, quantity, kind) => InWarehouse(s, HandMove(s.warehouse, k, product, quantity, kind))
    case FinishProduction(id, l) =>
      if id in s.productions then Refused(Conflict)
      else Done(s.(warehouse := Produce(s.warehouse, id, l), productions := s.productions[id := l]))
    case RemoveProduction(id) =>
      if id !in s.productions then Refused(NotFound)
      else InWarehouse(s.(productions := s.productions - {id}), Unproduce(s.warehouse, id, s.productions[id]))
    case CreateStock(k) =>
      if k in s.warehouse.stocks then Refused(Conflict)
      else Done(s.(warehouse := s.warehouse.(stocks := s.warehouse.stocks[k := 0.0])))
    case OpenAccount(a) => InBooks(s, BooksOpen(s.books, a))
    case SetStatus(a, st) =>
      if a in s.books.db.accounts then Done(s.(books := s.books.(status := s.books.status[a := st]))) else Refused(NotFound)
  }

  function BooksOpen(b: Books, a: Id): Result<Books> {
    match Ledger.Serial(b.db, Ledger.Open(a))
    case None => Refused(Conflict)
    case Some(db) => Done(b.(db := db, status := b.status[a := Ledger.ACTIVE]))
  }

  function Next(s: Shop, q: Request): Shop {
    match Apply(s, q)
    case Done(t) => t
    case Refused(_) => s
  }

  function Run(s: Shop, qs: seq<Request>): Shop {
    if |qs| == 0 then s else Next(Run(s, qs[..|qs| - 1]), qs[|qs| - 1])
  }
}

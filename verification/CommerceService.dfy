/**
 The services behind module Commerce in the form the code has: repositories that update
 rows in place, services that loop over items and rows, and transactions that put the
 tables back when something throws. Every request method is proved equal to its
 function in module Commerce, refusals and rollbacks included.
 */
module CommerceService {
  import opened Options
  import opened Sums
  import opened Inventory
  import opened Consolidation
  import opened Commerce
  import Ledger
  import LedgerService

  function After(s: Shop, r: Result<Shop>): Shop {
    if r.Done? then r.value else s
  }

  function ErrorOf<T>(r: Result<T>): Option<Error> {
    if r.Done? then None else Some(r.error)
  }

  class Tables {
    var clients: set<Id>
    var categories: map<Id, bool>
    var catalog: map<Id, bool>
    var stocks: Stocks
    var movements: seq<Movement>
    var sales: map<Id, Sale>
    var purchases: map<Id, Purchase>
    var expenses: map<Id, Expense>
    var productions: map<Id, Line>
    var db: Ledger.Db
    var status: map<Id, Ledger.Status>
    ghost var byHand: map<Id, Ledger.Record>

    ghost function Books(): Books
      reads this
    {
      Commerce.Books(db, status, byHand)
    }

    ghost function Shop(): Shop
      reads this
    {
      Commerce.Shop(Warehouse(catalog, stocks, movements), Books(), clients, categories, sales, purchases, expenses, productions)
    }

    constructor ()
      ensures Shop() == Commerce.Shop(Warehouse(map[], map[], []), Commerce.Books(Ledger.Db(map[], map[], {}), map[], map[]),
                                      {}, map[], map[], map[], map[], map[])
    {
      clients, categories, catalog, stocks, movements := {}, map[], map[], map[], [];
      sales, purchases, expenses, productions := map[], map[], map[], map[];
      db, status, byHand := Ledger.Db(map[], map[], {}), map[], map[];
    }

    /** The foreign key from movement rows to stocks. */
    ghost predicate RowsHaveStocks()
      reads this
    {
      forall m :: m in movements ==> m.key in stocks
    }

    method IncrementQuantity(k: StockKey, delta: real)
      requires k in stocks
      modifies this`stocks
      ensures stocks == old(stocks)[k := old(stocks)[k] + delta]
    {
      stocks := stocks[k := stocks[k] + delta];
    }

    method Upsert(k: StockKey)
      modifies this`stocks
      ensures stocks == if k in old(stocks) then old(stocks) else old(stocks)[k := 0.0]
    {
      if k !in stocks {
        stocks := stocks[k := 0.0];
      }
    }

    /** One row per line, in order. */
    method CreateMany(lines: seq<Line>, kind: MovementType, ref: Ref)
      modifies this`movements
      ensures movements == old(movements) + Rows(lines, kind, ref)
    {
      for n := 0 to |lines|
        invariant movements == old(movements) + Rows(lines, kind, ref)[..n]
      {
        var l := lines[n];
        movements := movements + [Movement(l.key, l.quantity, l.unit, kind, ref)];
      }
    }

    /** The loop that moves each line's stock by its own quantity. */
    method MoveStocks(lines: seq<Line>, adding: bool)
      requires Stocked(stocks, lines)
      modifies this`stocks
      ensures stocks == if adding then Increased(old(stocks), lines) else Decreased(old(stocks), lines)
    {
      for n := 0 to |lines|
        invariant stocks.Keys == old(stocks).Keys
        invariant forall k :: k in stocks ==>
                    stocks[k] == old(stocks)[k] + if adding then Asked(lines[..n], k) else -Asked(lines[..n], k)
      {
        assert lines[..n + 1] == lines[..n] + [lines[n]];
        assert lines[n] in lines;
        forall k ensures Asked(lines[..n + 1], k) == Asked(lines[..n], k) + QuantityAt(k)(lines[n]) {
          SumPush(lines[..n], lines[n], QuantityAt(k));
        }
        IncrementQuantity(lines[n].key, if adding then lines[n].quantity else -lines[n].quantity);
      }
      assert lines[..|lines|] == lines;
    }

    /** The loop over a document's rows that takes back what each row moved. */
    method ReverseStocks(own: seq<Movement>, adding: bool)
      requires forall m :: m in own ==> m.key in stocks
      modifies this`stocks
      ensures stocks == Reversed(old(stocks), own, adding)
    {
      for n := 0 to |own|
        invariant stocks.Keys == old(stocks).Keys
        invariant forall k :: k in stocks ==>
                    stocks[k] == old(stocks)[k] + if adding then -Moved(own[..n], k) else Moved(own[..n], k)
      {
        assert own[..n + 1] == own[..n] + [own[n]];
        assert own[n] in own;
        forall k ensures Moved(own[..n + 1], k) == Moved(own[..n], k) + MovedAt(k)(own[n]) {
          SumPush(own[..n], own[n], MovedAt(k));
        }
        IncrementQuantity(own[n].key, if adding then -own[n].quantity else own[n].quantity);
      }
      assert own[..|own|] == own;
    }

    /** createTransaction joined to the caller's transaction. */
    method CreateTransaction(p: Ledger.Params, rid: Id) returns (error: Option<Error>)
      requires rid !in db.used
      modifies this`db
      ensures error == ErrorOf(Post(old(Books()), p, rid))
      ensures error == Some(Unprocessable) <==>
                p.account in old(db.accounts) && !(p.account in status && status[p.account] == Ledger.ACTIVE)
      ensures error.None? ==> Books() == Post(old(Books()), p, rid).value
      ensures error.Some? ==> db == old(db)
    {
      if p.account !in db.accounts {
        return Some(NotFound);
      }
      if p.account !in status || status[p.account] != Ledger.ACTIVE {
        return Some(Unprocessable);
      }
      var before := db.accounts[p.account];
      var account := new LedgerService.BankAccountEntity(before);
      var ok := account.Apply(p.kind, p.amount);
      if !ok {
        return Some(EntityError);
      }
      var written := Ledger.Write(db, p.account, account.balance);
      db := Ledger.InsertRecord(written, Ledger.Record(rid, p, before.balance, account.balance));
      error := None;
    }
  }

  lemma IntersectionFull(a: set<Id>, b: set<Id>)
    ensures |a * b| == |a| <==> a <= b
  {
    assert a * b + (a - b) == a;
    assert |a| == |a * b| + |a - b|;
    if |a * b| == |a| {
      assert a - b == {};
      assert a <= b;
    }
    assert a <= b ==> a * b == a;
  }

  /** Products are counted, once each, and compared with the number of distinct products asked for. */
  method ProductsOf(lines: seq<Line>) returns (products: set<Id>)
    ensures forall p :: p in products <==> exists l :: l in lines && l.key.product == p
  {
    products := {};
    for n := 0 to |lines|
      invariant forall p :: p in products <==> exists j :: 0 <= j < n && lines[j].key.product == p
    {
      products := products + {lines[n].key.product};
    }
    forall p ensures p in products <==> exists l :: l in lines && l.key.product == p {
      if p in products {
        var j :| 0 <= j < |lines| && lines[j].key.product == p;
        assert lines[j] in lines;
      }
      if l :| l in lines && l.key.product == p {
        var j :| 0 <= j < |lines| && lines[j] == l;
        assert lines[j].key.product == p;
      }
    }
  }

  class SalesService {
    const tables: Tables

    constructor (t: Tables)
      ensures tables == t
    {
      tables := t;
    }

    /** Products are validated first; then every line must find an existing stock row. */
    method ResolveStocks(lines: seq<Line>) returns (error: Option<Error>)
      ensures error == if !Known(tables.catalog, lines) then Some(BadRequest)
                       else if !Stocked(tables.stocks, lines) then Some(Unprocessable) else None
    {
      var products := ProductsOf(lines);
      IntersectionFull(products, tables.catalog.Keys);
      if |products * tables.catalog.Keys| != |products| {
        var p :| p in products && p !in tables.catalog.Keys;
        return Some(BadRequest);
      }
      var stockMap: set<StockKey> := {};
      for n := 0 to |lines|
        invariant forall j :: 0 <= j < n ==> lines[j].key in tables.stocks
        invariant forall k :: k in stockMap ==> k in tables.stocks
      {
        if lines[n].key !in stockMap {
          if lines[n].key !in tables.stocks {
            assert lines[n] in lines;
            return Some(Unprocessable);
          }
          stockMap := stockMap + {lines[n].key};
        }
      }
      error := None;
    }

    /** Requested quantities are totalled per stock, then each total is compared with that stock. */
    method ValidateSufficientStock(lines: seq<Line>) returns (ok: bool)
      requires Stocked(tables.stocks, lines)
      ensures ok <==> Sufficient(tables.stocks, lines)
    {
      var totalByStock: map<StockKey, real> := map[];
      for n := 0 to |lines|
        invariant forall k :: k in totalByStock <==> exists j :: 0 <= j < n && lines[j].key == k
        invariant forall k :: k in totalByStock ==> totalByStock[k] == Asked(lines[..n], k)
        invariant forall k :: k !in totalByStock ==> Asked(lines[..n], k) == 0.0
      {
        var k := lines[n].key;
        var current := if k in totalByStock then totalByStock[k] else 0.0;
        assert lines[..n + 1] == lines[..n] + [lines[n]];
        forall j ensures Asked(lines[..n + 1], j) == Asked(lines[..n], j) + QuantityAt(j)(lines[n]) {
          SumPush(lines[..n], lines[n], QuantityAt(j));
        }
        totalByStock := totalByStock[k := current + lines[n].quantity];
      }
      assert lines[..|lines|] == lines;
      ok := CoversAll(totalByStock, lines);
    }

    method CoversAll(totalByStock: map<StockKey, real>, lines: seq<Line>) returns (ok: bool)
      requires Stocked(tables.stocks, lines)
      requires forall k :: k in totalByStock <==> exists j :: 0 <= j < |lines| && lines[j].key == k
      requires forall k :: k in totalByStock ==> totalByStock[k] == Asked(lines, k)
      ensures ok <==> Sufficient(tables.stocks, lines)
    {
      var left := totalByStock.Keys;
      while left != {}
        invariant left <= totalByStock.Keys
        invariant forall k :: k in totalByStock && k !in left && k in tables.stocks ==> tables.stocks[k] >= totalByStock[k]
        decreases |left|
      {
        var k :| k in left;
        if k in tables.stocks && tables.stocks[k] < totalByStock[k] {
          var j :| 0 <= j < |lines| && lines[j].key == k;
          assert lines[j] in lines;
          return false;
        }
        left := left - {k};
      }
      forall l | l in lines ensures tables.stocks[l.key] >= Asked(lines, l.key) {
        var j :| 0 <= j < |lines| && lines[j] == l;
        assert l.key in totalByStock;
      }
      ok := true;
    }

    method CheckStock(lines: seq<Line>) returns (error: Option<Error>)
      ensures error == StockRefusal(tables.Shop().warehouse, lines)
    {
      error := ResolveStocks(lines);
      if error.Some? {
        return;
      }
      var ok := ValidateSufficientStock(lines);
      if !ok {
        return Some(Unprocessable);
      }
    }

    /** Rows in bulk, then one decrement per line. */
    method RecordItems(id: Id, lines: seq<Line>)
      requires Stocked(tables.stocks, lines)
      modifies tables`stocks, tables`movements
      ensures tables.Shop().warehouse == Move(old(tables.Shop().warehouse), lines, MovementType.SALE, BySale(id))
    {
      tables.CreateMany(lines, MovementType.SALE, BySale(id));
      tables.MoveStocks(lines, false);
    }

    method Create(id: Id, rid: Id, q: SaleRequest) returns (error: Option<Error>)
      requires id !in tables.sales && rid !in tables.db.used
      modifies tables
      ensures error == ErrorOf(SaleCreate(old(tables.Shop()), id, rid, q))
      ensures tables.Shop() == After(old(tables.Shop()), SaleCreate(old(tables.Shop()), id, rid, q))
    {
      if q.status == COMPLETED {
        if q.account.None? {
          return Some(BadRequest);
        }
        if !q.hasMethod {
          return Some(BadRequest);
        }
      }
      if q.client.Some? && q.client.value !in tables.clients {
        return Some(NotFound);
      }
      var lines := Lines(q.items);
      if q.discount.Inapplicable? {
        return Some(BadRequest);
      }
      error := CheckStock(lines);
      if error.Some? {
        return;
      }
      var savedStocks, savedMovements, savedSales := tables.stocks, tables.movements, tables.sales;
      var sale := NewSale(q);
      tables.sales := tables.sales[id := sale];
      RecordItems(id, lines);
      if q.status == COMPLETED {
        error := Credit(id, sale, q.account.value, rid);
        if error.Some? {
          tables.stocks, tables.movements, tables.sales := savedStocks, savedMovements, savedSales;
        }
      }
    }

    method Credit(id: Id, sale: Sale, account: Id, rid: Id) returns (error: Option<Error>)
      requires rid !in tables.db.used
      modifies tables`db, tables`sales
      ensures error == ErrorOf(CreditSale(old(tables.Shop()), id, sale, account, rid))
      ensures tables.Shop() == After(old(tables.Shop()), CreditSale(old(tables.Shop()), id, sale, account, rid))
    {
      error := tables.CreateTransaction(Ledger.Params(account, Ledger.CREDIT, sale.total, Ledger.Operation.SALE), rid);
      if error.None? {
        tables.sales := tables.sales[id := sale.(status := COMPLETED, tx := Some(rid))];
      }
    }

    method Complete(id: Id, account: Id, rid: Id) returns (error: Option<Error>)
      requires rid !in tables.db.used
      modifies tables`db, tables`sales
      ensures error == ErrorOf(SaleComplete(old(tables.Shop()), id, account, rid))
      ensures tables.Shop() == After(old(tables.Shop()), SaleComplete(old(tables.Shop()), id, account, rid))
    {
      if id !in tables.sales {
        return Some(NotFound);
      }
      if tables.sales[id].status != PENDING {
        return Some(Conflict);
      }
      error := Credit(id, tables.sales[id], account, rid);
    }

    method AddItems(id: Id, items: seq<Item>) returns (error: Option<Error>)
      modifies tables`sales, tables`stocks, tables`movements
      ensures error == ErrorOf(SaleAddItems(old(tables.Shop()), id, items))
      ensures tables.Shop() == After(old(tables.Shop()), SaleAddItems(old(tables.Shop()), id, items))
    {
      if id !in tables.sales {
        return Some(NotFound);
      }
      var sale := tables.sales[id];
      if sale.status != PENDING {
        return Some(Conflict);
      }
      var lines := Lines(items);
      error := CheckStock(lines);
      if error.Some? {
        return;
      }
      var newTotal := sale.total + CalcTotal(lines);
      RecordItems(id, lines);
      tables.sales := tables.sales[id := sale.(total := newTotal)];
    }

    /** Restore the stocks row by row and delete the rows. */
    method Restore(id: Id)
      requires tables.RowsHaveStocks()
      modifies tables`stocks, tables`movements
      ensures tables.Shop().warehouse == Unmove(old(tables.Shop().warehouse), BySale(id), false)
    {
      tables.ReverseStocks(Keep(tables.movements, With(BySale(id))), false);
      tables.movements := Keep(tables.movements, Not(With(BySale(id))));
    }

    method Remove(id: Id, rid: Id) returns (error: Option<Error>)
      requires tables.RowsHaveStocks() && rid !in tables.db.used
      modifies tables
      ensures error == ErrorOf(SaleRemove(old(tables.Shop()), id, rid))
      ensures tables.Shop() == After(old(tables.Shop()), SaleRemove(old(tables.Shop()), id, rid))
    {
      if id !in tables.sales {
        return Some(NotFound);
      }
      var sale := tables.sales[id];
      if sale.status == CANCELLED {
        return Some(Conflict);
      }
      var savedStocks, savedMovements := tables.stocks, tables.movements;
      Restore(id);
      if sale.status == PENDING {
        tables.sales := tables.sales - {id};
        return None;
      }
      if sale.tx.None? || sale.tx.value !in tables.db.records {
        error := Some(Conflict);
      } else {
        var account := tables.db.records[sale.tx.value].params.account;
        error := tables.CreateTransaction(Ledger.Params(account, Ledger.DEBIT, sale.total, Ledger.REFUND), rid);
      }
      if error.Some? {
        tables.stocks, tables.movements := savedStocks, savedMovements;
      } else {
        tables.sales := tables.sales[id := sale.(status := CANCELLED)];
      }
    }
  }

  class ProductPurchasesService {
    const tables: Tables

    constructor (t: Tables)
      ensures tables == t
    {
      tables := t;
    }

    /** Validate the products, then upsert a stock row for every line not seen before. */
    method GetOrCreateStocks(lines: seq<Line>) returns (error: Option<Error>)
      modifies tables`stocks
      ensures error == PurchaseRefusal(old(tables.Shop().warehouse), lines)
      ensures tables.stocks == if error.None? then WithStocks(old(tables.stocks), lines) else old(tables.stocks)
    {
      var products := ProductsOf(lines);
      IntersectionFull(products, tables.catalog.Keys);
      if |products * tables.catalog.Keys| != |products| {
        var p :| p in products && p !in tables.catalog.Keys;
        return Some(BadRequest);
      }
      var notPurchasable := set p | p in products && p in tables.catalog && !tables.catalog[p];
      if notPurchasable != {} {
        var p :| p in notPurchasable;
        var l :| l in lines && l.key.product == p;
        return Some(BadRequest);
      }
      assert forall l :: l in lines ==> l.key.product in products && l.key.product !in notPurchasable;
      var stockMap: set<StockKey> := {};
      for n := 0 to |lines|
        invariant tables.stocks == WithStocks(old(tables.stocks), lines[..n])
        invariant forall k :: k in stockMap ==> k in tables.stocks
      {
        assert lines[..n + 1][..n] == lines[..n];
        if lines[n].key !in stockMap {
          tables.Upsert(lines[n].key);
          stockMap := stockMap + {lines[n].key};
        }
      }
      assert lines[..|lines|] == lines;
      error := None;
    }

    method RecordItems(id: Id, lines: seq<Line>)
      requires Stocked(tables.stocks, lines)
      modifies tables`stocks, tables`movements
      ensures tables.Shop().warehouse == Move(old(tables.Shop().warehouse), lines, MovementType.PURCHASE, ByPurchase(id))
    {
      tables.CreateMany(lines, MovementType.PURCHASE, ByPurchase(id));
      tables.MoveStocks(lines, true);
    }

    method Create(id: Id, rid: Id, q: PurchaseRequest) returns (error: Option<Error>)
      requires id !in tables.purchases && rid !in tables.db.used
      modifies tables
      ensures error == ErrorOf(PurchaseCreate(old(tables.Shop()), id, rid, q))
      ensures tables.Shop() == After(old(tables.Shop()), PurchaseCreate(old(tables.Shop()), id, rid, q))
    {
      if q.status == COMPLETED && q.account.None? {
        return Some(BadRequest);
      }
      var lines := Lines(q.items);
      var totalAmount := CalcTotal(lines);
      var savedStocks, savedMovements, savedPurchases := tables.stocks, tables.movements, tables.purchases;
      error := GetOrCreateStocks(lines);
      if error.Some? {
        return;
      }
      var purchase := Purchase(q.status, totalAmount, None);
      tables.purchases := tables.purchases[id := purchase];
      var itemsToProcess := lines;
      if q.status == PENDING {
        itemsToProcess := ConsolidateLines(lines);
      }
      NewStocksCover(savedStocks, q.status, lines);
      RecordItems(id, itemsToProcess);
      if q.status == COMPLETED {
        error := Debit(id, purchase, q.account.value, rid);
        if error.Some? {
          tables.stocks, tables.movements, tables.purchases := savedStocks, savedMovements, savedPurchases;
        }
      }
    }

    method Debit(id: Id, purchase: Purchase, account: Id, rid: Id) returns (error: Option<Error>)
      requires rid !in tables.db.used
      modifies tables`db, tables`purchases
      ensures error == ErrorOf(DebitPurchase(old(tables.Shop()), id, purchase, account, rid))
      ensures tables.Shop() == After(old(tables.Shop()), DebitPurchase(old(tables.Shop()), id, purchase, account, rid))
    {
      error := tables.CreateTransaction(Ledger.Params(account, Ledger.DEBIT, purchase.total, Ledger.Operation.PURCHASE), rid);
      if error.None? {
        tables.purchases := tables.purchases[id := purchase.(status := COMPLETED, tx := Some(rid))];
      }
    }

    method Complete(id: Id, account: Id, rid: Id) returns (error: Option<Error>)
      requires rid !in tables.db.used
      modifies tables`db, tables`purchases
      ensures error == ErrorOf(PurchaseComplete(old(tables.Shop()), id, account, rid))
      ensures tables.Shop() == After(old(tables.Shop()), PurchaseComplete(old(tables.Shop()), id, account, rid))
    {
      if id !in tables.purchases {
        return Some(NotFound);
      }
      if tables.purchases[id].status != PENDING {
        return Some(Conflict);
      }
      error := Debit(id, tables.purchases[id], account, rid);
    }

    method Reverse(id: Id)
      requires tables.RowsHaveStocks()
      modifies tables`stocks, tables`movements
      ensures tables.Shop().warehouse == Unmove(old(tables.Shop().warehouse), ByPurchase(id), true)
    {
      tables.ReverseStocks(Keep(tables.movements, With(ByPurchase(id))), true);
      tables.movements := Keep(tables.movements, Not(With(ByPurchase(id))));
    }

    method AddItems(id: Id, items: seq<Item>) returns (error: Option<Error>)
      requires tables.RowsHaveStocks()
      modifies tables`purchases, tables`stocks, tables`movements
      ensures error == ErrorOf(PurchaseAddItems(old(tables.Shop()), id, items))
      ensures tables.Shop() == After(old(tables.Shop()), PurchaseAddItems(old(tables.Shop()), id, items))
    {
      if id !in tables.purchases {
        return Some(NotFound);
      }
      var purchase := tables.purchases[id];
      if purchase.status != PENDING {
        return Some(Conflict);
      }
      var consolidatedInput := ConsolidateLines(Lines(items));
      error := GetOrCreateStocks(consolidatedInput);
      if error.Some? {
        return;
      }
      NewStocksCover(old(tables.stocks), COMPLETED, consolidatedInput);
      Reverse(id);
      RecordItems(id, consolidatedInput);
      tables.purchases := tables.purchases[id := purchase.(total := CalcTotal(consolidatedInput))];
    }

    method Remove(id: Id, rid: Id) returns (error: Option<Error>)
      requires tables.RowsHaveStocks() && rid !in tables.db.used
      modifies tables
      ensures error == ErrorOf(PurchaseRemove(old(tables.Shop()), id, rid))
      ensures tables.Shop() == After(old(tables.Shop()), PurchaseRemove(old(tables.Shop()), id, rid))
    {
      if id !in tables.purchases {
        return Some(NotFound);
      }
      var purchase := tables.purchases[id];
      if purchase.status == CANCELLED {
        return Some(Conflict);
      }
      var savedStocks, savedMovements := tables.stocks, tables.movements;
      Reverse(id);
      if purchase.status == PENDING {
        tables.purchases := tables.purchases - {id};
        return None;
      }
      if purchase.tx.None? || purchase.tx.value !in tables.db.records {
        error := Some(Conflict);
      } else {
        var account := tables.db.records[purchase.tx.value].params.account;
        error := tables.CreateTransaction(Ledger.Params(account, Ledger.CREDIT, purchase.total, Ledger.REFUND), rid);
      }
      if error.Some? {
        tables.stocks, tables.movements := savedStocks, savedMovements;
      } else {
        tables.purchases := tables.purchases[id := purchase.(status := CANCELLED)];
      }
    }
  }

  lemma NewStocksCover(stocks: Stocks, status: DocStatus, lines: seq<Line>)
    ensures Stocked(WithStocks(stocks, lines), lines) && Stocked(WithStocks(stocks, lines), Processed(status, lines))
  {
    ConsolidatedLines(lines);
    forall l | l in Consolidate(lines) ensures l.key in WithStocks(stocks, lines) {
      assert Named(Consolidate(lines), l.key);
    }
  }

  class ExpensesService {
    const tables: Tables

    constructor (t: Tables)
      ensures tables == t
    {
      tables := t;
    }

    method Create(id: Id, rid: Id, account: Id, category: Id, amount: real) returns (error: Option<Error>)
      requires id !in tables.expenses && rid !in tables.db.used
      modifies tables`db, tables`expenses
      ensures error == ErrorOf(ExpenseCreate(old(tables.Shop()), id, rid, account, category, amount))
      ensures tables.Shop() == After(old(tables.Shop()), ExpenseCreate(old(tables.Shop()), id, rid, account, category, amount))
    {
      if category !in tables.categories {
        return Some(NotFound);
      }
      if !tables.categories[category] {
        return Some(BadRequest);
      }
      if account !in tables.db.accounts {
        return Some(NotFound);
      }
      error := tables.CreateTransaction(Ledger.Params(account, Ledger.DEBIT, amount, Ledger.EXPENSE), rid);
      if error.None? {
        tables.expenses := tables.expenses[id := Expense(account, category, amount, Some(rid))];
      }
    }

    method Update(id: Id, category: Option<Id>) returns (error: Option<Error>)
      modifies tables`expenses
      ensures error == ErrorOf(ExpenseUpdate(old(tables.Shop()), id, category))
      ensures tables.Shop() == After(old(tables.Shop()), ExpenseUpdate(old(tables.Shop()), id, category))
    {
      if id !in tables.expenses {
        return Some(NotFound);
      }
      var current := tables.expenses[id];
      if category.None? {
        return None;
      }
      if category.value != current.category {
        if category.value !in tables.categories {
          return Some(NotFound);
        }
        if !tables.categories[category.value] {
          return Some(BadRequest);
        }
      }
      tables.expenses := tables.expenses[id := current.(category := category.value)];
      error := None;
    }

    method Remove(id: Id, rid: Id) returns (error: Option<Error>)
      requires rid !in tables.db.used
      modifies tables`db, tables`expenses
      ensures error == ErrorOf(ExpenseRemove(old(tables.Shop()), id, rid))
      ensures tables.Shop() == After(old(tables.Shop()), ExpenseRemove(old(tables.Shop()), id, rid))
    {
      if id !in tables.expenses {
        return Some(NotFound);
      }
      var record := tables.expenses[id];
      error := None;
      if record.tx.Some? {
        error := tables.CreateTransaction(Ledger.Params(record.account, Ledger.CREDIT, record.amount, Ledger.REFUND), rid);
      }
      if error.None? {
        tables.expenses := tables.expenses - {id};
      }
    }
  }

  class ProductStockEntity {
    var quantity: real

    constructor (raw: real)
      ensures quantity == raw
    {
      quantity := raw;
    }

    method ApplyMovement(amount: real, add: bool)
      modifies this
      ensures quantity == if add then old(quantity) + amount else old(quantity) - amount
    {
      quantity := if add then quantity + amount else quantity - amount;
    }
  }

  /** Why a movement by hand is refused, if it is. */
  function MovementRefusal(stocks: Stocks, k: StockKey, product: Id): Option<Error> {
    if k !in stocks then Some(NotFound) else if k.product != product then Some(BadRequest) else None
  }

  class InventoryMovementsService {
    const tables: Tables

    constructor (t: Tables)
      ensures tables == t
    {
      tables := t;
    }

    /** The four callers differ only in the movement type, which decides the direction. */
    method ProcessMovement(k: StockKey, product: Id, quantity: real, kind: MovementType) returns (error: Option<Error>)
      modifies tables`stocks, tables`movements
      ensures error == MovementRefusal(old(tables.stocks), k, product)
      ensures error == ErrorOf(HandMove(old(tables.Shop().warehouse), k, product, quantity, kind))
      ensures tables.Shop() == After(old(tables.Shop()),
                                     InWarehouse(old(tables.Shop()), HandMove(old(tables.Shop().warehouse), k, product, quantity, kind)))
    {
      if k !in tables.stocks {
        return Some(NotFound);
      }
      if k.product != product {
        return Some(BadRequest);
      }
      var stock := new ProductStockEntity(tables.stocks[k]);
      stock.ApplyMovement(quantity, Adds(kind));
      tables.stocks := tables.stocks[k := stock.quantity];
      tables.CreateMany([HandLine(k, quantity)], kind, ByHand);
      error := None;
    }

    method CreateAdjustment(k: StockKey, product: Id, quantity: real) returns (error: Option<Error>)
      modifies tables`stocks, tables`movements
      ensures error == MovementRefusal(old(tables.stocks), k, product)
      ensures tables.Shop() == Next(old(tables.Shop()), MoveByHand(k, product, quantity, MovementType.ADJUSTMENT))
      ensures error.None? ==> tables.stocks == old(tables.stocks)[k := old(tables.stocks)[k] + quantity]
    {
      error := ProcessMovement(k, product, quantity, MovementType.ADJUSTMENT);
    }

    method CreateWaste(k: StockKey, product: Id, quantity: real) returns (error: Option<Error>)
      modifies tables`stocks, tables`movements
      ensures error == MovementRefusal(old(tables.stocks), k, product)
      ensures tables.Shop() == Next(old(tables.Shop()), MoveByHand(k, product, quantity, WASTE))
      ensures error.None? ==> tables.stocks == old(tables.stocks)[k := old(tables.stocks)[k] - quantity]
    {
      error := ProcessMovement(k, product, quantity, WASTE);
    }

    method CreateTests(k: StockKey, product: Id, quantity: real) returns (error: Option<Error>)
      modifies tables`stocks, tables`movements
      ensures error == MovementRefusal(old(tables.stocks), k, product)
      ensures tables.Shop() == Next(old(tables.Shop()), MoveByHand(k, product, quantity, TESTS))
      ensures error.None? ==> tables.stocks == old(tables.stocks)[k := old(tables.stocks)[k] - quantity]
    {
      error := ProcessMovement(k, product, quantity, TESTS);
    }

    method CreateProduction(k: StockKey, product: Id, quantity: real) returns (error: Option<Error>)
      modifies tables`stocks, tables`movements
      ensures error == MovementRefusal(old(tables.stocks), k, product)
      ensures tables.Shop() == Next(old(tables.Shop()), MoveByHand(k, product, quantity, PRODUCTION))
      ensures error.None? ==> tables.stocks == old(tables.stocks)[k := old(tables.stocks)[k] + quantity]
    {
      error := ProcessMovement(k, product, quantity, PRODUCTION);
    }
  }
}

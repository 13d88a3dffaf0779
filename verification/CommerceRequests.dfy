/**
 The requests of module Commerce in the caller's own terms: which stocks the items of a
 document move, which accounts a request may touch, and what each refusal means.
 */
module CommerceRequests {
  import opened Options
  import opened Sums
  import opened Inventory
  import opened Consolidation
  import opened Commerce
  import Ledger
  import CommerceStocks

  // ----- The items of a request -----

  /** Where an item is kept: an empty location stands for the main one. */
  function Place(i: Item): string {
    if i.location == "" then "Principal" else i.location
  }

  function At(product: Id, location: string): Item -> real {
    (i: Item) => if i.product == product && Place(i) == location then i.quantity else 0.0
  }

  /** The quantity that the items of one product at one place ask for. */
  function Requested(items: seq<Item>, product: Id, location: string): real {
    Sum(items, At(product, location))
  }

  function Price(): Item -> real {
    (i: Item) => if i.unit.Some? then i.unit.value * i.quantity else 0.0
  }

  lemma {:induction false} AskedIsRequested(items: seq<Item>, k: StockKey)
    ensures Asked(Lines(items), k) == Requested(items, k.product, k.location)
  {
    if |items| > 0 {
      var n := |items| - 1;
      AskedIsRequested(items[..n], k);
      assert Lines(items)[..n] == Lines(items[..n]);
    }
  }

  /** A document is worth the sum of unit price times quantity over its items. */
  lemma {:induction false} TotalIsPrices(items: seq<Item>)
    ensures CalcTotal(Lines(items)) == Sum(items, Price())
  {
    if |items| > 0 {
      var n := |items| - 1;
      TotalIsPrices(items[..n]);
      assert Lines(items)[..n] == Lines(items[..n]);
    }
  }

  function Level(stocks: Stocks, product: Id, location: string): real {
    var k := StockKey(product, location);
    if k in stocks then stocks[k] else 0.0
  }

  /** An accepted purchase raises the stock of a product at a place by the items it has there, and no other stock. */
  lemma PurchaseRaises(s: Shop, id: Id, rid: Id, q: PurchaseRequest, product: Id, location: string)
    requires PurchaseCreate(s, id, rid, q).Done?
    ensures Level(PurchaseCreate(s, id, rid, q).value.warehouse.stocks, product, location)
         == Level(s.warehouse.stocks, product, location) + Requested(q.items, product, location)
  {
    var k, lines := StockKey(product, location), Lines(q.items);
    CommerceStocks.PurchaseShape(s, id, rid, q);
    AskedIsRequested(q.items, k);
    ConsolidatedQuantity(lines, k);
    if k !in WithStocks(s.warehouse.stocks, lines) {
      AskedNothing(lines, k);
    }
  }

  /** An accepted sale lowers it by them. */
  lemma SaleLowers(s: Shop, id: Id, rid: Id, q: SaleRequest, product: Id, location: string)
    requires SaleCreate(s, id, rid, q).Done?
    ensures Level(SaleCreate(s, id, rid, q).value.warehouse.stocks, product, location)
         == Level(s.warehouse.stocks, product, location) - Requested(q.items, product, location)
  {
    MovedOut(s.warehouse.stocks, q.items, product, location);
  }

  lemma AddedItemsLower(s: Shop, id: Id, items: seq<Item>, product: Id, location: string)
    requires SaleAddItems(s, id, items).Done?
    ensures Level(SaleAddItems(s, id, items).value.warehouse.stocks, product, location)
         == Level(s.warehouse.stocks, product, location) - Requested(items, product, location)
  {
    MovedOut(s.warehouse.stocks, items, product, location);
  }

  lemma MovedOut(stocks: Stocks, items: seq<Item>, product: Id, location: string)
    requires Inventory.Stocked(stocks, Lines(items))
    ensures Level(Decreased(stocks, Lines(items)), product, location)
         == Level(stocks, product, location) - Requested(items, product, location)
  {
    var k := StockKey(product, location);
    AskedIsRequested(items, k);
    if k !in stocks {
      AskedNothing(Lines(items), k);
    }
  }

  /** Replacing the items of a purchase moves it by the new items less the replaced rows. */
  lemma ReplacementMoves(s: Shop, id: Id, items: seq<Item>, product: Id, location: string)
    requires PurchaseAddItems(s, id, items).Done? && StockKey(product, location) in s.warehouse.stocks
    ensures Level(PurchaseAddItems(s, id, items).value.warehouse.stocks, product, location)
         == Level(s.warehouse.stocks, product, location) + Requested(items, product, location)
            - Moved(CommerceStocks.Own(s.warehouse, ByPurchase(id)), StockKey(product, location))
  {
    AskedIsRequested(items, StockKey(product, location));
    CommerceStocks.ReplacedStocks(s.warehouse, id, items, StockKey(product, location));
  }

  // ----- Only ACTIVE accounts move -----

  predicate Active(b: Books, a: Id) {
    a in b.status && b.status[a] == Ledger.ACTIVE
  }

  /** No account's balance or version moves unless it is ACTIVE. */
  predicate OnlyActive(b: Books, c: Books) {
    forall a :: a in b.db.accounts ==> a in c.db.accounts && (c.db.accounts[a] == b.db.accounts[a] || Active(b, a))
  }

  lemma PostOnlyActive(b: Books, p: Ledger.Params, rid: Id)
    ensures Post(b, p, rid).Done? ==> OnlyActive(b, Post(b, p, rid).value)
    ensures HandPost(b, p, rid).Done? ==> OnlyActive(b, HandPost(b, p, rid).value)
  {}

  lemma OtherBooksOnlyActive(b: Books, id: Id)
    ensures HandRemove(b, id).Done? ==> OnlyActive(b, HandRemove(b, id).value)
    ensures BooksOpen(b, id).Done? ==> OnlyActive(b, BooksOpen(b, id).value)
  {}

  /** What a request does to the books: nothing, or one of these. */
  ghost predicate BooksStep(b: Books, c: Books) {
    c.db == b.db || (exists p, rid :: Post(b, p, rid) == Done(c))
  }

  lemma SaleBooks(s: Shop, q: Request)
    requires AboutSale(q)
    ensures BooksStep(s.books, Next(s, q).books)
  {
  }

  lemma PurchaseBooks(s: Shop, q: Request)
    requires AboutPurchase(q)
    ensures BooksStep(s.books, Next(s, q).books)
  {
  }

  lemma ExpenseBooks(s: Shop, q: Request)
    requires q.CreateExpense? || q.UpdateExpense? || q.RemoveExpense?
    ensures BooksStep(s.books, Next(s, q).books)
  {
  }

  lemma RestBooks(s: Shop, q: Request)
    requires !AboutSale(q) && !AboutPurchase(q) && !q.CreateExpense? && !q.UpdateExpense? && !q.RemoveExpense?
    ensures OnlyActive(s.books, Next(s, q).books)
  {
    match q
    case PostByHand(p, rid) => PostOnlyActive(s.books, p, rid);
    case RemoveByHand(rid) => OtherBooksOnlyActive(s.books, rid);
    case OpenAccount(a) => OtherBooksOnlyActive(s.books, a);
    case _ =>
  }

  lemma BooksStepOnlyActive(b: Books, c: Books)
    requires BooksStep(b, c)
    ensures OnlyActive(b, c)
  {
    if c.db != b.db {
      var p, rid :| Post(b, p, rid) == Done(c);
      PostOnlyActive(b, p, rid);
    }
  }

  /** Whatever is requested of the shop, an existing account whose balance or version moves was ACTIVE. */
  lemma MovesOnlyActive(s: Shop, q: Request, a: Id)
    requires a in s.books.db.accounts
    ensures a in Next(s, q).books.db.accounts
    ensures Next(s, q).books.db.accounts[a] != s.books.db.accounts[a] ==>
              a in s.books.status && s.books.status[a] == Ledger.ACTIVE
  {
    if AboutSale(q) {
      SaleBooks(s, q);
      BooksStepOnlyActive(s.books, Next(s, q).books);
    } else if AboutPurchase(q) {
      PurchaseBooks(s, q);
      BooksStepOnlyActive(s.books, Next(s, q).books);
    } else if q.CreateExpense? || q.UpdateExpense? || q.RemoveExpense? {
      ExpenseBooks(s, q);
      BooksStepOnlyActive(s.books, Next(s, q).books);
    } else {
      RestBooks(s, q);
    }
  }

  // ----- What a refusal means -----

  predicate Unknown(w: Warehouse, items: seq<Item>) {
    exists i :: i in items && i.product !in w.catalog
  }

  predicate NotForPurchase(w: Warehouse, items: seq<Item>) {
    exists i :: i in items && i.product in w.catalog && !w.catalog[i.product]
  }

  /** Some item has no stock row where it is kept. */
  predicate NoRow(w: Warehouse, items: seq<Item>) {
    exists i :: i in items && StockKey(i.product, Place(i)) !in w.stocks
  }

  /** Some stock holds less than all items together ask of it. */
  predicate Short(w: Warehouse, items: seq<Item>) {
    exists i :: i in items && Lacks(w.stocks, items, i.product, Place(i))
  }

  predicate Lacks(stocks: Stocks, items: seq<Item>, product: Id, location: string) {
    StockKey(product, location) in stocks && stocks[StockKey(product, location)] < Requested(items, product, location)
  }

  predicate PostCause(b: Books, account: Id, kind: Ledger.Kind, amount: real, rid: Id, e: Error) {
    match e
    case NotFound => account !in b.db.accounts
    case Unprocessable => account in b.db.accounts && !Active(b, account)
    case EntityError =>
      account in b.db.accounts
      && (rid in b.db.used || amount < 0.0 || (kind.DEBIT? && b.db.accounts[account].balance < amount))
    case _ => false
  }

  /** The refund of a completed document goes to the account of the record it is linked to. */
  predicate RefundCause(b: Books, tx: Option<Id>, kind: Ledger.Kind, amount: real, rid: Id, e: Error) {
    if tx.None? || tx.value !in b.db.records then e == Conflict
    else PostCause(b, b.db.records[tx.value].params.account, kind, amount, rid, e)
  }

  predicate SaleCause(s: Shop, rid: Id, q: SaleRequest, e: Error) {
    (e == BadRequest && q.status == COMPLETED && (q.account.None? || !q.hasMethod))
    || (e == NotFound && q.client.Some? && q.client.value !in s.clients)
    || (e == BadRequest && (q.discount.Inapplicable? || Unknown(s.warehouse, q.items)))
    || (e == Unprocessable && (NoRow(s.warehouse, q.items) || Short(s.warehouse, q.items)))
    || (q.status == COMPLETED && q.account.Some?
        && PostCause(s.books, q.account.value, Ledger.CREDIT, NewSale(q).total, rid, e))
  }

  predicate AddItemsCause(s: Shop, id: Id, items: seq<Item>, e: Error) {
    (e == NotFound && id !in s.sales)
    || (e == Conflict && id in s.sales && s.sales[id].status != PENDING)
    || (e == BadRequest && Unknown(s.warehouse, items))
    || (e == Unprocessable && (NoRow(s.warehouse, items) || Short(s.warehouse, items)))
  }

  predicate PurchaseCause(s: Shop, rid: Id, q: PurchaseRequest, e: Error) {
    (e == BadRequest && q.status == COMPLETED && q.account.None?)
    || (e == BadRequest && (Unknown(s.warehouse, q.items) || NotForPurchase(s.warehouse, q.items)))
    || (q.status == COMPLETED && q.account.Some?
        && PostCause(s.books, q.account.value, Ledger.DEBIT, Sum(q.items, Price()), rid, e))
  }

  predicate ReplaceCause(s: Shop, id: Id, items: seq<Item>, e: Error) {
    (e == NotFound && id !in s.purchases)
    || (e == Conflict && id in s.purchases && s.purchases[id].status != PENDING)
    || (e == BadRequest && (Unknown(s.warehouse, items) || NotForPurchase(s.warehouse, items)))
  }

  predicate CompleteCause(b: Books, found: bool, status: DocStatus, kind: Ledger.Kind, total: real, account: Id, rid: Id, e: Error) {
    if !found then e == NotFound
    else if status != PENDING then e == Conflict
    else PostCause(b, account, kind, total, rid, e)
  }

  predicate CancelCause(b: Books, status: DocStatus, tx: Option<Id>, kind: Ledger.Kind, total: real, rid: Id, e: Error) {
    (e == Conflict && status == CANCELLED)
    || (status == COMPLETED && RefundCause(b, tx, kind, total, rid, e))
  }

  predicate CategoryCause(s: Shop, category: Id, e: Error) {
    (e == NotFound && category !in s.categories)
    || (e == BadRequest && category in s.categories && !s.categories[category])
  }

  lemma ItemsKnown(catalog: map<Id, bool>, stocks: Stocks, items: seq<Item>)
    ensures var w := Warehouse(catalog, stocks, []); var lines := Lines(items);
            (Known(catalog, lines) <==> !Unknown(w, items))
            && (Purchasable(catalog, lines) <==> !NotForPurchase(w, items))
            && (Inventory.Stocked(stocks, lines) <==> !NoRow(w, items))
  {
    var lines := Lines(items);
    forall i | i in items ensures Line(StockKey(i.product, Place(i)), i.quantity, i.unit) in lines {
      var n :| 0 <= n < |items| && items[n] == i;
      assert lines[n] == Line(StockKey(i.product, Place(i)), i.quantity, i.unit);
    }
    forall l | l in lines ensures exists i :: i in items && l == Line(StockKey(i.product, Place(i)), i.quantity, i.unit) {
      var n :| 0 <= n < |lines| && lines[n] == l;
      assert items[n] in items;
    }
  }

  lemma ItemsShort(w: Warehouse, items: seq<Item>)
    ensures Sufficient(w.stocks, Lines(items)) <==> !Short(w, items)
  {
    var lines := Lines(items);
    forall i | i in items
      ensures Lacks(w.stocks, items, i.product, Place(i))
         <==> var k := StockKey(i.product, Place(i)); k in w.stocks && w.stocks[k] < Asked(lines, k)
    {
      AskedIsRequested(items, StockKey(i.product, Place(i)));
    }
    forall i | i in items ensures Line(StockKey(i.product, Place(i)), i.quantity, i.unit) in lines {
      var n :| 0 <= n < |items| && items[n] == i;
      assert lines[n] == Line(StockKey(i.product, Place(i)), i.quantity, i.unit);
    }
    forall l | l in lines ensures exists i :: i in items && l == Line(StockKey(i.product, Place(i)), i.quantity, i.unit) {
      var n :| 0 <= n < |lines| && lines[n] == l;
      assert items[n] in items;
    }
  }

  lemma StockRefused(w: Warehouse, items: seq<Item>)
    ensures StockRefusal(w, Lines(items))
         == if Unknown(w, items) then Some(BadRequest)
            else if NoRow(w, items) || Short(w, items) then Some(Unprocessable) else None
  {
    ItemsKnown(w.catalog, w.stocks, items);
    ItemsShort(w, items);
  }

  lemma PurchaseRefused(w: Warehouse, items: seq<Item>)
    ensures PurchaseRefusal(w, Lines(items)).Some? <==> Unknown(w, items) || NotForPurchase(w, items)
    ensures PurchaseRefusal(w, Lines(items)).Some? ==> PurchaseRefusal(w, Lines(items)).value == BadRequest
  {
    ItemsKnown(w.catalog, w.stocks, items);
  }

  lemma PostRefused(b: Books, p: Ledger.Params, rid: Id, e: Error)
    ensures Post(b, p, rid) == Refused(e) ==> PostCause(b, p.account, p.kind, p.amount, rid, e)
    ensures Post(b, p, rid).Done? ==> !PostCause(b, p.account, p.kind, p.amount, rid, e)
  {}

  /** A new sale is refused exactly when there is a cause to, and with the error of one. */
  lemma SaleRefusedFor(s: Shop, id: Id, rid: Id, q: SaleRequest, e: Error)
    ensures SaleCreate(s, id, rid, q) == Refused(e) ==> SaleCause(s, rid, q, e)
    ensures SaleCreate(s, id, rid, q).Done? ==> !SaleCause(s, rid, q, e)
  {
    StockRefused(s.warehouse, q.items);
    if q.account.Some? {
      PostRefused(s.books, Ledger.Params(q.account.value, Ledger.CREDIT, NewSale(q).total, Ledger.Operation.SALE), rid, e);
    }
  }

  lemma AddItemsRefusedFor(s: Shop, id: Id, items: seq<Item>, e: Error)
    ensures SaleAddItems(s, id, items) == Refused(e) ==> AddItemsCause(s, id, items, e)
    ensures SaleAddItems(s, id, items).Done? ==> !AddItemsCause(s, id, items, e)
  {
    StockRefused(s.warehouse, items);
  }

  lemma PurchaseRefusedFor(s: Shop, id: Id, rid: Id, q: PurchaseRequest, e: Error)
    ensures PurchaseCreate(s, id, rid, q) == Refused(e) ==> PurchaseCause(s, rid, q, e)
    ensures PurchaseCreate(s, id, rid, q).Done? ==> !PurchaseCause(s, rid, q, e)
  {
    PurchaseRefused(s.warehouse, q.items);
    TotalIsPrices(q.items);
    if q.account.Some? {
      PostRefused(s.books, Ledger.Params(q.account.value, Ledger.DEBIT, Sum(q.items, Price()), Ledger.Operation.PURCHASE), rid, e);
    }
  }

  /** Merging the lines of a request drops no product from it and adds none. */
  lemma ConsolidationKeepsProducts(w: Warehouse, items: seq<Item>)
    ensures PurchaseRefusal(w, Consolidate(Lines(items))) == PurchaseRefusal(w, Lines(items))
  {
    var lines := Lines(items);
    ConsolidatedLines(lines);
    forall l | l in lines ensures exists m :: m in Consolidate(lines) && m.key == l.key {
      assert Named(lines, l.key) && Named(Consolidate(lines), l.key);
    }
    forall m | m in Consolidate(lines) ensures exists l :: l in lines && m.key == l.key {
      assert Named(Consolidate(lines), m.key) && Named(lines, m.key);
    }
  }

  lemma ReplaceRefusedFor(s: Shop, id: Id, items: seq<Item>, e: Error)
    ensures PurchaseAddItems(s, id, items) == Refused(e) ==> ReplaceCause(s, id, items, e)
    ensures PurchaseAddItems(s, id, items).Done? ==> !ReplaceCause(s, id, items, e)
  {
    ConsolidationKeepsProducts(s.warehouse, items);
    PurchaseRefused(s.warehouse, items);
  }

  function SaleAt(s: Shop, id: Id): Sale {
    if id in s.sales then s.sales[id] else Sale(PENDING, 0.0, 0.0, 0.0, None)
  }

  function PurchaseAt(s: Shop, id: Id): Purchase {
    if id in s.purchases then s.purchases[id] else Purchase(PENDING, 0.0, None)
  }

  /** Completing, cancelling: the same for sales and purchases, credit and debit exchanged. */
  lemma CompletionRefusedFor(s: Shop, id: Id, account: Id, rid: Id, e: Error)
    ensures var sale := SaleAt(s, id);
            (SaleComplete(s, id, account, rid) == Refused(e) ==>
               CompleteCause(s.books, id in s.sales, sale.status, Ledger.CREDIT, sale.total, account, rid, e))
            && (SaleComplete(s, id, account, rid).Done? ==>
               !CompleteCause(s.books, id in s.sales, sale.status, Ledger.CREDIT, sale.total, account, rid, e))
    ensures var purchase := PurchaseAt(s, id);
            (PurchaseComplete(s, id, account, rid) == Refused(e) ==>
               CompleteCause(s.books, id in s.purchases, purchase.status, Ledger.DEBIT, purchase.total, account, rid, e))
            && (PurchaseComplete(s, id, account, rid).Done? ==>
               !CompleteCause(s.books, id in s.purchases, purchase.status, Ledger.DEBIT, purchase.total, account, rid, e))
  {
    PostRefused(s.books, Ledger.Params(account, Ledger.CREDIT, SaleAt(s, id).total, Ledger.Operation.SALE), rid, e);
    PostRefused(s.books, Ledger.Params(account, Ledger.DEBIT, PurchaseAt(s, id).total, Ledger.Operation.PURCHASE), rid, e);
  }

  lemma SaleCancelRefusedFor(s: Shop, id: Id, rid: Id, e: Error)
    ensures var sale := SaleAt(s, id);
            var cause := if id in s.sales then CancelCause(s.books, sale.status, sale.tx, Ledger.DEBIT, sale.total, rid, e) else e == NotFound;
            (SaleRemove(s, id, rid) == Refused(e) ==> cause) && (SaleRemove(s, id, rid).Done? ==> !cause)
  {
    var sale := SaleAt(s, id);
    if sale.tx.Some? && sale.tx.value in s.books.db.records {
      var account := s.books.db.records[sale.tx.value].params.account;
      PostRefused(s.books, Ledger.Params(account, Ledger.DEBIT, sale.total, Ledger.REFUND), rid, e);
    }
  }

  lemma PurchaseCancelRefusedFor(s: Shop, id: Id, rid: Id, e: Error)
    ensures var purchase := PurchaseAt(s, id);
            var cause := if id in s.purchases then CancelCause(s.books, purchase.status, purchase.tx, Ledger.CREDIT, purchase.total, rid, e) else e == NotFound;
            (PurchaseRemove(s, id, rid) == Refused(e) ==> cause) && (PurchaseRemove(s, id, rid).Done? ==> !cause)
  {
    var purchase := PurchaseAt(s, id);
    if purchase.tx.Some? && purchase.tx.value in s.books.db.records {
      var account := s.books.db.records[purchase.tx.value].params.account;
      PostRefused(s.books, Ledger.Params(account, Ledger.CREDIT, purchase.total, Ledger.REFUND), rid, e);
    }
  }

  lemma ExpenseRefusedFor(s: Shop, id: Id, rid: Id, account: Id, category: Id, amount: real, e: Error)
    ensures var cause := CategoryCause(s, category, e) || PostCause(s.books, account, Ledger.DEBIT, amount, rid, e);
            (ExpenseCreate(s, id, rid, account, category, amount) == Refused(e) ==> cause)
            && (ExpenseCreate(s, id, rid, account, category, amount).Done? ==> !cause)
  {
    PostRefused(s.books, Ledger.Params(account, Ledger.DEBIT, amount, Ledger.EXPENSE), rid, e);
  }

  lemma ExpenseEditRefusedFor(s: Shop, id: Id, category: Option<Id>, e: Error)
    ensures var cause := if id !in s.expenses then e == NotFound
                         else category.Some? && category.value != s.expenses[id].category && CategoryCause(s, category.value, e);
            (ExpenseUpdate(s, id, category) == Refused(e) ==> cause) && (ExpenseUpdate(s, id, category).Done? ==> !cause)
  {}

  /** An update stores the category and nothing else. */
  lemma ExpenseEditStores(s: Shop, id: Id, category: Option<Id>)
    requires ExpenseUpdate(s, id, category).Done?
    ensures var e := s.expenses[id];
            ExpenseUpdate(s, id, category).value
              == s.(expenses := s.expenses[id := Expense(e.account, if category.Some? then category.value else e.category, e.amount, e.tx)])
  {}

  lemma ExpenseRemoveRefusedFor(s: Shop, id: Id, rid: Id, e: Error)
    ensures var cause := if id !in s.expenses then e == NotFound
                         else s.expenses[id].tx.Some?
                              && PostCause(s.books, s.expenses[id].account, Ledger.CREDIT, s.expenses[id].amount, rid, e);
            (ExpenseRemove(s, id, rid) == Refused(e) ==> cause) && (ExpenseRemove(s, id, rid).Done? ==> !cause)
  {
    if id in s.expenses {
      PostRefused(s.books, Ledger.Params(s.expenses[id].account, Ledger.CREDIT, s.expenses[id].amount, Ledger.REFUND), rid, e);
    }
  }

  /** An entry posted by hand goes as any other; one deleted by hand must be an adjustment whose effect can be taken back. */
  predicate HandRemoveCause(b: Books, rid: Id, e: Error) {
    if rid !in b.db.records then e == NotFound
    else
      var p := b.db.records[rid].params;
      (e == BadRequest && p.operation != Ledger.ADJUSTMENT)
      || (e == NotFound && p.account !in b.db.accounts)
      || (e == Unprocessable && p.account in b.db.accounts && !Active(b, p.account))
      || (e == BadRequest && p.account in b.db.accounts
          && (p.amount < 0.0 || (p.kind.CREDIT? && b.db.accounts[p.account].balance < p.amount)))
  }

  lemma HandRefusedFor(b: Books, p: Ledger.Params, rid: Id, e: Error)
    requires Ledger.DbOk(b.db)
    ensures HandPost(b, p, rid) == Refused(e) ==> PostCause(b, p.account, p.kind, p.amount, rid, e)
    ensures HandPost(b, p, rid).Done? ==> !PostCause(b, p.account, p.kind, p.amount, rid, e)
    ensures HandRemove(b, rid) == Refused(e) ==> HandRemoveCause(b, rid, e)
    ensures HandRemove(b, rid).Done? ==> !HandRemoveCause(b, rid, e)
  {}

  /** A movement by hand needs the stock it names to exist and to be of the product it names. */
  lemma MovementRefusedFor(w: Warehouse, k: StockKey, product: Id, quantity: real, kind: MovementType, e: Error)
    ensures var cause := (e == NotFound && k !in w.stocks) || (e == BadRequest && k in w.stocks && k.product != product);
            (HandMove(w, k, product, quantity, kind) == Refused(e) ==> cause)
            && (HandMove(w, k, product, quantity, kind).Done? ==> !cause)
  {}

  /** An existing account that is not ACTIVE is what makes money requests Unprocessable, and nothing else is. */
  lemma UnprocessableIffNotActive(s: Shop, id: Id, account: Id, category: Id, amount: real, rid: Id)
    ensures SaleComplete(s, id, account, rid) == Refused(Unprocessable) <==>
              id in s.sales && s.sales[id].status == PENDING && account in s.books.db.accounts && !Active(s.books, account)
    ensures PurchaseComplete(s, id, account, rid) == Refused(Unprocessable) <==>
              id in s.purchases && s.purchases[id].status == PENDING && account in s.books.db.accounts && !Active(s.books, account)
    ensures ExpenseCreate(s, id, rid, account, category, amount) == Refused(Unprocessable) <==>
              category in s.categories && s.categories[category] && account in s.books.db.accounts && !Active(s.books, account)
  {}

  /** The account a document's linked record posted to exists and is not ACTIVE. */
  predicate RefundBlocked(b: Books, tx: Option<Id>) {
    tx.Some? && tx.value in b.db.records
    && var a := b.db.records[tx.value].params.account; a in b.db.accounts && !Active(b, a)
  }

  lemma RefundUnprocessableIffNotActive(s: Shop, id: Id, rid: Id)
    ensures SaleRemove(s, id, rid) == Refused(Unprocessable) <==>
              id in s.sales && s.sales[id].status == COMPLETED && RefundBlocked(s.books, s.sales[id].tx)
    ensures PurchaseRemove(s, id, rid) == Refused(Unprocessable) <==>
              id in s.purchases && s.purchases[id].status == COMPLETED && RefundBlocked(s.books, s.purchases[id].tx)
    ensures ExpenseRemove(s, id, rid) == Refused(Unprocessable) <==>
              id in s.expenses && s.expenses[id].tx.Some?
              && s.expenses[id].account in s.books.db.accounts && !Active(s.books, s.expenses[id].account)
  {}

  // ----- Requests are calls -----

  /** A document's id is new or the request is a Conflict; with a new one the request is the call. */
  lemma CreationsAreCalls(s: Shop, id: Id, rid: Id, sale: SaleRequest, purchase: PurchaseRequest, account: Id, category: Id, amount: real)
    ensures Apply(s, CreateSale(id, rid, sale)) == if id in s.sales then Refused(Conflict) else SaleCreate(s, id, rid, sale)
    ensures Apply(s, CreatePurchase(id, rid, purchase))
         == if id in s.purchases then Refused(Conflict) else PurchaseCreate(s, id, rid, purchase)
    ensures Apply(s, CreateExpense(id, rid, account, category, amount))
         == if id in s.expenses then Refused(Conflict) else ExpenseCreate(s, id, rid, account, category, amount)
  {}

  lemma ProducedStock(w: Warehouse, id: Id, l: Line)
    ensures Produce(w, id, l).stocks == w.stocks[l.key := Level(w.stocks, l.key.product, l.key.location) + l.quantity]
  {
    var stocked := WithStocks(w.stocks, [l]);
    forall k ensures Asked([l], k) == if l.key == k then l.quantity else 0.0 {
      CommerceStocks.AskedOne(l, k);
    }
    assert [l][..0] == [];
    assert stocked == if l.key in w.stocks then w.stocks else w.stocks[l.key := 0.0];
    assert Increased(stocked, [l]) == w.stocks[l.key := Level(w.stocks, l.key.product, l.key.location) + l.quantity];
  }

  /** A finished production brings its quantity to its stock, made if missing. */
  lemma ProductionBrings(s: Shop, id: Id, l: Line)
    ensures Apply(s, FinishProduction(id, l)).Done? <==> id !in s.productions
    ensures Apply(s, FinishProduction(id, l)).Done? ==>
              var t := Apply(s, FinishProduction(id, l)).value;
              t.productions == s.productions[id := l]
              && t.warehouse.stocks == s.warehouse.stocks[l.key := Level(s.warehouse.stocks, l.key.product, l.key.location) + l.quantity]
  {
    ProducedStock(s.warehouse, id, l);
  }

  /** Removing it takes the quantity back, from a stock there is. */
  lemma ProductionWithdraws(s: Shop, id: Id)
    ensures Apply(s, RemoveProduction(id)).Done? <==> id in s.productions && s.productions[id].key in s.warehouse.stocks
    ensures Apply(s, RemoveProduction(id)).Done? ==>
              var t, gone := Apply(s, RemoveProduction(id)).value, s.productions[id];
              t.productions == s.productions - {id}
              && t.warehouse.stocks == s.warehouse.stocks[gone.key := s.warehouse.stocks[gone.key] - gone.quantity]
  {}

  /** Accounts are opened once, empty and ACTIVE. */
  lemma AccountOpens(s: Shop, a: Id)
    ensures Apply(s, OpenAccount(a)) == InBooks(s, BooksOpen(s.books, a))
    ensures BooksOpen(s.books, a).Done? <==> a !in s.books.db.accounts
    ensures BooksOpen(s.books, a).Done? ==>
              var b := BooksOpen(s.books, a).value;
              b.status == s.books.status[a := Ledger.ACTIVE]
              && b.db.accounts == s.books.db.accounts[a := Ledger.Account(0.0, 1)] && b.db.records == s.books.db.records
  {}

  /** And they have the status last given to them. */
  lemma StatusChanges(s: Shop, a: Id, st: Ledger.Status)
    ensures Apply(s, SetStatus(a, st))
         == if a in s.books.db.accounts then Done(s.(books := Books(s.books.db, s.books.status[a := st], s.books.byHand)))
            else Refused(NotFound)
  {}

  lemma RunNext(s: Shop, qs: seq<Request>, q: Request)
    ensures Run(s, qs + [q]) == Next(Run(s, qs), q)
  {
    assert (qs + [q])[..|qs|] == qs;
  }
}

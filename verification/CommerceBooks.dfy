/**
 What every run of module Commerce keeps of the money: a balance is its opening plus the
 totals of COMPLETED sales, minus those of COMPLETED purchases and existing expenses, plus
 the entries posted by hand; so PENDING and CANCELLED documents contribute nothing.
 */
module CommerceBooks {
  import opened Options
  import opened Sums
  import opened Inventory
  import opened Commerce
  import Ledger
  import CommerceStocks

  type Records = map<Id, Ledger.Record>

  // ----- What documents are worth to an account -----

  predicate Posts(records: Records, tx: Option<Id>, a: Id) {
    tx.Some? && tx.value in records && records[tx.value].params.account == a
  }

  function SaleShare(records: Records, a: Id): Sale -> real {
    (x: Sale) => if x.status == COMPLETED && Posts(records, x.tx, a) then x.total else 0.0
  }

  function PurchaseShare(records: Records, a: Id): Purchase -> real {
    (x: Purchase) => if x.status == COMPLETED && Posts(records, x.tx, a) then x.total else 0.0
  }

  function ExpenseShare(a: Id): Expense -> real {
    (x: Expense) => if x.account == a then x.amount else 0.0
  }

  ghost function SalesWorth(sales: map<Id, Sale>, records: Records, a: Id): real {
    Total(sales, SaleShare(records, a))
  }

  ghost function PurchasesWorth(purchases: map<Id, Purchase>, records: Records, a: Id): real {
    Total(purchases, PurchaseShare(records, a))
  }

  ghost function ExpensesWorth(expenses: map<Id, Expense>, a: Id): real {
    Total(expenses, ExpenseShare(a))
  }

  /** A balance without the entries posted by hand. */
  ghost function WithoutHand(b: Books, a: Id): real {
    Ledger.Opening(b.db, a).balance - Total(b.byHand, Ledger.SignedOn(a))
  }

  /** The part of a balance that neither documents nor hand entries account for: its opening. */
  ghost function Unexplained(s: Shop, a: Id): real {
    WithoutHand(s.books, a) - SalesWorth(s.sales, s.books.db.records, a)
    + PurchasesWorth(s.purchases, s.books.db.records, a) + ExpensesWorth(s.expenses, a)
  }

  // ----- The invariant -----

  predicate BooksOk(b: Books) {
    Ledger.DbOk(b.db)
    && (forall id :: id in b.byHand ==> id in b.db.records && b.db.records[id] == b.byHand[id])
    && (forall id :: id in b.db.records && b.db.records[id].params.operation == Ledger.ADJUSTMENT ==> id in b.byHand)
  }

  predicate Backed(records: Records, tx: Option<Id>, kind: Ledger.Kind, amount: real, operation: Ledger.Operation) {
    tx.Some? && tx.value in records
    && var p := records[tx.value].params; p.kind == kind && p.amount == amount && p.operation == operation
  }

  predicate SaleBacked(records: Records, x: Sale) {
    x.status == COMPLETED ==> Backed(records, x.tx, Ledger.CREDIT, x.total, Ledger.Operation.SALE)
  }

  predicate PurchaseBacked(records: Records, x: Purchase) {
    x.status == COMPLETED ==> Backed(records, x.tx, Ledger.DEBIT, x.total, Ledger.Operation.PURCHASE)
  }

  predicate ExpenseBacked(records: Records, x: Expense) {
    Backed(records, x.tx, Ledger.DEBIT, x.amount, Ledger.EXPENSE) && records[x.tx.value].params.account == x.account
  }

  predicate SalesBacked(sales: map<Id, Sale>, records: Records) {
    forall id :: id in sales ==> SaleBacked(records, sales[id])
  }

  predicate PurchasesBacked(purchases: map<Id, Purchase>, records: Records) {
    forall id :: id in purchases ==> PurchaseBacked(records, purchases[id])
  }

  predicate ExpensesBacked(expenses: map<Id, Expense>, records: Records) {
    forall id :: id in expenses ==> ExpenseBacked(records, expenses[id])
  }

  predicate MoneyInv(s: Shop) {
    BooksOk(s.books) && SalesBacked(s.sales, s.books.db.records)
    && PurchasesBacked(s.purchases, s.books.db.records) && ExpensesBacked(s.expenses, s.books.db.records)
  }

  ghost predicate Steady(s: Shop, t: Shop, a: Id) {
    MoneyInv(t) && Unexplained(t, a) == Unexplained(s, a)
  }

  // ----- Records other than adjustments are never changed or deleted -----

  predicate DocumentRecordsKept(before: Records, after: Records) {
    forall id :: id in before && before[id].params.operation != Ledger.ADJUSTMENT ==>
      id in after && after[id] == before[id]
  }

  lemma SalesUnmoved(sales: map<Id, Sale>, before: Records, after: Records, a: Id)
    requires SalesBacked(sales, before) && DocumentRecordsKept(before, after)
    ensures SalesBacked(sales, after) && SalesWorth(sales, after, a) == SalesWorth(sales, before, a)
  {
    forall id | id in sales
      ensures SaleBacked(after, sales[id]) && SaleShare(before, a)(sales[id]) == SaleShare(after, a)(sales[id])
    {
      assert SaleBacked(before, sales[id]);
    }
    TotalCongruent(sales, SaleShare(before, a), SaleShare(after, a));
  }

  lemma PurchasesUnmoved(purchases: map<Id, Purchase>, before: Records, after: Records, a: Id)
    requires PurchasesBacked(purchases, before) && DocumentRecordsKept(before, after)
    ensures PurchasesBacked(purchases, after) && PurchasesWorth(purchases, after, a) == PurchasesWorth(purchases, before, a)
  {
    forall id | id in purchases
      ensures PurchaseBacked(after, purchases[id])
              && PurchaseShare(before, a)(purchases[id]) == PurchaseShare(after, a)(purchases[id])
    {
      assert PurchaseBacked(before, purchases[id]);
    }
    TotalCongruent(purchases, PurchaseShare(before, a), PurchaseShare(after, a));
  }

  lemma ExpensesUnmoved(expenses: map<Id, Expense>, before: Records, after: Records)
    requires ExpensesBacked(expenses, before) && DocumentRecordsKept(before, after)
    ensures ExpensesBacked(expenses, after)
  {
    forall id | id in expenses ensures ExpenseBacked(after, expenses[id]) {
      assert ExpenseBacked(before, expenses[id]);
    }
  }

  /** What documents are worth does not change when other records come and go. */
  lemma BooksChange(s: Shop, c: Books, a: Id)
    requires MoneyInv(s) && BooksOk(c) && DocumentRecordsKept(s.books.db.records, c.db.records)
    ensures MoneyInv(s.(books := c))
    ensures Unexplained(s.(books := c), a) == Unexplained(s, a) + WithoutHand(c, a) - WithoutHand(s.books, a)
  {
    SalesUnmoved(s.sales, s.books.db.records, c.db.records, a);
    PurchasesUnmoved(s.purchases, s.books.db.records, c.db.records, a);
    ExpensesUnmoved(s.expenses, s.books.db.records, c.db.records);
  }

  // ----- The books move -----

  function Moved(p: Ledger.Params, a: Id): real {
    if p.account == a then Ledger.Signed(p.kind, p.amount) else 0.0
  }

  /** Whoever posts, one record is added and one balance moves by its signed amount. */
  lemma PostMoves(b: Books, p: Ledger.Params, rid: Id, a: Id)
    requires BooksOk(b) && Post(b, p, rid).Done?
    ensures var c := Post(b, p, rid).value;
            rid !in b.db.records && rid in c.db.records && c.db.records[rid].params == p
            && c.db.records == b.db.records[rid := c.db.records[rid]]
            && Ledger.DbOk(c.db) && c.byHand == b.byHand && c.status == b.status
            && Ledger.Opening(c.db, a).balance == Ledger.Opening(b.db, a).balance + Moved(p, a)
  {}

  lemma PostKeepsBooks(b: Books, p: Ledger.Params, rid: Id, a: Id)
    requires BooksOk(b) && Post(b, p, rid).Done? && p.operation != Ledger.ADJUSTMENT
    ensures var c := Post(b, p, rid).value;
            BooksOk(c) && DocumentRecordsKept(b.db.records, c.db.records)
            && rid in c.db.records && c.db.records[rid].params == p
            && WithoutHand(c, a) == WithoutHand(b, a) + Moved(p, a)
  {
    PostMoves(b, p, rid, a);
  }

  lemma HandPostBooks(b: Books, p: Ledger.Params, rid: Id, a: Id)
    requires BooksOk(b) && HandPost(b, p, rid).Done?
    ensures var c := HandPost(b, p, rid).value;
            BooksOk(c) && DocumentRecordsKept(b.db.records, c.db.records) && WithoutHand(c, a) == WithoutHand(b, a)
  {
    PostMoves(b, p, rid, a);
    HandMarked(b, Post(b, p, rid).value, rid, a);
  }

  /** Posting by hand marks the new record, which then explains the balance it moved. */
  lemma HandMarked(b: Books, c: Books, rid: Id, a: Id)
    requires BooksOk(b) && Ledger.DbOk(c.db) && c.byHand == b.byHand && rid !in b.db.records && rid in c.db.records
    requires c.db.records == b.db.records[rid := c.db.records[rid]]
    requires Ledger.Opening(c.db, a).balance == Ledger.Opening(b.db, a).balance + Moved(c.db.records[rid].params, a)
    ensures var d := c.(byHand := c.byHand[rid := c.db.records[rid]]);
            BooksOk(d) && DocumentRecordsKept(b.db.records, d.db.records) && WithoutHand(d, a) == WithoutHand(b, a)
  {
    assert rid !in b.byHand;
    TotalInsert(b.byHand, rid, c.db.records[rid], Ledger.SignedOn(a));
  }

  lemma HandRemoveMoves(b: Books, rid: Id, a: Id)
    requires BooksOk(b) && HandRemove(b, rid).Done?
    ensures var c := HandRemove(b, rid).value;
            rid in b.byHand && b.byHand[rid] == b.db.records[rid] && b.db.records[rid].params.operation == Ledger.ADJUSTMENT
            && c.db.records == b.db.records - {rid} && c.byHand == b.byHand - {rid}
            && Ledger.DbOk(c.db)
            && Ledger.Opening(c.db, a).balance == Ledger.Opening(b.db, a).balance - Ledger.SignedOn(a)(b.byHand[rid])
  {}

  lemma HandRemoveBooks(b: Books, rid: Id, a: Id)
    requires BooksOk(b) && HandRemove(b, rid).Done?
    ensures var c := HandRemove(b, rid).value;
            BooksOk(c) && DocumentRecordsKept(b.db.records, c.db.records) && WithoutHand(c, a) == WithoutHand(b, a)
  {
    HandRemoveMoves(b, rid, a);
    TotalRemove(b.byHand, rid, Ledger.SignedOn(a));
  }

  lemma OpenBooks(b: Books, account: Id, a: Id)
    requires BooksOk(b) && BooksOpen(b, account).Done?
    ensures var c := BooksOpen(b, account).value;
            BooksOk(c) && DocumentRecordsKept(b.db.records, c.db.records) && WithoutHand(c, a) == WithoutHand(b, a)
  {}

  // ----- Documents move -----

  lemma SaleRow(sales: map<Id, Sale>, id: Id, x: Sale, records: Records, a: Id)
    requires SalesBacked(sales, records) && SaleBacked(records, x)
    ensures SalesBacked(sales[id := x], records)
    ensures SalesWorth(sales[id := x], records, a)
         == SalesWorth(sales, records, a) + SaleShare(records, a)(x)
            - if id in sales then SaleShare(records, a)(sales[id]) else 0.0
  {
    if id in sales {
      TotalUpdate(sales, id, x, SaleShare(records, a));
    } else {
      TotalInsert(sales, id, x, SaleShare(records, a));
    }
  }

  lemma PurchaseRow(purchases: map<Id, Purchase>, id: Id, x: Purchase, records: Records, a: Id)
    requires PurchasesBacked(purchases, records) && PurchaseBacked(records, x)
    ensures PurchasesBacked(purchases[id := x], records)
    ensures PurchasesWorth(purchases[id := x], records, a)
         == PurchasesWorth(purchases, records, a) + PurchaseShare(records, a)(x)
            - if id in purchases then PurchaseShare(records, a)(purchases[id]) else 0.0
  {
    if id in purchases {
      TotalUpdate(purchases, id, x, PurchaseShare(records, a));
    } else {
      TotalInsert(purchases, id, x, PurchaseShare(records, a));
    }
  }

  function ShareOf(sales: map<Id, Sale>, id: Id, records: Records, a: Id): real {
    if id in sales then SaleShare(records, a)(sales[id]) else 0.0
  }

  function PurchaseShareOf(purchases: map<Id, Purchase>, id: Id, records: Records, a: Id): real {
    if id in purchases then PurchaseShare(records, a)(purchases[id]) else 0.0
  }

  /** A posting and a sale's new row, worth the same to every account, leave nothing unexplained. */
  lemma SalePosted(s: Shop, t: Shop, id: Id, x: Sale, p: Ledger.Params, rid: Id, a: Id)
    requires MoneyInv(s) && Post(s.books, p, rid).Done? && p.operation != Ledger.ADJUSTMENT
    requires t.books == Post(s.books, p, rid).value && t.sales == s.sales[id := x]
    requires t.purchases == s.purchases && t.expenses == s.expenses
    requires SaleBacked(t.books.db.records, x)
    requires SaleShare(t.books.db.records, a)(x) == Moved(p, a) + ShareOf(s.sales, id, t.books.db.records, a)
    ensures Steady(s, t, a)
  {
    PostKeepsBooks(s.books, p, rid, a);
    BooksChange(s, t.books, a);
    SaleRow(s.sales, id, x, t.books.db.records, a);
  }

  lemma PurchasePosted(s: Shop, t: Shop, id: Id, x: Purchase, p: Ledger.Params, rid: Id, a: Id)
    requires MoneyInv(s) && Post(s.books, p, rid).Done? && p.operation != Ledger.ADJUSTMENT
    requires t.books == Post(s.books, p, rid).value && t.purchases == s.purchases[id := x]
    requires t.sales == s.sales && t.expenses == s.expenses
    requires PurchaseBacked(t.books.db.records, x)
    requires PurchaseShare(t.books.db.records, a)(x) == PurchaseShareOf(s.purchases, id, t.books.db.records, a) - Moved(p, a)
    ensures Steady(s, t, a)
  {
    PostKeepsBooks(s.books, p, rid, a);
    BooksChange(s, t.books, a);
    PurchaseRow(s.purchases, id, x, t.books.db.records, a);
  }

  lemma CreditedSale(s: Shop, t: Shop, id: Id, sale: Sale, account: Id, rid: Id, a: Id)
    requires var p := Ledger.Params(account, Ledger.CREDIT, sale.total, Ledger.Operation.SALE);
             MoneyInv(s) && Post(s.books, p, rid).Done? && t.books == Post(s.books, p, rid).value
    requires t.sales == s.sales[id := sale.(status := COMPLETED, tx := Some(rid))]
    requires t.purchases == s.purchases && t.expenses == s.expenses
    requires id in s.sales ==> s.sales[id].status != COMPLETED
    ensures Steady(s, t, a)
  {
    var p := Ledger.Params(account, Ledger.CREDIT, sale.total, Ledger.Operation.SALE);
    PostMoves(s.books, p, rid, a);
    SalePosted(s, t, id, sale.(status := COMPLETED, tx := Some(rid)), p, rid, a);
  }

  lemma DebitedPurchase(s: Shop, t: Shop, id: Id, purchase: Purchase, account: Id, rid: Id, a: Id)
    requires var p := Ledger.Params(account, Ledger.DEBIT, purchase.total, Ledger.Operation.PURCHASE);
             MoneyInv(s) && Post(s.books, p, rid).Done? && t.books == Post(s.books, p, rid).value
    requires t.purchases == s.purchases[id := purchase.(status := COMPLETED, tx := Some(rid))]
    requires t.sales == s.sales && t.expenses == s.expenses
    requires id in s.purchases ==> s.purchases[id].status != COMPLETED
    ensures Steady(s, t, a)
  {
    var p := Ledger.Params(account, Ledger.DEBIT, purchase.total, Ledger.Operation.PURCHASE);
    PostMoves(s.books, p, rid, a);
    PurchasePosted(s, t, id, purchase.(status := COMPLETED, tx := Some(rid)), p, rid, a);
  }

  /** The refund goes to the account that was credited and is worth the sale's share there. */
  lemma RefundedSale(s: Shop, t: Shop, id: Id, rid: Id, a: Id)
    requires MoneyInv(s) && id in s.sales && s.sales[id].status == COMPLETED
    requires Backed(s.books.db.records, s.sales[id].tx, Ledger.CREDIT, s.sales[id].total, Ledger.Operation.SALE)
    requires var account := s.books.db.records[s.sales[id].tx.value].params.account;
             var p := Ledger.Params(account, Ledger.DEBIT, s.sales[id].total, Ledger.REFUND);
             Post(s.books, p, rid).Done? && t.books == Post(s.books, p, rid).value
    requires t.sales == s.sales[id := s.sales[id].(status := CANCELLED)]
    requires t.purchases == s.purchases && t.expenses == s.expenses
    ensures Steady(s, t, a)
  {
    var account := s.books.db.records[s.sales[id].tx.value].params.account;
    var p := Ledger.Params(account, Ledger.DEBIT, s.sales[id].total, Ledger.REFUND);
    PostMoves(s.books, p, rid, a);
    SalePosted(s, t, id, s.sales[id].(status := CANCELLED), p, rid, a);
  }

  lemma RefundedPurchase(s: Shop, t: Shop, id: Id, rid: Id, a: Id)
    requires MoneyInv(s) && id in s.purchases && s.purchases[id].status == COMPLETED
    requires Backed(s.books.db.records, s.purchases[id].tx, Ledger.DEBIT, s.purchases[id].total, Ledger.Operation.PURCHASE)
    requires var account := s.books.db.records[s.purchases[id].tx.value].params.account;
             var p := Ledger.Params(account, Ledger.CREDIT, s.purchases[id].total, Ledger.REFUND);
             Post(s.books, p, rid).Done? && t.books == Post(s.books, p, rid).value
    requires t.purchases == s.purchases[id := s.purchases[id].(status := CANCELLED)]
    requires t.sales == s.sales && t.expenses == s.expenses
    ensures Steady(s, t, a)
  {
    var account := s.books.db.records[s.purchases[id].tx.value].params.account;
    var p := Ledger.Params(account, Ledger.CREDIT, s.purchases[id].total, Ledger.REFUND);
    PostMoves(s.books, p, rid, a);
    PurchasePosted(s, t, id, s.purchases[id].(status := CANCELLED), p, rid, a);
  }

  /** A row without a share replaces one without a share, or none. */
  lemma SaleUnposted(s: Shop, t: Shop, id: Id, x: Sale, a: Id)
    requires MoneyInv(s) && t.books == s.books && t.sales == s.sales[id := x]
    requires t.purchases == s.purchases && t.expenses == s.expenses
    requires x.status != COMPLETED && (id in s.sales ==> s.sales[id].status != COMPLETED)
    ensures Steady(s, t, a)
  {
    SaleRow(s.sales, id, x, s.books.db.records, a);
  }

  lemma PurchaseUnposted(s: Shop, t: Shop, id: Id, x: Purchase, a: Id)
    requires MoneyInv(s) && t.books == s.books && t.purchases == s.purchases[id := x]
    requires t.sales == s.sales && t.expenses == s.expenses
    requires x.status != COMPLETED && (id in s.purchases ==> s.purchases[id].status != COMPLETED)
    ensures Steady(s, t, a)
  {
    PurchaseRow(s.purchases, id, x, s.books.db.records, a);
  }

  lemma SaleDropped(s: Shop, t: Shop, id: Id, a: Id)
    requires MoneyInv(s) && id in s.sales && s.sales[id].status != COMPLETED
    requires t.books == s.books && t.sales == s.sales - {id} && t.purchases == s.purchases && t.expenses == s.expenses
    ensures Steady(s, t, a)
  {
    TotalRemove(s.sales, id, SaleShare(s.books.db.records, a));
  }

  lemma PurchaseDropped(s: Shop, t: Shop, id: Id, a: Id)
    requires MoneyInv(s) && id in s.purchases && s.purchases[id].status != COMPLETED
    requires t.books == s.books && t.purchases == s.purchases - {id} && t.sales == s.sales && t.expenses == s.expenses
    ensures Steady(s, t, a)
  {
    TotalRemove(s.purchases, id, PurchaseShare(s.books.db.records, a));
  }

  // ----- Requests -----

  lemma SaleCreateStep(s: Shop, id: Id, rid: Id, q: SaleRequest, a: Id)
    requires MoneyInv(s) && id !in s.sales && SaleCreate(s, id, rid, q).Done?
    ensures Steady(s, SaleCreate(s, id, rid, q).value, a)
  {
    var t := SaleCreate(s, id, rid, q).value;
    if q.status == COMPLETED {
      var linked := NewSale(q).(status := COMPLETED, tx := Some(rid));
      assert s.sales[id := NewSale(q)][id := linked] == s.sales[id := linked];
      CreditedSale(s, t, id, NewSale(q), q.account.value, rid, a);
    } else {
      SaleUnposted(s, t, id, NewSale(q), a);
    }
  }

  lemma SaleCompleteStep(s: Shop, id: Id, account: Id, rid: Id, a: Id)
    requires MoneyInv(s) && SaleComplete(s, id, account, rid).Done?
    ensures Steady(s, SaleComplete(s, id, account, rid).value, a)
  {
    CreditedSale(s, SaleComplete(s, id, account, rid).value, id, s.sales[id], account, rid, a);
  }

  lemma SaleAddItemsStep(s: Shop, id: Id, items: seq<Item>, a: Id)
    requires MoneyInv(s) && SaleAddItems(s, id, items).Done?
    ensures Steady(s, SaleAddItems(s, id, items).value, a)
  {
    var t := SaleAddItems(s, id, items).value;
    SaleUnposted(s, t, id, t.sales[id], a);
  }

  lemma SaleRemoveStep(s: Shop, id: Id, rid: Id, a: Id)
    requires MoneyInv(s) && SaleRemove(s, id, rid).Done?
    ensures Steady(s, SaleRemove(s, id, rid).value, a)
  {
    var t := SaleRemove(s, id, rid).value;
    if s.sales[id].status == PENDING {
      SaleDropped(s, t, id, a);
    } else {
      assert SaleBacked(s.books.db.records, s.sales[id]);
      RefundedSale(s, t, id, rid, a);
    }
  }

  lemma PurchaseCreateStep(s: Shop, id: Id, rid: Id, q: PurchaseRequest, a: Id)
    requires MoneyInv(s) && id !in s.purchases && PurchaseCreate(s, id, rid, q).Done?
    ensures Steady(s, PurchaseCreate(s, id, rid, q).value, a)
  {
    var t := PurchaseCreate(s, id, rid, q).value;
    var purchase := Purchase(q.status, CalcTotal(Lines(q.items)), None);
    if q.status == COMPLETED {
      var linked := purchase.(status := COMPLETED, tx := Some(rid));
      assert s.purchases[id := purchase][id := linked] == s.purchases[id := linked];
      DebitedPurchase(s, t, id, purchase, q.account.value, rid, a);
    } else {
      PurchaseUnposted(s, t, id, purchase, a);
    }
  }

  lemma PurchaseCompleteStep(s: Shop, id: Id, account: Id, rid: Id, a: Id)
    requires MoneyInv(s) && PurchaseComplete(s, id, account, rid).Done?
    ensures Steady(s, PurchaseComplete(s, id, account, rid).value, a)
  {
    DebitedPurchase(s, PurchaseComplete(s, id, account, rid).value, id, s.purchases[id], account, rid, a);
  }

  lemma PurchaseAddItemsStep(s: Shop, id: Id, items: seq<Item>, a: Id)
    requires MoneyInv(s) && PurchaseAddItems(s, id, items).Done?
    ensures Steady(s, PurchaseAddItems(s, id, items).value, a)
  {
    var t := PurchaseAddItems(s, id, items).value;
    PurchaseUnposted(s, t, id, t.purchases[id], a);
  }

  lemma PurchaseRemoveStep(s: Shop, id: Id, rid: Id, a: Id)
    requires MoneyInv(s) && PurchaseRemove(s, id, rid).Done?
    ensures Steady(s, PurchaseRemove(s, id, rid).value, a)
  {
    var t := PurchaseRemove(s, id, rid).value;
    if s.purchases[id].status == PENDING {
      PurchaseDropped(s, t, id, a);
    } else {
      assert PurchaseBacked(s.books.db.records, s.purchases[id]);
      RefundedPurchase(s, t, id, rid, a);
    }
  }

  lemma ExpenseInserted(expenses: map<Id, Expense>, id: Id, e: Expense, records: Records, a: Id)
    requires ExpensesBacked(expenses, records) && id !in expenses && ExpenseBacked(records, e)
    ensures ExpensesBacked(expenses[id := e], records)
    ensures ExpensesWorth(expenses[id := e], a) == ExpensesWorth(expenses, a) + ExpenseShare(a)(e)
  {
    TotalInsert(expenses, id, e, ExpenseShare(a));
  }

  lemma ExpenseDeleted(expenses: map<Id, Expense>, id: Id, records: Records, a: Id)
    requires ExpensesBacked(expenses, records) && id in expenses
    ensures ExpensesBacked(expenses - {id}, records)
    ensures ExpensesWorth(expenses - {id}, a) == ExpensesWorth(expenses, a) - ExpenseShare(a)(expenses[id])
  {
    TotalRemove(expenses, id, ExpenseShare(a));
  }

  lemma ExpensePosted(s: Shop, t: Shop, p: Ledger.Params, rid: Id, a: Id)
    requires MoneyInv(s) && Post(s.books, p, rid).Done? && p.operation != Ledger.ADJUSTMENT
    requires t.books == Post(s.books, p, rid).value && t.sales == s.sales && t.purchases == s.purchases
    requires ExpensesBacked(t.expenses, t.books.db.records)
    requires ExpensesWorth(t.expenses, a) == ExpensesWorth(s.expenses, a) - Moved(p, a)
    ensures Steady(s, t, a)
  {
    PostKeepsBooks(s.books, p, rid, a);
    BooksChange(s, t.books, a);
  }

  lemma ExpenseCreateStep(s: Shop, id: Id, rid: Id, account: Id, category: Id, amount: real, a: Id)
    requires MoneyInv(s) && id !in s.expenses && ExpenseCreate(s, id, rid, account, category, amount).Done?
    ensures Steady(s, ExpenseCreate(s, id, rid, account, category, amount).value, a)
  {
    var t := ExpenseCreate(s, id, rid, account, category, amount).value;
    var p := Ledger.Params(account, Ledger.DEBIT, amount, Ledger.EXPENSE);
    PostKeepsBooks(s.books, p, rid, a);
    ExpensesUnmoved(s.expenses, s.books.db.records, t.books.db.records);
    ExpenseInserted(s.expenses, id, Expense(account, category, amount, Some(rid)), t.books.db.records, a);
    ExpensePosted(s, t, p, rid, a);
  }

  lemma ExpenseRow(expenses: map<Id, Expense>, id: Id, category: Id, records: Records, a: Id)
    requires ExpensesBacked(expenses, records) && id in expenses
    ensures var after := expenses[id := expenses[id].(category := category)];
            ExpensesBacked(after, records) && ExpensesWorth(after, a) == ExpensesWorth(expenses, a)
  {
    TotalUpdate(expenses, id, expenses[id].(category := category), ExpenseShare(a));
  }

  /** An expense update changes metadata only: no balance, record, amount or account moves. */
  lemma ExpenseUpdateIsMetadata(s: Shop, id: Id, category: Option<Id>)
    requires ExpenseUpdate(s, id, category).Done?
    ensures var t := ExpenseUpdate(s, id, category).value;
            t.books == s.books && id in t.expenses && t.expenses - {id} == s.expenses - {id}
            && t.expenses[id].amount == s.expenses[id].amount && t.expenses[id].account == s.expenses[id].account
            && t.expenses[id].tx == s.expenses[id].tx
  {}

  lemma ExpenseUpdateStep(s: Shop, id: Id, category: Option<Id>, a: Id)
    requires MoneyInv(s) && ExpenseUpdate(s, id, category).Done?
    ensures Steady(s, ExpenseUpdate(s, id, category).value, a)
  {
    if category.Some? {
      ExpenseRow(s.expenses, id, category.value, s.books.db.records, a);
    }
  }

  lemma ExpenseRemoveStep(s: Shop, id: Id, rid: Id, a: Id)
    requires MoneyInv(s) && ExpenseRemove(s, id, rid).Done?
    ensures Steady(s, ExpenseRemove(s, id, rid).value, a)
  {
    var e, t := s.expenses[id], ExpenseRemove(s, id, rid).value;
    var p := Ledger.Params(e.account, Ledger.CREDIT, e.amount, Ledger.REFUND);
    assert ExpenseBacked(s.books.db.records, e);
    PostKeepsBooks(s.books, p, rid, a);
    ExpensesUnmoved(s.expenses, s.books.db.records, t.books.db.records);
    ExpenseDeleted(s.expenses, id, t.books.db.records, a);
    ExpensePosted(s, t, p, rid, a);
  }

  lemma HandStep(s: Shop, r: Result<Books>, a: Id)
    requires MoneyInv(s) && r.Done? && BooksOk(r.value) && DocumentRecordsKept(s.books.db.records, r.value.db.records)
    requires WithoutHand(r.value, a) == WithoutHand(s.books, a)
    ensures InBooks(s, r).Done? && Steady(s, InBooks(s, r).value, a)
  {
    BooksChange(s, r.value, a);
  }

  /** Stock requests and status changes do not enter the money. */
  lemma Apart(s: Shop, t: Shop, a: Id)
    requires MoneyInv(s) && BooksOk(t.books) && t.books.db == s.books.db && t.books.byHand == s.books.byHand
    requires t.sales == s.sales && t.purchases == s.purchases && t.expenses == s.expenses
    ensures Steady(s, t, a)
  {}

  lemma StepSteady(s: Shop, q: Request, a: Id)
    requires MoneyInv(s)
    ensures Steady(s, Next(s, q), a)
  {
    if Apply(s, q).Done? {
      if AboutSale(q) {
        SaleSteady(s, q, a);
      } else if AboutPurchase(q) {
        PurchaseSteady(s, q, a);
      } else {
        OtherSteady(s, q, a);
      }
    }
  }

  lemma SaleSteady(s: Shop, q: Request, a: Id)
    requires MoneyInv(s) && Apply(s, q).Done? && AboutSale(q)
    ensures Steady(s, Next(s, q), a)
  {
    match q
    case CreateSale(id, rid, sale) => SaleCreateStep(s, id, rid, sale, a);
    case CompleteSale(id, account, rid) => SaleCompleteStep(s, id, account, rid, a);
    case AddSaleItems(id, items) => SaleAddItemsStep(s, id, items, a);
    case RemoveSale(id, rid) => SaleRemoveStep(s, id, rid, a);
  }

  lemma PurchaseSteady(s: Shop, q: Request, a: Id)
    requires MoneyInv(s) && Apply(s, q).Done? && AboutPurchase(q)
    ensures Steady(s, Next(s, q), a)
  {
    match q
    case CreatePurchase(id, rid, p) => PurchaseCreateStep(s, id, rid, p, a);
    case CompletePurchase(id, account, rid) => PurchaseCompleteStep(s, id, account, rid, a);
    case AddPurchaseItems(id, items) => PurchaseAddItemsStep(s, id, items, a);
    case RemovePurchase(id, rid) => PurchaseRemoveStep(s, id, rid, a);
  }

  lemma OtherSteady(s: Shop, q: Request, a: Id)
    requires MoneyInv(s) && Apply(s, q).Done? && !AboutSale(q) && !AboutPurchase(q)
    ensures Steady(s, Next(s, q), a)
  {
    match q
    case CreateExpense(id, rid, account, c, amount) => ExpenseCreateStep(s, id, rid, account, c, amount, a);
    case UpdateExpense(id, c) => ExpenseUpdateStep(s, id, c, a);
    case RemoveExpense(id, rid) => ExpenseRemoveStep(s, id, rid, a);
    case PostByHand(p, rid) =>
      HandPostBooks(s.books, p, rid, a);
      HandStep(s, HandPost(s.books, p, rid), a);
    case RemoveByHand(rid) =>
      HandRemoveBooks(s.books, rid, a);
      HandStep(s, HandRemove(s.books, rid), a);
    case OpenAccount(account) =>
      OpenBooks(s.books, account, a);
      HandStep(s, BooksOpen(s.books, account), a);
    case _ => Apart(s, Next(s, q), a);
  }

  /**
   In every run each balance is its opening plus the totals of COMPLETED sales on the account,
   minus those of COMPLETED purchases and existing expenses, plus the hand entries that exist.
   */
  lemma {:induction false} RunKeepsBooks(s: Shop, qs: seq<Request>, a: Id)
    requires MoneyInv(s)
    ensures MoneyInv(Run(s, qs)) && Unexplained(Run(s, qs), a) == Unexplained(s, a)
    decreases |qs|
  {
    if |qs| > 0 {
      RunKeepsBooks(s, qs[..|qs| - 1], a);
      StepSteady(Run(s, qs[..|qs| - 1]), qs[|qs| - 1], a);
    }
  }

  predicate NoDocuments(s: Shop) {
    s.sales == map[] && s.purchases == map[] && s.expenses == map[] && s.books.db.records == map[] && s.books.byHand == map[]
  }

  /** The same, spelled out from a ledger in which nothing has been posted. */
  lemma BalanceExplained(s: Shop, qs: seq<Request>, a: Id)
    requires NoDocuments(s)
    ensures var t := Run(s, qs); var records := t.books.db.records;
            Ledger.Opening(t.books.db, a).balance
            == Ledger.Opening(s.books.db, a).balance
               + SalesWorth(t.sales, records, a) - PurchasesWorth(t.purchases, records, a)
               - ExpensesWorth(t.expenses, a) + Total(t.books.byHand, Ledger.SignedOn(a))
  {
    RunKeepsBooks(s, qs, a);
  }

  // ----- Refunds and unreachable refusals -----

  /** The record linked from a COMPLETED sale is always there, so cancelling is refused for its lack in no reachable state. */
  lemma {:induction false} OriginalAlwaysFound(s: Shop, qs: seq<Request>, id: Id)
    requires MoneyInv(s) && id in Run(s, qs).sales && Run(s, qs).sales[id].status == COMPLETED
    ensures var t := Run(s, qs);
            t.sales[id].tx.Some? && t.sales[id].tx.value in t.books.db.records
            && t.books.db.records[t.sales[id].tx.value].params.amount == t.sales[id].total
  {
    RunKeepsBooks(s, qs, 0);
    assert SaleBacked(Run(s, qs).books.db.records, Run(s, qs).sales[id]);
  }

  lemma {:induction false} OriginalPurchaseAlwaysFound(s: Shop, qs: seq<Request>, id: Id)
    requires MoneyInv(s) && id in Run(s, qs).purchases && Run(s, qs).purchases[id].status == COMPLETED
    ensures var t := Run(s, qs);
            t.purchases[id].tx.Some? && t.purchases[id].tx.value in t.books.db.records
            && t.books.db.records[t.purchases[id].tx.value].params.amount == t.purchases[id].total
  {
    RunKeepsBooks(s, qs, 0);
    assert PurchaseBacked(Run(s, qs).books.db.records, Run(s, qs).purchases[id]);
  }

  /** So a cancellation is a conflict for one reason only: the document is cancelled already. */
  lemma ConflictMeansCancelled(s: Shop, id: Id, rid: Id)
    requires MoneyInv(s) && id in s.sales
    ensures SaleRemove(s, id, rid) == Refused(Conflict) <==> s.sales[id].status == CANCELLED
  {
    assert SaleBacked(s.books.db.records, s.sales[id]);
  }

  lemma PurchaseConflictMeansCancelled(s: Shop, id: Id, rid: Id)
    requires MoneyInv(s) && id in s.purchases
    ensures PurchaseRemove(s, id, rid) == Refused(Conflict) <==> s.purchases[id].status == CANCELLED
  {
    assert PurchaseBacked(s.books.db.records, s.purchases[id]);
  }

  /** A refund record mirrors the record it refunds: same account, same amount, opposite direction. */
  lemma RefundMirrors(s: Shop, id: Id, rid: Id)
    requires MoneyInv(s) && SaleRemove(s, id, rid).Done? && s.sales[id].status == COMPLETED
    ensures var posted := s.books.db.records[s.sales[id].tx.value].params;
            var t := SaleRemove(s, id, rid).value;
            rid in t.books.db.records
            && t.books.db.records[rid].params
               == Ledger.Params(posted.account, Ledger.Opposite(posted.kind), posted.amount, Ledger.REFUND)
            && t.sales[id] == s.sales[id].(status := CANCELLED)
  {
    assert SaleBacked(s.books.db.records, s.sales[id]);
  }

  lemma PurchaseRefundMirrors(s: Shop, id: Id, rid: Id)
    requires MoneyInv(s) && PurchaseRemove(s, id, rid).Done? && s.purchases[id].status == COMPLETED
    ensures var posted := s.books.db.records[s.purchases[id].tx.value].params;
            var t := PurchaseRemove(s, id, rid).value;
            rid in t.books.db.records
            && t.books.db.records[rid].params
               == Ledger.Params(posted.account, Ledger.Opposite(posted.kind), posted.amount, Ledger.REFUND)
            && t.purchases[id] == s.purchases[id].(status := CANCELLED)
  {
    assert PurchaseBacked(s.books.db.records, s.purchases[id]);
  }

  // ----- Round trips -----

  lemma SoldRowsMoved(lines: seq<Line>, kind: MovementType, ref: Ref, k: StockKey)
    ensures Inventory.Moved(Rows(lines, kind, ref), k) == Asked(lines, k)
    decreases |lines|
  {
    if |lines| > 0 {
      var n := |lines| - 1;
      SoldRowsMoved(lines[..n], kind, ref, k);
      assert Rows(lines, kind, ref)[..n] == Rows(lines[..n], kind, ref);
    }
  }

  lemma RowsUndone(w: Warehouse, lines: seq<Line>, kind: MovementType, ref: Ref)
    requires CommerceStocks.Own(w, ref) == []
    ensures Keep(Move(w, lines, kind, ref).movements, Not(With(ref))) == w.movements
  {
    CommerceStocks.RowsCarry(lines, kind, ref);
    KeepConcat(w.movements, Rows(lines, kind, ref), Not(With(ref)));
    KeepNone(Rows(lines, kind, ref), Not(With(ref)));
    forall m | m in w.movements ensures m.ref != ref {
      assert m.ref == ref ==> m in CommerceStocks.Own(w, ref);
    }
    KeepAll(w.movements, Not(With(ref)));
  }

  lemma MoveUndone(w: Warehouse, lines: seq<Line>, kind: MovementType, ref: Ref)
    requires CommerceStocks.Own(w, ref) == []
    ensures Unmove(Move(w, lines, kind, ref), ref, Adds(kind)) == w
  {
    CommerceStocks.OwnAfterMove(w, lines, kind, ref, ref);
    assert CommerceStocks.Own(Move(w, lines, kind, ref), ref) == Rows(lines, kind, ref);
    RowsUndone(w, lines, kind, ref);
    StocksUndone(w.stocks, lines, kind, ref);
  }

  lemma StocksUndone(stocks: Stocks, lines: seq<Line>, kind: MovementType, ref: Ref)
    ensures var moved := if Adds(kind) then Increased(stocks, lines) else Decreased(stocks, lines);
            Reversed(moved, Rows(lines, kind, ref), Adds(kind)) == stocks
  {
    forall k ensures Inventory.Moved(Rows(lines, kind, ref), k) == Asked(lines, k) {
      SoldRowsMoved(lines, kind, ref, k);
    }
  }

  /** Creating a sale and cancelling it gives back every stock, every row and every balance. */
  lemma SaleThenCancel(s: Shop, id: Id, rid: Id, q: SaleRequest, refund: Id, a: Id)
    requires MoneyInv(s) && CommerceStocks.RowsPlaced(s) && id !in s.sales && q.status != CANCELLED
    requires SaleCreate(s, id, rid, q).Done? && SaleRemove(SaleCreate(s, id, rid, q).value, id, refund).Done?
    ensures var t := SaleRemove(SaleCreate(s, id, rid, q).value, id, refund).value;
            t.warehouse == s.warehouse && t.productions == s.productions
            && Ledger.Opening(t.books.db, a).balance == Ledger.Opening(s.books.db, a).balance
            && t.sales - {id} == s.sales
  {
    CommerceStocks.NoRows(s, BySale(id));
    MoveUndone(s.warehouse, Lines(q.items), SALE, BySale(id));
    var created := SaleCreate(s, id, rid, q).value;
    SaleRemoveFields(created, id, refund);
    CreatedSaleFields(s, id, rid, q);
    CancelRefunds(s, id, rid, q, refund, a);
  }

  lemma CreatedSaleFields(s: Shop, id: Id, rid: Id, q: SaleRequest)
    requires SaleCreate(s, id, rid, q).Done? && id !in s.sales
    ensures var t := SaleCreate(s, id, rid, q).value;
            t.warehouse == Move(s.warehouse, Lines(q.items), SALE, BySale(id)) && t.sales - {id} == s.sales
            && id in t.sales && t.sales[id].status == q.status && t.productions == s.productions
  {}

  lemma SaleRemoveFields(s: Shop, id: Id, rid: Id)
    requires SaleRemove(s, id, rid).Done?
    ensures var t := SaleRemove(s, id, rid).value;
            t.warehouse == Unmove(s.warehouse, BySale(id), false) && t.sales - {id} == s.sales - {id}
            && t.productions == s.productions
  {}

  lemma CancelRefunds(s: Shop, id: Id, rid: Id, q: SaleRequest, refund: Id, a: Id)
    requires MoneyInv(s) && id !in s.sales && q.status != CANCELLED
    requires SaleCreate(s, id, rid, q).Done? && SaleRemove(SaleCreate(s, id, rid, q).value, id, refund).Done?
    ensures var t := SaleRemove(SaleCreate(s, id, rid, q).value, id, refund).value;
            Ledger.Opening(t.books.db, a).balance == Ledger.Opening(s.books.db, a).balance
  {
    var sale := NewSale(q);
    if q.status == COMPLETED {
      var account := q.account.value;
      var credit := Ledger.Params(account, Ledger.CREDIT, sale.total, Ledger.Operation.SALE);
      var debit := Ledger.Params(account, Ledger.DEBIT, sale.total, Ledger.REFUND);
      PostMoves(s.books, credit, rid, a);
      PostKeepsBooks(s.books, credit, rid, a);
      PostMoves(Post(s.books, credit, rid).value, debit, refund, a);
    }
  }

  /** Creating a purchase and cancelling it gives back everything but the empty stock rows it made. */
  lemma PurchaseThenCancel(s: Shop, id: Id, rid: Id, q: PurchaseRequest, refund: Id, a: Id)
    requires MoneyInv(s) && CommerceStocks.RowsPlaced(s) && id !in s.purchases && q.status != CANCELLED
    requires PurchaseCreate(s, id, rid, q).Done? && PurchaseRemove(PurchaseCreate(s, id, rid, q).value, id, refund).Done?
    ensures var t := PurchaseRemove(PurchaseCreate(s, id, rid, q).value, id, refund).value;
            t.warehouse == Stocking(s.warehouse, Lines(q.items))
            && Ledger.Opening(t.books.db, a).balance == Ledger.Opening(s.books.db, a).balance
  {
    CommerceStocks.NoRows(s, ByPurchase(id));
    MoveUndone(Stocking(s.warehouse, Lines(q.items)), Processed(q.status, Lines(q.items)), PURCHASE, ByPurchase(id));
    PurchaseRefunds(s, id, rid, q, refund, a);
    PurchaseWarehouses(s, id, rid, q, refund);
  }

  lemma PurchaseWarehouses(s: Shop, id: Id, rid: Id, q: PurchaseRequest, refund: Id)
    requires PurchaseCreate(s, id, rid, q).Done? && PurchaseRemove(PurchaseCreate(s, id, rid, q).value, id, refund).Done?
    ensures PurchaseRemove(PurchaseCreate(s, id, rid, q).value, id, refund).value.warehouse
         == Unmove(Bought(s.warehouse, id, Lines(q.items), Processed(q.status, Lines(q.items))), ByPurchase(id), true)
  {
    CreatedPurchaseFields(s, id, rid, q);
    PurchaseRemoveFields(PurchaseCreate(s, id, rid, q).value, id, refund);
  }

  lemma CreatedPurchaseFields(s: Shop, id: Id, rid: Id, q: PurchaseRequest)
    requires PurchaseCreate(s, id, rid, q).Done?
    ensures PurchaseCreate(s, id, rid, q).value.warehouse == Bought(s.warehouse, id, Lines(q.items), Processed(q.status, Lines(q.items)))
  {}

  lemma PurchaseRemoveFields(s: Shop, id: Id, rid: Id)
    requires PurchaseRemove(s, id, rid).Done?
    ensures PurchaseRemove(s, id, rid).value.warehouse == Unmove(s.warehouse, ByPurchase(id), true)
  {}

  lemma PurchaseRefunds(s: Shop, id: Id, rid: Id, q: PurchaseRequest, refund: Id, a: Id)
    requires MoneyInv(s) && id !in s.purchases && q.status != CANCELLED
    requires PurchaseCreate(s, id, rid, q).Done? && PurchaseRemove(PurchaseCreate(s, id, rid, q).value, id, refund).Done?
    ensures var t := PurchaseRemove(PurchaseCreate(s, id, rid, q).value, id, refund).value;
            Ledger.Opening(t.books.db, a).balance == Ledger.Opening(s.books.db, a).balance
  {
    var t := PurchaseCreate(s, id, rid, q).value;
    if q.status == COMPLETED {
      var account, total := q.account.value, CalcTotal(Lines(q.items));
      var debit := Ledger.Params(account, Ledger.DEBIT, total, Ledger.Operation.PURCHASE);
      DebitedBooks(s, id, rid, q);
      PostMoves(s.books, debit, rid, a);
      PostKeepsBooks(s.books, debit, rid, a);
      RefundBooks(t, id, refund);
      PostMoves(t.books, Ledger.Params(account, Ledger.CREDIT, total, Ledger.REFUND), refund, a);
    } else {
      PendingBooks(s, id, rid, q, refund);
    }
  }

  lemma DebitedBooks(s: Shop, id: Id, rid: Id, q: PurchaseRequest)
    requires q.status == COMPLETED && PurchaseCreate(s, id, rid, q).Done?
    ensures q.account.Some?
    ensures var t := PurchaseCreate(s, id, rid, q).value;
            var total := CalcTotal(Lines(q.items));
            var posted := Post(s.books, Ledger.Params(q.account.value, Ledger.DEBIT, total, Ledger.Operation.PURCHASE), rid);
            posted.Done? && t.books == posted.value && id in t.purchases && t.purchases[id] == Purchase(COMPLETED, total, Some(rid))
  {}

  lemma RefundBooks(t: Shop, id: Id, refund: Id)
    requires PurchaseRemove(t, id, refund).Done? && t.purchases[id].status == COMPLETED
    ensures t.purchases[id].tx.Some? && t.purchases[id].tx.value in t.books.db.records
    ensures var account := t.books.db.records[t.purchases[id].tx.value].params.account;
            var posted := Post(t.books, Ledger.Params(account, Ledger.CREDIT, t.purchases[id].total, Ledger.REFUND), refund);
            posted.Done? && PurchaseRemove(t, id, refund).value.books == posted.value
  {}

  lemma PendingBooks(s: Shop, id: Id, rid: Id, q: PurchaseRequest, refund: Id)
    requires q.status == PENDING && PurchaseCreate(s, id, rid, q).Done?
    requires PurchaseRemove(PurchaseCreate(s, id, rid, q).value, id, refund).Done?
    ensures PurchaseRemove(PurchaseCreate(s, id, rid, q).value, id, refund).value.books == s.books
  {}

  /** Taking an order first and completing it later is one COMPLETED creation, if nothing comes between. */
  lemma PendingThenComplete(s: Shop, id: Id, rid: Id, q: SaleRequest)
    requires q.status == COMPLETED && q.account.Some? && q.hasMethod
    ensures var later := SaleCreate(s, id, rid, q.(status := PENDING));
            SaleCreate(s, id, rid, q) == if later.Refused? then later else SaleComplete(later.value, id, q.account.value, rid)
  {
    var pending := NewSale(q.(status := PENDING));
    assert s.sales[id := NewSale(q)][id := NewSale(q).(tx := Some(rid))]
        == s.sales[id := pending][id := pending.(status := COMPLETED, tx := Some(rid))];
  }
}

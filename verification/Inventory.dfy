/**
 Product stocks, their movement rows, and the document lines that move them
 (src/modules/sales/sales.service.ts, src/modules/product-purchases/product-purchases.service.ts,
  src/modules/inventory-movements/inventory-movements.service.ts).
 */
module Inventory {
  import opened Options
  import opened Sums

  type Id = nat

  datatype StockKey = StockKey(product: Id, location: string)

  /** One requested line; an empty location means the main one. */
  datatype Item = Item(product: Id, location: string, quantity: real, unit: Option<real>)

  datatype Line = Line(key: StockKey, quantity: real, unit: Option<real>)

  const PRINCIPAL := "Principal"

  function LineOf(i: Item): Line {
    Line(StockKey(i.product, if i.location == "" then PRINCIPAL else i.location), i.quantity, i.unit)
  }

  function Lines(items: seq<Item>): (r: seq<Line>)
    ensures |r| == |items|
  {
    seq(|items|, i requires 0 <= i < |items| => LineOf(items[i]))
  }

  datatype MovementType = SALE | PRODUCTION | PURCHASE | ADJUSTMENT | WASTE | TESTS
  datatype Ref = BySale(id: Id) | ByPurchase(id: Id) | ByProduction(id: Id) | ByHand
  datatype Movement = Movement(key: StockKey, quantity: real, unit: Option<real>, kind: MovementType, ref: Ref)

  predicate Adds(kind: MovementType) {
    kind in {PURCHASE, PRODUCTION, ADJUSTMENT}
  }

  /** What a movement row says happened to a stock. */
  function Effect(k: StockKey): Movement -> real {
    (m: Movement) => if m.key != k then 0.0 else if Adds(m.kind) then m.quantity else -m.quantity
  }

  function QuantityAt(k: StockKey): Line -> real {
    (l: Line) => if l.key == k then l.quantity else 0.0
  }

  function MovedAt(k: StockKey): Movement -> real {
    (m: Movement) => if m.key == k then m.quantity else 0.0
  }

  /** Everything a document asks for at one stock. */
  function Asked(lines: seq<Line>, k: StockKey): real {
    Sum(lines, QuantityAt(k))
  }

  function Times(unit: real, quantity: real): real {
    unit * quantity
  }

  /** unit price times quantity; a line without a price costs nothing. */
  function Priced(): Line -> real {
    (l: Line) => if l.unit.Some? then Times(l.unit.value, l.quantity) else 0.0
  }

  function CalcTotal(lines: seq<Line>): real {
    Sum(lines, Priced())
  }

  function Rows(lines: seq<Line>, kind: MovementType, ref: Ref): (r: seq<Movement>)
    ensures |r| == |lines|
  {
    seq(|lines|, i requires 0 <= i < |lines| => Movement(lines[i].key, lines[i].quantity, lines[i].unit, kind, ref))
  }

  // ----- Stocks -----

  type Stocks = map<StockKey, real>

  function Increased(stocks: Stocks, lines: seq<Line>): (r: Stocks)
    ensures r.Keys == stocks.Keys
  {
    map k | k in stocks :: stocks[k] + Asked(lines, k)
  }

  function Decreased(stocks: Stocks, lines: seq<Line>): (r: Stocks)
    ensures r.Keys == stocks.Keys
  {
    map k | k in stocks :: stocks[k] - Asked(lines, k)
  }

  function Moved(ms: seq<Movement>, k: StockKey): real {
    Sum(ms, MovedAt(k))
  }

  predicate Stocked(stocks: Stocks, lines: seq<Line>) {
    forall l :: l in lines ==> l.key in stocks
  }

  /** No stock named by the document would go below zero. */
  predicate Sufficient(stocks: Stocks, lines: seq<Line>) {
    forall l :: l in lines && l.key in stocks ==> stocks[l.key] >= Asked(lines, l.key)
  }

  function WithStocks(stocks: Stocks, lines: seq<Line>): (r: Stocks)
    ensures forall k :: k in r <==> k in stocks || exists l :: l in lines && l.key == k
    ensures forall k :: k in r ==> r[k] == if k in stocks then stocks[k] else 0.0
  {
    if |lines| == 0 then stocks
    else
      var front := WithStocks(stocks, lines[..|lines| - 1]);
      var last := lines[|lines| - 1];
      assert lines == lines[..|lines| - 1] + [last];
      if last.key in front then front else front[last.key := 0.0]
  }

  /** Each stock is the signed sum of the movement rows pointing at it. */
  predicate Explained(stocks: Stocks, ms: seq<Movement>) {
    (forall k :: k in stocks ==> stocks[k] == Sum(ms, Effect(k)))
    && (forall m :: m in ms ==> m.key in stocks)
  }

  // ----- Rows tell what documents did -----

  lemma {:induction false} RowsEffect(lines: seq<Line>, kind: MovementType, ref: Ref, k: StockKey)
    ensures Sum(Rows(lines, kind, ref), Effect(k)) == if Adds(kind) then Asked(lines, k) else -Asked(lines, k)
  {
    if |lines| > 0 {
      var n := |lines| - 1;
      RowsEffect(lines[..n], kind, ref, k);
      assert Rows(lines, kind, ref)[..n] == Rows(lines[..n], kind, ref);
    }
  }

  lemma RowsIncrease(stocks: Stocks, ms: seq<Movement>, lines: seq<Line>, kind: MovementType, ref: Ref)
    requires Explained(stocks, ms) && Stocked(stocks, lines)
    ensures Explained(if Adds(kind) then Increased(stocks, lines) else Decreased(stocks, lines), ms + Rows(lines, kind, ref))
  {
    var rows := Rows(lines, kind, ref);
    var after := if Adds(kind) then Increased(stocks, lines) else Decreased(stocks, lines);
    forall k | k in after
      ensures after[k] == Sum(ms + rows, Effect(k))
    {
      SumConcat(ms, rows, Effect(k));
      RowsEffect(lines, kind, ref, k);
    }
    forall m | m in ms + rows ensures m.key in after {
      if m in rows {
        var i :| 0 <= i < |rows| && rows[i] == m;
        assert lines[i] in lines;
      }
    }
  }

  lemma NewStocksExplained(stocks: Stocks, ms: seq<Movement>, lines: seq<Line>)
    requires Explained(stocks, ms)
    ensures Explained(WithStocks(stocks, lines), ms) && Stocked(WithStocks(stocks, lines), lines)
  {
    var after := WithStocks(stocks, lines);
    forall k | k in after
      ensures after[k] == Sum(ms, Effect(k))
    {
      if k !in stocks {
        SumZero(ms, Effect(k));
      }
    }
  }

  function With(ref: Ref): Movement -> bool {
    (m: Movement) => m.ref == ref
  }

  /** Put back what the rows of one document took or brought: the sign depends on what they were. */
  function Reversed(stocks: Stocks, own: seq<Movement>, adding: bool): (r: Stocks)
    ensures r.Keys == stocks.Keys
  {
    map k | k in stocks :: if adding then stocks[k] - Moved(own, k) else stocks[k] + Moved(own, k)
  }

  lemma {:induction false} MovedIsEffect(own: seq<Movement>, k: StockKey, adding: bool)
    requires forall m :: m in own ==> Adds(m.kind) == adding
    ensures Sum(own, Effect(k)) == if adding then Moved(own, k) else -Moved(own, k)
  {
    if |own| > 0 {
      var n := |own| - 1;
      assert own[n] in own;
      assert forall m :: m in own[..n] ==> m in own;
      MovedIsEffect(own[..n], k, adding);
    }
  }

  /** Reversing the stocks of a document's rows and deleting the rows keeps every stock explained. */
  lemma DeletedRowsReverse(stocks: Stocks, ms: seq<Movement>, ref: Ref, adding: bool)
    requires Explained(stocks, ms)
    requires forall m :: m in ms && m.ref == ref ==> Adds(m.kind) == adding
    ensures Explained(Reversed(stocks, Keep(ms, With(ref)), adding), Keep(ms, Not(With(ref))))
  {
    var own := Keep(ms, With(ref));
    var after := Reversed(stocks, own, adding);
    forall k | k in after
      ensures after[k] == Sum(Keep(ms, Not(With(ref))), Effect(k))
    {
      SumSplit(ms, With(ref), Effect(k));
      MovedIsEffect(own, k, adding);
    }
  }

  // ----- A sale never drives stock negative -----

  predicate NonNegative(stocks: Stocks) {
    forall k :: k in stocks ==> stocks[k] >= 0.0
  }

  predicate Positive(lines: seq<Line>) {
    forall l :: l in lines ==> l.quantity > 0.0
  }

  lemma {:induction false} AskedMonotone(lines: seq<Line>, n: nat, k: StockKey)
    requires Positive(lines) && n <= |lines|
    ensures 0.0 <= Asked(lines[..n], k) <= Asked(lines, k)
    decreases |lines|
  {
    if |lines| == n {
      assert lines[..n] == lines;
      forall l | l in lines ensures QuantityAt(k)(l) >= 0.0 {}
      SumNonNegative(lines, QuantityAt(k));
    } else {
      var m := |lines| - 1;
      assert lines[m] in lines;
      assert forall l :: l in lines[..m] ==> l in lines;
      assert lines[..m][..n] == lines[..n];
      AskedMonotone(lines[..m], n, k);
    }
  }

  lemma AskedNothing(lines: seq<Line>, k: StockKey)
    requires forall l :: l in lines ==> l.key != k
    ensures Asked(lines, k) == 0.0
  {
    SumZero(lines, QuantityAt(k));
  }

  /**
   The check on aggregated quantities is enough for the one-by-one loop: after any number
   of its decrements every stock is still at or above zero, repeated products included.
   */
  lemma SufficientAtEveryTurn(stocks: Stocks, lines: seq<Line>, n: nat)
    requires NonNegative(stocks) && Positive(lines) && Sufficient(stocks, lines) && n <= |lines|
    ensures NonNegative(Decreased(stocks, lines[..n]))
  {
    forall k | k in stocks
      ensures stocks[k] - Asked(lines[..n], k) >= 0.0
    {
      AskedMonotone(lines, n, k);
      if forall l :: l in lines ==> l.key != k {
        AskedNothing(lines, k);
      } else {
        var l :| l in lines && l.key == k;
        assert stocks[l.key] >= Asked(lines, l.key);
      }
    }
  }

  /** And the check is not too strict: a document that leaves every stock at or above zero passes it. */
  lemma SufficientIff(stocks: Stocks, lines: seq<Line>)
    requires NonNegative(stocks) && Positive(lines) && Stocked(stocks, lines)
    ensures Sufficient(stocks, lines) <==> NonNegative(Decreased(stocks, lines))
  {
    if Sufficient(stocks, lines) {
      SufficientAtEveryTurn(stocks, lines, |lines|);
      assert lines[..|lines|] == lines;
    } else {
      var l :| l in lines && l.key in stocks && stocks[l.key] < Asked(lines, l.key);
      assert Decreased(stocks, lines)[l.key] < 0.0;
    }
  }
}

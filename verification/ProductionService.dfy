/**
 The production service in the form the code has: an entry entity that is consumed
 in place, nested loops over supplies and entries, and tables written row by row.
 Each method is proved equal to the operation of module Productions it implements.
 */
module ProductionService {
  import opened Options
  import opened Sums
  import opened Fifo
  import opened Productions
  import Runs = ProductionRuns

  class SupplyStockEntryEntity {
    var remainingQuantity: real
    var isExhausted: bool
    const initial: real
    const unitCost: real

    constructor (row: Entry)
      ensures Row() == row
    {
      remainingQuantity, isExhausted := row.remaining, row.exhausted;
      initial, unitCost := row.initial, row.unitCost;
    }

    function Row(): Entry
      reads this
    {
      Entry(initial, remainingQuantity, unitCost, isExhausted)
    }

    method Consume(amount: real, exhaustAll: bool) returns (consumed: Option<real>)
      modifies this
      ensures consumed.None? <==> old(isExhausted) || (!exhaustAll && amount > old(remainingQuantity))
      ensures consumed.None? ==> Row() == old(Row())
      ensures consumed.Some? && exhaustAll ==>
                consumed.value == old(remainingQuantity) && remainingQuantity == 0.0 && isExhausted
      ensures consumed.Some? && !exhaustAll ==>
                consumed.value == amount && remainingQuantity == old(remainingQuantity) - amount
                && (isExhausted <==> remainingQuantity == 0.0)
    {
      if isExhausted {
        return None;
      }
      if exhaustAll {
        consumed := Some(remainingQuantity);
        remainingQuantity := 0.0;
        isExhausted := true;
        return;
      }
      if amount > remainingQuantity {
        return None;
      }
      remainingQuantity := remainingQuantity - amount;
      if remainingQuantity == 0.0 {
        isExhausted := true;
      }
      consumed := Some(amount);
    }
  }

  // ----- Where the loops stand after i entries -----

  /** Rows as stored once a loop has passed the first i entries. */
  ghost predicate Passed(es: seq<Entry>, taken: seq<real>, i: nat, rows: seq<Entry>) {
    |taken| == |es| == |rows| && i <= |es|
    && (forall j :: 0 <= j < i ==> rows[j] == Consume(es[j], taken[j]))
    && (forall j :: i <= j < |es| ==> rows[j] == es[j])
  }

  /** The next entry is passed by writing what it has left, or by leaving it when nothing is taken. */
  lemma PassedNext(es: seq<Entry>, taken: seq<real>, i: nat, rows: seq<Entry>)
    requires Passed(es, taken, i, rows) && i < |es|
    ensures Passed(es, taken, i + 1, rows[i := Consume(es[i], taken[i])])
    ensures taken[i] == 0.0 ==> Passed(es, taken, i + 1, rows)
  {}

  lemma UsageStep(id: Key, supply: Key, es: seq<Entry>, taken: seq<real>, i: nat)
    requires |taken| == |es| && i < |es|
    ensures UsagesFrom(id, supply, es[..i + 1], taken[..i + 1])
         == if taken[i] == 0.0 then UsagesFrom(id, supply, es[..i], taken[..i])
            else UsagesFrom(id, supply, es[..i], taken[..i]) + [Used(id, supply, i, taken[i], es[i].unitCost)]
  {
    var front, amounts := es[..i + 1], taken[..i + 1];
    assert front[..i] == es[..i] && amounts[..i] == taken[..i];
    assert front[i] == es[i] && amounts[i] == taken[i];
  }

  /** When nothing more is taken from entry i on, the loop may stop there. */
  lemma {:induction false} RestUntouched(id: Key, supply: Key, es: seq<Entry>, taken: seq<real>, i: nat)
    requires |taken| == |es| && i <= |es|
    requires forall j :: i <= j < |es| ==> taken[j] == 0.0
    ensures forall rows :: Passed(es, taken, i, rows) ==> rows == Consumed(es, taken)
    ensures UsagesFrom(id, supply, es[..i], taken[..i]) == UsagesFrom(id, supply, es, taken)
    decreases |es| - i
  {
    if i < |es| {
      RestUntouched(id, supply, es, taken, i + 1);
      UsageStep(id, supply, es, taken, i);
    } else {
      assert es[..i] == es && taken[..i] == taken;
    }
  }

  /** What the loop still has to find when it reaches entry i. */
  ghost function Left(es: seq<Entry>, q: real, i: nat): (r: real)
    requires i <= |es|
    ensures r >= 0.0
  {
    Max(0.0, q - Available(es[..i]))
  }

  /** One turn of the measurable loop: what it takes, and where it leaves the loop variables. */
  lemma MeasurableTurn(id: Key, k: Key, es: seq<Entry>, q: real, i: nat, t: real)
    requires AllOk(es) && i < |es|
    requires t == if es[i].exhausted then 0.0 else Min(Left(es, q, i), es[i].remaining)
    ensures Left(es, q, i + 1) == Left(es, q, i) - t
    ensures Left(es, q, i) > 0.0 && !es[i].exhausted ==> 0.0 < t <= es[i].remaining
    ensures Taken(es, q)[i] == t
    ensures t == 0.0 ==> UsagesFrom(id, k, es[..i + 1], Taken(es, q)[..i + 1]) == UsagesFrom(id, k, es[..i], Taken(es, q)[..i])
    ensures t != 0.0 ==> UsagesFrom(id, k, es[..i + 1], Taken(es, q)[..i + 1])
                         == UsagesFrom(id, k, es[..i], Taken(es, q)[..i]) + [Used(id, k, i, t, es[i].unitCost)]
  {
    AvailableNext(es, i);
    assert EntryOk(es[i]);
    assert Taken(es, q)[i] == t;
    UsageStep(id, k, es, Taken(es, q), i);
  }

  lemma MeasurableEnd(id: Key, k: Key, es: seq<Entry>, q: real, i: nat)
    requires AllOk(es) && i <= |es| && (i < |es| ==> Available(es[..i]) >= q)
    ensures Available(es[..i]) >= q <==> Available(es) >= q
    ensures Available(es) >= q ==>
              (forall rows :: Passed(es, Taken(es, q), i, rows) ==> rows == Drained(es, q))
              && UsagesFrom(id, k, es[..i], Taken(es, q)[..i]) == UsagesFrom(id, k, es, Taken(es, q))
  {
    AvailableMonotone(es, i, |es|);
    assert es[..|es|] == es;
    if Available(es) >= q {
      NothingAfter(es, q, i);
      RestUntouched(id, k, es, Taken(es, q), i);
    }
  }

  lemma WholeTurn(id: Key, k: Key, es: seq<Entry>, n: int, i: nat, t: real)
    requires AllOk(es) && i < |es| && Open(es[..i]) < n
    requires t == if es[i].exhausted then 0.0 else es[i].remaining
    ensures TakenWhole(es, n)[i] == t
    ensures !es[i].exhausted ==> t > 0.0
    ensures Open(es[..i + 1]) == Open(es[..i]) + (if es[i].exhausted then 0 else 1)
    ensures t == 0.0 ==> UsagesFrom(id, k, es[..i + 1], TakenWhole(es, n)[..i + 1]) == UsagesFrom(id, k, es[..i], TakenWhole(es, n)[..i])
    ensures t != 0.0 ==> UsagesFrom(id, k, es[..i + 1], TakenWhole(es, n)[..i + 1])
                         == UsagesFrom(id, k, es[..i], TakenWhole(es, n)[..i]) + [Used(id, k, i, t, es[i].unitCost)]
  {
    UsageStep(id, k, es, TakenWhole(es, n), i);
    assert EntryOk(es[i]);
    assert es[..i + 1][..i] == es[..i];
  }

  lemma NothingAfter(es: seq<Entry>, q: real, i: nat)
    requires AllOk(es) && i <= |es| && Available(es[..i]) >= q
    ensures forall j :: i <= j < |es| ==> Taken(es, q)[j] == 0.0
  {
    forall j | i <= j < |es| ensures Taken(es, q)[j] == 0.0 {
      AvailableMonotone(es, i, j);
    }
  }

  lemma OpenMonotone(es: seq<Entry>, i: nat, j: nat)
    requires i <= j <= |es|
    ensures Open(es[..i]) <= Open(es[..j])
    decreases j
  {
    if i < j {
      OpenMonotone(es, i, j - 1);
      assert es[..j][..j - 1] == es[..j - 1];
    }
  }

  lemma NothingWholeAfter(es: seq<Entry>, n: int, i: nat)
    requires i <= |es| && Open(es[..i]) >= n
    ensures forall j :: i <= j < |es| ==> TakenWhole(es, n)[j] == 0.0
  {
    forall j | i <= j < |es| ensures TakenWhole(es, n)[j] == 0.0 {
      OpenMonotone(es, i, j);
    }
  }

  /** The exception a refusal is thrown as. */
  function ErrorOf(r: Result<State>): Option<Error> {
    match r
    case Ok(_) => None
    case Err(e) => Some(e)
  }

  class ProductionsService {
    var supplies: map<Key, Supply>
    var stocks: map<Key, SupplyStock>
    var usages: seq<Usage>
    var movements: seq<SupplyMovement>
    var productions: map<Key, Production>
    var products: map<Key, real>
    var inventory: seq<InventoryMovement>

    function Tables(): State
      reads this
    {
      State(supplies, stocks, usages, movements, productions, products, inventory)
    }

    constructor (s: State)
      ensures Tables() == s
    {
      supplies, stocks, usages, movements := s.supplies, s.stocks, s.usages, s.movements;
      productions, products, inventory := s.productions, s.products, s.inventory;
    }

    /** The end of a transaction whose callback threw. */
    method Rollback(s: State)
      modifies this
      ensures Tables() == s
    {
      supplies, stocks, usages, movements := s.supplies, s.stocks, s.usages, s.movements;
      productions, products, inventory := s.productions, s.products, s.inventory;
    }

    method UpdateConsumption(k: Key, i: nat, row: Entry)
      requires k in stocks && i < |stocks[k].entries|
      modifies this`stocks
      ensures stocks == old(stocks)[k := SupplyStock(old(stocks)[k].quantity, old(stocks)[k].entries[i := row])]
    {
      stocks := stocks[k := SupplyStock(stocks[k].quantity, stocks[k].entries[i := row])];
    }

    /** Positions of the open entries, oldest first. */
    method FindAvailable(es: seq<Entry>) returns (positions: seq<nat>)
      requires AllOk(es)
      ensures forall a, b :: 0 <= a < b < |positions| ==> positions[a] < positions[b]
      ensures forall j: nat :: j in positions <==> j < |es| && !es[j].exhausted
      ensures |positions| == Fifo.Open(es)
      ensures positions == [] ==> Available(es) == 0.0
    {
      positions := [];
      for i := 0 to |es|
        invariant forall a, b :: 0 <= a < b < |positions| ==> positions[a] < positions[b]
        invariant forall a :: 0 <= a < |positions| ==> positions[a] < i
        invariant forall j: nat :: j in positions <==> j < i && !es[j].exhausted
        invariant |positions| == Fifo.Open(es[..i])
        invariant positions == [] ==> Available(es[..i]) == 0.0
      {
        AvailableNext(es, i);
        assert es[..i + 1][..i] == es[..i];
        assert EntryOk(es[i]);
        if !es[i].exhausted {
          positions := positions + [i];
        }
      }
      assert es[..|es|] == es;
    }

    /** One turn of either inner loop: consume the entity, persist it, make its usage record. */
    method ConsumeEntry(id: Key, k: Key, i: nat, row: Entry, amount: real, exhaustAll: bool) returns (record: Usage)
      requires k in stocks && i < |stocks[k].entries| && stocks[k].entries[i] == row
      requires EntryOk(row) && !row.exhausted && 0.0 < amount <= row.remaining
      requires exhaustAll ==> amount == row.remaining
      modifies this`stocks
      ensures stocks == old(stocks)[k := SupplyStock(old(stocks)[k].quantity, old(stocks)[k].entries[i := Consume(row, amount)])]
      ensures record == Used(id, k, i, amount, row.unitCost)
    {
      var entry := new SupplyStockEntryEntity(row);
      var consumed := entry.Consume(amount, exhaustAll);
      assert entry.Row() == Consume(row, amount);
      UpdateConsumption(k, i, entry.Row());
      record := Used(id, k, i, consumed.value, row.unitCost);
    }

    /** The inner loop over a measurable supply's entries, up to where it stops. */
    method DrainEntries(id: Key, k: Key, required: real) returns (i: nat, remaining: real, records: seq<Usage>, cost: real)
      requires k in stocks && AllOk(stocks[k].entries) && required > 0.0
      modifies this`stocks
      ensures i <= |old(stocks)[k].entries|
      ensures remaining == Left(old(stocks)[k].entries, required, i)
      ensures i < |old(stocks)[k].entries| ==> remaining == 0.0
      ensures k in stocks && stocks == old(stocks)[k := SupplyStock(old(stocks)[k].quantity, stocks[k].entries)]
      ensures Passed(old(stocks)[k].entries, Taken(old(stocks)[k].entries, required), i, stocks[k].entries)
      ensures records == UsagesFrom(id, k, old(stocks)[k].entries[..i], Taken(old(stocks)[k].entries, required)[..i])
      ensures cost == Sum(records, Cost())
    {
      records, cost := [], 0.0;
      var es := stocks[k].entries;
      ghost var taken := Taken(es, required);
      remaining := required;
      i := 0;
      assert stocks == stocks[k := SupplyStock(stocks[k].quantity, es)];
      while i < |es|
        invariant 0 <= i <= |es|
        invariant remaining == Left(es, required, i)
        invariant k in stocks && stocks == old(stocks)[k := SupplyStock(old(stocks)[k].quantity, stocks[k].entries)]
        invariant Passed(es, taken, i, stocks[k].entries)
        invariant records == UsagesFrom(id, k, es[..i], taken[..i])
        invariant cost == Sum(records, Cost())
      {
        if remaining == 0.0 {
          break;
        }
        var toConsume := if es[i].exhausted then 0.0 else Min(remaining, es[i].remaining);
        MeasurableTurn(id, k, es, required, i, toConsume);
        PassedNext(es, taken, i, stocks[k].entries);
        if !es[i].exhausted {
          var record := ConsumeEntry(id, k, i, es[i], toConsume, false);
          SumPush(records, record, Cost());
          cost := cost + record.total;
          remaining := remaining - toConsume;
          records := records + [record];
        }
        i := i + 1;
      }
    }

    method ConsumeMeasurable(id: Key, k: Key, required: real) returns (ok: bool, records: seq<Usage>, cost: real)
      requires k in stocks && AllOk(stocks[k].entries) && required > 0.0
      modifies this`stocks
      ensures ok <==> Available(old(stocks)[k].entries) >= required
      ensures ok ==> stocks == old(stocks)[k := SupplyStock(old(stocks)[k].quantity, Drained(old(stocks)[k].entries, required))]
      ensures ok ==> records == UsagesFrom(id, k, old(stocks)[k].entries, Taken(old(stocks)[k].entries, required))
      ensures ok ==> cost == Sum(records, Cost())
    {
      var es := stocks[k].entries;
      var available := FindAvailable(es);
      if |available| == 0 {
        return false, [], 0.0;
      }
      var i, remaining;
      i, remaining, records, cost := DrainEntries(id, k, required);
      MeasurableEnd(id, k, es, required, i);
      ok := remaining == 0.0;
    }

    /** The inner loop over a unit supply's entries: each is emptied whole. */
    method EmptyEntries(id: Key, k: Key, es: seq<Entry>, wanted: int) returns (i: nat, records: seq<Usage>, cost: real)
      requires k in stocks && stocks[k].entries == es && AllOk(es)
      modifies this`stocks
      ensures i <= |es|
      ensures i < |es| ==> Fifo.Open(es[..i]) >= wanted
      ensures k in stocks && stocks == old(stocks)[k := SupplyStock(old(stocks)[k].quantity, stocks[k].entries)]
      ensures Passed(es, TakenWhole(es, wanted), i, stocks[k].entries)
      ensures records == UsagesFrom(id, k, es[..i], TakenWhole(es, wanted)[..i])
      ensures cost == Sum(records, Cost())
    {
      records, cost := [], 0.0;
      ghost var taken := TakenWhole(es, wanted);
      var unitsToConsume := wanted;
      i := 0;
      while i < |es|
        invariant 0 <= i <= |es|
        invariant unitsToConsume == wanted - Fifo.Open(es[..i])
        invariant k in stocks && stocks == old(stocks)[k := SupplyStock(old(stocks)[k].quantity, stocks[k].entries)]
        invariant Passed(es, taken, i, stocks[k].entries)
        invariant records == UsagesFrom(id, k, es[..i], taken[..i])
        invariant cost == Sum(records, Cost())
      {
        if unitsToConsume <= 0 {
          break;
        }
        var lot := if es[i].exhausted then 0.0 else es[i].remaining;
        WholeTurn(id, k, es, wanted, i, lot);
        PassedNext(es, taken, i, stocks[k].entries);
        if !es[i].exhausted {
          var record := ConsumeEntry(id, k, i, es[i], lot, true);
          SumPush(records, record, Cost());
          cost := cost + record.total;
          records := records + [record];
          unitsToConsume := unitsToConsume - 1;
        }
        i := i + 1;
      }
    }

    method ConsumeUnits(id: Key, k: Key, quantity: real) returns (records: seq<Usage>, cost: real)
      requires k in stocks && AllOk(stocks[k].entries)
      modifies this`stocks
      ensures var es := old(stocks)[k].entries;
              var taken := TakenWhole(es, CeilInt(quantity));
              stocks == old(stocks)[k := SupplyStock(old(stocks)[k].quantity, Consumed(es, taken))]
              && records == UsagesFrom(id, k, es, taken)
              && cost == Sum(records, Cost())
    {
      var es := stocks[k].entries;
      var wanted := CeilInt(quantity);
      var i;
      i, records, cost := EmptyEntries(id, k, es, wanted);
      if i < |es| {
        NothingWholeAfter(es, wanted, i);
      }
      RestUntouched(id, k, es, TakenWhole(es, wanted), i);
    }

    /** Whole packages covering what the entries hold. */
    method SyncQuantityWithEntries(k: Key)
      requires k in stocks
      modifies this`stocks
      ensures stocks == old(stocks)[k := Synced(old(stocks)[k].entries)]
    {
      var total := 0.0;
      var es := stocks[k].entries;
      for i := 0 to |es|
        invariant total == Available(es[..i]) && stocks == old(stocks)
      {
        AvailableNext(es, i);
        total := total + es[i].remaining;
      }
      assert es[..|es|] == es;
      stocks := stocks[k := Aggregate(total, es)];
    }

    method Validate(inputs: seq<Input>) returns (ok: bool)
      requires Known(Tables(), inputs) && Positive(inputs)
      ensures ok <==> Validated(Tables(), inputs)
    {
      for i := 0 to |inputs|
        invariant forall j :: 0 <= j < i ==>
                    inputs[j].supply in stocks
                    && EnoughFor(supplies[inputs[j].supply], stocks[inputs[j].supply], inputs[j].quantity)
      {
        if inputs[i].supply !in stocks {
          return false;
        }
        var supply, stock := supplies[inputs[i].supply], stocks[inputs[i].supply];
        if supply.measurable && stock.quantity < inputs[i].quantity / supply.packageSize {
          return false;
        }
        if !supply.measurable && stock.quantity < 1.0 {
          return false;
        }
      }
      ok := true;
    }

    /** One turn of the outer loop: consume a supply, refresh its aggregate, write its movement. */
    method ConsumeSupply(id: Key, supply: Supply, input: Input) returns (ok: bool, records: seq<Usage>, cost: real)
      requires supply.packageSize > 0.0 && input.quantity > 0.0
      requires input.supply in stocks && AllOk(stocks[input.supply].entries)
      modifies this`stocks, this`movements
      ensures ok <==> TurnOf(old(stocks)[input.supply], id, supply, input).Some?
      ensures ok ==>
                var t := TurnOf(old(stocks)[input.supply], id, supply, input).value;
                stocks == old(stocks)[input.supply := t.stock] && movements == old(movements) + [t.movement]
                && records == t.usages && cost == t.cost
    {
      var required := Required(supply, input.quantity);
      assert required > 0.0;
      ok := true;
      if supply.measurable {
        ok, records, cost := ConsumeMeasurable(id, input.supply, required);
        if !ok {
          return;
        }
      } else {
        records, cost := ConsumeUnits(id, input.supply, input.quantity);
      }
      SyncQuantityWithEntries(input.supply);
      movements := movements + [Movement(id, input.supply, required, cost)];
    }

    /** The consumption loop over all supplies. */
    method ConsumeSupplies(id: Key, inputs: seq<Input>) returns (ok: bool, records: seq<Usage>, cost: real)
      requires Known(Tables(), inputs) && Positive(inputs) && Stocked(stocks, inputs) && StocksOk(stocks)
      modifies this`stocks, this`movements
      ensures ok <==> ConsumeAll(old(Tables()), id, inputs).Some?
      ensures ok ==>
                var acc := ConsumeAll(old(Tables()), id, inputs).value;
                stocks == acc.stocks && movements == old(movements) + acc.movements
                && records == acc.usages && cost == acc.cost
    {
      records, cost := [], 0.0;
      ghost var s0 := Tables();
      ghost var acc := Acc(stocks, [], [], 0.0);
      assert inputs[..0] == [] && movements + [] == movements;
      for n := 0 to |inputs|
        invariant ConsumeAll(s0, id, inputs[..n]) == Some(acc)
        invariant stocks == acc.stocks && records == acc.usages && cost == acc.cost
        invariant movements == s0.movements + acc.movements
        invariant supplies == s0.supplies
      {
        StillOk(s0, id, inputs, n, acc);
        ConsumeNext(s0, id, inputs, n);
        var one, added, spent := ConsumeSupply(id, supplies[inputs[n].supply], inputs[n]);
        if !one {
          FailsForward(s0, id, inputs, n + 1);
          return false, records, cost;
        }
        ghost var turn := TurnOf(acc.stocks[inputs[n].supply], id, supplies[inputs[n].supply], inputs[n]).value;
        assert s0.movements + (acc.movements + [turn.movement]) == s0.movements + acc.movements + [turn.movement];
        acc := ConsumeOne(acc, id, supplies[inputs[n].supply], inputs[n]).value;
        records := records + added;
        cost := cost + spent;
      }
      assert inputs[..|inputs|] == inputs;
      ok := true;
    }

    method ProcessProductionCompletion(id: Key, p: Production, inputs: seq<Input>) returns (error: Option<Error>)
      requires Known(Tables(), inputs) && Positive(inputs) && p.produced > 0.0 && StocksOk(stocks)
      modifies this
      ensures error == ErrorOf(Process(old(Tables()), id, p, inputs))
      ensures error.None? ==> Tables() == Process(old(Tables()), id, p, inputs).value
    {
      error := None;
      var ok := Validate(inputs);
      if !ok {
        return Some(Unprocessable);
      }
      var records, totalCost;
      ok, records, totalCost := ConsumeSupplies(id, inputs);
      if !ok {
        return Some(Unprocessable);
      }
      usages := usages + records;
      if Sold(p) {
        var product := p.product.value;
        if product in products {
          products := products[product := products[product] + p.produced];
        } else {
          products := products[product := p.produced];
        }
        inventory := inventory + [Yield(id, product, p.produced, totalCost)];
      }
      productions := productions[id := p.(status := COMPLETED, totalCost := totalCost)];
    }

    method FindSupplies(inputs: seq<Input>) returns (found: bool)
      ensures found <==> AllFound(Tables(), inputs)
    {
      for i := 0 to |inputs|
        invariant forall j :: 0 <= j < i ==> inputs[j].supply in supplies
        invariant forall j, k :: 0 <= j < k < i ==> inputs[j].supply != inputs[k].supply
      {
        if inputs[i].supply !in supplies {
          return false;
        }
        for j := 0 to i
          invariant forall m :: 0 <= m < j ==> inputs[m].supply != inputs[i].supply
        {
          if inputs[j].supply == inputs[i].supply {
            return false;
          }
        }
      }
      found := true;
    }

    method Create(id: Key, draft: bool, p: Production, inputs: seq<Input>) returns (error: Option<Error>)
      requires SizesOk(Tables()) && StocksOk(stocks) && Positive(inputs) && p.produced > 0.0
      modifies this
      ensures error == ErrorOf(Productions.Create(old(Tables()), id, draft, p, inputs))
      ensures Tables() == match Productions.Create(old(Tables()), id, draft, p, inputs) case Ok(t) => t case Err(_) => old(Tables())
    {
      var saved := Tables();
      if p.sellable && p.product.None? {
        return Some(BadRequest);
      }
      var found := FindSupplies(inputs);
      if !found {
        return Some(NotFound);
      }
      var created := p.(status := if draft then DRAFT else COMPLETED, totalCost := 0.0);
      productions := productions[id := created];
      if draft {
        usages := usages + Drafts(id, inputs);
        return None;
      }
      error := ProcessProductionCompletion(id, created, inputs);
      if error.Some? {
        Rollback(saved);
      }
    }

    method Complete(id: Key) returns (error: Option<Error>)
      requires Inv(Tables())
      modifies this
      ensures error == ErrorOf(Productions.Complete(old(Tables()), id))
      ensures Tables() == match Productions.Complete(old(Tables()), id) case Ok(t) => t case Err(_) => old(Tables())
    {
      if id !in productions {
        return Some(NotFound);
      }
      if productions[id].status != DRAFT {
        return Some(BadRequest);
      }
      var saved := Tables();
      var drafts := Keep(usages, Of(id));
      if |drafts| == 0 {
        return Some(Unprocessable);
      }
      DraftInputs(saved, id);
      usages := Keep(usages, Not(Of(id)));
      error := ProcessProductionCompletion(id, productions[id], InputsOf(drafts));
      if error.Some? {
        Rollback(saved);
      }
    }

    method Cancel(id: Key) returns (error: Option<Error>)
      modifies this`productions
      ensures error == ErrorOf(Productions.Cancel(old(Tables()), id))
      ensures Tables() == match Productions.Cancel(old(Tables()), id) case Ok(t) => t case Err(_) => old(Tables())
    {
      if id !in productions {
        return Some(NotFound);
      }
      if productions[id].status != DRAFT {
        return Some(BadRequest);
      }
      productions := productions[id := productions[id].(status := CANCELLED)];
      error := None;
    }

    /** Each usage row increments its entry and reopens it; the supplies touched are collected. */
    method GiveEntriesBack(own: seq<Usage>) returns (affected: set<Key>)
      requires Restorable(stocks, own)
      modifies this`stocks
      ensures Given(old(stocks), own, stocks)
      ensures forall k :: k in affected <==> exists u :: u in own && u.entry.Some? && u.supply == k
    {
      affected := {};
      for n := 0 to |own|
        invariant Given(old(stocks), own[..n], stocks)
        invariant forall k :: k in affected <==> exists u :: u in own[..n] && u.entry.Some? && u.supply == k
      {
        var usage := own[n];
        assert usage in own;
        assert own[..n + 1] == own[..n] + [usage];
        if usage.entry.Some? {
          var k, i := usage.supply, usage.entry.value;
          var row := stocks[k].entries[i];
          affected := affected + {k};
          ghost var before := stocks;
          UpdateConsumption(k, i, Restore(row, usage.quantity));
          GivenNext(old(stocks), own, n, before, stocks);
        } else {
          GivenSkip(old(stocks), own, n, stocks);
        }
      }
      assert own[..|own|] == own;
    }

    method SyncAll(affected: set<Key>)
      requires affected <= stocks.Keys
      modifies this`stocks
      ensures stocks.Keys == old(stocks).Keys
      ensures forall k :: k in stocks ==> stocks[k] == if k in affected then Synced(old(stocks)[k].entries) else old(stocks)[k]
    {
      var todo := affected;
      while todo != {}
        invariant todo <= affected && stocks.Keys == old(stocks).Keys
        invariant forall k :: k in stocks ==>
                    stocks[k] == if k in affected - todo then Synced(old(stocks)[k].entries) else old(stocks)[k]
        decreases |todo|
      {
        var k :| k in todo;
        SyncQuantityWithEntries(k);
        todo := todo - {k};
      }
    }

    method RevertEntries(own: seq<Usage>)
      requires Restorable(stocks, own)
      modifies this`stocks
      ensures stocks == GiveBack(old(stocks), own)
    {
      var affected := GiveEntriesBack(own);
      ghost var mid := stocks;
      SyncAll(affected);
      GivenIsGiveBack(old(stocks), own, mid, affected, stocks);
    }

    /** Stock, movements and entries of a completed production, put back. */
    method RevertCompleted(id: Key, p: Production, own: seq<Usage>)
      requires Restorable(stocks, own)
      requires Sold(p) ==> p.product.value in products
      modifies this`stocks, this`movements, this`inventory, this`products
      ensures stocks == GiveBack(old(stocks), own)
      ensures movements == Keep(old(movements), Not(MovementOf(id)))
      ensures Sold(p) ==>
                inventory == Keep(old(inventory), Not(InventoryOf(id)))
                && products == old(products)[p.product.value := old(products)[p.product.value] - p.produced]
      ensures !(Sold(p)) ==> inventory == old(inventory) && products == old(products)
    {
      if Sold(p) {
        TakeBackProduct(id, p.product.value, p.produced);
      }
      movements := Keep(movements, Not(MovementOf(id)));
      RevertEntries(own);
    }

    method TakeBackProduct(id: Key, product: Key, produced: real)
      requires product in products
      modifies this`inventory, this`products
      ensures inventory == Keep(old(inventory), Not(InventoryOf(id)))
      ensures products == old(products)[product := old(products)[product] - produced]
    {
      inventory := Keep(inventory, Not(InventoryOf(id)));
      products := products[product := products[product] - produced];
    }

    method DeleteRows(id: Key)
      modifies this`usages, this`productions
      ensures usages == Keep(old(usages), Not(Of(id))) && productions == old(productions) - {id}
    {
      usages := Keep(usages, Not(Of(id)));
      productions := productions - {id};
    }

    /** The transaction of removing a completed production. */
    method RemoveCompleted(id: Key, p: Production)
      requires Restorable(stocks, Keep(usages, Of(id)))
      requires Sold(p) ==> p.product.value in products
      modifies this`stocks, this`movements, this`inventory, this`products, this`usages, this`productions
      ensures stocks == GiveBack(old(stocks), Keep(old(usages), Of(id)))
      ensures movements == Keep(old(movements), Not(MovementOf(id)))
      ensures Sold(p) ==>
                inventory == Keep(old(inventory), Not(InventoryOf(id)))
                && products == old(products)[p.product.value := old(products)[p.product.value] - p.produced]
      ensures !Sold(p) ==> inventory == old(inventory) && products == old(products)
      ensures usages == Keep(old(usages), Not(Of(id))) && productions == old(productions) - {id}
    {
      RevertCompleted(id, p, Keep(usages, Of(id)));
      DeleteRows(id);
    }

    method UndoCompleted(id: Key)
      requires id in productions && Restorable(stocks, Keep(usages, Of(id)))
      requires Sold(productions[id]) ==> productions[id].product.value in products
      modifies this`stocks, this`movements, this`inventory, this`products, this`usages, this`productions
      ensures Tables() == Undone(old(Tables()), id, old(productions)[id])
    {
      RemoveCompleted(id, productions[id]);
    }

    method Remove(id: Key) returns (error: Option<Error>)
      requires UsagesOk(Tables())
      modifies this
      ensures error == ErrorOf(Productions.Remove(old(Tables()), id))
      ensures error.None? ==> Tables() == Productions.Remove(old(Tables()), id).value
      ensures error.Some? ==> Tables() == old(Tables())
    {
      if id !in productions {
        return Some(NotFound);
      }
      var p := productions[id];
      if p.status != COMPLETED {
        DeleteRows(id);
        return None;
      }
      if Sold(p) && p.product.value !in products {
        return Some(NotFound);
      }
      OwnRestorable(Tables(), id);
      UndoCompleted(id);
      error := None;
    }
  }

  lemma {:induction false} FailsForward(s: State, id: Key, inputs: seq<Input>, n: nat)
    requires Known(s, inputs) && Positive(inputs) && Stocked(s.stocks, inputs) && n <= |inputs|
    requires ConsumeAll(s, id, inputs[..n]).None?
    ensures ConsumeAll(s, id, inputs).None?
  {
    if n == |inputs| {
      assert inputs[..n] == inputs;
    } else {
      assert inputs[..|inputs| - 1][..n] == inputs[..n];
      FailsForward(s, id, inputs[..|inputs| - 1], n);
    }
  }

  lemma StillOk(s: State, id: Key, inputs: seq<Input>, n: nat, acc: Acc)
    requires Known(s, inputs) && Positive(inputs) && Stocked(s.stocks, inputs) && StocksOk(s.stocks) && n <= |inputs|
    requires ConsumeAll(s, id, inputs[..n]) == Some(acc)
    ensures StocksOk(acc.stocks) && acc.stocks.Keys == s.stocks.Keys
  {
    Runs.ConsumeAllKeeps(s, id, inputs[..n], acc);
  }

  lemma ConsumeNext(s: State, id: Key, inputs: seq<Input>, n: nat)
    requires Known(s, inputs) && Positive(inputs) && Stocked(s.stocks, inputs) && n < |inputs|
    requires ConsumeAll(s, id, inputs[..n]).Some?
    ensures ConsumeAll(s, id, inputs[..n + 1])
         == ConsumeOne(ConsumeAll(s, id, inputs[..n]).value, id, s.supplies[inputs[n].supply], inputs[n])
  {
    assert inputs[..n + 1][..n] == inputs[..n];
    assert inputs[..n + 1][n] == inputs[n];
  }

  // ----- Giving entries back one usage at a time -----

  /** Every linked usage points at an entry that exists, and took something. */
  predicate Restorable(stocks: map<Key, SupplyStock>, own: seq<Usage>) {
    forall u :: u in own && u.entry.Some? ==>
      u.quantity > 0.0 && u.supply in stocks && u.entry.value < |stocks[u.supply].entries|
  }

  /** After handling these usages: each entry has back what they took, aggregates not yet refreshed. */
  ghost predicate Given(before: map<Key, SupplyStock>, own: seq<Usage>, after: map<Key, SupplyStock>) {
    after.Keys == before.Keys
    && forall k :: k in before ==>
         after[k] == SupplyStock(before[k].quantity, Restored(before[k].entries, TakenFrom(own, k, |before[k].entries|)))
  }

  lemma OwnRestorable(s: State, id: Key)
    requires UsagesOk(s)
    ensures Restorable(s.stocks, Keep(s.usages, Of(id)))
  {
    forall u | u in Keep(s.usages, Of(id)) ensures UsageOk(s, u) {}
  }

  lemma LinkedNext(own: seq<Usage>, n: nat, k: Key, i: nat)
    requires n < |own|
    ensures Sum(own[..n + 1], LinkedTo(k, i)) == Sum(own[..n], LinkedTo(k, i)) + LinkedTo(k, i)(own[n])
  {
    assert own[..n + 1][..n] == own[..n];
  }

  lemma LinkedNonNegative(stocks: map<Key, SupplyStock>, own: seq<Usage>, n: nat, k: Key, i: nat)
    requires Restorable(stocks, own) && n <= |own|
    ensures Sum(own[..n], LinkedTo(k, i)) >= 0.0
  {
    SumNonNegative(own[..n], LinkedTo(k, i));
  }

  lemma GivenNext(start: map<Key, SupplyStock>, own: seq<Usage>, n: nat, before: map<Key, SupplyStock>, after: map<Key, SupplyStock>)
    requires n < |own| && Restorable(start, own) && own[n].entry.Some?
    requires Given(start, own[..n], before)
    requires own[n] in own
    requires var u := own[n];
             after == before[u.supply := SupplyStock(before[u.supply].quantity,
                        before[u.supply].entries[u.entry.value := Restore(before[u.supply].entries[u.entry.value], u.quantity)])]
    ensures Given(start, own[..n + 1], after)
  {
    var u := own[n];
    forall k | k in start
      ensures after[k] == SupplyStock(start[k].quantity, Restored(start[k].entries, TakenFrom(own[..n + 1], k, |start[k].entries|)))
    {
      forall i | 0 <= i < |start[k].entries|
        ensures after[k].entries[i] == GiveTo(start[k].entries[i], Sum(own[..n + 1], LinkedTo(k, i)))
      {
        LinkedNext(own, n, k, i);
        LinkedNonNegative(start, own, n, k, i);
      }
      assert after[k].entries == Restored(start[k].entries, TakenFrom(own[..n + 1], k, |start[k].entries|));
    }
  }

  lemma GivenSkip(start: map<Key, SupplyStock>, own: seq<Usage>, n: nat, after: map<Key, SupplyStock>)
    requires n < |own| && own[n].entry.None? && Given(start, own[..n], after)
    ensures Given(start, own[..n + 1], after)
  {
    forall k | k in start
      ensures TakenFrom(own[..n + 1], k, |start[k].entries|) == TakenFrom(own[..n], k, |start[k].entries|)
    {
      forall i | 0 <= i < |start[k].entries|
        ensures Sum(own[..n + 1], LinkedTo(k, i)) == Sum(own[..n], LinkedTo(k, i))
      {
        LinkedNext(own, n, k, i);
      }
    }
  }

  lemma GivenIsGiveBack(start: map<Key, SupplyStock>, own: seq<Usage>, mid: map<Key, SupplyStock>, affected: set<Key>, after: map<Key, SupplyStock>)
    requires Restorable(start, own) && Given(start, own, mid)
    requires forall k :: k in affected <==> exists u :: u in own && u.entry.Some? && u.supply == k
    requires after.Keys == mid.Keys
    requires forall k :: k in after ==> after[k] == if k in affected then Synced(mid[k].entries) else mid[k]
    ensures after == GiveBack(start, own)
  {
    forall k | k in start
      ensures after[k] == GiveBack(start, own)[k]
    {
      var es := Restored(start[k].entries, TakenFrom(own, k, |start[k].entries|));
      assert mid[k].entries == es;
      if k in affected {
        var u :| u in own && u.entry.Some? && u.supply == k;
        assert u.entry.value < |es|;
      }
    }
  }
}

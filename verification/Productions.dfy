/**
 Productions: drafting, completing, cancelling and removing
 (src/modules/productions/productions.service.ts).

 An operation maps the tables to the new tables, or to a refusal that leaves them
 as they were: each runs in one transaction. An entry is named by its supply and
 its position among that supply's entries, which are never deleted here.
 */
module Productions {
  import opened Options
  import opened Sums
  import opened Fifo

  type Key = nat

  datatype Supply = Supply(measurable: bool, packageSize: real)
  datatype SupplyStock = SupplyStock(quantity: real, entries: seq<Entry>)
  datatype Input = Input(supply: Key, quantity: real)
  datatype Usage = Usage(production: Key, supply: Key, entry: Option<nat>, quantity: real, unitCost: real, total: real)
  datatype SupplyMovement = SupplyMovement(production: Key, supply: Key, quantity: real, unitCost: real)
  datatype InventoryMovement = InventoryMovement(production: Key, product: Key, quantity: real, unitCost: real)
  datatype ProductionStatus = DRAFT | COMPLETED | CANCELLED
  datatype Production = Production(status: ProductionStatus, sellable: bool, product: Option<Key>, produced: real, totalCost: real)

  /** `products` is the stock of each product at the location 'Principal'. */
  datatype State = State(
    supplies: map<Key, Supply>,
    stocks: map<Key, SupplyStock>,
    usages: seq<Usage>,
    movements: seq<SupplyMovement>,
    productions: map<Key, Production>,
    products: map<Key, real>,
    inventory: seq<InventoryMovement>)

  datatype Error = BadRequest | NotFound | Unprocessable
  datatype Result<+T> = Ok(value: T) | Err(error: Error)

  function Ceil(x: real): real {
    -((-x).Floor as real)
  }

  // ----- Consuming one supply -----

  /** Quantity in packages for measurable supplies, in units otherwise. */
  function Required(supply: Supply, quantity: real): real
    requires supply.packageSize != 0.0
  {
    if supply.measurable then quantity / supply.packageSize else quantity
  }

  function CeilInt(x: real): int {
    -((-x).Floor)
  }

  function TakenBy(supply: Supply, es: seq<Entry>, quantity: real): (t: seq<real>)
    requires supply.packageSize != 0.0
    ensures |t| == |es|
  {
    if supply.measurable then Taken(es, Required(supply, quantity)) else TakenWhole(es, CeilInt(quantity))
  }

  /** The usage row of one amount taken from one entry. */
  function Used(production: Key, supply: Key, entry: nat, quantity: real, unitCost: real): Usage {
    Usage(production, supply, Some(entry), quantity, unitCost, unitCost * quantity)
  }

  function UsagesFrom(production: Key, supply: Key, es: seq<Entry>, taken: seq<real>): seq<Usage>
    requires |taken| == |es|
  {
    if |es| == 0 then []
    else
      var i := |es| - 1;
      UsagesFrom(production, supply, es[..i], taken[..i])
      + if taken[i] == 0.0 then []
        else [Used(production, supply, i, taken[i], es[i].unitCost)]
  }

  function Cost(): Usage -> real {
    (u: Usage) => u.total
  }

  /** The aggregate a stock shows: whole packages covering what the entries hold. */
  function Synced(es: seq<Entry>): SupplyStock {
    Aggregate(Available(es), es)
  }

  function Aggregate(total: real, es: seq<Entry>): SupplyStock {
    SupplyStock(Ceil(total), es)
  }

  predicate EnoughFor(supply: Supply, stock: SupplyStock, quantity: real)
    requires supply.packageSize != 0.0
  {
    if supply.measurable then stock.quantity >= Required(supply, quantity) else stock.quantity >= 1.0
  }

  /** The first pass: every supply has a stock and the aggregate looks sufficient. */
  predicate Validated(s: State, inputs: seq<Input>)
    requires Known(s, inputs)
  {
    forall i :: 0 <= i < |inputs| ==>
      inputs[i].supply in s.stocks
      && EnoughFor(s.supplies[inputs[i].supply], s.stocks[inputs[i].supply], inputs[i].quantity)
  }

  predicate Known(s: State, inputs: seq<Input>) {
    forall i :: 0 <= i < |inputs| ==> inputs[i].supply in s.supplies && s.supplies[inputs[i].supply].packageSize > 0.0
  }

  /** The movement of one supply: minus the quantity asked for, at the average cost of what was taken. */
  function Movement(id: Key, supply: Key, required: real, cost: real): SupplyMovement
    requires required != 0.0
  {
    SupplyMovement(id, supply, -required, cost / required)
  }

  /** What the consumption loop accumulates. */
  datatype Acc = Acc(stocks: map<Key, SupplyStock>, usages: seq<Usage>, movements: seq<SupplyMovement>, cost: real)

  /** What one turn of the loop does to one supply. */
  datatype Turn = Turn(stock: SupplyStock, usages: seq<Usage>, movement: SupplyMovement, cost: real)

  function TurnOf(stock: SupplyStock, id: Key, supply: Supply, input: Input): Option<Turn>
    requires supply.packageSize > 0.0 && input.quantity > 0.0
  {
    var es := stock.entries;
    var required := Required(supply, input.quantity);
    if supply.measurable && Available(es) < required then None
    else
      var taken := TakenBy(supply, es, input.quantity);
      var usages := UsagesFrom(id, input.supply, es, taken);
      var cost := Sum(usages, Cost());
      assert required > 0.0;
      Some(Turn(Synced(Consumed(es, taken)), usages, Movement(id, input.supply, required, cost), cost))
  }

  function ConsumeOne(acc: Acc, id: Key, supply: Supply, input: Input): Option<Acc>
    requires supply.packageSize > 0.0 && input.supply in acc.stocks && input.quantity > 0.0
  {
    match TurnOf(acc.stocks[input.supply], id, supply, input)
    case None => None
    case Some(t) =>
      Some(Acc(acc.stocks[input.supply := t.stock], acc.usages + t.usages, acc.movements + [t.movement], acc.cost + t.cost))
  }

  predicate Positive(inputs: seq<Input>) {
    forall i :: 0 <= i < |inputs| ==> inputs[i].quantity > 0.0
  }

  predicate Stocked(stocks: map<Key, SupplyStock>, inputs: seq<Input>) {
    forall i :: 0 <= i < |inputs| ==> inputs[i].supply in stocks
  }

  function ConsumeAll(s: State, id: Key, inputs: seq<Input>): (r: Option<Acc>)
    requires Known(s, inputs) && Positive(inputs) && Stocked(s.stocks, inputs)
    ensures r.Some? ==> r.value.stocks.Keys == s.stocks.Keys
  {
    if |inputs| == 0 then Some(Acc(s.stocks, [], [], 0.0))
    else
      var n := |inputs| - 1;
      match ConsumeAll(s, id, inputs[..n])
      case None => None
      case Some(acc) => ConsumeOne(acc, id, s.supplies[inputs[n].supply], inputs[n])
  }

  // ----- The operations -----

  function Held(products: map<Key, real>, p: Key): real {
    if p in products then products[p] else 0.0
  }

  function Yield(id: Key, product: Key, produced: real, cost: real): InventoryMovement
    requires produced != 0.0
  {
    InventoryMovement(id, product, produced, cost / produced)
  }

  function Finish(s: State, id: Key, p: Production, acc: Acc): State
    requires p.produced > 0.0
  {
    var consumed := s.(
      stocks := acc.stocks,
      usages := s.usages + acc.usages,
      movements := s.movements + acc.movements,
      productions := s.productions[id := p.(status := COMPLETED, totalCost := acc.cost)]);
    if Sold(p) then
      consumed.(
        products := s.products[p.product.value := Held(s.products, p.product.value) + p.produced],
        inventory := s.inventory + [Yield(id, p.product.value, p.produced, acc.cost)])
    else consumed
  }

  /** processProductionCompletion */
  function Process(s: State, id: Key, p: Production, inputs: seq<Input>): Result<State>
    requires Known(s, inputs) && Positive(inputs) && p.produced > 0.0
  {
    if !Validated(s, inputs) then Err(Unprocessable)
    else
      match ConsumeAll(s, id, inputs)
      case None => Err(Unprocessable)
      case Some(acc) => Ok(Finish(s, id, p, acc))
  }

  /** A query for the requested ids finds as many rows as were requested. */
  predicate AllFound(s: State, inputs: seq<Input>) {
    (forall i :: 0 <= i < |inputs| ==> inputs[i].supply in s.supplies)
    && (forall i, j :: 0 <= i < j < |inputs| ==> inputs[i].supply != inputs[j].supply)
  }

  function Drafts(id: Key, inputs: seq<Input>): (r: seq<Usage>)
    ensures |r| == |inputs|
  {
    seq(|inputs|, i requires 0 <= i < |inputs| => Usage(id, inputs[i].supply, None, inputs[i].quantity, 0.0, 0.0))
  }

  predicate SizesOk(s: State) {
    forall k :: k in s.supplies ==> s.supplies[k].packageSize > 0.0
  }

  function Create(s: State, id: Key, draft: bool, p: Production, inputs: seq<Input>): Result<State>
    requires SizesOk(s) && Positive(inputs) && p.produced > 0.0
  {
    if p.sellable && p.product.None? then Err(BadRequest)
    else if !AllFound(s, inputs) then Err(NotFound)
    else if draft then
      Ok(s.(productions := s.productions[id := p.(status := DRAFT, totalCost := 0.0)],
            usages := s.usages + Drafts(id, inputs)))
    else
      var created := p.(status := COMPLETED, totalCost := 0.0);
      Process(s.(productions := s.productions[id := created]), id, created, inputs)
  }

  function Of(id: Key): Usage -> bool {
    (u: Usage) => u.production == id
  }

  function InputsOf(usages: seq<Usage>): (r: seq<Input>)
    ensures |r| == |usages|
  {
    seq(|usages|, i requires 0 <= i < |usages| => Input(usages[i].supply, usages[i].quantity))
  }

  /** The usage rows of a draft name known supplies and positive quantities. */
  lemma DraftInputs(s: State, id: Key)
    requires SizesOk(s) && UsagesOk(s)
    requires id in s.productions && s.productions[id].status != COMPLETED
    ensures Known(s, InputsOf(Keep(s.usages, Of(id)))) && Positive(InputsOf(Keep(s.usages, Of(id))))
  {
    var drafts := Keep(s.usages, Of(id));
    forall i | 0 <= i < |drafts|
      ensures UsageOk(s, drafts[i]) && drafts[i].production == id
    {
      assert drafts[i] in drafts;
    }
  }

  function Complete(s: State, id: Key): Result<State>
    requires SizesOk(s) && UsagesOk(s) && RowsOk(s)
  {
    if id !in s.productions then Err(NotFound)
    else if s.productions[id].status != DRAFT then Err(BadRequest)
    else
      var drafts := Keep(s.usages, Of(id));
      if |drafts| == 0 then Err(Unprocessable)
      else
        DraftInputs(s, id);
        Process(s.(usages := Keep(s.usages, Not(Of(id)))), id, s.productions[id], InputsOf(drafts))
  }

  function Cancel(s: State, id: Key): Result<State> {
    if id !in s.productions then Err(NotFound)
    else if s.productions[id].status != DRAFT then Err(BadRequest)
    else Ok(s.(productions := s.productions[id := s.productions[id].(status := CANCELLED)]))
  }

  function MovementOf(id: Key): SupplyMovement -> bool {
    (m: SupplyMovement) => m.production == id
  }

  function InventoryOf(id: Key): InventoryMovement -> bool {
    (m: InventoryMovement) => m.production == id
  }

  /** What the usages of a list took from one entry. */
  function LinkedTo(supply: Key, entry: nat): Usage -> real {
    (u: Usage) => if u.supply == supply && u.entry == Some(entry) then u.quantity else 0.0
  }

  /** The amounts a list of usages took from the entries of one supply. */
  function TakenFrom(usages: seq<Usage>, supply: Key, n: nat): (t: seq<real>)
    ensures |t| == n
  {
    seq(n, i requires 0 <= i < n => Sum(usages, LinkedTo(supply, i)))
  }

  function GiveBack(stocks: map<Key, SupplyStock>, usages: seq<Usage>): (r: map<Key, SupplyStock>)
    ensures r.Keys == stocks.Keys
  {
    map k | k in stocks ::
      var es := Restored(stocks[k].entries, TakenFrom(usages, k, |stocks[k].entries|));
      if exists u :: u in usages && u.supply == k && u.entry.Some? && u.entry.value < |es| then Synced(es)
      else SupplyStock(stocks[k].quantity, es)
  }

  predicate Sold(p: Production) {
    p.sellable && p.product.Some?
  }

  /** The tables without a production and the rows that hang on it. */
  function Without(s: State, id: Key): State {
    s.(usages := Keep(s.usages, Not(Of(id))), productions := s.productions - {id})
  }

  /** The tables once a completed production has been reverted and deleted. */
  function Undone(s: State, id: Key, p: Production): State
    requires Sold(p) ==> p.product.value in s.products
  {
    State(
      s.supplies,
      GiveBack(s.stocks, Keep(s.usages, Of(id))),
      Keep(s.usages, Not(Of(id))),
      Keep(s.movements, Not(MovementOf(id))),
      s.productions - {id},
      if Sold(p) then s.products[p.product.value := s.products[p.product.value] - p.produced] else s.products,
      if Sold(p) then Keep(s.inventory, Not(InventoryOf(id))) else s.inventory)
  }

  function Remove(s: State, id: Key): Result<State> {
    if id !in s.productions then Err(NotFound)
    else
      var p := s.productions[id];
      if p.status != COMPLETED then Ok(Without(s, id))
      else if Sold(p) && p.product.value !in s.products then Err(NotFound)
      else Ok(Undone(s, id, p))
  }

  // ----- What every run keeps -----

  predicate UsageOk(s: State, u: Usage) {
    u.quantity > 0.0
    && u.production in s.productions
    && (u.entry.None? ==>
          s.productions[u.production].status != COMPLETED && u.supply in s.supplies)
    && (u.entry.Some? ==>
          s.productions[u.production].status == COMPLETED && u.supply in s.stocks
          && u.entry.value < |s.stocks[u.supply].entries|
          && u.unitCost == s.stocks[u.supply].entries[u.entry.value].unitCost
          && u.total == u.unitCost * u.quantity)
  }

  predicate UsagesOk(s: State) {
    forall u :: u in s.usages ==> UsageOk(s, u)
  }

  predicate StocksOk(stocks: map<Key, SupplyStock>) {
    forall k :: k in stocks ==> AllOk(stocks[k].entries)
  }

  /** remaining + everything usages took from the entry == its initial quantity */
  predicate Conserved(stocks: map<Key, SupplyStock>, usages: seq<Usage>) {
    forall k, i :: k in stocks && 0 <= i < |stocks[k].entries| ==>
      stocks[k].entries[i].remaining + Sum(usages, LinkedTo(k, i)) == stocks[k].entries[i].initial
  }

  /** A completed production's cost is what its usage rows cost. */
  predicate CostsOk(s: State) {
    forall id :: id in s.productions && s.productions[id].status == COMPLETED ==>
      s.productions[id].totalCost == Sum(Keep(s.usages, Of(id)), Cost())
  }

  predicate RowsOk(s: State) {
    (forall m :: m in s.movements ==> m.production in s.productions && s.productions[m.production].status == COMPLETED)
    && (forall m :: m in s.inventory ==>
          && m.production in s.productions
          && var p := s.productions[m.production]; p.status == COMPLETED && p.sellable && p.product == Some(m.product))
    && (forall id :: id in s.productions ==> s.productions[id].produced > 0.0)
  }

  predicate Inv(s: State) {
    SizesOk(s) && UsagesOk(s) && StocksOk(s.stocks) && Conserved(s.stocks, s.usages) && CostsOk(s) && RowsOk(s)
  }

  datatype Event =
    | DoCreate(id: Key, draft: bool, production: Production, inputs: seq<Input>)
    | DoComplete(id: Key)
    | DoCancel(id: Key)
    | DoRemove(id: Key)

  /** What the request validation guarantees, and that a new row gets a new id. */
  predicate Admissible(s: State, e: Event) {
    e.DoCreate? ==> e.id !in s.productions && Positive(e.inputs) && |e.inputs| > 0 && e.production.produced > 0.0
  }

  function Outcome(s: State, e: Event): Result<State>
    requires Inv(s) && Admissible(s, e)
  {
    match e
    case DoCreate(id, draft, p, inputs) => Create(s, id, draft, p, inputs)
    case DoComplete(id) => Complete(s, id)
    case DoCancel(id) => Cancel(s, id)
    case DoRemove(id) => Remove(s, id)
  }

  function Step(s: State, e: Event): State
    requires Inv(s) && Admissible(s, e)
  {
    match Outcome(s, e)
    case Ok(t) => t
    case Err(_) => s
  }
}

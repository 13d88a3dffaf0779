/**
 What every run of production requests keeps, and what undoes what
 (src/modules/productions/productions.service.ts).
 */
module ProductionRuns {
  import opened Options
  import opened Sums
  import opened Fifo
  import opened Productions

  // ----- The usages one consumption writes -----

  predicate WellLinked(u: Usage, id: Key, supply: Key, es: seq<Entry>) {
    u.production == id && u.supply == supply && u.entry.Some? && u.entry.value < |es|
    && u.quantity > 0.0 && u.unitCost == es[u.entry.value].unitCost && u.total == u.unitCost * u.quantity
  }

  lemma {:induction false} UsagesLinked(id: Key, supply: Key, es: seq<Entry>, taken: seq<real>, u: Usage)
    requires Takable(es, taken) && u in UsagesFrom(id, supply, es, taken)
    ensures WellLinked(u, id, supply, es)
  {
    var i := |es| - 1;
    if u in UsagesFrom(id, supply, es[..i], taken[..i]) {
      UsagesLinked(id, supply, es[..i], taken[..i], u);
    }
  }

  /** The usages linked to an entry add up to what was taken from it. */
  lemma {:induction false} UsagesSum(id: Key, supply: Key, es: seq<Entry>, taken: seq<real>, k: Key, j: nat)
    requires |taken| == |es|
    ensures Sum(UsagesFrom(id, supply, es, taken), LinkedTo(k, j))
         == if k == supply && j < |es| then taken[j] else 0.0
  {
    if |es| > 0 {
      var i := |es| - 1;
      var front := UsagesFrom(id, supply, es[..i], taken[..i]);
      UsagesSum(id, supply, es[..i], taken[..i], k, j);
      if taken[i] != 0.0 {
        SumPush(front, Used(id, supply, i, taken[i], es[i].unitCost), LinkedTo(k, j));
      } else {
        assert front + [] == front;
      }
    }
  }

  // ----- What the consumption loop keeps -----

  predicate SameLots(before: seq<Entry>, after: seq<Entry>) {
    |before| == |after|
    && forall i :: 0 <= i < |before| ==>
         before[i].initial == after[i].initial && before[i].unitCost == after[i].unitCost
  }

  predicate AccUsages(stocks: map<Key, SupplyStock>, id: Key, acc: Acc) {
    (forall u :: u in acc.usages ==> u.supply in stocks && WellLinked(u, id, u.supply, stocks[u.supply].entries))
    && (forall m :: m in acc.movements ==> m.production == id)
    && acc.cost == Sum(acc.usages, Cost())
  }

  /** Entries have lost exactly what the new usages record. */
  predicate AccStocks(stocks: map<Key, SupplyStock>, acc: Acc) {
    acc.stocks.Keys == stocks.Keys
    && StocksOk(acc.stocks)
    && (forall k :: k in stocks ==> SameLots(stocks[k].entries, acc.stocks[k].entries))
    && (forall k, i :: k in stocks && 0 <= i < |stocks[k].entries| ==>
          acc.stocks[k].entries[i].remaining + Sum(acc.usages, LinkedTo(k, i)) == stocks[k].entries[i].remaining)
  }

  predicate InSync(stocks: map<Key, SupplyStock>) {
    forall k :: k in stocks ==> stocks[k] == Synced(stocks[k].entries)
  }

  lemma TakenByTakable(supply: Supply, es: seq<Entry>, quantity: real)
    requires supply.packageSize > 0.0 && AllOk(es)
    ensures Takable(es, TakenBy(supply, es, quantity))
  {}

  lemma NewUsagesKeep(stocks: map<Key, SupplyStock>, acc: Acc, id: Key, supply: Supply, input: Input, after: Acc)
    requires supply.packageSize > 0.0 && input.supply in acc.stocks && input.quantity > 0.0
    requires AccUsages(stocks, id, acc) && AccStocks(stocks, acc)
    requires ConsumeOne(acc, id, supply, input) == Some(after)
    ensures AccUsages(stocks, id, after)
  {
    var es := acc.stocks[input.supply].entries;
    var taken := TakenBy(supply, es, input.quantity);
    var added := UsagesFrom(id, input.supply, es, taken);
    TakenByTakable(supply, es, input.quantity);
    forall u | u in added
      ensures WellLinked(u, id, input.supply, stocks[input.supply].entries)
    {
      UsagesLinked(id, input.supply, es, taken, u);
    }
    SumConcat(acc.usages, added, Cost());
  }

  lemma NewStocksKeep(stocks: map<Key, SupplyStock>, acc: Acc, id: Key, supply: Supply, input: Input, after: Acc)
    requires supply.packageSize > 0.0 && input.supply in acc.stocks && input.quantity > 0.0
    requires AccStocks(stocks, acc)
    requires ConsumeOne(acc, id, supply, input) == Some(after)
    ensures AccStocks(stocks, after)
  {
    var es := acc.stocks[input.supply].entries;
    var taken := TakenBy(supply, es, input.quantity);
    var added := UsagesFrom(id, input.supply, es, taken);
    TakenByTakable(supply, es, input.quantity);
    ConsumedOk(es, taken);
    assert after.stocks == acc.stocks[input.supply := Synced(Consumed(es, taken))];
    assert SameLots(es, Consumed(es, taken));
    forall k, i | k in stocks && 0 <= i < |stocks[k].entries|
      ensures after.stocks[k].entries[i].remaining + Sum(after.usages, LinkedTo(k, i)) == stocks[k].entries[i].remaining
    {
      SumConcat(acc.usages, added, LinkedTo(k, i));
      UsagesSum(id, input.supply, es, taken, k, i);
    }
  }

  lemma {:induction false} ConsumeAllKeeps(s: State, id: Key, inputs: seq<Input>, acc: Acc)
    requires Known(s, inputs) && Positive(inputs) && Stocked(s.stocks, inputs) && StocksOk(s.stocks)
    requires ConsumeAll(s, id, inputs) == Some(acc)
    ensures AccUsages(s.stocks, id, acc) && AccStocks(s.stocks, acc)
    ensures InSync(s.stocks) ==> InSync(acc.stocks)
  {
    if |inputs| > 0 {
      var n := |inputs| - 1;
      var mid := ConsumeAll(s, id, inputs[..n]).value;
      ConsumeAllKeeps(s, id, inputs[..n], mid);
      NewUsagesKeep(s.stocks, mid, id, s.supplies[inputs[n].supply], inputs[n], acc);
      NewStocksKeep(s.stocks, mid, id, s.supplies[inputs[n].supply], inputs[n], acc);
    }
  }

  // ----- Completion keeps the invariant -----

  predicate NoUsages(s: State, id: Key) {
    forall u :: u in s.usages ==> u.production != id
  }

  lemma ConservedAfter(s: State, acc: Acc)
    requires Conserved(s.stocks, s.usages) && AccStocks(s.stocks, acc)
    ensures Conserved(acc.stocks, s.usages + acc.usages)
  {
    forall k, i | k in acc.stocks && 0 <= i < |acc.stocks[k].entries|
      ensures acc.stocks[k].entries[i].remaining + Sum(s.usages + acc.usages, LinkedTo(k, i)) == acc.stocks[k].entries[i].initial
    {
      SumConcat(s.usages, acc.usages, LinkedTo(k, i));
    }
  }

  lemma CostsAfter(s: State, id: Key, acc: Acc, t: State)
    requires CostsOk(s) && NoUsages(s, id) && AccUsages(s.stocks, id, acc)
    requires t.usages == s.usages + acc.usages
    requires t.productions.Keys == s.productions.Keys && id in t.productions
    requires t.productions[id].totalCost == acc.cost
    requires forall k :: k in s.productions && k != id ==> t.productions[k] == s.productions[k]
    ensures CostsOk(t)
  {
    forall k | k in t.productions && t.productions[k].status == COMPLETED
      ensures t.productions[k].totalCost == Sum(Keep(t.usages, Of(k)), Cost())
    {
      KeepConcat(s.usages, acc.usages, Of(k));
      if k == id {
        KeepNone(s.usages, Of(k));
        KeepAll(acc.usages, Of(k));
        assert [] + acc.usages == acc.usages;
      } else {
        KeepNone(acc.usages, Of(k));
        assert Keep(s.usages, Of(k)) + [] == Keep(s.usages, Of(k));
      }
    }
  }

  lemma ProcessUsages(s: State, id: Key, acc: Acc, t: State)
    requires UsagesOk(s) && id in s.productions && NoUsages(s, id)
    requires AccUsages(s.stocks, id, acc) && AccStocks(s.stocks, acc)
    requires t.usages == s.usages + acc.usages && t.stocks == acc.stocks && t.supplies == s.supplies
    requires exists p: Production :: p.status == COMPLETED && t.productions == s.productions[id := p]
    ensures UsagesOk(t)
  {
    forall u | u in t.usages ensures UsageOk(t, u) {
      if u in s.usages {
        assert UsageOk(s, u);
        assert u.production != id;
      } else {
        assert u in acc.usages;
      }
      if u.entry.Some? {
        assert SameLots(s.stocks[u.supply].entries, t.stocks[u.supply].entries);
      }
    }
  }

  lemma ProcessRows(s: State, id: Key, acc: Acc)
    requires RowsOk(s) && id in s.productions && AccUsages(s.stocks, id, acc)
    ensures RowsOk(Finish(s, id, s.productions[id], acc))
  {}

  lemma FinishShape(s: State, id: Key, acc: Acc)
    requires id in s.productions && s.productions[id].produced > 0.0
    ensures var p := s.productions[id]; var t := Finish(s, id, p, acc);
            t.supplies == s.supplies && t.stocks == acc.stocks && t.usages == s.usages + acc.usages
            && t.productions == s.productions[id := p.(status := COMPLETED, totalCost := acc.cost)]
  {}

  lemma FinishPreserves(s: State, id: Key, acc: Acc)
    requires Inv(s) && id in s.productions && NoUsages(s, id) && AccUsages(s.stocks, id, acc) && AccStocks(s.stocks, acc)
    ensures Inv(Finish(s, id, s.productions[id], acc))
  {
    var t := Finish(s, id, s.productions[id], acc);
    FinishShape(s, id, acc);
    ConservedAfter(s, acc);
    CostsAfter(s, id, acc, t);
    ProcessUsages(s, id, acc, t);
    ProcessRows(s, id, acc);
  }

  lemma ProcessPreserves(s: State, id: Key, inputs: seq<Input>)
    requires Inv(s) && id in s.productions && NoUsages(s, id)
    requires Known(s, inputs) && Positive(inputs)
    requires Process(s, id, s.productions[id], inputs).Ok?
    ensures Inv(Process(s, id, s.productions[id], inputs).value)
  {
    var acc := ConsumeAll(s, id, inputs).value;
    ConsumeAllKeeps(s, id, inputs, acc);
    FinishPreserves(s, id, acc);
  }

  // ----- Dropping rows -----

  lemma DropDrafts(s: State, id: Key)
    requires Inv(s) && id in s.productions && s.productions[id].status != COMPLETED
    ensures Inv(s.(usages := Keep(s.usages, Not(Of(id)))))
  {
    var kept := Keep(s.usages, Not(Of(id)));
    var drafts := Keep(s.usages, Of(id));
    forall u | u in drafts ensures u.entry.None? {
      assert UsageOk(s, u);
    }
    forall k, i | k in s.stocks && 0 <= i < |s.stocks[k].entries|
      ensures Sum(kept, LinkedTo(k, i)) == Sum(s.usages, LinkedTo(k, i))
    {
      SumSplit(s.usages, Of(id), LinkedTo(k, i));
      SumZero(drafts, LinkedTo(k, i));
    }
    OtherCosts(s, id);
    forall u | u in kept ensures UsageOk(s.(usages := kept), u) {
      assert UsageOk(s, u);
    }
  }

  lemma {:induction false} KeepOther(us: seq<Usage>, id: Key, k: Key)
    requires k != id
    ensures Keep(Keep(us, Not(Of(id))), Of(k)) == Keep(us, Of(k))
  {
    if |us| > 0 {
      var n := |us| - 1;
      KeepOther(us[..n], id, k);
      KeepConcat(Keep(us[..n], Not(Of(id))), if Not(Of(id))(us[n]) then [us[n]] else [], Of(k));
      assert [us[n]][..0] == [];
    }
  }

  /** Dropping one production's usages leaves the cost of every other one explained. */
  lemma OtherCosts(s: State, id: Key)
    requires CostsOk(s)
    ensures forall k :: k in s.productions && k != id && s.productions[k].status == COMPLETED ==>
              s.productions[k].totalCost == Sum(Keep(Keep(s.usages, Not(Of(id))), Of(k)), Cost())
  {
    forall k | k in s.productions && k != id && s.productions[k].status == COMPLETED
      ensures s.productions[k].totalCost == Sum(Keep(Keep(s.usages, Not(Of(id))), Of(k)), Cost())
    {
      KeepOther(s.usages, id, k);
    }
  }

  // ----- Removal -----

  lemma SumLinkedNonNegative(s: State, us: seq<Usage>, k: Key, i: nat)
    requires UsagesOk(s) && forall u :: u in us ==> u in s.usages
    ensures Sum(us, LinkedTo(k, i)) >= 0.0
  {
    forall u | u in us ensures LinkedTo(k, i)(u) >= 0.0 {
      assert UsageOk(s, u);
    }
    SumNonNegative(us, LinkedTo(k, i));
  }

  /** What a removal gives back to an entry is what its own usages took from it. */
  lemma GiveBackEntry(s: State, id: Key, k: Key, i: nat)
    requires Inv(s) && k in s.stocks && i < |s.stocks[k].entries|
    ensures var after := GiveBack(s.stocks, Keep(s.usages, Of(id)))[k].entries;
            |after| == |s.stocks[k].entries|
            && EntryOk(after[i])
            && after[i].initial == s.stocks[k].entries[i].initial
            && after[i].unitCost == s.stocks[k].entries[i].unitCost
            && after[i].remaining + Sum(Keep(s.usages, Not(Of(id))), LinkedTo(k, i)) == after[i].initial
  {
    var own := Keep(s.usages, Of(id));
    SumSplit(s.usages, Of(id), LinkedTo(k, i));
    SumLinkedNonNegative(s, own, k, i);
    var es := s.stocks[k].entries;
    assert TakenFrom(own, k, |es|)[i] == Sum(own, LinkedTo(k, i));
    assert EntryOk(es[i]);
    assert GiveBack(s.stocks, own)[k].entries == Restored(es, TakenFrom(own, k, |es|));
  }

  lemma RemoveKeepsUsages(s: State, id: Key)
    requires Inv(s) && Remove(s, id).Ok?
    ensures UsagesOk(Remove(s, id).value)
  {
    var t := Remove(s, id).value;
    forall u | u in t.usages ensures UsageOk(t, u) {
      assert UsageOk(s, u) && u.production != id;
      if u.entry.Some? {
        GiveBackEntry(s, id, u.supply, u.entry.value);
      }
    }
  }

  lemma RemoveKeepsRows(s: State, id: Key)
    requires Inv(s) && Remove(s, id).Ok?
    ensures RowsOk(Remove(s, id).value) && SizesOk(Remove(s, id).value)
  {}

  lemma RemoveKeepsCosts(s: State, id: Key)
    requires Inv(s) && Remove(s, id).Ok?
    ensures CostsOk(Remove(s, id).value)
  {
    OtherCosts(s, id);
  }

  lemma RemoveKeepsStocks(s: State, id: Key)
    requires Inv(s) && Remove(s, id).Ok? && s.productions[id].status == COMPLETED
    ensures StocksOk(Remove(s, id).value.stocks)
    ensures Conserved(Remove(s, id).value.stocks, Remove(s, id).value.usages)
  {
    var t := Remove(s, id).value;
    assert t.stocks == GiveBack(s.stocks, Keep(s.usages, Of(id)));
    assert t.usages == Keep(s.usages, Not(Of(id)));
    forall k, i | k in t.stocks && 0 <= i < |t.stocks[k].entries|
      ensures t.stocks[k].entries[i].remaining + Sum(t.usages, LinkedTo(k, i)) == t.stocks[k].entries[i].initial
      ensures EntryOk(t.stocks[k].entries[i])
    {
      GiveBackEntry(s, id, k, i);
    }
  }

  lemma RemovePreserves(s: State, id: Key)
    requires Inv(s) && Remove(s, id).Ok?
    ensures Inv(Remove(s, id).value)
  {
    RemoveKeepsUsages(s, id);
    RemoveKeepsRows(s, id);
    RemoveKeepsCosts(s, id);
    if s.productions[id].status == COMPLETED {
      RemoveKeepsStocks(s, id);
    } else {
      DropDrafts(s, id);
    }
  }

  // ----- Every run -----

  lemma CreatePreserves(s: State, id: Key, draft: bool, p: Production, inputs: seq<Input>)
    requires Inv(s) && Admissible(s, DoCreate(id, draft, p, inputs))
    requires Create(s, id, draft, p, inputs).Ok?
    ensures Inv(Create(s, id, draft, p, inputs).value)
  {
    var p' := p.(status := if draft then DRAFT else COMPLETED, totalCost := 0.0);
    var mid := s.(productions := s.productions[id := p']);
    forall u | u in s.usages ensures UsageOk(mid, u) && u.production != id {
      assert UsageOk(s, u);
    }
    KeepNone(s.usages, Of(id));
    assert Inv(mid);
    if draft {
      AddDrafts(mid, id, inputs);
    } else {
      ProcessPreserves(mid, id, inputs);
    }
  }

  lemma AddDrafts(s: State, id: Key, inputs: seq<Input>)
    requires Inv(s) && id in s.productions && s.productions[id].status != COMPLETED
    requires Positive(inputs) && AllFound(s, inputs)
    ensures Inv(s.(usages := s.usages + Drafts(id, inputs)))
  {
    var drafts := Drafts(id, inputs);
    var t := s.(usages := s.usages + drafts);
    forall k, i | k in s.stocks && 0 <= i < |s.stocks[k].entries|
      ensures Sum(t.usages, LinkedTo(k, i)) == Sum(s.usages, LinkedTo(k, i))
    {
      SumConcat(s.usages, drafts, LinkedTo(k, i));
      SumZero(drafts, LinkedTo(k, i));
    }
    forall k | k in t.productions && t.productions[k].status == COMPLETED
      ensures Keep(t.usages, Of(k)) == Keep(s.usages, Of(k))
    {
      KeepConcat(s.usages, drafts, Of(k));
      KeepNone(drafts, Of(k));
      assert Keep(s.usages, Of(k)) + [] == Keep(s.usages, Of(k));
    }
    forall u | u in t.usages ensures UsageOk(t, u) {
      if u in s.usages {
        assert UsageOk(s, u);
      }
    }
  }

  /** Every request keeps the invariant: conservation per entry, flags, links and costs. */
  lemma StepPreserves(s: State, e: Event)
    requires Inv(s) && Admissible(s, e)
    ensures Inv(Step(s, e))
  {
    if Outcome(s, e).Ok? {
      match e
      case DoCreate(id, draft, p, inputs) => CreatePreserves(s, id, draft, p, inputs);
      case DoComplete(id) =>
        DropDrafts(s, id);
        DraftInputs(s, id);
        ProcessPreserves(s.(usages := Keep(s.usages, Not(Of(id)))), id, InputsOf(Keep(s.usages, Of(id))));
      case DoCancel(id) =>
        var t := Step(s, e);
        forall u | u in t.usages ensures UsageOk(t, u) {
          assert UsageOk(s, u);
        }
      case DoRemove(id) => RemovePreserves(s, id);
    }
  }

  lemma StepKeepsSync(s: State, e: Event)
    requires Inv(s) && Admissible(s, e) && InSync(s.stocks)
    ensures InSync(Step(s, e).stocks)
  {
    if Outcome(s, e).Ok? {
      match e
      case DoCreate(id, draft, p, inputs) =>
        if !draft {
          var created := p.(status := COMPLETED, totalCost := 0.0);
          var mid := s.(productions := s.productions[id := created]);
          ConsumeAllKeeps(mid, id, inputs, ConsumeAll(mid, id, inputs).value);
        }
      case DoComplete(id) =>
        var inputs, acc := CompletionShape(s, id);
        ConsumeAllKeeps(Cleared(s, id), id, inputs, acc);
      case DoCancel(id) =>
      case DoRemove(id) =>
        if s.productions[id].status == COMPLETED {
          GiveBackSynced(s, id);
        }
    }
  }

  lemma GiveBackSynced(s: State, id: Key)
    requires Inv(s) && InSync(s.stocks)
    ensures InSync(GiveBack(s.stocks, Keep(s.usages, Of(id))))
  {
    var own := Keep(s.usages, Of(id));
    forall k | k in s.stocks
      ensures GiveBack(s.stocks, own)[k] == Synced(GiveBack(s.stocks, own)[k].entries)
    {
      var es := s.stocks[k].entries;
      if !(exists u :: u in own && u.supply == k && u.entry.Some? && u.entry.value < |es|) {
        NothingGiven(es, own, k);
      }
    }
  }

  /** A run of requests, each admissible when its turn comes. */
  predicate Reaches(s: State, es: seq<Event>, t: State)
    requires Inv(s)
    decreases |es|
  {
    if |es| == 0 then s == t
    else Admissible(s, es[0]) && (StepPreserves(s, es[0]); Reaches(Step(s, es[0]), es[1..], t))
  }

  /**
   Over every run: what remains of an entry plus everything the existing usages took from
   it is its initial quantity, it stays between zero and that, it is flagged exhausted
   exactly when nothing remains, and each completed production costs what its usages cost.
   */
  lemma {:induction false} RunConserves(s: State, es: seq<Event>, t: State)
    requires Inv(s) && Reaches(s, es, t)
    ensures Inv(t)
    ensures forall k, i :: k in t.stocks && 0 <= i < |t.stocks[k].entries| ==>
              var e := t.stocks[k].entries[i];
              e.remaining + Sum(t.usages, LinkedTo(k, i)) == e.initial
              && 0.0 <= e.remaining <= e.initial
              && (e.exhausted <==> e.remaining == 0.0)
    ensures InSync(s.stocks) ==> InSync(t.stocks)
    decreases |es|
  {
    if |es| > 0 {
      StepPreserves(s, es[0]);
      if InSync(s.stocks) {
        StepKeepsSync(s, es[0]);
      }
      RunConserves(Step(s, es[0]), es[1..], t);
    } else {
      forall k, i | k in t.stocks && 0 <= i < |t.stocks[k].entries|
        ensures Sum(t.usages, LinkedTo(k, i)) >= 0.0 && EntryOk(t.stocks[k].entries[i])
      {
        SumLinkedNonNegative(t, t.usages, k, i);
      }
    }
  }

  // ----- Drafting first or completing at once -----

  /**
   A production created as COMPLETED and one created as DRAFT and then completed succeed
   together and leave exactly the same tables: entries, usages, costs, movements, stocks.
   */
  lemma DraftThenComplete(s: State, id: Key, p: Production, inputs: seq<Input>)
    requires Inv(s) && Admissible(s, DoCreate(id, false, p, inputs))
    ensures var direct := Create(s, id, false, p, inputs);
            var draft := Create(s, id, true, p, inputs);
            (draft.Ok? ==> Inv(draft.value))
            && (direct.Ok? <==> draft.Ok? && Complete(draft.value, id).Ok?)
            && (direct.Ok? ==> Complete(draft.value, id) == direct)
  {
    var draft := Create(s, id, true, p, inputs);
    if draft.Ok? {
      CreatePreserves(s, id, true, p, inputs);
      DraftsReadBack(s, id, inputs);
      var drafted := draft.value;
      var pending := p.(status := DRAFT, totalCost := 0.0);
      var created := p.(status := COMPLETED, totalCost := 0.0);
      assert drafted.(usages := s.usages) == s.(productions := s.productions[id := pending]);
      ProcessIgnoresStatus(s, id, pending, created, inputs);
    }
  }

  /** The rows a draft writes are read back as the same inputs, and deleting them leaves the others. */
  lemma DraftsReadBack(s: State, id: Key, inputs: seq<Input>)
    requires Inv(s) && id !in s.productions
    ensures var all := s.usages + Drafts(id, inputs);
            InputsOf(Keep(all, Of(id))) == inputs && Keep(all, Not(Of(id))) == s.usages
  {
    var drafts := Drafts(id, inputs);
    forall u | u in s.usages ensures u.production != id {
      assert UsageOk(s, u);
    }
    KeepConcat(s.usages, drafts, Of(id));
    KeepConcat(s.usages, drafts, Not(Of(id)));
    KeepNone(s.usages, Of(id));
    KeepAll(s.usages, Not(Of(id)));
    KeepAll(drafts, Of(id));
    KeepNone(drafts, Not(Of(id)));
    assert [] + drafts == drafts && s.usages + [] == s.usages;
    assert InputsOf(drafts) == inputs;
  }

  lemma {:induction false} ConsumeReadsStocks(s: State, t: State, id: Key, inputs: seq<Input>)
    requires s.stocks == t.stocks && s.supplies == t.supplies
    requires Known(s, inputs) && Positive(inputs) && Stocked(s.stocks, inputs)
    ensures ConsumeAll(s, id, inputs) == ConsumeAll(t, id, inputs)
  {
    if |inputs| > 0 {
      ConsumeReadsStocks(s, t, id, inputs[..|inputs| - 1]);
    }
  }

  lemma ProcessIgnoresStatus(s: State, id: Key, p: Production, q: Production, inputs: seq<Input>)
    requires Known(s, inputs) && Positive(inputs) && p.produced > 0.0
    requires p.(status := COMPLETED, totalCost := 0.0) == q.(status := COMPLETED, totalCost := 0.0)
    ensures Process(s.(productions := s.productions[id := p]), id, p, inputs)
         == Process(s.(productions := s.productions[id := q]), id, q, inputs)
  {
    var sp := s.(productions := s.productions[id := p]);
    var sq := s.(productions := s.productions[id := q]);
    if Validated(sp, inputs) {
      ConsumeReadsStocks(sp, sq, id, inputs);
      forall acc: Acc ensures sp.productions[id := p.(status := COMPLETED, totalCost := acc.cost)]
                           == sq.productions[id := q.(status := COMPLETED, totalCost := acc.cost)] {}
    }
  }

  // ----- Completing and then removing -----

  lemma EntryPutBack(before: Entry, after: Entry, given: real)
    requires EntryOk(before) && EntryOk(after) && given >= 0.0
    requires before.initial == after.initial && before.unitCost == after.unitCost
    requires after.remaining + given == before.remaining
    ensures GiveTo(after, given) == before
  {}

  lemma StockPutBack(stocks: map<Key, SupplyStock>, id: Key, acc: Acc, k: Key)
    requires AccUsages(stocks, id, acc) && AccStocks(stocks, acc) && StocksOk(stocks) && k in stocks
    ensures Restored(acc.stocks[k].entries, TakenFrom(acc.usages, k, |acc.stocks[k].entries|)) == stocks[k].entries
  {
    var before, after := stocks[k].entries, acc.stocks[k].entries;
    assert SameLots(before, after);
    forall i | 0 <= i < |before|
      ensures GiveTo(after[i], Sum(acc.usages, LinkedTo(k, i))) == before[i]
    {
      TakenNonNegative(stocks, id, acc, k, i);
      assert EntryOk(before[i]) && EntryOk(after[i]);
      EntryPutBack(before[i], after[i], Sum(acc.usages, LinkedTo(k, i)));
    }
  }

  /** Removing a production just completed puts back every entry, flag and aggregate. */
  lemma GiveBackUndoes(s: State, id: Key, inputs: seq<Input>, acc: Acc)
    requires Inv(s) && InSync(s.stocks)
    requires Known(s, inputs) && Positive(inputs) && Stocked(s.stocks, inputs)
    requires ConsumeAll(s, id, inputs) == Some(acc)
    ensures GiveBack(acc.stocks, acc.usages) == s.stocks
  {
    ConsumeAllKeeps(s, id, inputs, acc);
    forall k | k in s.stocks
      ensures GiveBack(acc.stocks, acc.usages)[k] == s.stocks[k]
    {
      StockPutBack(s.stocks, id, acc, k);
      if !(exists u :: u in acc.usages && u.supply == k && u.entry.Some? && u.entry.value < |acc.stocks[k].entries|) {
        NothingGiven(acc.stocks[k].entries, acc.usages, k);
      }
    }
  }

  lemma NothingGiven(es: seq<Entry>, us: seq<Usage>, k: Key)
    requires forall u :: u in us && u.supply == k && u.entry.Some? ==> u.entry.value >= |es|
    ensures Restored(es, TakenFrom(us, k, |es|)) == es
  {
    forall i | 0 <= i < |es| ensures Sum(us, LinkedTo(k, i)) == 0.0 {
      SumZero(us, LinkedTo(k, i));
    }
  }

  lemma TakenNonNegative(stocks: map<Key, SupplyStock>, id: Key, acc: Acc, k: Key, i: nat)
    requires AccUsages(stocks, id, acc)
    ensures Sum(acc.usages, LinkedTo(k, i)) >= 0.0
  {
    forall u | u in acc.usages ensures LinkedTo(k, i)(u) >= 0.0 {
      assert WellLinked(u, id, u.supply, stocks[u.supply].entries);
    }
    SumNonNegative(acc.usages, LinkedTo(k, i));
  }

  lemma UsagesUndone(s: State, id: Key, acc: Acc)
    requires NoUsages(s, id) && forall u :: u in acc.usages ==> u.production == id
    ensures Keep(s.usages + acc.usages, Of(id)) == acc.usages
    ensures Keep(s.usages + acc.usages, Not(Of(id))) == s.usages
  {
    KeepConcat(s.usages, acc.usages, Of(id));
    KeepConcat(s.usages, acc.usages, Not(Of(id)));
    KeepNone(s.usages, Of(id));
    KeepAll(s.usages, Not(Of(id)));
    KeepAll(acc.usages, Of(id));
    KeepNone(acc.usages, Not(Of(id)));
    assert [] + acc.usages == acc.usages && s.usages + [] == s.usages;
  }

  /** The tables a removal leaves, field by field, once its guards pass. */
  lemma RemovedSold(t: State, id: Key, product: Key)
    requires id in t.productions && t.productions[id].status == COMPLETED
    requires t.productions[id].sellable && t.productions[id].product == Some(product) && product in t.products
    ensures Remove(t, id) == Ok(State(
              t.supplies,
              GiveBack(t.stocks, Keep(t.usages, Of(id))),
              Keep(t.usages, Not(Of(id))),
              Keep(t.movements, Not(MovementOf(id))),
              t.productions - {id},
              t.products[product := t.products[product] - t.productions[id].produced],
              Keep(t.inventory, Not(InventoryOf(id)))))
  {}

  predicate Undoable(s: State, id: Key, acc: Acc) {
    Keep(s.usages + acc.usages, Of(id)) == acc.usages
    && Keep(s.usages + acc.usages, Not(Of(id))) == s.usages
    && GiveBack(acc.stocks, acc.usages) == s.stocks
    && Keep(s.movements + acc.movements, Not(MovementOf(id))) == s.movements
    && Keep(s.inventory, Not(InventoryOf(id))) == s.inventory
  }

  lemma FinishedFields(s: State, id: Key, product: Key, acc: Acc)
    requires id in s.productions && s.productions[id].produced > 0.0
    requires Sold(s.productions[id]) && s.productions[id].product == Some(product)
    ensures Finished(s, id, acc, product, Finish(s, id, s.productions[id], acc))
  {}

  predicate Finished(s: State, id: Key, acc: Acc, product: Key, t: State)
    requires id in s.productions && s.productions[id].produced > 0.0
  {
    var p := s.productions[id];
    t.supplies == s.supplies && t.stocks == acc.stocks && t.usages == s.usages + acc.usages
    && t.movements == s.movements + acc.movements
    && t.productions == s.productions[id := p.(status := COMPLETED, totalCost := acc.cost)]
    && t.products == s.products[product := Held(s.products, product) + p.produced]
    && t.inventory == s.inventory + [Yield(id, product, p.produced, acc.cost)]
  }

  predicate PutsBack(s: State, id: Key, t: State) {
    t.supplies == s.supplies
    && GiveBack(t.stocks, Keep(t.usages, Of(id))) == s.stocks
    && Keep(t.usages, Not(Of(id))) == s.usages
    && Keep(t.movements, Not(MovementOf(id))) == s.movements
    && t.productions - {id} == s.productions - {id}
    && Keep(t.inventory, Not(InventoryOf(id))) == s.inventory
  }

  lemma FinishedPutsBack(s: State, id: Key, acc: Acc, product: Key, t: State)
    requires id in s.productions && s.productions[id].produced > 0.0 && Undoable(s, id, acc)
    requires Finished(s, id, acc, product, t)
    requires Keep(t.inventory, Not(InventoryOf(id))) == s.inventory
    ensures PutsBack(s, id, t)
  {
    assert t.productions - {id} == s.productions - {id};
  }

  lemma RemoveFinished(s: State, id: Key, t: State, product: Key)
    requires PutsBack(s, id, t)
    requires id in t.productions && t.productions[id].status == COMPLETED
    requires t.productions[id].sellable && t.productions[id].product == Some(product)
    requires t.products == s.products[product := Held(s.products, product) + t.productions[id].produced]
    ensures Remove(t, id)
         == Ok(s.(productions := s.productions - {id}, products := s.products[product := Held(s.products, product)]))
  {
    var produced := t.productions[id].produced;
    assert t.products[product := t.products[product] - produced] == s.products[product := Held(s.products, product)];
    RemovedSold(t, id, product);
  }

  lemma FinishThenRemoveKept(s: State, id: Key, acc: Acc)
    requires id in s.productions && s.productions[id].produced > 0.0 && Undoable(s, id, acc)
    requires !(s.productions[id].sellable && s.productions[id].product.Some?)
    ensures Remove(Finish(s, id, s.productions[id], acc), id) == Ok(s.(productions := s.productions - {id}))
  {
    var t := Finish(s, id, s.productions[id], acc);
    assert t.productions - {id} == s.productions - {id};
  }

  lemma CompletionUndoable(s: State, id: Key, inputs: seq<Input>, acc: Acc)
    requires Inv(s) && InSync(s.stocks) && NoUsages(s, id)
    requires id in s.productions && s.productions[id].status != COMPLETED
    requires Known(s, inputs) && Positive(inputs) && Stocked(s.stocks, inputs)
    requires ConsumeAll(s, id, inputs) == Some(acc)
    ensures Undoable(s, id, acc)
    ensures forall m: InventoryMovement :: m.production == id ==> Keep(s.inventory + [m], Not(InventoryOf(id))) == s.inventory
  {
    ConsumeAllKeeps(s, id, inputs, acc);
    GiveBackUndoes(s, id, inputs, acc);
    UsagesUndone(s, id, acc);
    MovementsUndone(s, id, acc);
  }

  lemma FinishThenRemoveSold(s: State, id: Key, acc: Acc, product: Key, t: State)
    requires id in s.productions && s.productions[id].produced > 0.0 && Undoable(s, id, acc)
    requires Sold(s.productions[id]) && s.productions[id].product == Some(product)
    requires forall m: InventoryMovement :: m.production == id ==> Keep(s.inventory + [m], Not(InventoryOf(id))) == s.inventory
    requires t == Finish(s, id, s.productions[id], acc)
    ensures Remove(t, id)
         == Ok(s.(productions := s.productions - {id}, products := s.products[product := Held(s.products, product)]))
  {
    FinishedFields(s, id, product, acc);
    RemoveWhatFinished(s, id, acc, product, t);
  }

  lemma RemoveWhatFinished(s: State, id: Key, acc: Acc, product: Key, t: State)
    requires id in s.productions && s.productions[id].produced > 0.0 && Undoable(s, id, acc)
    requires s.productions[id].sellable && s.productions[id].product == Some(product)
    requires forall m: InventoryMovement :: m.production == id ==> Keep(s.inventory + [m], Not(InventoryOf(id))) == s.inventory
    requires Finished(s, id, acc, product, t)
    ensures Remove(t, id)
         == Ok(s.(productions := s.productions - {id}, products := s.products[product := Held(s.products, product)]))
  {
    var row := Yield(id, product, s.productions[id].produced, acc.cost);
    assert row.production == id && t.inventory == s.inventory + [row];
    FinishedPutsBack(s, id, acc, product, t);
    RemoveFinished(s, id, t, product);
  }

  /** The draft of a production without its usage rows: what completion starts from. */
  function Cleared(s: State, id: Key): State {
    s.(usages := Keep(s.usages, Not(Of(id))))
  }

  lemma CompletionShape(s: State, id: Key) returns (inputs: seq<Input>, acc: Acc)
    requires Inv(s) && Complete(s, id).Ok?
    ensures Known(Cleared(s, id), inputs) && Positive(inputs) && Stocked(s.stocks, inputs)
    ensures ConsumeAll(Cleared(s, id), id, inputs) == Some(acc)
    ensures Complete(s, id).value == Finish(Cleared(s, id), id, s.productions[id], acc)
  {
    DraftInputs(s, id);
    inputs := InputsOf(Keep(s.usages, Of(id)));
    acc := ConsumeAll(Cleared(s, id), id, inputs).value;
  }

  /**
   Completing and then removing restores every stock entry, supply aggregate, usage,
   supply movement and inventory movement, and what every product's stock holds.
   */
  lemma CompleteThenRemove(s: State, id: Key)
    requires Inv(s) && InSync(s.stocks) && Complete(s, id).Ok?
    ensures var back := Remove(Complete(s, id).value, id);
            back.Ok?
            && back.value == Without(s, id).(products := back.value.products)
            && (forall p :: Held(back.value.products, p) == Held(s.products, p))
  {
    DropDrafts(s, id);
    var inputs, acc := CompletionShape(s, id);
    CompletionUndoable(Cleared(s, id), id, inputs, acc);
    UndoneByRemoval(s, id, acc, Complete(s, id).value);
  }

  lemma UndoneByRemoval(s: State, id: Key, acc: Acc, t: State)
    requires id in s.productions && s.productions[id].produced > 0.0 && Undoable(Cleared(s, id), id, acc)
    requires forall m: InventoryMovement :: m.production == id ==> Keep(s.inventory + [m], Not(InventoryOf(id))) == s.inventory
    requires t == Finish(Cleared(s, id), id, s.productions[id], acc)
    ensures var back := Remove(t, id);
            back.Ok?
            && back.value == Without(s, id).(products := back.value.products)
            && (forall p :: Held(back.value.products, p) == Held(s.products, p))
  {
    var c, p := Cleared(s, id), s.productions[id];
    if p.sellable && p.product.Some? {
      FinishThenRemoveSold(c, id, acc, p.product.value, t);
    } else {
      FinishThenRemoveKept(c, id, acc);
    }
  }

  lemma MovementsUndone(s: State, id: Key, acc: Acc)
    requires Inv(s) && id in s.productions && s.productions[id].status != COMPLETED
    requires forall m :: m in acc.movements ==> m.production == id
    ensures Keep(s.movements + acc.movements, Not(MovementOf(id))) == s.movements
    ensures Keep(s.inventory, Not(InventoryOf(id))) == s.inventory
    ensures forall m: InventoryMovement :: m.production == id ==> Keep(s.inventory + [m], Not(InventoryOf(id))) == s.inventory
  {
    KeepConcat(s.movements, acc.movements, Not(MovementOf(id)));
    KeepAll(s.movements, Not(MovementOf(id)));
    KeepNone(acc.movements, Not(MovementOf(id)));
    assert s.movements + [] == s.movements && s.inventory + [] == s.inventory;
    KeepAll(s.inventory, Not(InventoryOf(id)));
    forall m: InventoryMovement | m.production == id
      ensures Keep(s.inventory + [m], Not(InventoryOf(id))) == s.inventory
    {
      KeepConcat(s.inventory, [m], Not(InventoryOf(id)));
      KeepNone([m], Not(InventoryOf(id)));
    }
  }

  // ----- When a completion goes through, and what it takes -----

  function Quantity(): Usage -> real {
    (u: Usage) => u.quantity
  }

  lemma {:induction false} UsagesQuantity(id: Key, supply: Key, es: seq<Entry>, taken: seq<real>)
    requires |taken| == |es|
    ensures Sum(UsagesFrom(id, supply, es, taken), Quantity()) == Sum(taken, Fifo.Id())
  {
    if |es| > 0 {
      var i := |es| - 1;
      var front := UsagesFrom(id, supply, es[..i], taken[..i]);
      UsagesQuantity(id, supply, es[..i], taken[..i]);
      if taken[i] != 0.0 {
        SumPush(front, Used(id, supply, i, taken[i], es[i].unitCost), Quantity());
      } else {
        assert front + [] == front;
      }
    }
  }

  /** So many packages of a size hold a quantity. */
  predicate Hold(packages: real, size: real, quantity: real) {
    packages * size == quantity
  }

  /** So many packages of a size hold a quantity or more. */
  predicate Suffice(packages: real, size: real, quantity: real) {
    packages * size >= quantity
  }

  lemma PackagesHold(packages: real, size: real, quantity: real)
    requires size > 0.0
    ensures Hold(packages, size, quantity) <==> packages == quantity / size
    ensures Suffice(packages, size, quantity) <==> packages >= quantity / size
  {
    if packages >= quantity / size {
      assert (packages - quantity / size) * size >= 0.0;
    } else {
      assert (quantity / size - packages) * size > 0.0;
    }
    if packages * size == quantity {
      assert packages == quantity / size;
    }
  }

  lemma TakesRequired(stock: SupplyStock, id: Key, supply: Supply, input: Input)
    requires supply.measurable && supply.packageSize > 0.0 && input.quantity > 0.0 && AllOk(stock.entries)
    ensures var turn, required := TurnOf(stock, id, supply, input), Required(supply, input.quantity);
            (turn.Some? <==> Available(stock.entries) >= required)
            && (turn.Some? ==>
                  && Available(stock.entries) - Available(turn.value.stock.entries) == required
                  && Sum(turn.value.usages, Quantity()) == required
                  && -turn.value.movement.quantity == required)
  {
    var es := stock.entries;
    var required := Required(supply, input.quantity);
    if Available(es) >= required {
      var taken := Taken(es, required);
      TakenSum(es, required);
      AvailableAfter(es, taken);
      UsagesQuantity(id, input.supply, es, taken);
    }
  }

  /**
   A measurable supply is taken in exactly the quantity asked for, packages counted at what
   one holds, or nothing happens: entries, usage rows and the movement row all agree.
   */
  lemma MeasurableTakesExactly(stock: SupplyStock, id: Key, supply: Supply, input: Input)
    requires supply.measurable && supply.packageSize > 0.0 && input.quantity > 0.0 && AllOk(stock.entries)
    ensures var turn, size := TurnOf(stock, id, supply, input), supply.packageSize;
            (turn.Some? <==> Suffice(Available(stock.entries), size, input.quantity))
            && (turn.Some? ==>
                  && Hold(Available(stock.entries) - Available(turn.value.stock.entries), size, input.quantity)
                  && Hold(Sum(turn.value.usages, Quantity()), size, input.quantity)
                  && Hold(-turn.value.movement.quantity, size, input.quantity))
  {
    var turn := TurnOf(stock, id, supply, input);
    TakesRequired(stock, id, supply, input);
    PackagesHold(Available(stock.entries), supply.packageSize, input.quantity);
    if turn.Some? {
      PackagesHold(Required(supply, input.quantity), supply.packageSize, input.quantity);
    }
  }

  lemma AverageHolds(quantity: real, cost: real)
    requires quantity != 0.0
    ensures Hold(quantity, cost / quantity, cost)
  {}

  /** The movement row of any supply is worth what its usage rows cost, and the aggregate left is the fewest whole packages. */
  lemma TurnIsWorth(stock: SupplyStock, id: Key, supply: Supply, input: Input)
    requires supply.packageSize > 0.0 && input.quantity > 0.0 && AllOk(stock.entries)
    requires TurnOf(stock, id, supply, input).Some?
    ensures var turn := TurnOf(stock, id, supply, input).value;
            && turn.cost == Sum(turn.usages, Cost())
            && Hold(-turn.movement.quantity, turn.movement.unitCost, turn.cost)
            && turn.movement.production == id && turn.movement.supply == input.supply
            && Available(turn.stock.entries) <= turn.stock.quantity < Available(turn.stock.entries) + 1.0
  {
    var taken := TakenBy(supply, stock.entries, input.quantity);
    var cost := Sum(UsagesFrom(id, input.supply, stock.entries, taken), Cost());
    AverageHolds(Required(supply, input.quantity), cost);
  }

  /** The movement row of an input tells the quantity asked for: in packages of a measurable supply, in units of any other. */
  predicate Tells(m: SupplyMovement, id: Key, supply: Supply, input: Input) {
    m.production == id && m.supply == input.supply
    && Hold(-m.quantity, if supply.measurable then supply.packageSize else 1.0, input.quantity)
  }

  lemma TurnTells(stock: SupplyStock, id: Key, supply: Supply, input: Input)
    requires supply.packageSize > 0.0 && input.quantity > 0.0 && TurnOf(stock, id, supply, input).Some?
    ensures Tells(TurnOf(stock, id, supply, input).value.movement, id, supply, input)
  {
    PackagesHold(Required(supply, input.quantity), supply.packageSize, input.quantity);
  }

  lemma OneMoreMovement(acc: Acc, id: Key, supply: Supply, input: Input, after: Acc)
    requires supply.packageSize > 0.0 && input.supply in acc.stocks && input.quantity > 0.0
    requires ConsumeOne(acc, id, supply, input) == Some(after)
    ensures |after.movements| == |acc.movements| + 1 && after.movements[..|acc.movements|] == acc.movements
    ensures Tells(after.movements[|acc.movements|], id, supply, input)
  {
    TurnTells(acc.stocks[input.supply], id, supply, input);
  }

  /** One movement row for every input, in order. */
  lemma {:induction false} MovementPerInput(s: State, id: Key, inputs: seq<Input>, acc: Acc)
    requires Known(s, inputs) && Positive(inputs) && Stocked(s.stocks, inputs)
    requires ConsumeAll(s, id, inputs) == Some(acc)
    ensures |acc.movements| == |inputs|
    ensures forall i :: 0 <= i < |inputs| ==> Tells(acc.movements[i], id, s.supplies[inputs[i].supply], inputs[i])
  {
    if |inputs| > 0 {
      var n := |inputs| - 1;
      var front := ConsumeAll(s, id, inputs[..n]).value;
      MovementPerInput(s, id, inputs[..n], front);
      OneMoreMovement(front, id, s.supplies[inputs[n].supply], inputs[n], acc);
      forall i | 0 <= i < n ensures Tells(acc.movements[i], id, s.supplies[inputs[i].supply], inputs[i]) {
        assert inputs[..n][i] == inputs[i] && acc.movements[i] == front.movements[i];
      }
    }
  }

  /** A sold production puts one row in the inventory, worth what the production cost, and its quantity on the stock. */
  lemma YieldIsWorth(s: State, id: Key, p: Production, inputs: seq<Input>)
    requires Known(s, inputs) && Positive(inputs) && p.produced > 0.0
    requires Process(s, id, p, inputs).Ok?
    ensures var t := Process(s, id, p, inputs).value;
            id in t.productions
            && (!(p.sellable && p.product.Some?) ==> t.inventory == s.inventory && t.products == s.products)
            && (p.sellable && p.product.Some? ==>
                  && |t.inventory| == |s.inventory| + 1
                  && var row := t.inventory[|s.inventory|];
                     && t.inventory == s.inventory + [row]
                     && row.production == id && row.product == p.product.value && row.quantity == p.produced
                     && Hold(row.quantity, row.unitCost, t.productions[id].totalCost)
                     && t.products == s.products[row.product := (if row.product in s.products then s.products[row.product] else 0.0) + row.quantity])
  {
    var acc := ConsumeAll(s, id, inputs).value;
    AverageHolds(p.produced, acc.cost);
  }

  /** One usage row for every amount that is not nothing. */
  lemma {:induction false} UsagesCount(id: Key, supply: Key, es: seq<Entry>, n: nat)
    requires AllOk(es)
    ensures |UsagesFrom(id, supply, es, TakenWhole(es, n))| == Open(es) - Open(Consumed(es, TakenWhole(es, n)))
  {
    if |es| > 0 {
      var k := |es| - 1;
      UsagesCount(id, supply, es[..k], n);
      TakenWholePrefix(es, n, k);
      assert EntryOk(es[k]);
      assert Consumed(es, TakenWhole(es, n))[..k] == Consumed(es[..k], TakenWhole(es[..k], n));
    }
  }

  lemma UnitUsages(id: Key, supply: Key, es: seq<Entry>, n: nat)
    requires AllOk(es)
    ensures Sum(UsagesFrom(id, supply, es, TakenWhole(es, n)), Quantity()) == Oldest(es, n)
    ensures |UsagesFrom(id, supply, es, TakenWhole(es, n))| < n <==> Open(es) < n
  {
    WholeTakesOldest(es, n);
    UsagesQuantity(id, supply, es, TakenWhole(es, n));
    UsagesCount(id, supply, es, n);
    UnitsEmptyEntries(es, n);
  }

  /**
   A unit supply is never refused for lack of entries. Its usages add up to what the n
   oldest open lots hold, n being the quantity rounded up, whether or not that is what was
   asked for; there is one usage per emptied lot, fewer than n exactly if fewer were open.
   */
  lemma UnitsTakeLots(acc: Acc, id: Key, supply: Supply, input: Input)
    requires !supply.measurable && supply.packageSize > 0.0 && input.supply in acc.stocks && input.quantity > 0.0
    requires AllOk(acc.stocks[input.supply].entries)
    ensures var es := acc.stocks[input.supply].entries;
            var n := CeilInt(input.quantity);
            var turn := TurnOf(acc.stocks[input.supply], id, supply, input);
            n >= 1 && turn.Some?
            && Sum(turn.value.usages, Quantity()) == Oldest(es, n)
            && Available(turn.value.stock.entries) == Available(es) - Oldest(es, n)
            && (|turn.value.usages| < n <==> Open(es) < n)
  {
    var es := acc.stocks[input.supply].entries;
    var n := CeilInt(input.quantity);
    WholeTakesOldest(es, n);
    AvailableAfter(es, TakenWhole(es, n));
    UnitUsages(id, input.supply, es, n);
  }

  /** The movement row says what was asked: it tells the quantity the entries lost exactly when the oldest lots hold that. */
  lemma UnitMovementExact(acc: Acc, id: Key, supply: Supply, input: Input)
    requires !supply.measurable && supply.packageSize > 0.0 && input.supply in acc.stocks && input.quantity > 0.0
    requires AllOk(acc.stocks[input.supply].entries)
    ensures var es := acc.stocks[input.supply].entries;
            var turn := TurnOf(acc.stocks[input.supply], id, supply, input);
            turn.Some?
            && (-turn.value.movement.quantity == Available(es) - Available(turn.value.stock.entries)
                <==> Oldest(es, CeilInt(input.quantity)) == input.quantity)
  {
    UnitsTakeLots(acc, id, supply, input);
  }

  predicate Distinct(inputs: seq<Input>) {
    forall i, j :: 0 <= i < j < |inputs| ==> inputs[i].supply != inputs[j].supply
  }

  /** The entries of a measurable supply hold what is asked for; a unit supply asks nothing of them. */
  predicate EntriesCover(s: State, input: Input)
    requires input.supply in s.supplies && input.supply in s.stocks
  {
    var supply := s.supplies[input.supply];
    supply.measurable ==> Suffice(Available(s.stocks[input.supply].entries), supply.packageSize, input.quantity)
  }

  /** The aggregate shows it too, or at least one package of a unit supply. */
  predicate AggregateCovers(s: State, input: Input)
    requires input.supply in s.supplies && input.supply in s.stocks
  {
    var supply, shown := s.supplies[input.supply], s.stocks[input.supply].quantity;
    if supply.measurable then Suffice(shown, supply.packageSize, input.quantity) else shown >= 1.0
  }

  predicate Covered(s: State, inputs: seq<Input>)
    requires Known(s, inputs) && Stocked(s.stocks, inputs)
  {
    forall i :: 0 <= i < |inputs| ==> EntriesCover(s, inputs[i])
  }

  lemma {:induction false} OthersUntouched(s: State, id: Key, inputs: seq<Input>, k: Key)
    requires Known(s, inputs) && Positive(inputs) && Stocked(s.stocks, inputs)
    requires ConsumeAll(s, id, inputs).Some? && k in s.stocks
    requires forall i :: 0 <= i < |inputs| ==> inputs[i].supply != k
    ensures ConsumeAll(s, id, inputs).value.stocks[k] == s.stocks[k]
  {
    if |inputs| > 0 {
      OthersUntouched(s, id, inputs[..|inputs| - 1], k);
    }
  }

  lemma CoveredSplit(s: State, inputs: seq<Input>)
    requires Known(s, inputs) && |inputs| > 0 && Stocked(s.stocks, inputs)
    ensures var n := |inputs| - 1;
            Covered(s, inputs) <==> Covered(s, inputs[..n]) && EntriesCover(s, inputs[n])
  {
    var n := |inputs| - 1;
    if Covered(s, inputs[..n]) {
      forall i | 0 <= i < n ensures EntriesCover(s, inputs[i]) {
        assert inputs[..n][i] == inputs[i];
      }
    }
  }

  /** Whatever the kinds of supply: the loop goes through exactly when every measurable one is covered by its entries. */
  lemma {:induction false} ConsumesIffCovered(s: State, id: Key, inputs: seq<Input>)
    requires Known(s, inputs) && Positive(inputs) && Stocked(s.stocks, inputs) && Distinct(inputs)
    ensures ConsumeAll(s, id, inputs).Some? <==> Covered(s, inputs)
  {
    if |inputs| > 0 {
      var n := |inputs| - 1;
      var front, last := inputs[..n], inputs[n];
      var supply := s.supplies[last.supply];
      ConsumesIffCovered(s, id, front);
      CoveredSplit(s, inputs);
      if ConsumeAll(s, id, front).Some? {
        OthersUntouched(s, id, front, last.supply);
        PackagesHold(Available(s.stocks[last.supply].entries), supply.packageSize, last.quantity);
      }
    }
  }

  lemma ValidatedIff(s: State, inputs: seq<Input>)
    requires Known(s, inputs)
    ensures Validated(s, inputs) <==>
              forall i :: 0 <= i < |inputs| ==> inputs[i].supply in s.stocks && AggregateCovers(s, inputs[i])
  {
    forall i | 0 <= i < |inputs| && inputs[i].supply in s.stocks
      ensures EnoughFor(s.supplies[inputs[i].supply], s.stocks[inputs[i].supply], inputs[i].quantity)
         <==> AggregateCovers(s, inputs[i])
    {
      PackagesHold(s.stocks[inputs[i].supply].quantity, s.supplies[inputs[i].supply].packageSize, inputs[i].quantity);
    }
  }

  /** A production completes exactly when aggregates and entries cover what it asks for; otherwise it is Unprocessable. */
  lemma CompletesIff(s: State, id: Key, p: Production, inputs: seq<Input>)
    requires Known(s, inputs) && Positive(inputs) && p.produced > 0.0 && Distinct(inputs)
    ensures Process(s, id, p, inputs).Ok? <==>
              forall i :: 0 <= i < |inputs| ==>
                inputs[i].supply in s.stocks && AggregateCovers(s, inputs[i]) && EntriesCover(s, inputs[i])
    ensures Process(s, id, p, inputs).Err? ==> Process(s, id, p, inputs).error == Unprocessable
  {
    ValidatedIff(s, inputs);
    if Validated(s, inputs) {
      ConsumesIffCovered(s, id, inputs);
    }
  }

  /** What the entries of a supply hold is enough. */
  predicate InStock(s: State, input: Input)
    requires input.supply in s.supplies
  {
    input.supply in s.stocks
    && var supply, held := s.supplies[input.supply], Available(s.stocks[input.supply].entries);
       if supply.measurable then Suffice(held, supply.packageSize, input.quantity) else held > 0.0
  }

  lemma AggregateInSync(s: State, input: Input)
    requires InSync(s.stocks) && input.supply in s.supplies && s.supplies[input.supply].packageSize > 0.0
    requires input.supply in s.stocks
    ensures AggregateCovers(s, input) && EntriesCover(s, input) <==> InStock(s, input)
  {
    var stock, size := s.stocks[input.supply], s.supplies[input.supply].packageSize;
    assert stock == Synced(stock.entries);
    assert (Ceil(Available(stock.entries)) - Available(stock.entries)) * size >= 0.0;
  }

  /** With aggregates in sync the entries alone decide. */
  lemma CompletesIffInStock(s: State, id: Key, p: Production, inputs: seq<Input>)
    requires Known(s, inputs) && Positive(inputs) && p.produced > 0.0 && Distinct(inputs) && InSync(s.stocks)
    ensures Process(s, id, p, inputs).Ok? <==> forall i :: 0 <= i < |inputs| ==> InStock(s, inputs[i])
  {
    CompletesIff(s, id, p, inputs);
    forall i | 0 <= i < |inputs| && inputs[i].supply in s.stocks
      ensures AggregateCovers(s, inputs[i]) && EntriesCover(s, inputs[i]) <==> InStock(s, inputs[i])
    {
      AggregateInSync(s, inputs[i]);
    }
  }
}

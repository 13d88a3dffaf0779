/**
 When each production request is accepted, what its refusals mean and what it stores, in
 the caller's own terms.
 */
module ProductionRequests {
  import opened Options
  import opened Sums
  import opened Fifo
  import opened Productions
  import Runs = ProductionRuns

  // ----- What completion asks of the stocks -----

  /** Aggregate and entries of every supply cover what is asked of it. */
  predicate AllCovered(s: State, inputs: seq<Input>)
    requires Known(s, inputs)
  {
    forall i :: 0 <= i < |inputs| ==>
      inputs[i].supply in s.stocks && Runs.AggregateCovers(s, inputs[i]) && Runs.EntriesCover(s, inputs[i])
  }

  lemma ProcessIff(s: State, id: Key, p: Production, inputs: seq<Input>)
    requires Known(s, inputs) && Positive(inputs) && p.produced > 0.0 && Runs.Distinct(inputs)
    ensures Process(s, id, p, inputs).Ok? <==> AllCovered(s, inputs)
    ensures Process(s, id, p, inputs).Err? ==> Process(s, id, p, inputs).error == Unprocessable
  {
    Runs.CompletesIff(s, id, p, inputs);
  }

  // ----- Creating -----

  predicate Unlinked(p: Production) {
    p.sellable && p.product.None?
  }

  /** Each input names a supply there is, and no two the same. */
  predicate Sound(s: State, inputs: seq<Input>) {
    (forall i :: 0 <= i < |inputs| ==> inputs[i].supply in s.supplies) && Runs.Distinct(inputs)
  }

  lemma CreateRefusedFor(s: State, id: Key, draft: bool, p: Production, inputs: seq<Input>)
    requires SizesOk(s) && Positive(inputs) && p.produced > 0.0
    ensures var r := Create(s, id, draft, p, inputs);
            (r == Err(BadRequest) <==> Unlinked(p))
            && (r == Err(NotFound) <==> !Unlinked(p) && !Sound(s, inputs))
            && (r == Err(Unprocessable) <==> !Unlinked(p) && Sound(s, inputs) && !draft && !AllCovered(s, inputs))
            && (r.Ok? <==> !Unlinked(p) && Sound(s, inputs) && (draft || AllCovered(s, inputs)))
  {
    if !Unlinked(p) && Sound(s, inputs) && !draft {
      var created := p.(status := COMPLETED, totalCost := 0.0);
      var mid := s.(productions := s.productions[id := created]);
      ProcessIff(mid, id, created, inputs);
      assert AllCovered(mid, inputs) <==> AllCovered(s, inputs) by {
        assert mid.stocks == s.stocks && mid.supplies == s.supplies;
      }
    }
  }

  /** A draft stores its production and one row per input, at no cost and of no entry; stocks stay. */
  lemma DraftStores(s: State, id: Key, p: Production, inputs: seq<Input>)
    requires SizesOk(s) && Positive(inputs) && p.produced > 0.0
    requires Create(s, id, true, p, inputs).Ok?
    ensures var t, n := Create(s, id, true, p, inputs).value, |s.usages|;
            t == s.(productions := t.productions, usages := t.usages)
            && t.productions == s.productions[id := Production(DRAFT, p.sellable, p.product, p.produced, 0.0)]
            && |t.usages| == n + |inputs| && t.usages[..n] == s.usages
            && (forall i :: 0 <= i < |inputs| ==>
                  t.usages[n + i] == Usage(id, inputs[i].supply, None, inputs[i].quantity, 0.0, 0.0))
  {}

  // ----- The rows of a draft name distinct supplies -----

  predicate DraftsDistinct(us: seq<Usage>) {
    forall i, j :: 0 <= i < j < |us| && us[i].production == us[j].production && us[i].entry.None? && us[j].entry.None? ==>
      us[i].supply != us[j].supply
  }

  lemma {:induction false} KeptDistinct(us: seq<Usage>, p: Usage -> bool)
    requires DraftsDistinct(us)
    ensures DraftsDistinct(Keep(us, p))
  {
    if |us| > 0 {
      var n := |us| - 1;
      var front := Keep(us[..n], p);
      KeptDistinct(us[..n], p);
      forall i | 0 <= i < |front|
        ensures front[i].production == us[n].production && front[i].entry.None? && us[n].entry.None? ==> front[i].supply != us[n].supply
      {
        assert front[i] in us[..n];
        var k :| 0 <= k < n && us[k] == front[i];
      }
    }
  }

  lemma AddedDistinct(us: seq<Usage>, more: seq<Usage>)
    requires DraftsDistinct(us) && DraftsDistinct(more)
    requires forall u, v :: u in us && v in more ==> u.production != v.production || u.entry.Some? || v.entry.Some?
    ensures DraftsDistinct(us + more)
  {
    forall i, j | 0 <= i < |us| && 0 <= j < |more|
      ensures us[i].production != more[j].production || us[i].entry.Some? || more[j].entry.Some?
    {
      assert us[i] in us && more[j] in more;
    }
  }

  lemma CompletedDistinct(s: State, id: Key, p: Production, inputs: seq<Input>)
    requires Known(s, inputs) && Positive(inputs) && p.produced > 0.0 && StocksOk(s.stocks)
    requires DraftsDistinct(s.usages) && Process(s, id, p, inputs).Ok?
    ensures DraftsDistinct(Process(s, id, p, inputs).value.usages)
  {
    var acc := ConsumeAll(s, id, inputs).value;
    Runs.ConsumeAllKeeps(s, id, inputs, acc);
    forall u | u in acc.usages ensures u.entry.Some? {
      assert Runs.WellLinked(u, id, u.supply, s.stocks[u.supply].entries);
    }
    AddedDistinct(s.usages, acc.usages);
  }

  lemma CreatedDistinct(s: State, id: Key, draft: bool, p: Production, inputs: seq<Input>)
    requires Inv(s) && Admissible(s, DoCreate(id, draft, p, inputs)) && DraftsDistinct(s.usages)
    requires Create(s, id, draft, p, inputs).Ok?
    ensures DraftsDistinct(Create(s, id, draft, p, inputs).value.usages)
  {
    if draft {
      forall u | u in s.usages ensures u.production != id {
        assert UsageOk(s, u);
      }
      AddedDistinct(s.usages, Drafts(id, inputs));
    } else {
      var created := p.(status := COMPLETED, totalCost := 0.0);
      CompletedDistinct(s.(productions := s.productions[id := created]), id, created, inputs);
    }
  }

  lemma StepKeepsDistinct(s: State, e: Event)
    requires Inv(s) && Admissible(s, e) && DraftsDistinct(s.usages)
    ensures DraftsDistinct(Step(s, e).usages)
  {
    if Outcome(s, e).Ok? {
      match e
      case DoCreate(id, draft, p, inputs) => CreatedDistinct(s, id, draft, p, inputs);
      case DoComplete(id) =>
        DraftInputs(s, id);
        KeptDistinct(s.usages, Not(Of(id)));
        CompletedDistinct(Runs.Cleared(s, id), id, s.productions[id], InputsOf(Keep(s.usages, Of(id))));
      case DoCancel(id) =>
      case DoRemove(id) => KeptDistinct(s.usages, Not(Of(id)));
    }
  }

  lemma {:induction false} RunKeepsDistinct(s: State, es: seq<Event>, t: State)
    requires Inv(s) && Runs.Reaches(s, es, t) && DraftsDistinct(s.usages)
    ensures Inv(t) && DraftsDistinct(t.usages)
    decreases |es|
  {
    if |es| > 0 {
      Runs.StepPreserves(s, es[0]);
      StepKeepsDistinct(s, es[0]);
      RunKeepsDistinct(Step(s, es[0]), es[1..], t);
    }
  }

  lemma DraftInputsDistinct(s: State, id: Key)
    requires Inv(s) && DraftsDistinct(s.usages) && id in s.productions && s.productions[id].status != COMPLETED
    ensures Runs.Distinct(InputsOf(Keep(s.usages, Of(id))))
  {
    var rows := Keep(s.usages, Of(id));
    KeptDistinct(s.usages, Of(id));
    forall u | u in rows ensures u.production == id && u.entry.None? {
      assert UsageOk(s, u);
    }
    forall i, j | 0 <= i < j < |rows| ensures rows[i].supply != rows[j].supply {
      assert rows[i] in rows && rows[j] in rows;
    }
  }

  // ----- Completing, cancelling, removing -----

  /** The rows of a draft are covered by the stocks. */
  predicate DraftCovered(s: State, id: Key)
    requires Inv(s) && id in s.productions && s.productions[id].status == DRAFT
  {
    DraftInputs(s, id);
    AllCovered(s, InputsOf(Keep(s.usages, Of(id))))
  }

  /** In every state a run reaches: a draft with rows completes exactly when aggregates and entries cover them. */
  lemma CompleteRefusedFor(s: State, id: Key)
    requires Inv(s) && DraftsDistinct(s.usages)
    ensures var r, drafted := Complete(s, id), id in s.productions && s.productions[id].status == DRAFT;
            (r == Err(NotFound) <==> id !in s.productions)
            && (r == Err(BadRequest) <==> id in s.productions && !drafted)
            && (r.Ok? <==> drafted && (exists u :: u in s.usages && u.production == id) && DraftCovered(s, id))
            && (r == Err(Unprocessable) <==> drafted && !((exists u :: u in s.usages && u.production == id) && DraftCovered(s, id)))
  {
    if id in s.productions && s.productions[id].status == DRAFT {
      var rows := Keep(s.usages, Of(id));
      if u :| u in s.usages && u.production == id {
        assert u in rows;
      }
      if |rows| > 0 {
        assert rows[0] in rows;
      }
      if |rows| > 0 {
        DraftInputs(s, id);
        DraftInputsDistinct(s, id);
        ProcessIff(Runs.Cleared(s, id), id, s.productions[id], InputsOf(rows));
        SameCover(s, id, InputsOf(rows));
      }
    }
  }

  lemma SameCover(s: State, id: Key, inputs: seq<Input>)
    requires Known(s, inputs)
    ensures AllCovered(Runs.Cleared(s, id), inputs) <==> AllCovered(s, inputs)
  {
    assert Runs.Cleared(s, id).stocks == s.stocks && Runs.Cleared(s, id).supplies == s.supplies;
  }

  lemma CancelRefusedFor(s: State, id: Key)
    ensures var r, drafted := Cancel(s, id), id in s.productions && s.productions[id].status == DRAFT;
            (r == Err(NotFound) <==> id !in s.productions)
            && (r == Err(BadRequest) <==> id in s.productions && !drafted)
            && (r.Ok? <==> drafted)
            && (r.Ok? ==> var p := s.productions[id];
                          r.value == s.(productions := s.productions[id := Production(CANCELLED, p.sellable, p.product, p.produced, p.totalCost)]))
  {}

  /** Anything can be removed but a completed production whose product's stock is gone. */
  lemma RemoveRefusedFor(s: State, id: Key)
    ensures var r := Remove(s, id);
            var astray := id in s.productions && s.productions[id].status == COMPLETED && s.productions[id].sellable
                          && s.productions[id].product.Some? && s.productions[id].product.value !in s.products;
            (r.Ok? <==> id in s.productions && !astray)
            && (r == Err(NotFound) <==> id !in s.productions || astray)
  {}

  /** A removal takes its production and every row of it away; a sold one also its quantity, and no other stock of products. */
  lemma RemovalStores(s: State, id: Key)
    requires Remove(s, id).Ok?
    ensures var t, p := Remove(s, id).value, s.productions[id];
            t.productions == s.productions - {id}
            && (forall u :: u in t.usages <==> u in s.usages && u.production != id)
            && (p.status == COMPLETED ==> forall m :: m in t.movements <==> m in s.movements && m.production != id)
            && (p.status != COMPLETED ==> t.movements == s.movements && t.stocks == s.stocks && t.inventory == s.inventory)
            && t.products ==
                 (if p.status == COMPLETED && p.sellable && p.product.Some?
                  then s.products[p.product.value := s.products[p.product.value] - p.produced] else s.products)
            && (p.status == COMPLETED && p.sellable && p.product.Some? ==>
                  forall m :: m in t.inventory <==> m in s.inventory && m.production != id)
            && (p.status == COMPLETED && !(p.sellable && p.product.Some?) ==> t.inventory == s.inventory)
  {}

  predicate Drew(s: State, id: Key, k: Key) {
    exists u :: u in s.usages && u.production == id && u.supply == k && u.entry.Some?
  }

  /**
   And every entry gets back what the production's own usages took from it; the aggregate of
   a supply it drew on is counted again, that of any other stays as it is.
   */
  lemma RemovalGivesBack(s: State, id: Key, k: Key)
    requires Inv(s) && id in s.productions && s.productions[id].status == COMPLETED && Remove(s, id).Ok?
    requires k in s.stocks
    ensures var before, t := s.stocks[k], Remove(s, id).value;
            k in t.stocks && |t.stocks[k].entries| == |before.entries|
            && (forall i :: 0 <= i < |before.entries| ==>
                  && t.stocks[k].entries[i].remaining == before.entries[i].remaining + Sum(Keep(s.usages, Of(id)), LinkedTo(k, i))
                  && t.stocks[k].entries[i].initial == before.entries[i].initial
                  && t.stocks[k].entries[i].unitCost == before.entries[i].unitCost)
            && (Drew(s, id, k) ==> 0.0 <= t.stocks[k].quantity - Available(t.stocks[k].entries) < 1.0)
            && (!Drew(s, id, k) ==> t.stocks[k] == before)
  {
    var own := Keep(s.usages, Of(id));
    var es := s.stocks[k].entries;
    var back := TakenFrom(own, k, |es|);
    assert Remove(s, id).value.stocks == GiveBack(s.stocks, own);
    forall i | 0 <= i < |es| ensures back[i] == Sum(own, LinkedTo(k, i)) {}
    if Drew(s, id, k) {
      var u :| u in s.usages && u.production == id && u.supply == k && u.entry.Some?;
      assert u in own && UsageOk(s, u);
    } else {
      Runs.NothingGiven(es, own, k);
    }
  }
}

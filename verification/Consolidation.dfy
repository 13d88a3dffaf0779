/**
 Consolidating the lines of a purchase
 (src/modules/product-purchases/product-purchases.service.ts:72-91, 226-246).

 Lines for the same product and location become one: quantities add up and the
 last unit cost given wins. The header's total is computed before this when a
 purchase is created and after it when its items are replaced.
 */
module Consolidation {
  import opened Options
  import opened Sums
  import opened Inventory

  function IndexOf(acc: seq<Line>, k: StockKey): (i: nat)
    ensures i <= |acc|
    ensures i < |acc| ==> acc[i].key == k
    ensures forall j :: 0 <= j < i ==> acc[j].key != k
  {
    if |acc| == 0 then 0
    else if acc[0].key == k then 0
    else IndexOf(acc[1..], k) + 1
  }

  function Absorb(into: Line, l: Line): Line {
    Line(into.key, into.quantity + l.quantity, if l.unit.Some? then l.unit else into.unit)
  }

  function Merge(acc: seq<Line>, l: Line): seq<Line> {
    var i := IndexOf(acc, l.key);
    if i < |acc| then acc[i := Absorb(acc[i], l)] else acc + [l]
  }

  function Consolidate(lines: seq<Line>): seq<Line> {
    if |lines| == 0 then [] else Merge(Consolidate(lines[..|lines| - 1]), lines[|lines| - 1])
  }

  predicate DistinctKeys(lines: seq<Line>) {
    forall i, j :: 0 <= i < j < |lines| ==> lines[i].key != lines[j].key
  }

  /** The cost that ends up on a key's line: the last one given for it, if any. */
  function FinalCost(lines: seq<Line>, k: StockKey): Option<real> {
    if |lines| == 0 then None
    else
      var l := lines[|lines| - 1];
      if l.key == k && l.unit.Some? then l.unit else FinalCost(lines[..|lines| - 1], k)
  }

  predicate Named(lines: seq<Line>, k: StockKey) {
    exists l :: l in lines && l.key == k
  }

  /** One line per key, in which quantities are summed and costs are final. */
  lemma {:induction false} ConsolidatedLines(lines: seq<Line>)
    ensures DistinctKeys(Consolidate(lines))
    ensures forall k :: Named(Consolidate(lines), k) <==> Named(lines, k)
    ensures forall l :: l in Consolidate(lines) ==>
              l.quantity == Asked(lines, l.key) && l.unit == FinalCost(lines, l.key)
  {
    if |lines| > 0 {
      var n := |lines| - 1;
      var front, last := lines[..n], lines[n];
      ConsolidatedLines(front);
      assert lines == front + [last];
      MergeLines(front, Consolidate(front), last);
    }
  }

  lemma MergeLines(front: seq<Line>, acc: seq<Line>, last: Line)
    requires DistinctKeys(acc)
    requires forall k :: Named(acc, k) <==> Named(front, k)
    requires forall l :: l in acc ==> l.quantity == Asked(front, l.key) && l.unit == FinalCost(front, l.key)
    ensures DistinctKeys(Merge(acc, last))
    ensures forall k :: Named(Merge(acc, last), k) <==> Named(front + [last], k)
    ensures forall l :: l in Merge(acc, last) ==>
              l.quantity == Asked(front + [last], l.key) && l.unit == FinalCost(front + [last], l.key)
  {
    var i := IndexOf(acc, last.key);
    var merged := Merge(acc, last);
    MergeKeys(acc, last);
    forall k
      ensures Named(merged, k) <==> Named(front + [last], k)
    {
      assert Named(front + [last], k) <==> Named(front, k) || last.key == k by {
        assert last in front + [last];
        assert forall l :: l in front ==> l in front + [last];
      }
    }
    assert (front + [last])[..|front|] == front;
    forall l | l in merged
      ensures l.quantity == Asked(front + [last], l.key) && l.unit == FinalCost(front + [last], l.key)
    {
      SumPush(front, last, QuantityAt(l.key));
      if i == |acc| && l == last {
        assert !Named(front, last.key);
        NothingNamed(front, last.key);
      } else {
        var j :| 0 <= j < |merged| && merged[j] == l;
        if i < |acc| && j == i {
          assert acc[i] in acc;
        } else {
          assert l == acc[j] && l in acc;
          assert l.key != last.key;
        }
      }
    }
  }

  lemma MergeKeys(acc: seq<Line>, last: Line)
    requires DistinctKeys(acc)
    ensures DistinctKeys(Merge(acc, last))
    ensures forall k :: Named(Merge(acc, last), k) <==> Named(acc, k) || k == last.key
  {
    var i := IndexOf(acc, last.key);
    var merged := Merge(acc, last);
    forall k
      ensures Named(merged, k) <==> Named(acc, k) || k == last.key
    {
      if Named(acc, k) {
        var l :| l in acc && l.key == k;
        var j :| 0 <= j < |acc| && acc[j] == l;
        assert merged[j].key == k && merged[j] in merged;
      }
      if k == last.key {
        assert merged[i].key == k && merged[i] in merged;
      }
      if Named(merged, k) {
        var l :| l in merged && l.key == k;
        var j :| 0 <= j < |merged| && merged[j] == l;
        if j < |acc| {
          assert acc[j].key == k && acc[j] in acc;
        }
      }
    }
  }

  lemma {:induction false} NothingNamed(lines: seq<Line>, k: StockKey)
    requires !Named(lines, k)
    ensures Asked(lines, k) == 0.0 && FinalCost(lines, k) == None
  {
    if |lines| > 0 {
      var n := |lines| - 1;
      assert lines[n] in lines;
      assert forall l :: l in lines[..n] ==> l in lines;
      NothingNamed(lines[..n], k);
    }
  }

  /** Consolidation keeps the quantity asked for at every stock. */
  lemma {:induction false} ConsolidatedQuantity(lines: seq<Line>, k: StockKey)
    ensures Asked(Consolidate(lines), k) == Asked(lines, k)
  {
    ConsolidatedLines(lines);
    if Named(lines, k) {
      var l :| l in Consolidate(lines) && l.key == k;
      OnlyOne(Consolidate(lines), l);
    } else {
      NothingNamed(lines, k);
      NothingNamed(Consolidate(lines), k);
    }
  }

  lemma {:induction false} OnlyOne(lines: seq<Line>, l: Line)
    requires DistinctKeys(lines) && l in lines
    ensures Asked(lines, l.key) == l.quantity
  {
    var n := |lines| - 1;
    if lines[n] == l {
      assert forall j :: 0 <= j < n ==> lines[j].key != l.key;
      AskedNothing(lines[..n], l.key);
    } else {
      var j :| 0 <= j < |lines| && lines[j] == l;
      assert lines[..n][j] == l;
      OnlyOne(lines[..n], l);
    }
  }

  // ----- What consolidation does to the total -----

  function CostFor(unit: Option<real>, quantity: real): real {
    if unit.Some? then Times(unit.value, quantity) else 0.0
  }

  /** Each line at the cost its key ends up with. */
  function AtFinalCost(all: seq<Line>): Line -> real {
    (l: Line) => CostFor(FinalCost(all, l.key), l.quantity)
  }

  function AtCosts(cost: StockKey -> Option<real>): Line -> real {
    (l: Line) => CostFor(cost(l.key), l.quantity)
  }

  lemma CostForAdds(unit: Option<real>, a: real, b: real)
    ensures CostFor(unit, a + b) == CostFor(unit, a) + CostFor(unit, b)
    ensures CostFor(unit, 0.0) == 0.0
  {}

  /** At a fixed cost per key, merging a line in adds exactly what that line costs. */
  lemma {:induction false} MergeAtCosts(acc: seq<Line>, l: Line, cost: StockKey -> Option<real>)
    ensures Sum(Merge(acc, l), AtCosts(cost)) == Sum(acc, AtCosts(cost)) + AtCosts(cost)(l)
  {
    var i := IndexOf(acc, l.key);
    if i < |acc| {
      SumReplace(acc, i, Absorb(acc[i], l), AtCosts(cost));
      CostForAdds(cost(l.key), acc[i].quantity, l.quantity);
    } else {
      SumPush(acc, l, AtCosts(cost));
    }
  }

  lemma {:induction false} SumReplace(s: seq<Line>, i: nat, x: Line, f: Line -> real)
    requires i < |s|
    ensures Sum(s[i := x], f) == Sum(s, f) - f(s[i]) + f(x)
  {
    var n := |s| - 1;
    if i < n {
      SumReplace(s[..n], i, x, f);
      assert s[i := x][..n] == s[..n][i := x];
    } else {
      assert s[i := x][..n] == s[..n];
    }
  }

  lemma {:induction false} ConsolidateAtCosts(lines: seq<Line>, cost: StockKey -> Option<real>)
    ensures Sum(Consolidate(lines), AtCosts(cost)) == Sum(lines, AtCosts(cost))
  {
    if |lines| > 0 {
      var n := |lines| - 1;
      ConsolidateAtCosts(lines[..n], cost);
      MergeAtCosts(Consolidate(lines[..n]), lines[n], cost);
    }
  }

  function FinalCosts(lines: seq<Line>): StockKey -> Option<real> {
    (k: StockKey) => FinalCost(lines, k)
  }

  lemma PricedAsFinal(l: Line, cost: StockKey -> Option<real>)
    requires l.unit == cost(l.key)
    ensures Priced()(l) == AtCosts(cost)(l)
  {
    assert AtCosts(cost)(l) == CostFor(cost(l.key), l.quantity);
  }

  /** The consolidated total prices every requested line at the last cost given for its key. */
  lemma ConsolidatedTotal(lines: seq<Line>)
    ensures CalcTotal(Consolidate(lines)) == Sum(lines, AtFinalCost(lines))
  {
    ConsolidatedLines(lines);
    ConsolidateAtCosts(lines, FinalCosts(lines));
    forall l | l in Consolidate(lines)
      ensures Priced()(l) == AtCosts(FinalCosts(lines))(l)
    {
      assert l.unit == FinalCost(lines, l.key) == FinalCosts(lines)(l.key);
      PricedAsFinal(l, FinalCosts(lines));
    }
    SumCongruent(Consolidate(lines), Priced(), AtCosts(FinalCosts(lines)));
    SumCongruent(lines, AtFinalCost(lines), AtCosts(FinalCosts(lines)));
  }

  /** How far one line's price moves when its key's final cost replaces its own. */
  function Repricing(all: seq<Line>): Line -> real {
    (l: Line) => CostFor(FinalCost(all, l.key), l.quantity) - CostFor(l.unit, l.quantity)
  }

  /** A header computed before consolidation is right exactly when the repricings cancel. */
  lemma HeaderGap(lines: seq<Line>)
    ensures CalcTotal(Consolidate(lines)) - CalcTotal(lines) == Sum(lines, Repricing(lines))
  {
    ConsolidatedTotal(lines);
    SumDifference(lines, AtFinalCost(lines), Priced(), Repricing(lines));
  }

  lemma {:induction false} SumDifference(s: seq<Line>, f: Line -> real, g: Line -> real, h: Line -> real)
    requires forall x :: x in s ==> h(x) == f(x) - g(x)
    ensures Sum(s, h) == Sum(s, f) - Sum(s, g)
  {
    if |s| > 0 {
      assert s[|s| - 1] in s;
      assert forall x :: x in s[..|s| - 1] ==> x in s;
      SumDifference(s[..|s| - 1], f, g, h);
    }
  }

  predicate CostsAgree(lines: seq<Line>) {
    forall l, m :: l in lines && m in lines && l.key == m.key ==> l.unit == m.unit
  }

  lemma {:induction false} FinalCostGiven(lines: seq<Line>, k: StockKey)
    ensures match FinalCost(lines, k)
            case Some(c) => exists l :: l in lines && l.key == k && l.unit == Some(c)
            case None => forall l :: l in lines && l.key == k ==> l.unit == None
  {
    if |lines| > 0 {
      var n := |lines| - 1;
      FinalCostGiven(lines[..n], k);
      assert lines[n] in lines;
      assert forall l :: l in lines <==> l in lines[..n] || l == lines[n] by {
        assert lines == lines[..n] + [lines[n]];
      }
    }
  }

  /** When lines of one key agree on their cost, consolidation preserves the total. */
  lemma AgreeingCostsKeepTotal(lines: seq<Line>)
    requires CostsAgree(lines)
    ensures CalcTotal(Consolidate(lines)) == CalcTotal(lines)
  {
    HeaderGap(lines);
    forall l | l in lines
      ensures Repricing(lines)(l) == 0.0
    {
      FinalCostGiven(lines, l.key);
    }
    SumZero(lines, Repricing(lines));
  }

  /** Two lines of one product at different costs: the header says 30, the movements are worth 40. */
  lemma DisagreeingCostsMoveTotal(k: StockKey, lines: seq<Line>)
    requires lines == [Line(k, 1.0, Some(10.0)), Line(k, 1.0, Some(20.0))]
    ensures CalcTotal(lines) == 30.0 && CalcTotal(Consolidate(lines)) == 40.0
  {
    HeaderGap(lines);
    assert FinalCost(lines, k) == Some(20.0);
    assert lines[..1][..0] == [];
    assert Sum(lines[..1], Priced()) == 10.0;
    assert CalcTotal(lines) == 30.0;
    assert Repricing(lines)(lines[0]) == 10.0 && Repricing(lines)(lines[1]) == 0.0;
    assert Sum(lines[..1], Repricing(lines)) == 10.0;
  }

  /** The loop: find the line already there and update it in place, or push a copy. */
  method ConsolidateLines(lines: seq<Line>) returns (consolidated: seq<Line>)
    ensures consolidated == Consolidate(lines)
  {
    consolidated := [];
    for n := 0 to |lines|
      invariant consolidated == Consolidate(lines[..n])
    {
      assert lines[..n + 1][..n] == lines[..n];
      var item := lines[n];
      var i := 0;
      while i < |consolidated| && consolidated[i].key != item.key
        invariant 0 <= i <= |consolidated|
        invariant forall j :: 0 <= j < i ==> consolidated[j].key != item.key
      {
        i := i + 1;
      }
      assert i == IndexOf(consolidated, item.key);
      if i < |consolidated| {
        var existing := consolidated[i];
        existing := existing.(quantity := existing.quantity + item.quantity);
        if item.unit.Some? {
          existing := existing.(unit := item.unit);
        }
        consolidated := consolidated[i := existing];
      } else {
        consolidated := consolidated + [item];
      }
    }
    assert lines[..|lines|] == lines;
  }
}

/**
 Splitting an amount of cents over ratios (src/domain/value-objects/money.vo.ts).

 Numbers are exact integers. A quotient by a zero total is NaN or an infinity in
 JavaScript, and the Money constructor rejects both, so that case is an error.
 */
module MoneyAllocation {

  datatype Outcome<T> = Ok(value: T) | InvalidMoneyAmount

  datatype Money = Money(amount: int, currency: string)

  function SumInts(s: seq<int>): int {
    if |s| == 0 then 0 else SumInts(s[..|s| - 1]) + s[|s| - 1]
  }

  function Amounts(shares: seq<Money>): (r: seq<int>)
    ensures |r| == |shares|
  {
    seq(|shares|, i requires 0 <= i < |shares| => shares[i].amount)
  }

  /** Math.floor(a / b): rounds towards minus infinity whatever the signs. */
  function FloorDiv(a: int, b: int): (q: int)
    requires b != 0
    ensures b > 0 ==> q * b <= a < (q + 1) * b
    ensures b < 0 ==> q * b >= a > (q + 1) * b
  {
    if b > 0 then a / b else (-a) / (-b)
  }

  function Floors(amount: int, ratios: seq<int>, total: int): (r: seq<int>)
    requires total != 0
    ensures |r| == |ratios|
  {
    seq(|ratios|, i requires 0 <= i < |ratios| => FloorDiv(amount * ratios[i], total))
  }

  /** What the floored shares leave undistributed. */
  function Leftover(amount: int, ratios: seq<int>): int
    requires SumInts(ratios) != 0
  {
    amount - SumInts(Floors(amount, ratios, SumInts(ratios)))
  }

  /** The allocation in closed form: the first Leftover shares get one cent more. */
  function Shares(amount: int, ratios: seq<int>): (r: seq<int>)
    requires SumInts(ratios) != 0
    ensures |r| == |ratios|
  {
    var floors := Floors(amount, ratios, SumInts(ratios));
    TopUp(floors, Leftover(amount, ratios))
  }

  function TopUp(floors: seq<int>, cents: int): (r: seq<int>)
    ensures |r| == |floors|
  {
    seq(|floors|, i requires 0 <= i < |floors| => floors[i] + if i < cents then 1 else 0)
  }

  lemma FloorsPrefix(amount: int, ratios: seq<int>, total: int)
    requires total != 0 && |ratios| > 0
    ensures Floors(amount, ratios, total)[..|ratios| - 1] == Floors(amount, ratios[..|ratios| - 1], total)
  {}

  /** One more share adds one more remainder, between 0 and total - 1. */
  lemma RemainderStep(amount: int, last: int, total: int, q: int, s: int, f: int, n: nat)
    requires total > 0 && q * total <= amount * last < (q + 1) * total
    requires 0 <= amount * s - total * f <= n * (total - 1)
    ensures 0 <= amount * (s + last) - total * (f + q) <= (n + 1) * (total - 1)
  {
    assert amount * (s + last) == amount * s + amount * last;
    assert total * (f + q) == total * f + q * total;
    assert (q + 1) * total == q * total + total;
    assert (n + 1) * (total - 1) == n * (total - 1) + (total - 1);
  }

  /** total * undistributed is the sum of n remainders, each below |total|. */
  lemma {:induction false} ScaledLeftover(amount: int, ratios: seq<int>, total: int)
    requires total > 0
    ensures 0 <= amount * SumInts(ratios) - total * SumInts(Floors(amount, ratios, total)) <= |ratios| * (total - 1)
  {
    if |ratios| > 0 {
      var front, last := ratios[..|ratios| - 1], ratios[|ratios| - 1];
      FloorsPrefix(amount, ratios, total);
      ScaledLeftover(amount, front, total);
      RemainderStep(amount, last, total, FloorDiv(amount * last, total), SumInts(front), SumInts(Floors(amount, front, total)), |front|);
    }
  }

  lemma FloorsNegate(amount: int, ratios: seq<int>, total: int)
    requires total != 0
    ensures Floors(amount, ratios, total) == Floors(-amount, ratios, -total)
  {
    forall i | 0 <= i < |ratios|
      ensures FloorDiv(amount * ratios[i], total) == FloorDiv((-amount) * ratios[i], -total)
    {
      assert (-amount) * ratios[i] == -(amount * ratios[i]);
    }
  }

  lemma FromScaled(amount: int, floors: int, total: int, n: nat)
    requires total > 0 && n > 0
    requires 0 <= amount * total - total * floors <= n * (total - 1)
    ensures 0 <= amount - floors < n
  {
    var x := amount - floors;
    assert total * x == amount * total - total * floors;
    assert x >= n ==> total * x >= total * n;
    assert n * (total - 1) == total * n - n;
    assert x < 0 ==> total * x < 0;
  }

  lemma NegatedProduct(a: int, b: int)
    ensures (-a) * b == a * (-b)
  {}

  /** The leftover is at least zero and below the number of shares, for ratios of any sign. */
  lemma LeftoverBounded(amount: int, ratios: seq<int>)
    requires SumInts(ratios) != 0
    ensures 0 <= Leftover(amount, ratios) < |ratios|
  {
    var total := SumInts(ratios);
    var floors := SumInts(Floors(amount, ratios, total));
    if total > 0 {
      ScaledLeftover(amount, ratios, total);
      FromScaled(amount, floors, total, |ratios|);
    } else {
      FloorsNegate(amount, ratios, total);
      ScaledLeftover(-amount, ratios, -total);
      NegatedProduct(amount, total);
      FromScaled(amount, floors, -total, |ratios|);
    }
  }

  lemma {:induction false} TopUpSum(floors: seq<int>, cents: int)
    requires 0 <= cents <= |floors|
    ensures SumInts(TopUp(floors, cents)) == SumInts(floors) + cents
  {
    if |floors| > 0 {
      var front := floors[..|floors| - 1];
      var kept := if cents == |floors| then cents - 1 else cents;
      TopUpSum(front, kept);
      assert TopUp(floors, cents)[..|floors| - 1] == TopUp(front, kept);
    }
  }

  /** Conservation: no cent is created or lost, for every amount and all ratios with a non-zero sum. */
  lemma SharesConserve(amount: int, ratios: seq<int>)
    requires SumInts(ratios) != 0
    ensures SumInts(Shares(amount, ratios)) == amount
  {
    LeftoverBounded(amount, ratios);
    TopUpSum(Floors(amount, ratios, SumInts(ratios)), Leftover(amount, ratios));
  }

  /** Each share is less than one cent below its exact proportion and at most one cent above it. */
  lemma SharesFair(amount: int, ratios: seq<int>, i: nat)
    requires SumInts(ratios) > 0 && i < |ratios|
    ensures -SumInts(ratios) < Shares(amount, ratios)[i] * SumInts(ratios) - amount * ratios[i] <= SumInts(ratios)
    ensures var floored := FloorDiv(amount * ratios[i], SumInts(ratios));
            Shares(amount, ratios)[i] == floored || Shares(amount, ratios)[i] == floored + 1
    ensures amount >= 0 && ratios[i] >= 0 ==> Shares(amount, ratios)[i] >= 0
  {
    FairShare(amount * ratios[i], SumInts(ratios), Shares(amount, ratios)[i]);
    if amount >= 0 && ratios[i] >= 0 {
      NonNegativeProduct(amount, ratios[i]);
    }
  }

  lemma FairShare(p: int, total: int, share: int)
    requires total > 0 && FloorDiv(p, total) <= share <= FloorDiv(p, total) + 1
    ensures -total < share * total - p <= total
    ensures p >= 0 ==> share >= 0
  {
    var q := FloorDiv(p, total);
    NextMultiple(q, total);
    if share == q {
    } else {
      assert share == q + 1;
    }
  }

  lemma NextMultiple(q: int, total: int)
    requires total > 0
    ensures (q + 1) * total == q * total + total
    ensures q < 0 ==> (q + 1) * total <= 0
  {
    if q < 0 {
      assert (-(q + 1)) * total >= 0;
    }
  }

  lemma NonNegativeProduct(a: int, b: int)
    requires a >= 0 && b >= 0
    ensures a * b >= 0
  {}

  /** What a call returns: nothing to split, an invalid total, or the shares. */
  function Allocated(m: Money, ratios: seq<int>): Outcome<seq<Money>> {
    if |ratios| == 0 then Ok([])
    else if SumInts(ratios) == 0 then InvalidMoneyAmount
    else Ok(Tagged(Shares(m.amount, ratios), m.currency))
  }

  function Tagged(amounts: seq<int>, currency: string): (r: seq<Money>)
    ensures |r| == |amounts|
  {
    seq(|amounts|, i requires 0 <= i < |amounts| => Money(amounts[i], currency))
  }

  /** The amount survives the split exactly when the ratios have a non-zero sum, or there is nothing to split. */
  lemma ConservedExactly(m: Money, ratios: seq<int>)
    ensures var r := Allocated(m, ratios);
            (r.Ok? && SumInts(Amounts(r.value)) == m.amount)
            <==> (SumInts(ratios) != 0 || (ratios == [] && m.amount == 0))
  {
    var r := Allocated(m, ratios);
    if |ratios| == 0 {
      assert Amounts([]) == [];
    } else if SumInts(ratios) != 0 {
      SharesConserve(m.amount, ratios);
      assert Amounts(r.value) == Shares(m.amount, ratios);
    }
  }

  method Total(ratios: seq<int>) returns (sum: int)
    ensures sum == SumInts(ratios)
  {
    sum := 0;
    for i := 0 to |ratios|
      invariant sum == SumInts(ratios[..i])
    {
      assert ratios[..i + 1][..i] == ratios[..i];
      sum := sum + ratios[i];
    }
    assert ratios[..|ratios|] == ratios;
  }

  method Allocate(m: Money, ratios: seq<int>) returns (r: Outcome<seq<Money>>)
    ensures r == Allocated(m, ratios)
  {
    if |ratios| == 0 {
      return Ok([]);
    }
    var total := Total(ratios);
    if total == 0 {
      return InvalidMoneyAmount;
    }
    var remainder := m.amount;
    var results: seq<int> := [];
    ghost var floors := Floors(m.amount, ratios, total);
    for i := 0 to |ratios|
      invariant results == floors[..i]
      invariant remainder == m.amount - SumInts(floors[..i])
    {
      var share := FloorDiv(m.amount * ratios[i], total);
      assert floors[..i + 1][..i] == floors[..i];
      results := results + [share];
      remainder := remainder - share;
    }
    assert floors[..|ratios|] == floors;
    LeftoverBounded(m.amount, ratios);
    ghost var leftover := remainder;
    var i := 0;
    while remainder > 0 && i < |results|
      invariant 0 <= i <= |results| == |ratios|
      invariant remainder == leftover - i
      invariant i <= leftover
      invariant forall k :: 0 <= k < |results| ==> results[k] == floors[k] + if k < i then 1 else 0
    {
      results := results[i := results[i] + 1];
      remainder := remainder - 1;
      i := i + 1;
    }
    assert results == Shares(m.amount, ratios);
    var shares: seq<Money> := [];
    for k := 0 to |results|
      invariant shares == Tagged(results[..k], m.currency)
    {
      shares := shares + [Money(results[k], m.currency)];
    }
    assert results[..|results|] == results;
    r := Ok(shares);
  }
}

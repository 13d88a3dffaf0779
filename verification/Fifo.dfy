/**
 Consuming stock entries oldest first
 (src/modules/productions/productions.service.ts:247-321,
  src/modules/supply-stock-entries/domain/supply-stock-entry.entity.ts).

 The entries of one supply stock are a sequence in creation order. What a
 consumption takes is described by a vector `taken`, one amount per entry, given
 in closed form from the prefix sums of what remained before.
 */
module Fifo {
  import opened Sums

  datatype Entry = Entry(initial: real, remaining: real, unitCost: real, exhausted: bool)

  predicate EntryOk(e: Entry) {
    e.remaining >= 0.0 && (e.exhausted <==> e.remaining == 0.0)
  }

  predicate AllOk(es: seq<Entry>) {
    forall i :: 0 <= i < |es| ==> EntryOk(es[i])
  }

  function Remaining(): Entry -> real {
    (e: Entry) => e.remaining
  }

  function Id(): real -> real {
    (x: real) => x
  }

  /** Everything still in the entries, exhausted ones included. */
  function Available(es: seq<Entry>): real {
    Sum(es, Remaining())
  }

  function Min(a: real, b: real): real {
    if a <= b then a else b
  }

  function Max(a: real, b: real): real {
    if a >= b then a else b
  }

  // ----- The closed form -----

  /** Measurable supplies: entry i gives what its slice of the prefix sums covers of q. */
  function Taken(es: seq<Entry>, q: real): (t: seq<real>)
    ensures |t| == |es|
  {
    seq(|es|, i requires 0 <= i < |es| => Max(0.0, Min(es[i].remaining, q - Available(es[..i]))))
  }

  function Open(es: seq<Entry>): nat {
    if |es| == 0 then 0 else Open(es[..|es| - 1]) + if es[|es| - 1].exhausted then 0 else 1
  }

  /** Supplies counted in units: each of the first n open entries is emptied whole. */
  function TakenWhole(es: seq<Entry>, n: int): (t: seq<real>)
    ensures |t| == |es|
  {
    seq(|es|, i requires 0 <= i < |es| => if !es[i].exhausted && Open(es[..i]) < n then es[i].remaining else 0.0)
  }

  function Consume(e: Entry, amount: real): Entry {
    if amount == 0.0 then e
    else e.(remaining := e.remaining - amount, exhausted := e.remaining - amount == 0.0)
  }

  function Consumed(es: seq<Entry>, taken: seq<real>): (r: seq<Entry>)
    requires |taken| == |es|
    ensures |r| == |es|
  {
    seq(|es|, i requires 0 <= i < |es| => Consume(es[i], taken[i]))
  }

  /** A vector a consumption may take: never more than remains. */
  predicate Takable(es: seq<Entry>, taken: seq<real>) {
    |taken| == |es| && forall i :: 0 <= i < |es| ==> 0.0 <= taken[i] <= es[i].remaining
  }

  function Drained(es: seq<Entry>, q: real): seq<Entry> {
    Consumed(es, Taken(es, q))
  }

  lemma TakenTakable(es: seq<Entry>, q: real)
    requires AllOk(es)
    ensures Takable(es, Taken(es, q))
  {}

  lemma ConsumedOk(es: seq<Entry>, taken: seq<real>)
    requires AllOk(es) && Takable(es, taken)
    ensures AllOk(Consumed(es, taken))
  {}

  // ----- Prefixes -----

  lemma TakenPrefix(es: seq<Entry>, q: real, n: nat)
    requires n <= |es|
    ensures Taken(es[..n], q) == Taken(es, q)[..n]
  {
    forall i | 0 <= i < n ensures es[..n][..i] == es[..i] {}
  }

  lemma AvailableNext(es: seq<Entry>, i: nat)
    requires i < |es|
    ensures Available(es[..i + 1]) == Available(es[..i]) + es[i].remaining
  {
    assert es[..i + 1][..i] == es[..i];
  }

  lemma {:induction false} AvailableMonotone(es: seq<Entry>, i: nat, j: nat)
    requires AllOk(es) && i <= j <= |es|
    ensures 0.0 <= Available(es[..i]) <= Available(es[..j])
    decreases j
  {
    if i < j {
      AvailableNext(es, j - 1);
      AvailableMonotone(es, i, j - 1);
    } else if 0 < i {
      AvailableNext(es, i - 1);
      AvailableMonotone(es, i - 1, i - 1);
    }
  }

  // ----- Laws -----

  /** What is taken adds up to the quantity asked for, or to all there is. */
  lemma {:induction false} TakenSum(es: seq<Entry>, q: real)
    requires AllOk(es) && q >= 0.0
    ensures Sum(Taken(es, q), Id()) == Min(q, Available(es))
  {
    var n := |es|;
    AvailableMonotone(es, 0, n);
    assert es[..n] == es;
    if n > 0 {
      TakenSum(es[..n - 1], q);
      TakenPrefix(es, q, n - 1);
      AvailableNext(es, n - 1);
      AvailableMonotone(es, 0, n - 1);
    }
  }

  lemma {:induction false} AvailableAfter(es: seq<Entry>, taken: seq<real>)
    requires |taken| == |es|
    ensures Available(Consumed(es, taken)) == Available(es) - Sum(taken, Id())
  {
    if |es| > 0 {
      var n := |es| - 1;
      AvailableAfter(es[..n], taken[..n]);
      assert Consumed(es, taken)[..n] == Consumed(es[..n], taken[..n]);
    }
  }

  /** Nothing younger is touched while something older is left: at most one touched entry stays partly full. */
  lemma OldestFirst(es: seq<Entry>, q: real, i: nat, j: nat)
    requires AllOk(es) && i < j < |es|
    ensures Taken(es, q)[j] > 0.0 ==> Drained(es, q)[i].remaining == 0.0
  {
    AvailableNext(es, i);
    AvailableMonotone(es, i + 1, j);
  }

  lemma DrainedPrefix(es: seq<Entry>, q: real, n: nat)
    requires n <= |es|
    ensures Drained(es, q)[..n] == Drained(es[..n], q)
  {
    TakenPrefix(es, q, n);
  }

  /** The prefix sums left after q: what they held beyond q. */
  lemma DrainedAvailable(es: seq<Entry>, q: real, n: nat)
    requires AllOk(es) && q >= 0.0 && n <= |es|
    ensures Available(Drained(es, q)[..n]) == Available(es[..n]) - Min(q, Available(es[..n]))
  {
    DrainedPrefix(es, q, n);
    AvailableAfter(es[..n], Taken(es[..n], q));
    TakenSum(es[..n], q);
  }

  /** Consuming a and then b leaves the entries exactly as consuming a + b at once. */
  lemma DrainedTwice(es: seq<Entry>, a: real, b: real)
    requires AllOk(es) && a >= 0.0 && b >= 0.0
    ensures Drained(Drained(es, a), b) == Drained(es, a + b)
  {
    var mid := Drained(es, a);
    TakenTakable(es, a);
    ConsumedOk(es, Taken(es, a));
    forall i | 0 <= i < |es|
      ensures Drained(mid, b)[i] == Drained(es, a + b)[i]
    {
      DrainedAvailable(es, a, i);
      AvailableMonotone(es, i, i);
      assert Taken(es, a)[i] + Taken(mid, b)[i] == Taken(es, a + b)[i];
    }
  }

  // ----- Giving back -----

  function Restore(e: Entry, amount: real): Entry {
    e.(remaining := e.remaining + amount, exhausted := false)
  }

  function GiveTo(e: Entry, amount: real): Entry {
    if amount == 0.0 then e else Restore(e, amount)
  }

  function Restored(es: seq<Entry>, taken: seq<real>): (r: seq<Entry>)
    requires |taken| == |es|
    ensures |r| == |es|
  {
    seq(|es|, i requires 0 <= i < |es| => GiveTo(es[i], taken[i]))
  }

  /** Giving back what was taken restores every entry, flags included. */
  lemma RestoredConsumed(es: seq<Entry>, taken: seq<real>)
    requires AllOk(es) && Takable(es, taken)
    ensures Restored(Consumed(es, taken), taken) == es
  {}

  // ----- Units -----

  lemma TakenWholePrefix(es: seq<Entry>, n: int, k: nat)
    requires k <= |es|
    ensures TakenWhole(es[..k], n) == TakenWhole(es, n)[..k]
  {
    forall i | 0 <= i < k ensures es[..k][..i] == es[..i] {}
  }

  /** Asking for n units empties n open entries whole, or all of them if there are fewer. */
  lemma {:induction false} UnitsEmptyEntries(es: seq<Entry>, n: nat)
    requires AllOk(es)
    ensures Open(Consumed(es, TakenWhole(es, n))) == if Open(es) <= n then 0 else Open(es) - n
  {
    if |es| > 0 {
      var k := |es| - 1;
      UnitsEmptyEntries(es[..k], n);
      TakenWholePrefix(es, n, k);
      assert Consumed(es, TakenWhole(es, n))[..k] == Consumed(es[..k], TakenWhole(es[..k], n));
    }
  }

  /** The open entries, oldest first. */
  function OpenLots(es: seq<Entry>): (lots: seq<Entry>)
    ensures |lots| == Open(es)
  {
    if |es| == 0 then []
    else OpenLots(es[..|es| - 1]) + if es[|es| - 1].exhausted then [] else [es[|es| - 1]]
  }

  /** What the n oldest of them hold, or all of them if there are fewer. */
  function Oldest(es: seq<Entry>, n: nat): real {
    Available(OpenLots(es)[..if n <= Open(es) then n else Open(es)])
  }

  lemma OldestNext(es: seq<Entry>, n: nat)
    requires |es| > 0
    ensures var k := |es| - 1;
            Oldest(es, n) == Oldest(es[..k], n) + if !es[k].exhausted && Open(es[..k]) < n then es[k].remaining else 0.0
  {
    var k := |es| - 1;
    var lots := OpenLots(es[..k]);
    if !es[k].exhausted {
      if Open(es[..k]) < n {
        assert (lots + [es[k]])[..Open(es)] == lots + [es[k]];
        assert lots[..Open(es[..k])] == lots;
        SumPush(lots, es[k], Remaining());
      } else {
        assert (lots + [es[k]])[..n] == lots[..n];
      }
    } else {
      assert lots + [] == lots;
    }
  }

  /** In the unit branch the quantity taken is whatever the n oldest open lots hold. */
  lemma {:induction false} WholeTakesOldest(es: seq<Entry>, n: nat)
    ensures Sum(TakenWhole(es, n), Id()) == Oldest(es, n)
  {
    if |es| > 0 {
      var k := |es| - 1;
      WholeTakesOldest(es[..k], n);
      TakenWholePrefix(es, n, k);
      OldestNext(es, n);
    }
  }

  /**
   So the entries lose what was asked if and only if those lots hold exactly that, and
   fewer lots than asked are emptied, without an error, if and only if fewer are open.
   */
  lemma UnitsTakeExactly(es: seq<Entry>, n: nat)
    requires AllOk(es)
    ensures Available(es) - Available(Consumed(es, TakenWhole(es, n))) == n as real <==> Oldest(es, n) == n as real
    ensures Open(es) - Open(Consumed(es, TakenWhole(es, n))) < n <==> Open(es) < n
  {
    WholeTakesOldest(es, n);
    AvailableAfter(es, TakenWhole(es, n));
    UnitsEmptyEntries(es, n);
  }

  /** One unit asked for can take ten: a lot is emptied whatever it holds. */
  lemma OneUnitTakesTheLot()
    ensures var es := [Entry(10.0, 10.0, 1.0, false)];
            TakenWhole(es, 1) == [10.0]
  {
    var es := [Entry(10.0, 10.0, 1.0, false)];
    assert Open(es[..0]) == 0;
  }
}

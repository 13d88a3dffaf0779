/**
 The fixed-window limiter on Redis counters
 (src/common/ratelimit/redis-rate-limiter.service.ts).

 Times are whole milliseconds. A key is deleted from the store once its expiry
 is reached; INCR on a missing key starts at 1 and clears no expiry.
 */
module RateLimiter {

  datatype Slot = Slot(key: string, window: int)
  datatype Counter = Counter(count: nat, expiresAt: int)
  type Store = map<Slot, Counter>

  datatype Request = Request(key: string, now: int)
  datatype Info = Info(limit: int, remaining: int, reset: int, retryAfterMs: int)
  datatype Decision = Decided(allowed: bool, info: Info) | BadConfig

  datatype Config = Config(limit: int, windowMs: int)

  predicate Usable(c: Config) {
    c.limit > 0 && c.windowMs > 0
  }

  function Window(c: Config, now: int): (w: int)
    requires Usable(c)
    ensures w * c.windowMs <= now < (w + 1) * c.windowMs
  {
    now / c.windowMs
  }

  function Purge(store: Store, now: int): (r: Store)
    ensures forall k :: k in r <==> k in store && now < store[k].expiresAt
    ensures forall k :: k in r ==> r[k] == store[k]
  {
    map k | k in store && now < store[k].expiresAt :: store[k]
  }

  function Max(a: int, b: int): int {
    if a > b then a else b
  }

  function Decide(c: Config, count: nat, now: int): Decision
    requires Usable(c)
  {
    var reset := (Window(c, now) + 1) * c.windowMs;
    Decided(count <= c.limit, Info(c.limit, Max(c.limit - count, 0), reset, Max(reset - now, 0)))
  }

  function Count(store: Store, slot: Slot): nat {
    if slot in store then store[slot].count else 0
  }

  /** The store after one request: expired counters gone, this window's counter one higher. */
  function Charged(c: Config, store: Store, r: Request): Store
    requires Usable(c)
  {
    var live := Purge(store, r.now);
    var slot := Slot(r.key, Window(c, r.now));
    var count := Count(live, slot) + 1;
    live[slot := Counter(count, if count == 1 then r.now + c.windowMs else live[slot].expiresAt)]
  }

  class RedisRateLimiterService {
    const config: Config
    var store: Store

    constructor (config: Config)
      ensures this.config == config && store == map[]
    {
      this.config := config;
      store := map[];
    }

    method Incr(slot: Slot) returns (count: nat)
      modifies this
      ensures count == Count(old(store), slot) + 1
      ensures slot in old(store) ==> store == old(store)[slot := Counter(count, old(store)[slot].expiresAt)]
      ensures slot !in old(store) ==> exists never :: store == old(store)[slot := Counter(count, never)]
    {
      count := Count(store, slot) + 1;
      // A fresh key has no expiry until PEXPIRE gives it one.
      var expiresAt := if slot in store then store[slot].expiresAt else 0;
      store := store[slot := Counter(count, expiresAt)];
      assert slot !in old(store) ==> store == old(store)[slot := Counter(count, expiresAt)];
    }

    method Allow(key: string, now: int) returns (d: Decision)
      modifies this
      ensures d == BadConfig <==> config.limit <= 0 || config.windowMs <= 0
      ensures !Usable(config) ==> d == BadConfig && store == old(store)
      ensures Usable(config) ==> store == Charged(config, old(store), Request(key, now))
      ensures Usable(config) ==>
                d == Decide(config, Count(store, Slot(key, Window(config, now))), now)
    {
      if config.limit <= 0 || config.windowMs <= 0 {
        return BadConfig;
      }
      store := Purge(store, now);
      ghost var live := store;
      var windowId := Window(config, now);
      var slot := Slot(key, windowId);
      var count := Incr(slot);
      if count == 1 {
        store := store[slot := store[slot].(expiresAt := now + config.windowMs)];
      }
      var reset := (windowId + 1) * config.windowMs;
      var remaining := Max(config.limit - count, 0);
      var retryAfterMs := Max(reset - now, 0);
      d := Decided(count <= config.limit, Info(config.limit, remaining, reset, retryAfterMs));
    }
  }

  // ----- Whole runs -----

  function Serve(c: Config, reqs: seq<Request>): Store
    requires Usable(c)
  {
    if |reqs| == 0 then map[] else Charged(c, Serve(c, reqs[..|reqs| - 1]), reqs[|reqs| - 1])
  }

  /** What request i of the run is answered. */
  function Answer(c: Config, reqs: seq<Request>, i: nat): Decision
    requires Usable(c) && i < |reqs|
  {
    Decide(c, Count(Serve(c, reqs[..i + 1]), Slot(reqs[i].key, Window(c, reqs[i].now))), reqs[i].now)
  }

  /** Whether request i of the run is let through. */
  predicate Allowed(c: Config, reqs: seq<Request>, i: nat)
    requires Usable(c) && i < |reqs|
  {
    Answer(c, reqs, i).allowed
  }

  predicate Monotone(reqs: seq<Request>) {
    forall i, j :: 0 <= i <= j < |reqs| ==> reqs[i].now <= reqs[j].now
  }

  /** How many requests of the run fall on a key's window: the reference the counter must match. */
  function Arrivals(c: Config, reqs: seq<Request>, slot: Slot): nat
    requires Usable(c)
  {
    if |reqs| == 0 then 0
    else
      var last := reqs[|reqs| - 1];
      Arrivals(c, reqs[..|reqs| - 1], slot) + if Slot(last.key, Window(c, last.now)) == slot then 1 else 0
  }

  lemma WindowMonotone(c: Config, a: int, b: int)
    requires Usable(c) && a <= b
    ensures Window(c, a) <= Window(c, b)
  {
    var wa, wb := Window(c, a), Window(c, b);
    assert wa >= wb + 1 ==> wa * c.windowMs >= (wb + 1) * c.windowMs;
  }

  /** A window's counter is live and expires no earlier than the window ends. */
  predicate Lasting(c: Config, store: Store, slot: Slot) {
    slot in store ==> store[slot].count > 0 && store[slot].expiresAt >= (slot.window + 1) * c.windowMs
  }

  lemma MultipleMonotone(c: Config, v: int, w: int)
    requires Usable(c) && v <= w
    ensures v * c.windowMs <= w * c.windowMs
  {}

  lemma NowBeforeEnd(c: Config, now: int, w: int)
    requires Usable(c) && Window(c, now) <= w
    ensures now < (w + 1) * c.windowMs
    ensures Window(c, now) == w ==> now + c.windowMs >= (w + 1) * c.windowMs
  {
    MultipleMonotone(c, Window(c, now) + 1, w + 1);
    assert (w + 1) * c.windowMs == w * c.windowMs + c.windowMs;
  }

  /** One request moves its own window's counter by one and no later window's. */
  lemma ChargedExact(c: Config, store: Store, r: Request, slot: Slot)
    requires Usable(c) && Lasting(c, store, slot) && slot.window >= Window(c, r.now)
    ensures Count(Charged(c, store, r), slot) == Count(store, slot) + if slot == Slot(r.key, Window(c, r.now)) then 1 else 0
    ensures Lasting(c, Charged(c, store, r), slot)
  {
    NowBeforeEnd(c, r.now, slot.window);
    assert Count(Purge(store, r.now), slot) == Count(store, slot);
  }

  /** A counter never expires inside its own window, so it holds exactly the arrivals. */
  lemma {:induction false} CounterExact(c: Config, reqs: seq<Request>, slot: Slot)
    requires Usable(c) && Monotone(reqs) && |reqs| > 0
    requires slot.window >= Window(c, reqs[|reqs| - 1].now)
    ensures Count(Serve(c, reqs), slot) == Arrivals(c, reqs, slot)
    ensures Lasting(c, Serve(c, reqs), slot)
  {
    var front, last := reqs[..|reqs| - 1], reqs[|reqs| - 1];
    if |front| > 0 {
      assert front[|front| - 1] == reqs[|reqs| - 2];
      WindowMonotone(c, front[|front| - 1].now, last.now);
      CounterExact(c, front, slot);
    }
    ChargedExact(c, Serve(c, front), last, slot);
  }

  /** A request is let through exactly when it is among the first `limit` of its key's window. */
  lemma AllowedIffAmongFirst(c: Config, reqs: seq<Request>, i: nat)
    requires Usable(c) && Monotone(reqs) && i < |reqs|
    ensures Allowed(c, reqs, i) <==>
            Arrivals(c, reqs[..i + 1], Slot(reqs[i].key, Window(c, reqs[i].now))) <= c.limit
  {
    CounterExact(c, reqs[..i + 1], Slot(reqs[i].key, Window(c, reqs[i].now)));
  }

  /** Requests of the run that were let through on a key at a time in [from, to). */
  function AdmittedBetween(c: Config, reqs: seq<Request>, key: string, from: int, to: int): nat
    requires Usable(c)
  {
    if |reqs| == 0 then 0
    else
      var i := |reqs| - 1;
      AdmittedBetween(c, reqs[..i], key, from, to)
      + if reqs[i].key == key && from <= reqs[i].now < to && Allowed(c, reqs, i) then 1 else 0
  }

  lemma InWindow(c: Config, now: int, w: int)
    requires Usable(c)
    ensures w * c.windowMs <= now < (w + 1) * c.windowMs <==> Window(c, now) == w
  {
    var v := Window(c, now);
    if v < w {
      assert (v + 1) * c.windowMs <= w * c.windowMs;
    } else if v > w {
      assert (w + 1) * c.windowMs <= v * c.windowMs;
    }
  }

  /** Of n requests in a window exactly min(n, limit) are let through. */
  lemma {:induction false} WindowAdmitsExactly(c: Config, reqs: seq<Request>, key: string, w: int)
    requires Usable(c) && Monotone(reqs)
    ensures var n := Arrivals(c, reqs, Slot(key, w));
            AdmittedBetween(c, reqs, key, w * c.windowMs, (w + 1) * c.windowMs) == if n <= c.limit then n else c.limit
  {
    if |reqs| > 0 {
      var i := |reqs| - 1;
      WindowAdmitsExactly(c, reqs[..i], key, w);
      InWindow(c, reqs[i].now, w);
      AllowedIffAmongFirst(c, reqs, i);
      assert reqs[..i + 1] == reqs;
    }
  }

  /** An interval covered by two others admits no more than they do together. */
  lemma {:induction false} AdmittedCovered(c: Config, reqs: seq<Request>, key: string, from: int, mid: int, lo: int, hi: int, to: int)
    requires Usable(c) && lo <= from && to <= hi
    ensures AdmittedBetween(c, reqs, key, from, to) <= AdmittedBetween(c, reqs, key, lo, mid) + AdmittedBetween(c, reqs, key, mid, hi)
  {
    if |reqs| > 0 {
      AdmittedCovered(c, reqs[..|reqs| - 1], key, from, mid, lo, hi, to);
    }
  }

  /** Any interval one window long, however placed, admits at most twice the limit. */
  lemma IntervalAdmitsAtMostTwice(c: Config, reqs: seq<Request>, key: string, from: int)
    requires Usable(c) && Monotone(reqs)
    ensures AdmittedBetween(c, reqs, key, from, from + c.windowMs) <= 2 * c.limit
  {
    var w := Window(c, from);
    assert (w + 2) * c.windowMs == (w + 1) * c.windowMs + c.windowMs;
    AdmittedCovered(c, reqs, key, from, (w + 1) * c.windowMs, w * c.windowMs, (w + 2) * c.windowMs, from + c.windowMs);
    WindowAdmitsExactly(c, reqs, key, w);
    WindowAdmitsExactly(c, reqs, key, w + 1);
  }

  // ----- Twice the limit is reached -----

  function Burst(key: string, now: int, n: nat): (r: seq<Request>)
    ensures |r| == n && forall i :: 0 <= i < n ==> r[i] == Request(key, now)
  {
    seq(n, i => Request(key, now))
  }

  lemma {:induction false} ArrivalsOfBurst(c: Config, base: seq<Request>, key: string, now: int, n: nat, slot: Slot)
    requires Usable(c)
    ensures Arrivals(c, base + Burst(key, now, n), slot)
         == Arrivals(c, base, slot) + if slot == Slot(key, Window(c, now)) then n else 0
  {
    var all := base + Burst(key, now, n);
    if n == 0 {
      assert all == base;
    } else {
      ArrivalsOfBurst(c, base, key, now, n - 1, slot);
      assert all[..|all| - 1] == base + Burst(key, now, n - 1);
    }
  }

  lemma {:induction false} AdmittedSplits(c: Config, reqs: seq<Request>, key: string, lo: int, mid: int, hi: int)
    requires Usable(c) && lo <= mid <= hi
    ensures AdmittedBetween(c, reqs, key, lo, hi) == AdmittedBetween(c, reqs, key, lo, mid) + AdmittedBetween(c, reqs, key, mid, hi)
  {
    if |reqs| > 0 {
      AdmittedSplits(c, reqs[..|reqs| - 1], key, lo, mid, hi);
    }
  }

  /** Narrowing an interval loses nothing when every request of the run lies in the narrow one. */
  lemma {:induction false} AdmittedOnly(c: Config, reqs: seq<Request>, key: string, lo: int, hi: int, lo': int, hi': int)
    requires Usable(c) && lo <= lo' && hi' <= hi
    requires forall i :: 0 <= i < |reqs| && lo <= reqs[i].now < hi ==> lo' <= reqs[i].now < hi'
    ensures AdmittedBetween(c, reqs, key, lo, hi) == AdmittedBetween(c, reqs, key, lo', hi')
  {
    if |reqs| > 0 {
      AdmittedOnly(c, reqs[..|reqs| - 1], key, lo, hi, lo', hi');
    }
  }

  /** The bound is tight: two bursts either side of a window boundary, one millisecond apart, all pass. */
  lemma TwiceIsReached(c: Config, key: string)
    requires Usable(c) && c.windowMs >= 2
    ensures var reqs := Burst(key, c.windowMs - 1, c.limit) + Burst(key, c.windowMs, c.limit);
            Monotone(reqs)
            && AdmittedBetween(c, reqs, key, c.windowMs - 1, c.windowMs - 1 + c.windowMs) == 2 * c.limit
  {
    var W := c.windowMs;
    var first := Burst(key, W - 1, c.limit);
    var reqs := first + Burst(key, W, c.limit);
    BurstArrivals(c, key);
    WindowAdmitsExactly(c, reqs, key, 0);
    WindowAdmitsExactly(c, reqs, key, 1);
    AdmittedSplits(c, reqs, key, W - 1, W, W - 1 + W);
    AdmittedOnly(c, reqs, key, 0, W, W - 1, W);
    AdmittedOnly(c, reqs, key, W, 2 * W, W, W - 1 + W);
  }

  lemma BurstArrivals(c: Config, key: string)
    requires Usable(c) && c.windowMs >= 2
    ensures var reqs := Burst(key, c.windowMs - 1, c.limit) + Burst(key, c.windowMs, c.limit);
            Arrivals(c, reqs, Slot(key, 0)) == c.limit && Arrivals(c, reqs, Slot(key, 1)) == c.limit
  {
    var W := c.windowMs;
    var first := Burst(key, W - 1, c.limit);
    InWindow(c, W - 1, 0);
    InWindow(c, W, 1);
    assert [] + first == first;
    ArrivalsOfBurst(c, [], key, W - 1, c.limit, Slot(key, 0));
    ArrivalsOfBurst(c, first, key, W, c.limit, Slot(key, 0));
    ArrivalsOfBurst(c, [], key, W - 1, c.limit, Slot(key, 1));
    ArrivalsOfBurst(c, first, key, W, c.limit, Slot(key, 1));
  }

  // ----- What the headers promise -----

  /** No arrival lies in a window that has not begun. */
  lemma {:induction false} NoneAhead(c: Config, reqs: seq<Request>, slot: Slot)
    requires Usable(c) && forall i :: 0 <= i < |reqs| ==> Window(c, reqs[i].now) < slot.window
    ensures Arrivals(c, reqs, slot) == 0
  {
    if |reqs| > 0 {
      NoneAhead(c, reqs[..|reqs| - 1], slot);
    }
  }

  /** The reset time is the first instant of the next window, and the time to wait is what is left until it. */
  lemma ResetIsNextWindow(c: Config, reqs: seq<Request>, i: nat)
    requires Usable(c) && i < |reqs|
    ensures var info, now := Answer(c, reqs, i).info, reqs[i].now;
            now < info.reset
            && (forall t :: now <= t < info.reset ==> Window(c, t) == Window(c, now))
            && Window(c, info.reset) == Window(c, now) + 1
            && now + info.retryAfterMs == info.reset
            && info.limit == c.limit
  {
    var now := reqs[i].now;
    var w := Window(c, now);
    forall t | now <= t < (w + 1) * c.windowMs ensures Window(c, t) == w {
      InWindow(c, t, w);
    }
    assert (w + 2) * c.windowMs == (w + 1) * c.windowMs + c.windowMs;
    InWindow(c, (w + 1) * c.windowMs, w + 1);
  }

  lemma Appended(c: Config, reqs: seq<Request>, more: seq<Request>, i: nat)
    requires Usable(c) && i < |reqs|
    ensures Answer(c, reqs + more, i) == Answer(c, reqs, i)
  {
    assert (reqs + more)[..i + 1] == reqs[..i + 1];
  }

  /** `remaining` is how many more requests would be let through at once: of a burst the last passes exactly if the burst is no larger. */
  lemma RemainingIsRoom(c: Config, reqs: seq<Request>, n: nat)
    requires Usable(c) && Monotone(reqs) && |reqs| > 0 && n > 0
    ensures var last := reqs[|reqs| - 1];
            var all := reqs + Burst(last.key, last.now, n);
            Answer(c, reqs, |reqs| - 1).info.remaining >= 0
            && (Allowed(c, all, |all| - 1) <==> n <= Answer(c, reqs, |reqs| - 1).info.remaining)
  {
    var last := reqs[|reqs| - 1];
    var all := reqs + Burst(last.key, last.now, n);
    var slot := Slot(last.key, Window(c, last.now));
    assert all[..|all|] == all && reqs[..|reqs|] == reqs;
    CounterExact(c, reqs, slot);
    AllowedIffAmongFirst(c, all, |all| - 1);
    ArrivalsOfBurst(c, reqs, last.key, last.now, n, slot);
  }

  /** A refused caller who waits is let through exactly when they wait at least as long as told, if nobody else uses the key meanwhile. */
  lemma RetryAfterIsExact(c: Config, reqs: seq<Request>, wait: nat)
    requires Usable(c) && Monotone(reqs) && |reqs| > 0 && !Allowed(c, reqs, |reqs| - 1)
    ensures var last := reqs[|reqs| - 1];
            Allowed(c, reqs + [Request(last.key, last.now + wait)], |reqs|)
            <==> wait >= Answer(c, reqs, |reqs| - 1).info.retryAfterMs
  {
    var last := reqs[|reqs| - 1];
    var again := Request(last.key, last.now + wait);
    var all, slot := reqs + [again], Slot(last.key, Window(c, again.now));
    ResetIsNextWindow(c, reqs, |reqs| - 1);
    assert all[..|reqs| + 1] == all && all[..|all| - 1] == reqs && reqs[..|reqs|] == reqs;
    AllowedIffAmongFirst(c, all, |reqs|);
    if wait >= Answer(c, reqs, |reqs| - 1).info.retryAfterMs {
      WindowMonotone(c, Answer(c, reqs, |reqs| - 1).info.reset, again.now);
      forall i | 0 <= i < |reqs| ensures Window(c, reqs[i].now) < slot.window {
        WindowMonotone(c, reqs[i].now, last.now);
      }
      NoneAhead(c, reqs, slot);
    } else {
      AllowedIffAmongFirst(c, reqs, |reqs| - 1);
    }
  }
}

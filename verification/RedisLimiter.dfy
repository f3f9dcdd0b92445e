/**
 * The Redis rate limiter: one counter per identifier and aligned window, with a time to live. The clock
 * is read on the application server; the transaction runs on Redis some time later.
 */
module RedisLimiter {
  import opened Basics

  datatype Options = Options(windowMs: int, maxRequests: int)

  /** A stored counter, alive up to and including the time `until`. */
  datatype Cell = Cell(count: nat, until: int)

  type Key = (string, int)

  /** An increment: `at` is the clock reading that picks the window, `exec` when the transaction runs. */
  datatype Request = Request(id: string, at: int, exec: int)

  /** `Math.ceil(windowMs / 1000) + 1` seconds, in milliseconds. */
  function TtlMs(o: Options): int
    requires o.windowMs > 0
  {
    ((o.windowMs + 999) / 1000 + 1) * 1000
  }

  function WindowOf(o: Options, at: int): int
    requires o.windowMs > 0
  {
    at / o.windowMs
  }

  function KeyOf(o: Options, r: Request): Key
    requires o.windowMs > 0
  {
    (r.id, WindowOf(o, r.at))
  }

  /** What a read of the key sees at time `now`; an expired counter is gone. */
  function CountAt(store: map<Key, Cell>, k: Key, now: int): nat {
    if k in store && now <= store[k].until then store[k].count else 0
  }

  /** INCR and EXPIRE in one transaction. */
  function Incremented(o: Options, store: map<Key, Cell>, r: Request): map<Key, Cell>
    requires o.windowMs > 0
  {
    store[KeyOf(o, r) := Cell(CountAt(store, KeyOf(o, r), r.exec) + 1, r.exec + TtlMs(o))]
  }

  predicate Allows(o: Options, store: map<Key, Cell>, r: Request)
    requires o.windowMs > 0
  {
    CountAt(store, KeyOf(o, r), r.exec) + 1 <= o.maxRequests
  }

  datatype Result = Result(allowed: bool, remaining: int, limit: int, resetAt: int, current: int)

  class RateLimiter {
    const options: Options
    var store: map<Key, Cell>

    constructor (options: Options)
      ensures this.options == options && store == map[]
    {
      this.options := options;
      store := map[];
    }

    /** The answer of an increment tells the new count; the window it names contains the clock reading. */
    method Increment(r: Request) returns (res: Result)
      requires options.windowMs > 0
      modifies this
      ensures store == Incremented(options, old(store), r)
      ensures res.allowed == Allows(options, old(store), r)
      ensures res.current == CountAt(store, KeyOf(options, r), r.exec)
      ensures res.remaining == Max(0, res.limit - res.current) && res.limit == options.maxRequests
      ensures res.resetAt - options.windowMs <= r.at < res.resetAt
    {
      var window := WindowOf(options, r.at);
      var key := (r.id, window);
      var before := if key in store && r.exec <= store[key].until then store[key].count else 0;
      var newCount := before + 1;
      store := store[key := Cell(newCount, r.exec + TtlMs(options))];
      WindowHolds(options, r.at);
      res := Result(newCount <= options.maxRequests, Max(0, options.maxRequests - newCount), options.maxRequests,
                    (window + 1) * options.windowMs, newCount);
    }

    /** A check foretells the verdict of an increment at the same moment. */
    method Check(id: string, at: int, exec: int) returns (res: Result)
      requires options.windowMs > 0
      ensures res.allowed == Allows(options, store, Request(id, at, exec))
      ensures res.current == CountAt(store, KeyOf(options, Request(id, at, exec)), exec)
      ensures res.resetAt - options.windowMs <= at < res.resetAt
    {
      var window := WindowOf(options, at);
      var key := (id, window);
      var current := if key in store && exec <= store[key].until then store[key].count else 0;
      WindowHolds(options, at);
      res := Result(current < options.maxRequests, Max(0, options.maxRequests - current), options.maxRequests,
                    (window + 1) * options.windowMs, current);
    }

    method Reset(id: string, at: int)
      requires options.windowMs > 0
      modifies this
      ensures store == old(store) - {(id, WindowOf(options, at))}
    {
      store := store - {(id, WindowOf(options, at))};
    }
  }

  lemma WindowHolds(o: Options, at: int)
    requires o.windowMs > 0
    ensures WindowOf(o, at) * o.windowMs <= at < (WindowOf(o, at) + 1) * o.windowMs
  {
  }

  // ---------------------------------------------------------------------------
  // Schedules
  // ---------------------------------------------------------------------------

  /** A request's transaction runs at most one second after its window has ended. */
  predicate Timely(o: Options, r: Request)
    requires o.windowMs > 0
  {
    r.at <= r.exec <= (WindowOf(o, r.at) + 1) * o.windowMs + 1000
  }

  /** The number of allowed requests with the key `k`, in order of execution. */
  function AllowedFor(o: Options, store: map<Key, Cell>, rs: seq<Request>, k: Key): nat
    requires o.windowMs > 0
    decreases |rs|
  {
    if rs == [] then 0
    else
      (if KeyOf(o, rs[0]) == k && Allows(o, store, rs[0]) then 1 else 0)
      + AllowedFor(o, Incremented(o, store, rs[0]), rs[1..], k)
  }

  /** The number of requests with the key `k`, allowed or not. */
  function Asked(o: Options, rs: seq<Request>, k: Key): nat
    requires o.windowMs > 0
  {
    if rs == [] then 0 else (if KeyOf(o, rs[0]) == k then 1 else 0) + Asked(o, rs[1..], k)
  }

  /** No transaction of the key `k` finds a counter of it that has expired. */
  predicate NeverExpired(o: Options, store: map<Key, Cell>, rs: seq<Request>, k: Key)
    requires o.windowMs > 0
    decreases |rs|
  {
    rs == []
    || ((KeyOf(o, rs[0]) == k && k in store ==> rs[0].exec <= store[k].until)
        && NeverExpired(o, Incremented(o, store, rs[0]), rs[1..], k))
  }

  /** The number of allowed requests of `id` with a clock reading in [from, from + windowMs). */
  function AllowedWithin(o: Options, store: map<Key, Cell>, rs: seq<Request>, id: string, from: int): nat
    requires o.windowMs > 0
    decreases |rs|
  {
    if rs == [] then 0
    else
      (if rs[0].id == id && from <= rs[0].at < from + o.windowMs && Allows(o, store, rs[0]) then 1 else 0)
      + AllowedWithin(o, Incremented(o, store, rs[0]), rs[1..], id, from)
  }

  /** A counter that exists outlives its window by at least one second. */
  predicate Outlives(o: Options, store: map<Key, Cell>, k: Key) {
    k in store ==> store[k].until >= (k.1 + 1) * o.windowMs + 1000
  }

  /** Each increment renews the time to live past the end of the window. */
  lemma RenewalOutlives(o: Options, r: Request)
    requires o.windowMs > 0 && Timely(o, r)
    ensures r.exec + TtlMs(o) >= (WindowOf(o, r.at) + 1) * o.windowMs + 1000
  {
    WindowHolds(o, r.at);
    var w := WindowOf(o, r.at);
    assert (w + 1) * o.windowMs == w * o.windowMs + o.windowMs;
    assert TtlMs(o) >= o.windowMs + 1000;
  }

  /** So no timely schedule finds an expired counter. */
  lemma {:induction false} TimelyNeverExpires(o: Options, store: map<Key, Cell>, rs: seq<Request>, k: Key)
    requires o.windowMs > 0 && Outlives(o, store, k) && forall i | 0 <= i < |rs| :: Timely(o, rs[i])
    ensures NeverExpired(o, store, rs, k)
    decreases |rs|
  {
    if rs != [] {
      RenewalOutlives(o, rs[0]);
      TimelyNeverExpires(o, Incremented(o, store, rs[0]), rs[1..], k);
    }
  }

  // ---------------------------------------------------------------------------
  // When an aligned window keeps its maximum
  // ---------------------------------------------------------------------------

  /** The stored count, expired or not. */
  function Stored(store: map<Key, Cell>, k: Key): nat {
    if k in store then store[k].count else 0
  }

  lemma {:induction false} AtMostAsked(o: Options, store: map<Key, Cell>, rs: seq<Request>, k: Key)
    requires o.windowMs > 0
    ensures AllowedFor(o, store, rs, k) <= Asked(o, rs, k)
    ensures o.maxRequests <= 0 ==> AllowedFor(o, store, rs, k) == 0
    decreases |rs|
  {
    if rs != [] {
      AtMostAsked(o, Incremented(o, store, rs[0]), rs[1..], k);
    }
  }

  /** A counter that never expires lets no more through than what is left of the maximum. */
  lemma {:induction false} UnexpiredBound(o: Options, store: map<Key, Cell>, rs: seq<Request>, k: Key)
    requires o.windowMs > 0 && NeverExpired(o, store, rs, k)
    ensures AllowedFor(o, store, rs, k) <= Max(0, o.maxRequests - Stored(store, k))
    decreases |rs|
  {
    if rs != [] {
      UnexpiredBound(o, Incremented(o, store, rs[0]), rs[1..], k);
    }
  }

  /** Expired or not, what is left of the maximum is never refused. */
  lemma {:induction false} AtLeastLeft(o: Options, store: map<Key, Cell>, rs: seq<Request>, k: Key)
    requires o.windowMs > 0
    ensures AllowedFor(o, store, rs, k) >= Asked(o, rs, k)
            || AllowedFor(o, store, rs, k) >= o.maxRequests - Stored(store, k)
    decreases |rs|
  {
    if rs != [] {
      AtLeastLeft(o, Incremented(o, store, rs[0]), rs[1..], k);
    }
  }

  /** One expired counter, and more requests than the maximum in all: too many are allowed. */
  lemma {:induction false} ExpiryAdmitsMore(o: Options, store: map<Key, Cell>, rs: seq<Request>, k: Key)
    requires o.windowMs > 0 && o.maxRequests >= 1 && !NeverExpired(o, store, rs, k)
    requires (k in store ==> store[k].count >= 1) && Stored(store, k) + Asked(o, rs, k) > o.maxRequests
    ensures AllowedFor(o, store, rs, k)
              + (if Stored(store, k) <= o.maxRequests then Stored(store, k) else o.maxRequests)
            > o.maxRequests
    decreases |rs|
  {
    var r, n := rs[0], Incremented(o, store, rs[0]);
    if KeyOf(o, r) == k && k in store && r.exec > store[k].until {
      AtLeastLeft(o, n, rs[1..], k);
    } else {
      ExpiryAdmitsMore(o, n, rs[1..], k);
    }
  }

  /**
   * For every schedule without a reset: an aligned window of an identifier allows at most the maximum if
   * and only if no more than that is asked of it, or no transaction of it finds its counter expired.
   */
  lemma AlignedWindowBoundIff(o: Options, rs: seq<Request>, k: Key)
    requires o.windowMs > 0
    ensures AllowedFor(o, map[], rs, k) <= Max(0, o.maxRequests)
            <==> o.maxRequests <= 0 || Asked(o, rs, k) <= o.maxRequests || NeverExpired(o, map[], rs, k)
  {
    AtMostAsked(o, map[], rs, k);
    if NeverExpired(o, map[], rs, k) {
      UnexpiredBound(o, map[], rs, k);
    } else if o.maxRequests >= 1 && Asked(o, rs, k) > o.maxRequests {
      ExpiryAdmitsMore(o, map[], rs, k);
    }
  }

  /** In particular a timely schedule keeps the bound. */
  lemma AlignedWindowBound(o: Options, rs: seq<Request>, id: string, window: int)
    requires o.windowMs > 0 && forall i | 0 <= i < |rs| :: Timely(o, rs[i])
    ensures AllowedFor(o, map[], rs, (id, window)) <= Max(0, o.maxRequests)
  {
    TimelyNeverExpires(o, map[], rs, (id, window));
    AlignedWindowBoundIff(o, rs, (id, window));
  }

  lemma {:induction false} WithinTwoWindows(o: Options, store: map<Key, Cell>, rs: seq<Request>, id: string, from: int)
    requires o.windowMs > 0
    ensures AllowedWithin(o, store, rs, id, from)
            <= AllowedFor(o, store, rs, (id, WindowOf(o, from))) + AllowedFor(o, store, rs, (id, WindowOf(o, from) + 1))
    decreases |rs|
  {
    if rs != [] {
      WithinTwoWindows(o, Incremented(o, store, rs[0]), rs[1..], id, from);
      if from <= rs[0].at < from + o.windowMs {
        NextWindow(o, from, rs[0].at);
      }
    }
  }

  lemma MulMonotone(x: int, y: int, m: int)
    requires x <= y && m > 0
    ensures x * m <= y * m
  {
  }

  /** Two readings less than a window apart lie in the same window or in neighbours. */
  lemma NextWindow(o: Options, from: int, at: int)
    requires o.windowMs > 0 && from <= at < from + o.windowMs
    ensures WindowOf(o, at) == WindowOf(o, from) || WindowOf(o, at) == WindowOf(o, from) + 1
  {
    WindowHolds(o, from);
    WindowHolds(o, at);
    Neighbours(WindowOf(o, from), WindowOf(o, at), o.windowMs, from, at);
  }

  lemma Neighbours(b: int, a: int, m: int, from: int, at: int)
    requires m > 0 && b * m <= from < (b + 1) * m && a * m <= at < (a + 1) * m && from <= at < from + m
    ensures b <= a <= b + 1
  {
    if a < b { MulMonotone(a + 1, b, m); }
    if a > b + 1 { MulMonotone(b + 2, a, m); }
  }

  /** The windows that the interval starting at `from` touches are never too late for their counters. */
  predicate KeptAround(o: Options, rs: seq<Request>, id: string, from: int)
    requires o.windowMs > 0
  {
    && NeverExpired(o, map[], rs, (id, WindowOf(o, from)))
    && NeverExpired(o, map[], rs, (id, WindowOf(o, from) + 1))
  }

  /**
   * Any interval as long as a window allows at most twice the maximum, as soon as no transaction of the
   * two windows it touches finds its counter expired; timely schedules are of that kind.
   */
  lemma AnyIntervalBound(o: Options, rs: seq<Request>, id: string, from: int)
    requires o.windowMs > 0
    ensures KeptAround(o, rs, id, from) ==> AllowedWithin(o, map[], rs, id, from) <= 2 * Max(0, o.maxRequests)
    ensures (forall i | 0 <= i < |rs| :: Timely(o, rs[i])) ==> KeptAround(o, rs, id, from)
  {
    WithinTwoWindows(o, map[], rs, id, from);
    AlignedWindowBoundIff(o, rs, (id, WindowOf(o, from)));
    AlignedWindowBoundIff(o, rs, (id, WindowOf(o, from) + 1));
    if forall i | 0 <= i < |rs| :: Timely(o, rs[i]) {
      TimelyNeverExpires(o, map[], rs, (id, WindowOf(o, from)));
      TimelyNeverExpires(o, map[], rs, (id, WindowOf(o, from) + 1));
    }
  }

  /** Without that, three requests of half a second are allowed although the maximum is one. */
  lemma LateRequestsBreakTheIntervalBound()
    ensures var o := Options(1000, 1);
            var rs := [Request("k", 500, 500), Request("k", 999, 2501), Request("k", 1000, 2501)];
            && (forall i | 0 <= i < |rs| :: rs[i].at <= rs[i].exec)
            && !KeptAround(o, rs, "k", 500) && AllowedWithin(o, map[], rs, "k", 500) == 3
  {
    var o, a, b, d := Options(1000, 1), Request("k", 500, 500), Request("k", 999, 2501), Request("k", 1000, 2501);
    var s1 := Incremented(o, map[], a);
    var s2 := Incremented(o, s1, b);
    var s3 := Incremented(o, s2, d);
    assert s1[("k", 0)] == Cell(1, 2500) && ("k", 1) !in s2;
    assert [d][1..] == [] && [b, d][1..] == [d] && [a, b, d][1..] == [b, d];
    assert AllowedWithin(o, s3, [], "k", 500) == 0;
    assert AllowedWithin(o, s2, [d], "k", 500) == 1;
    assert AllowedWithin(o, s1, [b, d], "k", 500) == 2;
    assert !NeverExpired(o, s1, [b, d], ("k", 0));
  }

  /** A window that is full admits another request exactly if its counter has expired by then. */
  lemma FullWindowAdmitsIff(o: Options, store: map<Key, Cell>, r: Request)
    requires o.windowMs > 0 && o.maxRequests >= 1
    requires KeyOf(o, r) in store && store[KeyOf(o, r)].count >= o.maxRequests
    ensures Allows(o, store, r) <==> r.exec > store[KeyOf(o, r)].until
  {
  }

  /**
   * Without timeliness the bound fails: the second of two requests of the same window runs 1001 ms
   * after the window's end, when the counter is gone, and both are allowed though the maximum is one.
   */
  lemma LateRequestsBreakTheBound()
    ensures var o, rs := Options(1000, 1), [Request("k", 0, 0), Request("k", 999, 2001)];
            && (forall i | 0 <= i < |rs| :: rs[i].at <= rs[i].exec)
            && AllowedFor(o, map[], rs, ("k", 0)) == 2
  {
    var o, a, b := Options(1000, 1), Request("k", 0, 0), Request("k", 999, 2001);
    var s1 := Incremented(o, map[], a);
    var s2 := Incremented(o, s1, b);
    assert s1[("k", 0)] == Cell(1, 2000);
    assert AllowedFor(o, s2, [], ("k", 0)) == 0;
    assert [b][1..] == [];
    assert AllowedFor(o, s1, [b], ("k", 0)) == 1;
    assert [a, b][1..] == [b];
  }
}

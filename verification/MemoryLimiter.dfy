/** The in-memory rate limiter of the dashboard, with its occasional removal of expired entries. */
module MemoryLimiter {
  import opened Basics

  datatype Bucket = Bucket(count: nat, resetAt: int)

  datatype Verdict = Verdict(success: bool, remaining: int, limit: int, resetAt: int)

  /**
   * A check: `now` is read by the caller; `sweep`, when the dice ask for a cleanup, is the clock that
   * the cleanup reads for itself.
   */
  datatype Check = Check(key: string, maxRequests: int, windowMs: int, now: int, sweep: Option<int>)

  /** Whether the entry opens a new window at time `now`. */
  predicate Stale(store: map<string, Bucket>, key: string, now: int) {
    key !in store || now >= store[key].resetAt
  }

  function Swept(store: map<string, Bucket>, now: int): map<string, Bucket> {
    map k | k in store && now < store[k].resetAt :: store[k]
  }

  function Counted(store: map<string, Bucket>, c: Check): map<string, Bucket> {
    if Stale(store, c.key, c.now) then store[c.key := Bucket(1, c.now + c.windowMs)]
    else store[c.key := Bucket(store[c.key].count + 1, store[c.key].resetAt)]
  }

  function Answer(store: map<string, Bucket>, c: Check): Verdict {
    if Stale(store, c.key, c.now) then Verdict(true, c.maxRequests - 1, c.maxRequests, c.now + c.windowMs)
    else
      var b := Bucket(store[c.key].count + 1, store[c.key].resetAt);
      if b.count > c.maxRequests then Verdict(false, 0, c.maxRequests, b.resetAt)
      else Verdict(true, c.maxRequests - b.count, c.maxRequests, b.resetAt)
  }

  function Prepared(store: map<string, Bucket>, c: Check): map<string, Bucket> {
    if c.sweep.Some? then Swept(store, c.sweep.value) else store
  }

  class MemoryStore {
    var memoryStore: map<string, Bucket>

    constructor ()
      ensures memoryStore == map[]
    {
      memoryStore := map[];
    }

    /** Deletes entry by entry while scanning the map; exactly the expired ones go. */
    method CleanupExpiredEntries(now: int)
      modifies this
      ensures memoryStore == Swept(old(memoryStore), now)
    {
      ghost var was := memoryStore;
      var keys := memoryStore.Keys;
      while keys != {}
        invariant keys <= was.Keys
        invariant memoryStore == map k | k in was && (k in keys || now < was[k].resetAt) :: was[k]
      {
        var key :| key in keys;
        keys := keys - {key};
        if now >= memoryStore[key].resetAt {
          memoryStore := memoryStore - {key};
        }
      }
    }

    method CheckRateLimit(c: Check) returns (r: Verdict)
      modifies this
      ensures r == Answer(Prepared(old(memoryStore), c), c)
      ensures memoryStore == Counted(Prepared(old(memoryStore), c), c)
    {
      if c.sweep.Some? {
        CleanupExpiredEntries(c.sweep.value);
      }
      if c.key !in memoryStore || c.now >= memoryStore[c.key].resetAt {
        memoryStore := memoryStore[c.key := Bucket(1, c.now + c.windowMs)];
        return Verdict(true, c.maxRequests - 1, c.maxRequests, c.now + c.windowMs);
      }
      var entry := memoryStore[c.key];
      entry := entry.(count := entry.count + 1);
      memoryStore := memoryStore[c.key := entry];
      if entry.count > c.maxRequests {
        return Verdict(false, 0, c.maxRequests, entry.resetAt);
      }
      r := Verdict(true, c.maxRequests - entry.count, c.maxRequests, entry.resetAt);
    }
  }

  // ---------------------------------------------------------------------------
  // Runs with and without cleanup
  // ---------------------------------------------------------------------------

  function Verdicts(store: map<string, Bucket>, cs: seq<Check>): (r: seq<Verdict>)
    ensures |r| == |cs|
    decreases |cs|
  {
    if cs == [] then []
    else
      var s := Prepared(store, cs[0]);
      [Answer(s, cs[0])] + Verdicts(Counted(s, cs[0]), cs[1..])
  }

  function NoSweeps(cs: seq<Check>): seq<Check> {
    seq(|cs|, i requires 0 <= i < |cs| => cs[i].(sweep := None))
  }

  /** The clock readings do not go back. */
  predicate Ticking(cs: seq<Check>) {
    forall i, j | 0 <= i < j < |cs| :: cs[i].now <= cs[j].now
  }

  /** No cleanup reads a later time than the check it belongs to. */
  predicate SweepsInTime(cs: seq<Check>) {
    forall i | 0 <= i < |cs| && cs[i].sweep.Some? :: cs[i].sweep.value <= cs[i].now
  }

  /** At time `now` and later the two stores answer alike: they differ in stale entries only. */
  ghost predicate AlikeFrom(a: map<string, Bucket>, b: map<string, Bucket>, now: int) {
    && (forall k | k in a && now < a[k].resetAt :: k in b && b[k] == a[k])
    && (forall k | k in b && now < b[k].resetAt :: k in a && a[k] == b[k])
  }

  lemma SweptAlike(a: map<string, Bucket>, b: map<string, Bucket>, c: Check, now: int)
    requires AlikeFrom(a, b, now) && now <= c.now && (c.sweep.Some? ==> c.sweep.value <= c.now)
    ensures AlikeFrom(Prepared(a, c), b, c.now)
  {
  }

  lemma CheckedAlike(a: map<string, Bucket>, b: map<string, Bucket>, c: Check)
    requires AlikeFrom(a, b, c.now)
    ensures Answer(a, c) == Answer(b, c) && AlikeFrom(Counted(a, c), Counted(b, c), c.now)
  {
  }

  lemma NoSweepStep(b: map<string, Bucket>, c: Check)
    ensures Prepared(b, c.(sweep := None)) == b
    ensures Answer(b, c.(sweep := None)) == Answer(b, c) && Counted(b, c.(sweep := None)) == Counted(b, c)
  {
  }

  /**
   * The check's own entry is missing from `a`, after the check's cleanup, although without any cleanup
   * it would be there and still valid.
   */
  predicate Forgets(a: map<string, Bucket>, b: map<string, Bucket>, c: Check) {
    c.key !in Prepared(a, c) && c.key in b && c.now < b[c.key].resetAt
  }

  /** `a` is the store of the run with cleanups, `b` that of the same run without. */
  predicate NoneForgotten(a: map<string, Bucket>, b: map<string, Bucket>, cs: seq<Check>)
    decreases |cs|
  {
    cs == [] || (!Forgets(a, b, cs[0]) && NoneForgotten(Counted(Prepared(a, cs[0]), cs[0]), Counted(b, cs[0]), cs[1..]))
  }

  predicate SubStore(a: map<string, Bucket>, b: map<string, Bucket>) {
    forall k | k in a :: k in b && a[k] == b[k]
  }

  predicate CountsPositive(b: map<string, Bucket>) {
    forall k | k in b :: b[k].count >= 1
  }

  /** Whatever the clocks: a check is answered differently exactly when its entry was forgotten. */
  lemma AnswersAlikeIff(a: map<string, Bucket>, b: map<string, Bucket>, c: Check)
    requires SubStore(a, b) && CountsPositive(b)
    ensures Answer(Prepared(a, c), c) == Answer(b, c) <==> !Forgets(a, b, c)
    ensures !Forgets(a, b, c) ==> SubStore(Counted(Prepared(a, c), c), Counted(b, c))
    ensures CountsPositive(Counted(b, c))
  {
  }

  lemma {:induction false} VerdictsAlikeIff(a: map<string, Bucket>, b: map<string, Bucket>, cs: seq<Check>)
    requires SubStore(a, b) && CountsPositive(b)
    ensures Verdicts(a, cs) == Verdicts(b, NoSweeps(cs)) <==> NoneForgotten(a, b, cs)
    decreases |cs|
  {
    if cs != [] {
      var c, rest := cs[0], cs[1..];
      var s := Prepared(a, c);
      assert NoSweeps(cs)[0] == c.(sweep := None) && NoSweeps(cs)[1..] == NoSweeps(rest);
      NoSweepStep(b, c);
      assert Verdicts(a, cs) == [Answer(s, c)] + Verdicts(Counted(s, c), rest);
      assert Verdicts(b, NoSweeps(cs)) == [Answer(b, c)] + Verdicts(Counted(b, c), NoSweeps(rest));
      AnswersAlikeIff(a, b, c);
      SameHeadAndTail(Answer(s, c), Verdicts(Counted(s, c), rest), Answer(b, c),
                      Verdicts(Counted(b, c), NoSweeps(rest)));
      if !Forgets(a, b, c) {
        VerdictsAlikeIff(Counted(s, c), Counted(b, c), rest);
      }
    }
  }

  lemma SameHeadAndTail(x: Verdict, xs: seq<Verdict>, y: Verdict, ys: seq<Verdict>)
    ensures [x] + xs == [y] + ys <==> x == y && xs == ys
  {
    if [x] + xs == [y] + ys {
      assert ([x] + xs)[0] == x && ([y] + ys)[0] == y;
      assert ([x] + xs)[1..] == xs && ([y] + ys)[1..] == ys;
    }
  }

  /**
   * For every sequence of checks, cleanups at arbitrary moments and arbitrary clocks: the verdicts are
   * those of a limiter that never cleans up if and only if no check finds that its own entry, which would
   * still be valid, was removed by a cleanup, be it its own or an earlier one.
   */
  lemma CleanupChangesNoVerdictIff(cs: seq<Check>)
    ensures Verdicts(map[], cs) == Verdicts(map[], NoSweeps(cs)) <==> NoneForgotten(map[], map[], cs)
  {
    VerdictsAlikeIff(map[], map[], cs);
  }

  lemma {:induction false} InTimeForgetsNone(a: map<string, Bucket>, b: map<string, Bucket>, cs: seq<Check>, now: int)
    requires AlikeFrom(a, b, now) && Ticking(cs) && SweepsInTime(cs)
    requires cs != [] ==> now <= cs[0].now
    ensures NoneForgotten(a, b, cs)
    decreases |cs|
  {
    if cs != [] {
      var c, rest := cs[0], cs[1..];
      SweptAlike(a, b, c, now);
      CheckedAlike(Prepared(a, c), b, c);
      assert Ticking(rest) && SweepsInTime(rest) by {
        assert forall i | 0 <= i < |rest| :: rest[i] == cs[i + 1];
      }
      InTimeForgetsNone(Counted(Prepared(a, c), c), Counted(b, c), rest, c.now);
    }
  }

  /** That is so for every non-decreasing clock, as long as no cleanup's own clock runs ahead of its check's. */
  lemma CleanupChangesNoVerdict(cs: seq<Check>)
    requires Ticking(cs) && SweepsInTime(cs)
    ensures Verdicts(map[], cs) == Verdicts(map[], NoSweeps(cs))
  {
    if cs != [] {
      InTimeForgetsNone(map[], map[], cs, cs[0].now);
    }
    CleanupChangesNoVerdictIff(cs);
  }

  /**
   * A single cleanup changes the answer of its own check exactly when the check's entry is still valid
   * for the check and already expired for the cleanup, so that its count is forgotten.
   */
  lemma CleanupShowsIff(store: map<string, Bucket>, c: Check, sweep: int)
    requires c.key in store && store[c.key].count >= 1
    ensures Answer(Swept(store, sweep), c) != Answer(store, c) <==> c.now < store[c.key].resetAt <= sweep
  {
  }

  /** The cleanup reads its clock after the check did: here a second one is let in where one is allowed. */
  lemma LateSweepAdmits()
    ensures var cs := [Check("k", 1, 10, 0, None), Check("k", 1, 10, 9, Some(10))];
            && Ticking(cs) && Verdicts(map[], cs)[1].success && !Verdicts(map[], NoSweeps(cs))[1].success
  {
    var a, b := Check("k", 1, 10, 0, None), Check("k", 1, 10, 9, Some(10));
    var s := Counted(map[], a);
    assert s == map["k" := Bucket(1, 10)];
    assert Swept(s, 10) == map[];
    assert [a, b][1..] == [b];
    assert Verdicts(s, [b])[0] == Answer(Swept(s, 10), b);
    assert NoSweeps([a, b]) == [a, b.(sweep := None)];
    assert [a, b.(sweep := None)][1..] == [b.(sweep := None)];
    assert Verdicts(s, [b.(sweep := None)])[0] == Answer(s, b);
  }

  /**
   * It need not be the sweeping check that shows it: here the cleanup of "a" removes the entry of "b", and
   * a later check of "b", at a time at which its window is still open, is let in.
   */
  lemma LateSweepForgetsOthers()
    ensures var cs := [Check("b", 1, 10, 0, None), Check("a", 1, 10, 9, Some(10)), Check("b", 1, 10, 9, None)];
            && Ticking(cs) && Verdicts(map[], cs)[1] == Verdicts(map[], NoSweeps(cs))[1]
            && Verdicts(map[], cs)[2].success && !Verdicts(map[], NoSweeps(cs))[2].success
  {
    var x, y, z := Check("b", 1, 10, 0, None), Check("a", 1, 10, 9, Some(10)), Check("b", 1, 10, 9, None);
    var y0 := y.(sweep := None);
    var s1 := Counted(map[], x);
    assert s1 == map["b" := Bucket(1, 10)] && Swept(s1, 10) == map[];
    assert [x, y, z][1..] == [y, z] && [y, z][1..] == [z] && [x, y0, z][1..] == [y0, z] && [y0, z][1..] == [z];
    assert NoSweeps([x, y, z]) == [x, y0, z];
    var swept, kept := Counted(map[], y), Counted(s1, y0);
    assert Verdicts(s1, [y, z]) == [Answer(map[], y)] + Verdicts(swept, [z]);
    assert Verdicts(s1, [y0, z]) == [Answer(s1, y0)] + Verdicts(kept, [z]);
    assert Verdicts(swept, [z])[0] == Answer(swept, z) && Verdicts(kept, [z])[0] == Answer(kept, z);
  }

  // ---------------------------------------------------------------------------
  // The limit
  // ---------------------------------------------------------------------------

  /** Successes of `key` until its window ends, counted along a run of the limiter. */
  function Successes(store: map<string, Bucket>, cs: seq<Check>, key: string): nat
    decreases |cs|
  {
    if cs == [] then 0
    else
      var s := Prepared(store, cs[0]);
      if cs[0].key == key && Stale(s, key, cs[0].now) then 0   // here the next window opens
      else
        (if cs[0].key == key && Answer(s, cs[0]).success then 1 else 0) + Successes(Counted(s, cs[0]), cs[1..], key)
  }

  lemma {:induction false} SuccessesBound(store: map<string, Bucket>, cs: seq<Check>, key: string, max: int)
    requires key in store && forall i | 0 <= i < |cs| && cs[i].key == key :: cs[i].maxRequests == max
    ensures Successes(store, cs, key) <= Max(0, max - store[key].count)
    decreases |cs|
  {
    if cs != [] {
      var s := Prepared(store, cs[0]);
      if key in s {
        SuccessesBound(Counted(s, cs[0]), cs[1..], key, max);
      } else if cs[0].key != key {
        NothingStored(Counted(s, cs[0]), cs[1..], key);
      }
    }
  }

  lemma {:induction false} NothingStored(store: map<string, Bucket>, cs: seq<Check>, key: string)
    requires key !in store
    ensures Successes(store, cs, key) == 0
    decreases |cs|
  {
    if cs != [] {
      var s := Prepared(store, cs[0]);
      if cs[0].key != key {
        NothingStored(Counted(s, cs[0]), cs[1..], key);
      }
    }
  }

  /**
   * From the check that opens a window until the next one opens, at most the maximum succeeds; the
   * opening check itself always does, even with a maximum of zero.
   */
  lemma WindowBound(store: map<string, Bucket>, c: Check, cs: seq<Check>)
    requires Stale(Prepared(store, c), c.key, c.now)
    requires forall i | 0 <= i < |cs| && cs[i].key == c.key :: cs[i].maxRequests == c.maxRequests
    ensures 1 + Successes(Counted(Prepared(store, c), c), cs, c.key) <= Max(1, c.maxRequests)
  {
    SuccessesBound(Counted(Prepared(store, c), c), cs, c.key, c.maxRequests);
  }
}

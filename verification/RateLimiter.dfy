/** The gateway's fixed-window rate limiter: a counter per key that the first request of a window
    creates with an expiry, and that every further request increments. */
module RateLimiter {
  import opened Options

  datatype Counter = Counter(count: nat, expiresAt: int)

  /** The counter after one more request. An expired counter is gone, so the request opens a window. */
  function Hit(counter: Option<Counter>, window: int, now: int): Counter {
    if counter.None? || counter.value.expiresAt <= now then
      Counter(1, now + window)
    else
      counter.value.(count := counter.value.count + 1)
  }

  /** The counters of one limiter, and the script that its method runs on the store. */
  class Limiter {
    var counters: map<string, Counter>
    const window: int

    constructor (window: int)
      ensures counters == map[] && this.window == window
    {
      this.window := window;
      counters := map[];
    }

    function Lookup(key: string): Option<Counter>
      reads this
    {
      if key in counters then Some(counters[key]) else None
    }

    method IsAllowed(key: string, limit: int, now: int) returns (allowed: bool)
      modifies this`counters
      ensures counters == old(counters)[key := Hit(old(Lookup(key)), window, now)]
      ensures allowed <==> counters[key].count <= limit
    {
      if key in counters && counters[key].expiresAt <= now {
        counters := counters - {key};
      }
      var current := 1;
      if key in counters {
        current := counters[key].count + 1;
        counters := counters[key := counters[key].(count := current)];
      } else {
        counters := counters[key := Counter(current, now + window)];
      }
      allowed := current <= limit;
    }
  }

  /* ---------- Runs of requests for one key ---------- */

  predicate NonDecreasing(times: seq<int>) {
    forall i, j :: 0 <= i < j < |times| ==> times[i] <= times[j]
  }

  function CounterAfter(counter: Option<Counter>, window: int, times: seq<int>): Option<Counter>
    decreases |times|
  {
    if times == [] then
      counter
    else
      CounterAfter(Some(Hit(counter, window, times[0])), window, times[1..])
  }

  /** How many requests are admitted at times in [lo, hi). */
  function Admitted(counter: Option<Counter>, window: int, limit: int, times: seq<int>, lo: int, hi: int): nat
    decreases |times|
  {
    if times == [] then
      0
    else
      var next := Hit(counter, window, times[0]);
      (if lo <= times[0] < hi && next.count <= limit then 1 else 0)
      + Admitted(Some(next), window, limit, times[1..], lo, hi)
  }

  lemma CounterAfterLast(counter: Option<Counter>, window: int, times: seq<int>)
    requires times != []
    ensures CounterAfter(counter, window, times)
         == Some(Hit(CounterAfter(counter, window, times[..|times| - 1]), window, times[|times| - 1]))
    decreases |times|
  {
    if |times| > 1 {
      assert times[1..][..|times| - 2] == times[..|times| - 1][1..];
      CounterAfterLast(Some(Hit(counter, window, times[0])), window, times[1..]);
    }
  }

  /** The k-th request of a window finds the count k, so a window admits exactly its first `limit`
      requests; the first request after its expiry opens the next window. */
  lemma {:induction false} WindowAdmitsFirst(counter: Option<Counter>, window: int, limit: int, times: seq<int>, k: nat)
    requires k < |times| && NonDecreasing(times)
    requires counter.Some? ==> counter.value.expiresAt <= times[0]
    requires k > 0 ==> times[k - 1] < times[0] + window
    ensures var found := CounterAfter(counter, window, times[..k]);
            if k == 0 || times[k] >= times[0] + window then
              Hit(found, window, times[k]) == Counter(1, times[k] + window)
            else
              && Hit(found, window, times[k]) == Counter(k + 1, times[0] + window)
              && (Hit(found, window, times[k]).count <= limit <==> k < limit)
    decreases k
  {
    if k > 0 {
      WindowAdmitsFirst(counter, window, limit, times, k - 1);
      CounterAfterLast(counter, window, times[..k]);
      assert times[..k][..k - 1] == times[..k - 1];
    }
  }

  lemma NoneAdmittedAfter(counter: Option<Counter>, window: int, limit: int, times: seq<int>, lo: int, hi: int)
    requires forall i :: 0 <= i < |times| ==> times[i] >= hi
    ensures Admitted(counter, window, limit, times, lo, hi) == 0
    decreases |times|
  {
    if times != [] {
      NoneAdmittedAfter(Some(Hit(counter, window, times[0])), window, limit, times[1..], lo, hi);
    }
  }

  /** Up to one window past the expiry: what the current window has left, and one more window. */
  lemma {:induction false} AdmittedWithinTwoWindows(
      counter: Counter, window: int, limit: int, times: seq<int>, lo: int, hi: int)
    requires NonDecreasing(times) && hi <= counter.expiresAt + window
    ensures Admitted(Some(counter), window, limit, times, lo, hi)
         <= Max(limit - counter.count, 0) + if hi <= counter.expiresAt then 0 else Max(limit, 0)
    decreases |times|
  {
    if times != [] {
      if times[0] >= hi {
        NoneAdmittedAfter(Some(counter), window, limit, times, lo, hi);
      } else {
        AdmittedWithinTwoWindows(Hit(Some(counter), window, times[0]), window, limit, times[1..], lo, hi);
      }
    }
  }

  /** Any interval as long as a window admits fewer than twice the limit: it can meet two windows,
      but then it misses the request that first the first one. */
  lemma {:induction false} SlidingBound(counter: Option<Counter>, window: int, limit: int, times: seq<int>, lo: int)
    requires NonDecreasing(times)
    requires counter.Some? ==> counter.value.count >= 1
    ensures Admitted(counter, window, limit, times, lo, lo + window) <= Max(2 * limit - 1, 0)
    decreases |times|
  {
    if times != [] {
      var next := Hit(counter, window, times[0]);
      if times[0] < lo {
        SlidingBound(Some(next), window, limit, times[1..], lo);
      } else if times[0] >= lo + window {
        NoneAdmittedAfter(counter, window, limit, times, lo, lo + window);
      } else if counter.Some? && counter.value.expiresAt > times[0] {
        AdmittedWithinTwoWindows(counter.value, window, limit, times, lo, lo + window);
      } else {
        AdmittedWithinTwoWindows(next, window, limit, times[1..], lo, lo + window);
      }
    }
  }

  lemma AdmittedSplits(counter: Option<Counter>, window: int, limit: int, first: seq<int>, second: seq<int>, lo: int,
                       hi: int)
    ensures Admitted(counter, window, limit, first + second, lo, hi)
         == Admitted(counter, window, limit, first, lo, hi)
            + Admitted(CounterAfter(counter, window, first), window, limit, second, lo, hi)
    decreases |first|
  {
    if first == [] {
      assert first + second == second;
    } else {
      assert (first + second)[1..] == first[1..] + second;
      AdmittedSplits(Some(Hit(counter, window, first[0])), window, limit, first[1..], second, lo, hi);
    }
  }

  /** m requests at the instant t. */
  function Burst(m: nat, t: int): seq<int> {
    seq(m, _ => t)
  }

  lemma {:induction false} BurstAdmits(counter: Counter, window: int, limit: int, m: nat, t: int, lo: int, hi: int)
    requires t < counter.expiresAt && lo <= t < hi
    ensures Admitted(Some(counter), window, limit, Burst(m, t), lo, hi) == Min(m, Max(limit - counter.count, 0))
    ensures CounterAfter(Some(counter), window, Burst(m, t)) == Some(counter.(count := counter.count + m))
    decreases m
  {
    if m > 0 {
      assert Burst(m, t)[1..] == Burst(m - 1, t);
      BurstAdmits(counter.(count := counter.count + 1), window, limit, m - 1, t, lo, hi);
    }
  }

  /** A burst that opens its own window is admitted up to the limit. */
  lemma OpeningBurstAdmits(before: Counter, window: int, limit: nat, t: int, lo: int, hi: int)
    requires window >= 1 && limit >= 1 && before.expiresAt <= t && lo <= t < hi
    ensures Admitted(Some(before), window, limit, Burst(limit, t), lo, hi) == limit
  {
    assert Burst(limit, t)[1..] == Burst(limit - 1, t);
    BurstAdmits(Counter(1, t + window), window, limit, limit - 1, t, lo, hi);
  }

  /** The bound is attained for every limit: one request, then the rest of the limit just before the
      window ends, then a full burst when it has ended. */
  lemma SlidingBoundIsTight(window: int, limit: nat)
    requires window >= 2 && limit >= 1
    ensures var times := [0] + (Burst(limit - 1, window - 1) + Burst(limit, window));
            NonDecreasing(times) && Admitted(None, window, limit, times, 1, 1 + window) == 2 * limit - 1
  {
    var early, late := Burst(limit - 1, window - 1), Burst(limit, window);
    var times, first := [0] + (early + late), Counter(1, window);
    assert times[1..] == early + late;
    AdmittedSplits(Some(first), window, limit, early, late, 1, 1 + window);
    BurstAdmits(first, window, limit, limit - 1, window - 1, 1, 1 + window);
    OpeningBurstAdmits(Counter(limit, window), window, limit, window, 1, 1 + window);
  }
}

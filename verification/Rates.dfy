// The new-connection rate limiter: one fixed window per key, and what it
// guarantees about sliding windows.

module Rates {

  // Times are nanoseconds on one clock.
  type Time = int

  datatype Rate = Rate(lastReset: Time, count: nat)

  type Index = map<string, Rate>

  // One attempt for a key: the index after it, and whether it passes.
  function CheckCPS(index: Index, key: string, limit: int, window: int, now: Time): (Index, bool) {
    if key !in index then (index[key := Rate(now, 1)], true)
    else if now - index[key].lastReset >= window then (index[key := Rate(now, 1)], true)
    else if index[key].count >= limit then (index, false)
    else (index[key := index[key].(count := index[key].count + 1)], true)
  }

  // The periodic clean-up of counters idle for more than two windows.
  function Sweep(index: Index, window: int, now: Time): Index {
    map k | k in index && now - index[k].lastReset <= window * 2 :: index[k]
  }

  datatype Event =
    | Attempt(key: string, now: Time)
    | Clean(now: Time)

  function Step(index: Index, limit: int, window: int, e: Event): Index {
    match e
    case Attempt(key, now) => CheckCPS(index, key, limit, window, now).0
    case Clean(now) => Sweep(index, window, now)
  }

  // Times never go backwards, starting from t.
  ghost predicate Nondecreasing(run: seq<Event>, t: Time) {
    run == [] || (t <= run[0].now && Nondecreasing(run[1..], run[0].now))
  }

  // 1 when the event is an attempt for the key that passes at a time in [lo, hi].
  function Admitted(index: Index, limit: int, window: int, key: string, lo: Time, hi: Time, e: Event): nat {
    if e.Attempt? && e.key == key && lo <= e.now <= hi && CheckCPS(index, key, limit, window, e.now).1 then 1 else 0
  }

  // How many attempts for the key pass with a time in [lo, hi].
  function Passes(index: Index, run: seq<Event>, limit: int, window: int, key: string, lo: Time, hi: Time): nat
    decreases run
  {
    if run == [] then 0
    else
      Admitted(index, limit, window, key, lo, hi, run[0])
      + Passes(Step(index, limit, window, run[0]), run[1..], limit, window, key, lo, hi)
  }

  // What the key's counter still admits in [lo, lo + window], whatever follows.
  function Allowance(index: Index, limit: nat, window: nat, key: string, lo: Time): int {
    if key !in index || index[key].lastReset + window <= lo then 2 * limit
    else if lo < index[key].lastReset then limit - index[key].count
    else 2 * limit - index[key].count
  }

  ghost predicate Sound(index: Index, limit: nat, t: Time) {
    forall k :: k in index ==> 1 <= index[k].count <= limit && index[k].lastReset <= t
  }

  lemma {:induction false} NoneAfter(index: Index, run: seq<Event>, limit: int, window: int, key: string, lo: Time,
                                     hi: Time, t: Time)
    requires Nondecreasing(run, t) && t > hi
    ensures Passes(index, run, limit, window, key, lo, hi) == 0
    decreases run
  {
    if run != [] {
      NoneAfter(Step(index, limit, window, run[0]), run[1..], limit, window, key, lo, hi, run[0].now);
    }
  }

  // One event uses up at least as much allowance as it admits.
  lemma AllowanceStep(index: Index, limit: nat, window: nat, key: string, lo: Time, e: Event, t: Time)
    requires limit >= 1 && window >= 1 && Sound(index, limit, t) && t <= e.now <= lo + window
    ensures Sound(Step(index, limit, window, e), limit, e.now)
    ensures Admitted(index, limit, window, key, lo, lo + window, e)
          + Allowance(Step(index, limit, window, e), limit, window, key, lo) <= Allowance(index, limit, window, key, lo)
  {
  }

  lemma {:induction false} PassesWithinAllowance(index: Index, run: seq<Event>, limit: nat, window: nat, key: string,
                                                 lo: Time, t: Time)
    requires limit >= 1 && window >= 1 && Nondecreasing(run, t) && Sound(index, limit, t)
    ensures Passes(index, run, limit, window, key, lo, lo + window) <= Allowance(index, limit, window, key, lo)
    decreases run
  {
    if run == [] {
    } else {
      var e := run[0];
      var next := Step(index, limit, window, e);
      if e.now > lo + window {
        NoneAfter(next, run[1..], limit, window, key, lo, lo + window, e.now);
      } else {
        AllowanceStep(index, limit, window, key, lo, e, t);
        PassesWithinAllowance(next, run[1..], limit, window, key, lo, e.now);
      }
    }
  }

  // Main bound: in any run with nondecreasing times, clean-ups included, every
  // closed interval as long as the window holds at most 2 * limit passes for a key.
  lemma SlidingWindowBound(run: seq<Event>, limit: nat, window: nat, key: string, lo: Time, t: Time)
    requires limit >= 1 && window >= 1 && Nondecreasing(run, t)
    ensures Passes(map[], run, limit, window, key, lo, lo + window) <= 2 * limit
  {
    PassesWithinAllowance(map[], run, limit, window, key, lo, t);
  }

  // ---- Nobody is refused early ----

  function After(index: Index, run: seq<Event>, limit: int, window: int): Index
    decreases run
  {
    if run == [] then index else After(Step(index, limit, window, run[0]), run[1..], limit, window)
  }

  ghost predicate Until(run: seq<Event>, now: Time) {
    forall i :: 0 <= i < |run| ==> run[i].now <= now
  }

  // What a counter holds for the window that starts at lo.
  function CountFrom(index: Index, key: string, lo: Time): nat {
    if key in index && index[key].lastReset == lo then index[key].count else 0
  }

  ghost predicate Dated(index: Index, t: Time) {
    forall k :: k in index ==> index[k].lastReset <= t
  }

  lemma CountStep(index: Index, limit: int, window: int, key: string, e: Event, t: Time, lo: Time, now: Time)
    requires Dated(index, t) && t <= e.now <= now
    ensures Dated(Step(index, limit, window, e), e.now)
    ensures CountFrom(Step(index, limit, window, e), key, lo)
         <= CountFrom(index, key, lo) + Admitted(index, limit, window, key, lo, now, e)
  {
  }

  // A counter never holds more than the passes since its window started.
  lemma {:induction false} CountIsPasses(index: Index, run: seq<Event>, limit: int, window: int, key: string,
                                         t: Time, lo: Time, now: Time)
    requires Dated(index, t) && Nondecreasing(run, t) && Until(run, now)
    ensures CountFrom(After(index, run, limit, window), key, lo)
         <= CountFrom(index, key, lo) + Passes(index, run, limit, window, key, lo, now)
    decreases run
  {
    hide CountFrom, Step, Dated, Admitted;
    if run != [] {
      assert run[0].now <= now;
      CountStep(index, limit, window, key, run[0], t, lo, now);
      CountIsPasses(Step(index, limit, window, run[0]), run[1..], limit, window, key, run[0].now, lo, now);
    }
  }

  lemma {:induction false} WiderHoldsMore(index: Index, run: seq<Event>, limit: int, window: int, key: string,
                                          lo: Time, earlier: Time, now: Time)
    requires earlier <= lo
    ensures Passes(index, run, limit, window, key, lo, now) <= Passes(index, run, limit, window, key, earlier, now)
    decreases run
  {
    hide Step, CheckCPS;
    if run != [] {
      WiderHoldsMore(Step(index, limit, window, run[0]), run[1..], limit, window, key, lo, earlier, now);
    }
  }

  // The converse of the bound: in any run with nondecreasing times, an attempt is
  // refused only if limit attempts for its key passed less than a window before.
  lemma RefusedOnlyWhenFull(run: seq<Event>, limit: int, window: int, key: string, t: Time, now: Time)
    requires Nondecreasing(run, t) && Until(run, now)
    requires !CheckCPS(After(map[], run, limit, window), key, limit, window, now).1
    ensures Passes(map[], run, limit, window, key, now - window + 1, now) >= limit
  {
    var start := After(map[], run, limit, window)[key].lastReset;
    CountIsPasses(map[], run, limit, window, key, t, start, now);
    WiderHoldsMore(map[], run, limit, window, key, start, now - window + 1, now);
  }

  // An attempt a whole window after the last pass is never refused.
  lemma IdleKeyPasses(run: seq<Event>, limit: int, window: int, key: string, t: Time, now: Time)
    requires Nondecreasing(run, t) && Until(run, now) && limit >= 1
    requires Passes(map[], run, limit, window, key, now - window + 1, now) == 0
    ensures CheckCPS(After(map[], run, limit, window), key, limit, window, now).1
  {
    if !CheckCPS(After(map[], run, limit, window), key, limit, window, now).1 {
      RefusedOnlyWhenFull(run, limit, window, key, t, now);
    }
  }

  // The clean-up leaves no counter behind that is idle for more than two windows, and
  // drops no other.
  lemma SweepExact(index: Index, window: nat, now: Time, key: string)
    ensures key in Sweep(index, window, now) <==> key in index && index[key].lastReset >= now - 2 * window
    ensures key in Sweep(index, window, now) ==> Sweep(index, window, now)[key] == index[key]
  {
  }

  function Repeat(n: nat, e: Event): seq<Event> {
    if n == 0 then [] else [e] + Repeat(n - 1, e)
  }

  lemma {:induction false} BurstPasses(index: Index, n: nat, rest: seq<Event>, limit: nat, window: nat, key: string,
                                       at: Time, hi: Time)
    requires window >= 1 && 0 <= at <= hi
    requires key in index && index[key].lastReset == at && index[key].count + n == limit
    ensures Passes(index, Repeat(n, Attempt(key, at)) + rest, limit, window, key, 0, hi)
         == n + Passes(index[key := Rate(at, limit)], rest, limit, window, key, 0, hi)
  {
    var run := Repeat(n, Attempt(key, at)) + rest;
    if n == 0 {
      assert run == rest;
      assert index[key := Rate(at, limit)] == index;
    } else {
      assert run[0] == Attempt(key, at);
      assert run[1..] == Repeat(n - 1, Attempt(key, at)) + rest;
      var next := Step(index, limit, window, run[0]);
      BurstPasses(next, n - 1, rest, limit, window, key, at, hi);
      assert next[key := Rate(at, limit)] == index[key := Rate(at, limit)];
    }
  }

  // Two bursts, one window apart.
  function DoubleBurst(limit: nat, window: nat, key: string): seq<Event>
    requires limit >= 1
  {
    [Attempt(key, 0)] + (Repeat(limit - 1, Attempt(key, 0))
    + ([Attempt(key, window)] + (Repeat(limit - 1, Attempt(key, window)) + [])))
  }

  lemma {:induction false} RepeatNondecreasing(n: nat, e: Event, rest: seq<Event>, t: Time)
    requires t <= e.now && Nondecreasing(rest, e.now)
    ensures Nondecreasing(Repeat(n, e) + rest, t)
  {
    var run := Repeat(n, e) + rest;
    if n == 0 {
      assert run == rest;
    } else {
      assert run[0] == e && run[1..] == Repeat(n - 1, e) + rest;
      RepeatNondecreasing(n - 1, e, rest, e.now);
    }
  }

  // The bound is exact: for every limit there is a run that reaches it.
  lemma SlidingWindowBoundIsTight(limit: nat, window: nat, key: string)
    requires limit >= 1 && window >= 1
    ensures Nondecreasing(DoubleBurst(limit, window, key), 0)
    ensures Passes(map[], DoubleBurst(limit, window, key), limit, window, key, 0, window) == 2 * limit
  {
    var last := Repeat(limit - 1, Attempt(key, window)) + [];
    var second := [Attempt(key, window)] + last;
    var first := Repeat(limit - 1, Attempt(key, 0)) + second;
    var run := DoubleBurst(limit, window, key);
    assert run[0] == Attempt(key, 0) && run[1..] == first;
    assert second[0] == Attempt(key, window) && second[1..] == last;
    RepeatNondecreasing(limit - 1, Attempt(key, window), [], window);
    assert Nondecreasing(second, 0);
    RepeatNondecreasing(limit - 1, Attempt(key, 0), second, 0);
    var i1 := map[key := Rate(0, 1)];
    BurstPasses(i1, limit - 1, second, limit, window, key, 0, window);
    var full := i1[key := Rate(0, limit)];
    var i2 := full[key := Rate(window, 1)];
    assert Step(full, limit, window, second[0]) == i2;
    BurstPasses(i2, limit - 1, [], limit, window, key, window, window);
  }

  // Swept and unswept agree up to counters the clean-up may drop.
  ghost predicate SameButStale(swept: Index, full: Index, window: int, t: Time) {
    && (forall k :: k in swept ==> k in full && swept[k] == full[k])
    && (forall k :: k in full && k !in swept ==> t - full[k].lastReset > window * 2)
  }

  lemma SweepIsInvisible(swept: Index, full: Index, window: nat, t: Time, now: Time)
    requires SameButStale(swept, full, window, t) && t <= now
    ensures SameButStale(Sweep(swept, window, now), full, window, now)
  {
  }

  lemma SameDecision(swept: Index, full: Index, key: string, limit: int, window: nat, t: Time, now: Time)
    requires SameButStale(swept, full, window, t) && t <= now
    ensures CheckCPS(swept, key, limit, window, now).1 == CheckCPS(full, key, limit, window, now).1
    ensures SameButStale(CheckCPS(swept, key, limit, window, now).0, CheckCPS(full, key, limit, window, now).0,
                         window, now)
  {
  }
}

/**
 How often a crashing server can be restarted: an arithmetic bound on the recorded crashes in any interval
 of one window, from the pace that Record, Backoff and the controller's sleep impose together.
 */
module RestartRate {
  import opened CrashDetector

  /** One pass through handleUnexpectedExit that recorded a crash: the timestamp Record took, and the
      clock reading with which Backoff decided. */
  datatype Visit = Visit(at: int, asked: int)

  function Times(log: seq<Visit>): seq<int> { seq(|log|, i requires 0 <= i < |log| => log[i].at) }

  /** Backoff found a crash loop on visit i. */
  predicate Looping(log: seq<Visit>, i: nat, window: int, threshold: int)
    requires i < |log|
  {
    |After(Times(log[..i + 1]), log[i].asked - window)| >= threshold
  }

  /** The earliest clock reading at which visit i lets the main loop go on. */
  function ReadyAt(log: seq<Visit>, i: nat, window: int, threshold: int, backoff: int): int
    requires i < |log|
  {
    log[i].asked + (if Looping(log, i, window, threshold) then backoff else 0)
  }

  ghost predicate Paced(log: seq<Visit>, window: int, threshold: int, backoff: int)
  {
    && (forall i :: 0 <= i < |log| ==> log[i].at <= log[i].asked)
    && (forall i :: 0 <= i < |log| - 1 ==> ReadyAt(log, i, window, threshold, backoff) <= log[i + 1].at)
  }

  /** How many of the times lie in the half-open interval from `lo` to `hi`. */
  function CountIn(times: seq<int>, lo: int, hi: int): nat
  {
    if times == [] then 0
    else CountIn(times[..|times| - 1], lo, hi) + (if lo <= times[|times| - 1] < hi then 1 else 0)
  }

  function CeilDiv(a: int, b: int): int
    requires b > 0
  {
    (a + b - 1) / b
  }

  function Bound(window: int, threshold: int, backoff: int): int
    requires backoff > 0
  {
    threshold + CeilDiv(window, backoff) - 1
  }

  /** A visit no earlier than the last one allows keeps the pace. */
  lemma PacedExtend(log: seq<Visit>, v: Visit, window: int, threshold: int, backoff: int)
    requires v.at <= v.asked
    ensures Times(log + [v]) == Times(log) + [v.at]
    ensures Looping(log + [v], |log|, window, threshold) <==> |After(Times(log) + [v.at], v.asked - window)| >= threshold
    ensures Paced(log, window, threshold, backoff) && (log != [] ==> ReadyAt(log, |log| - 1, window, threshold, backoff) <= v.at)
      ==> Paced(log + [v], window, threshold, backoff)
  {
    var more := log + [v];
    assert more[..|log| + 1] == more;
    assert Times(more) == Times(log) + [v.at];
    forall i | 0 <= i < |log|
      ensures ReadyAt(more, i, window, threshold, backoff) == ReadyAt(log, i, window, threshold, backoff)
    {
      assert more[..i + 1] == log[..i + 1];
    }
  }

  // ---------------------------------------------------------------- order

  lemma {:induction false} PacedSorted(log: seq<Visit>, window: int, threshold: int, backoff: int, i: nat, j: nat)
    requires Paced(log, window, threshold, backoff) && backoff >= 0 && i < j < |log|
    ensures log[i].asked <= log[j].at
    decreases j
  {
    if i < j - 1 {
      PacedSorted(log, window, threshold, backoff, i, j - 1);
    }
    assert ReadyAt(log, j - 1, window, threshold, backoff) <= log[j].at;
  }

  lemma {:induction false} CountRange(times: seq<int>, lo: int, hi: int, a: nat, e: nat)
    requires a <= e <= |times|
    requires forall i :: 0 <= i < a ==> times[i] < lo
    requires forall i :: a <= i < e ==> lo <= times[i] < hi
    requires forall i :: e <= i < |times| ==> hi <= times[i]
    requires lo <= hi
    ensures CountIn(times, lo, hi) == e - a
  {
    if times != [] {
      var n := |times| - 1;
      var e' := if e <= n then e else n;
      CountRange(times[..n], lo, hi, if a <= e' then a else e', e');
    }
  }

  /** The first index whose time is at least `bound`. */
  lemma {:induction false} Split(times: seq<int>, bound: int) returns (k: nat)
    requires forall i, j :: 0 <= i < j < |times| ==> times[i] <= times[j]
    ensures k <= |times|
    ensures forall i :: 0 <= i < k ==> times[i] < bound
    ensures forall i :: k <= i < |times| ==> bound <= times[i]
  {
    if times == [] || times[|times| - 1] < bound {
      k := |times|;
    } else {
      k := Split(times[..|times| - 1], bound);
    }
  }

  lemma {:induction false} AfterSuffix(times: seq<int>, cutoff: int, a: nat)
    requires a <= |times| && forall i :: a <= i < |times| ==> cutoff < times[i]
    ensures |After(times, cutoff)| >= |times| - a
  {
    if a < |times| {
      AfterSuffix(times[..|times| - 1], cutoff, a);
    }
  }

  // ---------------------------------------------------------------- the bound

  /** Inside one window, every visit from the threshold-th on that is followed by another found a loop. */
  lemma LoopsInside(log: seq<Visit>, window: int, threshold: int, backoff: int, x: int, a: nat, i: nat)
    requires Paced(log, window, threshold, backoff) && threshold >= 1 && backoff >= 0
    requires a + threshold - 1 <= i && i + 1 < |log|
    requires forall k :: a <= k <= i + 1 ==> x <= log[k].at < x + window
    ensures log[i].at + backoff <= log[i + 1].at
  {
    assert ReadyAt(log, i, window, threshold, backoff) <= log[i + 1].at;
    var times := Times(log[..i + 1]);
    AfterSuffix(times, log[i].asked - window, a);
    assert Looping(log, i, window, threshold);
  }

  /** So those visits are at least one backoff apart. */
  lemma {:induction false} Spread(log: seq<Visit>, window: int, threshold: int, backoff: int, x: int, a: nat, i: nat)
    requires Paced(log, window, threshold, backoff) && threshold >= 1 && backoff >= 0
    requires a + threshold - 1 <= i < |log|
    requires forall k :: a <= k <= i ==> x <= log[k].at < x + window
    ensures x + (i - (a + threshold - 1)) * backoff <= log[i].at
    decreases i
  {
    var first := a + threshold - 1;
    if i > first {
      Spread(log, window, threshold, backoff, x, a, i - 1);
      LoopsInside(log, window, threshold, backoff, x, a, i - 1);
      assert (i - first) * backoff == (i - 1 - first) * backoff + backoff;
    }
  }

  lemma FewMultiples(n: int, backoff: int, window: int)
    requires backoff > 0 && n * backoff < window
    ensures n <= CeilDiv(window, backoff) - 1
  {
    var q := CeilDiv(window, backoff);
    assert q * backoff + (window + backoff - 1) % backoff == window + backoff - 1;
    assert n >= q ==> n * backoff >= q * backoff;
  }

  /** Between two Resets, any half-open interval as long as the window holds at most
      threshold + ceil(window/backoff) - 1 recorded crashes. */
  lemma RestartRateBound(log: seq<Visit>, window: int, threshold: int, backoff: int, x: int)
    requires Paced(log, window, threshold, backoff) && window > 0 && threshold >= 1 && backoff > 0
    ensures CountIn(Times(log), x, x + window) <= Bound(window, threshold, backoff)
  {
    var times := Times(log);
    forall i, j | 0 <= i < j < |times|
      ensures times[i] <= times[j]
    {
      PacedSorted(log, window, threshold, backoff, i, j);
    }
    var a := Split(times, x);
    var e := Split(times, x + window);
    assert e < |times| ==> x + window <= times[e];
    CountRange(times, x, x + window, a, e);
    if e - a >= threshold {
      forall k | a <= k <= e - 1
        ensures x <= log[k].at < x + window
      {
        assert times[k] == log[k].at;
      }
      Spread(log, window, threshold, backoff, x, a, e - 1);
      FewMultiples(e - a - threshold, backoff, window);
    } else {
      FewMultiples(0, backoff, window);
    }
  }

  /** With the defaults the bound is six crashes in ten seconds, and a paced log attains it. */
  lemma DefaultBoundIsTight() returns (log: seq<Visit>)
    ensures Bound(DEFAULT_WINDOW, DEFAULT_THRESHOLD, DEFAULT_BACKOFF) == 6
    ensures Paced(log, DEFAULT_WINDOW, DEFAULT_THRESHOLD, DEFAULT_BACKOFF)
    ensures CountIn(Times(log), 0, DEFAULT_WINDOW) == 6
  {
    log := [Visit(0, 0), Visit(0, 0), Visit(0, 0), Visit(3 * SECOND, 3 * SECOND), Visit(6 * SECOND, 6 * SECOND), Visit(9 * SECOND, 9 * SECOND)];
    CountRange(Times(log), 0, DEFAULT_WINDOW, 0, 6);
    forall i | 0 <= i < |log| - 1
      ensures ReadyAt(log, i, DEFAULT_WINDOW, DEFAULT_THRESHOLD, DEFAULT_BACKOFF) <= log[i + 1].at
    {
      if i < 2 {
        AfterLength(Times(log[..i + 1]), log[i].asked - DEFAULT_WINDOW);
      }
    }
  }
}

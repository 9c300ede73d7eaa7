/**
 The crash-loop detector: a sliding window compacted in place over the slice's own backing array, and the
 restart rate that window and backoff together enforce.
 */
module CrashDetector {
  // Durations in nanoseconds, as time.Duration counts them.
  const SECOND := 1_000_000_000
  const DEFAULT_WINDOW := 10 * SECOND
  const DEFAULT_THRESHOLD := 3
  const DEFAULT_BACKOFF := 3 * SECOND

  // ---------------------------------------------------------------- the window as a function of the history

  /** The times after `cutoff`, in order. */
  function After(times: seq<int>, cutoff: int): seq<int>
  {
    if times == [] then [] else
    var earlier := After(times[..|times| - 1], cutoff);
    if times[|times| - 1] > cutoff then earlier + [times[|times| - 1]] else earlier
  }

  lemma AfterAppend(times: seq<int>, t: int, cutoff: int)
    ensures After(times + [t], cutoff) == if t > cutoff then After(times, cutoff) + [t] else After(times, cutoff)
  {
    assert (times + [t])[..|times|] == times;
  }

  lemma {:induction false} AfterLength(times: seq<int>, cutoff: int)
    ensures |After(times, cutoff)| <= |times|
  {
    if times != [] {
      AfterLength(times[..|times| - 1], cutoff);
    }
  }

  /** Every time later than the cutoff is kept, as often as it occurs, and no other: a crash exactly one window old
      no longer counts. */
  lemma {:induction false} AfterExactly(times: seq<int>, cutoff: int, t: int)
    ensures multiset(After(times, cutoff))[t] == if t > cutoff then multiset(times)[t] else 0
  {
    if times != [] {
      var n := |times| - 1;
      AfterExactly(times[..n], cutoff, t);
      assert times == times[..n] + [times[n]];
    }
  }

  /** Of times in order what is kept is a suffix, in the same order. */
  lemma {:induction false} AfterIsSuffix(times: seq<int>, cutoff: int, k: nat)
    requires k <= |times| && forall i :: 0 <= i < |times| ==> (times[i] <= cutoff <==> i < k)
    ensures After(times, cutoff) == times[k..]
  {
    if times != [] {
      var n := |times| - 1;
      AfterIsSuffix(times[..n], cutoff, if k <= n then k else n);
      assert k <= n ==> times[..n][k..] + [times[n]] == times[k..];
    }
  }

  /** Pruning with an older cutoff first loses nothing a newer cutoff would keep. */
  lemma {:induction false} AfterAfter(times: seq<int>, older: int, newer: int)
    requires older <= newer
    ensures After(After(times, older), newer) == After(times, newer)
  {
    if times != [] {
      var rest := times[..|times| - 1];
      var t := times[|times| - 1];
      AfterAfter(rest, older, newer);
      if t > older {
        AfterAppend(After(rest, older), t, newer);
        assert After(times, older) == After(rest, older) + [t];
      } else {
        assert After(times, older) == After(rest, older);
      }
    }
  }

  /** Lists that agree after an older cutoff agree after a newer one. */
  lemma AfterAgree(xs: seq<int>, ys: seq<int>, older: int, newer: int)
    requires older <= newer && After(xs, older) == After(ys, older)
    ensures After(xs, newer) == After(ys, newer)
  {
    AfterAfter(xs, older, newer);
    AfterAfter(ys, older, newer);
  }

  lemma AppendAgrees(xs: seq<int>, ys: seq<int>, t: int, cutoff: int)
    requires After(xs, cutoff) == After(ys, cutoff)
    ensures After(xs + [t], cutoff) == After(ys + [t], cutoff)
  {
    AfterAppend(xs, t, cutoff);
    AfterAppend(ys, t, cutoff);
  }

  lemma PruneAgrees(xs: seq<int>, ys: seq<int>, older: int, newer: int)
    requires older <= newer && After(xs, newer) == After(ys, newer)
    ensures After(After(xs, older), newer) == After(ys, newer)
  {
    AfterAfter(xs, older, newer);
  }

  /** A call on the detector with the clock readings it takes. */
  datatype Call = Record(at: int, prune: int) | Ask(at: int) | Reset

  /** One call on the stored times: both Record and a question prune. */
  function Store(stored: seq<int>, call: Call, window: int): seq<int>
  {
    match call
    case Record(at, prune) => After(stored + [at], prune - window)
    case Ask(at) => After(stored, at - window)
    case Reset => []
  }

  /** One call on a list that is never pruned. */
  function Remember(history: seq<int>, call: Call): seq<int>
  {
    match call
    case Record(at, _) => history + [at]
    case Ask(_) => history
    case Reset => []
  }

  /** What the detector stores after a sequence of calls. */
  function Stored(calls: seq<Call>, window: int): seq<int>
  {
    if calls == [] then [] else Store(Stored(calls[..|calls| - 1], window), calls[|calls| - 1], window)
  }

  /** Every crash since the last Reset. */
  function History(calls: seq<Call>): seq<int>
  {
    if calls == [] then [] else Remember(History(calls[..|calls| - 1]), calls[|calls| - 1])
  }

  lemma HistoryAppend(calls: seq<Call>, call: Call)
    ensures History(calls + [call]) == Remember(History(calls), call)
  {
    assert (calls + [call])[..|calls|] == calls;
  }

  /** Recording a crash and asking twice about it. */
  lemma HistoryOfCrash(calls: seq<Call>, at: int, prune: int, counted: int, asked: int)
    ensures History(calls + [Call.Record(at, prune)] + [Ask(counted)]) == History(calls) + [at]
    ensures History(calls + [Call.Record(at, prune)] + [Ask(counted)] + [Ask(asked)]) == History(calls) + [at]
  {
    HistoryAppend(calls, Call.Record(at, prune));
    HistoryAppend(calls + [Call.Record(at, prune)], Ask(counted));
    HistoryAppend(calls + [Call.Record(at, prune)] + [Ask(counted)], Ask(asked));
  }

  /** The clock readings of one call, between the previous reading and the next. */
  predicate Ticks(call: Call, now: int)
  {
    match call
    case Record(at, prune) => at <= prune <= now
    case Ask(at) => at <= now
    case Reset => true
  }

  function Since(call: Call, now: int): int { if call.Reset? then now else call.at }

  /** The clock never runs backwards, within a call or between calls; `now` is its last reading. */
  ghost predicate Monotone(calls: seq<Call>, now: int)
  {
    calls != [] ==>
      Ticks(calls[|calls| - 1], now) && Monotone(calls[..|calls| - 1], Since(calls[|calls| - 1], now))
  }

  /** Lists that agree after `oldest` still agree after `newest`, once both have taken one more time and one
      of them has been pruned in between. */
  lemma RecordRefines(stored: seq<int>, history: seq<int>, at: int, oldest: int, older: int, newest: int)
    requires oldest <= older <= newest && After(stored, oldest) == After(history, oldest)
    ensures After(After(stored + [at], older), newest) == After(history + [at], newest)
  {
    AfterAgree(stored, history, oldest, newest);
    AppendAgrees(stored, history, at, newest);
    PruneAgrees(stored + [at], history + [at], older, newest);
  }

  lemma AskRefines(stored: seq<int>, history: seq<int>, at: int, window: int, now: int)
    requires at <= now && After(stored, at - window) == After(history, at - window)
    ensures After(After(stored, at - window), now - window) == After(history, now - window)
  {
    AfterAgree(stored, history, at - window, now - window);
    AfterAfter(stored, at - window, now - window);
  }

  lemma CallRefines(stored: seq<int>, history: seq<int>, call: Call, window: int, now: int)
    requires Ticks(call, now)
    requires After(stored, Since(call, now) - window) == After(history, Since(call, now) - window)
    ensures After(Store(stored, call, window), now - window) == After(Remember(history, call), now - window)
  {
    match call
    case Record(at, prune) => RecordRefines(stored, history, at, at - window, prune - window, now - window);
    case Ask(at) => AskRefines(stored, history, at, window, now);
    case Reset =>
  }

  /** The sliding window refines the full history: whatever was asked before, an answer at `now` over the
      stored times is the answer over the unpruned list of crashes since the last Reset. */
  lemma {:induction false} WindowRefinesHistory(calls: seq<Call>, window: int, now: int)
    requires Monotone(calls, now)
    ensures After(Stored(calls, window), now - window) == After(History(calls), now - window)
  {
    if calls != [] {
      var before, call := calls[..|calls| - 1], calls[|calls| - 1];
      WindowRefinesHistory(before, window, Since(call, now));
      CallRefines(Stored(before, window), History(before), call, window, now);
    }
  }

  /** Right after a crash or a question the detector stores exactly the crashes since the last Reset that the
      window still holds at the clock reading of the prune: it never keeps an expired one. */
  lemma StoredIsRecent(calls: seq<Call>, window: int, now: int)
    requires Monotone(calls, now) && calls != [] && !calls[|calls| - 1].Reset?
    ensures var last := calls[|calls| - 1];
      Stored(calls, window) == After(History(calls), (if last.Record? then last.prune else last.at) - window)
  {
    hide After;
    var before, last := calls[..|calls| - 1], calls[|calls| - 1];
    WindowRefinesHistory(before, window, last.at);
    assert Stored(calls, window) == Store(Stored(before, window), last, window);
    if last.Record? {
      AppendAgrees(Stored(before, window), History(before), last.at, last.at - window);
      AfterAgree(Stored(before, window) + [last.at], History(before) + [last.at], last.at - window, last.prune - window);
    }
  }

  // ---------------------------------------------------------------- the detector itself

  class Detector {
    const window: int
    const threshold: int
    const backoff: int

    // The slice `crashes`: the first `len` elements of its backing array.
    var data: array<int>
    var len: nat

    // Every call so far and the last clock reading.
    ghost var calls: seq<Call>
    ghost var clock: int

    ghost predicate Valid()
      reads this, data
    {
      && window > 0 && threshold >= 1 && backoff >= 0
      && len <= data.Length
      && data[..len] == Stored(calls, window)
      && Monotone(calls, clock)
    }

    /** The crashes since the last Reset that are still in the window at `now`. */
    ghost function Recent(now: int): seq<int>
      reads this
    {
      After(History(calls), now - window)
    }

    constructor (window: int, threshold: int, backoff: int)
      ensures Valid() && fresh(data) && calls == []
      ensures this.window == if window <= 0 then DEFAULT_WINDOW else window
      ensures this.threshold == if threshold < 1 then DEFAULT_THRESHOLD else threshold
      ensures this.backoff == if backoff < 0 then DEFAULT_BACKOFF else backoff
    {
      this.window := if window <= 0 then DEFAULT_WINDOW else window;
      this.threshold := if threshold < 1 then DEFAULT_THRESHOLD else threshold;
      this.backoff := if backoff < 0 then DEFAULT_BACKOFF else backoff;
      data := new int[0];
      len := 0;
      calls := [];
      clock := 0;
    }

    /** Compacts the slice onto the front of its own backing array. */
    method Prune(now: int)
      requires len <= data.Length
      modifies data, `len
      ensures len <= data.Length && data[..len] == After(old(data[..len]), now - window)
    {
      if len == 0 {
        return;
      }
      var cutoff := now - window;
      ghost var was := data[..len];
      var n, keep := len, 0;
      for i := 0 to n
        invariant 0 <= keep <= i && len == n
        invariant data[..keep] == After(was[..i], cutoff)
        invariant forall k :: i <= k < n ==> data[k] == was[k]
      {
        var t := data[i];
        AfterAppend(was[..i], t, cutoff);
        assert was[..i + 1] == was[..i] + [t];
        if t > cutoff {
          data[keep] := t;
          keep := keep + 1;
        }
      }
      assert was[..n] == was;
      len := keep;
    }

    /** Go's append: in place while capacity lasts, else into a larger backing array. */
    method Append(t: int)
      requires len <= data.Length
      modifies this`data, this`len, data
      ensures len <= data.Length && data[..len] == old(data[..len]) + [t]
      ensures data == old(data) || fresh(data)
    {
      if len == data.Length {
        var n, bigger := len, new int[2 * len + 1];
        for i := 0 to n
          invariant len == n == data.Length && data == old(data) && data[..] == old(data[..])
          invariant bigger[..i] == data[..i]
        {
          bigger[i] := data[i];
        }
        data := bigger;
      }
      data[len] := t;
      len := len + 1;
    }

    /** Notes a crash.  The clock is read once for the timestamp and again for the cutoff. */
    method Record(at: int, prune: int)
      requires Valid() && clock <= at <= prune
      modifies this`data, this`len, this`calls, this`clock, data
      ensures Valid() && (data == old(data) || fresh(data))
      ensures calls == old(calls) + [Call.Record(at, prune)] && clock == prune
    {
      ghost var before := calls;
      ghost var stored := data[..len];
      MonotoneLater(calls, clock, at);
      Append(at);
      Prune(prune);
      calls := calls + [Call.Record(at, prune)];
      clock := prune;
      assert calls[..|before|] == before;
    }

    method Count(now: int) returns (n: nat)
      requires Valid() && clock <= now
      modifies this`len, this`calls, this`clock, data
      ensures Valid() && calls == old(calls) + [Ask(now)] && clock == now
      ensures n == |old(Recent(now))|
    {
      ghost var before := calls;
      MonotoneLater(calls, clock, now);
      WindowRefinesHistory(calls, window, now);
      Prune(now);
      calls := calls + [Ask(now)];
      clock := now;
      assert calls[..|before|] == before;
      n := len;
    }

    method IsLooping(now: int) returns (looping: bool)
      requires Valid() && clock <= now
      modifies this`len, this`calls, this`clock, data
      ensures Valid() && calls == old(calls) + [Ask(now)] && clock == now
      ensures looping <==> |old(Recent(now))| >= threshold
    {
      ghost var before := calls;
      MonotoneLater(calls, clock, now);
      WindowRefinesHistory(calls, window, now);
      Prune(now);
      calls := calls + [Ask(now)];
      clock := now;
      assert calls[..|before|] == before;
      looping := len >= threshold;
    }

    method Backoff(now: int) returns (delay: int)
      requires Valid() && clock <= now
      modifies this`len, this`calls, this`clock, data
      ensures Valid() && calls == old(calls) + [Ask(now)] && clock == now
      ensures delay == if |old(Recent(now))| >= threshold then backoff else 0
    {
      var looping := IsLooping(now);
      delay := if looping then backoff else 0;
    }

    method Reset()
      requires Valid()
      modifies this`data, this`len, this`calls
      ensures Valid() && fresh(data)
      ensures calls == old(calls) + [Call.Reset] && History(calls) == []
    {
      ghost var before := calls;
      data := new int[0];
      len := 0;
      calls := calls + [Call.Reset];
      assert calls[..|before|] == before;
    }
  }

  lemma MonotoneLater(calls: seq<Call>, now: int, later: int)
    requires Monotone(calls, now) && now <= later
    ensures Monotone(calls, later)
  {}
}

/**
 The debouncer: a select loop over a resettable timer, and the timer-free account of when it may fire.
 */
module Debounce {

  /** What one pass of the select loop consumed, and when: an input, or the timer. */
  datatype Event = Input(at: int) | Fire(at: int)

  /** A timer under Go 1.23 and later: Stop and Reset discard a value not yet received. */
  datatype Timer = Inactive | Armed(deadline: int)

  /** The timer after consuming `e`; only an armed timer whose deadline has come can fire. */
  predicate CanConsume(timer: Timer, e: Event) { e.Fire? ==> timer.Armed? && timer.deadline <= e.at }

  function Consume(quiet: nat, timer: Timer, e: Event): Timer { if e.Input? then Armed(e.at + quiet) else Inactive }

  function TimerAfter(quiet: nat, trace: seq<Event>): Timer
  {
    if trace == [] then Inactive else Consume(quiet, TimerAfter(quiet, trace[..|trace| - 1]), trace[|trace| - 1])
  }

  /** The traces the loop can produce, by its own timer. */
  ghost predicate Plays(quiet: nat, trace: seq<Event>)
  {
    forall k :: 0 <= k < |trace| ==> CanConsume(TimerAfter(quiet, trace[..k]), trace[k])
  }

  ghost predicate InOrder(trace: seq<Event>)
  {
    forall i, j :: 0 <= i < j < |trace| ==> trace[i].at <= trace[j].at
  }

  // ---------------------------------------------------------------- the same without a timer

  /** An input was consumed and no trigger attempt has followed it. */
  ghost predicate Unfired(trace: seq<Event>)
  {
    exists j :: 0 <= j < |trace| && trace[j].Input? && forall k :: 0 <= k < |trace| && j < k ==> trace[k].Input?
  }

  /** No input was consumed less than `quiet` before time t. */
  ghost predicate QuietBefore(quiet: nat, trace: seq<Event>, t: int)
  {
    forall j :: 0 <= j < |trace| && trace[j].Input? ==> trace[j].at + quiet <= t
  }

  ghost predicate Deserved(quiet: nat, trace: seq<Event>, k: nat)
    requires k < |trace|
  {
    trace[k].Fire? ==> Unfired(trace[..k]) && QuietBefore(quiet, trace[..k], trace[k].at)
  }

  lemma UnfiredIsLast(trace: seq<Event>)
    ensures Unfired(trace) <==> trace != [] && trace[|trace| - 1].Input?
  {
    var n := |trace| - 1;
    if trace != [] && trace[n].Input? {
      assert trace[n].Input? && n + 1 == |trace|;
    }
  }

  /** The timer is active exactly when an input is still unfired, and is then due `quiet` after the last one. */
  lemma TimerIsUnfired(quiet: nat, trace: seq<Event>)
    ensures TimerAfter(quiet, trace).Armed? <==> Unfired(trace)
    ensures TimerAfter(quiet, trace).Armed? ==> TimerAfter(quiet, trace).deadline == trace[|trace| - 1].at + quiet
  {
    UnfiredIsLast(trace);
  }

  /** The loop refines the timer-free rule: on any sequence of consumptions in time order, it fires only
      when an input is unfired and the preceding quiet window is empty, and whenever that is so it may. */
  lemma LoopRefinesRule(quiet: nat, trace: seq<Event>)
    requires InOrder(trace)
    ensures Plays(quiet, trace) <==> forall k :: 0 <= k < |trace| ==> Deserved(quiet, trace, k)
  {
    forall k | 0 <= k < |trace|
      ensures CanConsume(TimerAfter(quiet, trace[..k]), trace[k]) <==> Deserved(quiet, trace, k)
    {
      TimerIsUnfired(quiet, trace[..k]);
      UnfiredIsLast(trace[..k]);
      if k > 0 && trace[k].Fire? && trace[k - 1].Input? {
        assert trace[..k][k - 1] == trace[k - 1];
        if trace[k - 1].at + quiet <= trace[k].at {
          forall j | 0 <= j < k && trace[..k][j].Input?
            ensures trace[..k][j].at + quiet <= trace[k].at
          {
            assert j < k - 1 ==> trace[j].at <= trace[k - 1].at;
          }
        }
      }
    }
  }

  // ---------------------------------------------------------------- what a trace consumed and attempted

  function Attempts(trace: seq<Event>): seq<int>
  {
    if trace == [] then [] else
    var earlier := Attempts(trace[..|trace| - 1]);
    if trace[|trace| - 1].Fire? then earlier + [trace[|trace| - 1].at] else earlier
  }

  function Inputs(trace: seq<Event>): seq<int>
  {
    if trace == [] then [] else
    var earlier := Inputs(trace[..|trace| - 1]);
    if trace[|trace| - 1].Input? then earlier + [trace[|trace| - 1].at] else earlier
  }

  /** For each attempt, in order, which input was the last one consumed before it. */
  function Ended(trace: seq<Event>): seq<int>
  {
    if trace == [] then [] else
    var p := trace[..|trace| - 1];
    if trace[|trace| - 1].Fire? then Ended(p) + [|Inputs(p)| - 1] else Ended(p)
  }

  lemma AttemptsAppend(trace: seq<Event>, e: Event)
    ensures Attempts(trace + [e]) == if e.Fire? then Attempts(trace) + [e.at] else Attempts(trace)
  {
    assert (trace + [e])[..|trace|] == trace;
  }

  /** The last event of a trace, seen against the one before it. */
  predicate Follows(quiet: nat, trace: seq<Event>)
    requires trace != []
  {
    var n := |trace| - 1;
    && (trace[n].Fire? ==> n > 0 && trace[n - 1].Input? && trace[n - 1].at + quiet <= trace[n].at)
    && (n > 0 ==> trace[n - 1].at <= trace[n].at)
  }

  lemma LastFollows(quiet: nat, trace: seq<Event>)
    requires trace != [] && InOrder(trace) && Plays(quiet, trace)
    ensures Follows(quiet, trace)
    ensures InOrder(trace[..|trace| - 1]) && Plays(quiet, trace[..|trace| - 1])
  {
    var n := |trace| - 1;
    var p := trace[..n];
    UnfiredIsLast(p);
    TimerIsUnfired(quiet, p);
    assert CanConsume(TimerAfter(quiet, trace[..n]), trace[n]);
    forall k | 0 <= k < n
      ensures CanConsume(TimerAfter(quiet, p[..k]), p[k])
    {
      assert p[..k] == trace[..k] && p[k] == trace[k];
    }
  }

  // ---------------------------------------------------------------- one attempt per gap

  /** The loop never consumes an input after the deadline of an armed timer: it is not kept from its timer. */
  ghost predicate Prompt(quiet: nat, trace: seq<Event>)
  {
    forall k :: 0 < k < |trace| && trace[k].Input? && trace[k - 1].Input? ==> trace[k].at <= trace[k - 1].at + quiet
  }

  ghost predicate PromptRun(quiet: nat, trace: seq<Event>)
  {
    InOrder(trace) && Plays(quiet, trace) && Prompt(quiet, trace)
  }

  /** In terms of the timer, being prompt is this. */
  lemma PromptIsInTime(quiet: nat, trace: seq<Event>)
    ensures Prompt(quiet, trace) <==>
      forall k :: 0 <= k < |trace| && trace[k].Input? && TimerAfter(quiet, trace[..k]).Armed? ==>
        trace[k].at <= TimerAfter(quiet, trace[..k]).deadline
  {
    forall k | 0 <= k < |trace|
      ensures TimerAfter(quiet, trace[..k]).Armed? <==> k > 0 && trace[k - 1].Input?
      ensures k > 0 && trace[k - 1].Input? ==> TimerAfter(quiet, trace[..k]).deadline == trace[k - 1].at + quiet
    {
      TimerIsUnfired(quiet, trace[..k]);
      UnfiredIsLast(trace[..k]);
    }
  }

  /** The inputs followed by a gap of more than one quiet window, by the input times alone. */
  function Gaps(quiet: nat, inputs: seq<int>): seq<int>
  {
    var n := |inputs| - 1;
    if n < 1 then [] else
    var earlier := Gaps(quiet, inputs[..n]);
    if inputs[n] > inputs[n - 1] + quiet then earlier + [n - 1] else earlier
  }

  /** Maximal runs of inputs each at most one quiet window after the one before. */
  function Bursts(quiet: nat, inputs: seq<int>): nat { if inputs == [] then 0 else |Gaps(quiet, inputs)| + 1 }

  lemma GapsAppend(quiet: nat, inputs: seq<int>, t: int)
    ensures Gaps(quiet, inputs + [t]) ==
      if inputs != [] && t > inputs[|inputs| - 1] + quiet then Gaps(quiet, inputs) + [|inputs| - 1] else Gaps(quiet, inputs)
  {
    assert (inputs + [t])[..|inputs|] == inputs;
  }

  /** No input comes exactly one quiet window after its predecessor, where either case may be taken first. */
  ghost predicate NoTies(quiet: nat, inputs: seq<int>)
  {
    forall i :: 0 < i < |inputs| ==> inputs[i] != inputs[i - 1] + quiet
  }

  /** The last thing a trace did, in terms of its inputs. */
  lemma LastInput(trace: seq<Event>)
    ensures trace != [] && trace[|trace| - 1].Input? ==>
      Inputs(trace) != [] && Inputs(trace)[|Inputs(trace)| - 1] == trace[|trace| - 1].at
  {}

  /** Before an attempt stands the input it ends. */
  lemma FiredInput(quiet: nat, trace: seq<Event>)
    requires trace != [] && trace[|trace| - 1].Fire? && InOrder(trace) && Plays(quiet, trace)
    ensures Inputs(trace) != [] && Inputs(trace)[|Inputs(trace)| - 1] + quiet <= trace[|trace| - 1].at
  {
    LastFollows(quiet, trace);
    LastInput(trace[..|trace| - 1]);
  }

  /** The input that a finished trace has ended last, if its last burst has been answered. */
  function LastEnded(trace: seq<Event>): seq<int>
  {
    if trace != [] && trace[|trace| - 1].Fire? then [|Inputs(trace)| - 1] else []
  }

  lemma NextInput(quiet: nat, p: seq<Event>, t: int)
    requires InOrder(p + [Input(t)]) && Plays(quiet, p) && InOrder(p)
    requires Prompt(quiet, p + [Input(t)]) && NoTies(quiet, Inputs(p) + [t])
    ensures Gaps(quiet, Inputs(p) + [t]) == Gaps(quiet, Inputs(p)) + LastEnded(p)
  {
    GapsAppend(quiet, Inputs(p), t);
    var trace, n, m := p + [Input(t)], |p|, |Inputs(p)|;
    if n > 0 {
      assert trace[n - 1] == p[n - 1] && trace[n] == Input(t);
      LastInput(p);
      if p[n - 1].Fire? {
        FiredInput(quiet, p);
        assert (Inputs(p) + [t])[m] != (Inputs(p) + [t])[m - 1] + quiet;
      }
    }
  }

  lemma EndedAppend(p: seq<Event>, e: Event)
    ensures Ended(p + [e]) == if e.Fire? then Ended(p) + [|Inputs(p)| - 1] else Ended(p)
    ensures Inputs(p + [e]) == if e.Input? then Inputs(p) + [e.at] else Inputs(p)
    ensures LastEnded(p + [e]) == if e.Fire? then [|Inputs(p)| - 1] else []
  {
    assert (p + [e])[..|p|] == p;
  }

  lemma AttemptIsGap(quiet: nat, p: seq<Event>, e: Event)
    requires InOrder(p) && Plays(quiet, p) && InOrder(p + [e]) && Follows(quiet, p + [e])
    requires Prompt(quiet, p + [e]) && NoTies(quiet, Inputs(p + [e]))
    requires Ended(p) == Gaps(quiet, Inputs(p)) + LastEnded(p)
    ensures Ended(p + [e]) == Gaps(quiet, Inputs(p + [e])) + LastEnded(p + [e])
  {
    EndedAppend(p, e);
    if e.Input? {
      NextInput(quiet, p, e.at);
    } else {
      assert (p + [e])[|p| - 1] == p[|p| - 1];
    }
  }

  lemma {:induction false} PromptAttempts(quiet: nat, trace: seq<Event>)
    requires PromptRun(quiet, trace) && NoTies(quiet, Inputs(trace))
    ensures Ended(trace) == Gaps(quiet, Inputs(trace)) + LastEnded(trace)
  {
    if trace != [] {
      var n := |trace| - 1;
      var p, e := trace[..n], trace[n];
      LastFollows(quiet, trace);
      assert p + [e] == trace;
      NoTiesBefore(quiet, p, e);
      PromptAttempts(quiet, p);
      AttemptIsGap(quiet, p, e);
    }
  }

  /** How many gaps the attempts of a trace have left out. */
  function Missed(quiet: nat, trace: seq<Event>): int
  {
    |Gaps(quiet, Inputs(trace))| + |LastEnded(trace)| - |Ended(trace)|
  }

  /** An input after a gap of more than one quiet window. */
  predicate Late(quiet: nat, inputs: seq<int>, e: Event)
  {
    e.Input? && inputs != [] && e.at > inputs[|inputs| - 1] + quiet
  }

  lemma SizesAppend(quiet: nat, p: seq<Event>, e: Event)
    ensures |Ended(p + [e])| == |Ended(p)| + (if e.Fire? then 1 else 0)
    ensures |LastEnded(p + [e])| == (if e.Fire? then 1 else 0)
    ensures |Gaps(quiet, Inputs(p + [e]))| == |Gaps(quiet, Inputs(p))| + (if Late(quiet, Inputs(p), e) then 1 else 0)
  {
    hide Ended, Inputs, Gaps, LastEnded;
    EndedAppend(p, e);
    if e.Input? {
      GapsAppend(quiet, Inputs(p), e.at);
    }
  }

  /** The first input is never late, and the next one after an attempt always is. */
  lemma LateAfter(quiet: nat, p: seq<Event>, e: Event)
    requires InOrder(p) && Plays(quiet, p) && Follows(quiet, p + [e]) && NoTies(quiet, Inputs(p + [e])) && e.Input?
    ensures p == [] ==> !Late(quiet, Inputs(p), e)
    ensures p != [] && p[|p| - 1].Input? ==> (Late(quiet, Inputs(p), e) <==> e.at > p[|p| - 1].at + quiet)
    ensures p != [] && p[|p| - 1].Fire? ==> Late(quiet, Inputs(p), e)
  {
    if p != [] {
      assert (p + [e])[|p| - 1] == p[|p| - 1];
      LastInput(p);
      EndedAppend(p, e);
      if p[|p| - 1].Fire? {
        FiredInput(quiet, p);
        NotTied(quiet, Inputs(p), e.at);
      }
    }
  }

  lemma NotTied(quiet: nat, inputs: seq<int>, t: int)
    requires NoTies(quiet, inputs + [t]) && inputs != []
    ensures t != inputs[|inputs| - 1] + quiet
  {
    assert (inputs + [t])[|inputs|] != (inputs + [t])[|inputs| - 1] + quiet;
  }

  /** One more event misses one more gap if it is an input that the timer should have come before. */
  lemma MissedAppend(quiet: nat, p: seq<Event>, e: Event)
    requires InOrder(p) && Plays(quiet, p) && Follows(quiet, p + [e]) && NoTies(quiet, Inputs(p + [e]))
    ensures Missed(quiet, p + [e]) == Missed(quiet, p) +
      (if e.Input? && p != [] && p[|p| - 1].Input? && e.at > p[|p| - 1].at + quiet then 1 else 0)
  {
    hide Ended, Inputs, Gaps, Late, NoTies, InOrder, Plays;
    SizesAppend(quiet, p, e);
    assert p != [] ==> (p + [e])[|p| - 1] == p[|p| - 1];
    if e.Input? {
      LateAfter(quiet, p, e);
    } else {
      FireIsNotLate(quiet, Inputs(p), e);
    }
  }

  lemma FireIsNotLate(quiet: nat, inputs: seq<int>, e: Event)
    requires e.Fire?
    ensures !Late(quiet, inputs, e)
  {}

  lemma {:induction false} NothingMissedIsPrompt(quiet: nat, trace: seq<Event>)
    requires InOrder(trace) && Plays(quiet, trace) && NoTies(quiet, Inputs(trace))
    ensures Missed(quiet, trace) >= 0 && (Missed(quiet, trace) == 0 ==> Prompt(quiet, trace))
  {
    if trace != [] {
      var n := |trace| - 1;
      var p, e := trace[..n], trace[n];
      LastFollows(quiet, trace);
      assert p + [e] == trace;
      NoTiesBefore(quiet, p, e);
      NothingMissedIsPrompt(quiet, p);
      MissedAppend(quiet, p, e);
      if Missed(quiet, trace) == 0 {
        PromptOn(quiet, p, e);
      }
    }
  }

  /** On every run the attempts are, one for one and in order, the gaps of more than one quiet window between
      its inputs, and one more for the last burst once that has been answered, if and only if the run is
      prompt: a loop that consumes an input ahead of its expired timer misses a gap for good. */
  lemma AttemptsAreGaps(quiet: nat, trace: seq<Event>)
    requires InOrder(trace) && Plays(quiet, trace) && NoTies(quiet, Inputs(trace))
    ensures Ended(trace) == Gaps(quiet, Inputs(trace)) + LastEnded(trace) <==> Prompt(quiet, trace)
  {
    if Prompt(quiet, trace) {
      PromptAttempts(quiet, trace);
    }
    NothingMissedIsPrompt(quiet, trace);
  }

  /** With ties too, a gap of more than one quiet window is always answered. */
  lemma {:induction false} GapsAreAnswered(quiet: nat, trace: seq<Event>, i: int)
    requires PromptRun(quiet, trace) && i in Gaps(quiet, Inputs(trace))
    ensures i in Ended(trace)
  {
    var n := |trace| - 1;
    var p, e := trace[..n], trace[n];
    LastFollows(quiet, trace);
    assert p + [e] == trace;
    EndedAppend(p, e);
    if i in Gaps(quiet, Inputs(p)) {
      GapsAreAnswered(quiet, p, i);
    } else {
      GapsAppend(quiet, Inputs(p), e.at);
      LastInput(p);
    }
  }

  lemma NoTiesBefore(quiet: nat, p: seq<Event>, e: Event)
    requires NoTies(quiet, Inputs(p + [e]))
    ensures NoTies(quiet, Inputs(p)) && Inputs(p + [e]) == if e.Input? then Inputs(p) + [e.at] else Inputs(p)
  {
    assert (p + [e])[..|p|] == p;
    assert e.Input? ==> Inputs(p + [e])[..|Inputs(p)|] == Inputs(p);
  }

  /** Each attempt comes at least one quiet window after the input it ends, and no later than the next input;
      ties or not. */
  lemma {:induction false} AttemptsInTime(quiet: nat, trace: seq<Event>, j: nat)
    requires InOrder(trace) && Plays(quiet, trace) && j < |Attempts(trace)|
    ensures |Ended(trace)| == |Attempts(trace)| && 0 <= Ended(trace)[j] < |Inputs(trace)|
    ensures Inputs(trace)[Ended(trace)[j]] + quiet <= Attempts(trace)[j]
    ensures Ended(trace)[j] + 1 < |Inputs(trace)| ==> Attempts(trace)[j] <= Inputs(trace)[Ended(trace)[j] + 1]
  {
    var n := |trace| - 1;
    var p, e := trace[..n], trace[n];
    LastFollows(quiet, trace);
    EndedLength(p);
    if j < |Attempts(p)| {
      AttemptsInTime(quiet, p, j);
      if e.Input? && Ended(p)[j] + 1 == |Inputs(p)| {
        AttemptBefore(p, j);
      }
    } else {
      FiredInput(quiet, trace);
    }
  }

  lemma {:induction false} EndedLength(trace: seq<Event>)
    ensures |Ended(trace)| == |Attempts(trace)|
  {
    if trace != [] {
      EndedLength(trace[..|trace| - 1]);
    }
  }

  lemma {:induction false} AttemptBefore(trace: seq<Event>, j: nat)
    requires InOrder(trace) && j < |Attempts(trace)|
    ensures trace != [] && Attempts(trace)[j] <= trace[|trace| - 1].at
  {
    var n := |trace| - 1;
    if j < |Attempts(trace[..n])| {
      AttemptBefore(trace[..n], j);
    }
  }

  /** So the attempts number the bursts of the inputs, less one while the last is unfired, if and only if the
      run is prompt. */
  lemma OneAttemptPerBurst(quiet: nat, trace: seq<Event>)
    requires InOrder(trace) && Plays(quiet, trace) && NoTies(quiet, Inputs(trace))
    ensures |Attempts(trace)| + (if Unfired(trace) then 1 else 0) == Bursts(quiet, Inputs(trace)) <==> Prompt(quiet, trace)
  {
    AttemptsAreGaps(quiet, trace);
    NothingMissedIsPrompt(quiet, trace);
    EndedLength(trace);
    UnfiredIsLast(trace);
    if trace != [] {
      LastInput(trace);
      if trace[|trace| - 1].Fire? {
        FiredInput(quiet, trace);
      }
    }
  }

  lemma PlaysOn(quiet: nat, p: seq<Event>, e: Event)
    requires Plays(quiet, p) && Follows(quiet, p + [e])
    ensures Plays(quiet, p + [e])
  {
    var trace, n := p + [e], |p|;
    TimerIsUnfired(quiet, p);
    UnfiredIsLast(p);
    assert n > 0 ==> trace[n - 1] == p[n - 1];
    forall k | 0 <= k < |trace|
      ensures CanConsume(TimerAfter(quiet, trace[..k]), trace[k])
    {
      assert trace[..k] == p[..k];
      assert k == n ==> p[..k] == p;
      assert k < n ==> CanConsume(TimerAfter(quiet, p[..k]), p[k]);
    }
  }

  lemma Grows(quiet: nat, p: seq<Event>, e: Event)
    requires PromptRun(quiet, p) && Follows(quiet, p + [e])
    requires e.Input? && p != [] && p[|p| - 1].Input? ==> e.at <= p[|p| - 1].at + quiet
    ensures PromptRun(quiet, p + [e])
  {
    assert p != [] ==> (p + [e])[|p| - 1] == p[|p| - 1];
    PlaysOn(quiet, p, e);
    InOrderOn(p, e);
    PromptOn(quiet, p, e);
  }

  lemma InOrderOn(p: seq<Event>, e: Event)
    requires InOrder(p) && (p != [] ==> p[|p| - 1].at <= e.at)
    ensures InOrder(p + [e])
  {
    forall i, j | 0 <= i < j < |p + [e]|
      ensures (p + [e])[i].at <= (p + [e])[j].at
    {
      assert i < |p| - 1 ==> p[i].at <= p[|p| - 1].at;
    }
  }

  lemma PromptOn(quiet: nat, p: seq<Event>, e: Event)
    requires Prompt(quiet, p) && (e.Input? && p != [] && p[|p| - 1].Input? ==> e.at <= p[|p| - 1].at + quiet)
    ensures Prompt(quiet, p + [e])
  {
    var trace := p + [e];
    forall k | 0 < k < |trace| && trace[k].Input? && trace[k - 1].Input?
      ensures trace[k].at <= trace[k - 1].at + quiet
    {
      assert trace[k - 1] == p[k - 1] && (k < |p| ==> trace[k] == p[k]);
    }
  }

  lemma GrowsBy(quiet: nat, p: seq<Event>, next: int) returns (trace: seq<Event>)
    requires PromptRun(quiet, p) && (p != [] ==> p[|p| - 1].Input? && p[|p| - 1].at <= next)
    ensures PromptRun(quiet, trace) && Inputs(trace) == Inputs(p) + [next]
    ensures trace != [] && trace[|trace| - 1] == Input(next)
  {
    trace := p;
    if p != [] && next > p[|p| - 1].at + quiet {
      var fire := Fire(p[|p| - 1].at + quiet);
      assert (p + [fire])[|p| - 1] == p[|p| - 1];
      Grows(quiet, p, fire);
      EndedAppend(p, fire);
      trace := p + [fire];
    }
    assert trace != [] ==> (trace + [Input(next)])[|trace| - 1] == trace[|trace| - 1];
    Grows(quiet, trace, Input(next));
    EndedAppend(trace, Input(next));
    trace := trace + [Input(next)];
  }

  /** Every list of input times in order has a prompt run. */
  lemma {:induction false} PromptRunExists(quiet: nat, inputs: seq<int>) returns (trace: seq<Event>)
    requires forall i :: 0 < i < |inputs| ==> inputs[i - 1] <= inputs[i]
    ensures Inputs(trace) == inputs && PromptRun(quiet, trace)
    ensures if inputs == [] then trace == [] else trace != [] && trace[|trace| - 1] == Input(inputs[|inputs| - 1])
  {
    trace := [];
    if inputs != [] {
      var n := |inputs| - 1;
      trace := PromptRunExists(quiet, inputs[..n]);
      trace := GrowsBy(quiet, trace, inputs[n]);
      assert inputs[..n] + [inputs[n]] == inputs;
    }
  }

  lemma TimerAppend(quiet: nat, trace: seq<Event>, e: Event)
    ensures TimerAfter(quiet, trace + [e]) == Consume(quiet, TimerAfter(quiet, trace), e)
  {
    assert (trace + [e])[..|trace|] == trace;
  }

  // ---------------------------------------------------------------- the loop

  class Debouncer {
    const quiet: nat
    var timerActive: bool
    var deadline: int
    // The capacity-1 output channel.
    var pending: bool

    ghost predicate Reflects(trace: seq<Event>)
      reads this
    {
      TimerAfter(quiet, trace) == if timerActive then Armed(deadline) else Inactive
    }

    constructor (quiet: int)
      ensures this.quiet == (if quiet < 0 then 0 else quiet) && !timerActive && !pending
      ensures Reflects([])
    {
      this.quiet := if quiet < 0 then 0 else quiet;
      timerActive, deadline, pending := false, 0, false;
    }

    /** The case that receives a path. */
    method OnInput(at: int, ghost trace: seq<Event>)
      requires Reflects(trace)
      modifies this`timerActive, this`deadline
      ensures Reflects(trace + [Input(at)])
    {
      TimerAppend(quiet, trace, Input(at));
      deadline := at + quiet;
      timerActive := true;
    }

    /** The case that receives from the timer, and the non-blocking send. */
    method OnTimer(at: int, ghost trace: seq<Event>)
      requires Reflects(trace) && timerActive && deadline <= at
      modifies this`timerActive, this`pending
      ensures Reflects(trace + [Fire(at)]) && pending
    {
      TimerAppend(quiet, trace, Fire(at));
      timerActive := false;
      if !pending {
        pending := true;
      }
    }

    /** The select loop from start to return, `schedule` being what its select picks before the context
        ends or the input closes.  The trigger is offered at exactly the times the schedule fires. */
    method Run(schedule: seq<Event>) returns (attempts: seq<int>)
      requires Plays(quiet, schedule) && Reflects([])
      modifies this
      ensures attempts == Attempts(schedule)
      ensures timerActive <==> Unfired(schedule)
      ensures timerActive ==> schedule != [] && deadline == schedule[|schedule| - 1].at + quiet
      ensures pending <==> old(pending) || attempts != []
    {
      attempts := [];
      assert schedule[..0] == [];
      for i := 0 to |schedule|
        invariant Reflects(schedule[..i])
        invariant attempts == Attempts(schedule[..i])
        invariant pending <==> old(pending) || attempts != []
      {
        assert schedule[..i + 1] == schedule[..i] + [schedule[i]];
        AttemptsAppend(schedule[..i], schedule[i]);
        match schedule[i] {
          case Input(at) => OnInput(at, schedule[..i]);
          case Fire(at) =>
            OnTimer(at, schedule[..i]);
            attempts := attempts + [at];
        }
      }
      assert schedule[..|schedule|] == schedule;
      TimerIsUnfired(quiet, schedule);
    }
  }
}

/**
 Which crash notices are answered: handleUnexpectedExit from the moment the main loop takes a notice to the
 moment it selects again, with every other goroutine free to move in between.
 */
module ReloadNotices {
  import opened Optional
  import opened ReloadModel
  import opened ReloadControl
  import opened ReloadFreshness
  import opened ReloadServer
  import opened ReloadSingle
  import opened ReloadTenure
  import opened ReloadTheorems
  import opened ReloadLimits
  import opened ReloadLate

  /** One complete handling of a notice: taken in the first step, the main loop selecting again at the end. */
  ghost predicate Handling(c: Config, ss: seq<State>, acts: seq<Action>)
  {
    && Segment(c, ss, acts) && Reachable(c, ss[0])
    && |acts| > 0 && acts[0] == Main(PickExit)
    && (forall k :: 1 <= k < |acts| ==> HandlingCrash(ss[k].loop.main))
    && !HandlingCrash(ss[|acts|].loop.main)
  }

  predicate MovesFrom(s: State, a: Action, pc: MainPc) { a.Main? && s.loop.main == pc }

  /** Among the first k steps the main loop took the one that records the crash. */
  ghost predicate Recorded(ss: seq<State>, acts: seq<Action>, k: nat)
  {
    exists j :: 0 <= j < k && j < |acts| && j < |ss| && MovesFrom(ss[j], acts[j], MRecord)
  }

  /** Among the first k steps the main loop asked whether a server is running. */
  ghost predicate Checked(ss: seq<State>, acts: seq<Action>, k: nat)
  {
    exists j :: 0 <= j < k && j < |acts| && j < |ss| && MovesFrom(ss[j], acts[j], MCheck)
  }

  /** ... and was told that none is. */
  ghost predicate FoundNone(ss: seq<State>, acts: seq<Action>, k: nat)
  {
    exists j :: 0 <= j < k && j < |acts| && j < |ss| && MovesFrom(ss[j], acts[j], MCheck) && !IsRunning(ss[j].sup)
  }

  /** The first k steps do not reap the generation that was current at the start. */
  ghost predicate NoReap(ss: seq<State>, acts: seq<Action>, k: nat)
  {
    ss != [] && forall j :: 0 <= j < k && j < |acts| && acts[j].Reap? ==> ss[0].sup.done != Some(acts[j].g)
  }

  lemma SteadyAlong(c: Config, ss: seq<State>, acts: seq<Action>, k: nat)
    requires Segment(c, ss, acts) && Reachable(c, ss[0]) && k < |ss|
    ensures Control(ss[k]) && Tenure(ss[k])
  {
    hide Control, Tenure, Step, Reachable;
    ReachableInv(c, ss[0]);
    SegmentInv(c, ss, acts, k);
  }

  // ---------------------------------------------------------------- one step

  /** Only the main loop moves the main loop. */
  lemma OthersLeaveMain(c: Config, s: State, a: Action, s': State)
    requires Control(s) && Step(c, s, a) == Some(s') && !a.Main?
    ensures s'.loop.main == s.loop.main
  {
    hide EnvStep, FanStep, DebStep, MainStep, BuildStep, CommandStep, ReapStep, CtxStep, Endings;
    match a
    case BuildGo(i, ok) => BuildMovesLast(c, s, i, ok, s');
    case Reap(_) | CtxGo(_, _) | ProcExit(_, _) => GoroutinesStand(c, s, a, s');
    case _ => BackgroundStands(c, s, a, s');
  }

  /** While the handler has decided that no build is running, none moves. */
  lemma NoBuildMoves(c: Config, s: State, i: nat, ok: bool)
    requires Control(s) && Restarting(s.loop.main)
    ensures Step(c, s, BuildGo(i, ok)).None?
  {
    if Step(c, s, BuildGo(i, ok)).Some? {
      BuildMovesLast(c, s, i, ok, Step(c, s, BuildGo(i, ok)).value);
      assert LastOpen(s.loop);
      assert false;
    }
  }

  /** Then the other goroutines change neither the crash history nor which generation is current, and only
      that generation's own reaper ends it. */
  lemma OthersKeepCurrent(c: Config, s: State, a: Action, s': State)
    requires Control(s) && Tenure(s) && Restarting(s.loop.main) && Step(c, s, a) == Some(s') && !a.Main?
    ensures s'.tally == s.tally && s'.sup.done == s.sup.done
    ensures !IsRunning(s.sup) ==> !IsRunning(s'.sup)
    ensures IsRunning(s.sup) && !(a.Reap? && s.sup.done == Some(a.g)) ==> IsRunning(s'.sup)
  {
    hide EnvStep, FanStep, DebStep, BuildStep, CommandStep, ReapStep, CtxStep, RegisterOwned, Yielded, Holds;
    match a
    case BuildGo(i, ok) =>
      NoBuildMoves(c, s, i, ok);
      assert false;
    case Reap(g) =>
      ReapTenure(s.sup, s.rootDone, g, s'.sup);
      ReapsOne(s.sup, g, s'.sup);
    case CtxGo(g, ok) =>
      CtxTenure(c, s.sup, s.rootDone, g, ok, s'.sup);
      CtxReapsNone(c, s.rootDone, s.sup, g, ok, s'.sup);
    case ProcExit(g, failed) => ExitReapsNone(s, g, failed, s');
    case _ => BackgroundStands(c, s, a, s');
  }

  lemma ExitReapsNone(s: State, g: nat, failed: bool, s': State)
    requires EnvStep(s, ProcExit(g, failed)) == Some(s')
    ensures s'.tally == s.tally && s'.sup.done == s.sup.done && (IsRunning(s'.sup) <==> IsRunning(s.sup))
  {}

  lemma ReapsOne(v: Supervisor, g: nat, w: Supervisor)
    requires ReapStep(v, g) == Some(w)
    ensures |w.procs| == |v.procs| && forall h :: 0 <= h < |v.procs| && h != g ==> w.procs[h] == v.procs[h]
  {}

  lemma CtxReapsNone(c: Config, rootDone: bool, v: Supervisor, g: nat, ok: bool, w: Supervisor)
    requires CtxStep(c, rootDone, v, g, ok) == Some(w)
    ensures |w.procs| == |v.procs| && forall h :: 0 <= h < |v.procs| ==> w.procs[h].reaper == v.procs[h].reaper
  {}

  /** What is known after k steps: where the main loop stands says what it has asked, been told and recorded. */
  ghost predicate Told(ss: seq<State>, acts: seq<Action>, k: nat)
    requires |ss| == |acts| + 1 && 1 <= k <= |acts|
    requires ss[0].sup.exits.Some?
  {
    var s, e, active := ss[k], ss[0].sup.exits.value, ss[0].loop.buildWatch.Some?;
    var open := e.failed && !active;
    match s.loop.main
    case MTriage(f, b) => f == e && b == active && !Checked(ss, acts, k) && !Recorded(ss, acts, k)
    case MCheck => open && !Checked(ss, acts, k) && !Recorded(ss, acts, k)
    case MRecord => open && FoundNone(ss, acts, k) && !Recorded(ss, acts, k)
    case MSelect =>
      && (Recorded(ss, acts, k) <==> FoundNone(ss, acts, k))
      && (open <==> Checked(ss, acts, k))
    case _ => HandlingCrash(s.loop.main) && open && FoundNone(ss, acts, k) && Recorded(ss, acts, k)
  }

  lemma OneMore(ss: seq<State>, acts: seq<Action>, k: nat)
    requires |ss| == |acts| + 1 && k < |acts|
    ensures Recorded(ss, acts, k + 1) <==> Recorded(ss, acts, k) || MovesFrom(ss[k], acts[k], MRecord)
    ensures Checked(ss, acts, k + 1) <==> Checked(ss, acts, k) || MovesFrom(ss[k], acts[k], MCheck)
    ensures FoundNone(ss, acts, k + 1)
      <==> FoundNone(ss, acts, k) || (MovesFrom(ss[k], acts[k], MCheck) && !IsRunning(ss[k].sup))
  {}

  lemma FoundIsChecked(ss: seq<State>, acts: seq<Action>, k: nat)
    ensures FoundNone(ss, acts, k) ==> Checked(ss, acts, k)
  {
    if FoundNone(ss, acts, k) {
      var j :| 0 <= j < k && j < |acts| && j < |ss| && MovesFrom(ss[j], acts[j], MCheck) && !IsRunning(ss[j].sup);
    }
  }

  lemma FirstTold(c: Config, ss: seq<State>, acts: seq<Action>)
    requires Handling(c, ss, acts)
    ensures ss[0].loop.main.MSelect? && ss[0].sup.exits.Some? && Told(ss, acts, 1)
    ensures ss[1].loop.main.MTriage? && ss[1].tally == ss[0].tally && ss[1].sup == ss[0].sup.(exits := None)
  {
    assert Step(c, ss[0], acts[0]) == Some(ss[1]);
  }

  lemma MainTold(c: Config, ss: seq<State>, acts: seq<Action>, k: nat)
    requires |ss| == |acts| + 1 && 1 <= k < |acts| && ss[0].sup.exits.Some? && Told(ss, acts, k)
    requires HandlingCrash(ss[k].loop.main) && acts[k].Main? && Step(c, ss[k], acts[k]) == Some(ss[k + 1])
    ensures Told(ss, acts, k + 1)
  {
    hide EnvStep, FanStep, DebStep, BuildStep, CommandStep, ReapStep, CtxStep, Recorded, Checked, FoundNone;
    OneMore(ss, acts, k);
    FoundIsChecked(ss, acts, k);
    FoundIsChecked(ss, acts, k + 1);
    assert CrashStep(c, ss[k], acts[k].choice.ok) == Some(ss[k + 1]);
  }

  lemma {:induction false} ToldAlong(c: Config, ss: seq<State>, acts: seq<Action>, k: nat)
    requires Handling(c, ss, acts) && 1 <= k <= |acts|
    ensures ss[0].sup.exits.Some? && Told(ss, acts, k)
  {
    hide Step, IsRunning, FoundNone, Checked, Recorded, Tenure, Control, Reachable;
    FirstTold(c, ss, acts);
    if k > 1 {
      var j := k - 1;
      ToldAlong(c, ss, acts, j);
      assert Step(c, ss[j], acts[j]) == Some(ss[k]);
      if acts[j].Main? {
        MainTold(c, ss, acts, j);
      } else {
        SteadyAlong(c, ss, acts, j);
        OthersLeaveMain(c, ss[j], acts[j], ss[k]);
        OneMore(ss, acts, j);
      }
    }
  }

  // ---------------------------------------------------------------- what the check will find

  ghost predicate SameCurrent(ss: seq<State>, acts: seq<Action>, k: nat)
    requires k < |ss|
  {
    && ss[k].sup.done == ss[0].sup.done
    && (!IsRunning(ss[0].sup) ==> !IsRunning(ss[k].sup))
    && (IsRunning(ss[0].sup) && NoReap(ss, acts, k) ==> IsRunning(ss[k].sup))
  }

  lemma {:induction false} CurrentAlong(c: Config, ss: seq<State>, acts: seq<Action>, k: nat)
    requires Handling(c, ss, acts) && ss[0].loop.buildWatch.None? && 1 <= k <= |acts|
    requires ss[k].loop.main.MTriage? || ss[k].loop.main.MCheck?
    ensures SameCurrent(ss, acts, k)
  {
    hide Step, FoundNone, Checked, Recorded, Tenure, Control, Reachable;
    FirstTold(c, ss, acts);
    if k > 1 {
      var j := k - 1;
      ToldAlong(c, ss, acts, j);
      assert Step(c, ss[j], acts[j]) == Some(ss[k]);
      SteadyAlong(c, ss, acts, j);
      StillDeciding(c, ss[j], acts[j], ss[k]);
      CurrentAlong(c, ss, acts, j);
      if !acts[j].Main? {
        OthersKeepCurrent(c, ss[j], acts[j], ss[k]);
      }
    }
  }

  /** The main loop is still before its check only if it was there a step ago, and its own steps up to there
      leave the server alone. */
  lemma StillDeciding(c: Config, s: State, a: Action, s': State)
    requires Control(s) && HandlingCrash(s.loop.main) && Step(c, s, a) == Some(s')
    requires s'.loop.main.MTriage? || s'.loop.main.MCheck?
    ensures s.loop.main.MTriage? || s.loop.main.MCheck?
    ensures a.Main? ==> s'.sup == s.sup
  {
    if !a.Main? {
      OthersLeaveMain(c, s, a, s');
    }
  }

  /** Past its Record step the main loop has one more crash on record than before. */
  function RecordedAt(pc: MainPc): nat
  {
    if pc.MTriage? || pc.MCheck? || pc.MRecord? then 0 else 1
  }

  lemma MainHistory(c: Config, s: State, ch: Choice, s': State)
    requires HandlingCrash(s.loop.main) && MainStep(c, s, ch) == Some(s') && HandlingCrash(s'.loop.main)
    ensures s'.tally.history - RecordedAt(s'.loop.main) == s.tally.history - RecordedAt(s.loop.main)
  {}

  lemma HistoryStep(c: Config, s: State, a: Action, s': State)
    requires Control(s) && Tenure(s) && Restarting(s.loop.main) && Step(c, s, a) == Some(s') && HandlingCrash(s'.loop.main)
    ensures s'.tally.history - RecordedAt(s'.loop.main) == s.tally.history - RecordedAt(s.loop.main)
  {
    hide Control, Tenure, MainStep, EnvStep, FanStep, DebStep, BuildStep, CommandStep, ReapStep, CtxStep;
    if a.Main? {
      MainHistory(c, s, a.choice, s');
    } else {
      OthersKeepCurrent(c, s, a, s');
      OthersLeaveMain(c, s, a, s');
    }
  }

  lemma {:induction false} HistoryAlong(c: Config, ss: seq<State>, acts: seq<Action>, k: nat)
    requires Handling(c, ss, acts) && ss[0].loop.buildWatch.None? && 1 <= k < |acts|
    ensures ss[k].tally.history == ss[0].tally.history + RecordedAt(ss[k].loop.main)
  {
    hide Step, IsRunning, FoundNone, Checked, Recorded, Tenure, Control, Reachable;
    FirstTold(c, ss, acts);
    if k > 1 {
      var j := k - 1;
      HistoryAlong(c, ss, acts, j);
      ToldAlong(c, ss, acts, j);
      assert Step(c, ss[j], acts[j]) == Some(ss[k]);
      SteadyAlong(c, ss, acts, j);
      HistoryStep(c, ss[j], acts[j], ss[k]);
    }
  }

  /** The step that ends the handling is the main loop's own, and a Record step never is. */
  lemma LastStep(c: Config, s: State, a: Action, s': State)
    requires Control(s) && HandlingCrash(s.loop.main) && Step(c, s, a) == Some(s') && !HandlingCrash(s'.loop.main)
    ensures a.Main? && !s.loop.main.MRecord? && s'.loop.main.MSelect? && s'.tally == s.tally
  {
    if !a.Main? {
      OthersLeaveMain(c, s, a, s');
    }
  }

  lemma HistoryAtEnd(c: Config, ss: seq<State>, acts: seq<Action>)
    requires Handling(c, ss, acts) && ss[0].loop.buildWatch.None?
    ensures ss[|acts|].tally.history == ss[0].tally.history + (if Recorded(ss, acts, |acts|) then 1 else 0)
  {
    hide Step, IsRunning, FoundNone, Checked, Recorded, Tenure, Control, Reachable;
    var n := |acts|;
    FirstTold(c, ss, acts);
    assert n > 1;
    ToldAlong(c, ss, acts, n - 1);
    HistoryAlong(c, ss, acts, n - 1);
    assert Step(c, ss[n - 1], acts[n - 1]) == Some(ss[n]);
    SteadyAlong(c, ss, acts, n - 1);
    LastStep(c, ss[n - 1], acts[n - 1], ss[n]);
    OneMore(ss, acts, n - 1);
  }

  // ---------------------------------------------------------------- which notices are answered

  /** Every complete handling of a notice, however the other goroutines move, records the crash if and only if
      the notice is a failure, no build is being watched when it is taken, and the check finds no server
      running.  The last of these is settled by the state the notice is taken in, if no server runs then or
      the current one is not reaped meanwhile. */
  lemma CrashIsAnswered(c: Config, ss: seq<State>, acts: seq<Action>)
    requires Handling(c, ss, acts)
    ensures ss[0].sup.exits.Some?
    ensures Recorded(ss, acts, |acts|) <==>
      ss[0].sup.exits.value.failed && ss[0].loop.buildWatch.None? && FoundNone(ss, acts, |acts|)
    ensures !IsRunning(ss[0].sup) || NoReap(ss, acts, |acts|) ==>
      (Recorded(ss, acts, |acts|) <==>
       ss[0].sup.exits.value.failed && ss[0].loop.buildWatch.None? && !IsRunning(ss[0].sup))
    ensures ss[0].loop.buildWatch.None? ==>
      ss[|acts|].tally.history == ss[0].tally.history + (if Recorded(ss, acts, |acts|) then 1 else 0)
  {
    var n := |acts|;
    ToldAlong(c, ss, acts, n);
    FoundIsChecked(ss, acts, n);
    if ss[0].loop.buildWatch.None? {
      HistoryAtEnd(c, ss, acts);
      if Checked(ss, acts, n) {
        var j :| 0 <= j < n && j < |acts| && j < |ss| && MovesFrom(ss[j], acts[j], MCheck);
        AtCheck(c, ss, acts, j);
      }
      forall j | 0 <= j < n && MovesFrom(ss[j], acts[j], MCheck)
        ensures !IsRunning(ss[0].sup) ==> !IsRunning(ss[j].sup)
        ensures IsRunning(ss[0].sup) && NoReap(ss, acts, n) ==> IsRunning(ss[j].sup)
      {
        AtCheck(c, ss, acts, j);
      }
    }
  }

  lemma AtCheck(c: Config, ss: seq<State>, acts: seq<Action>, j: nat)
    requires Handling(c, ss, acts) && ss[0].loop.buildWatch.None? && j < |acts| && MovesFrom(ss[j], acts[j], MCheck)
    ensures !IsRunning(ss[0].sup) ==> !IsRunning(ss[j].sup)
    ensures IsRunning(ss[0].sup) && NoReap(ss, acts, |acts|) ==> IsRunning(ss[j].sup)
  {
    FirstTold(c, ss, acts);
    CurrentAlong(c, ss, acts, j);
  }

  // ---------------------------------------------------------------- what a recorded crash leads to

  /** The last step of a handling, if the crash has been recorded: the main loop's registration of a new server,
      unless the root context ended during the back-off or before Start, or Start failed. */
  lemma EndsInStart(c: Config, s: State, a: Action, s': State)
    requires Control(s) && RegisterOwned(s.sup, s.loop.main, LastPc(s.loop)) && HandlingCrash(s.loop.main)
    requires Step(c, s, a) == Some(s') && !HandlingCrash(s'.loop.main) && !s.loop.main.MTriage? && !s.loop.main.MCheck?
    ensures NewServerUp(s, s') || (s.rootDone && (s.loop.main.MSleep? || s.loop.main.MStart?))
      || (a == Main(Go(false)) && (s.loop.main.MStart? || s.loop.main.MSpawn?))
    ensures NewServerUp(s, s') ==> s.loop.main.MRegister?
  {
    hide EnvStep, FanStep, DebStep, BuildStep, CommandStep, ReapStep, CtxStep, LoopInv;
    if !a.Main? {
      OthersLeaveMain(c, s, a, s');
      assert false;
    }
  }

  /** The step has put the newest process, not registered before, into service. */
  predicate NewServerUp(s: State, s': State)
  {
    && |s'.sup.procs| == |s.sup.procs| > 0 && s'.sup.cmd == s'.sup.done == Some(|s.sup.procs| - 1)
    && s.sup.procs[|s.sup.procs| - 1].reaper.NotStarted? && s'.sup.procs[|s.sup.procs| - 1].reaper.Waiting?
  }

  /** Over every complete handling: a crash that is recorded ends with a new server in service, unless the root
      context has ended or Start has failed; and no other handling puts one there. */
  lemma RecordedIsRestarted(c: Config, ss: seq<State>, acts: seq<Action>)
    requires Handling(c, ss, acts)
    ensures var n := |acts|; var s := ss[n - 1];
      && (Recorded(ss, acts, n) ==>
            NewServerUp(s, ss[n]) || (s.rootDone && (s.loop.main.MSleep? || s.loop.main.MStart?))
            || (acts[n - 1] == Main(Go(false)) && (s.loop.main.MStart? || s.loop.main.MSpawn?)))
      && (NewServerUp(s, ss[n]) ==> Recorded(ss, acts, n))
  {
    hide Step, IsRunning, FoundNone, Checked, Recorded, Control, Reachable, NewServerUp;
    var n := |acts|;
    FirstTold(c, ss, acts);
    assert n > 1;
    ToldAlong(c, ss, acts, n - 1);
    SteadyAlong(c, ss, acts, n - 1);
    OneMore(ss, acts, n - 1);
    assert Step(c, ss[n - 1], acts[n - 1]) == Some(ss[n]);
    if ss[n - 1].loop.main.MTriage? || ss[n - 1].loop.main.MCheck? {
      TurnedDown(c, ss[n - 1], acts[n - 1], ss[n]);
    } else {
      EndsInStart(c, ss[n - 1], acts[n - 1], ss[n]);
    }
  }

  lemma TurnedDown(c: Config, s: State, a: Action, s': State)
    requires Control(s) && Step(c, s, a) == Some(s') && !HandlingCrash(s'.loop.main)
    requires s.loop.main.MTriage? || s.loop.main.MCheck?
    ensures !NewServerUp(s, s')
  {
    if !a.Main? {
      OthersLeaveMain(c, s, a, s');
    }
  }

  // ---------------------------------------------------------------- when the main loop backs off

  /** Crashes recorded in a run since a build last reset the detector. */
  function Since(ss: seq<State>, acts: seq<Action>, m: nat): nat
    requires m <= |acts| < |ss|
  {
    if m == 0 then 0 else
    var s, a := ss[m - 1], acts[m - 1];
    if MovesFrom(s, a, MRecord) then Since(ss, acts, m - 1) + 1
    else if a.BuildGo? && a.i < |s.loop.builds| && s.loop.builds[a.i].pc.BReset? then 0
    else Since(ss, acts, m - 1)
  }

  lemma MainCounts(c: Config, s: State, ch: Choice, s': State)
    requires MainStep(c, s, ch) == Some(s')
    ensures s'.tally.history == s.tally.history + (if s.loop.main.MRecord? then 1 else 0)
  {}

  lemma BuildCounts(c: Config, s: State, i: nat, ok: bool, s': State)
    requires BuildStep(c, s, i, ok) == Some(s')
    ensures i < |s.loop.builds| && s'.tally.history == if s.loop.builds[i].pc.BReset? then 0 else s.tally.history
  {}

  lemma HistoryCounts(c: Config, s: State, a: Action, s': State)
    requires Step(c, s, a) == Some(s')
    ensures s'.tally.history ==
      if MovesFrom(s, a, MRecord) then s.tally.history + 1
      else if a.BuildGo? && a.i < |s.loop.builds| && s.loop.builds[a.i].pc.BReset? then 0
      else s.tally.history
  {
    hide EnvStep, FanStep, DebStep, MainStep, BuildStep, CommandStep, ReapStep, CtxStep;
    match a
    case Main(ch) => MainCounts(c, s, ch, s');
    case BuildGo(i, ok) => BuildCounts(c, s, i, ok, s');
    case Reap(_) | CtxGo(_, _) | ProcExit(_, _) => GoroutinesStand(c, s, a, s');
    case _ => BackgroundStands(c, s, a, s');
  }

  lemma {:induction false} HistoryIsSince(c: Config, ss: seq<State>, acts: seq<Action>, m: nat)
    requires Run(c, ss, acts) && m < |ss|
    ensures ss[m].tally.history == Since(ss, acts, m)
  {
    hide Step;
    if m > 0 {
      HistoryIsSince(c, ss, acts, m - 1);
      HistoryCounts(c, ss[m - 1], acts[m - 1], ss[m]);
    }
  }

  /** Over every run: from where it asks the detector the main loop can go to sleep if and only if three crashes
      have been recorded since a build last reset the detector. */
  lemma BacksOffExactly(c: Config, ss: seq<State>, acts: seq<Action>, m: nat)
    requires Run(c, ss, acts) && m < |ss| && ss[m].loop.main.MBackoff?
    ensures (exists ok, t :: Step(c, ss[m], Main(Go(ok))) == Some(t) && t.loop.main.MSleep?) <==> Since(ss, acts, m) >= 3
  {
    HistoryIsSince(c, ss, acts, m);
    if Since(ss, acts, m) >= 3 {
      assert Step(c, ss[m], Main(Go(true))) == Some(At(ss[m], MSleep));
    }
  }

  // ---------------------------------------------------------------- a stale notice

  /** A build commits and its Stop finds the first server reaped already. */
  lemma StopsTheDead(c: Config, s: State) returns (t: State)
    requires Reachable(c, s) && |s.loop.builds| == 2 && s.loop.builds[1].pc.BCheck? && !s.loop.builds[1].ctxDone
    requires s.sup.cmd == s.sup.done == Some(0) && |s.sup.procs| == 1 && Reaped(s.sup.procs[0])
    ensures Reachable(c, t) && t == With(s, 1, s.loop.builds[1].(pc := BStart)).(tally := t.tally, sup := Claim(s.sup))
  {
    hide EnvStep, FanStep, DebStep, MainStep, CommandStep, ReapStep, CtxStep, CompileStep;
    t := Commit(c, s, 1);
    t := Do(c, t, BuildGo(1, true));
    t := Do(c, t, BuildGo(1, true));
  }

  /** The second build replaces a first server that died while it ran. */
  lemma Replaced(c: Config, s: State) returns (t: State)
    requires Reachable(c, s) && !s.rootDone && s.loop.main.MSelect? && s.loop.buildWatch == Some(1) && |s.loop.builds| == 2
    requires s.loop.builds[1].pc.BCheck? && !s.loop.builds[1].ctxDone
    requires s.sup.cmd == s.sup.done == Some(0) && |s.sup.procs| == 1 && Reaped(s.sup.procs[0])
    ensures Reachable(c, t) && !t.rootDone && t.loop.main.MSelect? && t.loop.buildWatch.None?
    ensures t.sup == Registered(Spawned(Claim(s.sup), Serves(c, s)), 1)
  {
    hide EnvStep, FanStep, DebStep, CommandStep, ReapStep, CtxStep, CompileStep, RunStep, CrashStep;
    t := StopsTheDead(c, s);
    t := StartUp(c, t, 1);
    t := Do(c, t, BuildGo(1, true));
    t := Closes(c, t, 1);
    t := Do(c, t, Main(PickBuildWatch));
  }

  /** The notice of the first server's crash is still pending when the second one runs and nothing builds. */
  lemma StaleNotice(c: Config) returns (t: State)
    ensures Reachable(c, t) && !t.rootDone && t.loop.main.MSelect? && t.loop.buildWatch.None?
    ensures t.sup.exits == Some(Exit(0, true)) && t.sup.done == Some(1) && |t.sup.procs| == 2
    ensures t.sup.procs[1].alive && t.sup.procs[1].reaper.Waiting? && IsRunning(t.sup)
  {
    t := FirstServer(c);
    t := Trigger(c, t);
    t := Launch(c, t);
    t := FirstServerDies(c, t);
    t := Compile(c, t, 1);
    t := Replaced(c, t);
  }

  lemma SecondServerDies(c: Config, s: State) returns (ss: seq<State>)
    requires Reachable(c, s) && s.sup.done == Some(1) && |s.sup.procs| == 2
    requires s.sup.procs[1].alive && s.sup.procs[1].reaper.Waiting?
    ensures |ss| == 4 && ss[0] == s && Segment(c, ss, [ProcExit(1, true), Reap(1), Reap(1)]) && Reachable(c, ss[3])
    ensures ss[3] == s.(sup := ss[3].sup) && !IsRunning(ss[3].sup)
    ensures forall k :: 0 <= k < 4 ==> ss[k].loop == s.loop
  {
    hide FanStep, DebStep, MainStep, BuildStep, CommandStep, CtxStep;
    var t := Do(c, s, ProcExit(1, true));
    var u := Do(c, t, Reap(1));
    var v := Do(c, u, Reap(1));
    ss := [s, t, u, v];
  }

  lemma RecordedNotStarted(c: Config, s: State) returns (ss: seq<State>)
    requires Reachable(c, s) && !s.rootDone && !IsRunning(s.sup)
    requires s.loop.main.MTriage? && s.loop.main.exit.failed && !s.loop.main.buildActive
    ensures |ss| == 6 && ss[0] == s
    ensures Segment(c, ss, [Main(Go(true)), Main(Go(true)), Main(Go(true)), Main(Go(false)), Main(Go(false))])
    ensures ss[2].loop.main.MRecord? && ss[5].loop.main.MSelect?
    ensures forall k :: 0 <= k < 5 ==> HandlingCrash(ss[k].loop.main)
  {
    hide EnvStep, FanStep, DebStep, BuildStep, CommandStep, ReapStep, CtxStep;
    var t := Do(c, s, Main(Go(true)));
    var u := Do(c, t, Main(Go(true)));
    var v := Do(c, u, Main(Go(true)));
    var w := Do(c, v, Main(Go(false)));
    var x := Do(c, w, Main(Go(false)));
    ss := [s, t, u, v, w, x];
  }

  lemma Joined(c: Config, ss: seq<State>, acts: seq<Action>, ts: seq<State>, more: seq<Action>)
    requires Segment(c, ss, acts) && Segment(c, ts, more) && ts[0] == ss[|acts|]
    ensures Segment(c, ss + ts[1..], acts + more)
  {
    var all := ss + ts[1..];
    forall k | 0 <= k < |acts + more|
      ensures Step(c, all[k], (acts + more)[k]) == Some(all[k + 1])
    {
      if k >= |acts| {
        assert all[k] == ts[k - |acts|] && all[k + 1] == ts[k - |acts| + 1];
      }
    }
  }

  /** That the current server must not be reaped meanwhile is needed: a stale notice taken while the second
      server runs is recorded as a crash if that server dies before the check. */
  lemma StaleNoticeAnswered(c: Config) returns (ss: seq<State>, acts: seq<Action>)
    ensures Handling(c, ss, acts) && ss[0].sup.exits.Some? && ss[0].sup.exits.value.failed
    ensures ss[0].loop.buildWatch.None? && IsRunning(ss[0].sup) && Recorded(ss, acts, |acts|)
  {
    hide EnvStep, FanStep, DebStep, BuildStep, CommandStep, ReapStep, CtxStep, Spawned, Registered;
    var s := StaleNotice(c);
    var t := Do(c, s, Main(PickExit));
    assert Segment(c, [s, t], [Main(PickExit)]);
    var us := SecondServerDies(c, t);
    var vs := RecordedNotStarted(c, us[3]);
    ss, acts := [s, t] + us[1..], [Main(PickExit)] + [ProcExit(1, true), Reap(1), Reap(1)];
    Joined(c, [s, t], [Main(PickExit)], us, [ProcExit(1, true), Reap(1), Reap(1)]);
    var more := [Main(Go(true)), Main(Go(true)), Main(Go(true)), Main(Go(false)), Main(Go(false))];
    Joined(c, ss, acts, vs, more);
    ghost var was := ss;
    ss, acts := ss + vs[1..], acts + more;
    assert ss[6] == vs[2] && acts[6] == more[2] && MovesFrom(ss[6], acts[6], MRecord);
    forall k | 1 <= k < 9
      ensures HandlingCrash(ss[k].loop.main)
    {
      if k <= 4 {
        assert ss[k] == us[k - 1];
      } else {
        assert ss[k] == vs[k - 4];
      }
    }
  }
}

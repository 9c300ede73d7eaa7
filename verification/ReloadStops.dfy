/**
 Which Stops are still to come, and for which server: a cancelled build's own, and those that might catch a
 server that outlived its kill.
 */
module ReloadStops {
  import opened Optional
  import opened ReloadModel
  import opened ReloadControl
  import opened ReloadFreshness
  import opened ReloadServer
  import opened ReloadSingle
  import opened ReloadTenure
  import opened ReloadTheorems
  import opened ReloadLimits
  import opened ReloadLate

  // ---------------------------------------------------------------- a cancelled build's Stop

  /** A step of build i in which the controller issues a Stop. */
  predicate IssuesStop(c: Config, s: State, i: nat)
  {
    Step(c, s, BuildGo(i, true)).Some? && Step(c, s, BuildGo(i, true)).value.tally.stops > s.tally.stops
  }

  /** That is exactly the step out of BStop. */
  lemma OnlyAtStop(c: Config, s: State, i: nat)
    ensures IssuesStop(c, s, i) <==> i < |s.loop.builds| && s.loop.builds[i].pc.BStop?
  {
    hide Claim, Registered, Spawned, SetBuild, ProcDone, Serves;
  }

  /** Build i has been cancelled and is not between the check and its Stop. */
  predicate StopsNoMore(s: State, i: nat)
  {
    && i < |s.loop.builds| && s.loop.builds[i].ctxDone
    && !s.loop.builds[i].pc.BReset? && !s.loop.builds[i].pc.BStop?
  }

  lemma StopsNoMoreMain(c: Config, s: State, ch: Choice, s': State, i: nat)
    requires StopsNoMore(s, i) && MainStep(c, s, ch) == Some(s')
    ensures StopsNoMore(s', i)
  {
    if s.loop.main.MSelect? {
      assert s'.loop.builds == s.loop.builds;
    } else if HandlingCrash(s.loop.main) {
      assert s'.loop.builds == s.loop.builds;
    } else {
      SpentCancel(s.loop, i);
    }
  }

  lemma StopsNoMoreBuild(c: Config, s: State, j: nat, ok: bool, s': State, i: nat)
    requires StopsNoMore(s, i) && BuildStep(c, s, j, ok) == Some(s')
    ensures StopsNoMore(s', i)
  {
    if j != i {
      assert |s'.loop.builds| == |s.loop.builds| && s'.loop.builds[i] == s.loop.builds[i];
    }
  }

  lemma StopsNoMoreCommand(c: Config, s: State, a: Action, s': State, i: nat)
    requires StopsNoMore(s, i) && CommandStep(c, s, a) == Some(s')
    ensures StopsNoMore(s', i)
  {}

  lemma StopsNoMoreStep(c: Config, s: State, a: Action, s': State, i: nat)
    requires StopsNoMore(s, i) && Step(c, s, a) == Some(s')
    ensures StopsNoMore(s', i)
  {
    hide MainStep, BuildStep, CommandStep, ReapStep, CtxStep;
    match a
    case Main(ch) => StopsNoMoreMain(c, s, ch, s', i);
    case BuildGo(j, ok) => StopsNoMoreBuild(c, s, j, ok, s', i);
    case Propagate(_) | BuildRead(_) | BuildWrite(_) | BuildOrphan(_) | OrphanWrite(_) => StopsNoMoreCommand(c, s, a, s', i);
    case FanTake | FanCancel | FanForward | FanQuit => SpentCancel(s.loop, i);
    case _ =>
  }

  lemma {:induction false} StopsNoMoreAlong(c: Config, ss: seq<State>, acts: seq<Action>, i: nat, k: nat)
    requires Segment(c, ss, acts) && StopsNoMore(ss[0], i) && k < |ss|
    ensures StopsNoMore(ss[k], i)
  {
    if k > 0 {
      StopsNoMoreAlong(c, ss, acts, i, k - 1);
      StopsNoMoreStep(c, ss[k - 1], acts[k - 1], ss[k], i);
    }
  }

  /** A cancelled build can still issue a Stop, in some continuation of the run, if and only if it stands
      between the post-compile check and its call of Stop. */
  lemma LateStop(c: Config, s: State, i: nat)
    requires Reachable(c, s) && i < |s.loop.builds| && s.loop.builds[i].ctxDone
    ensures (exists t :: Leads(c, s, t) && IssuesStop(c, t, i)) <==> s.loop.builds[i].pc.BReset? || s.loop.builds[i].pc.BStop?
  {
    LeadsToItself(c, s);
    if s.loop.builds[i].pc.BReset? {
      var t := Then(c, s, s, BuildGo(i, true));
      OnlyAtStop(c, t, i);
    } else if s.loop.builds[i].pc.BStop? {
      OnlyAtStop(c, s, i);
    } else {
      forall t | Leads(c, s, t)
        ensures !IssuesStop(c, t, i)
      {
        var ss, acts :| Segment(c, ss, acts) && ss[0] == s && ss[|ss| - 1] == t;
        StopsNoMoreAlong(c, ss, acts, i, |ss| - 1);
        OnlyAtStop(c, t, i);
      }
    }
  }

  // ---------------------------------------------------------------- a server that outlived its kill

  /** Generation g has been succeeded: a newer one is registered. */
  predicate Succeeded(v: Supervisor, g: nat) { v.done.Some? && g < v.done.value < |v.procs| }

  /** Somebody holds the handle of generation g: it is the server's, or a Stop has taken it and signalled g. */
  predicate Pursued(s: State, g: nat)
  {
    || s.sup.cmd == Some(g)
    || (LastPc(s.loop).BStopWait? && LastPc(s.loop).g == g)
    || (s.loop.main.MStopWait? && s.loop.main.g == g)
    || exists h :: 0 <= h < |s.sup.procs| && s.sup.procs[h].ctx.CtxStopWait? && s.sup.procs[h].ctx.g == g
  }

  lemma RegisterSucceeds(v: Supervisor, g: nat, h: nat)
    requires Succeeded(v, g) && h == |v.procs| - 1
    ensures Succeeded(Registered(v, h), g)
  {}

  lemma SucceededCrash(c: Config, s: State, ok: bool, s': State, g: nat)
    requires Tenure(s) && Succeeded(s.sup, g) && HandlingCrash(s.loop.main) && CrashStep(c, s, ok) == Some(s')
    ensures Succeeded(s'.sup, g)
  {
    hide TenureInv, Yielded, Registered;
    if s.loop.main.MRegister? {
      RegisterSucceeds(s.sup, g, s.loop.main.g);
    }
  }

  lemma SucceededRun(c: Config, s: State, ok: bool, s': State, g: nat)
    requires Succeeded(s.sup, g) && RunStep(c, s, ok) == Some(s')
    ensures Succeeded(s'.sup, g)
  {}

  lemma SucceededMain(c: Config, s: State, ch: Choice, s': State, g: nat)
    requires Tenure(s) && Succeeded(s.sup, g) && MainStep(c, s, ch) == Some(s')
    ensures Succeeded(s'.sup, g)
  {
    hide CrashStep, RunStep, Tenure;
    if s.loop.main.MSelect? {
      assert s'.sup.procs == s.sup.procs && s'.sup.done == s.sup.done;
    } else if HandlingCrash(s.loop.main) {
      SucceededCrash(c, s, ch.ok, s', g);
    } else {
      SucceededRun(c, s, ch.ok, s', g);
    }
  }

  lemma SucceededBuild(c: Config, s: State, i: nat, ok: bool, s': State, g: nat)
    requires Control(s) && Tenure(s) && Succeeded(s.sup, g) && BuildStep(c, s, i, ok) == Some(s')
    ensures Succeeded(s'.sup, g)
  {
    hide TenureInv, Yielded;
    BuildMovesLast(c, s, i, ok, s');
    if s.loop.builds[i].pc.BRegister? {
      RegisterSucceeds(s.sup, g, s.loop.builds[i].pc.g);
    }
  }

  lemma SucceededGoroutines(c: Config, s: State, a: Action, s': State, g: nat)
    requires Tenure(s) && Succeeded(s.sup, g) && (a.Reap? || a.CtxGo? || a.ProcExit?) && Step(c, s, a) == Some(s')
    ensures Succeeded(s'.sup, g)
  {
    hide TenureInv, Yielded, RegisterOwned, ReapStep, CtxStep;
    match a
    case Reap(h) => ReapTenure(s.sup, s.rootDone, h, s'.sup);
    case CtxGo(h, ok) => CtxTenure(c, s.sup, s.rootDone, h, ok, s'.sup);
    case _ =>
  }

  lemma SucceededStep(c: Config, s: State, a: Action, s': State, g: nat)
    requires Control(s) && Tenure(s) && Succeeded(s.sup, g) && Step(c, s, a) == Some(s')
    ensures Succeeded(s'.sup, g)
  {
    hide MainStep, BuildStep, FanStep, DebStep, EnvStep, CommandStep, ReapStep, CtxStep, Control, Tenure, Succeeded;
    match a
    case Main(ch) => SucceededMain(c, s, ch, s', g);
    case BuildGo(i, ok) => SucceededBuild(c, s, i, ok, s', g);
    case Reap(_) | CtxGo(_, _) | ProcExit(_, _) => SucceededGoroutines(c, s, a, s', g);
    case _ => BackgroundStands(c, s, a, s');
  }

  lemma {:induction false} SucceededAlong(c: Config, ss: seq<State>, acts: seq<Action>, g: nat, k: nat)
    requires Segment(c, ss, acts) && Reachable(c, ss[0]) && Succeeded(ss[0].sup, g) && k < |ss|
    ensures Succeeded(ss[k].sup, g) && Control(ss[k]) && Tenure(ss[k])
  {
    hide Step, Control, Tenure, Succeeded, Reachable;
    ReachableInv(c, ss[0]);
    SegmentInv(c, ss, acts, k);
    if k > 0 {
      SucceededAlong(c, ss, acts, g, k - 1);
      SucceededStep(c, ss[k - 1], acts[k - 1], ss[k], g);
    }
  }

  /** While the root context is alive, an unreaped server is pursued, its handle held by the server or by a Stop,
      if and only if no newer one has been registered: that, and nothing else, ends the retries. */
  lemma RetriedUntilSucceeded(c: Config, s: State, g: nat)
    requires Reachable(c, s) && !s.rootDone
    requires g < |s.sup.procs| && Registered?(s.sup.procs[g]) && !Reaped(s.sup.procs[g])
    ensures Pursued(s, g) <==> !Succeeded(s.sup, g)
  {
    ReachableInv(c, s);
    if Succeeded(s.sup, g) {
      NotPursued(s, g);
    } else {
      StillPursued(s, g);
    }
  }

  lemma StillPursued(s: State, g: nat)
    requires Tenure(s) && !s.rootDone && !Succeeded(s.sup, g)
    requires g < |s.sup.procs| && Registered?(s.sup.procs[g]) && !Reaped(s.sup.procs[g])
    ensures Pursued(s, g)
  {
    assert s.sup.done == Current(s.sup) == Some(g);
    assert IsRunning(s.sup) && Held(s.sup, LastPc(s.loop));
  }

  /** Putting the handle back does not make a later Stop retry: from the moment a newer generation is registered,
      and for as long as the root context lives, nobody holds or waits for the older one, reaped or not. */
  lemma NoRetry(c: Config, ss: seq<State>, acts: seq<Action>, g: nat)
    requires Segment(c, ss, acts) && Reachable(c, ss[0]) && Succeeded(ss[0].sup, g) && !ss[|acts|].rootDone
    ensures !Pursued(ss[|acts|], g)
  {
    SucceededAlong(c, ss, acts, g, |acts|);
    NotPursued(ss[|acts|], g);
  }

  lemma NotPursued(s: State, g: nat)
    requires Control(s) && Tenure(s) && Succeeded(s.sup, g) && !s.rootDone
    ensures !Pursued(s, g)
  {
    hide LoopInv, Holds, OthersOver, Yielded, RegisterOwned;
    assert CtxCalm(s.sup, false);
  }

  // ---------------------------------------------------------------- a retry at shutdown

  /** A second build gives up on the first server and is about to spawn when the root context ends. */
  lemma GivesUp(c: Config) returns (t: State)
    requires !c.serverKilled
    ensures Reachable(c, t) && !t.rootDone && t.loop.main.MSelect? && |t.loop.builds| == 2
    ensures t.loop.builds[1].pc.BSpawn? && t.loop.inFlightDone == Some(1)
    ensures t.sup == PutBack(Claim(Registered(Spawned(Init.sup, 0), 0)), 0)
  {
    t := FirstServer(c);
    t := Trigger(c, t);
    t := Launch(c, t);
    t := Compile(c, t, 1);
    t := Commit(c, t, 1);
    t := StopFails(c, t, 1);
  }

  lemma StopFails(c: Config, s: State, i: nat) returns (t: State)
    requires !c.serverKilled && Reachable(c, s) && i < |s.loop.builds| && s.loop.builds[i].pc.BStop?
    requires s.sup.cmd.Some? && !s.rootDone
    ensures Reachable(c, t) && t == With(s, i, s.loop.builds[i].(pc := BSpawn)).(tally := t.tally, sup := t.sup)
    ensures t.sup == PutBack(Claim(s.sup), s.sup.cmd.value)
  {
    hide EnvStep, FanStep, DebStep, MainStep, CommandStep, ReapStep, CtxStep, CompileStep;
    t := Do(c, s, BuildGo(i, true));
    t := Do(c, t, BuildGo(i, false));
    t := Do(c, t, BuildGo(i, true));
  }

  /** The first server's context goroutine takes the handle. */
  lemma FirstClaimed(c: Config, s: State) returns (t: State)
    requires Reachable(c, s) && !s.rootDone && s.sup == PutBack(Claim(Registered(Spawned(Init.sup, 0), 0)), 0)
    ensures Reachable(c, t) && t == s.(rootDone := true, sup := t.sup) && |t.sup.procs| == 1
    ensures t.sup.procs[0].ctx == CtxStopWait(0, Some(0)) && t.sup.procs[0].alive && t.sup.procs[0].reaper.Waiting?
  {
    hide FanStep, DebStep, MainStep, BuildStep, CommandStep, ReapStep;
    t := Do(c, s, RootCancel);
    t := Do(c, t, CtxGo(0, true));
    t := Do(c, t, CtxGo(0, true));
  }

  /** Then the build starts the second server. */
  lemma TwoServers(c: Config, s: State) returns (t: State)
    requires Reachable(c, s) && !s.rootDone && |s.loop.builds| == 2 && s.loop.builds[1].pc.BSpawn?
    requires s.sup == PutBack(Claim(Registered(Spawned(Init.sup, 0), 0)), 0)
    ensures Reachable(c, t) && t == s.(rootDone := true, loop := t.loop, sup := t.sup)
    ensures t.loop == SetBuild(s.loop, 1, s.loop.builds[1].(pc := BPost, out := Served(1)))
    ensures |t.sup.procs| == 2 && t.sup.cmd == t.sup.done == Some(1)
    ensures t.sup.procs[0].ctx == CtxStopWait(0, Some(0)) && t.sup.procs[1].ctx.CtxWatching?
    ensures t.sup.procs[0].alive && t.sup.procs[0].reaper.Waiting? && t.sup.procs[1].reaper.Waiting?
  {
    hide EnvStep, FanStep, DebStep, MainStep, CommandStep, ReapStep, CtxStep, CompileStep, Claim, PutBack;
    t := FirstClaimed(c, s);
    t := Do(c, t, BuildGo(1, true));
    t := Do(c, t, BuildGo(1, true));
  }

  /** The second server's context goroutine takes its handle; the first one gives up and puts the old one back. */
  lemma OldHandleBack(c: Config, s: State) returns (t: State)
    requires !c.serverKilled && Reachable(c, s) && s.rootDone && |s.sup.procs| == 2 && s.sup.cmd == s.sup.done == Some(1)
    requires s.sup.procs[0].ctx == CtxStopWait(0, Some(0)) && s.sup.procs[1].ctx.CtxWatching?
    requires s.sup.procs[0].alive && s.sup.procs[0].reaper.Waiting? && s.sup.procs[1].reaper.Waiting?
    ensures Reachable(c, t) && t == s.(sup := t.sup) && |t.sup.procs| == 2 && t.sup.cmd == Some(0) && t.sup.done == Some(1)
    ensures t.sup.procs[0].alive && t.sup.procs[0].reaper.Waiting?
  {
    hide EnvStep, FanStep, DebStep, MainStep, BuildStep, CommandStep, ReapStep;
    t := Do(c, s, CtxGo(1, true));
    t := Do(c, t, CtxGo(1, true));
    t := Do(c, t, CtxGo(0, false));
  }

  lemma FinalStopTakes(c: Config, s: State) returns (t: State)
    requires Reachable(c, s) && s.rootDone && s.loop.main.MSelect? && s.loop.inFlightDone == Some(1)
    requires |s.loop.builds| == 2 && s.loop.builds[1].pc.BPost? && s.sup.cmd == Some(0)
    ensures Reachable(c, t) && t.rootDone && t.loop.main == MStopWait(0, s.sup.done) && t.sup == Claim(s.sup)
  {
    hide EnvStep, FanStep, DebStep, CommandStep, ReapStep, CtxStep, CompileStep, CrashStep;
    t := Do(c, s, BuildGo(1, true));
    t := Closes(c, t, 1);
    t := Do(c, t, Main(PickShutdown));
    t := Do(c, t, Main(Go(true)));
    t := Do(c, t, Main(Go(true)));
    t := Do(c, t, Main(Go(true)));
  }

  /** Only at shutdown can an older server be pursued again: here the final Stop has taken the first server's
      handle and signalled it, while the second is the registered one and it is for that one's channel that
      this Stop waits. */
  lemma RetriedAtShutdown(c: Config) returns (t: State)
    requires !c.serverKilled
    ensures Reachable(c, t) && t.rootDone && Succeeded(t.sup, 0) && Pursued(t, 0) && t.sup.procs[0].alive
    ensures t.loop.main == MStopWait(0, Some(1))
  {
    hide Registered, Spawned, PutBack, Reachable;
    t := GivesUp(c);
    t := TwoServers(c, t);
    t := OldHandleBack(c, t);
    t := FinalStopTakes(c, t);
  }

  /** The Stop of one of the three callers has ended with this step, having signalled g and waited for channel `on`. */
  ghost predicate StopEnds(s: State, s': State, g: nat, on: Option<nat>)
  {
    || (s.loop.main == MStopWait(g, on) && s'.loop.main != s.loop.main)
    || (LastPc(s.loop) == BStopWait(g, on) && LastPc(s'.loop) != LastPc(s.loop))
    || exists h :: 0 <= h < |s.sup.procs| && h < |s'.sup.procs| && s.sup.procs[h].ctx == CtxStopWait(g, on) && s'.sup.procs[h].ctx != s.sup.procs[h].ctx
  }

  /** Whoever called it, a Stop that ends with its channel still open, having given up, leaves the server with a
      handle: that of the process it had signalled, unless there is one already; and no Stop that ends takes or
      replaces one. */
  lemma GivingUpPutsBack(c: Config, s: State, a: Action, s': State, g: nat, on: Option<nat>)
    requires Control(s) && Tenure(s) && Step(c, s, a) == Some(s') && StopEnds(s, s', g, on)
    ensures s'.sup.cmd == s.sup.cmd || (s.sup.cmd.None? && s'.sup.cmd == Some(g))
    ensures !ProcDone(s.sup, on) ==> s'.sup.cmd.Some?
  {
    hide FanStep, DebStep, MainStep, BuildStep, CommandStep, ReapStep, CtxStep, LoopInv, ProcDone, Tenure;
    match a
    case Main(ch) =>
      MainEndsNoOther(c, s, ch, s');
      if s.loop.main.MStopWait? && s'.loop.main != s.loop.main {
        MainStopEnds(c, s, ch, s');
      }
    case BuildGo(i, ok) =>
      BuildEndsNoOther(c, s, i, ok, s');
      if LastPc(s.loop).BStopWait? {
        BuildStopEnds(c, s, i, ok, s');
      }
    case Reap(h) => ReapEndsNone(s.sup, h, s'.sup);
    case CtxGo(h, ok) => CtxStopEnds(c, s.rootDone, s.sup, h, ok, s'.sup, g, on);
    case ProcExit(_, _) =>
    case _ => BackgroundEndsNone(c, s, a, s');
  }

  /** No process that is waiting in its context goroutine's Stop is touched. */
  ghost predicate SameContexts(v: Supervisor, w: Supervisor)
  {
    |v.procs| <= |w.procs| && forall h :: 0 <= h < |v.procs| && v.procs[h].ctx.CtxStopWait? ==> w.procs[h].ctx == v.procs[h].ctx
  }

  lemma RegisterSameContexts(v: Supervisor, g: nat)
    requires OthersOver(v) && g == |v.procs| - 1 && Opening(v)
    ensures SameContexts(v, Registered(v, g))
  {
    assert Fair(v.procs[g]);
  }

  lemma MainEndsNoOther(c: Config, s: State, ch: Choice, s': State)
    requires Control(s) && Tenure(s) && MainStep(c, s, ch) == Some(s')
    ensures SameContexts(s.sup, s'.sup) && (LastPc(s.loop).BStopWait? ==> LastPc(s'.loop) == LastPc(s.loop))
  {
    hide OthersOver, Yielded, Held, Registered, ProcDone, Serves;
    if s.loop.main.MRegister? {
      RegisterSameContexts(s.sup, s.loop.main.g);
    }
  }

  lemma MainStopEnds(c: Config, s: State, ch: Choice, s': State)
    requires MainStep(c, s, ch) == Some(s') && s.loop.main.MStopWait? && s'.loop.main != s.loop.main
    ensures s'.sup.cmd == s.sup.cmd || (s.sup.cmd.None? && s'.sup.cmd == Some(s.loop.main.g))
    ensures !ProcDone(s.sup, s.loop.main.on) ==> s'.sup.cmd.Some?
  {}

  lemma BuildEndsNoOther(c: Config, s: State, i: nat, ok: bool, s': State)
    requires Control(s) && Tenure(s) && BuildStep(c, s, i, ok) == Some(s')
    ensures SameContexts(s.sup, s'.sup) && s'.loop.main == s.loop.main
  {
    hide OthersOver, Yielded, Held, Registered, ProcDone, Serves;
    BuildMovesLast(c, s, i, ok, s');
    if s.loop.builds[i].pc.BRegister? {
      RegisterSameContexts(s.sup, s.loop.builds[i].pc.g);
    }
  }

  lemma BuildStopEnds(c: Config, s: State, i: nat, ok: bool, s': State)
    requires LoopInv(s.loop) && BuildStep(c, s, i, ok) == Some(s') && LastPc(s.loop).BStopWait?
    ensures s'.sup.cmd == s.sup.cmd || (s.sup.cmd.None? && s'.sup.cmd == Some(LastPc(s.loop).g))
    ensures !ProcDone(s.sup, LastPc(s.loop).on) ==> s'.sup.cmd.Some?
  {
    BuildMovesLast(c, s, i, ok, s');
  }

  lemma CtxStopEnds(c: Config, rootDone: bool, v: Supervisor, h: nat, ok: bool, w: Supervisor, g: nat, on: Option<nat>)
    requires CtxStep(c, rootDone, v, h, ok) == Some(w)
    requires exists j :: 0 <= j < |v.procs| && j < |w.procs| && v.procs[j].ctx == CtxStopWait(g, on) && w.procs[j].ctx != v.procs[j].ctx
    ensures w.cmd == v.cmd || (v.cmd.None? && w.cmd == Some(g))
    ensures !ProcDone(v, on) ==> w.cmd.Some?
  {}

  lemma ReapEndsNone(v: Supervisor, h: nat, w: Supervisor)
    requires ReapStep(v, h) == Some(w)
    ensures |w.procs| == |v.procs| && forall j :: 0 <= j < |v.procs| ==> w.procs[j].ctx == v.procs[j].ctx
  {}

  lemma BackgroundEndsNone(c: Config, s: State, a: Action, s': State)
    requires Background(a) && Step(c, s, a) == Some(s')
    ensures s'.sup == s.sup && s'.loop.main == s.loop.main
    ensures LastPc(s.loop).BStopWait? ==> LastPc(s'.loop) == LastPc(s.loop)
  {
    BackgroundStands(c, s, a, s');
  }

  /** How the handle of generation g is given up. */
  ghost predicate GivenUp(v: Supervisor, w: Supervisor, g: nat)
  {
    || (w.cmd.None? && g < |w.procs| && w.procs[g].claimed && w.stopping)
    || (w.cmd == w.done == Some(|v.procs| - 1) && !Registered?(v.procs[|v.procs| - 1]) && !w.stopping)
  }

  lemma ClaimGivesUp(v: Supervisor, g: nat)
    requires v.cmd == Some(g) && g < |v.procs|
    ensures GivenUp(v, Claim(v), g)
  {}

  lemma MainGivesUp(c: Config, s: State, ch: Choice, s': State, g: nat)
    requires RegisterOwned(s.sup, s.loop.main, LastPc(s.loop))
    requires MainStep(c, s, ch) == Some(s') && s.sup.cmd == Some(g) && g < |s.sup.procs| && s'.sup.cmd != Some(g)
    ensures GivenUp(s.sup, s'.sup, g)
  {
    hide CancelInFlight, SetBuild, ProcDone, BuildDone, Serves;
    ClaimGivesUp(s.sup, g);
  }

  lemma BuildGivesUp(c: Config, s: State, i: nat, ok: bool, s': State, g: nat)
    requires LoopInv(s.loop) && RegisterOwned(s.sup, s.loop.main, LastPc(s.loop))
    requires BuildStep(c, s, i, ok) == Some(s') && s.sup.cmd == Some(g) && g < |s.sup.procs| && s'.sup.cmd != Some(g)
    ensures GivenUp(s.sup, s'.sup, g)
  {
    hide LoopInv, ProcDone, Serves;
    BuildMovesLast(c, s, i, ok, s');
    ClaimGivesUp(s.sup, g);
  }

  lemma CtxGivesUp(c: Config, rootDone: bool, v: Supervisor, h: nat, ok: bool, w: Supervisor, g: nat)
    requires CtxStep(c, rootDone, v, h, ok) == Some(w) && v.cmd == Some(g) && g < |v.procs| && w.cmd != Some(g)
    ensures GivenUp(v, w, g)
  {
    hide ProcDone;
    ClaimGivesUp(v, g);
  }

  lemma ReapKeepsHandle(v: Supervisor, h: nat, w: Supervisor)
    requires ReapStep(v, h) == Some(w)
    ensures w.cmd == v.cmd
  {}

  /** A handle is given up in two ways only: a Stop takes it, which marks its process as claimed and the coming exit
      as intended, or a newer process is registered.  A handle put back late never displaces one. */
  lemma HandleGivenUp(c: Config, s: State, a: Action, s': State, g: nat)
    requires Control(s) && Tenure(s) && Step(c, s, a) == Some(s') && s.sup.cmd == Some(g) && g < |s.sup.procs| && s'.sup.cmd != Some(g)
    ensures (s'.sup.cmd.None? && g < |s'.sup.procs| && s'.sup.procs[g].claimed && s'.sup.stopping)
      || (s'.sup.cmd == s'.sup.done == Some(|s.sup.procs| - 1) && !Registered?(s.sup.procs[|s.sup.procs| - 1]) && !s'.sup.stopping)
  {
    hide FanStep, DebStep, MainStep, BuildStep, CommandStep, ReapStep, CtxStep, LoopInv, TenureInv, Yielded, RegisterOwned;
    match a
    case Main(ch) => MainGivesUp(c, s, ch, s', g);
    case BuildGo(i, ok) => BuildGivesUp(c, s, i, ok, s', g);
    case Reap(h) => ReapKeepsHandle(s.sup, h, s'.sup);
    case CtxGo(h, ok) => CtxGivesUp(c, s.rootDone, s.sup, h, ok, s'.sup, g);
    case ProcExit(_, _) =>
    case _ => BackgroundStands(c, s, a, s');
  }

  /** The handle of the server is always that of the process whose channel Stop would wait for, exactly when
      server kills are confirmed. */
  lemma HandleIsCurrent(c: Config)
    ensures (forall s :: Reachable(c, s) && s.sup.cmd.Some? ==> s.sup.cmd == s.sup.done) <==> c.serverKilled
  {
    if c.serverKilled {
      forall s | Reachable(c, s) && s.sup.cmd.Some?
        ensures s.sup.cmd == s.sup.done
      {
        ReachableInv(c, s);
      }
    } else {
      hide Registered, Spawned, PutBack;
      var t := GivesUp(c);
      t := TwoServers(c, t);
      t := OldHandleBack(c, t);
    }
  }
}

/**
 What a cancellation, a crash or a shutdown that comes late can still bring about.

 The post-compile check is the point of no return: a build cancelled before it starts no server in any
 future, and a build cancelled after it still can.
 */
module ReloadLate {
  import opened Optional
  import opened ReloadModel
  import opened ReloadControl
  import opened ReloadFreshness
  import opened ReloadServer
  import opened ReloadSingle
  import opened ReloadShutdown
  import opened ReloadStarts
  import opened ReloadTheorems
  import opened ReloadLimits

  ghost predicate Leads(c: Config, s: State, t: State)
  {
    exists ss, acts :: Segment(c, ss, acts) && ss[0] == s && ss[|ss| - 1] == t
  }

  lemma LeadsToItself(c: Config, s: State)
    ensures Leads(c, s, s)
  {
    assert Segment(c, [s], []);
  }

  lemma Then(c: Config, from: State, s: State, a: Action) returns (t: State)
    requires Leads(c, from, s) && Reachable(c, s) && Step(c, s, a).Some?
    ensures Step(c, s, a) == Some(t) && Leads(c, from, t) && Reachable(c, t)
  {
    t := Do(c, s, a);
    var ss, acts :| Segment(c, ss, acts) && ss[0] == from && ss[|ss| - 1] == s;
    assert Segment(c, ss + [t], acts + [a]);
  }

  // ---------------------------------------------------------------- cancelled in time

  /** The build is past every check that could still turn it away: the post-compile check, and Start's own
      check of the root context. */
  predicate CanServe(pc: BuildPc, rootDone: bool)
  {
    if rootDone then pc.BSpawn? || pc.BRegister? else Committed(pc)
  }

  /** Build i has been cancelled and has not got past those checks. */
  predicate Spent(s: State, i: nat)
  {
    && i < |s.loop.builds| && s.loop.builds[i].ctxDone && !s.loop.builds[i].out.Served?
    && !CanServe(s.loop.builds[i].pc, s.rootDone)
  }

  lemma SpentCancel(l: Loop, i: nat)
    requires i < |l.builds|
    ensures |CancelInFlight(l).builds| == |l.builds|
    ensures CancelInFlight(l).builds[i] == l.builds[i] || CancelInFlight(l).builds[i] == l.builds[i].(ctxDone := true)
  {}

  lemma SpentMain(c: Config, s: State, ch: Choice, s': State, i: nat)
    requires Spent(s, i) && MainStep(c, s, ch) == Some(s')
    ensures Spent(s', i)
  {
    if s.loop.main.MSelect? {
      assert s'.loop.builds == s.loop.builds;
    } else if HandlingCrash(s.loop.main) {
      assert s'.loop.builds == s.loop.builds;
    } else {
      SpentCancel(s.loop, i);
    }
  }

  lemma SpentSwap(c: Config, s: State, i: nat, ok: bool, s': State)
    requires Spent(s, i) && SwapStep(c, s, i, ok) == Some(s')
    ensures Spent(s', i)
  {
    assert !s.loop.builds[i].pc.BSpawn? && !s.loop.builds[i].pc.BRegister?;
  }

  lemma SpentBuild(c: Config, s: State, j: nat, ok: bool, s': State, i: nat)
    requires Spent(s, i) && BuildStep(c, s, j, ok) == Some(s')
    ensures Spent(s', i)
  {
    if j != i {
      assert |s'.loop.builds| == |s.loop.builds| && s'.loop.builds[i] == s.loop.builds[i] && s'.rootDone == s.rootDone;
    } else if Compiling(s.loop.builds[j].pc) {
      assert s'.rootDone == s.rootDone;
    } else {
      SpentSwap(c, s, i, ok, s');
    }
  }

  lemma SpentCommand(c: Config, s: State, a: Action, s': State, i: nat)
    requires Spent(s, i) && CommandStep(c, s, a) == Some(s')
    ensures Spent(s', i)
  {}

  lemma SpentStep(c: Config, s: State, a: Action, s': State, i: nat)
    requires Spent(s, i) && Step(c, s, a) == Some(s')
    ensures Spent(s', i)
  {
    match a
    case Main(ch) => SpentMain(c, s, ch, s', i);
    case BuildGo(j, ok) => SpentBuild(c, s, j, ok, s', i);
    case Propagate(_) | BuildRead(_) | BuildWrite(_) | BuildOrphan(_) | OrphanWrite(_) => SpentCommand(c, s, a, s', i);
    case FanTake | FanCancel | FanForward | FanQuit => SpentCancel(s.loop, i);
    case _ =>
  }

  lemma {:induction false} SpentAlong(c: Config, ss: seq<State>, acts: seq<Action>, i: nat, k: nat)
    requires Segment(c, ss, acts) && Spent(ss[0], i) && k < |ss|
    ensures Spent(ss[k], i)
  {
    if k > 0 {
      SpentAlong(c, ss, acts, i, k - 1);
      SpentStep(c, ss[k - 1], acts[k - 1], ss[k], i);
    }
  }

  // ---------------------------------------------------------------- cancelled too late

  /** Build i stands at a program point with the root context alive. */
  predicate Free(s: State, i: nat) { i < |s.loop.builds| && !s.rootDone }

  predicate HasServed(s: State, i: nat) { i < |s.loop.builds| && s.loop.builds[i].out.Served? }

  lemma FromSpawn(c: Config, from: State, s: State, i: nat) returns (t: State)
    requires Leads(c, from, s) && Reachable(c, s) && i < |s.loop.builds| && s.loop.builds[i].pc.BSpawn?
    ensures Leads(c, from, t) && HasServed(t, i)
  {
    hide EnvStep, FanStep, DebStep, MainStep, CommandStep, ReapStep, CtxStep, CompileStep;
    t := Then(c, from, s, BuildGo(i, true));
    t := Then(c, from, t, BuildGo(i, true));
  }

  lemma FromStart(c: Config, from: State, s: State, i: nat) returns (t: State)
    requires Leads(c, from, s) && Reachable(c, s) && Free(s, i) && s.loop.builds[i].pc.BStart?
    ensures Leads(c, from, t) && HasServed(t, i)
  {
    hide EnvStep, FanStep, DebStep, MainStep, CommandStep, ReapStep, CtxStep, CompileStep;
    t := Then(c, from, s, BuildGo(i, true));
    t := FromSpawn(c, from, t, i);
  }

  /** The claimed server the build waits for is reaped, or about to be. */
  lemma StopWaitMoves(c: Config, s: State, i: nat) returns (a: Action)
    requires c.serverKilled && Reachable(c, s) && Free(s, i) && s.loop.builds[i].pc.BStopWait?
    ensures Step(c, s, a).Some?
    ensures a == BuildGo(i, true) || a.Reap? || a.ProcExit?
  {
    hide Pipeline, RegisterReady, Paid, FanStep, DebStep, MainStep, CommandStep, CtxStep;
    ReachableInv(c, s);
    var g := s.loop.builds[i].pc.g;
    assert Claimed(s.sup, g);
    if Reaped(s.sup.procs[g]) {
      a := BuildGo(i, true);
    } else {
      ClaimedMoves(c, s, g);
      a := if Step(c, s, Reap(g)).Some? then Reap(g) else ProcExit(g, false);
    }
  }

  lemma {:induction false} FromStopWait(c: Config, from: State, s: State, i: nat) returns (t: State)
    requires Leads(c, from, s) && Reachable(c, s) && Free(s, i) && s.loop.builds[i].pc.BStopWait?
    ensures Leads(c, from, t) && Reachable(c, t) && Free(t, i) && t.loop.builds[i].pc.BStart?
    decreases SupRank(s.sup)
  {
    if !c.serverKilled {
      t := Then(c, from, s, BuildGo(i, false));
    } else {
      var a := StopWaitMoves(c, s, i);
      t := Then(c, from, s, a);
      if !a.BuildGo? {
        NearerToReaped(c, s, a, t);
        t := FromStopWait(c, from, t, i);
      }
    }
  }

  lemma NearerToReaped(c: Config, s: State, a: Action, t: State)
    requires Step(c, s, a) == Some(t) && (a.Reap? || a.ProcExit?)
    ensures SupRank(t.sup) < SupRank(s.sup) && t.loop == s.loop && t.rootDone == s.rootDone
  {
    if a.Reap? {
      ReapFalls(s.sup, a.g, t.sup);
    } else {
      SetProcRank(s.sup, a.g, t.sup.procs[a.g]);
    }
  }

  lemma FromStop(c: Config, from: State, s: State, i: nat) returns (t: State)
    requires Leads(c, from, s) && Reachable(c, s) && Free(s, i) && s.loop.builds[i].pc.BStop?
    ensures Leads(c, from, t) && HasServed(t, i)
  {
    hide EnvStep, FanStep, DebStep, MainStep, CommandStep, ReapStep, CtxStep, CompileStep;
    t := Then(c, from, s, BuildGo(i, true));
    if t.loop.builds[i].pc.BStopWait? {
      t := FromStopWait(c, from, t, i);
    }
    t := FromStart(c, from, t, i);
  }

  /** A build past the checks can go on to start a server, cancelled or not. */
  lemma CommittedGoesOn(c: Config, s: State, i: nat) returns (t: State)
    requires Reachable(c, s) && i < |s.loop.builds| && CanServe(s.loop.builds[i].pc, s.rootDone)
    ensures Leads(c, s, t) && HasServed(t, i)
  {
    LeadsToItself(c, s);
    match s.loop.builds[i].pc
    case BReset =>
      t := Then(c, s, s, BuildGo(i, true));
      t := FromStop(c, s, t, i);
    case BStop => t := FromStop(c, s, s, i);
    case BStopWait(_, _) =>
      t := FromStopWait(c, s, s, i);
      t := FromStart(c, s, t, i);
    case BStart => t := FromStart(c, s, s, i);
    case BSpawn => t := FromSpawn(c, s, s, i);
    case BRegister(_) => t := Then(c, s, s, BuildGo(i, true));
  }

  /** A cancelled build that has not started a server yet can still start one if and only if it had passed
      the post-compile check when it was cancelled and, once the root context has ended, Start's check too. */
  lemma LateCancellation(c: Config, s: State, i: nat)
    requires Reachable(c, s) && i < |s.loop.builds| && s.loop.builds[i].ctxDone && !s.loop.builds[i].out.Served?
    ensures (exists t :: Leads(c, s, t) && HasServed(t, i)) <==> CanServe(s.loop.builds[i].pc, s.rootDone)
  {
    if CanServe(s.loop.builds[i].pc, s.rootDone) {
      var t := CommittedGoesOn(c, s, i);
    } else {
      forall t | Leads(c, s, t)
        ensures !HasServed(t, i)
      {
        var ss, acts :| Segment(c, ss, acts) && ss[0] == s && ss[|ss| - 1] == t;
        SpentAlong(c, ss, acts, i, |ss| - 1);
      }
    }
  }

  /** Such late cancellations happen: here the build is about to stop the server, and can go on to start one. */
  lemma LateCancellationHappens(c: Config) returns (t: State)
    ensures Reachable(c, t) && Free(t, 0) && t.loop.builds[0].ctxDone && t.loop.builds[0].pc.BStop?
  {
    t := Boot(c);
    t := Launch(c, t);
    t := Compile(c, t, 0);
    t := Commit(c, t, 0);
    t := Do(c, t, Save);
    t := Trigger(c, t);
  }

  // ---------------------------------------------------------------- a crash during a build

  /** The first server is up and its build has been noticed to be over. */
  lemma FirstServer(c: Config) returns (t: State)
    ensures Reachable(c, t) && Idle(t) && t.loop.buildWatch.None? && t.front == Init.front
    ensures t.sup == Registered(Spawned(Init.sup, 0), 0) && |t.loop.builds| == 1 && t.loop.cancelFn == Some(0)
  {
    t := Boot(c);
    t := Launch(c, t);
    t := Compile(c, t, 0);
    t := SwapIn(c, t, 0);
    t := Do(c, t, Main(PickBuildWatch));
  }

  /** The first server dies and its reaper reports it. */
  lemma FirstServerDies(c: Config, s: State) returns (t: State)
    requires Reachable(c, s) && s.sup == Registered(Spawned(Init.sup, 0), 0)
    ensures Reachable(c, t) && t == s.(sup := t.sup) && t.sup.exits == Some(Exit(0, true))
    ensures |t.sup.procs| == 1 && Crashed(t.sup.procs[0]) && t.sup.cmd == s.sup.cmd && t.sup.done == s.sup.done
  {
    hide FanStep, DebStep, MainStep, BuildStep, CommandStep, CtxStep;
    t := Do(c, s, ProcExit(0, true));
    t := Do(c, t, Reap(0));
    t := Do(c, t, Reap(0));
    t := Do(c, t, Reap(0));
  }

  /** The main loop takes the notice while it is watching a build. */
  lemma NoticeDropped(c: Config, s: State) returns (t: State)
    requires Reachable(c, s) && s.loop.main.MSelect? && s.loop.buildWatch.Some? && s.sup.exits.Some?
    ensures Reachable(c, t) && t == s.(sup := s.sup.(exits := None))
  {
    hide EnvStep, FanStep, DebStep, BuildStep, CommandStep, ReapStep, CtxStep;
    t := Do(c, s, Main(PickExit));
    t := Do(c, t, Main(Go(true)));
  }

  /** A build that has just been launched fails in its first command. */
  lemma Fails(c: Config, s: State, i: nat) returns (t: State)
    requires c.hasBuild || c.hasPre
    requires Reachable(c, s) && i < |s.loop.builds| && s.loop.builds[i].pc.BEnterPre?
    ensures Reachable(c, t) && t == With(s, i, s.loop.builds[i].(pc := BDone, out := Failed))
  {
    hide EnvStep, FanStep, DebStep, MainStep, CommandStep, ReapStep, CtxStep, SwapStep;
    t := Do(c, s, BuildGo(i, false));
    if !c.hasPre {
      t := Do(c, t, BuildGo(i, false));
    }
    t := Closes(c, t, i);
  }

  lemma Closes(c: Config, s: State, i: nat) returns (t: State)
    requires Reachable(c, s) && i < |s.loop.builds| && s.loop.builds[i].pc.BClosing?
    ensures Reachable(c, t) && t == With(s, i, s.loop.builds[i].(pc := BDone))
  {
    t := Do(c, s, BuildGo(i, true));
  }

  /** Not every crash is answered: if the server crashes while a build runs and that build then fails, the
      engine comes to rest with no server, and only another save will start one. */
  lemma CrashDuringFailingBuild(c: Config) returns (t: State)
    requires c.hasBuild || c.hasPre
    ensures Reachable(c, t) && Settled(t) && |t.sup.procs| == 1 && Crashed(t.sup.procs[0]) && t.sup.exits.None?
  {
    hide FanStep, DebStep, MainStep, BuildStep, CommandStep, ReapStep, CtxStep;
    t := FirstServer(c);
    t := Do(c, t, Save);
    t := Trigger(c, t);
    t := Launch(c, t);
    t := FirstServerDies(c, t);
    t := NoticeDropped(c, t);
    t := Fails(c, t, 1);
    ReachableInv(c, t);
  }

  // ---------------------------------------------------------------- two Stops at shutdown

  /** Exactly which returns of Run leave a server unreaped, given that server kills are confirmed: those of a final
      Stop that finds no handle while a process is unreaped, because another Stop has taken the handle. */
  lemma ReturnsReaped(c: Config, s: State, a: Action, s': State)
    requires c.serverKilled && Reachable(c, s) && Step(c, s, a) == Some(s')
    requires !s.loop.main.MReturned? && s'.loop.main.MReturned?
    ensures s.loop.main.MStop? || s.loop.main.MStopWait?
    ensures !AllReaped(s'.sup) <==> s.loop.main.MStop? && s.sup.cmd.None? && !AllReaped(s.sup)
  {
    ReachableInv(c, s);
    OnlyMainReturns(c, s, a, s');
    if s.loop.main.MStopWait? {
      assert Claimed(s.sup, s.loop.main.g);
    }
  }

  lemma OnlyMainReturns(c: Config, s: State, a: Action, s': State)
    requires Control(s) && Step(c, s, a) == Some(s') && !s.loop.main.MReturned? && s'.loop.main.MReturned?
    ensures a.Main? && (s.loop.main.MStop? || s.loop.main.MStopWait?)
  {
    hide EnvStep, FanStep, DebStep, BuildStep, CommandStep, ReapStep, CtxStep, Endings;
    match a
    case Main(_) =>
    case BuildGo(i, ok) => BuildMovesLast(c, s, i, ok, s');
    case Reap(_) | CtxGo(_, _) | ProcExit(_, _) => GoroutinesStand(c, s, a, s');
    case _ => BackgroundStands(c, s, a, s');
  }

  lemma ClaimedByContext(c: Config, s: State) returns (t: State)
    requires Reachable(c, s) && !s.rootDone && s.sup == Registered(Spawned(Init.sup, 0), 0)
    ensures Reachable(c, t) && t == s.(rootDone := true, sup := t.sup) && t.sup.cmd.None?
    ensures |t.sup.procs| == 1 && t.sup.procs[0].alive && t.sup.procs[0].claimed && !Reaped(t.sup.procs[0])
  {
    hide FanStep, DebStep, MainStep, BuildStep, CommandStep, ReapStep;
    t := Do(c, s, RootCancel);
    t := Do(c, t, CtxGo(0, true));
    t := Do(c, t, CtxGo(0, true));
  }

  /** Such returns happen: the context goroutine's Stop has claimed the server, which is still alive. */
  lemma ReturnBeforeReap(c: Config) returns (t: State)
    ensures Reachable(c, t) && t.loop.main.MReturned?
    ensures |t.sup.procs| == 1 && t.sup.procs[0].alive && t.sup.procs[0].claimed && !Reaped(t.sup.procs[0])
  {
    hide EnvStep, FanStep, DebStep, BuildStep, CommandStep, ReapStep, CtxStep;
    t := FirstServer(c);
    t := ClaimedByContext(c, t);
    t := Do(c, t, Main(PickShutdown));
    t := Do(c, t, Main(Go(true)));
    t := Do(c, t, Main(Go(true)));
    t := Do(c, t, Main(Go(true)));
  }
}

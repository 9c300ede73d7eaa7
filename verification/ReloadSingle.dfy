/**
 Which thread may be doing what to the server: the link between the supervisor's state and the program
 counters of the main loop and of the build goroutine, assuming that every server kill is confirmed.
 */
module ReloadSingle {
  import opened Optional
  import opened ReloadModel
  import opened ReloadControl
  import opened ReloadFreshness
  import opened ReloadServer

  /** The main loop has found the server down and is on its way to starting it. */
  predicate FoundDown(pc: MainPc) { pc.MRecord? || pc.MBackoff? || pc.MSleep? || pc.MStart? || pc.MSpawn? }

  function LastPc(l: Loop): BuildPc { if l.builds == [] then BDone else Last(l).pc }

  /** Steps of everything but the main loop, the build goroutines and the server's own goroutines. */
  predicate Background(a: Action) { !a.Main? && !a.BuildGo? && !a.Reap? && !a.CtxGo? && !a.ProcExit? }

  /** What such a step cannot touch. */
  ghost predicate Bystander(s: State, s': State)
  {
    && s'.sup == s.sup && s'.tally == s.tally && s'.loop.main == s.loop.main
    && |s'.loop.builds| == |s.loop.builds|
    && (LastPc(s'.loop) == LastPc(s.loop) || (!Committed(LastPc(s'.loop)) && !Committed(LastPc(s.loop))))
  }

  lemma FanStands(s: State, a: Action, s': State)
    requires FanStep(s, a) == Some(s')
    ensures Bystander(s, s') && s'.rootDone == s.rootDone
  {}

  lemma CommandStands(c: Config, s: State, a: Action, s': State)
    requires CommandStep(c, s, a) == Some(s')
    ensures Bystander(s, s') && s'.rootDone == s.rootDone
  {}

  lemma BackgroundStands(c: Config, s: State, a: Action, s': State)
    requires Background(a) && Step(c, s, a) == Some(s')
    ensures Bystander(s, s') && (s'.rootDone == s.rootDone || a.RootCancel?)
  {
    hide FanStep, CommandStep, MainStep, BuildStep, ReapStep, CtxStep;
    match a
    case FanTake | FanCancel | FanForward | FanQuit => FanStands(s, a, s');
    case Propagate(_) | BuildRead(_) | BuildWrite(_) | BuildOrphan(_) | OrphanWrite(_) => CommandStands(c, s, a, s');
    case _ =>
  }

  /** Reapers, context goroutines and exits touch nothing but the server's processes and fields. */
  lemma GoroutinesStand(c: Config, s: State, a: Action, s': State)
    requires (a.Reap? || a.CtxGo? || a.ProcExit?) && Step(c, s, a) == Some(s')
    ensures s' == s.(sup := s'.sup) && |s'.sup.procs| == |s.sup.procs|
  {
    hide ReapStep, CtxStep;
    match a
    case Reap(g) => ReapStands(s.sup, g, s'.sup);
    case CtxGo(g, ok) => CtxStands(c, s.rootDone, s.sup, g, ok, s'.sup);
    case _ =>
  }

  lemma ReapStands(v: Supervisor, g: nat, w: Supervisor)
    requires ReapStep(v, g) == Some(w)
    ensures |w.procs| == |v.procs|
  {}

  lemma CtxStands(c: Config, rootDone: bool, v: Supervisor, g: nat, ok: bool, w: Supervisor)
    requires CtxStep(c, rootDone, v, g, ok) == Some(w)
    ensures |w.procs| == |v.procs|
  {}

  ghost predicate RegisterOwned(v: Supervisor, main: MainPc, pc: BuildPc)
  {
    && (main.MRegister? ==> Opening(v) && main.g == |v.procs| - 1)
    && (pc.BRegister? ==> Opening(v) && pc.g == |v.procs| - 1)
    && (Opening(v) ==> main.MRegister? || pc.BRegister?)
  }

  ghost predicate Down(v: Supervisor, rootDone: bool, main: MainPc, pc: BuildPc)
  {
    && (FoundDown(main) || pc.BSpawn? ==> AllReaped(v))
    && (pc.BStart? ==> AllReaped(v) || rootDone)
  }

  /** Generation g is the newest one and has been claimed. */
  predicate Claimed(v: Supervisor, g: nat) { g + 1 == |v.procs| && v.procs[g].claimed }

  ghost predicate Stopping(v: Supervisor, rootDone: bool, main: MainPc, pc: BuildPc)
  {
    && (pc.BStopWait? ==> Claimed(v, pc.g) && pc.on == Some(pc.g))
    && (main.MStopWait? ==> Claimed(v, main.g) && main.on == Some(main.g))
    && (main.MStopWait? || main.MReturned? ==> v.cmd.None?)
    && (!rootDone && |v.procs| > 0 && v.procs[|v.procs| - 1].claimed && !Reaped(v.procs[|v.procs| - 1]) ==> pc.BStopWait?)
  }

  ghost predicate Owners(v: Supervisor, rootDone: bool, main: MainPc, pc: BuildPc)
  {
    RegisterOwned(v, main, pc) && Down(v, rootDone, main, pc) && Stopping(v, rootDone, main, pc)
  }

  ghost predicate Supervised(s: State)
  {
    SupInv(s.sup, s.rootDone) && Owners(s.sup, s.rootDone, s.loop.main, LastPc(s.loop))
  }

  /** What processes, reapers and context goroutines can change by themselves. */
  ghost predicate Drifts(v: Supervisor, w: Supervisor, rootDone: bool)
  {
    && |w.procs| == |v.procs|
    && (w.cmd == v.cmd || w.cmd.None?)
    && (forall g :: 0 <= g < |v.procs| ==>
          && Registered?(w.procs[g]) == Registered?(v.procs[g])
          && (Reaped(v.procs[g]) ==> Reaped(w.procs[g]))
          && (v.procs[g].claimed ==> w.procs[g].claimed)
          && (!rootDone ==> w.procs[g].claimed == v.procs[g].claimed))
  }

  lemma ReapDrifts(v: Supervisor, g: nat, w: Supervisor, rootDone: bool)
    requires ReapStep(v, g) == Some(w)
    ensures Drifts(v, w, rootDone)
  {}

  lemma CtxDrifts(c: Config, v: Supervisor, rootDone: bool, g: nat, ok: bool, w: Supervisor)
    requires SupInv(v, rootDone) && c.serverKilled && CtxStep(c, rootDone, v, g, ok) == Some(w)
    ensures Drifts(v, w, rootDone)
  {
    if v.procs[g].ctx.CtxStopping? {
      ClaimKeeps(v, rootDone);
    }
  }

  lemma SupervisedEnv(s: State, a: Action, s': State)
    requires Supervised(s) && EnvStep(s, a) == Some(s')
    ensures Supervised(s')
  {
    if a.ProcExit? {
      ExitKeeps(s.sup, s.rootDone, a.g, a.failed);
      assert Drifts(s.sup, s'.sup, s.rootDone);
    }
  }

  lemma SupervisedGoroutines(c: Config, s: State, a: Action, s': State)
    requires c.serverKilled && Supervised(s) && Step(c, s, a) == Some(s') && (a.Reap? || a.CtxGo?)
    ensures Supervised(s')
  {
    if a.Reap? {
      ReapKeeps(s.sup, s.rootDone, a.g, s'.sup);
      ReapDrifts(s.sup, a.g, s'.sup, s.rootDone);
    } else {
      CtxKeeps(c, s.sup, s.rootDone, a.g, a.ok, s'.sup);
      CtxDrifts(c, s.sup, s.rootDone, a.g, a.ok, s'.sup);
    }
  }

  lemma SupervisedSelect(s: State, ch: Choice, s': State)
    requires Supervised(s) && s.loop.main.MSelect? && SelectStep(s, ch) == Some(s')
    ensures Supervised(s')
  {
    assert s'.sup == s.sup.(exits := s'.sup.exits);
  }

  /** When no build is running and IsRunning says no, nothing is left unreaped. */
  lemma NotRunningMeansDown(v: Supervisor, rootDone: bool)
    requires SupInv(v, rootDone) && !Opening(v) && !IsRunning(v)
    ensures AllReaped(v)
  {}

  lemma SupervisedCrash(c: Config, s: State, ok: bool, s': State)
    requires Control(s) && Supervised(s) && HandlingCrash(s.loop.main) && CrashStep(c, s, ok) == Some(s')
    ensures Supervised(s')
  {
    hide SupInv, HandlesNameLast, BuildsSerial, Endings;
    match s.loop.main
    case MCheck =>
      if !IsRunning(s.sup) {
        NotRunningMeansDown(s.sup, s.rootDone);
      }
    case MSpawn => SpawnKeeps(s.sup, s.rootDone, Serves(c, s));
    case MRegister(g) => RegisterKeeps(s.sup, s.rootDone);
    case _ =>
  }

  lemma SupervisedLeave(c: Config, s: State, ok: bool, s': State)
    requires Control(s) && c.serverKilled && Supervised(s) && RunStep(c, s, ok) == Some(s')
    requires s.loop.main.MStop? || s.loop.main.MStopWait?
    ensures Supervised(s')
  {
    ClaimKeeps(s.sup, s.rootDone);
  }

  /** The launch steps and stopInFlight never touch the server. */
  lemma RunLeavesServer(c: Config, s: State, ok: bool, s': State)
    requires Control(s) && RunStep(c, s, ok) == Some(s') && !s.loop.main.MStop? && !s.loop.main.MStopWait?
    ensures s'.sup == s.sup && s'.rootDone == s.rootDone
    ensures !s'.loop.main.MRegister? && !FoundDown(s'.loop.main) && !s'.loop.main.MStopWait? && !s'.loop.main.MReturned?
    ensures LastPc(s'.loop) == LastPc(s.loop) || s'.loop.main.MPublish? || s.loop.main.MPublish?
  {
    CancelKeeps(s.loop);
  }

  lemma SupervisedRun(c: Config, s: State, ok: bool, s': State)
    requires Control(s) && c.serverKilled && Supervised(s) && RunStep(c, s, ok) == Some(s')
    ensures Supervised(s')
  {
    if s.loop.main.MStop? || s.loop.main.MStopWait? {
      SupervisedLeave(c, s, ok, s');
    } else {
      RunLeavesServer(c, s, ok, s');
    }
  }

  lemma SupervisedCompile(c: Config, s: State, i: nat, ok: bool, s': State)
    requires Control(s) && Supervised(s) && i < |s.loop.builds| && Compiling(s.loop.builds[i].pc)
    requires CompileStep(c, s, i, ok) == Some(s')
    ensures Supervised(s')
  {
    CompileReplacesLast(c, s, i, ok, s');
  }

  /** A build that reaches Stop before the root ends, and finds no handle, has nothing left to stop. */
  lemma NothingToStop(v: Supervisor, main: MainPc)
    requires SupInv(v, false) && Owners(v, false, main, BStop) && !main.MRegister? && v.cmd.None?
    ensures AllReaped(v)
  {}

  lemma SupervisedStop(c: Config, s: State, i: nat, ok: bool, s': State)
    requires Control(s) && c.serverKilled && Supervised(s) && i < |s.loop.builds| && SwapStep(c, s, i, ok) == Some(s')
    requires s.loop.builds[i].pc.BStop? || s.loop.builds[i].pc.BStopWait?
    ensures Supervised(s')
  {
    SwapReplacesLast(c, s, i, ok, s');
    if s.loop.builds[i].pc.BStop? {
      ClaimKeeps(s.sup, s.rootDone);
      if s.sup.cmd.None? && !s.rootDone {
        NothingToStop(s.sup, s.loop.main);
      }
    }
  }

  lemma SupervisedSpawn(c: Config, s: State, i: nat, ok: bool, s': State)
    requires Control(s) && Supervised(s) && i < |s.loop.builds| && s.loop.builds[i].pc.BSpawn? && SwapStep(c, s, i, ok) == Some(s')
    ensures Supervised(s')
  {
    hide SupInv, BuildsSerial, HandlesNameLast, Endings;
    SwapReplacesLast(c, s, i, ok, s');
    SpawnKeeps(s.sup, s.rootDone, Serves(c, s));
  }

  lemma SupervisedRegister(c: Config, s: State, i: nat, ok: bool, s': State)
    requires Control(s) && Supervised(s) && i < |s.loop.builds| && s.loop.builds[i].pc.BRegister? && SwapStep(c, s, i, ok) == Some(s')
    ensures Supervised(s')
  {
    hide SupInv, BuildsSerial, HandlesNameLast, Endings;
    SwapReplacesLast(c, s, i, ok, s');
    RegisterKeeps(s.sup, s.rootDone);
  }

  lemma SupervisedSwap(c: Config, s: State, i: nat, ok: bool, s': State)
    requires Control(s) && c.serverKilled && Supervised(s) && i < |s.loop.builds| && SwapStep(c, s, i, ok) == Some(s')
    ensures Supervised(s')
  {
    hide SupInv, LoopInv, Claim, PutBack, Spawned, Registered;
    SwapReplacesLast(c, s, i, ok, s');
    match s.loop.builds[i].pc
    case BStop | BStopWait(_, _) => SupervisedStop(c, s, i, ok, s');
    case BSpawn => SupervisedSpawn(c, s, i, ok, s');
    case BRegister(g) => SupervisedRegister(c, s, i, ok, s');
    case _ =>
  }

  lemma SupervisedMain(c: Config, s: State, ch: Choice, s': State)
    requires c.serverKilled && Control(s) && Supervised(s) && MainStep(c, s, ch) == Some(s')
    ensures Supervised(s')
  {
    hide SelectStep, CrashStep, RunStep, Supervised, Control;
    if s.loop.main.MSelect? {
      SupervisedSelect(s, ch, s');
    } else if HandlingCrash(s.loop.main) {
      SupervisedCrash(c, s, ch.ok, s');
    } else {
      SupervisedRun(c, s, ch.ok, s');
    }
  }

  lemma SupervisedBuild(c: Config, s: State, i: nat, ok: bool, s': State)
    requires c.serverKilled && Control(s) && Supervised(s) && BuildStep(c, s, i, ok) == Some(s')
    ensures Supervised(s')
  {
    hide CompileStep, SwapStep, Supervised, Control;
    if Compiling(s.loop.builds[i].pc) {
      SupervisedCompile(c, s, i, ok, s');
    } else {
      SupervisedSwap(c, s, i, ok, s');
    }
  }

  lemma SupervisedStep(c: Config, s: State, a: Action, s': State)
    requires c.serverKilled && Control(s) && Supervised(s) && Step(c, s, a) == Some(s')
    ensures Supervised(s')
  {
    hide EnvStep, FanStep, DebStep, MainStep, BuildStep, CommandStep, ReapStep, CtxStep, SupInv, Control;
    match a
    case RootCancel | ProcExit(_, _) => SupervisedEnv(s, a, s');
    case Main(ch) => SupervisedMain(c, s, ch, s');
    case BuildGo(i, ok) => SupervisedBuild(c, s, i, ok, s');
    case Reap(_) | CtxGo(_, _) => SupervisedGoroutines(c, s, a, s');
    case _ => BackgroundStands(c, s, a, s');
  }
}

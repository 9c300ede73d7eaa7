/**
 What the trigger pipeline guarantees: every reported version is on its way to cancelling the build that
 predates it, a cancelled build always has a trigger behind it, and an uncancelled build has read a tree
 at least as new as everything handled so far.
 */
module ReloadFreshness {
  import opened Optional
  import opened ReloadModel
  import opened ReloadControl

  function Last(l: Loop): Build
    requires |l.builds| > 0
  {
    l.builds[|l.builds| - 1]
  }

  /** Between receiving from rebuildCh and launching the goroutine. */
  predicate Launching(pc: MainPc)
  {
    ((pc.MCancel? || pc.MWait?) && pc.why.Relaunch?) || pc.MPrepare? || pc.MPublish?
  }

  /** A trigger for a newer build is somewhere in the pipeline. */
  predicate Triggered(s: State)
  {
    s.front.fan.FanSending? || s.front.raw > 0 || s.front.deb == DebRunning(true) || s.front.rebuild || Launching(s.loop.main)
  }

  /** Versions flow from the tree through the watcher channel and the fan-in without being lost. */
  ghost predicate Delivery(f: Front)
  {
    && f.handled <= f.notified <= f.tree
    && (forall k :: 0 <= k < |f.events| ==> f.events[k] <= f.notified)
    && (f.fan.FanGot? ==> f.fan.v <= f.notified)
    && (f.events != [] ==> f.events[|f.events| - 1] == f.notified)
    && (f.events == [] && f.fan.FanGot? ==> f.fan.v == f.notified)
    && (f.events == [] && !f.fan.FanGot? && !f.fan.FanStopped? ==> f.handled == f.notified)
  }

  ghost predicate NotStranded(s: State)
  {
    && (|s.loop.builds| > 0 && Last(s.loop).ctxDone && !s.rootDone ==> Triggered(s))
    && (|s.loop.builds| > 0 && Last(s.loop).ctxDone && Last(s.loop).pc.BCreated? ==> s.rootDone)
    && (s.loop.builds == [] && !s.rootDone ==> s.loop.main.MBoot? || s.front.rebuild || Launching(s.loop.main))
  }

  /** The tree a build read is no older than the tree it was launched on. */
  ghost predicate Dated(c: Config, f: Front, b: Build)
  {
    && b.base <= f.tree
    && (b.snap.Some? ==> b.base <= b.snap.value <= f.tree)
    && (b.pc.BCreated? ==> b.snap.None?)
    && (b.pc == BCompiling(true) ==> b.snap.Some?)
    && (c.hasBuild && (b.pc.BCheck? || Committed(b.pc)) ==> b.snap.Some?)
    && (b.pc.BCreated? || Compiling(b.pc) ==> b.out.Pending?)
  }

  /** Past the check and before the new server is registered. */
  predicate Committed(pc: BuildPc)
  {
    pc.BReset? || pc.BStop? || pc.BStopWait? || pc.BStart? || pc.BSpawn? || pc.BRegister?
  }

  ghost predicate Fresh(c: Config, s: State)
  {
    |s.loop.builds| > 0 ==>
      && Dated(c, s.front, Last(s.loop))
      && (!Last(s.loop).pc.BCreated? && !Last(s.loop).ctxDone ==> s.front.handled <= Last(s.loop).base)
  }

  ghost predicate Pipeline(c: Config, s: State) { Delivery(s.front) && NotStranded(s) && Fresh(c, s) }

  lemma PipelineFan(c: Config, s: State, a: Action, s': State)
    requires Control(s) && Pipeline(c, s) && FanStep(s, a) == Some(s')
    ensures Pipeline(c, s')
  {}

  lemma PipelineDeb(c: Config, s: State, a: Action, s': State)
    requires Control(s) && Pipeline(c, s) && DebStep(s, a) == Some(s')
    ensures Pipeline(c, s')
  {}

  lemma PipelineEnv(c: Config, s: State, a: Action, s': State)
    requires Control(s) && Pipeline(c, s) && EnvStep(s, a) == Some(s')
    ensures Pipeline(c, s')
  {}

  lemma PipelineSelect(c: Config, s: State, ch: Choice, s': State)
    requires Control(s) && Pipeline(c, s) && s.loop.main.MSelect? && SelectStep(s, ch) == Some(s')
    ensures Pipeline(c, s')
  {}

  lemma PipelineCrash(c: Config, s: State, ok: bool, s': State)
    requires Control(s) && Pipeline(c, s) && HandlingCrash(s.loop.main) && CrashStep(c, s, ok) == Some(s')
    ensures Pipeline(c, s')
  {
    assert s'.loop == s.loop.(main := s'.loop.main) && s'.front == s.front && s'.rootDone == s.rootDone;
  }

  lemma PipelineLaunch(c: Config, s: State, ok: bool, s': State)
    requires Control(s) && Pipeline(c, s) && RunStep(c, s, ok) == Some(s')
    requires s.loop.main.MPrepare? || s.loop.main.MPublish?
    ensures Pipeline(c, s')
  {
    if s.loop.main.MPublish? {
      assert Last(s.loop).pc.BCreated?;
    }
  }

  lemma PipelineRun(c: Config, s: State, ok: bool, s': State)
    requires Control(s) && Pipeline(c, s) && RunStep(c, s, ok) == Some(s')
    ensures Pipeline(c, s')
  {
    if s.loop.main.MPrepare? || s.loop.main.MPublish? {
      PipelineLaunch(c, s, ok, s');
    } else if s.loop.main.MCancel? {
      assert s'.front == s.front;
      CancelKeeps(s.loop);
    } else {
      assert s'.loop == s.loop.(main := s'.loop.main);
      assert Leaving(s.loop.main) ==> s.rootDone;
    }
  }

  lemma PipelineCompile(c: Config, s: State, i: nat, ok: bool, s': State)
    requires Control(s) && Pipeline(c, s) && i < |s.loop.builds| && CompileStep(c, s, i, ok) == Some(s')
    ensures Pipeline(c, s')
  {
    hide Delivery, HandlesNameLast, LoopExclusive;
    CompileReplacesLast(c, s, i, ok, s');
  }

  lemma PipelineSwap(c: Config, s: State, i: nat, ok: bool, s': State)
    requires Control(s) && Pipeline(c, s) && i < |s.loop.builds| && SwapStep(c, s, i, ok) == Some(s')
    ensures Pipeline(c, s')
  {
    hide Delivery, Claim, PutBack, Spawned, Registered, ProcDone, HandlesNameLast, LoopExclusive;
    SwapReplacesLast(c, s, i, ok, s');
  }

  lemma PipelineCommand(c: Config, s: State, a: Action, s': State)
    requires Control(s) && Pipeline(c, s) && CommandStep(c, s, a) == Some(s')
    ensures Pipeline(c, s')
  {}

  lemma PipelineMain(c: Config, s: State, ch: Choice, s': State)
    requires Control(s) && Pipeline(c, s) && MainStep(c, s, ch) == Some(s')
    ensures Pipeline(c, s')
  {
    hide SelectStep, CrashStep, RunStep, Pipeline, Control;
    if s.loop.main.MSelect? {
      PipelineSelect(c, s, ch, s');
    } else if HandlingCrash(s.loop.main) {
      PipelineCrash(c, s, ch.ok, s');
    } else {
      PipelineRun(c, s, ch.ok, s');
    }
  }

  lemma PipelineBuild(c: Config, s: State, i: nat, ok: bool, s': State)
    requires Control(s) && Pipeline(c, s) && BuildStep(c, s, i, ok) == Some(s')
    ensures Pipeline(c, s')
  {
    hide CompileStep, SwapStep, Pipeline, Control;
    if Compiling(s.loop.builds[i].pc) {
      PipelineCompile(c, s, i, ok, s');
    } else {
      PipelineSwap(c, s, i, ok, s');
    }
  }

  lemma PipelineStep(c: Config, s: State, a: Action, s': State)
    requires Control(s) && Pipeline(c, s) && Step(c, s, a) == Some(s')
    ensures Pipeline(c, s')
  {
    hide MainStep, BuildStep, FanStep, CommandStep, EnvStep, DebStep, ReapStep, CtxStep, Control;
    match a
    case Save | Notify | CloseEvents | RootCancel | ProcExit(_, _) => PipelineEnv(c, s, a, s');
    case FanTake | FanCancel | FanForward | FanQuit => PipelineFan(c, s, a, s');
    case DebTake | DebFire | DebQuit => PipelineDeb(c, s, a, s');
    case Main(ch) => PipelineMain(c, s, ch, s');
    case BuildGo(i, ok) => PipelineBuild(c, s, i, ok, s');
    case Propagate(_) | BuildRead(_) | BuildWrite(_) | BuildOrphan(_) | OrphanWrite(_) => PipelineCommand(c, s, a, s');
    case _ =>
  }
}

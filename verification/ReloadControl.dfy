/**
 Control invariants of the reload engine: builds are serial, the crash handler never overlaps a build,
 and the three handles of the main loop (inFlightDone, buildWatch, cancelInFlight) name the last build.
 */
module ReloadControl {
  import opened Optional
  import opened ReloadModel

  /** A build goroutine is running. */
  predicate Active(b: Build) { !b.pc.BCreated? && !b.pc.BDone? }

  predicate LastOpen(l: Loop) { |l.builds| > 0 && !l.builds[|l.builds| - 1].pc.BDone? }

  function LastBuild(l: Loop): Option<nat> { if l.builds == [] then None else Some(|l.builds| - 1) }

  function PreviousBuild(l: Loop): Option<nat> { if |l.builds| < 2 then None else Some(|l.builds| - 2) }

  /** The main loop is inside handleUnexpectedExit and has decided that no build is running. */
  predicate Restarting(pc: MainPc) { HandlingCrash(pc) && (pc.MTriage? ==> !pc.buildActive) }

  predicate Leaving(pc: MainPc)
  {
    ((pc.MCancel? || pc.MWait?) && pc.why.Shutdown?) || pc.MStop? || pc.MStopWait? || pc.MReturned?
  }

  predicate AfterWait(pc: MainPc) { pc.MPrepare? || pc.MStop? || pc.MStopWait? || pc.MReturned? }

  ghost predicate BuildsSerial(l: Loop)
  {
    && (forall i :: 0 <= i < |l.builds| - 1 ==> l.builds[i].pc.BDone?)
    && (|l.builds| > 0 ==> (l.builds[|l.builds| - 1].pc.BCreated? <==> l.main.MPublish?))
    && (l.main.MPublish? ==> |l.builds| > 0)
  }

  ghost predicate HandlesNameLast(l: Loop)
  {
    && l.inFlightDone == LastBuild(l)
    && (l.buildWatch.Some? ==> l.buildWatch == LastBuild(l))
    && (LastOpen(l) ==> l.buildWatch == LastBuild(l))
    && l.cancelFn == (if l.main.MPublish? then PreviousBuild(l) else LastBuild(l))
  }

  ghost predicate LoopExclusive(l: Loop)
  {
    && (Restarting(l.main) || AfterWait(l.main) ==> !LastOpen(l))
    && (l.main.MWait? && LastOpen(l) ==> l.builds[|l.builds| - 1].ctxDone)
  }

  ghost predicate LoopInv(l: Loop) { BuildsSerial(l) && HandlesNameLast(l) && LoopExclusive(l) }

  /** Threads that have gone home only did so because the root context ended. */
  ghost predicate Endings(s: State)
  {
    && (Leaving(s.loop.main) ==> s.rootDone)
    && (s.front.eventsClosed ==> s.rootDone)
    && (s.front.fan.FanStopped? ==> s.rootDone)
    && (s.front.deb.DebStopped? ==> s.rootDone)
  }

  ghost predicate Control(s: State) { LoopInv(s.loop) && Endings(s) }

  lemma CancelKeeps(l: Loop)
    requires LoopInv(l)
    ensures LoopInv(CancelInFlight(l))
    ensures CancelInFlight(l).main == l.main && |CancelInFlight(l).builds| == |l.builds|
    ensures CancelInFlight(l).(builds := l.builds) == l
    ensures |l.builds| > 0 && !l.main.MPublish? ==> CancelInFlight(l).builds[|l.builds| - 1].ctxDone
  {}

  lemma ControlCrash(c: Config, s: State, ok: bool, s': State)
    requires Control(s) && HandlingCrash(s.loop.main) && CrashStep(c, s, ok) == Some(s')
    ensures Control(s')
  {}

  /** The two launch steps: allocate the done channel and context, then publish cancel and go. */
  lemma ControlLaunch(c: Config, s: State, ok: bool, s': State)
    requires Control(s) && RunStep(c, s, ok) == Some(s')
    requires s.loop.main.MPrepare? || s.loop.main.MPublish?
    ensures Control(s')
  {}

  lemma ControlRun(c: Config, s: State, ok: bool, s': State)
    requires Control(s) && RunStep(c, s, ok) == Some(s')
    ensures Control(s')
  {
    if s.loop.main.MPrepare? || s.loop.main.MPublish? {
      ControlLaunch(c, s, ok, s');
    } else if s.loop.main.MCancel? {
      CancelKeeps(s.loop);
    } else {
      assert s'.loop == s.loop.(main := s'.loop.main);
    }
  }

  lemma ControlMain(c: Config, s: State, ch: Choice, s': State)
    requires Control(s) && MainStep(c, s, ch) == Some(s')
    ensures Control(s')
  {
    if s.loop.main.MSelect? {
    } else if HandlingCrash(s.loop.main) {
      ControlCrash(c, s, ch.ok, s');
    } else {
      ControlRun(c, s, ch.ok, s');
    }
  }

  lemma CompileReplacesLast(c: Config, s: State, i: nat, ok: bool, s': State)
    requires LoopInv(s.loop) && i < |s.loop.builds| && CompileStep(c, s, i, ok) == Some(s')
    ensures i == |s.loop.builds| - 1 && Active(s.loop.builds[i])
    ensures |s'.loop.builds| == |s.loop.builds| && s'.loop == SetBuild(s.loop, i, s'.loop.builds[i])
    ensures !s'.loop.builds[i].pc.BCreated? && s'.loop.builds[i].ctxDone == s.loop.builds[i].ctxDone
    ensures s'.front == s.front && s'.rootDone == s.rootDone
  {}

  lemma SwapReplacesLast(c: Config, s: State, i: nat, ok: bool, s': State)
    requires LoopInv(s.loop) && i < |s.loop.builds| && SwapStep(c, s, i, ok) == Some(s')
    ensures i == |s.loop.builds| - 1 && Active(s.loop.builds[i])
    ensures |s'.loop.builds| == |s.loop.builds| && s'.loop == SetBuild(s.loop, i, s'.loop.builds[i])
    ensures !s'.loop.builds[i].pc.BCreated? && s'.loop.builds[i].ctxDone == s.loop.builds[i].ctxDone
    ensures s'.front == s.front && s'.rootDone == s.rootDone
  {}

  /** Whatever build moves is the last one, it is active, and only its own record changes. */
  lemma BuildMovesLast(c: Config, s: State, i: nat, ok: bool, s': State)
    requires LoopInv(s.loop) && BuildStep(c, s, i, ok) == Some(s')
    ensures i == |s.loop.builds| - 1 && Active(s.loop.builds[i])
    ensures |s'.loop.builds| == |s.loop.builds| && s'.loop == SetBuild(s.loop, i, s'.loop.builds[i])
    ensures !s'.loop.builds[i].pc.BCreated? && s'.loop.builds[i].ctxDone == s.loop.builds[i].ctxDone
    ensures s'.front == s.front && s'.rootDone == s.rootDone
  {
    if Compiling(s.loop.builds[i].pc) {
      CompileReplacesLast(c, s, i, ok, s');
    } else {
      SwapReplacesLast(c, s, i, ok, s');
    }
  }

  lemma ControlBuild(c: Config, s: State, i: nat, ok: bool, s': State)
    requires Control(s) && BuildStep(c, s, i, ok) == Some(s')
    ensures Control(s')
  {
    BuildMovesLast(c, s, i, ok, s');
  }

  lemma ControlCommand(c: Config, s: State, a: Action, s': State)
    requires Control(s) && CommandStep(c, s, a) == Some(s')
    ensures Control(s')
  {}

  lemma ControlFan(s: State, a: Action, s': State)
    requires Control(s) && FanStep(s, a) == Some(s')
    ensures Control(s')
  {
    CancelKeeps(s.loop);
  }

  lemma ControlStep(c: Config, s: State, a: Action, s': State)
    requires Control(s) && Step(c, s, a) == Some(s')
    ensures Control(s')
  {
    hide MainStep, BuildStep, FanStep, CommandStep, ReapStep, CtxStep, LoopInv;
    match a
    case Main(ch) => ControlMain(c, s, ch, s');
    case BuildGo(i, ok) => ControlBuild(c, s, i, ok, s');
    case FanTake | FanCancel | FanForward | FanQuit => ControlFan(s, a, s');
    case Propagate(_) | BuildRead(_) | BuildWrite(_) | BuildOrphan(_) | OrphanWrite(_) => ControlCommand(c, s, a, s');
    case _ =>
  }
}

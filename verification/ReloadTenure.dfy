/**
 What holds of the server whether or not kills are confirmed: a process no Stop has claimed keeps its handle,
 its own stopping flag and its place, and every older process has been claimed or reaped.
 */
module ReloadTenure {
  import opened Optional
  import opened ReloadModel
  import opened ReloadControl
  import opened ReloadFreshness
  import opened ReloadServer
  import opened ReloadSingle

  /** A Stop has claimed the process, or it has been reaped. */
  predicate Over(p: Proc) { p.claimed || Reaped(p) }

  /** An exit recorded before any claim is not put down to Stop; the two goroutines start together. */
  predicate Fair(p: Proc)
  {
    && (!p.reaper.NotStarted? && !p.reaper.Waiting? && !p.claimedAtExit ==> !p.reaper.intentional)
    && (p.reaper.NotStarted? <==> p.ctx.CtxNone?)
  }

  /** The handle and the flag of an unclaimed current process are its own. */
  ghost predicate Holds(v: Supervisor)
  {
    && v.done == Current(v)
    && (v.done.Some? && !v.procs[v.done.value].claimed ==> v.cmd == v.done && !v.stopping)
  }

  ghost predicate OthersOver(v: Supervisor)
  {
    && (forall g :: 0 <= g < |v.procs| - 1 ==> Registered?(v.procs[g]))
    && (forall g :: 0 <= g < |v.procs| && Registered?(v.procs[g]) && Some(g) != v.done ==> Over(v.procs[g]))
    && (forall g :: 0 <= g < |v.procs| ==> Fair(v.procs[g]))
  }

  ghost predicate CurrentOver(v: Supervisor)
  {
    v.done.Some? ==> v.done.value < |v.procs| && Over(v.procs[v.done.value])
  }

  /** Before it spawns, a build has seen the current process claimed, and the crash handler has seen it down;
      the final Stop has seen it claimed. */
  ghost predicate Yielded(v: Supervisor, main: MainPc, pc: BuildPc)
  {
    && (pc.BStopWait? || pc.BStart? || pc.BSpawn? || pc.BRegister? ==> CurrentOver(v))
    && (FoundDown(main) ==> !IsRunning(v))
    && (main.MRegister? || main.MStopWait? || main.MReturned? ==> CurrentOver(v))
  }

  /** While the root context is alive the handle is never that of an older process. */
  ghost predicate HandleCurrent(v: Supervisor, rootDone: bool)
  {
    !rootDone && v.cmd.Some? ==> v.cmd == v.done
  }

  /** An unreaped current process is held: by the server, or by a build's Stop that waits for it. */
  ghost predicate Held(v: Supervisor, pc: BuildPc)
  {
    IsRunning(v) ==> v.cmd == v.done || pc.BStopWait?
  }

  ghost predicate TenureInv(v: Supervisor, rootDone: bool)
  {
    Holds(v) && OthersOver(v) && CtxCalm(v, rootDone) && HandleCurrent(v, rootDone)
  }

  ghost predicate Tenure(s: State)
  {
    && TenureInv(s.sup, s.rootDone)
    && RegisterOwned(s.sup, s.loop.main, LastPc(s.loop))
    && Yielded(s.sup, s.loop.main, LastPc(s.loop))
    && (!s.rootDone ==> Held(s.sup, LastPc(s.loop)))
    && (!s.rootDone && LastPc(s.loop).BStopWait? ==> s.sup.done == LastPc(s.loop).on == Some(LastPc(s.loop).g))
  }

  // ---------------------------------------------------------------- one lemma per lock section

  /** What a step of the supervisor keeps of what the program counters rely on. */
  ghost predicate KeepsPlace(v: Supervisor, w: Supervisor)
  {
    && |w.procs| == |v.procs| && w.done == v.done && Opening(w) == Opening(v)
    && (CurrentOver(v) ==> CurrentOver(w))
    && (!IsRunning(v) ==> !IsRunning(w))
  }

  lemma ClaimTenure(v: Supervisor, rootDone: bool)
    requires TenureInv(v, rootDone)
    ensures TenureInv(Claim(v), rootDone) && KeepsPlace(v, Claim(v)) && CurrentOver(Claim(v))
  {}

  lemma PutBackTenure(v: Supervisor, rootDone: bool, g: nat)
    requires TenureInv(v, rootDone) && (!rootDone ==> v.done == Some(g))
    ensures TenureInv(PutBack(v, g), rootDone) && KeepsPlace(v, PutBack(v, g))
  {}

  lemma SpawnTenure(v: Supervisor, rootDone: bool, ver: nat)
    requires TenureInv(v, rootDone) && !Opening(v)
    ensures TenureInv(Spawned(v, ver), rootDone) && Opening(Spawned(v, ver)) && Spawned(v, ver).done == v.done
    ensures CurrentOver(v) ==> CurrentOver(Spawned(v, ver))
  {
    var w := Spawned(v, ver);
    assert forall g :: 0 <= g < |v.procs| ==> w.procs[g] == v.procs[g];
  }

  lemma RegisterTenure(v: Supervisor, rootDone: bool)
    requires TenureInv(v, rootDone) && Opening(v) && CurrentOver(v)
    ensures TenureInv(Registered(v, |v.procs| - 1), rootDone) && !Opening(Registered(v, |v.procs| - 1))
  {}

  /** A change to one process that takes back neither claim nor reaping. */
  predicate Advances(p: Proc, q: Proc, rootDone: bool)
  {
    && q.claimed == p.claimed && Registered?(q) == Registered?(p) && (Reaped(p) ==> Reaped(q)) && Fair(q)
    && (rootDone || (!q.ctx.CtxStopping? && !q.ctx.CtxStopWait?))
  }

  lemma UpdateTenure(v: Supervisor, rootDone: bool, g: nat, q: Proc)
    requires TenureInv(v, rootDone) && g < |v.procs| && Advances(v.procs[g], q, rootDone)
    ensures TenureInv(SetProc(v, g, q), rootDone) && KeepsPlace(v, SetProc(v, g, q))
    ensures SetProc(v, g, q).cmd == v.cmd
  {}

  lemma FieldsTenure(u: Supervisor, w: Supervisor, rootDone: bool)
    requires TenureInv(u, rootDone) && w == u.(hasExited := w.hasExited, exits := w.exits)
    ensures TenureInv(w, rootDone) && KeepsPlace(u, w)
  {}

  /** A reaper that finds its process unclaimed reads a clear flag: the current process is the only one
      registered that is neither claimed nor reaped. */
  lemma UnclaimedIsCurrent(v: Supervisor, rootDone: bool, g: nat)
    requires TenureInv(v, rootDone) && g < |v.procs| && v.procs[g].reaper.Waiting? && !v.procs[g].claimed
    ensures v.done == v.cmd == Some(g) && !v.stopping
  {
    assert !Over(v.procs[g]);
  }

  lemma ReapTenure(v: Supervisor, rootDone: bool, g: nat, w: Supervisor)
    requires TenureInv(v, rootDone) && ReapStep(v, g) == Some(w)
    ensures TenureInv(w, rootDone) && KeepsPlace(v, w) && w.cmd == v.cmd
  {
    var p := v.procs[g];
    var q;
    match p.reaper {
      case Waiting =>
        if !p.claimed {
          UnclaimedIsCurrent(v, rootDone, g);
        }
        q := p.(reaper := Recorded(v.stopping), claimedAtExit := p.claimed);
      case Recorded(i) => q := p.(reaper := Closed(i));
      case Closed(i) => q := p.(reaper := Finished(i));
    }
    UpdateTenure(v, rootDone, g, q);
    FieldsTenure(SetProc(v, g, q), w, rootDone);
  }

  lemma CtxTenure(c: Config, v: Supervisor, rootDone: bool, g: nat, ok: bool, w: Supervisor)
    requires TenureInv(v, rootDone) && CtxStep(c, rootDone, v, g, ok) == Some(w)
    ensures TenureInv(w, rootDone) && KeepsPlace(v, w) && (!rootDone ==> w.cmd == v.cmd)
  {
    var p := v.procs[g];
    match p.ctx
    case CtxWatching => UpdateTenure(v, rootDone, g, w.procs[g]);
    case CtxStopping =>
      ClaimTenure(v, rootDone);
      UpdateTenure(Claim(v), rootDone, g, w.procs[g]);
    case CtxStopWait(h, _) =>
      var u := SetProc(v, g, p.(ctx := CtxEnded));
      UpdateTenure(v, rootDone, g, p.(ctx := CtxEnded));
      PutBackTenure(u, rootDone, h);
  }

  // ---------------------------------------------------------------- every step keeps it

  lemma PlaceKeeps(s: State, s': State)
    requires Tenure(s) && TenureInv(s'.sup, s'.rootDone) && KeepsPlace(s.sup, s'.sup)
    requires s'.loop.main == s.loop.main && LastPc(s'.loop) == LastPc(s.loop) && s'.rootDone == s.rootDone
    requires !s.rootDone ==> s'.sup.cmd == s.sup.cmd
    ensures Tenure(s')
  {}

  lemma TenureGoroutines(c: Config, s: State, a: Action, s': State)
    requires Tenure(s) && Step(c, s, a) == Some(s') && (a.Reap? || a.CtxGo? || a.ProcExit?)
    ensures Tenure(s')
  {
    hide ReapStep, CtxStep, Yielded, RegisterOwned, Holds;
    match a
    case Reap(g) => ReapTenure(s.sup, s.rootDone, g, s'.sup); PlaceKeeps(s, s');
    case CtxGo(g, ok) => CtxTenure(c, s.sup, s.rootDone, g, ok, s'.sup); PlaceKeeps(s, s');
    case ProcExit(g, failed) => UpdateTenure(s.sup, s.rootDone, g, s'.sup.procs[g]); PlaceKeeps(s, s');
  }

  lemma TenureSelect(s: State, ch: Choice, s': State)
    requires Tenure(s) && s.loop.main.MSelect? && SelectStep(s, ch) == Some(s')
    ensures Tenure(s')
  {
    FieldsTenure(s.sup, s'.sup, s.rootDone);
  }

  lemma TenureSpawn(c: Config, s: State, ok: bool, s': State)
    requires Control(s) && Tenure(s) && s.loop.main.MSpawn? && CrashStep(c, s, ok) == Some(s')
    ensures Tenure(s')
  {
    if ok {
      SpawnTenure(s.sup, s.rootDone, Serves(c, s));
    }
  }

  lemma TenureCrash(c: Config, s: State, ok: bool, s': State)
    requires Control(s) && Tenure(s) && HandlingCrash(s.loop.main) && CrashStep(c, s, ok) == Some(s')
    ensures Tenure(s')
  {
    hide Holds, OthersOver;
    match s.loop.main
    case MSpawn => TenureSpawn(c, s, ok, s');
    case MRegister(g) => RegisterTenure(s.sup, s.rootDone);
    case _ =>
  }

  lemma TenureLeave(c: Config, s: State, ok: bool, s': State)
    requires Control(s) && Tenure(s) && RunStep(c, s, ok) == Some(s') && (s.loop.main.MStop? || s.loop.main.MStopWait?)
    ensures Tenure(s')
  {
    hide TenureInv, LoopInv;
    if s.loop.main.MStop? {
      ClaimTenure(s.sup, s.rootDone);
    } else {
      PutBackTenure(s.sup, s.rootDone, s.loop.main.g);
    }
    assert s'.loop == s.loop.(main := s'.loop.main) && s'.rootDone == s.rootDone;
  }

  lemma TenureMain(c: Config, s: State, ch: Choice, s': State)
    requires Control(s) && Tenure(s) && MainStep(c, s, ch) == Some(s')
    ensures Tenure(s')
  {
    hide SelectStep, CrashStep, TenureInv, HandlesNameLast;
    if s.loop.main.MSelect? {
      TenureSelect(s, ch, s');
    } else if HandlingCrash(s.loop.main) {
      TenureCrash(c, s, ch.ok, s');
    } else if s.loop.main.MStop? || s.loop.main.MStopWait? {
      TenureLeave(c, s, ch.ok, s');
    } else {
      RunLeavesServer(c, s, ch.ok, s');
    }
  }

  lemma TenureCompile(c: Config, s: State, i: nat, ok: bool, s': State)
    requires Control(s) && Tenure(s) && i < |s.loop.builds| && Compiling(s.loop.builds[i].pc)
    requires CompileStep(c, s, i, ok) == Some(s')
    ensures Tenure(s')
  {
    CompileReplacesLast(c, s, i, ok, s');
  }

  lemma TenureStop(c: Config, s: State, i: nat, ok: bool, s': State)
    requires Control(s) && Tenure(s) && i < |s.loop.builds| && SwapStep(c, s, i, ok) == Some(s')
    requires s.loop.builds[i].pc.BStop? || s.loop.builds[i].pc.BStopWait?
    ensures Tenure(s')
  {
    hide Holds, OthersOver, CtxCalm, LoopInv;
    SwapReplacesLast(c, s, i, ok, s');
    ClaimTenure(s.sup, s.rootDone);
    if s.loop.builds[i].pc.BStopWait? {
      PutBackTenure(s.sup, s.rootDone, s.loop.builds[i].pc.g);
    }
  }

  lemma TenureSwap(c: Config, s: State, i: nat, ok: bool, s': State)
    requires Control(s) && Tenure(s) && i < |s.loop.builds| && SwapStep(c, s, i, ok) == Some(s')
    ensures Tenure(s')
  {
    hide HandlesNameLast, BuildsSerial, Endings, Holds, OthersOver;
    SwapReplacesLast(c, s, i, ok, s');
    match s.loop.builds[i].pc
    case BStop | BStopWait(_, _) => TenureStop(c, s, i, ok, s');
    case BSpawn => SpawnTenure(s.sup, s.rootDone, Serves(c, s));
    case BRegister(g) => RegisterTenure(s.sup, s.rootDone);
    case _ =>
  }

  lemma TenureBuild(c: Config, s: State, i: nat, ok: bool, s': State)
    requires Control(s) && Tenure(s) && BuildStep(c, s, i, ok) == Some(s')
    ensures Tenure(s')
  {
    hide CompileStep, SwapStep, Tenure, Control;
    if Compiling(s.loop.builds[i].pc) {
      TenureCompile(c, s, i, ok, s');
    } else {
      TenureSwap(c, s, i, ok, s');
    }
  }

  /** Every step keeps tenure, whatever becomes of kills. */
  lemma TenureStep(c: Config, s: State, a: Action, s': State)
    requires Control(s) && Tenure(s) && Step(c, s, a) == Some(s')
    ensures Tenure(s')
  {
    hide MainStep, BuildStep, FanStep, DebStep, CommandStep, ReapStep, CtxStep, Control, Holds, OthersOver;
    match a
    case Main(ch) => TenureMain(c, s, ch, s');
    case BuildGo(i, ok) => TenureBuild(c, s, i, ok, s');
    case Reap(_) | CtxGo(_, _) | ProcExit(_, _) => TenureGoroutines(c, s, a, s');
    case _ => BackgroundStands(c, s, a, s');
  }

  /** Once Run has returned, every process has been claimed or reaped. */
  lemma AllOver(s: State)
    requires Control(s) && Tenure(s) && s.loop.main.MReturned?
    ensures forall g :: 0 <= g < |s.sup.procs| ==> Over(s.sup.procs[g])
  {
    assert !Opening(s.sup);
  }
}

/**
 Settling: while the root context lives, once nobody saves any more, every report has been read and no server
 dies by itself, every schedule of the engine runs out of steps, and it runs out only in a settled state.
 With convergence this is the liveness half of "the newest save always wins".
 */
module ReloadSettling {
  import opened Optional
  import opened ReloadModel
  import opened ReloadControl
  import opened ReloadFreshness
  import opened ReloadServer
  import opened ReloadSingle
  import opened ReloadTenure
  import opened ReloadShutdown
  import opened ReloadTheorems

  /** Everything but saves, further reports of the watcher, shutdown, and a server that dies unclaimed. */
  predicate Quiet(s: State, a: Action)
  {
    && !a.Save? && !a.Notify? && !a.RootCancel? && !a.CloseEvents?
    && (a.ProcExit? && a.g < |s.sup.procs| ==> s.sup.procs[a.g].claimed)
  }

  // ---------------------------------------------------------------- the measure

  /** A notice pays for its handling, up to a restart. */
  const NOTICE := 12

  /** A running server that nobody has claimed owes nothing; a claimed or dead one owes its reaper's steps. */
  function ReapCost(p: Proc): nat
  {
    match p.reaper
    case NotStarted => if p.alive && !p.claimed then 1 else 4 + NOTICE
    case Waiting => if p.alive && !p.claimed then 0 else 3 + NOTICE
    case Recorded(_) => 2 + NOTICE
    case Closed(_) => 1 + NOTICE
    case Finished(_) => 0
  }

  function ProcCost(p: Proc): nat
  {
    (if p.alive && p.claimed then 1 else 0) + ReapCost(p) +
    (if p.ctx.CtxNone? then 2 else if p.ctx.CtxWatching? then 1 else 0)
  }

  /** What a freshly spawned process costs, and what claiming one costs at most. */
  const SPAWN := 3
  const CLAIM := 4 + NOTICE

  function BuildPcCost(pc: BuildPc): nat
  {
    match pc
    case BCreated => 34
    case BEnterPre => 33
    case BPre => 32
    case BEnter => 31
    case BCompiling(wrote) => if wrote then 29 else 30
    case BCheck => 28
    case BReset => 27
    case BStop => 10 + CLAIM
    case BStopWait(_, _) => 9
    case BStart => 8
    case BSpawn => 4 + SPAWN
    case BRegister(_) => 3
    case BPost => 2
    case BClosing => 1
    case BDone => 0
  }

  function BuildCost(b: Build): nat
  {
    BuildPcCost(b.pc) + (if b.ctxDone then 0 else 1) + (if b.snap.None? then 1 else 0)
  }

  function MainCost(pc: MainPc): nat
  {
    match pc
    case MBoot => 43
    case MCancel(_) => 41
    case MWait(_) => 40
    case MPrepare => 39
    case MPublish => 1
    case MTriage(_, _) => 11
    case MCheck => 10
    case MRecord => 9
    case MBackoff => 8
    case MSleep => 7
    case MStart => 6
    case MSpawn => 2 + SPAWN
    case MRegister(_) => 1
    case _ => 0
  }

  function FrontCost(f: Front): nat
  {
    47 * |f.events| + (if f.fan.FanGot? then 46 else if f.fan.FanSending? then 45 else 0) + 44 * f.raw +
    (if f.deb == DebRunning(true) then 43 else 0) + (if f.rebuild then 42 else 0)
  }

  function BuildTotal(bs: seq<Build>): nat
  {
    if bs == [] then 0 else BuildTotal(bs[..|bs| - 1]) + BuildCost(bs[|bs| - 1])
  }

  function ProcTotal(ps: seq<Proc>): nat
  {
    if ps == [] then 0 else ProcTotal(ps[..|ps| - 1]) + ProcCost(ps[|ps| - 1])
  }

  function LoopCost(l: Loop): nat { MainCost(l.main) + BuildTotal(l.builds) + (if l.buildWatch.Some? then 1 else 0) }

  function SupCost(v: Supervisor): nat { ProcTotal(v.procs) + (if v.exits.Some? then NOTICE else 0) }

  /** The steps the engine can still take by itself. */
  function Unrest(s: State): nat { FrontCost(s.front) + LoopCost(s.loop) + SupCost(s.sup) + |s.disk.orphans| }

  // ---------------------------------------------------------------- totals under update

  lemma {:induction false} BuildTotalSet(bs: seq<Build>, i: nat, b: Build)
    requires i < |bs|
    ensures BuildTotal(bs[i := b]) == BuildTotal(bs) - BuildCost(bs[i]) + BuildCost(b)
  {
    hide BuildCost;
    var n := |bs| - 1;
    if i < n {
      BuildTotalSet(bs[..n], i, b);
      assert bs[i := b][..n] == bs[..n][i := b];
    } else {
      assert bs[i := b][..n] == bs[..n];
    }
  }

  lemma {:induction false} ProcTotalSet(ps: seq<Proc>, i: nat, p: Proc)
    requires i < |ps|
    ensures ProcTotal(ps[i := p]) == ProcTotal(ps) - ProcCost(ps[i]) + ProcCost(p)
  {
    hide ProcCost;
    var n := |ps| - 1;
    if i < n {
      ProcTotalSet(ps[..n], i, p);
      assert ps[i := p][..n] == ps[..n][i := p];
    } else {
      assert ps[i := p][..n] == ps[..n];
    }
  }

  lemma SetProcCost(v: Supervisor, g: nat, p: Proc)
    requires g < |v.procs|
    ensures SupCost(SetProc(v, g, p)) + ProcCost(v.procs[g]) == SupCost(v) + ProcCost(p)
  {
    hide ProcCost, ProcTotal;
    ProcTotalSet(v.procs, g, p);
  }

  lemma ClaimCost(v: Supervisor)
    ensures SupCost(Claim(v)) <= SupCost(v) + CLAIM
  {
    if v.cmd.Some? && v.cmd.value < |v.procs| {
      SetProcCost(v, v.cmd.value, v.procs[v.cmd.value].(claimed := true));
    }
  }

  lemma PutBackCost(v: Supervisor, g: nat)
    ensures SupCost(PutBack(v, g)) == SupCost(v)
  {}

  lemma SpawnCost(v: Supervisor, ver: nat)
    ensures SupCost(Spawned(v, ver)) == SupCost(v) + SPAWN
  {
    assert Spawned(v, ver).procs[..|v.procs|] == v.procs;
  }

  lemma RegisterCost(v: Supervisor, g: nat)
    requires g < |v.procs| ==> Unregistered(v, g)
    ensures SupCost(Registered(v, g)) <= SupCost(v)
  {
    if g < |v.procs| {
      SetProcCost(v, g, v.procs[g].(reaper := Waiting, ctx := CtxWatching));
    }
  }

  lemma CancelCost(l: Loop)
    ensures LoopCost(CancelInFlight(l)) <= LoopCost(l) && CancelInFlight(l).main == l.main
  {
    if l.cancelFn.Some? && l.cancelFn.value < |l.builds| {
      var n := l.cancelFn.value;
      BuildTotalSet(l.builds, n, l.builds[n].(ctxDone := true));
    }
  }

  // ---------------------------------------------------------------- every quiet step costs

  /** The root context is alive, and the invariants that hold then. */
  ghost predicate Live(s: State)
  {
    !s.rootDone && Control(s) && RegisterReady(s) && Tenure(s)
  }

  lemma FrontCosts(s: State, a: Action, s': State)
    requires Live(s) && (FanStep(s, a) == Some(s') || DebStep(s, a) == Some(s'))
    ensures Unrest(s') < Unrest(s)
  {
    hide SupCost, LoopCost, LoopInv, RegisterReady, Tenure;
    CancelCost(s.loop);
  }

  lemma SelectCosts(s: State, ch: Choice, s': State)
    requires !s.rootDone && s.loop.main.MSelect? && SelectStep(s, ch) == Some(s')
    ensures Unrest(s') < Unrest(s)
  {
    hide ProcTotal, BuildTotal;
  }

  lemma CrashCosts(c: Config, s: State, ok: bool, s': State)
    requires RegisterReady(s) && HandlingCrash(s.loop.main) && CrashStep(c, s, ok) == Some(s')
    ensures Unrest(s') < Unrest(s)
  {
    hide SupCost, BuildTotal, FrontCost, Spawned, Registered, Serves;
    match s.loop.main
    case MSpawn => SpawnCost(s.sup, Serves(c, s));
    case MRegister(g) => RegisterCost(s.sup, g);
    case _ =>
  }

  lemma PrepareCosts(c: Config, s: State, ok: bool, s': State)
    requires s.loop.main.MPrepare? && RunStep(c, s, ok) == Some(s')
    ensures LoopCost(s'.loop) < LoopCost(s.loop) && s' == s.(loop := s'.loop)
  {
    var bs := s'.loop.builds;
    assert bs[..|bs| - 1] == s.loop.builds;
    assert BuildCost(bs[|bs| - 1]) <= 36;
  }

  lemma PublishCosts(c: Config, s: State, ok: bool, s': State)
    requires s.loop.main.MPublish? && RunStep(c, s, ok) == Some(s') && Last(s.loop).pc.BCreated?
    ensures LoopCost(s'.loop) < LoopCost(s.loop) && s' == s.(loop := s'.loop)
  {
    var n := |s.loop.builds| - 1;
    BuildTotalSet(s.loop.builds, n, s'.loop.builds[n]);
  }

  lemma RunCosts(c: Config, s: State, ok: bool, s': State)
    requires Live(s) && RunStep(c, s, ok) == Some(s')
    ensures Unrest(s') < Unrest(s)
  {
    hide BuildTotal, ProcTotal, HandlesNameLast, RegisterReady, Tenure;
    match s.loop.main
    case MPrepare => PrepareCosts(c, s, ok, s');
    case MPublish => PublishCosts(c, s, ok, s');
    case MCancel(_) => CancelCost(s.loop);
    case _ =>
  }

  lemma MainCosts(c: Config, s: State, ch: Choice, s': State)
    requires Live(s) && MainStep(c, s, ch) == Some(s')
    ensures Unrest(s') < Unrest(s)
  {
    hide SelectStep, CrashStep, RunStep, Unrest, Control, RegisterReady, Tenure;
    if s.loop.main.MSelect? {
      SelectCosts(s, ch, s');
    } else if HandlingCrash(s.loop.main) {
      CrashCosts(c, s, ch.ok, s');
    } else {
      RunCosts(c, s, ch.ok, s');
    }
  }

  lemma CompileCosts(c: Config, s: State, i: nat, ok: bool, s': State)
    requires Control(s) && i < |s.loop.builds| && CompileStep(c, s, i, ok) == Some(s')
    ensures Unrest(s') < Unrest(s)
  {
    hide FrontCost, SupCost, BuildTotal, HandlesNameLast, LoopExclusive;
    CompileReplacesLast(c, s, i, ok, s');
    BuildTotalSet(s.loop.builds, i, s'.loop.builds[i]);
    assert s'.sup == s.sup && s'.disk == s.disk;
    assert BuildCost(s'.loop.builds[i]) < BuildCost(s.loop.builds[i]);
  }

  function Outlay(pc: BuildPc): nat { if pc.BSpawn? then SPAWN else if pc.BStop? then CLAIM else 0 }

  /** What the swap costs the supervisor: a claim in Stop, a process in Start, and nothing else. */
  lemma SwapSupCost(c: Config, s: State, i: nat, ok: bool, s': State)
    requires RegisterReady(s) && i == |s.loop.builds| - 1 && SwapStep(c, s, i, ok) == Some(s')
    ensures SupCost(s'.sup) <= SupCost(s.sup) + Outlay(s.loop.builds[i].pc)
  {
    hide SupCost, Spawned, Registered, Claim, PutBack, Serves, ProcDone;
    match s.loop.builds[i].pc
    case BStop => ClaimCost(s.sup);
    case BStopWait(g, _) => PutBackCost(s.sup, g);
    case BSpawn => SpawnCost(s.sup, Serves(c, s));
    case BRegister(g) => RegisterCost(s.sup, g);
    case _ =>
  }

  /** And what it pays out of the build's own account. */
  lemma SwapBuildCost(c: Config, s: State, i: nat, ok: bool, s': State)
    requires i < |s.loop.builds| && SwapStep(c, s, i, ok) == Some(s')
    ensures i < |s'.loop.builds| && BuildCost(s'.loop.builds[i]) + Outlay(s.loop.builds[i].pc) < BuildCost(s.loop.builds[i])
    ensures s'.front == s.front && s'.disk == s.disk
  {
    hide Spawned, Registered, Claim, PutBack, Serves, ProcDone;
  }

  lemma SwapCosts(c: Config, s: State, i: nat, ok: bool, s': State)
    requires Control(s) && RegisterReady(s) && i < |s.loop.builds| && SwapStep(c, s, i, ok) == Some(s')
    ensures Unrest(s') < Unrest(s)
  {
    hide SwapStep, FrontCost, SupCost, BuildTotal, BuildCost, LoopInv, RegisterReady;
    SwapReplacesLast(c, s, i, ok, s');
    SwapSupCost(c, s, i, ok, s');
    SwapBuildCost(c, s, i, ok, s');
    BuildTotalSet(s.loop.builds, i, s'.loop.builds[i]);
  }

  lemma BuildCosts(c: Config, s: State, i: nat, ok: bool, s': State)
    requires Live(s) && BuildStep(c, s, i, ok) == Some(s')
    ensures Unrest(s') < Unrest(s)
  {
    hide CompileStep, SwapStep, Unrest, Control, RegisterReady, Tenure;
    if Compiling(s.loop.builds[i].pc) {
      CompileCosts(c, s, i, ok, s');
    } else {
      SwapCosts(c, s, i, ok, s');
    }
  }

  lemma CommandCosts(c: Config, s: State, a: Action, s': State)
    requires !s.rootDone && CommandStep(c, s, a) == Some(s')
    ensures Unrest(s') < Unrest(s)
  {
    hide FrontCost, SupCost, BuildTotal;
    if !a.OrphanWrite? {
      BuildTotalSet(s.loop.builds, a.i, s'.loop.builds[a.i]);
    }
  }

  lemma ReapCosts(v: Supervisor, g: nat, w: Supervisor)
    requires ReapStep(v, g) == Some(w)
    ensures SupCost(w) < SupCost(v)
  {
    hide ProcTotal;
    var p := v.procs[g];
    match p.reaper
    case Waiting => SetProcCost(v, g, p.(reaper := Recorded(v.stopping), claimedAtExit := p.claimed));
    case Recorded(i) => SetProcCost(v, g, p.(reaper := Closed(i)));
    case Closed(i) => SetProcCost(v, g, p.(reaper := Finished(i)));
  }

  lemma CtxCosts(c: Config, v: Supervisor, g: nat, ok: bool, w: Supervisor)
    requires CtxCalm(v, false) && CtxStep(c, false, v, g, ok) == Some(w)
    ensures SupCost(w) < SupCost(v)
  {
    SetProcCost(v, g, v.procs[g].(ctx := CtxEnded));
  }

  lemma ExitCosts(s: State, g: nat, failed: bool, s': State)
    requires EnvStep(s, ProcExit(g, failed)) == Some(s') && s.sup.procs[g].claimed
    ensures Unrest(s') < Unrest(s)
  {
    hide ProcTotal, LoopCost, FrontCost;
    SetProcCost(s.sup, g, s.sup.procs[g].(alive := false, failed := failed));
  }

  /** Every quiet step brings the engine nearer to rest. */
  lemma QuietStepCosts(c: Config, s: State, a: Action, s': State)
    requires Live(s) && Quiet(s, a) && Step(c, s, a) == Some(s')
    ensures Unrest(s') < Unrest(s)
  {
    hide FanStep, DebStep, MainStep, BuildStep, CommandStep, ReapStep, CtxStep, Control, RegisterReady, LoopCost, SupCost, FrontCost;
    match a
    case ProcExit(g, failed) => ExitCosts(s, g, failed, s');
    case FanTake | FanCancel | FanForward | FanQuit => FrontCosts(s, a, s');
    case DebTake | DebFire | DebQuit => FrontCosts(s, a, s');
    case Main(ch) => MainCosts(c, s, ch, s');
    case BuildGo(i, ok) => BuildCosts(c, s, i, ok, s');
    case Reap(g) => ReapCosts(s.sup, g, s'.sup);
    case CtxGo(g, ok) => CtxCosts(c, s.sup, g, ok, s'.sup);
    case _ => CommandCosts(c, s, a, s');
  }

  // ---------------------------------------------------------------- rest is settled

  lemma FrontMoves(c: Config, s: State) returns (a: Action)
    requires !s.rootDone && Control(s)
    requires !s.front.fan.FanIdle? || s.front.events != [] || s.front.raw > 0 || s.front.deb != DebRunning(false)
    ensures Quiet(s, a) && Killed(c, s, a) && Step(c, s, a).Some?
  {
    hide LoopInv;
    var f := s.front;
    a := if f.fan.FanGot? then FanCancel
    else if f.fan.FanSending? && f.raw < RAW_EVENT_BUFFER then FanForward
    else if f.fan.FanIdle? && f.events != [] then FanTake
    else if f.raw > 0 then DebTake
    else DebFire;
  }

  lemma BuildsMove(c: Config, s: State) returns (a: Action)
    requires Control(s) && (c.serverKilled ==> Supervised(s)) && |s.loop.builds| > 0 && Active(Last(s.loop))
    ensures Quiet(s, a) && Killed(c, s, a) && Step(c, s, a).Some?
  {
    hide Step, Control, Supervised;
    a := BuildMoves(c, s);
  }

  /** With no build running the main loop can always move, unless it is waiting for something to select. */
  lemma MainMoves(c: Config, s: State) returns (a: Action)
    requires !s.rootDone && Control(s) && (s.loop.builds == [] || !Active(Last(s.loop)))
    requires !s.loop.main.MSelect? || s.front.rebuild
    ensures Quiet(s, a) && Killed(c, s, a) && Step(c, s, a).Some?
  {
    a := Main(if s.loop.main.MSelect? then PickRebuild else Go(s.loop.main.MSleep?));
    var l := s.loop;
    assert l.main.MWait? ==> BuildDone(l, l.inFlightDone);
  }

  lemma UnsettledMoves(c: Config, s: State) returns (a: Action)
    requires !s.rootDone && Control(s) && (c.serverKilled ==> Supervised(s))
    requires s.front.notified == s.front.tree && !Settled(s)
    ensures Quiet(s, a) && Killed(c, s, a) && Step(c, s, a).Some?
  {
    hide Step, Quiet, Killed;
    if !s.front.fan.FanIdle? || s.front.events != [] || s.front.raw > 0 || s.front.deb != DebRunning(false) {
      a := FrontMoves(c, s);
    } else if s.loop.builds != [] && Active(Last(s.loop)) {
      a := BuildsMove(c, s);
    } else {
      a := MainMoves(c, s);
    }
  }

  // ---------------------------------------------------------------- over runs

  ghost predicate QuietRun(c: Config, ss: seq<State>, acts: seq<Action>)
  {
    && Segment(c, ss, acts) && Reachable(c, ss[0]) && !ss[0].rootDone
    && forall k :: 0 <= k < |acts| ==> Quiet(ss[k], acts[k])
  }

  lemma QuietKeepsRoot(c: Config, s: State, a: Action, s': State)
    requires Control(s) && Quiet(s, a) && Step(c, s, a) == Some(s')
    ensures s'.rootDone == s.rootDone
  {
    hide FanStep, DebStep, MainStep, BuildStep, CommandStep, ReapStep, CtxStep;
    match a
    case Main(ch) => MainKeepsRoot(c, s, ch, s');
    case BuildGo(i, ok) => BuildMovesLast(c, s, i, ok, s');
    case Reap(_) | CtxGo(_, _) | ProcExit(_, _) => GoroutinesStand(c, s, a, s');
    case _ => BackgroundStands(c, s, a, s');
  }

  lemma MainKeepsRoot(c: Config, s: State, ch: Choice, s': State)
    requires MainStep(c, s, ch) == Some(s')
    ensures s'.rootDone == s.rootDone
  {}

  /** Every schedule of quiet steps is bounded. */
  lemma {:induction false} QuietIsBounded(c: Config, ss: seq<State>, acts: seq<Action>)
    requires QuietRun(c, ss, acts)
    ensures !ss[|acts|].rootDone && Unrest(ss[|acts|]) + |acts| <= Unrest(ss[0])
  {
    hide Step, Quiet, Unrest, Control, RegisterReady, Tenure, Pipeline, Supervised, Reachable;
    if acts != [] {
      var n := |acts| - 1;
      QuietIsBounded(c, ss[..n + 1], acts[..n]);
      ReachableInv(c, ss[0]);
      SegmentInv(c, ss, acts, n);
      assert Step(c, ss[n], acts[n]) == Some(ss[n + 1]);
      QuietKeepsRoot(c, ss[n], acts[n], ss[n + 1]);
      QuietStepCosts(c, ss[n], acts[n], ss[n + 1]);
    }
  }

  /** And one that cannot be extended has settled, with every report read; a server that outlives its kill need
      not have died for that. */
  lemma RestIsSettled(c: Config, s: State)
    requires Reachable(c, s) && !s.rootDone && s.front.notified == s.front.tree
    requires forall a :: Quiet(s, a) && Killed(c, s, a) ==> Step(c, s, a).None?
    ensures Settled(s)
  {
    hide Step, Quiet, Killed, Control, RegisterReady, Tenure, Pipeline, Supervised;
    ReachableInv(c, s);
    if !Settled(s) {
      var a := UnsettledMoves(c, s);
    }
  }

  /** Nothing is left running behind a dead server: at rest its reaper and its context goroutine have ended. */
  lemma RestLeavesNoGoroutine(c: Config, s: State, g: nat)
    requires Reachable(c, s) && !s.rootDone && g < |s.sup.procs| && Registered?(s.sup.procs[g]) && !s.sup.procs[g].alive
    requires forall a :: Quiet(s, a) && Killed(c, s, a) ==> Step(c, s, a).None?
    ensures s.sup.procs[g].reaper.Finished? && s.sup.procs[g].ctx.CtxEnded?
  {
    hide EnvStep, FanStep, DebStep, MainStep, BuildStep, CommandStep, Control, Pipeline, RegisterReady, Supervised;
    ReachableInv(c, s);
    assert Fair(s.sup.procs[g]) && CtxCalm(s.sup, false);
    var reap, leave := Reap(g), CtxGo(g, false);
    assert Quiet(s, reap) && Killed(c, s, reap) && Quiet(s, leave) && Killed(c, s, leave);
  }

  /** The newest save wins: whatever the schedule, after finitely many quiet steps the engine has nothing left to
      do, and then the newest tree has been handled and built, and is in service unless its build or its server
      failed by itself. */
  lemma NewestSaveIsServed(c: Config, ss: seq<State>, acts: seq<Action>)
    requires QuietRun(c, ss, acts)
    ensures |acts| <= Unrest(ss[0])
    ensures var s := ss[|acts|];
      s.front.notified == s.front.tree && (forall a :: Quiet(s, a) && Killed(c, s, a) ==> Step(c, s, a).None?) ==>
        Settled(s) && s.front.handled == s.front.tree && (c.commandKilled || !c.hasBuild ==> ServesNewest(s))
  {
    hide Step, Quiet, Killed, Unrest, Settled, Reachable;
    QuietIsBounded(c, ss, acts);
    var s := ss[|acts|];
    StaysReachable(c, ss, acts);
    if s.front.notified == s.front.tree && forall a :: Quiet(s, a) && Killed(c, s, a) ==> Step(c, s, a).None? {
      RestIsSettled(c, s);
      Convergence(c, s);
    }
  }

  lemma StaysReachable(c: Config, ss: seq<State>, acts: seq<Action>)
    requires Segment(c, ss, acts) && Reachable(c, ss[0])
    ensures Reachable(c, ss[|acts|])
  {
    hide Step;
    var before, done :| Run(c, before, done) && before[|before| - 1] == ss[0];
    var all := before + ss[1..];
    forall k | 0 <= k < |done + acts|
      ensures Step(c, all[k], (done + acts)[k]) == Some(all[k + 1])
    {
      if k >= |done| {
        assert all[k] == ss[k - |done|] && all[k + 1] == ss[k - |done| + 1];
      }
    }
    assert Run(c, all, done + acts);
  }
}

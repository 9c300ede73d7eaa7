/**
 Shutdown: once the root context has ended and the watcher has closed its channel, a natural-number
 measure falls with every step of the engine, and until Run returns some step is always enabled.
 */
module ReloadShutdown {
  import opened Optional
  import opened ReloadModel
  import opened ReloadControl
  import opened ReloadFreshness
  import opened ReloadServer
  import opened ReloadSingle

  predicate Closing(s: State) { s.rootDone && s.front.eventsClosed }

  // ---------------------------------------------------------------- the measure

  function ReaperRank(r: Reaper): nat
  {
    match r case NotStarted => 20 case Waiting => 14 case Recorded(_) => 13 case Closed(_) => 12 case Finished(_) => 0
  }

  function CtxRank(x: CtxPc): nat
  {
    match x case CtxNone => 5 case CtxWatching => 4 case CtxStopping => 3 case CtxStopWait(_, _) => 2 case CtxEnded => 0
  }

  function ProcRank(p: Proc): nat { (if p.alive then 1 else 0) + ReaperRank(p.reaper) + CtxRank(p.ctx) }

  /** Enough to pay for a process spawned while the root context was ending. */
  const NEW_PROC := 26

  function BuildPcRank(pc: BuildPc): nat
  {
    match pc
    case BCreated => 14
    case BEnterPre => 13
    case BPre => 12
    case BEnter => 11
    case BCompiling(wrote) => if wrote then 9 else 10
    case BCheck => 8
    case BReset => 7
    case BStop => 6
    case BStopWait(_, _) => 5
    case BStart => 4
    case BSpawn => 4 + NEW_PROC
    case BRegister(_) => 3
    case BPost => 2
    case BClosing => 1
    case BDone => 0
  }

  function BuildRank(b: Build): nat
  {
    BuildPcRank(b.pc) + (if b.ctxDone then 0 else 1) + (if b.snap.None? then 1 else 0)
  }

  function MainRank(pc: MainPc): nat
  {
    match pc
    case MBoot => 27
    case MSelect => 5
    case MCancel(why) => if why.Relaunch? then 25 else 4
    case MWait(why) => if why.Relaunch? then 24 else 3
    case MPrepare => 23
    case MPublish => 6
    case MTriage(_, _) => 12
    case MCheck => 11
    case MRecord => 10
    case MBackoff => 9
    case MSleep => 8
    case MStart => 7
    case MSpawn => 7 + NEW_PROC
    case MRegister(_) => 6
    case MStop => 2
    case MStopWait(_, _) => 1
    case MReturned => 0
  }

  function FanRank(f: Fan): nat
  {
    match f case FanIdle => 1 case FanGot(_) => 26 case FanSending => 25 case FanStopped => 0
  }

  function DebRank(d: Deb): nat
  {
    match d case DebRunning(armed) => (if armed then 23 else 1) case DebStopped => 0
  }

  function FrontRank(f: Front): nat
  {
    26 * |f.events| + FanRank(f.fan) + 23 * f.raw + DebRank(f.deb) + (if f.rebuild then 21 else 0)
  }

  function BuildSum(bs: seq<Build>): nat { if bs == [] then 0 else BuildSum(bs[..|bs| - 1]) + BuildRank(bs[|bs| - 1]) }

  function ProcSum(ps: seq<Proc>): nat { if ps == [] then 0 else ProcSum(ps[..|ps| - 1]) + ProcRank(ps[|ps| - 1]) }

  function LoopRank(l: Loop): nat { MainRank(l.main) + BuildSum(l.builds) + (if l.buildWatch.Some? then 1 else 0) }

  function SupRank(v: Supervisor): nat { ProcSum(v.procs) + (if v.exits.Some? then 10 else 0) }

  function Measure(s: State): nat { FrontRank(s.front) + LoopRank(s.loop) + SupRank(s.sup) + |s.disk.orphans| }

  // ---------------------------------------------------------------- sums under update

  lemma {:induction false} BuildSumSet(bs: seq<Build>, i: nat, b: Build)
    requires i < |bs|
    ensures BuildSum(bs[i := b]) == BuildSum(bs) - BuildRank(bs[i]) + BuildRank(b)
  {
    var n := |bs| - 1;
    if i < n {
      BuildSumSet(bs[..n], i, b);
      assert bs[i := b][..n] == bs[..n][i := b];
    } else {
      assert bs[i := b][..n] == bs[..n];
    }
  }

  lemma {:induction false} ProcSumSet(ps: seq<Proc>, i: nat, p: Proc)
    requires i < |ps|
    ensures ProcSum(ps[i := p]) == ProcSum(ps) - ProcRank(ps[i]) + ProcRank(p)
  {
    var n := |ps| - 1;
    if i < n {
      ProcSumSet(ps[..n], i, p);
      assert ps[i := p][..n] == ps[..n][i := p];
    } else {
      assert ps[i := p][..n] == ps[..n];
    }
  }

  lemma ClaimRank(v: Supervisor)
    ensures SupRank(Claim(v)) == SupRank(v)
  {
    if v.cmd.Some? && v.cmd.value < |v.procs| {
      ProcSumSet(v.procs, v.cmd.value, v.procs[v.cmd.value].(claimed := true));
    }
  }

  lemma SpawnRank(v: Supervisor, ver: nat)
    ensures SupRank(Spawned(v, ver)) == SupRank(v) + NEW_PROC
  {
    assert Spawned(v, ver).procs[..|v.procs|] == v.procs;
  }

  lemma RegisterRank(v: Supervisor, g: nat)
    requires g < |v.procs| ==> !Registered?(v.procs[g]) && v.procs[g].ctx.CtxNone?
    ensures SupRank(Registered(v, g)) <= SupRank(v)
  {
    if g < |v.procs| {
      ProcSumSet(v.procs, g, v.procs[g].(reaper := Waiting, ctx := CtxWatching));
    }
  }

  lemma CancelRank(l: Loop)
    ensures LoopRank(CancelInFlight(l)) <= LoopRank(l) && CancelInFlight(l).main == l.main
  {
    if l.cancelFn.Some? && l.cancelFn.value < |l.builds| {
      var n := l.cancelFn.value;
      BuildSumSet(l.builds, n, l.builds[n].(ctxDone := true));
    }
  }

  // ---------------------------------------------------------------- a process is registered once

  predicate Unregistered(v: Supervisor, g: nat)
  {
    g < |v.procs| && !Registered?(v.procs[g]) && v.procs[g].ctx.CtxNone?
  }

  /** A Start that has spawned a process is the only one to know it. */
  ghost predicate RegisterReady(s: State)
  {
    && (s.loop.main.MRegister? ==> Unregistered(s.sup, s.loop.main.g))
    && (LastPc(s.loop).BRegister? ==> Unregistered(s.sup, LastPc(s.loop).g))
  }

  lemma ReapLeavesUnregistered(v: Supervisor, g: nat, w: Supervisor, h: nat)
    requires Unregistered(v, h) && ReapStep(v, g) == Some(w)
    ensures Unregistered(w, h)
  {}

  lemma CtxLeavesUnregistered(c: Config, rootDone: bool, v: Supervisor, g: nat, ok: bool, w: Supervisor, h: nat)
    requires Unregistered(v, h) && CtxStep(c, rootDone, v, g, ok) == Some(w)
    ensures Unregistered(w, h)
  {}

  lemma RegisterReadyGoroutines(c: Config, s: State, a: Action, s': State)
    requires RegisterReady(s) && Step(c, s, a) == Some(s') && (a.Reap? || a.CtxGo? || a.ProcExit?)
    ensures RegisterReady(s')
  {
    forall h | Unregistered(s.sup, h)
      ensures Unregistered(s'.sup, h)
    {
      match a
      case Reap(g) => ReapLeavesUnregistered(s.sup, g, s'.sup, h);
      case CtxGo(g, ok) => CtxLeavesUnregistered(c, s.rootDone, s.sup, g, ok, s'.sup, h);
      case _ =>
    }
    assert s'.loop == s.loop;
  }

  lemma RegisterReadyRun(c: Config, s: State, ok: bool, s': State)
    requires Control(s) && RegisterReady(s) && RunStep(c, s, ok) == Some(s')
    ensures RegisterReady(s')
  {
    CancelKeeps(s.loop);
  }

  lemma RegisterReadyCrash(c: Config, s: State, ok: bool, s': State)
    requires Control(s) && RegisterReady(s) && HandlingCrash(s.loop.main) && CrashStep(c, s, ok) == Some(s')
    ensures RegisterReady(s')
  {}

  lemma RegisterReadyMain(c: Config, s: State, ch: Choice, s': State)
    requires Control(s) && RegisterReady(s) && MainStep(c, s, ch) == Some(s')
    ensures RegisterReady(s')
  {
    hide CrashStep, RunStep, Control;
    if s.loop.main.MSelect? {
      assert s'.loop.builds == s.loop.builds && s'.sup.procs == s.sup.procs;
    } else if HandlingCrash(s.loop.main) {
      RegisterReadyCrash(c, s, ch.ok, s');
    } else {
      RegisterReadyRun(c, s, ch.ok, s');
    }
  }

  lemma RegisterReadySwap(c: Config, s: State, i: nat, ok: bool, s': State)
    requires Control(s) && RegisterReady(s) && i < |s.loop.builds| && SwapStep(c, s, i, ok) == Some(s')
    ensures RegisterReady(s')
  {
    SwapReplacesLast(c, s, i, ok, s');
  }

  lemma RegisterReadyBuild(c: Config, s: State, i: nat, ok: bool, s': State)
    requires Control(s) && RegisterReady(s) && BuildStep(c, s, i, ok) == Some(s')
    ensures RegisterReady(s')
  {
    hide SwapStep, Unregistered;
    if Compiling(s.loop.builds[i].pc) {
      CompileReplacesLast(c, s, i, ok, s');
      assert s'.sup == s.sup && s'.loop.main == s.loop.main;
    } else {
      RegisterReadySwap(c, s, i, ok, s');
    }
  }

  lemma RegisterReadyStep(c: Config, s: State, a: Action, s': State)
    requires Control(s) && RegisterReady(s) && Step(c, s, a) == Some(s')
    ensures RegisterReady(s')
  {
    hide EnvStep, FanStep, DebStep, MainStep, BuildStep, CommandStep, ReapStep, CtxStep, Control, Unregistered;
    match a
    case Main(ch) => RegisterReadyMain(c, s, ch, s');
    case BuildGo(i, ok) => RegisterReadyBuild(c, s, i, ok, s');
    case Reap(_) | CtxGo(_, _) | ProcExit(_, _) => RegisterReadyGoroutines(c, s, a, s');
    case _ => BackgroundStands(c, s, a, s');
  }

  // ---------------------------------------------------------------- every step pays

  lemma FrontFalls(s: State, a: Action, s': State)
    requires Closing(s) && (FanStep(s, a) == Some(s') || DebStep(s, a) == Some(s'))
    ensures Closing(s') && Measure(s') < Measure(s)
  {
    CancelRank(s.loop);
  }

  lemma EnvFalls(s: State, a: Action, s': State)
    requires Closing(s) && EnvStep(s, a) == Some(s') && !a.Save?
    ensures Closing(s') && Measure(s') < Measure(s)
  {
    ProcSumSet(s.sup.procs, a.g, s'.sup.procs[a.g]);
  }

  lemma SelectFalls(s: State, ch: Choice, s': State)
    requires Closing(s) && s.loop.main.MSelect? && SelectStep(s, ch) == Some(s')
    ensures Measure(s') < Measure(s)
  {}

  lemma CrashFalls(c: Config, s: State, ok: bool, s': State)
    requires Closing(s) && RegisterReady(s) && HandlingCrash(s.loop.main) && CrashStep(c, s, ok) == Some(s')
    ensures Measure(s') < Measure(s)
  {
    match s.loop.main
    case MSpawn => SpawnRank(s.sup, Serves(c, s));
    case MRegister(g) => RegisterRank(s.sup, g);
    case _ =>
  }

  lemma PrepareFalls(c: Config, s: State, ok: bool, s': State)
    requires s.rootDone && s.loop.main.MPrepare? && RunStep(c, s, ok) == Some(s')
    ensures LoopRank(s'.loop) < LoopRank(s.loop) && s' == s.(loop := s'.loop)
  {
    var bs := s'.loop.builds;
    assert bs[..|bs| - 1] == s.loop.builds;
    assert BuildRank(bs[|bs| - 1]) == 15;
  }

  lemma PublishFalls(c: Config, s: State, ok: bool, s': State)
    requires s.loop.main.MPublish? && RunStep(c, s, ok) == Some(s') && Last(s.loop).pc.BCreated?
    ensures LoopRank(s'.loop) < LoopRank(s.loop) && s' == s.(loop := s'.loop)
  {
    var n := |s.loop.builds| - 1;
    BuildSumSet(s.loop.builds, n, s'.loop.builds[n]);
  }

  lemma RunFalls(c: Config, s: State, ok: bool, s': State)
    requires Closing(s) && Control(s) && RunStep(c, s, ok) == Some(s')
    ensures Measure(s') < Measure(s)
  {
    hide BuildSum, ProcSum, HandlesNameLast;
    match s.loop.main
    case MPrepare => PrepareFalls(c, s, ok, s');
    case MPublish => PublishFalls(c, s, ok, s');
    case MCancel(_) => CancelRank(s.loop);
    case MStop => ClaimRank(s.sup);
    case MStopWait(g, _) => PutBackRank(s.sup, g);
    case _ =>
  }

  lemma CompileFalls(c: Config, s: State, i: nat, ok: bool, s': State)
    requires Control(s) && i < |s.loop.builds| && CompileStep(c, s, i, ok) == Some(s')
    ensures Measure(s') < Measure(s)
  {
    hide FrontRank, SupRank, HandlesNameLast, LoopExclusive;
    CompileReplacesLast(c, s, i, ok, s');
    BuildSumSet(s.loop.builds, i, s'.loop.builds[i]);
    assert s'.sup == s.sup && s'.disk == s.disk;
    assert BuildRank(s'.loop.builds[i]) < BuildRank(s.loop.builds[i]);
  }

  /** What the swap costs the supervisor: nothing, except that a spawn adds a process. */
  lemma SwapSupRank(c: Config, s: State, i: nat, ok: bool, s': State)
    requires RegisterReady(s) && i == |s.loop.builds| - 1 && SwapStep(c, s, i, ok) == Some(s')
    ensures SupRank(s'.sup) <= SupRank(s.sup) + (if s.loop.builds[i].pc.BSpawn? then NEW_PROC else 0)
  {
    match s.loop.builds[i].pc
    case BStop => ClaimRank(s.sup);
    case BSpawn => SpawnRank(s.sup, Serves(c, s));
    case BRegister(g) => RegisterRank(s.sup, g);
    case _ =>
  }

  lemma SwapFalls(c: Config, s: State, i: nat, ok: bool, s': State)
    requires Closing(s) && Control(s) && RegisterReady(s) && i < |s.loop.builds| && SwapStep(c, s, i, ok) == Some(s')
    ensures Measure(s') < Measure(s)
  {
    hide SupRank, FrontRank, RegisterReady, LoopInv;
    SwapReplacesLast(c, s, i, ok, s');
    SwapSupRank(c, s, i, ok, s');
    BuildSumSet(s.loop.builds, i, s'.loop.builds[i]);
    var paid := if s.loop.builds[i].pc.BSpawn? then NEW_PROC else 0;
    assert BuildRank(s'.loop.builds[i]) + paid < BuildRank(s.loop.builds[i]);
    assert s'.front == s.front && s'.disk == s.disk;
  }

  lemma CommandFalls(c: Config, s: State, a: Action, s': State)
    requires CommandStep(c, s, a) == Some(s')
    ensures Measure(s') < Measure(s) && (Closing(s) ==> Closing(s'))
  {
    if !a.OrphanWrite? {
      BuildSumSet(s.loop.builds, a.i, s'.loop.builds[a.i]);
    }
  }

  lemma SetProcRank(v: Supervisor, g: nat, p: Proc)
    requires g < |v.procs|
    ensures SupRank(SetProc(v, g, p)) + ProcRank(v.procs[g]) == SupRank(v) + ProcRank(p)
  {
    ProcSumSet(v.procs, g, p);
  }

  lemma ReapFalls(v: Supervisor, g: nat, w: Supervisor)
    requires ReapStep(v, g) == Some(w)
    ensures SupRank(w) < SupRank(v)
  {
    var p := v.procs[g];
    match p.reaper
    case Waiting => SetProcRank(v, g, p.(reaper := Recorded(v.stopping), claimedAtExit := p.claimed));
    case Recorded(i) => SetProcRank(v, g, p.(reaper := Closed(i)));
    case Closed(i) => SetProcRank(v, g, p.(reaper := Finished(i)));
  }

  lemma PutBackRank(v: Supervisor, g: nat)
    ensures SupRank(PutBack(v, g)) == SupRank(v)
  {}

  lemma CtxStoppingFalls(v: Supervisor, g: nat, x: CtxPc)
    requires g < |v.procs| && v.procs[g].ctx.CtxStopping? && CtxRank(x) < 3
    ensures g < |Claim(v).procs| && SupRank(SetProc(Claim(v), g, Claim(v).procs[g].(ctx := x))) < SupRank(v)
  {
    ClaimRank(v);
    SetProcRank(Claim(v), g, Claim(v).procs[g].(ctx := x));
  }

  lemma CtxOtherFalls(v: Supervisor, g: nat, x: CtxPc)
    requires g < |v.procs| && CtxRank(x) < CtxRank(v.procs[g].ctx)
    ensures SupRank(SetProc(v, g, v.procs[g].(ctx := x))) < SupRank(v)
  {
    SetProcRank(v, g, v.procs[g].(ctx := x));
  }

  lemma CtxFalls(c: Config, rootDone: bool, v: Supervisor, g: nat, ok: bool, w: Supervisor)
    requires CtxStep(c, rootDone, v, g, ok) == Some(w)
    ensures SupRank(w) < SupRank(v)
  {
    match v.procs[g].ctx
    case CtxWatching => CtxOtherFalls(v, g, if ok then CtxStopping else CtxEnded);
    case CtxStopping => CtxStoppingFalls(v, g, if v.cmd.Some? then CtxStopWait(v.cmd.value, v.done) else CtxEnded);
    case CtxStopWait(h, _) =>
      CtxOtherFalls(v, g, CtxEnded);
      PutBackRank(SetProc(v, g, v.procs[g].(ctx := CtxEnded)), h);
  }

  lemma MainFalls(c: Config, s: State, ch: Choice, s': State)
    requires Closing(s) && Control(s) && RegisterReady(s) && MainStep(c, s, ch) == Some(s')
    ensures Closing(s') && Measure(s') < Measure(s)
  {
    hide Measure, RegisterReady, LoopInv;
    if s.loop.main.MSelect? {
      SelectFalls(s, ch, s');
    } else if HandlingCrash(s.loop.main) {
      CrashFalls(c, s, ch.ok, s');
    } else {
      RunFalls(c, s, ch.ok, s');
    }
  }

  lemma BuildFalls(c: Config, s: State, i: nat, ok: bool, s': State)
    requires Closing(s) && Control(s) && RegisterReady(s) && BuildStep(c, s, i, ok) == Some(s')
    ensures Closing(s') && Measure(s') < Measure(s)
  {
    hide CompileStep, SwapStep, Measure, RegisterReady, LoopInv;
    BuildMovesLast(c, s, i, ok, s');
    if Compiling(s.loop.builds[i].pc) {
      CompileFalls(c, s, i, ok, s');
    } else {
      SwapFalls(c, s, i, ok, s');
    }
  }

  /** Every engine step falls; only the developer saving a file leaves the measure alone. */
  lemma StepFalls(c: Config, s: State, a: Action, s': State)
    requires Closing(s) && Control(s) && RegisterReady(s) && Step(c, s, a) == Some(s')
    ensures Closing(s')
    ensures if a.Save? then Measure(s') == Measure(s) else Measure(s') < Measure(s)
  {
    hide DebStep, FanStep, BuildStep, MainStep, CommandStep, ReapStep, CtxStep, Control, RegisterReady, LoopRank, SupRank;
    match a
    case Save =>
    case Notify | CloseEvents | RootCancel | ProcExit(_, _) => EnvFalls(s, a, s');
    case FanTake | FanCancel | FanForward | FanQuit => FrontFalls(s, a, s');
    case DebTake | DebFire | DebQuit => FrontFalls(s, a, s');
    case Main(ch) => MainFalls(c, s, ch, s');
    case BuildGo(i, ok) => BuildFalls(c, s, i, ok, s');
    case Reap(g) => ReapFalls(s.sup, g, s'.sup);
    case CtxGo(g, ok) => CtxFalls(c, s.rootDone, s.sup, g, ok, s'.sup);
    case _ => CommandFalls(c, s, a, s');
  }

  // ---------------------------------------------------------------- some step is always enabled

  /** A server's death is something the engine brings about only where kills are confirmed and a Stop has
      claimed it; any other death may never come. */
  predicate Killed(c: Config, s: State, a: Action)
  {
    a.ProcExit? ==> c.serverKilled && a.g < |s.sup.procs| && s.sup.procs[a.g].claimed
  }

  /** Generation g has been claimed and is not reaped, so its process or its reaper can move. */
  lemma ClaimedMoves(c: Config, s: State, g: nat)
    requires SupInv(s.sup, s.rootDone) && g < |s.sup.procs| && s.sup.procs[g].claimed && !Reaped(s.sup.procs[g])
    ensures Step(c, s, ProcExit(g, false)).Some? || Step(c, s, Reap(g)).Some?
  {
    assert Attributed(s.sup.procs[g]);
  }

  lemma BuildMoves(c: Config, s: State) returns (a: Action)
    requires Control(s) && (c.serverKilled ==> Supervised(s))
    requires |s.loop.builds| > 0 && Active(Last(s.loop))
    ensures !a.Save? && Step(c, s, a).Some?
    ensures a.BuildGo? || a.Reap? || (a.ProcExit? && Killed(c, s, a))
  {
    var i := |s.loop.builds| - 1;
    a := BuildGo(i, false);
    if s.loop.builds[i].pc.BStopWait? && c.serverKilled {
      var g := s.loop.builds[i].pc.g;
      assert Claimed(s.sup, g);
      if Reaped(s.sup.procs[g]) {
        a := BuildGo(i, true);
      } else {
        ClaimedMoves(c, s, g);
        a := if Step(c, s, Reap(g)).Some? then Reap(g) else ProcExit(g, false);
      }
    }
  }

  lemma LeaveMoves(c: Config, s: State) returns (a: Action)
    requires c.serverKilled && Supervised(s) && s.loop.main.MStopWait?
    ensures !a.Save? && Killed(c, s, a) && Step(c, s, a).Some?
  {
    var g := s.loop.main.g;
    assert Claimed(s.sup, g);
    if Reaped(s.sup.procs[g]) {
      a := Main(Go(true));
    } else {
      ClaimedMoves(c, s, g);
      a := if Step(c, s, Reap(g)).Some? then Reap(g) else ProcExit(g, false);
    }
  }

  /** No deadlock: until Run returns, some engine step is enabled, and none of them is a death to be hoped for. */
  lemma Progress(c: Config, s: State) returns (a: Action)
    requires Closing(s) && Control(s) && (c.serverKilled ==> Supervised(s)) && !s.loop.main.MReturned?
    ensures !a.Save? && Killed(c, s, a) && Step(c, s, a).Some?
  {
    if s.loop.main.MSelect? {
      a := Main(PickShutdown);
    } else if s.loop.main.MWait? && !BuildDone(s.loop, s.loop.inFlightDone) {
      a := BuildMoves(c, s);
    } else if s.loop.main.MStopWait? && c.serverKilled {
      a := LeaveMoves(c, s);
    } else {
      a := Main(Go(false));
    }
  }
}

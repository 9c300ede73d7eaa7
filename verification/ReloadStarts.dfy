/**
 Every server the engine ever starts is paid for, either by a build that passed the staleness check or by
 a process that crashed unclaimed.  Clean exits and exits caused by Stop start nothing.
 */
module ReloadStarts {
  import opened Optional
  import opened ReloadModel
  import opened ReloadControl
  import opened ReloadFreshness
  import opened ReloadServer
  import opened ReloadSingle
  import opened ReloadShutdown

  /** The process failed and its reaper was not told that Stop had done it. */
  predicate Crashed(p: Proc) { p.reaper == Finished(false) && p.failed }

  function Crashes(ps: seq<Proc>): nat
  {
    if ps == [] then 0 else Crashes(ps[..|ps| - 1]) + (if Crashed(ps[|ps| - 1]) then 1 else 0)
  }

  /** A committed build that has not yet spawned its server. */
  function BuildOwes(l: Loop): nat
  {
    if LastPc(l).BReset? || LastPc(l).BStop? || LastPc(l).BStopWait? || LastPc(l).BStart? || LastPc(l).BSpawn? then 1 else 0
  }

  /** A crash the main loop has taken off Exits and may still answer with a start. */
  function MainOwes(main: MainPc): nat
  {
    if (main.MTriage? && main.exit.failed) || main.MCheck? || FoundDown(main) then 1 else 0
  }

  function NoticeOwes(v: Supervisor): nat { if v.exits.Some? && v.exits.value.failed then 1 else 0 }

  ghost predicate DeadOnceRecorded(v: Supervisor)
  {
    forall g :: 0 <= g < |v.procs| && !v.procs[g].reaper.NotStarted? && !v.procs[g].reaper.Waiting? ==> !v.procs[g].alive
  }

  ghost predicate Paid(s: State)
  {
    && DeadOnceRecorded(s.sup)
    && |s.sup.procs| + BuildOwes(s.loop) + MainOwes(s.loop.main) + NoticeOwes(s.sup) <= s.tally.commits + Crashes(s.sup.procs)
  }

  lemma {:induction false} CrashesSet(ps: seq<Proc>, i: nat, p: Proc)
    requires i < |ps|
    ensures Crashes(ps[i := p]) == Crashes(ps) - (if Crashed(ps[i]) then 1 else 0) + (if Crashed(p) then 1 else 0)
  {
    var n := |ps| - 1;
    if i < n {
      CrashesSet(ps[..n], i, p);
      assert ps[i := p][..n] == ps[..n][i := p];
    } else {
      assert ps[i := p][..n] == ps[..n];
    }
  }

  /** Fields of the supervisor that matter to the accounts. */
  ghost predicate SameAccounts(v: Supervisor, w: Supervisor)
  {
    && |w.procs| == |v.procs| && Crashes(w.procs) == Crashes(v.procs) && w.exits == v.exits
    && (DeadOnceRecorded(v) ==> DeadOnceRecorded(w))
  }

  lemma SetSameAccounts(v: Supervisor, g: nat, p: Proc)
    requires g < |v.procs| && !p.reaper.Finished? && !v.procs[g].reaper.Finished?
    requires !p.reaper.NotStarted? && !p.reaper.Waiting? ==> !p.alive
    ensures SameAccounts(v, SetProc(v, g, p))
  {
    CrashesSet(v.procs, g, p);
  }

  lemma ClaimSameAccounts(v: Supervisor)
    ensures SameAccounts(v, Claim(v))
  {
    if v.cmd.Some? && v.cmd.value < |v.procs| {
      CrashesSet(v.procs, v.cmd.value, v.procs[v.cmd.value].(claimed := true));
    }
  }

  lemma SpawnAccounts(v: Supervisor, ver: nat)
    requires DeadOnceRecorded(v)
    ensures DeadOnceRecorded(Spawned(v, ver)) && Crashes(Spawned(v, ver).procs) == Crashes(v.procs)
  {
    assert Spawned(v, ver).procs[..|v.procs|] == v.procs;
  }

  lemma RegisterAccounts(v: Supervisor, g: nat)
    requires g < |v.procs| ==> v.procs[g].reaper.NotStarted?
    ensures SameAccounts(v, Registered(v, g))
  {
    if g < |v.procs| {
      SetSameAccounts(v, g, v.procs[g].(reaper := Waiting, ctx := CtxWatching));
    }
  }

  lemma CtxSameAccounts(c: Config, rootDone: bool, v: Supervisor, g: nat, ok: bool, w: Supervisor)
    requires CtxStep(c, rootDone, v, g, ok) == Some(w)
    ensures SameAccounts(v, w)
  {
    hide ProcDone;
    var p := v.procs[g];
    match p.ctx
    case CtxWatching => CrashesSet(v.procs, g, w.procs[g]);
    case CtxStopping =>
      ClaimSameAccounts(v);
      CrashesSet(Claim(v).procs, g, w.procs[g]);
    case CtxStopWait(_, _) => CrashesSet(v.procs, g, p.(ctx := CtxEnded));
  }

  /** A reaper that publishes a crash adds the crash that pays for the notice. */
  lemma ReapAccounts(v: Supervisor, g: nat, w: Supervisor)
    requires ReapStep(v, g) == Some(w) && DeadOnceRecorded(v)
    ensures |w.procs| == |v.procs| && DeadOnceRecorded(w)
    ensures NoticeOwes(w) + Crashes(v.procs) <= NoticeOwes(v) + Crashes(w.procs)
  {
    CrashesSet(v.procs, g, w.procs[g]);
  }

  lemma PaidSelect(s: State, ch: Choice, s': State)
    requires Paid(s) && s.loop.main.MSelect? && SelectStep(s, ch) == Some(s')
    ensures Paid(s')
  {
    assert s'.sup.procs == s.sup.procs && s'.loop.builds == s.loop.builds;
  }

  lemma PaidSpawn(c: Config, s: State, ok: bool, s': State)
    requires Paid(s) && s.loop.main.MSpawn? && CrashStep(c, s, ok) == Some(s')
    ensures Paid(s')
  {
    SpawnAccounts(s.sup, Serves(c, s));
  }

  lemma PaidRegister(c: Config, s: State, ok: bool, s': State)
    requires Paid(s) && s.loop.main.MRegister? && CrashStep(c, s, ok) == Some(s')
    requires s.loop.main.g < |s.sup.procs| ==> s.sup.procs[s.loop.main.g].reaper.NotStarted?
    ensures Paid(s')
  {
    hide DeadOnceRecorded, Registered;
    RegisterAccounts(s.sup, s.loop.main.g);
  }

  lemma PaidCrash(c: Config, s: State, ok: bool, s': State)
    requires Paid(s) && HandlingCrash(s.loop.main) && CrashStep(c, s, ok) == Some(s')
    requires s.loop.main.MRegister? && s.loop.main.g < |s.sup.procs| ==> s.sup.procs[s.loop.main.g].reaper.NotStarted?
    ensures Paid(s')
  {
    hide DeadOnceRecorded, Spawned, Registered, Serves;
    match s.loop.main
    case MSpawn => PaidSpawn(c, s, ok, s');
    case MRegister(g) => PaidRegister(c, s, ok, s');
    case _ =>
  }

  lemma PaidLeave(c: Config, s: State, ok: bool, s': State)
    requires Paid(s) && RunStep(c, s, ok) == Some(s') && (s.loop.main.MStop? || s.loop.main.MStopWait?)
    ensures Paid(s')
  {
    ClaimSameAccounts(s.sup);
  }

  lemma PaidLaunch(c: Config, s: State, ok: bool, s': State)
    requires Control(s) && Paid(s) && RunStep(c, s, ok) == Some(s') && (s.loop.main.MPrepare? || s.loop.main.MPublish?)
    ensures Paid(s')
  {
    assert s'.sup == s.sup && s'.tally == s.tally;
  }

  lemma PaidRun(c: Config, s: State, ok: bool, s': State)
    requires Control(s) && Paid(s) && RunStep(c, s, ok) == Some(s')
    ensures Paid(s')
  {
    if s.loop.main.MStop? || s.loop.main.MStopWait? {
      PaidLeave(c, s, ok, s');
    } else if s.loop.main.MPrepare? || s.loop.main.MPublish? {
      PaidLaunch(c, s, ok, s');
    } else {
      RunLeavesServer(c, s, ok, s');
      assert s'.tally == s.tally;
    }
  }

  lemma PaidCompile(c: Config, s: State, i: nat, ok: bool, s': State)
    requires Control(s) && Paid(s) && i < |s.loop.builds| && CompileStep(c, s, i, ok) == Some(s')
    ensures Paid(s')
  {
    hide DeadOnceRecorded, HandlesNameLast, LoopExclusive;
    CompileReplacesLast(c, s, i, ok, s');
    assert s'.sup == s.sup;
  }

  lemma SwapAccounts(c: Config, s: State, i: nat, ok: bool, s': State)
    requires DeadOnceRecorded(s.sup) && i == |s.loop.builds| - 1 && SwapStep(c, s, i, ok) == Some(s')
    requires LastPc(s.loop).BRegister? && LastPc(s.loop).g < |s.sup.procs| ==> s.sup.procs[LastPc(s.loop).g].reaper.NotStarted?
    ensures DeadOnceRecorded(s'.sup) && Crashes(s'.sup.procs) == Crashes(s.sup.procs) && s'.sup.exits == s.sup.exits
  {
    match s.loop.builds[i].pc
    case BStop => ClaimSameAccounts(s.sup);
    case BSpawn => SpawnAccounts(s.sup, Serves(c, s));
    case BRegister(g) => RegisterAccounts(s.sup, g);
    case _ =>
  }

  /** A spawn is the only thing that settles what a committed build owes. */
  lemma SwapOwes(c: Config, s: State, i: nat, ok: bool, s': State)
    requires i == |s.loop.builds| - 1 && SwapStep(c, s, i, ok) == Some(s')
    ensures |s'.sup.procs| + BuildOwes(s'.loop) <= |s.sup.procs| + BuildOwes(s.loop)
    ensures s'.tally.commits == s.tally.commits && s'.loop.main == s.loop.main
  {}

  lemma PaidSwap(c: Config, s: State, i: nat, ok: bool, s': State)
    requires Control(s) && Paid(s) && i < |s.loop.builds| && SwapStep(c, s, i, ok) == Some(s')
    requires LastPc(s.loop).BRegister? && LastPc(s.loop).g < |s.sup.procs| ==> s.sup.procs[LastPc(s.loop).g].reaper.NotStarted?
    ensures Paid(s')
  {
    SwapReplacesLast(c, s, i, ok, s');
    SwapAccounts(c, s, i, ok, s');
    SwapOwes(c, s, i, ok, s');
  }

  lemma PaidGoroutines(c: Config, s: State, a: Action, s': State)
    requires Paid(s) && Step(c, s, a) == Some(s') && (a.Reap? || a.CtxGo? || a.ProcExit?)
    ensures Paid(s')
  {
    match a
    case Reap(g) => ReapAccounts(s.sup, g, s'.sup);
    case CtxGo(g, ok) => CtxSameAccounts(c, s.rootDone, s.sup, g, ok, s'.sup);
    case ProcExit(g, failed) => SetSameAccounts(s.sup, g, s.sup.procs[g].(alive := false, failed := failed));
  }

  lemma PaidMain(c: Config, s: State, ch: Choice, s': State)
    requires Control(s) && RegisterReady(s) && Paid(s) && MainStep(c, s, ch) == Some(s')
    ensures Paid(s')
  {
    hide SelectStep, CrashStep, RunStep, Paid, Control;
    if s.loop.main.MSelect? {
      PaidSelect(s, ch, s');
    } else if HandlingCrash(s.loop.main) {
      PaidCrash(c, s, ch.ok, s');
    } else {
      PaidRun(c, s, ch.ok, s');
    }
  }

  lemma PaidBuild(c: Config, s: State, i: nat, ok: bool, s': State)
    requires Control(s) && RegisterReady(s) && Paid(s) && BuildStep(c, s, i, ok) == Some(s')
    ensures Paid(s')
  {
    hide CompileStep, SwapStep, Paid;
    BuildMovesLast(c, s, i, ok, s');
    if Compiling(s.loop.builds[i].pc) {
      PaidCompile(c, s, i, ok, s');
    } else {
      PaidSwap(c, s, i, ok, s');
    }
  }

  lemma PaidStep(c: Config, s: State, a: Action, s': State)
    requires Control(s) && RegisterReady(s) && Paid(s) && Step(c, s, a) == Some(s')
    ensures Paid(s')
  {
    hide EnvStep, FanStep, DebStep, MainStep, BuildStep, CommandStep, ReapStep, CtxStep, Control, RegisterReady, DeadOnceRecorded;
    match a
    case Main(ch) => PaidMain(c, s, ch, s');
    case BuildGo(i, ok) => PaidBuild(c, s, i, ok, s');
    case Reap(_) | CtxGo(_, _) | ProcExit(_, _) => PaidGoroutines(c, s, a, s');
    case _ => BackgroundStands(c, s, a, s');
  }
}

/**
 Versions on disk and in service, assuming that cancelled build commands are reaped or that there is
 nothing to compile: the binary only gets newer, and so do the servers.
 */
module ReloadVersions {
  import opened Optional
  import opened ReloadModel
  import opened ReloadControl
  import opened ReloadFreshness
  import opened ReloadServer
  import opened ReloadSingle

  /** Successive server generations run non-decreasing versions, none newer than `top`. */
  ghost predicate Ascending(v: Supervisor, top: nat)
  {
    && (forall g, h :: 0 <= g <= h < |v.procs| ==> v.procs[g].ver <= v.procs[h].ver)
    && (forall g :: 0 <= g < |v.procs| ==> v.procs[g].ver <= top)
  }

  /** The binary relative to what the last build has read and written. */
  ghost predicate OnDisk(c: Config, binary: nat, b: Build)
  {
    c.hasBuild && b.snap.Some? ==>
      && ((b.pc.BCreated? || Compiling(b.pc)) && b.pc != BCompiling(true) && !b.pc.BCheck? ==> binary <= b.snap.value)
      && (b.pc == BCompiling(true) || b.pc.BCheck? || Committed(b.pc) ==> binary == b.snap.value)
  }

  /** What the last build's outcome says about the server. */
  ghost predicate OutcomeTrue(v: Supervisor, b: Build)
  {
    && (b.pc.BRegister? ==> b.pc.g < |v.procs| && b.base <= v.procs[b.pc.g].ver)
    && (b.out.Served? ==> b.out.gen < |v.procs| && b.base <= v.procs[b.out.gen].ver)
    && (b.out.Superseded? ==> b.ctxDone)
    && (b.pc.BPost? || b.pc.BClosing? || b.pc.BDone? ==> !b.out.Pending?)
  }

  /** Without a build command no build ever reaches one. */
  ghost predicate NothingCompiles(l: Loop) { forall i :: 0 <= i < |l.builds| ==> !l.builds[i].pc.BCompiling? }

  ghost predicate Versions(c: Config, s: State)
  {
    && s.disk.orphans == []
    && s.disk.binary <= s.front.tree
    && (!c.hasBuild ==> NothingCompiles(s.loop))
    && Ascending(s.sup, Serves(c, s))
    && (|s.loop.builds| > 0 ==> OnDisk(c, s.disk.binary, Last(s.loop)) && OutcomeTrue(s.sup, Last(s.loop)))
  }

  /** Process bookkeeping that neither spawns nor changes a version. */
  ghost predicate SameVersions(v: Supervisor, w: Supervisor)
  {
    |w.procs| == |v.procs| && forall g :: 0 <= g < |v.procs| ==> w.procs[g].ver == v.procs[g].ver
  }

  lemma VersionsFrame(c: Config, s: State, s': State)
    requires Versions(c, s) && SameVersions(s.sup, s'.sup)
    requires s'.disk == s.disk && s'.front.tree == s.front.tree && s'.loop.builds == s.loop.builds
    ensures Versions(c, s')
  {}

  lemma VersionsEnv(c: Config, s: State, a: Action, s': State)
    requires Versions(c, s) && EnvStep(s, a) == Some(s')
    ensures Versions(c, s')
  {}

  lemma ReapSameVersions(v: Supervisor, g: nat, w: Supervisor)
    requires ReapStep(v, g) == Some(w)
    ensures SameVersions(v, w)
  {}

  lemma CtxSameVersions(c: Config, rootDone: bool, v: Supervisor, g: nat, ok: bool, w: Supervisor)
    requires CtxStep(c, rootDone, v, g, ok) == Some(w)
    ensures SameVersions(v, w)
  {}

  lemma VersionsGoroutines(c: Config, s: State, a: Action, s': State)
    requires Versions(c, s) && Step(c, s, a) == Some(s') && (a.Reap? || a.CtxGo?)
    ensures Versions(c, s')
  {
    if a.Reap? {
      ReapSameVersions(s.sup, a.g, s'.sup);
    } else {
      CtxSameVersions(c, s.rootDone, s.sup, a.g, a.ok, s'.sup);
    }
    VersionsFrame(c, s, s');
  }

  lemma SpawnAscends(v: Supervisor, top: nat)
    requires Ascending(v, top)
    ensures Ascending(Spawned(v, top), top)
  {}

  lemma VersionsCrash(c: Config, s: State, ok: bool, s': State)
    requires Versions(c, s) && HandlingCrash(s.loop.main) && CrashStep(c, s, ok) == Some(s')
    ensures Versions(c, s')
  {
    if SameVersions(s.sup, s'.sup) {
      VersionsFrame(c, s, s');
    } else {
      SpawnAscends(s.sup, Serves(c, s));
    }
  }

  lemma VersionsLaunch(c: Config, s: State, ok: bool, s': State)
    requires Control(s) && Pipeline(c, s) && Versions(c, s) && RunStep(c, s, ok) == Some(s')
    requires s.loop.main.MPrepare? || s.loop.main.MPublish?
    ensures Versions(c, s')
  {
    if s.loop.main.MPublish? {
      assert Last(s.loop).pc.BCreated? && Last(s.loop).out.Pending?;
    }
  }

  lemma VersionsRun(c: Config, s: State, ok: bool, s': State)
    requires Control(s) && Pipeline(c, s) && Versions(c, s) && RunStep(c, s, ok) == Some(s')
    ensures Versions(c, s')
  {
    if s.loop.main.MPrepare? || s.loop.main.MPublish? {
      VersionsLaunch(c, s, ok, s');
    } else if s.loop.main.MCancel? {
      CancelKeeps(s.loop);
    } else {
      VersionsFrame(c, s, s');
    }
  }

  lemma VersionsMain(c: Config, s: State, ch: Choice, s': State)
    requires Control(s) && Pipeline(c, s) && Versions(c, s) && MainStep(c, s, ch) == Some(s')
    ensures Versions(c, s')
  {
    hide CrashStep, RunStep, Control, Pipeline, Versions;
    if s.loop.main.MSelect? {
      VersionsFrame(c, s, s');
    } else if HandlingCrash(s.loop.main) {
      VersionsCrash(c, s, ch.ok, s');
    } else {
      VersionsRun(c, s, ch.ok, s');
    }
  }

  lemma VersionsCompile(c: Config, s: State, i: nat, ok: bool, s': State)
    requires Control(s) && Versions(c, s) && i < |s.loop.builds| && CompileStep(c, s, i, ok) == Some(s')
    ensures Versions(c, s')
  {
    hide Ascending, LoopInv;
    CompileReplacesLast(c, s, i, ok, s');
    assert s'.sup == s.sup && s'.disk == s.disk;
    assert OnDisk(c, s.disk.binary, s'.loop.builds[i]) && OutcomeTrue(s.sup, s'.loop.builds[i]);
  }

  lemma VersionsSpawn(c: Config, s: State, i: nat, s': State)
    requires Control(s) && Pipeline(c, s) && Versions(c, s)
    requires i < |s.loop.builds| && s.loop.builds[i].pc.BSpawn? && SwapStep(c, s, i, true) == Some(s')
    ensures Versions(c, s')
  {
    SwapReplacesLast(c, s, i, true, s');
    SpawnAscends(s.sup, Serves(c, s));
    assert s'.disk == s.disk;
  }

  /** Apart from a successful spawn, the swap leaves the disk and every version alone. */
  lemma SwapSameVersions(c: Config, s: State, i: nat, ok: bool, s': State)
    requires i < |s.loop.builds| && SwapStep(c, s, i, ok) == Some(s') && !(s.loop.builds[i].pc.BSpawn? && ok)
    ensures SameVersions(s.sup, s'.sup) && s'.disk == s.disk
  {}

  lemma SwapOutcome(c: Config, s: State, i: nat, ok: bool, s': State)
    requires i < |s.loop.builds| && SwapStep(c, s, i, ok) == Some(s') && !(s.loop.builds[i].pc.BSpawn? && ok)
    requires OutcomeTrue(s.sup, s.loop.builds[i]) && OnDisk(c, s.disk.binary, s.loop.builds[i])
    ensures i < |s'.loop.builds|
    ensures OutcomeTrue(s.sup, s'.loop.builds[i]) && OnDisk(c, s.disk.binary, s'.loop.builds[i])
  {
    hide Claim, PutBack, Spawned, Registered, ProcDone, Serves;
  }

  lemma VersionsSwap(c: Config, s: State, i: nat, ok: bool, s': State)
    requires Control(s) && Pipeline(c, s) && Versions(c, s)
    requires i < |s.loop.builds| && SwapStep(c, s, i, ok) == Some(s')
    ensures Versions(c, s')
  {
    hide LoopInv, Pipeline, OnDisk, Claim, PutBack, Spawned, Registered, ProcDone;
    SwapReplacesLast(c, s, i, ok, s');
    if s.loop.builds[i].pc.BSpawn? && ok {
      VersionsSpawn(c, s, i, s');
    } else {
      SwapSameVersions(c, s, i, ok, s');
      SwapOutcome(c, s, i, ok, s');
      assert Serves(c, s') == Serves(c, s);
    }
  }

  lemma VersionsCommand(c: Config, s: State, a: Action, s': State)
    requires Control(s) && Pipeline(c, s) && (c.commandKilled || !c.hasBuild) && Versions(c, s) && CommandStep(c, s, a) == Some(s')
    ensures Versions(c, s')
  {}

  lemma VersionsFan(c: Config, s: State, a: Action, s': State)
    requires Control(s) && Versions(c, s) && FanStep(s, a) == Some(s')
    ensures Versions(c, s')
  {
    CancelKeeps(s.loop);
  }

  lemma VersionsBuild(c: Config, s: State, i: nat, ok: bool, s': State)
    requires Control(s) && Pipeline(c, s) && Versions(c, s) && BuildStep(c, s, i, ok) == Some(s')
    ensures Versions(c, s')
  {
    hide CompileStep, SwapStep, Versions, Control, Pipeline;
    if Compiling(s.loop.builds[i].pc) {
      VersionsCompile(c, s, i, ok, s');
    } else {
      VersionsSwap(c, s, i, ok, s');
    }
  }

  lemma VersionsStep(c: Config, s: State, a: Action, s': State)
    requires (c.commandKilled || !c.hasBuild) && Control(s) && Pipeline(c, s) && Versions(c, s) && Step(c, s, a) == Some(s')
    ensures Versions(c, s')
  {
    hide EnvStep, FanStep, MainStep, BuildStep, CommandStep, ReapStep, CtxStep, Control, Pipeline;
    match a
    case Save | Notify | CloseEvents | RootCancel | ProcExit(_, _) => VersionsEnv(c, s, a, s');
    case FanTake | FanCancel | FanForward | FanQuit => VersionsFan(c, s, a, s');
    case DebTake | DebFire | DebQuit => VersionsFrame(c, s, s');
    case Main(ch) => VersionsMain(c, s, ch, s');
    case BuildGo(i, ok) => VersionsBuild(c, s, i, ok, s');
    case Reap(_) | CtxGo(_, _) => VersionsGoroutines(c, s, a, s');
    case _ => VersionsCommand(c, s, a, s');
  }
}

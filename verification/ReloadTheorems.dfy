/**
 The guarantees of the reload engine, over every run of the transition system.
 */
module ReloadTheorems {
  import opened Optional
  import opened ReloadModel
  import opened ReloadControl
  import opened ReloadFreshness
  import opened ReloadServer
  import opened ReloadSingle
  import opened ReloadTenure
  import opened ReloadVersions
  import opened ReloadAccounting
  import opened ReloadShutdown
  import opened ReloadStarts

  ghost predicate Inv(c: Config, s: State)
  {
    && Control(s) && Pipeline(c, s) && Accounts(s) && Tenure(s) && RegisterReady(s) && Paid(s)
    && (c.serverKilled ==> Supervised(s))
    && (c.commandKilled || !c.hasBuild ==> Versions(c, s))
  }

  lemma InitInv(c: Config)
    ensures Inv(c, Init)
  {}

  lemma StepInv(c: Config, s: State, a: Action, s': State)
    requires Inv(c, s) && Step(c, s, a) == Some(s')
    ensures Inv(c, s')
  {
    hide Step, Control, Pipeline, Accounts, Tenure, RegisterReady, Paid, Supervised, Versions;
    ControlStep(c, s, a, s');
    PipelineStep(c, s, a, s');
    AccountsStep(c, s, a, s');
    RegisterReadyStep(c, s, a, s');
    TenureStep(c, s, a, s');
    PaidStep(c, s, a, s');
    if c.serverKilled {
      SupervisedStep(c, s, a, s');
    }
    if c.commandKilled || !c.hasBuild {
      VersionsStep(c, s, a, s');
    }
  }

  lemma {:induction false} SegmentInv(c: Config, ss: seq<State>, acts: seq<Action>, k: nat)
    requires Segment(c, ss, acts) && Inv(c, ss[0]) && k < |ss|
    ensures Inv(c, ss[k])
  {
    hide Inv, Step;
    if k > 0 {
      SegmentInv(c, ss, acts, k - 1);
      StepInv(c, ss[k - 1], acts[k - 1], ss[k]);
    }
  }

  lemma ReachableInv(c: Config, s: State)
    requires Reachable(c, s)
    ensures Inv(c, s)
  {
    var ss, acts :| Run(c, ss, acts) && ss[|ss| - 1] == s;
    InitInv(c);
    SegmentInv(c, ss, acts, |ss| - 1);
  }

  // ---------------------------------------------------------------- serial builds

  /** At most one build goroutine runs, the main loop's handles name it, and the crash handler's
      Record, Backoff and Start never overlap it. */
  lemma SerialBuilds(c: Config, s: State)
    requires Reachable(c, s)
    ensures forall i, j :: 0 <= i < |s.loop.builds| && 0 <= j < |s.loop.builds| && Active(s.loop.builds[i]) && Active(s.loop.builds[j]) ==> i == j
    ensures forall i :: 0 <= i < |s.loop.builds| && Active(s.loop.builds[i]) ==> s.loop.buildWatch == s.loop.inFlightDone == Some(i)
    ensures FoundDown(s.loop.main) || s.loop.main.MRegister? ==> forall i :: 0 <= i < |s.loop.builds| ==> !Active(s.loop.builds[i])
  {
    ReachableInv(c, s);
  }

  // ---------------------------------------------------------------- bounded channels

  /** The watcher's channel and the fan-in's hold at most 256 events each. */
  predicate WithinCapacity(f: Front) { |f.events| <= 256 && f.raw <= 256 }

  lemma CapacityMain(c: Config, s: State, ch: Choice, s': State)
    requires MainStep(c, s, ch) == Some(s')
    ensures s'.front.events == s.front.events && s'.front.raw == s.front.raw
  {}

  lemma CapacityStep(c: Config, s: State, a: Action, s': State)
    requires WithinCapacity(s.front) && Control(s) && Step(c, s, a) == Some(s')
    ensures WithinCapacity(s'.front)
  {
    hide MainStep, BuildStep, CommandStep, ReapStep, CtxStep, LoopInv;
    match a
    case Main(ch) => CapacityMain(c, s, ch, s');
    case BuildGo(i, ok) => BuildMovesLast(c, s, i, ok, s');
    case Reap(_) | CtxGo(_, _) | ProcExit(_, _) => GoroutinesStand(c, s, a, s');
    case Propagate(_) | BuildRead(_) | BuildWrite(_) | BuildOrphan(_) | OrphanWrite(_) => CommandLeavesFront(c, s, a, s');
    case _ =>
  }

  lemma CommandLeavesFront(c: Config, s: State, a: Action, s': State)
    requires CommandStep(c, s, a) == Some(s')
    ensures s'.front == s.front
  {}

  lemma {:induction false} CapacityAlong(c: Config, ss: seq<State>, acts: seq<Action>, k: nat)
    requires Segment(c, ss, acts) && Inv(c, ss[0]) && WithinCapacity(ss[0].front) && k < |ss|
    ensures WithinCapacity(ss[k].front)
  {
    hide Step, WithinCapacity;
    if k > 0 {
      CapacityAlong(c, ss, acts, k - 1);
      SegmentInv(c, ss, acts, k - 1);
      CapacityStep(c, ss[k - 1], acts[k - 1], ss[k]);
    }
  }

  /** No channel ever holds more than it was made for: a sender waits. */
  lemma ChannelsAreBounded(c: Config, s: State)
    requires Reachable(c, s)
    ensures |s.front.events| <= 256 && s.front.raw <= 256
  {
    var ss, acts :| Run(c, ss, acts) && ss[|ss| - 1] == s;
    InitInv(c);
    CapacityAlong(c, ss, acts, |ss| - 1);
  }

  // ---------------------------------------------------------------- the newest save wins

  /** A build cancelled while the root context is alive has a newer trigger behind it. */
  lemma NoStrandedCancellation(c: Config, s: State)
    requires Reachable(c, s) && !s.rootDone && |s.loop.builds| > 0 && Last(s.loop).ctxDone
    ensures Triggered(s)
  {
    ReachableInv(c, s);
  }

  lemma HandledStep(c: Config, s: State, a: Action, s': State)
    requires Step(c, s, a) == Some(s')
    ensures s.front.handled <= s'.front.handled
  {}

  lemma {:induction false} HandledGrows(c: Config, ss: seq<State>, acts: seq<Action>, k: nat, m: nat)
    requires Segment(c, ss, acts) && k <= m < |ss|
    ensures ss[k].front.handled <= ss[m].front.handled
    decreases m - k
  {
    if k < m {
      HandledGrows(c, ss, acts, k, m - 1);
      HandledStep(c, ss[m - 1], acts[m - 1], ss[m]);
    }
  }

  lemma MainCommitsNothing(c: Config, s: State, ch: Choice, s': State)
    requires MainStep(c, s, ch) == Some(s')
    ensures s'.tally.commits == s.tally.commits
  {}

  lemma BuildCommits(c: Config, s: State, i: nat, ok: bool, s': State)
    requires LoopInv(s.loop) && BuildStep(c, s, i, ok) == Some(s') && s'.tally.commits != s.tally.commits
    ensures s'.tally.commits == s.tally.commits + 1
    ensures i == |s.loop.builds| - 1 && s.loop.builds[i].pc.BCheck? && !s.loop.builds[i].ctxDone
  {
    BuildMovesLast(c, s, i, ok, s');
  }

  /** The one step that commits a build. */
  lemma CommitStep(c: Config, s: State, a: Action, s': State)
    requires Inv(c, s) && Step(c, s, a) == Some(s') && s'.tally.commits != s.tally.commits
    ensures s'.tally.commits == s.tally.commits + 1
    ensures a.BuildGo? && a.i == |s.loop.builds| - 1 && s.loop.builds[a.i].pc.BCheck? && !s.loop.builds[a.i].ctxDone
  {
    hide EnvStep, FanStep, DebStep, MainStep, BuildStep, CommandStep, ReapStep, CtxStep, Pipeline, Accounts, Tenure, RegisterReady, Paid, Supervised, Versions;
    match a
    case BuildGo(i, ok) => BuildCommits(c, s, i, ok, s');
    case Main(ch) => MainCommitsNothing(c, s, ch, s');
    case Reap(_) | CtxGo(_, _) | ProcExit(_, _) => GoroutinesStand(c, s, a, s');
    case _ => BackgroundStands(c, s, a, s');
  }

  /** A build that passes the post-compile check read a tree at least as new as every event whose
      cancelBuild call had returned by then, wherever in the launch window that event landed. */
  lemma FreshnessAtCommit(c: Config, ss: seq<State>, acts: seq<Action>, k: nat, m: nat)
    requires Run(c, ss, acts) && k < m < |acts|
    requires acts[k].FanCancel? && ss[m + 1].tally.commits != ss[m].tally.commits
    ensures ss[k].front.fan.FanGot? && acts[m].BuildGo? && acts[m].i < |ss[m].loop.builds|
    ensures c.hasBuild ==> ss[m].loop.builds[acts[m].i].snap.Some?
    ensures c.hasBuild ==> ss[k].front.fan.v <= ss[m].loop.builds[acts[m].i].snap.value <= ss[m].front.tree
    ensures ss[k].front.fan.v <= ss[m].loop.builds[acts[m].i].base
  {
    InitInv(c);
    SegmentInv(c, ss, acts, m);
    assert Step(c, ss[k], acts[k]) == Some(ss[k + 1]);
    HandledGrows(c, ss, acts, k + 1, m);
    CommitStep(c, ss[m], acts[m], ss[m + 1]);
  }

  /** Root context alive and nothing in flight anywhere between the tree and the server. */
  ghost predicate Settled(s: State)
  {
    && !s.rootDone && s.front.notified == s.front.tree && s.front.events == [] && s.front.fan.FanIdle?
    && s.front.raw == 0 && s.front.deb == DebRunning(false) && !s.front.rebuild
    && !s.loop.main.MBoot? && !Launching(s.loop.main)
    && (forall i :: 0 <= i < |s.loop.builds| ==> !Active(s.loop.builds[i]))
  }

  /** The last build failed by itself, or its server could not start, or the newest server runs the newest tree. */
  predicate ServesNewest(s: State)
  {
    |s.loop.builds| > 0 &&
    match Last(s.loop).out
    case Failed => true
    case StartFailed => true
    case Served(_) => |s.sup.procs| > 0 && s.sup.procs[|s.sup.procs| - 1].ver == s.front.tree
    case _ => false
  }

  /** Convergence: once everything settles, the last build was launched on the newest tree and never
      cancelled, and it left the newest tree in service unless it failed. */
  lemma Convergence(c: Config, s: State)
    requires Reachable(c, s) && Settled(s)
    ensures s.front.handled == s.front.tree
    ensures |s.loop.builds| > 0 && Last(s.loop).base == s.front.tree && !Last(s.loop).ctxDone && Last(s.loop).pc.BDone?
    ensures c.commandKilled || !c.hasBuild ==> ServesNewest(s)
  {
    ReachableInv(c, s);
    assert !Active(Last(s.loop));
    if c.commandKilled || !c.hasBuild {
      SettledOutcome(c, s);
    }
  }

  lemma SettledOutcome(c: Config, s: State)
    requires Versions(c, s) && |s.loop.builds| > 0
    requires Last(s.loop).base == s.front.tree && !Last(s.loop).ctxDone && Last(s.loop).pc.BDone?
    ensures ServesNewest(s)
  {
    if Last(s.loop).out.Served? {
      assert s.sup.procs[Last(s.loop).out.gen].ver <= s.sup.procs[|s.sup.procs| - 1].ver;
    }
  }

  // ---------------------------------------------------------------- exit attribution

  /** A reaper that records an exit attributes it to Stop exactly when a Stop had claimed its process. */
  lemma ExitAttribution(c: Config, s: State, g: nat, s': State)
    requires c.serverKilled && Reachable(c, s) && Step(c, s, Reap(g)) == Some(s')
    requires s.sup.procs[g].reaper.Waiting?
    ensures s'.sup.procs[g].reaper == Recorded(s.sup.procs[g].claimed)
  {
    ReachableInv(c, s);
    ReaperReadsOwnFlag(s.sup, s.rootDone, g);
  }

  /** Whatever waits on Exits is about a process no Stop had claimed when its exit was recorded. */
  lemma NoticesAreGenuine(c: Config, s: State)
    requires c.serverKilled && Reachable(c, s) && s.sup.exits.Some?
    ensures s.sup.exits.value.gen < |s.sup.procs| && !s.sup.procs[s.sup.exits.value.gen].claimedAtExit
    ensures s.sup.exits.value.failed == s.sup.procs[s.sup.exits.value.gen].failed
  {
    ReachableInv(c, s);
  }

  /** When a reaper is done publishing, Exits gained a notice exactly if the exit was recorded as
      unintentional and the channel was empty.  An unclaimed exit is never recorded as intentional, so it
      never leaves Exits empty; with server kills confirmed a claimed exit always is, so it adds nothing. */
  lemma UnclaimedExitsArePublished(c: Config, s: State, g: nat, s': State)
    requires Reachable(c, s) && Step(c, s, Reap(g)) == Some(s') && s.sup.procs[g].reaper.Closed?
    ensures s'.sup.exits ==
      if !s.sup.procs[g].reaper.intentional && s.sup.exits.None? then Some(Exit(g, s.sup.procs[g].failed)) else s.sup.exits
    ensures !s.sup.procs[g].claimedAtExit ==> !s.sup.procs[g].reaper.intentional && s'.sup.exits.Some?
    ensures c.serverKilled && s.sup.procs[g].claimedAtExit ==> s.sup.procs[g].reaper.intentional && s'.sup.exits == s.sup.exits
  {
    ReachableInv(c, s);
    assert Fair(s.sup.procs[g]);
    if c.serverKilled {
      assert Attributed(s.sup.procs[g]);
    }
  }

  // ---------------------------------------------------------------- a bad save never costs you your server

  /** The Stops the controller has issued are its commits, but for one not yet issued, plus one at shutdown. */
  lemma StopsAreCommits(c: Config, s: State)
    requires Reachable(c, s)
    ensures s.tally.stops + StopsOwed(s.loop) == s.tally.commits + StopsAtExit(s.loop)
    ensures s.tally.stops <= s.tally.commits + 1
    ensures s.tally.stops == s.tally.commits + 1 ==> s.rootDone
  {
    ReachableInv(c, s);
  }

  /** Every server ever started is paid for by a commit or by a process that crashed unclaimed: clean exits
      and exits caused by Stop start nothing. */
  lemma StartsArePaidFor(c: Config, s: State)
    requires Reachable(c, s)
    ensures |s.sup.procs| <= s.tally.commits + Crashes(s.sup.procs)
    ensures c.serverKilled ==>
      forall g :: 0 <= g < |s.sup.procs| && Crashed(s.sup.procs[g]) ==> !s.sup.procs[g].claimedAtExit
  {
    ReachableInv(c, s);
    if c.serverKilled {
      forall g | 0 <= g < |s.sup.procs| && Crashed(s.sup.procs[g])
        ensures !s.sup.procs[g].claimedAtExit
      {
        assert Attributed(s.sup.procs[g]);
      }
    }
  }

  lemma CommitsGrow(c: Config, s: State, a: Action, s': State)
    requires Inv(c, s) && Step(c, s, a) == Some(s')
    ensures s.tally.commits <= s'.tally.commits
  {
    if s'.tally.commits != s.tally.commits {
      CommitStep(c, s, a, s');
    }
  }

  lemma {:induction false} CommitsGrowAlong(c: Config, ss: seq<State>, acts: seq<Action>, k: nat)
    requires Segment(c, ss, acts) && Inv(c, ss[0]) && k < |ss|
    ensures ss[k].tally.commits <= ss[|ss| - 1].tally.commits
    decreases |ss| - k
  {
    if k < |acts| {
      CommitsGrowAlong(c, ss, acts, k + 1);
      SegmentInv(c, ss, acts, k);
      CommitsGrow(c, ss[k], acts[k], ss[k + 1]);
    }
  }

  /** Over any stretch of a run in which no build passes the check, the root context does not end and the
      server does not exit by itself, the server generation, the Stop count and the crash history stay put —
      however many saves arrive and however many builds fail or are superseded. */
  lemma {:induction false} NoCommitKeepsTheServer(c: Config, ss: seq<State>, acts: seq<Action>, g: nat, k: nat)
    requires Segment(c, ss, acts) && Reachable(c, ss[0]) && Serving(ss[0], g) && k < |ss|
    requires forall j :: 0 <= j < |acts| ==> !acts[j].RootCancel? && !(acts[j].ProcExit? && acts[j].g == g)
    requires ss[|ss| - 1].tally.commits == ss[0].tally.commits
    ensures Serving(ss[k], g) && Undisturbed(ss[0], ss[k], g)
  {
    hide Step, Control, Pipeline, Accounts, Tenure, RegisterReady, Paid, Supervised, Versions;
    ReachableInv(c, ss[0]);
    if k > 0 {
      NoCommitKeepsTheServer(c, ss, acts, g, k - 1);
      SegmentInv(c, ss, acts, k - 1);
      CommitsGrowAlong(c, ss, acts, k);
      CommitsGrow(c, ss[k - 1], acts[k - 1], ss[k]);
      assert Step(c, ss[k - 1], acts[k - 1]) == Some(ss[k]);
      ServingStep(c, ss[k - 1], acts[k - 1], ss[k], g);
    }
  }

  // ---------------------------------------------------------------- shutdown

  /** Engine steps, as opposed to saves by the developer. */
  function Work(acts: seq<Action>): nat
  {
    if acts == [] then 0 else Work(acts[..|acts| - 1]) + (if acts[|acts| - 1].Save? then 0 else 1)
  }

  /** After the root context ends and the watcher closes, every schedule runs out of engine steps. */
  lemma {:induction false} ShutdownIsBounded(c: Config, ss: seq<State>, acts: seq<Action>)
    requires Segment(c, ss, acts) && Reachable(c, ss[0]) && Closing(ss[0])
    ensures Closing(ss[|acts|]) && Measure(ss[|acts|]) + Work(acts) <= Measure(ss[0])
  {
    if acts != [] {
      var n := |acts| - 1;
      ShutdownIsBounded(c, ss[..n + 1], acts[..n]);
      ReachableInv(c, ss[0]);
      SegmentInv(c, ss, acts, n);
      assert Step(c, ss[n], acts[n]) == Some(ss[n + 1]);
      StepFalls(c, ss[n], acts[n], ss[n + 1]);
    }
  }

  /** A schedule that cannot be extended has made Run return, even while a server nobody can kill lives on. */
  lemma ShutdownReturns(c: Config, s: State)
    requires Reachable(c, s) && Closing(s)
    requires forall a: Action :: !a.Save? && Killed(c, s, a) ==> Step(c, s, a).None?
    ensures s.loop.main.MReturned?
  {
    ReachableInv(c, s);
    if !s.loop.main.MReturned? {
      var a := Progress(c, s);
    }
  }

  lemma AfterReturn(c: Config, s: State, a: Action, s': State)
    requires Control(s) && s.loop.main.MReturned? && Step(c, s, a) == Some(s')
    ensures s'.loop.main.MReturned? && |s'.sup.procs| == |s.sup.procs|
  {
    hide EnvStep, FanStep, DebStep, CommandStep, ReapStep, CtxStep;
    match a
    case BuildGo(i, ok) =>
      BuildMovesLast(c, s, i, ok, s');
      assert false;
    case Main(_) =>
    case Reap(_) | CtxGo(_, _) | ProcExit(_, _) => GoroutinesStand(c, s, a, s');
    case _ => BackgroundStands(c, s, a, s');
  }

  /** When Run has returned no build goroutine is left, nothing starts a server any more, and every server
      process not yet reaped has been claimed by a Stop. */
  lemma AtReturn(c: Config, s: State)
    requires Reachable(c, s) && s.loop.main.MReturned?
    ensures forall i :: 0 <= i < |s.loop.builds| ==> !Active(s.loop.builds[i])
    ensures forall a, s' :: Step(c, s, a) == Some(s') ==> s'.loop.main.MReturned? && |s'.sup.procs| == |s.sup.procs|
    ensures c.commandKilled || !c.hasBuild ==> s.disk.orphans == []
    ensures forall g :: 0 <= g < |s.sup.procs| && !Reaped(s.sup.procs[g]) ==> s.sup.procs[g].claimed
  {
    hide Step, Pipeline, Accounts, Paid, RegisterReady, HandlesNameLast, Tenure;
    ReachableInv(c, s);
    AllOver(s);
    forall a, s' | Step(c, s, a) == Some(s')
      ensures s'.loop.main.MReturned? && |s'.sup.procs| == |s.sup.procs|
    {
      AfterReturn(c, s, a, s');
    }
  }
}

/**
 Where the guarantees stop.  One live server, exit attribution and genuine notices hold over every run if and
 only if server kills are confirmed; ascending versions, the newest save winning and nothing left building if and
 only if cancelled build commands are reaped or there is nothing to compile.  The failing runs are exhibited.
 */
module ReloadLimits {
  import opened Optional
  import opened ReloadModel
  import opened ReloadControl
  import opened ReloadFreshness
  import opened ReloadServer
  import opened ReloadSingle
  import opened ReloadVersions
  import opened ReloadTheorems

  // ---------------------------------------------------------------- building a run step by step

  lemma InitReachable(c: Config)
    ensures Reachable(c, Init)
  {
    assert Run(c, [Init], []);
  }

  lemma StepReaches(c: Config, s: State, a: Action, t: State)
    requires Reachable(c, s) && Step(c, s, a) == Some(t)
    ensures Reachable(c, t)
  {
    var ss, acts :| Run(c, ss, acts) && ss[|ss| - 1] == s;
    assert Run(c, ss + [t], acts + [a]);
  }

  lemma Do(c: Config, s: State, a: Action) returns (t: State)
    requires Reachable(c, s) && Step(c, s, a).Some?
    ensures Step(c, s, a) == Some(t) && Reachable(c, t)
  {
    t := Step(c, s, a).value;
    StepReaches(c, s, a, t);
  }

  predicate Idle(s: State)
  {
    s.loop.main.MSelect? && !s.rootDone && BuildDone(s.loop, s.loop.inFlightDone)
  }

  /** The main loop takes the pending trigger and launches a build. */
  lemma Launch(c: Config, s: State) returns (t: State)
    requires Reachable(c, s) && Idle(s) && s.front.rebuild
    ensures Reachable(c, t) && t.front == s.front.(rebuild := false)
    ensures t == s.(front := t.front, loop := t.loop)
    ensures t.loop.main.MSelect? && t.loop.cancelFn == t.loop.inFlightDone == t.loop.buildWatch == Some(|s.loop.builds|)
    ensures t.loop.builds == CancelInFlight(s.loop).builds + [Build(BEnterPre, false, s.front.tree, None, Pending)]
  {
    hide EnvStep, FanStep, DebStep, BuildStep, CommandStep, ReapStep, CtxStep, CrashStep;
    t := Do(c, s, Main(PickRebuild));
    t := Do(c, t, Main(Go(true)));
    t := Do(c, t, Main(Go(true)));
    t := Do(c, t, Main(Go(true)));
    t := Do(c, t, Main(Go(true)));
  }

  /** The watcher reports the current tree and the fan-in cancels the build in flight. */
  lemma Notice(c: Config, s: State) returns (t: State)
    requires Reachable(c, s) && !s.front.eventsClosed && s.front.events == [] && s.front.fan.FanIdle?
    ensures Reachable(c, t) && t == s.(front := t.front, loop := CancelInFlight(s.loop))
    ensures t.front == s.front.(notified := s.front.tree, fan := FanSending, handled := Max(s.front.handled, s.front.tree))
  {
    hide DebStep, MainStep, ReapStep, CtxStep, BuildStep, CommandStep;
    t := Do(c, s, Notify);
    t := Do(c, t, FanTake);
    t := Do(c, t, FanCancel);
  }

  /** The fan-in and the debouncer turn one report of the current tree into a trigger. */
  lemma Trigger(c: Config, s: State) returns (t: State)
    requires Reachable(c, s) && !s.front.eventsClosed && s.front.events == [] && s.front.fan.FanIdle?
    requires s.front.raw == 0 && s.front.deb == DebRunning(false)
    ensures Reachable(c, t) && t == s.(front := t.front, loop := CancelInFlight(s.loop))
    ensures t.front == s.front.(notified := s.front.tree, handled := Max(s.front.handled, s.front.tree), rebuild := true)
  {
    hide EnvStep, MainStep, ReapStep, CtxStep, BuildStep, CommandStep;
    t := Notice(c, s);
    t := Do(c, t, FanForward);
    t := Do(c, t, DebTake);
    t := Do(c, t, DebFire);
  }

  /** A build that has just been launched reaches its compile command. */
  lemma EnterCompile(c: Config, s: State, i: nat) returns (t: State)
    requires Reachable(c, s) && i < |s.loop.builds| && s.loop.builds[i].pc.BEnterPre? && !s.loop.builds[i].ctxDone
    ensures Reachable(c, t)
    ensures t == With(s, i, s.loop.builds[i].(pc := if c.hasBuild then BCompiling(false) else BCheck))
  {
    hide EnvStep, FanStep, DebStep, MainStep, CommandStep, ReapStep, CtxStep, SwapStep;
    t := Do(c, s, BuildGo(i, true));
    if c.hasPre {
      t := Do(c, t, BuildGo(i, true));
    }
    t := Do(c, t, BuildGo(i, true));
  }

  /** A build that has just been launched compiles the current tree. */
  lemma Compile(c: Config, s: State, i: nat) returns (t: State)
    requires Reachable(c, s) && i < |s.loop.builds|
    requires s.loop.builds[i].pc.BEnterPre? && !s.loop.builds[i].ctxDone && s.loop.builds[i].snap.None?
    ensures Reachable(c, t) && t == s.(loop := t.loop, disk := t.disk) && t.disk.orphans == s.disk.orphans
    ensures i < |t.loop.builds|
    ensures t.loop == SetBuild(s.loop, i, s.loop.builds[i].(pc := BCheck, snap := t.loop.builds[i].snap))
    ensures c.hasBuild ==> t.disk.binary == s.front.tree
  {
    hide EnvStep, FanStep, DebStep, MainStep, ReapStep, CtxStep, SwapStep;
    t := EnterCompile(c, s, i);
    if c.hasBuild {
      t := Do(c, t, BuildRead(i));
      t := Do(c, t, BuildWrite(i));
      t := Do(c, t, BuildGo(i, true));
    }
  }

  /** A compiled build passes the check and clears the crash history. */
  lemma Commit(c: Config, s: State, i: nat) returns (t: State)
    requires Reachable(c, s) && i < |s.loop.builds| && s.loop.builds[i].pc.BCheck? && !s.loop.builds[i].ctxDone
    ensures Reachable(c, t) && t == With(s, i, s.loop.builds[i].(pc := BStop)).(tally := t.tally)
  {
    hide EnvStep, FanStep, DebStep, MainStep, CommandStep, ReapStep, CtxStep;
    t := Do(c, s, BuildGo(i, true));
    t := Do(c, t, BuildGo(i, true));
  }

  /** A committed build past its Stop starts the server and registers it. */
  lemma StartUp(c: Config, s: State, i: nat) returns (t: State)
    requires Reachable(c, s) && i < |s.loop.builds| && s.loop.builds[i].pc.BStart? && !s.rootDone
    ensures Reachable(c, t)
    ensures t == With(s, i, s.loop.builds[i].(pc := BPost, out := Served(|s.sup.procs|)))
                 .(sup := Registered(Spawned(s.sup, Serves(c, s)), |s.sup.procs|))
  {
    hide EnvStep, FanStep, DebStep, MainStep, CommandStep, ReapStep, CtxStep, CompileStep;
    t := Do(c, s, BuildGo(i, true));
    t := Do(c, t, BuildGo(i, true));
    t := Do(c, t, BuildGo(i, true));
  }

  /** A compiled build commits, starts a server with no handle in the way, and finishes. */
  lemma SwapIn(c: Config, s: State, i: nat) returns (t: State)
    requires Reachable(c, s) && i < |s.loop.builds| && s.loop.builds[i].pc.BCheck? && !s.loop.builds[i].ctxDone
    requires s.sup.cmd.None? && !s.rootDone
    ensures Reachable(c, t) && t == s.(loop := t.loop, tally := t.tally, sup := t.sup)
    ensures t.loop == SetBuild(s.loop, i, s.loop.builds[i].(pc := BDone, out := Served(|s.sup.procs|)))
    ensures t.sup == Registered(Spawned(s.sup, Serves(c, s)), |s.sup.procs|)
  {
    hide EnvStep, FanStep, DebStep, MainStep, CommandStep, ReapStep, CtxStep;
    t := Commit(c, s, i);
    t := Do(c, t, BuildGo(i, true));
    t := StartUp(c, t, i);
    t := Do(c, t, BuildGo(i, true));
    t := Do(c, t, BuildGo(i, true));
  }

  /** The same when Stop claims a server and gives up on it. */
  lemma SwapAround(c: Config, s: State, i: nat, g: nat) returns (t: State)
    requires !c.serverKilled
    requires Reachable(c, s) && i < |s.loop.builds| && s.loop.builds[i].pc.BCheck? && !s.loop.builds[i].ctxDone
    requires s.sup.cmd == Some(g) && g < |s.sup.procs| && !s.rootDone
    ensures Reachable(c, t) && !t.rootDone
    ensures t.sup == Registered(Spawned(PutBack(Claim(s.sup), g), Serves(c, s)), |s.sup.procs|)
  {
    hide EnvStep, FanStep, DebStep, MainStep, CommandStep, ReapStep, CtxStep;
    t := Commit(c, s, i);
    t := Do(c, t, BuildGo(i, true));
    t := Do(c, t, BuildGo(i, false));
    t := StartUp(c, t, i);
  }

  lemma Boot(c: Config) returns (t: State)
    ensures Reachable(c, t) && t == At(Init, MSelect).(front := Init.front.(rebuild := true))
  {
    InitReachable(c);
    t := Do(c, Init, Main(Go(true)));
  }

  // ---------------------------------------------------------------- one live server

  /** With an unkillable server, the next commit leaves two processes running, the older one claimed. */
  lemma UnkillableServer(c: Config) returns (t: State)
    requires !c.serverKilled
    ensures Reachable(c, t) && |t.sup.procs| == 2 && !t.sup.stopping && !t.rootDone
    ensures t.sup.procs[0].reaper.Waiting? && t.sup.procs[0].alive && t.sup.procs[0].claimed
    ensures t.sup.procs[1].reaper.Waiting? && t.sup.procs[1].alive && t.sup.exits.None?
  {
    t := Boot(c);
    t := Launch(c, t);
    t := Compile(c, t, 0);
    t := SwapIn(c, t, 0);
    t := Trigger(c, t);
    t := Launch(c, t);
    t := Compile(c, t, 1);
    t := SwapAround(c, t, 1, 0);
  }

  /** At most one server process is unreaped in every reachable state, exactly when server kills are confirmed. */
  lemma SingleLiveServer(c: Config)
    ensures (forall s :: Reachable(c, s) ==> OneUnreaped(s.sup)) <==> c.serverKilled
  {
    if c.serverKilled {
      forall s | Reachable(c, s)
        ensures OneUnreaped(s.sup)
      {
        ReachableInv(c, s);
      }
    } else {
      var t := UnkillableServer(c);
      assert !OneUnreaped(t.sup);
    }
  }

  // ---------------------------------------------------------------- exit attribution

  /** The next step of generation g's reaper would record the exit as what it was. */
  predicate RecordsTruth(c: Config, s: State, g: nat)
  {
    g < |s.sup.procs| && s.sup.procs[g].reaper.Waiting? && Step(c, s, Reap(g)).Some? ==>
      Step(c, s, Reap(g)).value.sup.procs[g].reaper == Recorded(s.sup.procs[g].claimed)
  }

  lemma AttributionIsExact(c: Config)
    ensures (forall s, g: nat :: Reachable(c, s) ==> RecordsTruth(c, s, g)) <==> c.serverKilled
  {
    if c.serverKilled {
      forall s, g: nat | Reachable(c, s)
        ensures RecordsTruth(c, s, g)
      {
        if g < |s.sup.procs| && s.sup.procs[g].reaper.Waiting? && Step(c, s, Reap(g)).Some? {
          ExitAttribution(c, s, g, Step(c, s, Reap(g)).value);
        }
      }
    } else {
      var t := UnkillableServer(c);
      t := Do(c, t, ProcExit(0, true));
      assert !RecordsTruth(c, t, 0);
    }
  }

  /** The pending notice is about a process that ended unclaimed. */
  predicate Genuine(s: State)
  {
    s.sup.exits.Some? ==>
      s.sup.exits.value.gen < |s.sup.procs| && !s.sup.procs[s.sup.exits.value.gen].claimedAtExit
  }

  /** Exits carries only exits that no Stop had claimed, exactly when server kills are confirmed: a server that
      outlives its Stop is reported as a crash once its successor has cleared the flag. */
  lemma NoticesAreExact(c: Config)
    ensures (forall s :: Reachable(c, s) ==> Genuine(s)) <==> c.serverKilled
  {
    hide FanStep, DebStep, BuildStep, CommandStep, CtxStep;
    if c.serverKilled {
      forall s | Reachable(c, s)
        ensures Genuine(s)
      {
        if s.sup.exits.Some? {
          NoticesAreGenuine(c, s);
        }
      }
    } else {
      var t := UnkillableServer(c);
      t := Do(c, t, ProcExit(0, true));
      t := Do(c, t, Reap(0));
      t := Do(c, t, Reap(0));
      t := Do(c, t, Reap(0));
      assert !Genuine(t);
    }
  }

  // ---------------------------------------------------------------- the version served

  /** A compile command that has read the old tree survives the kill that a save brings about. */
  lemma Orphaned(c: Config) returns (t: State)
    requires !c.commandKilled && c.hasBuild
    ensures Reachable(c, t) && Idle(t)
    ensures t.front == Front(1, 1, [], false, FanIdle, 1, 0, DebRunning(false), true)
    ensures t.sup == Init.sup && t.disk == Disk(0, [0])
    ensures |t.loop.builds| == 1 && t.loop.builds[0].pc.BDone? && t.loop.cancelFn == Some(0)
  {
    hide DebStep, MainStep, ReapStep, CtxStep;
    t := Boot(c);
    t := Launch(c, t);
    t := EnterCompile(c, t, 0);
    t := Do(c, t, BuildRead(0));
    t := Do(c, t, Save);
    t := Trigger(c, t);
    t := Do(c, t, BuildOrphan(0));
    t := Do(c, t, BuildGo(0, true));
  }

  /** That command then overwrites a newer binary. */
  lemma StaleBinary(c: Config) returns (t: State)
    requires !c.commandKilled && c.hasBuild
    ensures Reachable(c, t) && Idle(t) && t.loop.buildWatch == t.loop.inFlightDone == Some(1)
    ensures t.disk.binary == 0 && t.sup == Registered(Spawned(Init.sup, 1), 0)
    ensures t.front == Front(1, 1, [], false, FanIdle, 1, 0, DebRunning(false), false)
    ensures |t.loop.builds| == 2 && t.loop.builds[0].pc.BDone? && t.loop.builds[1].pc.BDone? && t.loop.builds[1].out.Served?
  {
    t := Orphaned(c);
    t := Launch(c, t);
    t := Compile(c, t, 1);
    t := SwapIn(c, t, 1);
    t := Do(c, t, OrphanWrite(0));
  }

  /** The main loop has found the server down and starts it again. */
  lemma Restarts(c: Config, s: State) returns (t: State)
    requires Reachable(c, s) && s.loop.main.MRecord? && !s.rootDone
    ensures Reachable(c, t) && t == At(s, MSelect).(sup := t.sup, tally := t.tally)
    ensures t.tally.history == s.tally.history + 1
    ensures t.sup == Registered(Spawned(s.sup, Serves(c, s)), |s.sup.procs|)
  {
    hide EnvStep, FanStep, DebStep, BuildStep, CommandStep, ReapStep, CtxStep;
    t := Do(c, s, Main(Go(true)));
    t := Do(c, t, Main(Go(false)));
    t := Do(c, t, Main(Go(true)));
    t := Do(c, t, Main(Go(true)));
    t := Do(c, t, Main(Go(true)));
  }

  /** A server that crashes with no build running is started again. */
  lemma CrashRestarts(c: Config, s: State) returns (t: State)
    requires Reachable(c, s) && s.loop.main.MSelect? && s.loop.buildWatch.None? && !s.rootDone
    requires s.sup.exits.Some? && s.sup.exits.value.failed && !IsRunning(s.sup)
    ensures Reachable(c, t) && t.loop.main.MSelect? && t.tally.history == s.tally.history + 1
    ensures t.sup == Registered(Spawned(s.sup.(exits := None), Serves(c, s)), |s.sup.procs|)
    ensures t == s.(sup := t.sup, tally := t.tally)
  {
    hide EnvStep, FanStep, DebStep, BuildStep, CommandStep, ReapStep, CtxStep;
    t := Do(c, s, Main(PickExit));
    t := Do(c, t, Main(Go(true)));
    t := Do(c, t, Main(Go(true)));
    t := Restarts(c, t);
  }

  /** After that, a crash restart serves the older source, and the engine comes to rest on it. */
  lemma VersionGoesBack(c: Config) returns (t: State)
    requires !c.commandKilled && c.hasBuild
    ensures Reachable(c, t) && |t.sup.procs| == 2 && t.sup.procs[1].ver < t.sup.procs[0].ver
    ensures Settled(t) && |t.loop.builds| == 2 && Last(t.loop).out.Served? && t.sup.procs[1].ver < t.front.tree
  {
    hide FanStep, DebStep, BuildStep, CommandStep, CtxStep;
    t := StaleBinary(c);
    t := Do(c, t, Main(PickBuildWatch));
    t := Do(c, t, ProcExit(0, true));
    t := Do(c, t, Reap(0));
    t := Do(c, t, Reap(0));
    t := Do(c, t, Reap(0));
    t := CrashRestarts(c, t);
  }

  /** Successive servers never serve older source, exactly when cancelled build commands are reaped or nothing is compiled. */
  lemma ServedVersionAscends(c: Config)
    ensures (forall s :: Reachable(c, s) ==> Ascending(s.sup, s.front.tree)) <==> (c.commandKilled || !c.hasBuild)
  {
    if c.commandKilled || !c.hasBuild {
      forall s | Reachable(c, s)
        ensures Ascending(s.sup, s.front.tree)
      {
        ReachableInv(c, s);
      }
    } else {
      var t := VersionGoesBack(c);
      assert !Ascending(t.sup, t.front.tree);
    }
  }

  /** Whenever the engine settles the newest save is in service, unless its build or its server failed,
      exactly when cancelled build commands are reaped or nothing is compiled. */
  lemma NewestSaveWins(c: Config)
    ensures (forall s :: Reachable(c, s) && Settled(s) ==> ServesNewest(s)) <==> (c.commandKilled || !c.hasBuild)
  {
    if c.commandKilled || !c.hasBuild {
      forall s | Reachable(c, s) && Settled(s)
        ensures ServesNewest(s)
      {
        Convergence(c, s);
      }
    } else {
      var t := VersionGoesBack(c);
      assert !ServesNewest(t);
    }
  }

  // ---------------------------------------------------------------- nothing left building

  /** A build command that has read the tree survives the shutdown that should have killed it. */
  lemma StillBuilding(c: Config) returns (t: State)
    requires !c.commandKilled && c.hasBuild
    ensures Reachable(c, t) && t.rootDone && t.loop.main.MSelect? && t.disk.orphans == [0] && t.sup == Init.sup
    ensures |t.loop.builds| == 1 && t.loop.builds[0].pc.BDone? && t.loop.inFlightDone == Some(0)
  {
    t := Boot(c);
    t := Launch(c, t);
    t := EnterCompile(c, t, 0);
    t := Survives(c, t, 0);
  }

  lemma Survives(c: Config, s: State, i: nat) returns (t: State)
    requires !c.commandKilled && Reachable(c, s) && !s.rootDone && i < |s.loop.builds|
    requires s.loop.builds[i] == Build(BCompiling(false), false, 0, None, Pending) && s.disk.orphans == []
    ensures Reachable(c, t) && t == s.(rootDone := true, loop := t.loop, disk := t.disk) && t.disk.orphans == [s.front.tree]
    ensures t.loop == SetBuild(s.loop, i, Build(BDone, true, 0, Some(s.front.tree), Failed))
  {
    hide FanStep, DebStep, MainStep, ReapStep, CtxStep;
    t := Do(c, s, BuildRead(i));
    t := Do(c, t, RootCancel);
    t := Do(c, t, Propagate(i));
    t := Do(c, t, BuildOrphan(i));
    t := Do(c, t, BuildGo(i, true));
  }

  /** No cancelled build command is ever left running, exactly when they are reaped or nothing is compiled; and
      where they are not, one can even be left when Run has returned. */
  lemma NothingLeftBuilding(c: Config)
    ensures (forall s :: Reachable(c, s) ==> s.disk.orphans == []) <==> (c.commandKilled || !c.hasBuild)
    ensures (forall s :: Reachable(c, s) && s.loop.main.MReturned? ==> s.disk.orphans == []) <==> (c.commandKilled || !c.hasBuild)
  {
    hide EnvStep, FanStep, DebStep, BuildStep, CommandStep, ReapStep, CtxStep;
    if c.commandKilled || !c.hasBuild {
      forall s | Reachable(c, s)
        ensures s.disk.orphans == []
      {
        ReachableInv(c, s);
      }
    } else {
      var t := StillBuilding(c);
      t := Do(c, t, Main(PickShutdown));
      t := Do(c, t, Main(Go(true)));
      t := Do(c, t, Main(Go(true)));
      t := Do(c, t, Main(Go(true)));
    }
  }
}

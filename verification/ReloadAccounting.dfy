/**
 Who disturbs a running server: every Stop the controller issues is paid for by a build that passed the
 staleness check or by shutdown, and between commits a live server and its crash history are untouched.
 */
module ReloadAccounting {
  import opened Optional
  import opened ReloadModel
  import opened ReloadControl
  import opened ReloadFreshness
  import opened ReloadServer
  import opened ReloadSingle
  import opened ReloadTenure

  /** A build has committed but not yet issued its Stop. */
  function StopsOwed(l: Loop): nat { if LastPc(l).BReset? || LastPc(l).BStop? then 1 else 0 }

  function StopsAtExit(l: Loop): nat { if l.main.MStopWait? || l.main.MReturned? then 1 else 0 }

  predicate Accounts(s: State)
  {
    s.tally.stops + StopsOwed(s.loop) == s.tally.commits + StopsAtExit(s.loop)
  }

  lemma AccountsRun(c: Config, s: State, ok: bool, s': State)
    requires Control(s) && Accounts(s) && RunStep(c, s, ok) == Some(s')
    ensures Accounts(s')
  {
    CancelKeeps(s.loop);
  }

  lemma AccountsMain(c: Config, s: State, ch: Choice, s': State)
    requires Control(s) && Accounts(s) && MainStep(c, s, ch) == Some(s')
    ensures Accounts(s')
  {
    hide RunStep, Control, Claim, Registered, Spawned;
    if s.loop.main.MSelect? {
      assert s'.loop.builds == s.loop.builds && s'.tally == s.tally;
    } else if HandlingCrash(s.loop.main) {
      assert s'.loop.builds == s.loop.builds && s'.tally.stops == s.tally.stops;
    } else {
      AccountsRun(c, s, ch.ok, s');
    }
  }

  lemma AccountsCompile(c: Config, s: State, i: nat, ok: bool, s': State)
    requires Control(s) && Accounts(s) && i < |s.loop.builds| && CompileStep(c, s, i, ok) == Some(s')
    ensures Accounts(s')
  {
    CompileReplacesLast(c, s, i, ok, s');
  }

  lemma AccountsSwap(c: Config, s: State, i: nat, ok: bool, s': State)
    requires Control(s) && Accounts(s) && i < |s.loop.builds| && SwapStep(c, s, i, ok) == Some(s')
    ensures Accounts(s')
  {
    SwapReplacesLast(c, s, i, ok, s');
  }

  lemma AccountsBuild(c: Config, s: State, i: nat, ok: bool, s': State)
    requires Control(s) && Accounts(s) && BuildStep(c, s, i, ok) == Some(s')
    ensures Accounts(s')
  {
    hide CompileStep, SwapStep, Accounts, Control;
    if Compiling(s.loop.builds[i].pc) {
      AccountsCompile(c, s, i, ok, s');
    } else {
      AccountsSwap(c, s, i, ok, s');
    }
  }

  lemma AccountsStep(c: Config, s: State, a: Action, s': State)
    requires Control(s) && Accounts(s) && Step(c, s, a) == Some(s')
    ensures Accounts(s')
  {
    hide EnvStep, FanStep, DebStep, MainStep, BuildStep, CommandStep, ReapStep, CtxStep, Control;
    match a
    case Main(ch) => AccountsMain(c, s, ch, s');
    case BuildGo(i, ok) => AccountsBuild(c, s, i, ok, s');
    case Reap(_) | CtxGo(_, _) | ProcExit(_, _) => GoroutinesStand(c, s, a, s');
    case _ => BackgroundStands(c, s, a, s');
  }

  /** Generation g is up, perhaps after a Stop that gave up on it, and no committed build is in flight. */
  predicate Serving(s: State, g: nat)
  {
    && g + 1 == |s.sup.procs| && s.sup.procs[g].reaper.Waiting? && s.sup.procs[g].alive
    && !s.rootDone && !Committed(LastPc(s.loop))
  }

  /** The step left generation g, the set of generations, the Stop count and the crash history alone. */
  predicate Undisturbed(s: State, s': State, g: nat)
  {
    && |s'.sup.procs| == |s.sup.procs| && g < |s.sup.procs| && s'.sup.procs[g] == s.sup.procs[g]
    && s'.tally == s.tally
  }

  lemma ServingRuns(s: State, g: nat)
    requires Tenure(s) && Control(s) && Serving(s, g)
    ensures s.sup.done == Some(g) && IsRunning(s.sup)
    ensures !Leaving(s.loop.main) && !FoundDown(s.loop.main) && !s.loop.main.MRegister?
  {}

  lemma ServingMain(c: Config, s: State, ch: Choice, s': State, g: nat)
    requires Control(s) && Tenure(s) && Serving(s, g) && MainStep(c, s, ch) == Some(s')
    ensures Serving(s', g) && Undisturbed(s, s', g)
  {
    hide Tenure, LoopInv;
    ServingRuns(s, g);
    CancelKeeps(s.loop);
  }

  lemma ServingBuild(c: Config, s: State, i: nat, ok: bool, s': State, g: nat)
    requires Control(s) && Tenure(s) && Serving(s, g) && BuildStep(c, s, i, ok) == Some(s')
    requires s'.tally.commits == s.tally.commits
    ensures Serving(s', g) && Undisturbed(s, s', g)
  {
    BuildMovesLast(c, s, i, ok, s');
  }

  lemma ServingGoroutines(c: Config, s: State, a: Action, s': State, g: nat)
    requires Control(s) && Tenure(s) && Serving(s, g) && Step(c, s, a) == Some(s')
    requires (a.Reap? || a.CtxGo? || a.ProcExit?) && !(a.ProcExit? && a.g == g)
    ensures Serving(s', g) && Undisturbed(s, s', g)
  {
    GoroutinesStand(c, s, a, s');
  }

  /** One step: a live server is disturbed only by its own exit, the end of the root context, or a commit. */
  lemma ServingStep(c: Config, s: State, a: Action, s': State, g: nat)
    requires Control(s) && Tenure(s) && Serving(s, g) && Step(c, s, a) == Some(s')
    requires !a.RootCancel? && !(a.ProcExit? && a.g == g) && s'.tally.commits == s.tally.commits
    ensures Serving(s', g) && Undisturbed(s, s', g)
  {
    hide EnvStep, FanStep, DebStep, MainStep, BuildStep, CommandStep, ReapStep, CtxStep, Control, Tenure;
    match a
    case Main(ch) => ServingMain(c, s, ch, s', g);
    case BuildGo(i, ok) => ServingBuild(c, s, i, ok, s', g);
    case Reap(_) | CtxGo(_, _) | ProcExit(_, _) => ServingGoroutines(c, s, a, s', g);
    case _ => BackgroundStands(c, s, a, s');
  }
}

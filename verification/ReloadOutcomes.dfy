/**
 What becomes of a build is what its steps say: over every run, a build fails, is superseded, commits, serves or
 cannot start exactly if the step that says so was taken.  So a failed hook or build command costs a save its
 build and nothing else.
 */
module ReloadOutcomes {
  import opened Optional
  import opened ReloadModel
  import opened ReloadControl
  import opened ReloadFreshness
  import opened ReloadServer
  import opened ReloadSingle
  import opened ReloadTenure
  import opened ReloadAccounting
  import opened ReloadTheorems

  // ---------------------------------------------------------------- what a step of build i says

  /** Build i stands at its configured pre hook or build command: about to start it, or running it. */
  predicate AtCommand(c: Config, s: State, i: nat)
  {
    i < |s.loop.builds| &&
    var pc := s.loop.builds[i].pc;
    (c.hasPre && (pc.BEnterPre? || pc.BPre?)) || (c.hasBuild && (pc.BEnter? || pc.BCompiling?))
  }

  /** A command of build i fails: it reports an error or cannot be started, its context ended before it was, or it
      was cancelled, its kill was not confirmed and the build does not wait for it any more. */
  predicate CommandFails(c: Config, s: State, a: Action, i: nat)
  {
    && AtCommand(c, s, i)
    && (a == BuildGo(i, false) || (a == BuildOrphan(i) && s.loop.builds[i].ctxDone && !c.commandKilled)
        || (a == BuildGo(i, true) && Unstarted(s.loop.builds[i])))
  }

  predicate Unstarted(b: Build) { b.ctxDone && (b.pc.BEnterPre? || b.pc.BEnter?) }

  predicate Moves(s: State, a: Action, i: nat) { a.BuildGo? && a.i == i && i < |s.loop.builds| }

  /** The pre hook succeeds. */
  predicate HookSucceeds(s: State, a: Action, i: nat) { Moves(s, a, i) && a.ok && s.loop.builds[i].pc.BPre? }

  /** The build command succeeds, having written the binary. */
  predicate BuildSucceeds(s: State, a: Action, i: nat) { Moves(s, a, i) && a.ok && s.loop.builds[i].pc == BCompiling(true) }

  /** The post-compile check turns build i away ... */
  predicate TurnedAway(s: State, a: Action, i: nat) { Moves(s, a, i) && s.loop.builds[i].pc.BCheck? && s.loop.builds[i].ctxDone }

  /** ... or lets it pass. */
  predicate Passes(s: State, a: Action, i: nat) { Moves(s, a, i) && s.loop.builds[i].pc.BCheck? && !s.loop.builds[i].ctxDone }

  /** Start refuses, because the root context has ended or for a reason of its own, or the process does not come up. */
  predicate StartRefused(s: State, a: Action, i: nat)
  {
    && Moves(s, a, i)
    && ((s.loop.builds[i].pc.BStart? && (s.rootDone || !a.ok)) || (s.loop.builds[i].pc.BSpawn? && !a.ok))
  }

  predicate ServerComesUp(s: State, a: Action, i: nat, g: nat) { Moves(s, a, i) && s.loop.builds[i].pc == BRegister(g) }

  // ---------------------------------------------------------------- what build i has come to

  /** A build not launched yet has come to nothing. */
  function OutOf(s: State, i: nat): Outcome { if i < |s.loop.builds| then s.loop.builds[i].out else Pending }

  function PcOf(s: State, i: nat): BuildPc { if i < |s.loop.builds| then s.loop.builds[i].pc else BCreated }

  /** Past the check, whatever came of it. */
  predicate Past(s: State, i: nat) { Committed(PcOf(s, i)) || OutOf(s, i).StartFailed? || OutOf(s, i).Served? }

  /** Before the check, or at it. */
  predicate Early(pc: BuildPc) { pc.BCreated? || Compiling(pc) }

  predicate PastHook(s: State, i: nat) { PcOf(s, i).BEnter? || PcOf(s, i).BCompiling? || PcOf(s, i).BCheck? || Past(s, i) }

  predicate PastBuild(s: State, i: nat) { PcOf(s, i).BCheck? || Past(s, i) }

  /** A build has an outcome once it has nothing more to do, and runs only configured commands. */
  predicate Orderly(c: Config, b: Build)
  {
    && (Early(b.pc) || Committed(b.pc) ==> b.out.Pending?)
    && (b.pc.BClosing? || b.pc.BDone? ==> !b.out.Pending?)
    && (b.pc.BPost? ==> b.out.Served?)
    && (b.pc.BPre? ==> c.hasPre) && (b.pc.BCompiling? ==> c.hasBuild)
  }

  ghost predicate AllOrderly(c: Config, s: State)
  {
    Control(s) && forall i :: 0 <= i < |s.loop.builds| ==> Orderly(c, s.loop.builds[i])
  }

  // ---------------------------------------------------------------- one step

  /** Build i's record after a step: how its outcome ... */
  ghost predicate TellsEnd(c: Config, s: State, a: Action, s': State, i: nat)
  {
    && (OutOf(s', i).Failed? <==> OutOf(s, i).Failed? || CommandFails(c, s, a, i))
    && (OutOf(s', i).Superseded? <==> OutOf(s, i).Superseded? || TurnedAway(s, a, i))
    && (OutOf(s', i).StartFailed? <==> OutOf(s, i).StartFailed? || StartRefused(s, a, i))
    && (forall g :: OutOf(s', i) == Served(g) <==> OutOf(s, i) == Served(g) || ServerComesUp(s, a, i, g))
  }

  /** ... and how far it has got follow from the step. */
  ghost predicate TellsWay(c: Config, s: State, a: Action, s': State, i: nat)
  {
    && (Past(s', i) <==> Past(s, i) || Passes(s, a, i))
    && (c.hasPre && PastHook(s', i) ==> PastHook(s, i) || HookSucceeds(s, a, i))
    && (c.hasBuild && PastBuild(s', i) ==> PastBuild(s, i) || BuildSucceeds(s, a, i))
  }

  ghost predicate Tells(c: Config, s: State, a: Action, s': State, i: nat)
  {
    TellsEnd(c, s, a, s', i) && TellsWay(c, s, a, s', i)
  }

  /** A cancelled build stays cancelled. */
  predicate StaysCancelled(s: State, s': State, i: nat)
  {
    i < |s.loop.builds| ==> i < |s'.loop.builds| && (s.loop.builds[i].ctxDone ==> s'.loop.builds[i].ctxDone)
  }

  /** The step leaves build i's record alone, except that it may cancel it. */
  predicate Spared(s: State, s': State, i: nat)
  {
    && (i < |s.loop.builds| ==> i < |s'.loop.builds| && s'.loop.builds[i].out == s.loop.builds[i].out)
    && (i >= |s.loop.builds| && i < |s'.loop.builds| ==> s'.loop.builds[i].out.Pending?)
    && (PcOf(s', i) == PcOf(s, i) || (PcOf(s, i).BCreated? && PcOf(s', i).BEnterPre?))
    && StaysCancelled(s, s', i)
  }

  lemma SparedTells(c: Config, s: State, a: Action, s': State, i: nat)
    requires Spared(s, s', i) && !(a.BuildGo? && a.i == i) && !(a.BuildOrphan? && a.i == i)
    ensures Tells(c, s, a, s', i)
  {
    assert TellsEnd(c, s, a, s', i) by { hide TellsWay; }
    assert TellsWay(c, s, a, s', i) by { hide TellsEnd; }
  }

  lemma MainSpares(c: Config, s: State, ch: Choice, s': State, i: nat)
    requires AllOrderly(c, s) && MainStep(c, s, ch) == Some(s')
    ensures Spared(s, s', i) && AllOrderly(c, s')
  {
    ControlMain(c, s, ch, s');
    if s.loop.main.MSelect? {
      assert s'.loop.builds == s.loop.builds;
    } else if HandlingCrash(s.loop.main) {
      assert s'.loop.builds == s.loop.builds;
    } else {
      RunSpares(c, s, ch.ok, s', i);
    }
  }

  lemma RunSpares(c: Config, s: State, ok: bool, s': State, i: nat)
    requires AllOrderly(c, s) && RunStep(c, s, ok) == Some(s') && Control(s')
    ensures Spared(s, s', i) && AllOrderly(c, s')
  {
    hide Claim, PutBack, ProcDone, Endings, LoopExclusive, CancelInFlight;
    if s.loop.main.MCancel? {
      CancelSpares(c, s, s', i);
    } else if !s.loop.main.MPrepare? && !s.loop.main.MPublish? {
      assert s'.loop.builds == s.loop.builds;
    }
  }

  lemma CancelSpares(c: Config, s: State, s': State, i: nat)
    requires AllOrderly(c, s) && s'.loop.builds == CancelInFlight(s.loop).builds && Control(s')
    ensures Spared(s, s', i) && AllOrderly(c, s')
  {
    hide Control;
  }

  lemma CompileEnd(c: Config, s: State, i: nat, ok: bool, s': State)
    requires i < |s.loop.builds| && Orderly(c, s.loop.builds[i]) && CompileStep(c, s, i, ok) == Some(s')
    ensures i < |s'.loop.builds| && TellsEnd(c, s, BuildGo(i, ok), s', i) && Orderly(c, s'.loop.builds[i])
  {}

  lemma CompileWay(c: Config, s: State, i: nat, ok: bool, s': State)
    requires i < |s.loop.builds| && Orderly(c, s.loop.builds[i]) && CompileStep(c, s, i, ok) == Some(s')
    ensures i < |s'.loop.builds| && TellsWay(c, s, BuildGo(i, ok), s', i) && Orderly(c, s'.loop.builds[i])
  {}

  lemma SwapEnd(c: Config, s: State, i: nat, ok: bool, s': State)
    requires i < |s.loop.builds| && Orderly(c, s.loop.builds[i]) && SwapStep(c, s, i, ok) == Some(s')
    ensures i < |s'.loop.builds| && TellsEnd(c, s, BuildGo(i, ok), s', i) && Orderly(c, s'.loop.builds[i])
  {
    hide Claim, PutBack, ProcDone, Spawned, Registered, Serves;
  }

  lemma SwapWay(c: Config, s: State, i: nat, ok: bool, s': State)
    requires i < |s.loop.builds| && Orderly(c, s.loop.builds[i]) && SwapStep(c, s, i, ok) == Some(s')
    ensures i < |s'.loop.builds| && TellsWay(c, s, BuildGo(i, ok), s', i) && Orderly(c, s'.loop.builds[i])
  {
    hide Claim, PutBack, ProcDone, Spawned, Registered, Serves;
  }

  lemma BuildTells(c: Config, s: State, j: nat, ok: bool, s': State, i: nat)
    requires AllOrderly(c, s) && BuildStep(c, s, j, ok) == Some(s')
    ensures Tells(c, s, BuildGo(j, ok), s', i) && AllOrderly(c, s')
  {
    hide CompileStep, SwapStep, Orderly, TellsEnd, TellsWay, LoopInv;
    assert Control(s') && j < |s.loop.builds| && s'.loop == SetBuild(s.loop, j, s'.loop.builds[j]) by {
      ControlBuild(c, s, j, ok, s');
      BuildMovesLast(c, s, j, ok, s');
    }
    if Compiling(s.loop.builds[j].pc) {
      CompileEnd(c, s, j, ok, s');
      CompileWay(c, s, j, ok, s');
    } else {
      SwapEnd(c, s, j, ok, s');
      SwapWay(c, s, j, ok, s');
    }
    if i != j {
      SparedTells(c, s, BuildGo(j, ok), s', i);
    }
  }

  lemma CommandTells(c: Config, s: State, a: Action, s': State, i: nat)
    requires AllOrderly(c, s) && CommandStep(c, s, a) == Some(s')
    ensures Tells(c, s, a, s', i) && AllOrderly(c, s')
  {
    ControlCommand(c, s, a, s');
    hide Control, Tells, CommandFails;
    match a
    case BuildWrite(j) => WriteTells(c, s, j, s', i);
    case BuildOrphan(j) => OrphanTells(c, s, j, s', i);
    case _ => SparedTells(c, s, a, s', i);
  }

  lemma WriteTells(c: Config, s: State, j: nat, s': State, i: nat)
    requires AllOrderly(c, s) && CommandStep(c, s, BuildWrite(j)) == Some(s')
    ensures Tells(c, s, BuildWrite(j), s', i) && forall k :: 0 <= k < |s'.loop.builds| ==> Orderly(c, s'.loop.builds[k])
  {
    hide Control;
  }

  lemma OrphanTells(c: Config, s: State, j: nat, s': State, i: nat)
    requires AllOrderly(c, s) && CommandStep(c, s, BuildOrphan(j)) == Some(s')
    ensures Tells(c, s, BuildOrphan(j), s', i) && forall k :: 0 <= k < |s'.loop.builds| ==> Orderly(c, s'.loop.builds[k])
  {
    hide Control;
  }

  lemma FanSpares(c: Config, s: State, a: Action, s': State, i: nat)
    requires AllOrderly(c, s) && FanStep(s, a) == Some(s')
    ensures Spared(s, s', i) && AllOrderly(c, s')
  {
    ControlFan(s, a, s');
  }

  lemma TellsStep(c: Config, s: State, a: Action, s': State, i: nat)
    requires AllOrderly(c, s) && Step(c, s, a) == Some(s')
    ensures Tells(c, s, a, s', i) && AllOrderly(c, s')
  {
    hide MainStep, BuildStep, FanStep, CommandStep, ReapStep, CtxStep, Tells, Orderly, Control, Spared;
    match a
    case Main(ch) =>
      MainSpares(c, s, ch, s', i);
      SparedTells(c, s, a, s', i);
    case BuildGo(j, ok) => BuildTells(c, s, j, ok, s', i);
    case FanTake | FanCancel | FanForward | FanQuit =>
      FanSpares(c, s, a, s', i);
      SparedTells(c, s, a, s', i);
    case Propagate(_) | BuildRead(_) | BuildWrite(_) | BuildOrphan(_) | OrphanWrite(_) => CommandTells(c, s, a, s', i);
    case _ =>
      ControlStep(c, s, a, s');
      assert s'.loop == s.loop;
      SameLoop(s, s', i);
      SparedTells(c, s, a, s', i);
  }

  lemma SameLoop(s: State, s': State, i: nat)
    requires s'.loop == s.loop
    ensures Spared(s, s', i)
  {}

  // ---------------------------------------------------------------- over whole runs

  /** Among the first m steps was one of which `event` holds. */
  ghost predicate Happened(ss: seq<State>, acts: seq<Action>, m: nat, event: (State, Action) -> bool)
  {
    exists k :: 0 <= k < m && k < |acts| && k < |ss| && event(ss[k], acts[k])
  }

  lemma HappenedOneMore(ss: seq<State>, acts: seq<Action>, m: nat, event: (State, Action) -> bool)
    requires |ss| == |acts| + 1 && m < |acts|
    ensures Happened(ss, acts, m + 1, event) <==> Happened(ss, acts, m, event) || event(ss[m], acts[m])
  {}

  lemma {:induction false} OrderlyAlong(c: Config, ss: seq<State>, acts: seq<Action>, m: nat)
    requires Segment(c, ss, acts) && AllOrderly(c, ss[0]) && m < |ss|
    ensures AllOrderly(c, ss[m])
  {
    hide Step, AllOrderly;
    if m > 0 {
      OrderlyAlong(c, ss, acts, m - 1);
      TellsStep(c, ss[m - 1], acts[m - 1], ss[m], 0);
    }
  }

  lemma ReachableOrderly(c: Config, s: State)
    requires Reachable(c, s)
    ensures AllOrderly(c, s)
  {
    hide Step;
    var ss, acts :| Run(c, ss, acts) && ss[|ss| - 1] == s;
    OrderlyAlong(c, ss, acts, |ss| - 1);
  }

  /** How build i stands after m steps of a stretch follows from how it stood and from the steps taken. */
  ghost predicate Ended(c: Config, ss: seq<State>, acts: seq<Action>, m: nat, i: nat)
    requires m < |ss|
  {
    var s, t := ss[0], ss[m];
    && (OutOf(t, i).Failed? <==> OutOf(s, i).Failed? || Happened(ss, acts, m, (r, a) => CommandFails(c, r, a, i)))
    && (OutOf(t, i).Superseded? <==> OutOf(s, i).Superseded? || Happened(ss, acts, m, (r, a) => TurnedAway(r, a, i)))
    && (OutOf(t, i).StartFailed? <==> OutOf(s, i).StartFailed? || Happened(ss, acts, m, (r, a) => StartRefused(r, a, i)))
    && (forall g: nat :: OutOf(t, i) == Served(g) <==>
          OutOf(s, i) == Served(g) || Happened(ss, acts, m, (r, a) => ServerComesUp(r, a, i, g)))
  }

  ghost predicate GotOn(c: Config, ss: seq<State>, acts: seq<Action>, m: nat, i: nat)
    requires m < |ss|
  {
    var s, t := ss[0], ss[m];
    && (Past(t, i) <==> Past(s, i) || Happened(ss, acts, m, (r, a) => Passes(r, a, i)))
    && (c.hasPre && PastHook(t, i) ==> PastHook(s, i) || Happened(ss, acts, m, (r, a) => HookSucceeds(r, a, i)))
    && (c.hasBuild && PastBuild(t, i) ==> PastBuild(s, i) || Happened(ss, acts, m, (r, a) => BuildSucceeds(r, a, i)))
  }

  lemma EndedOneMore(c: Config, ss: seq<State>, acts: seq<Action>, m: nat, i: nat)
    requires |ss| == |acts| + 1 && m < |acts| && Ended(c, ss, acts, m, i) && TellsEnd(c, ss[m], acts[m], ss[m + 1], i)
    ensures Ended(c, ss, acts, m + 1, i)
  {
    hide Happened, OutOf, CommandFails, TurnedAway, StartRefused, ServerComesUp;
    HappenedOneMore(ss, acts, m, (r, a) => CommandFails(c, r, a, i));
    HappenedOneMore(ss, acts, m, (r, a) => TurnedAway(r, a, i));
    HappenedOneMore(ss, acts, m, (r, a) => StartRefused(r, a, i));
    forall g: nat
      ensures OutOf(ss[m + 1], i) == Served(g) <==>
        OutOf(ss[0], i) == Served(g) || Happened(ss, acts, m + 1, (r, a) => ServerComesUp(r, a, i, g))
    {
      HappenedOneMore(ss, acts, m, (r, a) => ServerComesUp(r, a, i, g));
    }
  }

  lemma GotOnOneMore(c: Config, ss: seq<State>, acts: seq<Action>, m: nat, i: nat)
    requires |ss| == |acts| + 1 && m < |acts| && GotOn(c, ss, acts, m, i) && TellsWay(c, ss[m], acts[m], ss[m + 1], i)
    ensures GotOn(c, ss, acts, m + 1, i)
  {
    hide Happened, Past, PastHook, PastBuild, Passes, HookSucceeds, BuildSucceeds;
    HappenedOneMore(ss, acts, m, (r, a) => Passes(r, a, i));
    HappenedOneMore(ss, acts, m, (r, a) => HookSucceeds(r, a, i));
    HappenedOneMore(ss, acts, m, (r, a) => BuildSucceeds(r, a, i));
  }

  lemma {:induction false} StoryAlong(c: Config, ss: seq<State>, acts: seq<Action>, m: nat, i: nat)
    requires Segment(c, ss, acts) && AllOrderly(c, ss[0]) && m < |ss|
    ensures Ended(c, ss, acts, m, i) && GotOn(c, ss, acts, m, i)
  {
    hide Step, AllOrderly, TellsEnd, TellsWay;
    if m > 0 {
      hide Ended, GotOn;
      StoryAlong(c, ss, acts, m - 1, i);
      OrderlyAlong(c, ss, acts, m - 1);
      TellsStep(c, ss[m - 1], acts[m - 1], ss[m], i);
      EndedOneMore(c, ss, acts, m - 1, i);
      GotOnOneMore(c, ss, acts, m - 1, i);
    }
  }

  /** Over every run, what has become of a build is exactly what its steps said: it has failed if and only if one
      of its configured commands failed, was superseded if and only if the check turned it away, has no server if
      and only if Start refused one, and serves with a generation if and only if that server came up. */
  lemma OutcomeIsEarned(c: Config, ss: seq<State>, acts: seq<Action>, m: nat, i: nat)
    requires Run(c, ss, acts) && m < |ss|
    ensures OutOf(ss[m], i).Failed? <==> Happened(ss, acts, m, (r, a) => CommandFails(c, r, a, i))
    ensures OutOf(ss[m], i).Superseded? <==> Happened(ss, acts, m, (r, a) => TurnedAway(r, a, i))
    ensures OutOf(ss[m], i).StartFailed? <==> Happened(ss, acts, m, (r, a) => StartRefused(r, a, i))
    ensures forall g: nat :: OutOf(ss[m], i) == Served(g) <==> Happened(ss, acts, m, (r, a) => ServerComesUp(r, a, i, g))
    ensures PcOf(ss[m], i).BDone? ==> !OutOf(ss[m], i).Pending?
  {
    hide Happened, CommandFails, TurnedAway, StartRefused, ServerComesUp, Step;
    StoryAlong(c, ss, acts, m, i);
    OrderlyAlong(c, ss, acts, m);
  }

  /** A build gets on only by success, in the order of the code: a configured hook has succeeded before the build
      command is reached, a configured build command before the check, and no server comes up before the check
      has let the build pass. */
  lemma OnlySuccessGetsOn(c: Config, ss: seq<State>, acts: seq<Action>, k: nat, i: nat)
    requires Run(c, ss, acts) && k < |acts| && Moves(ss[k], acts[k], i)
    ensures c.hasPre && (ss[k].loop.builds[i].pc.BEnter? || ss[k].loop.builds[i].pc.BCompiling?) ==>
      Happened(ss, acts, k, (r, a) => HookSucceeds(r, a, i))
    ensures c.hasPre && Passes(ss[k], acts[k], i) ==> Happened(ss, acts, k, (r, a) => HookSucceeds(r, a, i))
    ensures c.hasBuild && Passes(ss[k], acts[k], i) ==> Happened(ss, acts, k, (r, a) => BuildSucceeds(r, a, i))
    ensures forall g :: ServerComesUp(ss[k], acts[k], i, g) ==> Happened(ss, acts, k, (r, a) => Passes(r, a, i))
  {
    hide Happened, HookSucceeds, BuildSucceeds, Step;
    StoryAlong(c, ss, acts, k, i);
  }

  /** When a command of a build fails, that build fails for good: from then on nothing it does commits, stops,
      starts, or touches the crash history. */
  lemma FailureIsFinal(c: Config, ss: seq<State>, acts: seq<Action>, k: nat, m: nat, i: nat)
    requires Segment(c, ss, acts) && Reachable(c, ss[0]) && k < m < |ss|
    requires CommandFails(c, ss[k], acts[k], i)
    ensures i < |ss[m].loop.builds| && ss[m].loop.builds[i].out.Failed?
    ensures m < |acts| && Moves(ss[m], acts[m], i) ==> ss[m + 1].tally == ss[m].tally && ss[m + 1].sup == ss[m].sup
  {
    hide CommandFails, Reachable, Control;
    ReachableOrderly(c, ss[0]);
    StoryAlong(c, ss, acts, m, i);
    OrderlyAlong(c, ss, acts, m);
    assert OutOf(ss[m], i).Failed?;
    if m < |acts| && Moves(ss[m], acts[m], i) {
      assert Step(c, ss[m], acts[m]) == Some(ss[m + 1]);
    }
  }

  // ---------------------------------------------------------------- a bad save never costs you your server

  lemma CancelledStays(c: Config, s: State, a: Action, s': State, i: nat)
    requires AllOrderly(c, s) && Step(c, s, a) == Some(s')
    ensures StaysCancelled(s, s', i)
  {
    hide MainStep, BuildStep, FanStep, CommandStep, ReapStep, CtxStep, Orderly, LoopInv;
    match a
    case Main(ch) => MainSpares(c, s, ch, s', i);
    case BuildGo(j, ok) => BuildMovesLast(c, s, j, ok, s');
    case FanTake | FanCancel | FanForward | FanQuit => FanSpares(c, s, a, s', i);
    case Propagate(_) | BuildRead(_) | BuildWrite(_) | BuildOrphan(_) | OrphanWrite(_) => CommandCancels(c, s, a, s', i);
    case _ => assert s'.loop == s.loop;
  }

  lemma CommandCancels(c: Config, s: State, a: Action, s': State, i: nat)
    requires CommandStep(c, s, a) == Some(s')
    ensures StaysCancelled(s, s', i)
  {}

  lemma {:induction false} CancelledAlong(c: Config, ss: seq<State>, acts: seq<Action>, j: nat, k: nat, i: nat)
    requires Segment(c, ss, acts) && AllOrderly(c, ss[0]) && j <= k < |ss| && i < |ss[j].loop.builds|
    ensures i < |ss[k].loop.builds| && (ss[j].loop.builds[i].ctxDone ==> ss[k].loop.builds[i].ctxDone)
    decreases k - j
  {
    hide Step, AllOrderly;
    if j < k {
      CancelledAlong(c, ss, acts, j, k - 1, i);
      OrderlyAlong(c, ss, acts, k - 1);
      CancelledStays(c, ss[k - 1], acts[k - 1], ss[k], i);
    }
  }

  /** Build i comes to nothing in a stretch of a run: it was over before, one of its commands fails, it is
      cancelled no later than at its check, or it has not passed the check by the end. */
  ghost predicate Thwarted(c: Config, ss: seq<State>, acts: seq<Action>, i: nat)
    requires |ss| == |acts| + 1
  {
    || !OutOf(ss[0], i).Pending?
    || (exists k :: 0 <= k < |acts| && CommandFails(c, ss[k], acts[k], i))
    || (exists k :: 0 <= k < |ss| && CancelledEarly(ss[k], i))
    || Early(PcOf(ss[|acts|], i))
  }

  predicate CancelledEarly(s: State, i: nat) { i < |s.loop.builds| && s.loop.builds[i].ctxDone && Early(s.loop.builds[i].pc) }

  /** Once past the check a build is never early again. */
  lemma PassedFrom(c: Config, ss: seq<State>, acts: seq<Action>, i: nat, m: nat, k: nat)
    requires Segment(c, ss, acts) && AllOrderly(c, ss[0]) && m < |acts| && Passes(ss[m], acts[m], i) && m < k < |ss|
    ensures !Early(PcOf(ss[k], i))
  {
    hide Step, Ended;
    StoryAlong(c, ss, acts, k, i);
    OrderlyAlong(c, ss, acts, k);
  }

  lemma PasserIsPending(c: Config, ss: seq<State>, acts: seq<Action>, i: nat, m: nat)
    requires Segment(c, ss, acts) && AllOrderly(c, ss[0]) && m < |acts| && Passes(ss[m], acts[m], i)
    ensures OutOf(ss[0], i).Pending? && OutOf(ss[m], i).Pending?
  {
    hide Step, OutOf;
    OrderlyAlong(c, ss, acts, m);
    PendingBefore(c, ss, acts, i, m);
    PendingEarly(c, ss[m], i);
  }

  lemma PendingEarly(c: Config, s: State, i: nat)
    requires AllOrderly(c, s) && Early(PcOf(s, i))
    ensures OutOf(s, i).Pending?
  {}

  /** An outcome stays. */
  lemma PendingBefore(c: Config, ss: seq<State>, acts: seq<Action>, i: nat, m: nat)
    requires Segment(c, ss, acts) && AllOrderly(c, ss[0]) && m < |ss|
    ensures OutOf(ss[m], i).Pending? ==> OutOf(ss[0], i).Pending?
  {
    hide Step, GotOn, Happened;
    StoryAlong(c, ss, acts, m, i);
    match OutOf(ss[0], i)
    case Served(g) => assert OutOf(ss[m], i) == Served(g);
    case _ =>
  }

  lemma PasserNeverFails(c: Config, ss: seq<State>, acts: seq<Action>, i: nat, m: nat, k: nat)
    requires Segment(c, ss, acts) && AllOrderly(c, ss[0]) && m < |acts| && Passes(ss[m], acts[m], i) && k < |acts|
    ensures !CommandFails(c, ss[k], acts[k], i)
  {
    hide Step, GotOn, AllOrderly;
    if k < m {
      PasserIsPending(c, ss, acts, i, m);
      StoryAlong(c, ss, acts, m, i);
    } else if k > m {
      PassedFrom(c, ss, acts, i, m, k);
    }
  }

  lemma PasserIsNotCancelled(c: Config, ss: seq<State>, acts: seq<Action>, i: nat, m: nat, k: nat)
    requires Segment(c, ss, acts) && AllOrderly(c, ss[0]) && m < |acts| && Passes(ss[m], acts[m], i) && k < |ss|
    ensures !CancelledEarly(ss[k], i)
  {
    hide Step, AllOrderly;
    if k > m {
      PassedFrom(c, ss, acts, i, m, k);
    } else if CancelledEarly(ss[k], i) {
      CancelledAlong(c, ss, acts, k, m, i);
    }
  }

  lemma ThwartedNeverPasses(c: Config, ss: seq<State>, acts: seq<Action>, i: nat, m: nat)
    requires Segment(c, ss, acts) && AllOrderly(c, ss[0]) && m < |acts| && Passes(ss[m], acts[m], i)
    ensures !Thwarted(c, ss, acts, i)
  {
    hide Step, AllOrderly, Early, CommandFails, CancelledEarly, Passes;
    PasserIsPending(c, ss, acts, i, m);
    PassedFrom(c, ss, acts, i, m, |acts|);
    forall k: nat | k < |acts|
      ensures !CommandFails(c, ss[k], acts[k], i)
    {
      PasserNeverFails(c, ss, acts, i, m, k);
    }
    forall k: nat | k < |ss|
      ensures !CancelledEarly(ss[k], i)
    {
      PasserIsNotCancelled(c, ss, acts, i, m, k);
    }
  }

  lemma {:induction false} NoPassNoCommit(c: Config, ss: seq<State>, acts: seq<Action>, k: nat)
    requires Segment(c, ss, acts) && Inv(c, ss[0]) && k < |ss|
    requires forall j, i: nat :: 0 <= j < |acts| ==> !Passes(ss[j], acts[j], i)
    ensures ss[k].tally.commits == ss[0].tally.commits
  {
    hide Step, Inv;
    if k > 0 {
      NoPassNoCommit(c, ss, acts, k - 1);
      SegmentInv(c, ss, acts, k - 1);
      CommitIsPass(c, ss[k - 1], acts[k - 1], ss[k]);
    }
  }

  lemma CommitIsPass(c: Config, s: State, a: Action, s': State)
    requires Inv(c, s) && Step(c, s, a) == Some(s')
    ensures s'.tally.commits == s.tally.commits || exists i: nat :: Passes(s, a, i)
  {
    hide Step;
    if s'.tally.commits != s.tally.commits {
      CommitStep(c, s, a, s');
      assert Passes(s, a, a.i);
    }
  }

  /** A bad save never costs you your server.  Over any stretch of a run in which every build there is fails, is
      cancelled by its check, was over before or has not passed its check yet, the root context does not end and
      the server does not exit by itself, a running server, the set of generations, the Stop count and the crash
      history stay put, however many saves arrive. */
  lemma BadSavesKeepTheServer(c: Config, ss: seq<State>, acts: seq<Action>, g: nat, k: nat)
    requires Segment(c, ss, acts) && Reachable(c, ss[0]) && Serving(ss[0], g) && k < |ss|
    requires forall j :: 0 <= j < |acts| ==> !acts[j].RootCancel? && !(acts[j].ProcExit? && acts[j].g == g)
    requires forall i: nat :: i < |ss[|acts|].loop.builds| ==> Thwarted(c, ss, acts, i)
    ensures Serving(ss[k], g) && ss[k].tally == ss[0].tally
    ensures |ss[k].sup.procs| == |ss[0].sup.procs| && g < |ss[0].sup.procs| && ss[k].sup.procs[g] == ss[0].sup.procs[g]
  {
    hide Step, Control, Thwarted, Inv, Serving, Reachable, AllOrderly;
    ReachableInv(c, ss[0]);
    ReachableOrderly(c, ss[0]);
    forall j, i: nat | 0 <= j < |acts|
      ensures !Passes(ss[j], acts[j], i)
    {
      if Passes(ss[j], acts[j], i) {
        CancelledAlong(c, ss, acts, j, |acts|, i);
        ThwartedNeverPasses(c, ss, acts, i, j);
        assert false;
      }
    }
    NoPassNoCommit(c, ss, acts, |acts|);
    NoCommitKeepsTheServer(c, ss, acts, g, k);
  }
}

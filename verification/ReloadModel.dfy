/**
 The reload engine as one labelled transition system.

 Threads: the watcher, the fan-in goroutine, the debouncer, the main select loop, one goroutine per
 build, and per server process a reaper and a context goroutine.  Every goroutine step between two
 synchronisation points is one action; `Step` says what each action does and when it is enabled, and
 the scheduler may pick any enabled action.

 The ghost side of the model is a version counter for the source tree: `Save` bumps it, a build
 records the version it read, and a server process records the version it was started from.
 */
module ReloadModel {
  import opened Optional

  // controller.go's rawEventBuffer, watcher.go's eventBuffer, crash.go's DefaultThreshold.
  const RAW_EVENT_BUFFER := 256
  const EVENT_BUFFER := 256
  const CRASH_THRESHOLD := 3

  /** Two independent hypotheses, one for each caller of killGroup: `serverKilled` says that Stop is always told
      that the server was reaped, `commandKilled` that a cancelled build command always is. */
  datatype Config = Config(hasPre: bool, hasBuild: bool, serverKilled: bool, commandKilled: bool)

  datatype Fan = FanIdle | FanGot(v: nat) | FanSending | FanStopped

  datatype Deb = DebRunning(armed: bool) | DebStopped

  /** Why stopInFlight is running: for the next build, or for shutdown. */
  datatype Purpose = Relaunch | Shutdown

  datatype MainPc =
    | MBoot
    | MSelect
    | MCancel(why: Purpose)
    | MWait(why: Purpose)
    | MPrepare
    | MPublish
    | MTriage(exit: Exit, buildActive: bool)
    | MCheck
    | MRecord
    | MBackoff
    | MSleep
    | MStart
    | MSpawn
    | MRegister(g: nat)
    | MStop
    | MStopWait(g: nat, on: Option<nat>)
    | MReturned

  datatype BuildPc =
    | BCreated
    | BEnterPre
    | BPre
    | BEnter
    | BCompiling(wrote: bool)
    | BCheck
    | BReset
    | BStop
    | BStopWait(g: nat, on: Option<nat>)
    | BStart
    | BSpawn
    | BRegister(g: nat)
    | BPost
    | BClosing
    | BDone

  datatype Outcome = Pending | Failed | Superseded | StartFailed | Served(gen: nat)

  /** One build attempt: its goroutine, its context, the tree when it was launched and the tree it read. */
  datatype Build = Build(pc: BuildPc, ctxDone: bool, base: nat, snap: Option<nat>, out: Outcome)

  datatype Exit = Exit(gen: nat, failed: bool)

  datatype Reaper =
    | NotStarted
    | Waiting
    | Recorded(intentional: bool)
    | Closed(intentional: bool)
    | Finished(intentional: bool)

  // Stop captures both the handle and the done channel.  A StopWait has signalled the process of handle `g` and
  // waits for done channel `on`, which is not that process's if a newer one has been registered meanwhile.

  datatype CtxPc = CtxNone | CtxWatching | CtxStopping | CtxStopWait(g: nat, on: Option<nat>) | CtxEnded

  /** One server process with its two goroutines.  `claimed`: some Stop has taken it;
      `claimedAtExit`: that was already so when the reaper recorded the exit. */
  datatype Proc = Proc(ver: nat, alive: bool, failed: bool, claimed: bool, claimedAtExit: bool,
                       reaper: Reaper, ctx: CtxPc)

  /** The mutex-guarded fields of process.Server, its capacity-1 Exits channel, and every process it has
      ever spawned.  `cmd` and `done` name processes by generation, that is by index in `procs`;
      `done == None` is the closed channel NewServer installs. */
  datatype Supervisor = Supervisor(cmd: Option<nat>, done: Option<nat>, stopping: bool, hasExited: bool,
                                   exits: Option<Exit>, procs: seq<Proc>)

  /** Source tree, watcher channel, fan-in goroutine and debouncer.  `notified` is the newest version the
      watcher has reported, `handled` the newest one whose cancelBuild call has returned. */
  datatype Front = Front(tree: nat, notified: nat, events: seq<nat>, eventsClosed: bool, fan: Fan, handled: nat,
                         raw: nat, deb: Deb, rebuild: bool)

  /** The main loop's program counter and the variables Run's closures share. */
  datatype Loop = Loop(main: MainPc, cancelFn: Option<nat>, inFlightDone: Option<nat>, buildWatch: Option<nat>,
                       builds: seq<Build>)

  /** Crashes recorded since the last Reset, builds past the post-compile check, Stops the controller issued. */
  datatype Tally = Tally(history: nat, commits: nat, stops: nat)

  /** The version of the on-disk binary, and of build commands that outlived a kill. */
  datatype Disk = Disk(binary: nat, orphans: seq<nat>)

  datatype State = State(front: Front, rootDone: bool, loop: Loop, tally: Tally, disk: Disk, sup: Supervisor)

  const Init := State(
    Front(0, 0, [], false, FanIdle, 0, 0, DebRunning(false), false),
    false,
    Loop(MBoot, None, None, None, []),
    Tally(0, 0, 0),
    Disk(0, []),
    Supervisor(None, None, false, false, None, []))

  /** Which ready case the main select takes; `Go(ok)` advances a step that has no case to choose,
      `ok` being the result of the call it makes. */
  datatype Choice = PickShutdown | PickBuildWatch | PickExit | PickRebuild | Go(ok: bool)

  datatype Action =
    | Save
    | Notify
    | CloseEvents
    | RootCancel
    | ProcExit(g: nat, failed: bool)
    | FanTake
    | FanCancel
    | FanForward
    | FanQuit
    | DebTake
    | DebFire
    | DebQuit
    | Main(choice: Choice)
    | Propagate(i: nat)
    | BuildRead(i: nat)
    | BuildWrite(i: nat)
    | BuildGo(i: nat, ok: bool)
    | BuildOrphan(i: nat)
    | OrphanWrite(k: nat)
    | Reap(g: nat)
    | CtxGo(g: nat, ok: bool)

  function Max(a: nat, b: nat): nat { if a < b then b else a }

  // ---------------------------------------------------------------- controller handles

  /** The done channel of build `d` is closed; `None` is controller.closedChan(). */
  predicate BuildDone(l: Loop, d: Option<nat>)
  {
    match d
    case None => true
    case Some(n) => n < |l.builds| && l.builds[n].pc.BDone?
  }

  function SetBuild(l: Loop, i: nat, b: Build): Loop
  {
    if i < |l.builds| then l.(builds := l.builds[i := b]) else l
  }

  /** Calls the published cancel function: the body of cancelBuild under its mutex. */
  function CancelInFlight(l: Loop): Loop
  {
    match l.cancelFn
    case None => l
    case Some(n) => if n < |l.builds| then SetBuild(l, n, l.builds[n].(ctxDone := true)) else l
  }

  function At(s: State, pc: MainPc): State { s.(loop := s.loop.(main := pc)) }

  function With(s: State, i: nat, b: Build): State { s.(loop := SetBuild(s.loop, i, b)) }

  // ---------------------------------------------------------------- process.Server, one lock section each

  predicate Reaped(p: Proc) { p.reaper.Closed? || p.reaper.Finished? }

  /** The done channel of generation `d` is closed. */
  predicate ProcDone(v: Supervisor, d: Option<nat>)
  {
    match d
    case None => true
    case Some(g) => g < |v.procs| && Reaped(v.procs[g])
  }

  predicate IsRunning(v: Supervisor) { !ProcDone(v, v.done) }

  function SetProc(v: Supervisor, g: nat, p: Proc): Supervisor
  {
    if g < |v.procs| then v.(procs := v.procs[g := p]) else v
  }

  /** The first lock section of Stop: take the handle and mark the exit as ours. */
  function Claim(v: Supervisor): Supervisor
  {
    match v.cmd
    case None => v
    case Some(g) =>
      if g < |v.procs| then SetProc(v, g, v.procs[g].(claimed := true)).(cmd := None, stopping := true) else v
  }

  /** The second lock section of Stop, after killGroup gave up: put the handle back. */
  function PutBack(v: Supervisor, g: nat): Supervisor
  {
    if v.cmd.None? then v.(cmd := Some(g)) else v
  }

  /** cmd.Start() inside Server.Start: the process exists, nothing is recorded yet. */
  function Spawned(v: Supervisor, ver: nat): Supervisor
  {
    v.(procs := v.procs + [Proc(ver, true, false, false, false, NotStarted, CtxNone)])
  }

  /** The lock section of Start, and the launch of its two goroutines. */
  function Registered(v: Supervisor, g: nat): Supervisor
  {
    if g < |v.procs| then
      SetProc(v, g, v.procs[g].(reaper := Waiting, ctx := CtxWatching))
      .(cmd := Some(g), done := Some(g), stopping := false, hasExited := false)
    else v
  }

  /** What a process started now serves: the on-disk binary, or the source itself when nothing is compiled. */
  function Serves(c: Config, s: State): nat { if c.hasBuild then s.disk.binary else s.front.tree }

  // ---------------------------------------------------------------- steps, thread by thread

  /** The developer, the watcher, the root context and the operating system. */
  function EnvStep(s: State, a: Action): Option<State>
  {
    match a
    case Save => Some(s.(front := s.front.(tree := s.front.tree + 1)))
    case Notify =>
      if s.front.eventsClosed || |s.front.events| >= EVENT_BUFFER then None
      else Some(s.(front := s.front.(notified := s.front.tree, events := s.front.events + [s.front.tree])))
    case CloseEvents =>
      if s.rootDone && !s.front.eventsClosed then Some(s.(front := s.front.(eventsClosed := true))) else None
    case RootCancel => if s.rootDone then None else Some(s.(rootDone := true))
    case ProcExit(g, failed) =>
      if g < |s.sup.procs| && s.sup.procs[g].alive
      then Some(s.(sup := SetProc(s.sup, g, s.sup.procs[g].(alive := false, failed := failed))))
      else None
    case _ => None
  }

  function FanStep(s: State, a: Action): Option<State>
  {
    var f := s.front;
    match a
    case FanTake =>
      if f.fan.FanIdle? && f.events != []
      then Some(s.(front := f.(fan := FanGot(f.events[0]), events := f.events[1..]))) else None
    case FanCancel =>
      if f.fan.FanGot?
      then Some(s.(loop := CancelInFlight(s.loop), front := f.(fan := FanSending, handled := Max(f.handled, f.fan.v))))
      else None
    case FanForward =>
      if f.fan.FanSending? && f.raw < RAW_EVENT_BUFFER
      then Some(s.(front := f.(fan := FanIdle, raw := f.raw + 1))) else None
    case FanQuit =>
      if (f.fan.FanSending? && s.rootDone) || (f.fan.FanIdle? && f.events == [] && f.eventsClosed)
      then Some(s.(front := f.(fan := FanStopped))) else None
    case _ => None
  }

  /** The debouncer as a pipeline stage: its timer may fire whenever it is armed. */
  function DebStep(s: State, a: Action): Option<State>
  {
    var f := s.front;
    match a
    case DebTake =>
      if f.deb.DebRunning? && f.raw > 0
      then Some(s.(front := f.(raw := f.raw - 1, deb := DebRunning(true)))) else None
    case DebFire =>
      if f.deb == DebRunning(true)
      then Some(s.(front := f.(deb := DebRunning(false), rebuild := true))) else None
    case DebQuit =>
      if f.deb.DebRunning? && s.rootDone then Some(s.(front := f.(deb := DebStopped))) else None
    case _ => None
  }

  /** The four cases of the main select. */
  function SelectStep(s: State, ch: Choice): Option<State>
  {
    match ch
    case PickShutdown => if s.rootDone then Some(At(s, MCancel(Shutdown))) else None
    case PickBuildWatch =>
      if s.loop.buildWatch.Some? && BuildDone(s.loop, s.loop.buildWatch)
      then Some(s.(loop := s.loop.(buildWatch := None))) else None
    case PickExit =>
      if s.sup.exits.Some?
      then Some(At(s, MTriage(s.sup.exits.value, s.loop.buildWatch.Some?)).(sup := s.sup.(exits := None)))
      else None
    case PickRebuild =>
      if s.front.rebuild then Some(At(s, MCancel(Relaunch)).(front := s.front.(rebuild := false))) else None
    case Go(_) => None
  }

  /** Boot, stopInFlight, the launch of a build, and the final Stop. */
  function RunStep(c: Config, s: State, ok: bool): Option<State>
  {
    var l := s.loop;
    match l.main
    case MBoot => Some(At(s, MSelect).(front := s.front.(rebuild := true)))
    case MCancel(why) => Some(s.(loop := CancelInFlight(l).(main := MWait(why))))
    case MWait(why) =>
      if BuildDone(l, l.inFlightDone) then Some(At(s, if why.Relaunch? then MPrepare else MStop)) else None
    case MPrepare =>
      var d := Some(|l.builds|);
      var b := Build(BCreated, s.rootDone, s.front.tree, None, Pending);
      Some(s.(loop := l.(builds := l.builds + [b], inFlightDone := d, buildWatch := d, main := MPublish)))
    case MPublish =>
      if l.builds == [] then None else
      var n := |l.builds| - 1;
      var b := l.builds[n].(pc := BEnterPre, base := s.front.tree);
      Some(s.(loop := SetBuild(l, n, b).(cancelFn := Some(n), main := MSelect)))
    case MStop =>
      Some(At(s, if s.sup.cmd.Some? then MStopWait(s.sup.cmd.value, s.sup.done) else MReturned)
           .(sup := Claim(s.sup), tally := s.tally.(stops := s.tally.stops + 1)))
    case MStopWait(g, on) =>
      if ok then (if ProcDone(s.sup, on) then Some(At(s, MReturned)) else None)
      else if !c.serverKilled then Some(At(s, MReturned).(sup := PutBack(s.sup, g))) else None
    case _ => None
  }

  /** Steps of handleUnexpectedExit. */
  function CrashStep(c: Config, s: State, ok: bool): Option<State>
  {
    match s.loop.main
    case MTriage(e, active) => Some(At(s, if !e.failed || active then MSelect else MCheck))
    case MCheck => Some(At(s, if IsRunning(s.sup) then MSelect else MRecord))
    case MRecord => Some(At(s, MBackoff).(tally := s.tally.(history := s.tally.history + 1)))
    case MBackoff =>
      if !ok then Some(At(s, MStart))
      else if s.tally.history >= CRASH_THRESHOLD then Some(At(s, MSleep))
      else None
    case MSleep => if ok then Some(At(s, MStart)) else if s.rootDone then Some(At(s, MSelect)) else None
    case MStart => Some(At(s, if s.rootDone || !ok then MSelect else MSpawn))
    case MSpawn =>
      Some(if ok then At(s, MRegister(|s.sup.procs|)).(sup := Spawned(s.sup, Serves(c, s))) else At(s, MSelect))
    case MRegister(g) => Some(At(s, MSelect).(sup := Registered(s.sup, g)))
    case _ => None
  }

  predicate HandlingCrash(pc: MainPc)
  {
    pc.MTriage? || pc.MCheck? || pc.MRecord? || pc.MBackoff? || pc.MSleep? || pc.MStart? || pc.MSpawn? || pc.MRegister?
  }

  function MainStep(c: Config, s: State, ch: Choice): Option<State>
  {
    if s.loop.main.MSelect? then SelectStep(s, ch)
    else if !ch.Go? then None
    else if HandlingCrash(s.loop.main) then CrashStep(c, s, ch.ok)
    else RunStep(c, s, ch.ok)
  }

  /** buildAndRestart up to and including the check that decides whether this build is stale. */
  function CompileStep(c: Config, s: State, i: nat, ok: bool): Option<State>
    requires i < |s.loop.builds|
  {
    var b := s.loop.builds[i];
    match b.pc
    case BEnterPre =>
      Some(With(s, i, if !c.hasPre then b.(pc := BEnter)
                      else if b.ctxDone || !ok then b.(pc := BClosing, out := Failed)
                      else b.(pc := BPre)))
    case BPre => Some(With(s, i, if ok then b.(pc := BEnter) else b.(pc := BClosing, out := Failed)))
    case BEnter =>
      Some(With(s, i, if !c.hasBuild then b.(pc := BCheck)
                      else if b.ctxDone || !ok then b.(pc := BClosing, out := Failed)
                      else b.(pc := BCompiling(false))))
    case BCompiling(wrote) =>
      if !ok then Some(With(s, i, b.(pc := BClosing, out := Failed)))
      else if wrote then Some(With(s, i, b.(pc := BCheck)))
      else None
    case BCheck =>
      Some(if b.ctxDone then With(s, i, b.(pc := BClosing, out := Superseded))
           else With(s, i, b.(pc := BReset)).(tally := s.tally.(commits := s.tally.commits + 1)))
    case _ => None
  }

  /** buildAndRestart after the check: Reset, Stop, Start, post hook, close(done). */
  function SwapStep(c: Config, s: State, i: nat, ok: bool): Option<State>
    requires i < |s.loop.builds|
  {
    var b := s.loop.builds[i];
    match b.pc
    case BReset => Some(With(s, i, b.(pc := BStop)).(tally := s.tally.(history := 0)))
    case BStop =>
      Some(With(s, i, b.(pc := if s.sup.cmd.Some? then BStopWait(s.sup.cmd.value, s.sup.done) else BStart))
           .(sup := Claim(s.sup), tally := s.tally.(stops := s.tally.stops + 1)))
    case BStopWait(g, on) =>
      if ok then (if ProcDone(s.sup, on) then Some(With(s, i, b.(pc := BStart))) else None)
      else if !c.serverKilled then Some(With(s, i, b.(pc := BStart)).(sup := PutBack(s.sup, g))) else None
    case BStart =>
      Some(With(s, i, if s.rootDone || !ok then b.(pc := BClosing, out := StartFailed) else b.(pc := BSpawn)))
    case BSpawn =>
      Some(if ok then With(s, i, b.(pc := BRegister(|s.sup.procs|))).(sup := Spawned(s.sup, Serves(c, s)))
           else With(s, i, b.(pc := BClosing, out := StartFailed)))
    case BRegister(g) => Some(With(s, i, b.(pc := BPost, out := Served(g))).(sup := Registered(s.sup, g)))
    case BPost => Some(With(s, i, b.(pc := BClosing)))
    case BClosing => Some(With(s, i, b.(pc := BDone)))
    case _ => None
  }

  predicate Compiling(pc: BuildPc)
  {
    pc.BEnterPre? || pc.BPre? || pc.BEnter? || pc.BCompiling? || pc.BCheck?
  }

  function BuildStep(c: Config, s: State, i: nat, ok: bool): Option<State>
  {
    if i >= |s.loop.builds| then None
    else if Compiling(s.loop.builds[i].pc) then CompileStep(c, s, i, ok)
    else SwapStep(c, s, i, ok)
  }

  /** What the build command and its context do on their own: the root cancellation reaches the context,
      the command reads the tree once and writes the binary, and — only when a kill is not confirmed —
      a command that has read the tree outlives its goroutine and writes the binary later. */
  function CommandStep(c: Config, s: State, a: Action): Option<State>
  {
    var bs := s.loop.builds;
    match a
    case Propagate(i) =>
      if i < |bs| && s.rootDone && !bs[i].ctxDone then Some(With(s, i, bs[i].(ctxDone := true))) else None
    case BuildRead(i) =>
      if i < |bs| && (bs[i].pc.BPre? || bs[i].pc.BCompiling?) && bs[i].snap.None?
      then Some(With(s, i, bs[i].(snap := Some(s.front.tree)))) else None
    case BuildWrite(i) =>
      if i < |bs| && bs[i].pc == BCompiling(false) && bs[i].snap.Some?
      then Some(With(s, i, bs[i].(pc := BCompiling(true))).(disk := s.disk.(binary := bs[i].snap.value))) else None
    case BuildOrphan(i) =>
      if i < |bs| && bs[i].pc.BCompiling? && bs[i].snap.Some? && bs[i].ctxDone && !c.commandKilled
      then Some(With(s, i, bs[i].(pc := BClosing, out := Failed))
                .(disk := s.disk.(orphans := s.disk.orphans + [bs[i].snap.value]))) else None
    case OrphanWrite(k) =>
      if k < |s.disk.orphans|
      then Some(s.(disk := Disk(s.disk.orphans[k], s.disk.orphans[..k] + s.disk.orphans[k + 1..]))) else None
    case _ => None
  }

  /** Steps of Server.reap for generation g. */
  function ReapStep(v: Supervisor, g: nat): Option<Supervisor>
  {
    if g >= |v.procs| then None else
    var p := v.procs[g];
    match p.reaper
    case NotStarted => None
    case Waiting =>
      if p.alive then None
      else Some(SetProc(v, g, p.(reaper := Recorded(v.stopping), claimedAtExit := p.claimed)).(hasExited := true))
    case Recorded(i) => Some(SetProc(v, g, p.(reaper := Closed(i))))
    case Closed(i) =>
      Some(SetProc(v, g, p.(reaper := Finished(i)))
           .(exits := if i || v.exits.Some? then v.exits else Some(Exit(g, p.failed))))
    case Finished(_) => None
  }

  /** Steps of the goroutine Start launches to honour its context. */
  function CtxStep(c: Config, rootDone: bool, v: Supervisor, g: nat, ok: bool): Option<Supervisor>
  {
    if g >= |v.procs| then None else
    match v.procs[g].ctx
    case CtxNone => None
    case CtxWatching =>
      if ok then (if rootDone then Some(SetProc(v, g, v.procs[g].(ctx := CtxStopping))) else None)
      else if Reaped(v.procs[g]) then Some(SetProc(v, g, v.procs[g].(ctx := CtxEnded))) else None
    case CtxStopping =>
      var w := Claim(v);
      if g >= |w.procs| then None
      else Some(SetProc(w, g, w.procs[g].(ctx := if v.cmd.Some? then CtxStopWait(v.cmd.value, v.done) else CtxEnded)))
    case CtxStopWait(h, on) =>
      var w := SetProc(v, g, v.procs[g].(ctx := CtxEnded));
      if ok then (if ProcDone(v, on) then Some(w) else None)
      else if !c.serverKilled then Some(PutBack(w, h)) else None
    case CtxEnded => None
  }

  function WithSup(s: State, v: Option<Supervisor>): Option<State>
  {
    if v.None? then None else Some(s.(sup := v.value))
  }

  /** The whole system: `None` when the action is not enabled. */
  function Step(c: Config, s: State, a: Action): Option<State>
  {
    match a
    case Save | Notify | CloseEvents | RootCancel | ProcExit(_, _) => EnvStep(s, a)
    case FanTake | FanCancel | FanForward | FanQuit => FanStep(s, a)
    case DebTake | DebFire | DebQuit => DebStep(s, a)
    case Main(ch) => MainStep(c, s, ch)
    case Propagate(_) | BuildRead(_) | BuildWrite(_) | BuildOrphan(_) | OrphanWrite(_) => CommandStep(c, s, a)
    case BuildGo(i, ok) => BuildStep(c, s, i, ok)
    case Reap(g) => WithSup(s, ReapStep(s.sup, g))
    case CtxGo(g, ok) => WithSup(s, CtxStep(c, s.rootDone, s.sup, g, ok))
  }

  // ---------------------------------------------------------------- runs

  /** `ss` is the sequence of states visited from `ss[0]` by the actions `acts`. */
  ghost predicate Segment(c: Config, ss: seq<State>, acts: seq<Action>)
  {
    |ss| == |acts| + 1 &&
    forall k :: 0 <= k < |acts| ==> Step(c, ss[k], acts[k]) == Some(ss[k + 1])
  }

  ghost predicate Run(c: Config, ss: seq<State>, acts: seq<Action>)
  {
    Segment(c, ss, acts) && ss[0] == Init
  }

  ghost predicate Reachable(c: Config, s: State)
  {
    exists ss, acts :: Run(c, ss, acts) && ss[|ss| - 1] == s
  }
}

/**
 process.Server as the object it is: mutex-guarded fields that Start, Stop and the reaper update in place.

 Each method that stands for one lock section is proved equal to the function of the same step in the
 transition system, so what holds over every run of that system is a statement about these methods.
 */
module ServerProcess {
  import opened Optional
  import opened ReloadModel
  import opened ReloadServer

  datatype ExitInfo = ExitInfo(gen: nat, uptime: int, failed: bool, intentional: bool)

  /** A done channel: it carries nothing and is closed once. */
  class Done {
    var closed: bool

    constructor (closed: bool)
      ensures this.closed == closed
    {
      this.closed := closed;
    }
  }

  /** The record is of an exit that the process's own reaper has recorded, and says the same. */
  ghost predicate OnRecord(v: Supervisor, info: ExitInfo)
  {
    && info.gen < |v.procs| && v.procs[info.gen].failed == info.failed
    && Registered?(v.procs[info.gen]) && !v.procs[info.gen].reaper.Waiting?
    && v.procs[info.gen].reaper.intentional == info.intentional
  }

  class Server {
    var cmd: Option<nat>
    var done: Done
    var startedAt: int
    var exitedAt: Option<int>
    var stopping: bool
    var lastExit: ExitInfo
    var hasExited: bool
    var exits: Option<ExitInfo>

    // The supervisor state of the transition system that this object implements.
    ghost var model: Supervisor

    ghost predicate Valid()
      reads this, done
    {
      && cmd == model.cmd && stopping == model.stopping && hasExited == model.hasExited
      && done.closed == ProcDone(model, model.done)
      && (model.cmd.Some? ==> model.cmd.value < |model.procs|)
      && (model.done.Some? ==> model.done.value < |model.procs|)
      && model.exits == (if exits.None? then None else Some(Exit(exits.value.gen, exits.value.failed)))
      && (exits.Some? ==> !exits.value.intentional)
      && (exitedAt.Some? <==> hasExited)
      && (hasExited ==> OnRecord(model, lastExit))
      && (hasExited && model.done == Some(lastExit.gen) ==> exitedAt.value - startedAt == lastExit.uptime)
    }

    constructor ()
      ensures Valid() && fresh(done) && model == Init.sup && done.closed
    {
      cmd, startedAt, exitedAt, stopping, hasExited, exits := None, 0, None, false, false, None;
      lastExit := ExitInfo(0, 0, false, false);
      done := new Done(true);
      model := Init.sup;
    }

    // -------------------------------------------------------------- lock sections

    /** cmd.Start(): a process appears that no field mentions yet. */
    ghost method Spawn(ver: nat)
      requires Valid()
      modifies this`model
      ensures Valid() && model == Spawned(old(model), ver)
    {
      model := Spawned(model, ver);
    }

    method Register(g: nat, ch: Done, now: int)
      requires Valid() && g < |model.procs| && model.procs[g].reaper.NotStarted? && !ch.closed
      modifies this
      ensures Valid() && model == Registered(old(model), g)
      ensures cmd == Some(g) && done == ch && startedAt == now && exitedAt.None? && !stopping && !hasExited
      ensures exits == old(exits)
    {
      cmd, done, startedAt, exitedAt, stopping, hasExited := Some(g), ch, now, None, false, false;
      model := Registered(model, g);
    }

    /** Stop's first lock section: it captures the handle and the done channel together. */
    method TakeHandle() returns (taken: Option<nat>, ch: Done)
      requires Valid()
      modifies this`cmd, this`stopping, this`model
      ensures Valid() && model == Claim(old(model))
      ensures taken == old(cmd) && ch == done && cmd.None? && stopping == (old(cmd).Some? || old(stopping))
    {
      taken, ch := cmd, done;
      if cmd.Some? {
        stopping := true;
        cmd := None;
      }
      model := Claim(model);
    }

    method PutHandleBack(g: nat)
      requires Valid() && g < |model.procs|
      modifies this`cmd, this`model
      ensures Valid() && model == PutBack(old(model), g)
      ensures cmd == if old(cmd).Some? then old(cmd) else Some(g)
    {
      if cmd.None? {
        cmd := Some(g);
      }
      model := PutBack(model, g);
    }

    /** The operating system ends the process. */
    ghost method Die(g: nat, failed: bool)
      requires Valid() && g < |model.procs|
      requires model.procs[g].reaper.NotStarted? || model.procs[g].reaper.Waiting?
      modifies this`model
      ensures Valid() && model == SetProc(old(model), g, old(model).procs[g].(alive := false, failed := failed))
    {
      model := SetProc(model, g, model.procs[g].(alive := false, failed := failed));
    }

    method RecordExit(g: nat, started: int, now: int, failed: bool) returns (info: ExitInfo)
      requires Valid() && g < |model.procs| && model.procs[g].reaper.Waiting? && !model.procs[g].alive
      requires model.procs[g].failed == failed && (model.done == Some(g) ==> started == startedAt)
      modifies this`exitedAt, this`hasExited, this`lastExit, this`model
      ensures Valid() && Some(model) == ReapStep(old(model), g)
      ensures info == ExitInfo(g, now - started, failed, old(stopping)) && lastExit == info && exitedAt == Some(now)
    {
      exitedAt, hasExited := Some(now), true;
      info := ExitInfo(g, now - started, failed, stopping);
      lastExit := info;
      model := ReapStep(model, g).value;
    }

    method CloseDone(g: nat, ch: Done)
      requires Valid() && g < |model.procs| && model.procs[g].reaper.Recorded?
      requires ch == done <==> model.done == Some(g)
      modifies this`model, ch
      ensures Valid() && Some(model) == ReapStep(old(model), g)
      ensures ch.closed
    {
      ch.closed := true;
      model := ReapStep(model, g).value;
    }

    /** The non-blocking send on Exits. */
    method Publish(info: ExitInfo)
      requires Valid() && info.gen < |model.procs| && model.procs[info.gen].reaper == Closed(info.intentional)
      requires model.procs[info.gen].failed == info.failed
      modifies this`exits, this`model
      ensures Valid() && Some(model) == ReapStep(old(model), info.gen)
      ensures exits == if !info.intentional && old(exits).None? then Some(info) else old(exits)
    {
      if !info.intentional && exits.None? {
        exits := Some(info);
      }
      model := ReapStep(model, info.gen).value;
    }

    // -------------------------------------------------------------- queries

    method IsRunning() returns (running: bool)
      requires Valid()
      ensures running == ReloadModel.IsRunning(model)
    {
      running := !done.closed;
    }

    /** The last exit recorded since Start, as that process's own reaper recorded it. */
    method LastExit() returns (info: ExitInfo, ok: bool)
      requires Valid()
      ensures ok <==> model.hasExited
      ensures ok ==> OnRecord(model, info) && info == lastExit
    {
      info, ok := lastExit, hasExited;
    }

    /** There is an uptime exactly once an exit has been recorded since the last Start, and if that was the
        registered generation's own exit it is the uptime in the exit record. */
    method UptimeAtExit() returns (uptime: int, ok: bool)
      requires Valid()
      ensures ok <==> model.hasExited
      ensures ok ==> exitedAt.Some? && uptime == exitedAt.value - startedAt
      ensures ok && model.done == Some(lastExit.gen) ==> uptime == lastExit.uptime
      ensures !ok ==> uptime == 0
    {
      if exitedAt.None? {
        return 0, false;
      }
      return exitedAt.value - startedAt, true;
    }

    // -------------------------------------------------------------- whole calls, nobody else acting

    /** A process that has been registered, and whose reaper is waiting for it. */
    ghost predicate Up(g: nat)
      reads this
    {
      model.done == Some(g) && g < |model.procs| && model.procs[g].reaper.Waiting? && model.procs[g].ctx.CtxWatching?
    }

    /** Start: refuses an empty command and an ended context, and otherwise installs a new generation. */
    method Start(execEmpty: bool, ctxEnded: bool, spawns: bool, ghost ver: nat, ghost g: nat, gen: nat, now: int) returns (ok: bool)
      requires Valid() && gen == g == |model.procs|
      modifies this
      ensures Valid() && ok == (!execEmpty && !ctxEnded && spawns)
      ensures !ok ==> model == old(model) && done == old(done) && cmd == old(cmd)
      ensures ok ==> model == Registered(Spawned(old(model), ver), g) && Up(g) && fresh(done) && cmd == Some(gen)
      ensures exits == old(exits)
    {
      if execEmpty || ctxEnded || !spawns {
        return false;
      }
      Spawn(ver);
      var ch := new Done(false);
      Register(gen, ch, now);
      return true;
    }

    /** The reaper from Wait returning to the end: record, close, publish. */
    method Reap(g: nat, failed: bool, now: int)
      requires Valid() && Up(g)
      modifies this, done
      ensures Valid() && done == old(done) && done.closed && hasExited && cmd == old(cmd)
      ensures lastExit == ExitInfo(g, now - old(startedAt), failed, old(stopping))
      ensures exits == if !old(stopping) && old(exits).None? then Some(lastExit) else old(exits)
      ensures |model.procs| == |old(model).procs| && model.done == Some(g) && model.cmd == old(model).cmd
      ensures model.procs[g].reaper == Finished(old(stopping))
    {
      hide OnRecord, Claim, PutBack, Spawned;
      Die(g, failed);
      var info := RecordExit(g, startedAt, now, failed);
      CloseAndPublish(info);
    }

    /** The rest of the reaper, once the exit is recorded. */
    method CloseAndPublish(info: ExitInfo)
      requires Valid() && model.done == Some(info.gen) && model.procs[info.gen].reaper == Recorded(info.intentional)
      requires model.procs[info.gen].failed == info.failed
      modifies this`exits, this`model, done
      ensures Valid() && done.closed
      ensures exits == if !info.intentional && old(exits).None? then Some(info) else old(exits)
      ensures |model.procs| == |old(model).procs| && model.done == old(model).done && model.cmd == old(model).cmd
      ensures model.procs[info.gen].reaper == Finished(info.intentional)
    {
      hide OnRecord;
      CloseDone(info.gen, done);
      Publish(info);
    }

    /** Stop with nobody else acting, `current` being the registered generation: it waits for that one's channel,
        whichever process its handle signals.  Closed in time, this leaves an intentional exit that is not
        published; else the handle is put back and the server left running. */
    method Stop(confirmed: bool, failed: bool, now: int, current: nat)
      requires Valid()
      requires cmd.Some? ==> Up(current) || done.closed
      modifies this, done
      ensures Valid() && done == old(done) && exits == old(exits)
      ensures old(cmd).None? ==> cmd.None? && model == old(model)
      ensures old(cmd).Some? && (confirmed || old(done.closed)) ==> cmd.None? && done.closed
      ensures old(cmd).Some? && confirmed && !old(done.closed) ==> hasExited && lastExit.intentional && lastExit.gen == current
      ensures old(cmd).Some? && !confirmed && !old(done.closed) ==> cmd == old(cmd) && !done.closed
      ensures |model.procs| == |old(model).procs|
    {
      var taken, ch := TakeHandle();
      if taken.None? {
        return;
      }
      if ch.closed {
        return;
      }
      if confirmed {
        Reap(current, failed, now);
      } else {
        PutHandleBack(taken.value);
      }
    }
  }
}

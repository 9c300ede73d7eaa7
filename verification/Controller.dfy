/**
 The controller's two sequential procedures as methods over the real detector and server objects:
 buildAndRestart and handleUnexpectedExit, each as if nobody else acted in between.  That neither runs into the
 other is a theorem of the transition system; what reapers and context goroutines do meanwhile is its subject.
 */
module Controller {
  import opened Optional
  import opened ReloadModel
  import opened CrashDetector
  import opened RestartRate
  import opened ServerProcess

  datatype Result = LeftAlone | NotRestarted | Restarted

  /** The visits so far are paced, and the main loop was not free before the last one allowed. */
  ghost predicate OnPace(log: seq<Visit>, freeAt: int, window: int, threshold: int, backoff: int)
  {
    && Paced(log, window, threshold, backoff)
    && (log != [] ==> ReadyAt(log, |log| - 1, window, threshold, backoff) <= freeAt)
  }

  /** How long the detector makes the main loop wait after a crash at `at`, asked at `asked`. */
  function DelayAfter(log: seq<Visit>, at: int, asked: int, window: int, threshold: int, backoff: int): int
  {
    if |After(Times(log) + [at], asked - window)| >= threshold then backoff else 0
  }

  /** A crash recorded once the main loop is free, and the delay the detector then asks for, keep the pace. */
  lemma DelayKeepsPace(log: seq<Visit>, freeAt: int, v: Visit, delay: int, window: int, threshold: int, backoff: int)
    requires freeAt <= v.at <= v.asked
    requires delay == DelayAfter(log, v.at, v.asked, window, threshold, backoff)
    ensures Times(log + [v]) == Times(log) + [v.at]
    ensures OnPace(log, freeAt, window, threshold, backoff)
      ==> OnPace(log + [v], v.asked + delay, window, threshold, backoff)
  {
    PacedExtend(log, v, window, threshold, backoff);
  }

  class Controller {
    const detector: Detector
    const server: Server

    // Crashes recorded since the last Reset, the clock reading when the main loop was last free, whether a
    // back-off was cut short by the end of the root context, and how many crashes were recorded by then.
    ghost var log: seq<Visit>
    ghost var freeAt: int
    ghost var ended: bool
    ghost var paced: nat

    ghost predicate Valid()
      reads this, detector, detector.data, server, server.done
    {
      && detector.Valid() && server.Valid()
      && History(detector.calls) == Times(log)
      && detector.clock <= freeAt
      && paced <= |log| && Paced(log[..paced], detector.window, detector.threshold, detector.backoff)
      && (!ended ==> paced == |log| && OnPace(log, freeAt, detector.window, detector.threshold, detector.backoff))
    }

    constructor (detector: Detector, server: Server, ghost now: int)
      requires detector.Valid() && server.Valid() && detector.calls == [] && detector.clock <= now
      ensures Valid() && this.detector == detector && this.server == server && log == [] && !ended
    {
      this.detector, this.server := detector, server;
      log, freeAt, ended, paced := [], now, false, 0;
    }

    /** The restart rate over every history of calls that ends in a valid controller: all crashes since the last
        Reset, or those up to the one whose back-off the end of the root context cut short. */
    lemma RateBound(x: int)
      requires Valid() && detector.backoff > 0
      ensures CountIn(History(detector.calls)[..paced], x, x + detector.window) <= Bound(detector.window, detector.threshold, detector.backoff)
      ensures !ended ==> paced == |History(detector.calls)|
    {
      assert Times(log)[..paced] == Times(log[..paced]);
      RestartRateBound(log[..paced], detector.window, detector.threshold, detector.backoff, x);
    }

    /** Record, the logged Count, and Backoff, with the clock readings they take. */
    method AskDetector(at: int, prune: int, counted: int, asked: int) returns (delay: int)
      requires detector.Valid() && detector.clock <= at <= prune <= counted <= asked
      modifies detector, detector.data
      ensures detector.Valid() && (detector.data == old(detector.data) || fresh(detector.data)) && detector.clock == asked
      ensures History(detector.calls) == History(old(detector.calls)) + [at]
      ensures delay ==
        if |After(History(detector.calls), asked - detector.window)| >= detector.threshold then detector.backoff else 0
    {
      hide After, History, Stored, Monotone;
      HistoryOfCrash(detector.calls, at, prune, counted, asked);
      detector.Record(at, prune);
      var n := detector.Count(counted);
      delay := detector.Backoff(asked);
    }

    /** Records a crash; the main loop will not be free before the delay is over. */
    method RecordCrash(at: int, prune: int, counted: int, asked: int) returns (delay: int)
      requires Valid() && freeAt <= at <= prune <= counted <= asked
      modifies this`log, this`freeAt, this`paced, detector, detector.data
      ensures paced == if ended then old(paced) else |log|
      ensures Valid() && (detector.data == old(detector.data) || fresh(detector.data))
      ensures log == old(log) + [Visit(at, asked)] && freeAt == asked + delay && detector.clock == asked && delay >= 0
      ensures delay == DelayAfter(old(log), at, asked, detector.window, detector.threshold, detector.backoff)
    {
      hide After, Times;
      delay := AskDetector(at, prune, counted, asked);
      DelayKeepsPace(log, freeAt, Visit(at, asked), delay, detector.window, detector.threshold, detector.backoff);
      if ended {
        assert (log + [Visit(at, asked)])[..paced] == log[..paced];
      } else {
        paced := |log| + 1;
        assert (log + [Visit(at, asked)])[..paced] == log + [Visit(at, asked)];
      }
      log := log + [Visit(at, asked)];
      freeAt := asked + delay;
    }

    /** Sleeps through the back-off and starts the server again. */
    method SleepAndStart(delay: int, asked: int, slack: nat, cut: bool, ctxEnded: bool, starts: bool, ghost ver: nat, gen: nat)
      returns (r: Result)
      requires Valid() && gen == |server.model.procs| && freeAt == asked + delay && detector.clock == asked && delay >= 0
      modifies this`freeAt, this`ended, server
      ensures Valid() && !r.LeftAlone?
      ensures r.NotRestarted? ==> server.model == old(server.model)
      ensures r.Restarted? ==> server.model == Registered(Spawned(old(server.model), ver), gen)
      ensures r.Restarted? <==> !(delay > 0 && cut) && !ctxEnded && starts
      ensures ended ==> old(ended) || cut
    {
      if delay > 0 && cut {
        freeAt, ended := asked, true;
        return NotRestarted;
      }
      var now := asked + delay + slack;
      freeAt := now;
      var ok := server.Start(false, ctxEnded, starts, ver, gen, gen, now);
      return if ok then Restarted else NotRestarted;
    }

    /** handleUnexpectedExit.  `slack` is how late the back-off timer is noticed; `cut` says the root
        context ended first; `starts` is whether the process could be spawned. */
    method HandleUnexpectedExit(info: ExitInfo, buildActive: bool, at: int, prune: int, counted: int, asked: int,
                                slack: nat, cut: bool, ctxEnded: bool, starts: bool, ghost ver: nat, gen: nat) returns (r: Result)
      requires Valid() && freeAt <= at <= prune <= counted <= asked && gen == |server.model.procs|
      modifies this, detector, detector.data, server
      ensures Valid() && (detector.data == old(detector.data) || fresh(detector.data))
      ensures !info.failed || buildActive || old(IsRunning(server.model)) ==> r.LeftAlone?
      ensures r.LeftAlone? ==> log == old(log) && detector.calls == old(detector.calls) && server.model == old(server.model)
      ensures paced == if r.LeftAlone? || old(ended) then old(paced) else |log|
      ensures !r.LeftAlone? ==>
        info.failed && !buildActive && !old(IsRunning(server.model)) && log == old(log) + [Visit(at, asked)]
      ensures r.NotRestarted? ==> server.model == old(server.model)
      ensures r.Restarted? ==> server.model == Registered(Spawned(old(server.model), ver), gen)
      ensures r.Restarted? <==>
        && info.failed && !buildActive && !old(IsRunning(server.model)) && !ctxEnded && starts
        && !(cut && DelayAfter(old(log), at, asked, detector.window, detector.threshold, detector.backoff) > 0)
      ensures ended ==> old(ended) || cut
    {
      if !info.failed {
        return LeftAlone;
      }
      if buildActive {
        return LeftAlone;
      }
      var running := server.IsRunning();
      if running {
        return LeftAlone;
      }
      var delay := RecordCrash(at, prune, counted, asked);
      r := SleepAndStart(delay, asked, slack, cut, ctxEnded, starts, ver, gen);
    }

    /** buildAndRestart.  `pre` and `built` are the results of the pre hook and the build command, `stale`
        what the post-compile check finds, `confirmed` whether the kill of the old server, generation `current`, is. */
    method BuildAndRestart(pre: bool, built: bool, stale: bool, confirmed: bool, ctxEnded: bool, starts: bool,
                           now: int, ghost ver: nat, current: nat, gen: nat) returns (r: Result)
      requires Valid() && freeAt <= now && gen == |server.model.procs|
      requires server.cmd.Some? ==> server.Up(current) || server.done.closed
      modifies this, detector, detector.data, server, server.done
      ensures Valid()
      ensures r.LeftAlone? <==> !pre || !built || stale
      ensures r.LeftAlone? ==> log == old(log) && detector.calls == old(detector.calls) && server.model == old(server.model)
      ensures !r.LeftAlone? ==> log == [] && History(detector.calls) == [] && !ended
      ensures r.Restarted? <==> pre && built && !stale && !ctxEnded && starts
      ensures r.Restarted? ==> |server.model.procs| == gen + 1 && server.Up(gen) && server.cmd == Some(gen)
      ensures r.NotRestarted? && old(server.cmd).Some? && (confirmed || old(server.done.closed)) ==> server.done.closed && server.cmd.None?
    {
      if !pre {
        return LeftAlone;
      }
      if !built {
        return LeftAlone;
      }
      if stale {
        return LeftAlone;
      }
      detector.Reset();
      log, ended, freeAt, paced := [], false, now, 0;
      server.Stop(confirmed, true, now, current);
      var ok := server.Start(false, ctxEnded, starts, ver, gen, gen, now);
      return if ok then Restarted else NotRestarted;
    }
  }
}

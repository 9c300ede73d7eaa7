/**
 What the server supervisor guarantees once every server kill is confirmed: at most one process is unreaped,
 and every reaper reads the `stopping` flag that was meant for its own process.
 */
module ReloadServer {
  import opened Optional
  import opened ReloadModel
  import opened ReloadControl
  import opened ReloadFreshness

  predicate Registered?(p: Proc) { !p.reaper.NotStarted? }

  /** Some process has been spawned whose Start has not reached its lock section. */
  predicate Opening(v: Supervisor) { |v.procs| > 0 && !Registered?(v.procs[|v.procs| - 1]) }

  ghost predicate AllReaped(v: Supervisor) { forall g :: 0 <= g < |v.procs| ==> Reaped(v.procs[g]) }

  /** Every process but the newest has been reaped. */
  ghost predicate OneUnreaped(v: Supervisor) { forall g :: 0 <= g < |v.procs| - 1 ==> Reaped(v.procs[g]) }

  /** The generation Start registered last. */
  function Current(v: Supervisor): Option<nat>
  {
    var n := |v.procs|;
    if n > 0 && !Opening(v) then Some(n - 1) else if n > 1 then Some(n - 2) else None
  }

  ghost predicate Handles(v: Supervisor)
  {
    && OneUnreaped(v)
    && v.done == Current(v)
    && (v.cmd.Some? ==> v.cmd == v.done && !v.procs[v.cmd.value].claimed)
    && (v.done.Some? ==> v.stopping == v.procs[v.done.value].claimed)
    && (v.done.Some? && !Reaped(v.procs[v.done.value]) && !v.procs[v.done.value].claimed ==> v.cmd == v.done)
  }

  /** What the reaper of one process has recorded agrees with the claims made on that process. */
  predicate Attributed(p: Proc)
  {
    && (p.reaper.NotStarted? <==> p.ctx.CtxNone?)
    && (p.reaper.NotStarted? ==> !p.claimed)
    && (p.claimedAtExit ==> p.claimed)
    && (!p.reaper.NotStarted? && !p.reaper.Waiting? ==> !p.alive && p.reaper.intentional == p.claimedAtExit)
  }

  /** A pending notice is about a process that ended unclaimed. */
  ghost predicate NoticeGenuine(v: Supervisor)
  {
    v.exits.Some? ==>
      && v.exits.value.gen < |v.procs|
      && v.procs[v.exits.value.gen].reaper == Finished(false)
      && !v.procs[v.exits.value.gen].claimedAtExit
      && v.procs[v.exits.value.gen].failed == v.exits.value.failed
  }

  ghost predicate Attribution(v: Supervisor)
  {
    (forall g :: 0 <= g < |v.procs| ==> Attributed(v.procs[g])) && NoticeGenuine(v)
  }

  /** Only after the root context ends do context goroutines reach for Stop. */
  ghost predicate CtxCalm(v: Supervisor, rootDone: bool)
  {
    rootDone || forall g :: 0 <= g < |v.procs| ==> !v.procs[g].ctx.CtxStopping? && !v.procs[g].ctx.CtxStopWait?
  }

  ghost predicate SupInv(v: Supervisor, rootDone: bool) { Handles(v) && Attribution(v) && CtxCalm(v, rootDone) }

  // ---------------------------------------------------------------- one lemma per lock section

  lemma ClaimKeeps(v: Supervisor, rootDone: bool)
    requires SupInv(v, rootDone)
    ensures SupInv(Claim(v), rootDone)
    ensures |Claim(v).procs| == |v.procs| && Claim(v).cmd.None?
    ensures forall g :: 0 <= g < |v.procs| ==>
      Claim(v).procs[g] == if Some(g) == v.cmd then v.procs[g].(claimed := true) else v.procs[g]
  {}

  lemma SpawnKeeps(v: Supervisor, rootDone: bool, ver: nat)
    requires SupInv(v, rootDone) && AllReaped(v)
    ensures SupInv(Spawned(v, ver), rootDone) && Opening(Spawned(v, ver))
  {
    assert !Opening(v);
  }

  lemma RegisterKeeps(v: Supervisor, rootDone: bool)
    requires SupInv(v, rootDone) && Opening(v)
    ensures SupInv(Registered(v, |v.procs| - 1), rootDone) && !Opening(Registered(v, |v.procs| - 1))
  {}

  /** A change to one process that respects its claim, its registration and anything already reported. */
  predicate Respects(p: Proc, q: Proc, rootDone: bool)
  {
    && q.claimed == p.claimed && Registered?(q) == Registered?(p)
    && (Reaped(p) ==> Reaped(q))
    && (p.reaper.Finished? ==> q.reaper == p.reaper && q.claimedAtExit == p.claimedAtExit && q.failed == p.failed)
    && Attributed(q)
    && (rootDone || (!q.ctx.CtxStopping? && !q.ctx.CtxStopWait?))
  }

  lemma UpdateKeeps(v: Supervisor, rootDone: bool, g: nat, q: Proc)
    requires SupInv(v, rootDone) && g < |v.procs| && Respects(v.procs[g], q, rootDone)
    ensures SupInv(SetProc(v, g, q), rootDone)
  {
    var w := SetProc(v, g, q);
    assert Opening(w) == Opening(v);
    assert AllReaped(v) ==> AllReaped(w);
  }

  lemma ExitKeeps(v: Supervisor, rootDone: bool, g: nat, failed: bool)
    requires SupInv(v, rootDone) && g < |v.procs| && v.procs[g].alive
    ensures SupInv(SetProc(v, g, v.procs[g].(alive := false, failed := failed)), rootDone)
  {
    UpdateKeeps(v, rootDone, g, v.procs[g].(alive := false, failed := failed));
  }

  /** A reaper about to record an exit reads the flag of its own process. */
  lemma ReaperReadsOwnFlag(v: Supervisor, rootDone: bool, g: nat)
    requires SupInv(v, rootDone) && g < |v.procs| && v.procs[g].reaper.Waiting?
    ensures v.done == Some(g) && v.stopping == v.procs[g].claimed
  {}

  lemma ReapKeeps(v: Supervisor, rootDone: bool, g: nat, w: Supervisor)
    requires SupInv(v, rootDone) && ReapStep(v, g) == Some(w)
    ensures SupInv(w, rootDone)
  {
    var p := v.procs[g];
    var q;
    match p.reaper {
      case Waiting =>
        ReaperReadsOwnFlag(v, rootDone, g);
        q := p.(reaper := Recorded(v.stopping), claimedAtExit := p.claimed);
      case Recorded(i) => q := p.(reaper := Closed(i));
      case Closed(i) => q := p.(reaper := Finished(i));
    }
    UpdateKeeps(v, rootDone, g, q);
  }

  lemma CtxKeeps(c: Config, v: Supervisor, rootDone: bool, g: nat, ok: bool, w: Supervisor)
    requires SupInv(v, rootDone) && c.serverKilled && CtxStep(c, rootDone, v, g, ok) == Some(w)
    ensures SupInv(w, rootDone)
  {
    if v.procs[g].ctx.CtxStopping? {
      ClaimKeeps(v, rootDone);
      var u := Claim(v);
      assert rootDone;
      UpdateKeeps(u, rootDone, g, w.procs[g]);
    } else {
      UpdateKeeps(v, rootDone, g, w.procs[g]);
    }
  }
}

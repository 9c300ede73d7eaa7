/**
 The polling watcher: a scan into a snapshot, and a tick that reports how two snapshots differ.
 */
module Poller {
  import opened Optional
  import opened Filter
  import opened SourceTree

  type Snapshot = map<Place, FileState>

  /** Files found, later ones replacing earlier ones; a file whose Info failed is left out. */
  function Put(m: Snapshot, fs: seq<Found>): Snapshot
  {
    if fs == [] then m else
    var before := Put(m, fs[..|fs| - 1]);
    var last := fs[|fs| - 1];
    if last.info.None? then before else before[last.path := last.info.value]
  }

  lemma PutAppend(m: Snapshot, fs: seq<Found>, x: Found)
    ensures Put(m, fs + [x]) == if x.info.None? then Put(m, fs) else Put(m, fs)[x.path := x.info.value]
  {
    assert (fs + [x])[..|fs|] == fs;
  }

  lemma {:induction false} PutConcat(m: Snapshot, xs: seq<Found>, ys: seq<Found>)
    ensures Put(m, xs + ys) == Put(Put(m, xs), ys)
  {
    if ys == [] {
      assert xs + ys == xs;
    } else {
      var n := |ys| - 1;
      PutConcat(m, xs, ys[..n]);
      PutAppend(m, xs + ys[..n], ys[n]);
      assert xs + ys == xs + ys[..n] + [ys[n]];
    }
  }

  lemma {:induction false} PutKeys(fs: seq<Found>, p: Place)
    ensures p in Put(map[], fs) <==> exists i :: 0 <= i < |fs| && fs[i].path == p && fs[i].info.Some?
  {
    if fs != [] {
      PutKeys(fs[..|fs| - 1], p);
      var n := |fs| - 1;
      if p in Put(map[], fs) {
        if fs[n].path == p && fs[n].info.Some? {
        } else {
          var i :| 0 <= i < n && fs[..n][i].path == p && fs[..n][i].info.Some?;
          assert fs[i].path == p;
        }
      }
      forall i | 0 <= i < |fs| && fs[i].path == p && fs[i].info.Some?
        ensures p in Put(map[], fs)
      {
        assert i < n ==> fs[..n][i].path == p;
      }
    }
  }

  lemma {:induction false} PutValue(fs: seq<Found>, p: Place)
    requires p in Put(map[], fs)
    ensures Found(p, Some(Put(map[], fs)[p])) in fs
  {
    var n := |fs| - 1;
    if !(fs[n].path == p && fs[n].info.Some?) {
      PutValue(fs[..n], p);
      assert Found(p, Some(Put(map[], fs)[p])) in fs[..n];
    }
  }

  /** What a scan of the watched tree returns. */
  function Scanned(f: Filter, root: Place, children: seq<Node>): Snapshot
  {
    Put(map[], PrunedAll(f, root, [], children))
  }

  /** A snapshot holds exactly the accepted files of the whole tree that could be looked at, each with a
      fingerprint it had. */
  lemma SnapshotIsFilteredTree(f: Filter, root: Place, children: seq<Node>, p: Place)
    requires Scoped(f, root) && AllWellNamed(children)
    ensures p in Scanned(f, root, children) <==>
      (exists x :: x in Kept(f, root, FullAll([], children)) && x.path == p && x.info.Some?)
    ensures p in Scanned(f, root, children) ==>
      Found(p, Some(Scanned(f, root, children)[p])) in Kept(f, root, FullAll([], children))
  {
    PrunedAllIsFiltered(f, root, [], children);
    var fs := PrunedAll(f, root, [], children);
    PutKeys(fs, p);
    if p in Put(map[], fs) {
      PutValue(fs, p);
    }
  }

  // ---------------------------------------------------------------- the scan

  /** The variables the walk callback of scan captures. */
  class Scan {
    const filter: Filter
    const root: Place
    var files: Snapshot
    var dirs: nat

    constructor (filter: Filter, root: Place)
      ensures this.filter == filter && this.root == root && files == map[] && dirs == 0
    {
      this.filter, this.root, files, dirs := filter, root, map[], 0;
    }

    method Visit(at: Place, n: Node)
      modifies this
      ensures files == Put(old(files), Pruned(filter, root, at, n))
      ensures dirs == old(dirs) + |Entered(filter, root, at, n)|
      decreases n, 1
    {
      match n
      case Dir(name, children) =>
        var ignore := ShouldIgnoreDir(filter, Path(true, root + (at + [name])));
        if ignore {
          return;
        }
        dirs := dirs + 1;
        VisitAll(at + [name], children);
      case File(name, info) =>
        var ignore := ShouldIgnoreFile(filter, Path(true, root + (at + [name])));
        if ignore {
          return;
        }
        PutAppend(files, [], Found(at + [name], info));
        assert [] + [Found(at + [name], info)] == [Found(at + [name], info)];
        if info.None? {
          return;
        }
        files := files[at + [name] := info.value];
    }

    method VisitAll(at: Place, ns: seq<Node>)
      modifies this
      ensures files == Put(old(files), PrunedAll(filter, root, at, ns))
      ensures dirs == old(dirs) + |EnteredAll(filter, root, at, ns)|
      decreases ns, 0
    {
      for i := 0 to |ns|
        invariant files == Put(old(files), PrunedAll(filter, root, at, ns[..i]))
        invariant dirs == old(dirs) + |EnteredAll(filter, root, at, ns[..i])|
      {
        assert ns[..i + 1][..i] == ns[..i];
        PutConcat(old(files), PrunedAll(filter, root, at, ns[..i]), Pruned(filter, root, at, ns[i]));
        Visit(at, ns[i]);
      }
      assert ns[..|ns|] == ns;
    }
  }

  // ---------------------------------------------------------------- the diff

  datatype Op = Create | Write | Remove

  datatype Event = Event(path: Place, op: Op)

  /** What one event claims about the two snapshots. */
  predicate Truthful(before: Snapshot, now: Snapshot, e: Event)
  {
    match e.op
    case Create => e.path !in before && e.path in now
    case Write => e.path in before && e.path in now && before[e.path] != now[e.path]
    case Remove => e.path in before && e.path !in now
  }

  predicate Distinct(es: seq<Event>) { forall i, j :: 0 <= i < j < |es| ==> es[i].path != es[j].path }

  predicate Reported(es: seq<Event>, p: Place) { exists i :: 0 <= i < |es| && es[i].path == p }

  predicate Unchanged(before: Snapshot, now: Snapshot, p: Place)
  {
    (p in before <==> p in now) && (p in before && p in now ==> before[p] == now[p])
  }

  /** Some of the changes, each told truthfully and once. */
  ghost predicate SomeOf(before: Snapshot, now: Snapshot, es: seq<Event>)
  {
    Distinct(es) && forall i :: 0 <= i < |es| ==> Truthful(before, now, es[i])
  }

  /** All of the changes. */
  ghost predicate Diff(before: Snapshot, now: Snapshot, es: seq<Event>)
  {
    SomeOf(before, now, es) && forall p: Place :: Reported(es, p) || Unchanged(before, now, p)
  }

  lemma MoreReported(es: seq<Event>, e: Event)
    ensures Reported(es + [e], e.path)
    ensures forall p :: Reported(es, p) ==> Reported(es + [e], p)
  {
    assert (es + [e])[|es|] == e;
    forall p | Reported(es, p)
      ensures Reported(es + [e], p)
    {
      var i :| 0 <= i < |es| && es[i].path == p;
      assert (es + [e])[i].path == p;
    }
  }

  /** A completed tick names a path exactly if the path came, went, or changed its fingerprint. */
  lemma ReportedExactlyIfChanged(before: Snapshot, now: Snapshot, es: seq<Event>, p: Place)
    requires Diff(before, now, es)
    ensures Reported(es, p) <==> !Unchanged(before, now, p)
  {
    if Reported(es, p) {
      var i :| 0 <= i < |es| && es[i].path == p;
      assert Truthful(before, now, es[i]);
    }
  }

  ghost predicate Ticks(snapshots: seq<Snapshot>, batches: seq<seq<Event>>)
  {
    |snapshots| == |batches| + 1 &&
    forall i :: 0 <= i < |batches| ==> Diff(snapshots[i], snapshots[i + 1], batches[i])
  }

  /** Over any number of completed ticks, a path that none of them names has the identical fingerprint at the
      end, or was and is absent. */
  lemma {:induction false} UnreportedStaysUnchanged(snapshots: seq<Snapshot>, batches: seq<seq<Event>>, i: nat, j: nat, p: Place)
    requires Ticks(snapshots, batches) && i <= j <= |batches|
    requires forall k :: i <= k < j ==> !Reported(batches[k], p)
    ensures p in snapshots[i] <==> p in snapshots[j]
    ensures p in snapshots[i] && p in snapshots[j] ==> snapshots[i][p] == snapshots[j][p]
    decreases j - i
  {
    if i < j {
      UnreportedStaysUnchanged(snapshots, batches, i, j - 1, p);
      ReportedExactlyIfChanged(snapshots[j - 1], snapshots[j], batches[j - 1], p);
    }
  }

  lemma SomeMore(before: Snapshot, now: Snapshot, es: seq<Event>, e: Event)
    requires SomeOf(before, now, es) && Truthful(before, now, e) && !Reported(es, e.path)
    ensures SomeOf(before, now, es + [e])
  {
    forall i, j | 0 <= i < j < |es + [e]|
      ensures (es + [e])[i].path != (es + [e])[j].path
    {
      assert es[i].path != e.path;
    }
  }

  // ---------------------------------------------------------------- replaying events

  /** The set of files after a consumer has followed the events. */
  function Replay(files: set<Place>, es: seq<Event>): set<Place>
  {
    if es == [] then files else
    var e := es[|es| - 1];
    var sofar := Replay(files, es[..|es| - 1]);
    match e.op
    case Create => sofar + {e.path}
    case Write => sofar
    case Remove => sofar - {e.path}
  }

  /** Each event makes sense when it arrives: nothing is created twice, nothing absent is written or removed. */
  predicate Fits(files: set<Place>, es: seq<Event>)
  {
    es == [] ||
    var n := |es| - 1;
    Fits(files, es[..n]) && (es[n].op == Create <==> es[n].path !in Replay(files, es[..n]))
  }

  lemma {:induction false} ReplayConcat(files: set<Place>, xs: seq<Event>, ys: seq<Event>)
    ensures Replay(files, xs + ys) == Replay(Replay(files, xs), ys)
    ensures Fits(files, xs + ys) <==> Fits(files, xs) && Fits(Replay(files, xs), ys)
  {
    if ys == [] {
      assert xs + ys == xs;
    } else {
      var n := |ys| - 1;
      ReplayConcat(files, xs, ys[..n]);
      assert (xs + ys)[..|xs + ys| - 1] == xs + ys[..n];
    }
  }

  predicate KnownAfter(before: Snapshot, now: Snapshot, es: seq<Event>, p: Place)
  {
    if Reported(es, p) then p in now else p in before
  }

  lemma ReplayOne(before: Snapshot, now: Snapshot, es: seq<Event>, e: Event, files: set<Place>, p: Place)
    requires Truthful(before, now, e) && !Reported(es, e.path)
    requires p in files <==> KnownAfter(before, now, es, p)
    ensures p in Replay(files, [e]) <==> KnownAfter(before, now, es + [e], p)
  {
    MoreReported(es, e);
    assert [e][..0] == [];
    if Reported(es + [e], p) && p != e.path {
      var i :| 0 <= i < |es + [e]| && (es + [e])[i].path == p;
      assert es[i].path == p;
    }
  }

  lemma {:induction false} SomeReplay(before: Snapshot, now: Snapshot, es: seq<Event>)
    requires SomeOf(before, now, es)
    ensures Fits(before.Keys, es)
    ensures forall p :: p in Replay(before.Keys, es) <==> KnownAfter(before, now, es, p)
  {
    if es == [] {
      assert forall p :: !Reported(es, p);
    } else {
      var xs, e := es[..|es| - 1], es[|es| - 1];
      SomeReplay(before, now, xs);
      assert !Reported(xs, e.path);
      assert es == xs + [e];
      assert e.path in Replay(before.Keys, xs) <==> KnownAfter(before, now, xs, e.path);
      ReplayConcat(before.Keys, xs, [e]);
      forall p
        ensures p in Replay(before.Keys, es) <==> KnownAfter(before, now, es, p)
      {
        ReplayOne(before, now, xs, e, Replay(before.Keys, xs), p);
      }
    }
  }

  /** One tick replayed on the files known before it gives the files known after it. */
  lemma TickReplays(before: Snapshot, now: Snapshot, es: seq<Event>)
    requires Diff(before, now, es)
    ensures Fits(before.Keys, es) && Replay(before.Keys, es) == now.Keys
  {
    SomeReplay(before, now, es);
    forall p
      ensures p in Replay(before.Keys, es) <==> p in now
    {
      assert Reported(es, p) || Unchanged(before, now, p);
      if Reported(es, p) {
        var i :| 0 <= i < |es| && es[i].path == p;
      }
    }
  }

  /** The events of a tick, cut short or not, fit after the events of the ticks before it. */
  lemma StillFits(files: set<Place>, sofar: seq<Event>, before: Snapshot, now: Snapshot, es: seq<Event>)
    requires Fits(files, sofar) && Replay(files, sofar) == before.Keys && SomeOf(before, now, es)
    ensures Fits(files, sofar + es)
    ensures Diff(before, now, es) ==> Replay(files, sofar + es) == now.Keys
  {
    ReplayConcat(files, sofar, es);
    SomeReplay(before, now, es);
    if Diff(before, now, es) {
      TickReplays(before, now, es);
    }
  }

  function Flat(batches: seq<seq<Event>>): seq<Event>
  {
    if batches == [] then [] else Flat(batches[..|batches| - 1]) + batches[|batches| - 1]
  }

  /** Any number of completed ticks replays: the events of all of them, in order, turn the baseline into the
      set of files of the last snapshot, and every one of them fits where it stands. */
  lemma {:induction false} HistoryReplays(snapshots: seq<Snapshot>, batches: seq<seq<Event>>)
    requires Ticks(snapshots, batches)
    ensures Fits(snapshots[0].Keys, Flat(batches))
    ensures Replay(snapshots[0].Keys, Flat(batches)) == snapshots[|batches|].Keys
  {
    if batches != [] {
      var n := |batches| - 1;
      HistoryReplays(snapshots[..|batches|], batches[..n]);
      TickReplays(snapshots[n], snapshots[n + 1], batches[n]);
      ReplayConcat(snapshots[0].Keys, Flat(batches[..n]), batches[n]);
    }
  }

  // ---------------------------------------------------------------- the poller

  class Poller {
    const filter: Filter
    const root: Place
    var snapshot: Snapshot
    var dirCount: nat
    /** Everything the consumer has taken from the channel. */
    var events: seq<Event>
    ghost const baseline: set<Place>

    /** A consumer that follows the events from the baseline knows the files of the last snapshot. */
    ghost predicate Faithful() reads this
    {
      Fits(baseline, events) && Replay(baseline, events) == snapshot.Keys
    }

    /** The first scan is the baseline and reports nothing. */
    constructor (filter: Filter, root: Place, children: seq<Node>)
      ensures this.filter == filter && this.root == root
      ensures snapshot == Scanned(filter, root, children) && baseline == snapshot.Keys
      ensures dirCount == 1 + |EnteredAll(filter, root, [], children)| && events == [] && Faithful()
    {
      this.filter, this.root := filter, root;
      snapshot, dirCount, events := map[], 0, [];
      baseline := Scanned(filter, root, children).Keys;
      new;
      Rescan(children);
    }

    /** Blocks until the consumer takes the event or the context ends, which it does after `ends` sends. */
    method Send(e: Event, ends: Option<nat>) returns (taken: bool)
      modifies this`events
      ensures taken == !(ends.Some? && |old(events)| >= ends.value)
      ensures events == if taken then old(events) + [e] else old(events)
    {
      taken := !(ends.Some? && |events| >= ends.value);
      if taken {
        events := events + [e];
      }
    }

    /** The loop over the current snapshot, in any order. */
    method ReportPresent(before: Snapshot, now: Snapshot, ends: Option<nat>) returns (ok: bool, ghost es: seq<Event>)
      modifies this`events
      ensures events == old(events) + es && SomeOf(before, now, es)
      ensures forall i :: 0 <= i < |es| ==> es[i].path in now
      ensures ok ==> forall p :: p in now ==> Reported(es, p) || Unchanged(before, now, p)
      ensures !ok ==> ends.Some? && |events| >= ends.value
    {
      es := [];
      var todo := now.Keys;
      while todo != {}
        invariant todo <= now.Keys && events == old(events) + es && SomeOf(before, now, es)
        invariant forall i :: 0 <= i < |es| ==> es[i].path in now && es[i].path !in todo
        invariant forall p :: p in now && p !in todo ==> Reported(es, p) || Unchanged(before, now, p)
        decreases todo
      {
        var path :| path in todo;
        todo := todo - {path};
        if path !in before || now[path] != before[path] {
          var e := Event(path, if path !in before then Create else Write);
          var taken := Send(e, ends);
          if !taken {
            return false, es;
          }
          MoreReported(es, e);
          es := es + [e];
        }
      }
      return true, es;
    }

    /** The loop over what the previous snapshot had and the current one has not, in any order. */
    method ReportGone(before: Snapshot, now: Snapshot, ghost told: seq<Event>, ends: Option<nat>)
      returns (ok: bool, ghost es: seq<Event>)
      requires SomeOf(before, now, told)
      requires forall i :: 0 <= i < |told| ==> told[i].path in now
      requires forall p :: p in now ==> Reported(told, p) || Unchanged(before, now, p)
      modifies this`events
      ensures events == old(events) + es && SomeOf(before, now, told + es)
      ensures ok ==> Diff(before, now, told + es)
      ensures !ok ==> ends.Some? && |events| >= ends.value
    {
      es := [];
      ghost var all := told;
      var todo := before.Keys;
      while todo != {}
        invariant all == told + es && events == old(events) + es && SomeOf(before, now, all)
        invariant forall i :: 0 <= i < |all| ==> all[i].path !in todo || all[i].path in now
        invariant forall p :: p in now || p !in before || p !in todo ==> Reported(all, p) || Unchanged(before, now, p)
        decreases todo
      {
        var path :| path in todo;
        todo := todo - {path};
        if path !in now {
          var e := Event(path, Remove);
          var taken := Send(e, ends);
          if !taken {
            return false, es;
          }
          assert !Reported(all, path);
          SomeMore(before, now, all, e);
          MoreReported(all, e);
          assert told + (es + [e]) == all + [e];
          es, all := es + [e], all + [e];
        }
      }
      return true, es;
    }

    /** One tick: scan, swap the snapshot, report the differences. The new snapshot stands even when the
        context ends before every difference is delivered. */
    method Tick(children: seq<Node>, ends: Option<nat>) returns (ok: bool, ghost es: seq<Event>)
      requires Faithful()
      modifies this
      ensures snapshot == Scanned(filter, root, children)
      ensures dirCount == 1 + |EnteredAll(filter, root, [], children)|
      ensures events == old(events) + es && SomeOf(old(snapshot), snapshot, es) && Fits(baseline, events)
      ensures ok ==> Diff(old(snapshot), snapshot, es) && Faithful()
      ensures !ok ==> ends.Some? && |events| >= ends.value
    {
      var previous := snapshot;
      Rescan(children);
      ok, es := ReportPresent(previous, snapshot, ends);
      if ok {
        ghost var more;
        ok, more := ReportGone(previous, snapshot, es, ends);
        es := es + more;
      }
      StillFits(baseline, old(events), previous, snapshot, es);
    }

    method Rescan(children: seq<Node>)
      modifies this`snapshot, this`dirCount
      ensures snapshot == Scanned(filter, root, children)
      ensures dirCount == 1 + |EnteredAll(filter, root, [], children)|
    {
      var scan := new Scan(filter, root);
      scan.VisitAll([], children);
      snapshot, dirCount := scan.files, scan.dirs + 1;
    }
  }
}

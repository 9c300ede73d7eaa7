/**
 Arming a new directory while it is still being filled.

 Between a directory's creation and the moment its watch is armed, the system reports nothing of what
 happens inside. The watcher closes that window by its order of work: a walk adds a directory's watch
 before it lists the directory, and only after the whole walk it searches for a file that is already there.
 Directories and files here are the ones the filter accepts.
 */
module WatchRace {
  import opened Optional
  import opened SourceTree

  /** A raw event the system has queued. */
  datatype News = NewDir(path: Place) | NewFile(path: Place)

  /** What the one goroutine that reads raw events is doing. `todo` are directories listed but not visited,
      `open` those armed but not listed; `seen` are the files there when the search began. */
  datatype Job =
    | Idle
    | Walking(top: Place, todo: set<Place>, open: set<Place>)
    | Searching(top: Place, seen: set<Place>)

  /** `unseen` are the files saved since the last event was sent: a build that event starts reads them. */
  datatype World = World(dirs: set<Place>, files: set<Place>, armed: set<Place>, queue: seq<News>, job: Job,
                         unseen: set<Place>)

  datatype Act =
    | MakeDir(at: Place)
    | Save(at: Place)
    | Take
    | Visit(at: Place)
    | List(at: Place)
    | EndWalk
    | EndSearch(found: bool)

  /** New walks the root, which may be changing already. */
  ghost predicate Start(w: World)
  {
    Closed(w.dirs) && w.armed == {} && w.queue == [] && w.job == Walking([], {[]}, {}) && w.unseen == {}
  }

  /** Every directory lies in a directory. */
  ghost predicate Closed(dirs: set<Place>)
  {
    [] in dirs && forall d :: d in dirs ==> Parent(d) in dirs
  }

  function Report(w: World, parent: Place, e: News): seq<News>
  {
    w.queue + (if parent in w.armed then [e] else [])
  }

  function Step(w: World, a: Act): Option<World>
  {
    match a
    case MakeDir(at) =>
      if at in w.dirs || Parent(at) !in w.dirs then None
      else Some(w.(dirs := w.dirs + {at}, queue := Report(w, Parent(at), NewDir(at))))
    case Save(at) =>
      if at == [] || Parent(at) !in w.dirs then None
      else Some(w.(files := w.files + {at}, queue := Report(w, Parent(at), NewFile(at)), unseen := w.unseen + {at}))
    case Take =>
      if w.queue == [] || !w.job.Idle? then None
      else if w.queue[0].NewFile? then Some(w.(queue := w.queue[1..], unseen := {}))
      else Some(w.(queue := w.queue[1..], job := Walking(w.queue[0].path, {w.queue[0].path}, {})))
    case Visit(at) =>
      if !w.job.Walking? || at !in w.job.todo then None
      else Some(w.(armed := w.armed + {at}, job := Walking(w.job.top, w.job.todo - {at}, w.job.open + {at})))
    case List(at) =>
      if !w.job.Walking? || at !in w.job.open then None
      else Some(w.(job := Walking(w.job.top, w.job.todo + Children(w.dirs, at), w.job.open - {at})))
    case EndWalk =>
      if !w.job.Walking? || w.job.todo + w.job.open != {} then None
      else if w.job.top == [] then Some(w.(job := Idle, unseen := {})) // the initial build follows New's walk
      else Some(w.(job := Searching(w.job.top, set f | f in w.files && w.job.top <= f)))
    case EndSearch(found) =>
      if !w.job.Searching? || (!found && w.job.seen != {}) then None
      else Some(w.(job := Idle, unseen := if found then {} else w.unseen))
  }

  function Children(dirs: set<Place>, at: Place): set<Place>
  {
    set d | d in dirs && d != [] && Parent(d) == at
  }

  ghost predicate Run(ws: seq<World>, acts: seq<Act>)
  {
    |ws| == |acts| + 1 && Start(ws[0]) && forall i :: 0 <= i < |acts| ==> Step(ws[i], acts[i]) == Some(ws[i + 1])
  }

  // ---------------------------------------------------------------- what every step keeps

  ghost predicate Queued(queue: seq<News>, p: Place)
  {
    exists i :: 0 <= i < |queue| && queue[i].NewDir? && queue[i].path <= p
  }

  ghost predicate ToWalk(job: Job, d: Place)
  {
    job.Walking? && ((exists t :: t in job.todo && t <= d) || (exists t :: t in job.open && t < d))
  }

  /** A directory without a watch is going to get one. */
  ghost predicate DirsDue(w: World)
  {
    forall d :: d in w.dirs && d !in w.armed ==> Queued(w.queue, d) || ToWalk(w.job, d)
  }

  ghost predicate ToSearch(job: Job, f: Place)
  {
    (job.Walking? && job.top <= f) || (job.Searching? && f in job.seen)
  }

  /** A file saved since the last event is going to cause another. */
  ghost predicate FilesDue(w: World)
  {
    forall f :: f in w.unseen ==> f in w.files && (NewFile(f) in w.queue || Queued(w.queue, f) || ToSearch(w.job, f))
  }

  ghost predicate BelowTop(job: Job)
  {
    job.Walking? ==> (forall t :: t in job.todo ==> job.top <= t) && (forall t :: t in job.open ==> job.top <= t)
  }

  ghost predicate Inv(w: World)
  {
    Closed(w.dirs) && BelowTop(w.job) && DirsDue(w) && FilesDue(w)
  }

  /** Nothing is missed, whatever is made or saved while directories are being armed: once the watcher is
      idle with nothing to read, every directory is watched and every save has been followed by an event. */
  lemma NothingIsMissed(ws: seq<World>, acts: seq<Act>)
    requires Run(ws, acts)
    ensures var w := ws[|acts|]; w.queue == [] && w.job.Idle? ==> w.dirs <= w.armed && w.unseen == {}
  {
    RunKeeps(ws, acts);
  }

  /** And it gets there: as long as something is to be read, walked or searched the watcher has a step to take. */
  lemma WatcherMoves(ws: seq<World>, acts: seq<Act>) returns (a: Act)
    requires Run(ws, acts) && (ws[|acts|].queue != [] || !ws[|acts|].job.Idle?)
    ensures Step(ws[|acts|], a).Some? && !a.MakeDir? && !a.Save?
  {
    var w := ws[|acts|];
    match w.job
    case Idle => a := Take;
    case Searching(_, seen) => a := EndSearch(seen != {});
    case Walking(_, todo, open) =>
      if todo != {} {
        var at :| at in todo;
        a := Visit(at);
      } else if open != {} {
        var at :| at in open;
        a := List(at);
      } else {
        a := EndWalk;
      }
  }

  lemma RootIsAbove(dirs: set<Place>)
    ensures forall d :: d in dirs ==> ToWalk(Walking([], {[]}, {}), d)
  {
    forall d | d in dirs
      ensures ToWalk(Walking([], {[]}, {}), d)
    {
      var root: Place := [];
      assert root in Walking([], {[]}, {}).todo && root <= d;
    }
  }

  lemma {:induction false} RunKeeps(ws: seq<World>, acts: seq<Act>)
    requires Run(ws, acts)
    ensures Inv(ws[|acts|])
  {
    if acts == [] {
      RootIsAbove(ws[0].dirs);
    } else {
      var n := |acts| - 1;
      RunKeeps(ws[..|acts|], acts[..n]);
      StepKeeps(ws[n], acts[n], ws[n + 1]);
    }
  }

  lemma StepKeeps(w: World, a: Act, v: World)
    requires Inv(w) && Step(w, a) == Some(v)
    ensures Inv(v)
  {
    match a
    case MakeDir(at) => MakeDirKeeps(w, at, v);
    case Save(at) => SaveKeeps(w, at, v);
    case Take => TakeKeeps(w, v);
    case Visit(at) => VisitKeeps(w, at, v);
    case List(at) => ListKeeps(w, at, v);
    case EndWalk => EndWalkKeeps(w, v);
    case EndSearch(_) =>
  }

  lemma QueuedGrows(queue: seq<News>, more: seq<News>, p: Place)
    ensures Queued(queue, p) ==> Queued(queue + more, p)
    ensures Queued(more, p) ==> Queued(queue + more, p)
  {
    if Queued(queue, p) {
      var i :| 0 <= i < |queue| && queue[i].NewDir? && queue[i].path <= p;
      assert (queue + more)[i] == queue[i];
    }
    if Queued(more, p) {
      var i :| 0 <= i < |more| && more[i].NewDir? && more[i].path <= p;
      assert (queue + more)[|queue| + i] == more[i];
    }
  }

  /** What is due for a directory is due for everything in it. */
  lemma DueBelow(w: World, d: Place)
    requires d != []
    ensures Queued(w.queue, Parent(d)) ==> Queued(w.queue, d)
    ensures ToWalk(w.job, Parent(d)) ==> ToWalk(w.job, d)
  {
    assert Parent(d) <= d;
    if Queued(w.queue, Parent(d)) {
      var i :| 0 <= i < |w.queue| && w.queue[i].NewDir? && w.queue[i].path <= Parent(d);
      assert w.queue[i].path <= d;
    }
    if ToWalk(w.job, Parent(d)) {
      if t :| t in w.job.todo && t <= Parent(d) {
        assert t <= d;
      } else {
        var t :| t in w.job.open && t < Parent(d);
        assert t < d;
      }
    }
  }

  lemma MakeDirKeeps(w: World, at: Place, v: World)
    requires Inv(w) && Step(w, MakeDir(at)) == Some(v)
    ensures Inv(v)
  {
    var more := if Parent(at) in w.armed then [NewDir(at)] else [];
    DueBelow(w, at);
    forall p
      ensures Queued(w.queue, p) ==> Queued(v.queue, p)
    {
      QueuedGrows(w.queue, more, p);
    }
    if Parent(at) in w.armed {
      assert Queued(more, at) by { assert more[0].path <= at; }
      QueuedGrows(w.queue, more, at);
    }
  }

  lemma SaveKeeps(w: World, at: Place, v: World)
    requires Inv(w) && Step(w, Save(at)) == Some(v)
    ensures Inv(v)
  {
    var more := if Parent(at) in w.armed then [NewFile(at)] else [];
    forall p
      ensures Queued(w.queue, p) ==> Queued(v.queue, p)
    {
      QueuedGrows(w.queue, more, p);
    }
    if Parent(at) !in w.armed {
      DueBelow(w, at);
      if ToWalk(w.job, at) {
        TopCovers(w.job, at);
      }
    }
  }

  lemma TopCovers(job: Job, p: Place)
    requires BelowTop(job) && ToWalk(job, p)
    ensures ToSearch(job, p)
  {
    if t :| t in job.todo && t <= p {
      assert job.top <= t <= p;
    } else {
      var t :| t in job.open && t < p;
      assert job.top <= t <= p;
    }
  }

  lemma Unqueued(queue: seq<News>, p: Place)
    requires queue != [] && Queued(queue, p)
    ensures Queued(queue[1..], p) || (queue[0].NewDir? && queue[0].path <= p)
  {
    var i :| 0 <= i < |queue| && queue[i].NewDir? && queue[i].path <= p;
    if i > 0 {
      assert queue[1..][i - 1] == queue[i];
    }
  }

  lemma TakeKeeps(w: World, v: World)
    requires Inv(w) && Step(w, Take) == Some(v)
    ensures Inv(v)
  {
    forall p | Queued(w.queue, p)
      ensures Queued(v.queue, p) || (w.queue[0].NewDir? && w.queue[0].path <= p)
    {
      Unqueued(w.queue, p);
    }
    assert w.queue == [w.queue[0]] + w.queue[1..];
    if w.queue[0].NewDir? {
      assert w.queue[0].path in v.job.todo;
    }
  }

  lemma VisitKeeps(w: World, at: Place, v: World)
    requires Inv(w) && Step(w, Visit(at)) == Some(v)
    ensures Inv(v)
  {
    forall d | d in w.dirs && d !in v.armed && ToWalk(w.job, d)
      ensures ToWalk(v.job, d)
    {
      if t :| t in w.job.open && t < d {
        assert t in v.job.open;
      } else {
        var t :| t in w.job.todo && t <= d;
        if t == at {
          assert |at| == |d| ==> at == d;
          assert at in v.job.open && at < d;
        } else {
          assert t in v.job.todo;
        }
      }
    }
  }

  lemma {:induction false} ChildOnTheWay(dirs: set<Place>, at: Place, d: Place)
    requires Closed(dirs) && d in dirs && at < d
    ensures d[..|at| + 1] in Children(dirs, at)
    decreases |d|
  {
    if |d| > |at| + 1 {
      ChildOnTheWay(dirs, at, Parent(d));
      assert Parent(d)[..|at| + 1] == d[..|at| + 1];
    } else {
      assert d[..|at| + 1] == d && Parent(d) == at;
    }
  }

  lemma ListKeeps(w: World, at: Place, v: World)
    requires Inv(w) && Step(w, List(at)) == Some(v)
    ensures Inv(v)
  {
    forall d | d in w.dirs && ToWalk(w.job, d)
      ensures ToWalk(v.job, d)
    {
      if t :| t in w.job.todo && t <= d {
        assert t in v.job.todo;
      } else {
        var t :| t in w.job.open && t < d;
        if t == at {
          ChildOnTheWay(w.dirs, at, d);
          assert d[..|at| + 1] in v.job.todo && d[..|at| + 1] <= d;
        } else {
          assert t in v.job.open;
        }
      }
    }
    forall t | t in Children(w.dirs, at)
      ensures w.job.top <= t
    {
      assert w.job.top <= at <= t;
    }
  }

  lemma EndWalkKeeps(w: World, v: World)
    requires Inv(w) && Step(w, EndWalk) == Some(v)
    ensures Inv(v)
  {
    assert w.job.todo == {} && w.job.open == {};
  }
}

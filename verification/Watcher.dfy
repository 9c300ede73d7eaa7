/**
 The notification watcher: the set of watched directories, grown by walks and shrunk by deletions, and the
 events it forwards.

 `armed` is what the operating system really watches. It changes behind the watcher's back: deleting a
 directory drops its watch at once, while the Remove event that tells the watcher so is still to be read.
 */
module Watcher {
  import opened Optional
  import opened Filter
  import opened SourceTree

  /** An fsnotify operation is a set of bits. */
  datatype Op = Op(create: bool, write: bool, remove: bool, rename: bool, chmod: bool)

  datatype Event = Event(path: Place, op: Op)

  /** What os.Stat answers. */
  datatype Stat = Missing | IsFile | IsDir

  /** The directory itself, or something beneath it. */
  predicate Within(dir: Place, path: Place) { dir <= path }

  function SetOf(ps: seq<Place>): set<Place> { set p | p in ps }

  /** The directories a walk from `at` visits: `at` whatever its name, then those not ignored. */
  function Visited(f: Filter, root: Place, at: Place, children: seq<Node>): (r: set<Place>)
    ensures at in r
  {
    SetOf(EnteredAll(f, root, at, children)) + {at}
  }

  function First(fs: seq<Found>): Option<Place>
  {
    if fs == [] then None else Some(fs[0].path)
  }

  lemma {:induction false} PrunedPrefix(f: Filter, root: Place, at: Place, ns: seq<Node>, i: nat)
    requires i <= |ns|
    ensures PrunedAll(f, root, at, ns[..i]) <= PrunedAll(f, root, at, ns)
  {
    if i == |ns| {
      assert ns[..i] == ns;
    } else {
      var m := |ns| - 1;
      PrunedPrefix(f, root, at, ns[..m], i);
      assert ns[..m][..i] == ns[..i];
    }
  }

  /** The files a pruned walk finds are exactly the accepted files; so it finds one exactly if there is one. */
  lemma FirstIsAccepted(f: Filter, root: Place, at: Place, children: seq<Node>)
    requires Scoped(f, root) && Names(at) && AllWellNamed(children)
    ensures First(PrunedAll(f, root, at, children)).Some? <==>
      exists x :: x in FullAll(at, children) && !IgnoresFileAt(f, root, x.path)
    ensures First(PrunedAll(f, root, at, children)).Some? ==>
      !IgnoresFileAt(f, root, First(PrunedAll(f, root, at, children)).value)
  {
    hide PrunedAll, FullAll, Select, IgnoresDir, IgnoresFile;
    PrunedAllIsFiltered(f, root, at, children);
    var keep := (x: Found) => !IgnoresFileAt(f, root, x.path);
    SelectMembers(keep, FullAll(at, children));
    var fs := Select(keep, FullAll(at, children));
    if fs != [] {
      assert fs[0] in fs;
    }
  }

  /** What a new directory sends: at most one event, for the first accepted file it already holds. */
  function NewDirEvents(f: Filter, root: Place, dir: Place, op: Op, searched: seq<Node>, taken: bool): seq<Event>
  {
    var seed := First(PrunedAll(f, root, dir, searched));
    if IgnoresDirAt(f, root, dir) || seed.None? || !taken then [] else [Event(seed.value, op)]
  }

  function Forwarded(f: Filter, root: Place, path: Place, op: Op, stat: Stat, searched: seq<Node>, taken: bool)
    : seq<Event>
  {
    if op.create && stat.IsDir? then NewDirEvents(f, root, path, op, searched, taken)
    else if IgnoresFileAt(f, root, path) || !taken then [] else [Event(path, op)]
  }

  ghost predicate Backed(watched: set<Place>, armed: set<Place>, gone: multiset<Place>)
  {
    forall d :: d in watched && d !in armed ==> exists g :: g in gone && Within(g, d)
  }

  function Without(dirs: set<Place>, path: Place): set<Place> { set d | d in dirs && !Within(path, d) }

  /** What is left out is the path and everything beneath it, however deep, and nothing else. */
  lemma WithoutSubtree(dirs: set<Place>, path: Place)
    ensures forall more: Place :: path + more !in Without(dirs, path)
    ensures Without(dirs, path) <= dirs
    ensures forall d :: d in dirs && d !in Without(dirs, path) ==> exists more: Place :: d == path + more
  {
    forall d | d in dirs && d !in Without(dirs, path)
      ensures exists more: Place :: d == path + more
    {
      assert d == path + d[|path|..];
    }
  }

  /** Forgetting the whole subtree is what makes it safe to strike the deletion off. */
  lemma ForgettingIsSafe(watched: set<Place>, armed: set<Place>, gone: multiset<Place>, path: Place)
    requires Backed(watched, armed, gone)
    ensures Backed(Without(watched, path), armed, gone - multiset{path})
  {
    forall d | d in Without(watched, path) && d !in armed
      ensures exists g :: g in gone - multiset{path} && Within(g, d)
    {
      var g :| g in gone && Within(g, d);
      assert g in gone - multiset{path};
    }
  }

  lemma AddingIsSafe(watched: set<Place>, armed: set<Place>, gone: multiset<Place>, more: set<Place>)
    requires Backed(watched, armed, gone)
    ensures Backed(watched + more, armed + (more - watched), gone)
    ensures gone == multiset{} ==> more <= armed + (more - watched)
  {
    forall d | d in watched + more && d !in armed + (more - watched)
      ensures exists g :: g in gone && Within(g, d)
    {
      assert d in watched && d !in armed;
    }
  }

  function Keeping(dirs: set<Place>, forget: Place -> bool): set<Place> { set d | d in dirs && !forget(d) }

  /** Whatever the watcher forgot on the news that `path` is gone, striking that news off is safe in every
      situation if and only if it forgot the path and everything beneath it. */
  lemma ForgettingMustCover(path: Place, forget: Place -> bool)
    ensures (forall watched, armed, gone :: Backed(watched, armed, gone) ==>
               Backed(Keeping(watched, forget), armed, gone - multiset{path}))
      <==> (forall d :: Within(path, d) ==> forget(d))
  {
    if d :| Within(path, d) && !forget(d) {
      assert Backed({d}, {}, multiset{path});
      assert d in Keeping({d}, forget);
      assert !Backed(Keeping({d}, forget), {}, multiset{path} - multiset{path});
    } else {
      forall watched, armed, gone | Backed(watched, armed, gone)
        ensures Backed(Keeping(watched, forget), armed, gone - multiset{path})
      {
        CoverIsSafe(path, forget, watched, armed, gone);
      }
    }
  }

  lemma CoverIsSafe(path: Place, forget: Place -> bool, watched: set<Place>, armed: set<Place>, gone: multiset<Place>)
    requires forall d :: Within(path, d) ==> forget(d)
    requires Backed(watched, armed, gone)
    ensures Backed(Keeping(watched, forget), armed, gone - multiset{path})
  {
    forall d | d in Keeping(watched, forget) && d !in armed
      ensures exists g :: g in gone - multiset{path} && Within(g, d)
    {
      var g :| g in gone && Within(g, d);
      assert g in gone - multiset{path};
    }
  }

  class Watcher {
    const filter: Filter
    const root: Place
    var watched: set<Place>
    /** Everything the consumer has taken from the channel. */
    var events: seq<Event>
    ghost var armed: set<Place>
    /** Deletions whose event has not been handled. */
    ghost var gone: multiset<Place>

    /** A directory believed to be watched is, unless news of its deletion is still on the way. */
    ghost predicate Sound() reads this
    {
      Backed(watched, armed, gone)
    }

    /** New walks the root. Adds that the system refuses are tolerated: those directories stay unwatched. */
    constructor (filter: Filter, root: Place, children: seq<Node>, refused: set<Place>)
      ensures this.filter == filter && this.root == root && events == [] && gone == multiset{}
      ensures watched == armed == Visited(filter, root, [], children) - refused
    {
      this.filter, this.root, watched, events, armed, gone := filter, root, {}, [], {}, multiset{};
      new;
      AddDirRecursive([], children, refused);
    }

    /** The system's side of a deletion: the watches go, the event comes later. */
    ghost method Delete(path: Place)
      requires Sound()
      modifies this`armed, this`gone
      ensures armed == Without(old(armed), path) && gone == old(gone) + multiset{path}
      ensures armed <= old(armed) && forall more: Place :: path + more !in armed
      ensures forall d :: d in old(armed) && d !in armed ==> exists more: Place :: d == path + more
      ensures Sound()
    {
      WithoutSubtree(armed, path);
      armed := Without(armed, path);
      gone := gone + multiset{path};
    }

    method Watch(at: Place, refused: set<Place>)
      modifies this`watched, this`armed
      ensures watched == old(watched) + ({at} - refused)
      ensures armed == old(armed) + ({at} - refused - old(watched))
    {
      if at in watched {
        return;
      }
      if at in refused {
        return;
      }
      armed := armed + {at};
      watched := watched + {at};
    }

    /** The walk callback on one node beneath the directory the walk started from. */
    method Visit(at: Place, n: Node, refused: set<Place>)
      modifies this`watched, this`armed
      ensures watched == old(watched) + (SetOf(Entered(filter, root, at, n)) - refused)
      ensures armed == old(armed) + (SetOf(Entered(filter, root, at, n)) - refused - old(watched))
      decreases n, 1
    {
      match n
      case File(_, _) =>
      case Dir(name, children) =>
        var ignore := ShouldIgnoreDir(filter, Path(true, root + (at + [name])));
        if ignore {
          return;
        }
        Watch(at + [name], refused);
        VisitAll(at + [name], children, refused);
    }

    method VisitAll(at: Place, ns: seq<Node>, refused: set<Place>)
      modifies this`watched, this`armed
      ensures watched == old(watched) + (SetOf(EnteredAll(filter, root, at, ns)) - refused)
      ensures armed == old(armed) + (SetOf(EnteredAll(filter, root, at, ns)) - refused - old(watched))
      decreases ns, 0
    {
      for i := 0 to |ns|
        invariant watched == old(watched) + (SetOf(EnteredAll(filter, root, at, ns[..i])) - refused)
        invariant armed == old(armed) + (SetOf(EnteredAll(filter, root, at, ns[..i])) - refused - old(watched))
      {
        assert ns[..i + 1][..i] == ns[..i];
        Visit(at, ns[i], refused);
      }
      assert ns[..|ns|] == ns;
    }

    method AddDirRecursive(at: Place, children: seq<Node>, refused: set<Place>)
      requires Sound()
      modifies this`watched, this`armed
      ensures watched == old(watched) + (Visited(filter, root, at, children) - refused)
      ensures armed == old(armed) + (Visited(filter, root, at, children) - refused - old(watched))
      ensures Sound() && (gone == multiset{} && refused == {} ==> Visited(filter, root, at, children) <= armed)
    {
      AddingIsSafe(watched, armed, gone, Visited(filter, root, at, children) - refused);
      Watch(at, refused);
      VisitAll(at, children, refused);
    }

    /** Removes the path and every descendant, and nothing else. */
    method ForgetSubtree(path: Place)
      modifies this`watched
      ensures watched == Without(old(watched), path)
      ensures watched <= old(watched) && forall more: Place :: path + more !in watched
      ensures forall d :: d in old(watched) && d !in watched ==> exists more: Place :: d == path + more
    {
      WithoutSubtree(watched, path);
      var todo := watched;
      while todo != {}
        invariant todo <= old(watched)
        invariant watched == set d | d in old(watched) && (d in todo || !Within(path, d))
        decreases todo
      {
        var k :| k in todo;
        todo := todo - {k};
        if Within(path, k) {
          watched := watched - {k};
        }
      }
    }

    /** The search for a seed file stops at the first accepted one. */
    method FirstRelevantFile(at: Place, ns: seq<Node>) returns (found: Option<Place>)
      ensures found == First(PrunedAll(filter, root, at, ns))
      decreases ns
    {
      for i := 0 to |ns|
        invariant PrunedAll(filter, root, at, ns[..i]) == []
      {
        assert ns[..i + 1][..i] == ns[..i];
        PrunedPrefix(filter, root, at, ns, i + 1);
        match ns[i]
        case File(name, info) =>
          var ignore := ShouldIgnoreFile(filter, Path(true, root + (at + [name])));
          if !ignore {
            return Some(at + [name]);
          }
        case Dir(name, children) =>
          var ignore := ShouldIgnoreDir(filter, Path(true, root + (at + [name])));
          if !ignore {
            found := FirstRelevantFile(at + [name], children);
            if found.Some? {
              return;
            }
          }
      }
      assert ns[..|ns|] == ns;
      return None;
    }

    /** Blocks until the consumer takes the event or the context ends. */
    method Send(e: Event, taken: bool)
      modifies this`events
      ensures events == old(events) + if taken then [e] else []
    {
      if taken {
        events := events + [e];
      }
    }

    /** A new directory, as the walk that adds watches saw it and then as the search for a seed saw it. */
    method HandleNewDir(dir: Place, op: Op, added: seq<Node>, searched: seq<Node>, refused: set<Place>, taken: bool)
      requires Sound()
      modifies this`watched, this`armed, this`events
      ensures Sound()
      ensures IgnoresDirAt(filter, root, dir) ==> watched == old(watched) && armed == old(armed) && events == old(events)
      ensures !IgnoresDirAt(filter, root, dir) ==>
        watched == old(watched) + (Visited(filter, root, dir, added) - refused)
      ensures events == old(events) + NewDirEvents(filter, root, dir, op, searched, taken)
      ensures !IgnoresDirAt(filter, root, dir) && gone == multiset{} && refused == {} ==>
        forall i :: 0 <= i < |PrunedAll(filter, root, dir, added)| ==>
          Parent(PrunedAll(filter, root, dir, added)[i].path) in armed
    {
      var ignore := ShouldIgnoreDir(filter, Path(true, root + dir));
      if ignore {
        return;
      }
      AddDirRecursive(dir, added, refused);
      WatchesCoverAll(filter, root, dir, added);
      var seed := FirstRelevantFile(dir, searched);
      if seed.Some? {
        Send(Event(seed.value, op), taken);
      }
    }

    /** One raw event. A Remove or Rename makes the watcher forget the subtree, whether or not it then
        forwards the event. */
    method HandleEvent(path: Place, op: Op, stat: Stat, added: seq<Node>, searched: seq<Node>, refused: set<Place>,
                       taken: bool)
      requires Sound()
      modifies this
      ensures Sound()
      ensures events == old(events) + Forwarded(filter, root, path, op, stat, searched, taken)
      ensures !(op.create && stat.IsDir?) ==>
        events == old(events) + if taken && !IgnoresFileAt(filter, root, path) then [Event(path, op)] else []
      ensures op.create && stat.IsDir? && !IgnoresDirAt(filter, root, path) ==>
        watched == old(watched) + (Visited(filter, root, path, added) - refused)
      ensures !(op.create && stat.IsDir?) && (op.remove || op.rename) ==>
        && gone == old(gone) - multiset{path}
        && watched <= old(watched) && (forall more: Place :: path + more !in watched)
        && (forall d :: d in old(watched) && d !in watched ==> exists more: Place :: d == path + more)
      ensures op.create && stat.IsDir? && IgnoresDirAt(filter, root, path) ==> watched == old(watched) && armed == old(armed)
      ensures !(op.create && stat.IsDir?) ==> armed == old(armed)
      ensures !(op.create && stat.IsDir?) && !(op.remove || op.rename) ==> watched == old(watched) && gone == old(gone)
    {
      if op.create {
        if stat.IsDir? {
          HandleNewDir(path, op, added, searched, refused, taken);
          return;
        }
      }
      if op.remove || op.rename {
        ForgettingIsSafe(watched, armed, gone, path);
        ForgetSubtree(path);
        gone := gone - multiset{path};
      }
      var ignore := ShouldIgnoreFile(filter, Path(true, root + path));
      if ignore {
        return;
      }
      Send(Event(path, op), taken);
    }
  }

  /** What a save comes to, from the names alone: on any event that does not announce a new directory the consumer
      gets exactly that event, with the operation it came with, if and only if no directory on the way down from
      the root is bad and the file's own name is not unwanted. */
  lemma SaveIsForwarded(f: Filter, root: Place, dir: Place, name: string, op: Op, stat: Stat, searched: seq<Node>)
    requires Scoped(f, root) && Names(dir) && Name(name) && !(op.create && stat.IsDir?)
    ensures Forwarded(f, root, dir + [name], op, stat, searched, true) ==
      if !BadBase(f, name) && !AnyBad(f, dir) then [Event(dir + [name], op)] else []
  {
    hide BadBase, AnyBad;
    FileVerdict(f, root, dir, name);
  }

  /** A new directory that is not ignored and holds an accepted file, however deep, sends exactly one event: for
      such a file, with the operation it came with.  Any other sends none. */
  lemma NewDirectoryIsSeeded(f: Filter, root: Place, path: Place, op: Op, searched: seq<Node>)
    requires Scoped(f, root) && Names(path) && AllWellNamed(searched) && op.create
    ensures var es := Forwarded(f, root, path, op, IsDir, searched, true);
      if exists x :: x in FullAll(path, searched) && !IgnoresFileAt(f, root, x.path)
      then |es| == 1 && es[0].op == op && !IgnoresFileAt(f, root, es[0].path) && exists x :: x in FullAll(path, searched) && x.path == es[0].path
      else es == []
  {
    hide PrunedAll, FullAll, Select, IgnoresDir, IgnoresFile;
    FirstIsAccepted(f, root, path, searched);
    PrunedAllIsFiltered(f, root, path, searched);
    SelectMembers((x: Found) => !IgnoresFileAt(f, root, x.path), FullAll(path, searched));
    if IgnoresDirAt(f, root, path) {
      NothingBeneathAll(f, root, path, [], searched);
      assert path + [] == path;
    }
    var fs := PrunedAll(f, root, path, searched);
    if fs != [] {
      assert fs[0] in fs;
    }
  }

  /** Nothing ignored is ever forwarded. A new directory that is not ignored forwards an event exactly if the
      whole tree beneath it holds an accepted file; a bare mkdir forwards none. */
  lemma OnlyRelevantEvents(f: Filter, root: Place, path: Place, op: Op, stat: Stat, searched: seq<Node>)
    requires Scoped(f, root) && Names(path) && AllWellNamed(searched)
    ensures forall e :: e in Forwarded(f, root, path, op, stat, searched, true) ==> !IgnoresFileAt(f, root, e.path)
    ensures op.create && stat.IsDir? ==>
      (Forwarded(f, root, path, op, stat, searched, true) != [] <==>
       exists x :: x in FullAll(path, searched) && !IgnoresFileAt(f, root, x.path))
  {
    hide PrunedAll, FullAll, Select, IgnoresDir, IgnoresFile;
    FirstIsAccepted(f, root, path, searched);
    if IgnoresDirAt(f, root, path) {
      NothingBeneathAll(f, root, path, [], searched);
      assert path + [] == path;
      PrunedAllIsFiltered(f, root, path, searched);
    }
  }
}

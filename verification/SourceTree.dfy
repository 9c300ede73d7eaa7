/**
 Walking the watched tree: filepath.WalkDir with pruning, as the poller, the notification watcher and the
 search for a seed file use it, against a full walk filtered afterwards.

 Places are names below the watched root.
 */
module SourceTree {
  import opened Optional
  import opened Filter

  /** A file or directory by its names below the watched root. */
  type Place = seq<string>

  datatype FileState = FileState(modTime: int, size: int)

  /** `info` is what Info() answers: nothing if the file vanished while it was looked at. */
  datatype Node =
    | File(name: string, info: Option<FileState>)
    | Dir(name: string, children: seq<Node>)

  datatype Found = Found(path: Place, info: Option<FileState>)

  predicate WellNamed(n: Node)
  {
    Name(n.name) && (n.Dir? ==> forall i :: 0 <= i < |n.children| ==> WellNamed(n.children[i]))
  }

  predicate AllWellNamed(ns: seq<Node>) { forall i :: 0 <= i < |ns| ==> WellNamed(ns[i]) }

  predicate IgnoresDirAt(f: Filter, root: Place, at: Place) { IgnoresDir(f, Path(true, root + at)) }

  predicate IgnoresFileAt(f: Filter, root: Place, at: Place) { IgnoresFile(f, Path(true, root + at)) }

  ghost predicate Scoped(f: Filter, root: Place) { f.root == Some(root) && Names(root) }

  // ---------------------------------------------------------------- the full walk and the pruned walk

  /** Every file beneath a node, nothing pruned. */
  function Full(at: Place, n: Node): seq<Found>
    decreases n, 1
  {
    match n
    case File(name, info) => [Found(at + [name], info)]
    case Dir(name, children) => FullAll(at + [name], children)
  }

  function FullAll(at: Place, ns: seq<Node>): seq<Found>
    decreases ns, 0
  {
    if ns == [] then [] else FullAll(at, ns[..|ns| - 1]) + Full(at, ns[|ns| - 1])
  }

  /** The files WalkDir reports when the callback returns SkipDir on ignored directories. */
  function Pruned(f: Filter, root: Place, at: Place, n: Node): seq<Found>
    decreases n, 1
  {
    match n
    case File(name, info) => if IgnoresFileAt(f, root, at + [name]) then [] else [Found(at + [name], info)]
    case Dir(name, children) =>
      if IgnoresDirAt(f, root, at + [name]) then [] else PrunedAll(f, root, at + [name], children)
  }

  function PrunedAll(f: Filter, root: Place, at: Place, ns: seq<Node>): seq<Found>
    decreases ns, 0
  {
    if ns == [] then [] else PrunedAll(f, root, at, ns[..|ns| - 1]) + Pruned(f, root, at, ns[|ns| - 1])
  }

  /** The directories that walk enters. */
  function Entered(f: Filter, root: Place, at: Place, n: Node): seq<Place>
    decreases n, 1
  {
    match n
    case File(_, _) => []
    case Dir(name, children) =>
      if IgnoresDirAt(f, root, at + [name]) then [] else [at + [name]] + EnteredAll(f, root, at + [name], children)
  }

  function EnteredAll(f: Filter, root: Place, at: Place, ns: seq<Node>): seq<Place>
    decreases ns, 0
  {
    if ns == [] then [] else EnteredAll(f, root, at, ns[..|ns| - 1]) + Entered(f, root, at, ns[|ns| - 1])
  }

  /** The elements of a list that a test accepts. */
  function Select(keep: Found -> bool, fs: seq<Found>): seq<Found>
  {
    if fs == [] then [] else
    var n := |fs| - 1;
    Select(keep, fs[..n]) + (if keep(fs[n]) then [fs[n]] else [])
  }

  lemma {:induction false} SelectConcat(keep: Found -> bool, xs: seq<Found>, ys: seq<Found>)
    ensures Select(keep, xs + ys) == Select(keep, xs) + Select(keep, ys)
  {
    if ys == [] {
      assert xs + ys == xs;
    } else {
      var n := |ys| - 1;
      SelectConcat(keep, xs, ys[..n]);
      assert (xs + ys)[..|xs + ys| - 1] == xs + ys[..n];
    }
  }

  lemma SelectOne(keep: Found -> bool, x: Found)
    ensures Select(keep, [x]) == if keep(x) then [x] else []
  {
    assert [x][..0] == [];
  }

  lemma {:induction false} SelectMembers(keep: Found -> bool, fs: seq<Found>)
    ensures forall x :: x in Select(keep, fs) <==> x in fs && keep(x)
  {
    if fs != [] {
      SelectMembers(keep, fs[..|fs| - 1]);
      assert fs == fs[..|fs| - 1] + [fs[|fs| - 1]];
    }
  }

  /** The files of a list that ShouldIgnoreFile accepts. */
  function Kept(f: Filter, root: Place, fs: seq<Found>): seq<Found>
  {
    Select((x: Found) => !IgnoresFileAt(f, root, x.path), fs)
  }

  lemma KeptConcat(f: Filter, root: Place, xs: seq<Found>, ys: seq<Found>)
    ensures Kept(f, root, xs + ys) == Kept(f, root, xs) + Kept(f, root, ys)
  {
    SelectConcat((x: Found) => !IgnoresFileAt(f, root, x.path), xs, ys);
  }

  lemma KeptOne(f: Filter, root: Place, x: Found)
    ensures Kept(f, root, [x]) == if IgnoresFileAt(f, root, x.path) then [] else [x]
  {
    SelectOne((y: Found) => !IgnoresFileAt(f, root, y.path), x);
  }

  /** Beneath an ignored directory the full walk finds nothing to keep. */
  lemma {:induction false} NothingBeneath(f: Filter, root: Place, dir: Place, more: Place, n: Node)
    requires Scoped(f, root) && Names(dir) && Names(more) && WellNamed(n) && IgnoresDirAt(f, root, dir)
    ensures Kept(f, root, Full(dir + more, n)) == []
    decreases n, 1
  {
    match n
    case File(name, info) =>
      IgnoredFilesBeneath(f, root, dir, more, name);
      KeptOne(f, root, Found(dir + more + [name], info));
    case Dir(name, children) =>
      assert dir + more + [name] == dir + (more + [name]);
      NothingBeneathAll(f, root, dir, more + [name], children);
  }

  lemma {:induction false} NothingBeneathAll(f: Filter, root: Place, dir: Place, more: Place, ns: seq<Node>)
    requires Scoped(f, root) && Names(dir) && Names(more) && AllWellNamed(ns) && IgnoresDirAt(f, root, dir)
    ensures Kept(f, root, FullAll(dir + more, ns)) == []
    decreases ns, 0
  {
    hide IgnoresDir, IgnoresFile;
    if ns != [] {
      var n := |ns| - 1;
      NothingBeneathAll(f, root, dir, more, ns[..n]);
      NothingBeneath(f, root, dir, more, ns[n]);
      KeptConcat(f, root, FullAll(dir + more, ns[..n]), Full(dir + more, ns[n]));
    }
  }

  /** Pruning changes nothing: the walk that skips ignored directories finds exactly the files that
      ShouldIgnoreFile accepts in the whole tree. */
  lemma {:induction false} PrunedIsFiltered(f: Filter, root: Place, at: Place, n: Node)
    requires Scoped(f, root) && Names(at) && WellNamed(n)
    ensures Pruned(f, root, at, n) == Kept(f, root, Full(at, n))
    decreases n, 1
  {
    match n
    case File(name, info) => KeptOne(f, root, Found(at + [name], info));
    case Dir(name, children) =>
      var dir := at + [name];
      if IgnoresDirAt(f, root, dir) {
        NothingBeneathAll(f, root, dir, [], children);
        assert dir + [] == dir;
      } else {
        PrunedAllIsFiltered(f, root, dir, children);
      }
  }

  lemma {:induction false} PrunedAllIsFiltered(f: Filter, root: Place, at: Place, ns: seq<Node>)
    requires Scoped(f, root) && Names(at) && AllWellNamed(ns)
    ensures PrunedAll(f, root, at, ns) == Kept(f, root, FullAll(at, ns))
    decreases ns, 0
  {
    if ns != [] {
      var n := |ns| - 1;
      PrunedAllIsFiltered(f, root, at, ns[..n]);
      PrunedIsFiltered(f, root, at, ns[n]);
      KeptConcat(f, root, FullAll(at, ns[..n]), Full(at, ns[n]));
    }
  }

  // ---------------------------------------------------------------- what the walks visit, by path

  /** Node `n` stands at `rel` in a listing. */
  ghost predicate Holds(ns: seq<Node>, rel: Place, n: Node)
    decreases |rel|
  {
    rel != [] && exists i :: 0 <= i < |ns| && At(ns[i], rel, n)
  }

  ghost predicate At(m: Node, rel: Place, n: Node)
    requires rel != []
    decreases |rel|, 0
  {
    m.name == rel[0] && (if |rel| == 1 then m == n else m.Dir? && Holds(m.children, rel[1..], n))
  }

  lemma HoldsMore(ns: seq<Node>, m: Node, rel: Place, n: Node)
    ensures Holds(ns + [m], rel, n) <==> Holds(ns, rel, n) || (rel != [] && At(m, rel, n))
  {
    var all := ns + [m];
    if Holds(ns, rel, n) {
      var i :| 0 <= i < |ns| && At(ns[i], rel, n);
      assert At(all[i], rel, n);
    }
    if rel != [] && At(m, rel, n) {
      assert At(all[|ns|], rel, n);
    }
  }

  /** No directory on the way from `at` down to `at + rel`, the last one included, is ignored. */
  ghost predicate Open(f: Filter, root: Place, at: Place, rel: Place)
  {
    forall k :: 0 < k <= |rel| ==> !IgnoresDirAt(f, root, at + rel[..k])
  }

  lemma OpenDown(f: Filter, root: Place, at: Place, rel: Place)
    requires rel != []
    ensures Open(f, root, at, rel) <==> !IgnoresDirAt(f, root, at + [rel[0]]) && Open(f, root, at + [rel[0]], rel[1..])
  {
    hide IgnoresDir;
    forall k | 0 < k <= |rel|
      ensures at + rel[..k] == at + [rel[0]] + rel[1..][..k - 1]
    {}
    if !IgnoresDirAt(f, root, at + [rel[0]]) && Open(f, root, at + [rel[0]], rel[1..]) {
      forall k | 0 < k <= |rel|
        ensures !IgnoresDirAt(f, root, at + rel[..k])
      {
        assert k == 1 ==> at + rel[..k] == at + [rel[0]];
        assert k > 1 ==> !IgnoresDirAt(f, root, at + [rel[0]] + rel[1..][..k - 1]);
      }
    }
    if Open(f, root, at, rel) {
      assert at + rel[..1] == at + [rel[0]];
      forall k | 0 < k <= |rel[1..]|
        ensures !IgnoresDirAt(f, root, at + [rel[0]] + rel[1..][..k])
      {
        assert !IgnoresDirAt(f, root, at + rel[..k + 1]);
      }
    }
  }

  ghost predicate DirIn(ns: seq<Node>, rel: Place) { exists n: Node :: n.Dir? && Holds(ns, rel, n) }

  ghost predicate DirAt(m: Node, rel: Place)
    requires rel != []
  {
    exists n: Node :: n.Dir? && At(m, rel, n)
  }

  ghost predicate FileIn(ns: seq<Node>, rel: Place, info: Option<FileState>)
  {
    rel != [] && Holds(ns, rel, File(rel[|rel| - 1], info))
  }

  lemma DirInMore(ns: seq<Node>, m: Node, rel: Place)
    ensures DirIn(ns + [m], rel) <==> DirIn(ns, rel) || (rel != [] && DirAt(m, rel))
  {
    hide Holds, At;
    forall n
      ensures Holds(ns + [m], rel, n) <==> Holds(ns, rel, n) || (rel != [] && At(m, rel, n))
    {
      HoldsMore(ns, m, rel, n);
    }
  }

  lemma DirAtDown(m: Node, rel: Place)
    requires rel != []
    ensures DirAt(m, rel) <==> m.Dir? && m.name == rel[0] && (rel == [m.name] || DirIn(m.children, rel[1..]))
  {
    hide Holds;
    if m.Dir? && rel == [m.name] {
      assert At(m, rel, m);
    }
    if m.Dir? && m.name == rel[0] && DirIn(m.children, rel[1..]) {
      var n: Node :| n.Dir? && Holds(m.children, rel[1..], n);
      assert rel[1..] != [] by { HoldsSomething(m.children, rel[1..], n); }
      assert At(m, rel, n);
    }
  }

  lemma HoldsSomething(ns: seq<Node>, rel: Place, n: Node)
    requires Holds(ns, rel, n)
    ensures rel != []
  {}

  ghost predicate Beneath(at: Place, d: Place) { |at| < |d| && at <= d }

  lemma {:induction false} EnteredBeneath(f: Filter, root: Place, at: Place, n: Node)
    ensures forall d :: d in Entered(f, root, at, n) ==> Beneath(at, d) && d[|at|] == n.name
    decreases n, 1
  {
    hide IgnoresDir;
    match n
    case File(_, _) =>
    case Dir(name, children) => EnteredAllBeneath(f, root, at + [name], children);
  }

  lemma {:induction false} EnteredAllBeneath(f: Filter, root: Place, at: Place, ns: seq<Node>)
    ensures forall d :: d in EnteredAll(f, root, at, ns) ==> Beneath(at, d)
    decreases ns, 0
  {
    hide IgnoresDir;
    if ns != [] {
      EnteredAllBeneath(f, root, at, ns[..|ns| - 1]);
      EnteredBeneath(f, root, at, ns[|ns| - 1]);
    }
  }

  lemma {:induction false} EnteredByPath(f: Filter, root: Place, at: Place, n: Node, rel: Place)
    requires rel != []
    ensures at + rel in Entered(f, root, at, n) <==> DirAt(n, rel) && Open(f, root, at, rel)
    decreases n, 1
  {
    hide IgnoresDir, DirAt, DirIn, Open;
    OpenDown(f, root, at, rel);
    DirAtDown(n, rel);
    EnteredBeneath(f, root, at, n);
    if n.Dir? && n.name == rel[0] {
      assert at + rel == at + [n.name] + rel[1..];
      EnteredAllByPath(f, root, at + [n.name], n.children, rel[1..]);
      assert rel == [rel[0]] + rel[1..];
      if rel == [n.name] {
        OpenHere(f, root, at + [n.name]);
      }
    } else {
      assert (at + rel)[|at|] == rel[0];
    }
  }

  lemma OpenHere(f: Filter, root: Place, at: Place)
    ensures Open(f, root, at, [])
  {}

  /** A directory of the tree is entered exactly if neither it nor a directory above it, below the start of the
      walk, is ignored: an empty one just like any other. */
  lemma {:induction false} EnteredAllByPath(f: Filter, root: Place, at: Place, ns: seq<Node>, rel: Place)
    ensures at + rel in EnteredAll(f, root, at, ns) <==> DirIn(ns, rel) && Open(f, root, at, rel)
    decreases ns, 0
  {
    hide IgnoresDir, DirAt, Open, At;
    if rel == [] {
      EnteredAllBeneath(f, root, at, ns);
      assert at + rel == at;
    } else if ns != [] {
      var n := |ns| - 1;
      EnteredAllByPath(f, root, at, ns[..n], rel);
      EnteredByPath(f, root, at, ns[n], rel);
      DirInMore(ns[..n], ns[n], rel);
      assert ns == ns[..n] + [ns[n]];
    }
  }

  // the same for the files of the full walk

  lemma {:induction false} FullBeneath(at: Place, n: Node)
    ensures forall x :: x in Full(at, n) ==> Beneath(at, x.path) && x.path[|at|] == n.name
    decreases n, 1
  {
    match n
    case File(_, _) =>
    case Dir(name, children) => FullAllBeneath(at + [name], children);
  }

  lemma {:induction false} FullAllBeneath(at: Place, ns: seq<Node>)
    ensures forall x :: x in FullAll(at, ns) ==> Beneath(at, x.path)
    decreases ns, 0
  {
    if ns != [] {
      FullAllBeneath(at, ns[..|ns| - 1]);
      FullBeneath(at, ns[|ns| - 1]);
    }
  }

  lemma {:induction false} FullByPath(at: Place, n: Node, rel: Place, info: Option<FileState>)
    requires rel != []
    ensures Found(at + rel, info) in Full(at, n) <==> At(n, rel, File(rel[|rel| - 1], info))
    decreases n, 1
  {
    hide Holds;
    FullBeneath(at, n);
    match n
    case File(name, i) =>
      assert (at + rel)[|at|] == rel[0];
      assert at + rel == at + [name] <==> rel == [name] by { assert (at + rel)[|at|..] == rel && (at + [name])[|at|..] == [name]; }
    case Dir(name, children) =>
      if name == rel[0] {
        assert at + rel == at + [name] + rel[1..];
        FullAllByPath(at + [name], children, rel[1..], info);
      } else {
        assert (at + rel)[|at|] == rel[0];
      }
  }

  /** The full walk finds exactly the files of the tree, each with what Info answers for it. */
  lemma {:induction false} FullAllByPath(at: Place, ns: seq<Node>, rel: Place, info: Option<FileState>)
    ensures Found(at + rel, info) in FullAll(at, ns) <==> FileIn(ns, rel, info)
    decreases ns, 0
  {
    hide At;
    if rel == [] {
      FullAllBeneath(at, ns);
      assert at + rel == at;
    } else if ns != [] {
      var n := |ns| - 1;
      FullAllByPath(at, ns[..n], rel, info);
      FullByPath(at, ns[n], rel, info);
      HoldsMore(ns[..n], ns[n], rel, File(rel[|rel| - 1], info));
      assert ns == ns[..n] + [ns[n]];
    }
  }


  function Parent(path: Place): Place { if path == [] then [] else path[..|path| - 1] }

  /** Every file found lies in the directory the walk started from or in one that it entered. */
  ghost predicate Covered(at: Place, dirs: seq<Place>, fs: seq<Found>)
  {
    forall i :: 0 <= i < |fs| ==> Parent(fs[i].path) == at || Parent(fs[i].path) in dirs
  }

  lemma {:induction false} WatchesCover(f: Filter, root: Place, at: Place, n: Node)
    ensures Covered(at, Entered(f, root, at, n), Pruned(f, root, at, n))
    decreases n, 1
  {
    match n
    case File(name, _) => assert (at + [name])[..|at|] == at;
    case Dir(name, children) => WatchesCoverAll(f, root, at + [name], children);
  }

  /** Notification mode covers poll mode: each file a scan would report has its directory watched. */
  lemma {:induction false} WatchesCoverAll(f: Filter, root: Place, at: Place, ns: seq<Node>)
    ensures Covered(at, EnteredAll(f, root, at, ns), PrunedAll(f, root, at, ns))
    decreases ns, 0
  {
    if ns != [] {
      WatchesCoverAll(f, root, at, ns[..|ns| - 1]);
      WatchesCover(f, root, at, ns[|ns| - 1]);
    }
  }
}

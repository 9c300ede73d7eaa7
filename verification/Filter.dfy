/**
 Which paths matter: the ignore rules, matched against the components of a path below the watched root.

 A path is its components: whether it starts at the file-system root, and what lies between its slashes.
 `Clean`, `Base`, `Dir`, `Join` and `Rel` are path/filepath's functions of the same names on a Unix system.
 */
module Filter {
  import opened Optional

  // ---------------------------------------------------------------- strings

  predicate HasPrefix(s: string, prefix: string) { prefix <= s }

  predicate HasSuffix(s: string, suffix: string) { |suffix| <= |s| && s[|s| - |suffix|..] == suffix }

  function LowerChar(c: char): char { if 'A' <= c <= 'Z' then c - 'A' + 'a' else c }

  function ToLower(s: string): string { seq(|s|, i requires 0 <= i < |s| => LowerChar(s[i])) }

  /** filepath.Ext of a base name: from its last dot on, empty if it has none. */
  function Ext(base: string): string
  {
    if base == [] then ""
    else if base[|base| - 1] == '.' then "."
    else var e := Ext(base[..|base| - 1]); if e == "" then "" else e + [base[|base| - 1]]
  }

  // ---------------------------------------------------------------- lexical paths

  datatype Path = Path(rooted: bool, parts: seq<string>)

  /** One component onto a cleaned stack. */
  function Push(rooted: bool, stack: seq<string>, part: string): seq<string>
  {
    if part == "" || part == "." then stack
    else if part != ".." then stack + [part]
    else if stack != [] && stack[|stack| - 1] != ".." then stack[..|stack| - 1]
    else if rooted then stack
    else stack + [".."]
  }

  function CleanParts(rooted: bool, parts: seq<string>): seq<string>
  {
    if parts == [] then [] else Push(rooted, CleanParts(rooted, parts[..|parts| - 1]), parts[|parts| - 1])
  }

  /** The empty relative path stands for ".". */
  function Clean(p: Path): Path { Path(p.rooted, CleanParts(p.rooted, p.parts)) }

  function TrimSlashes(parts: seq<string>): seq<string>
  {
    if parts != [] && parts[|parts| - 1] == "" then TrimSlashes(parts[..|parts| - 1]) else parts
  }

  function Base(p: Path): string
  {
    var parts := TrimSlashes(p.parts);
    if parts != [] then parts[|parts| - 1] else if p.rooted then "/" else "."
  }

  /** Everything before the last slash, cleaned. */
  function Dir(p: Path): Path
  {
    if p.parts == [] then Clean(p) else Clean(Path(p.rooted, p.parts[..|p.parts| - 1]))
  }

  /** filepath.Join of an absolute directory and a relative path. */
  function Join(root: seq<string>, rel: seq<string>): Path { Clean(Path(true, root + rel)) }

  function Common(a: seq<string>, b: seq<string>): (k: nat)
    ensures k <= |a| && k <= |b| && a[..k] == b[..k]
    ensures k < |a| && k < |b| ==> a[k] != b[k]
  {
    if a == [] || b == [] || a[0] != b[0] then 0 else 1 + Common(a[1..], b[1..])
  }

  function Ups(n: nat): seq<string> { seq(n, _ => "..") }

  /** filepath.Rel to a cleaned absolute root; relative targets have no answer. */
  function Rel(root: seq<string>, p: Path): Option<seq<string>>
  {
    var t := Clean(p);
    if !t.rooted then None
    else var k := Common(root, t.parts); Some(Ups(|root| - k) + t.parts[k..])
  }

  /** A file or directory name as the operating system returns it. */
  predicate Name(s: string) { s != "" && s != "." && s != ".." && '/' !in s }

  predicate Names(parts: seq<string>) { forall i :: 0 <= i < |parts| ==> Name(parts[i]) }

  // ---------------------------------------------------------------- the filter

  datatype Options = Options(includeExt: seq<string>, excludeDir: seq<string>, includeDir: seq<string>)

  datatype Filter = Filter(ignoredDirs: set<string>, ignoredExts: set<string>, includeExts: set<string>,
                           allowedDirs: set<string>, root: Option<seq<string>>)

  const DEFAULT_IGNORED_DIRS := [
    ".git", ".svn", ".hg", "node_modules", ".npm", ".yarn", ".pnpm-store", "vendor", "bin", "dist", "build",
    "target", "obj", "venv", ".idea", ".vscode", "__pycache__", ".cache", "coverage", "tmp", "temp"]

  const DEFAULT_IGNORED_EXTS := [
    ".swp", ".swx", ".tmp", ".temp", ".bak", ".orig", ".pyc", ".pyo", ".class", ".o", ".a", ".so", ".dylib", ".test"]

  /** What New promises of every directory name and extension: an include beats every other rule. */
  ghost predicate Configured(f: Filter, o: Options)
  {
    && f.root.None?
    && (forall d :: d in f.allowedDirs <==> d in o.includeDir)
    && (forall e :: e in f.includeExts <==> e in o.includeExt)
    && (forall d :: d in f.ignoredDirs <==> (d in DEFAULT_IGNORED_DIRS || d in o.excludeDir) && d !in o.includeDir)
    && (forall e :: e in f.ignoredExts <==> e in DEFAULT_IGNORED_EXTS && e !in o.includeExt)
  }

  /** Sets every key of a list: `m[x] = true`. */
  method AddAll(m: set<string>, xs: seq<string>) returns (r: set<string>)
    ensures forall x :: x in r <==> x in m || x in xs
  {
    r := m;
    for i := 0 to |xs|
      invariant forall x :: x in r <==> x in m || x in xs[..i]
    {
      r := r + {xs[i]};
    }
  }

  /** Deletes every key of a list. */
  method DeleteAll(m: set<string>, xs: seq<string>) returns (r: set<string>)
    ensures forall x :: x in r <==> x in m && x !in xs
  {
    r := m;
    for i := 0 to |xs|
      invariant forall x :: x in r <==> x in m && x !in xs[..i]
    {
      r := r - {xs[i]};
    }
  }

  method New(o: Options) returns (f: Filter)
    ensures Configured(f, o)
  {
    var ignoredDirs := AddAll({}, DEFAULT_IGNORED_DIRS);
    var ignoredExts := AddAll({}, DEFAULT_IGNORED_EXTS);
    ignoredDirs := AddAll(ignoredDirs, o.excludeDir);
    var allowedDirs := AddAll({}, o.includeDir);
    ignoredDirs := DeleteAll(ignoredDirs, o.includeDir);
    var includeExts := AddAll({}, o.includeExt);
    ignoredExts := DeleteAll(ignoredExts, o.includeExt);
    f := Filter(ignoredDirs, ignoredExts, includeExts, allowedDirs, None);
  }

  function WithRoot(f: Filter, root: seq<string>): Filter { f.(root := Some(root)) }

  /** The part of a path below the root; paths outside it are judged whole. */
  function Scope(f: Filter, p: Path): Path
  {
    match f.root
    case None => p
    case Some(root) =>
      match Rel(root, p)
      case None => p
      case Some(rel) => if rel != [] && rel[0] == ".." then p else Path(false, rel)
  }

  /** A component that makes everything beneath it ignored. */
  predicate Bad(f: Filter, part: string)
  {
    && part != "" && part != "." && part != ".."
    && part !in f.allowedDirs
    && (part in f.ignoredDirs || HasPrefix(part, "."))
  }

  predicate AnyBad(f: Filter, parts: seq<string>) { exists i :: 0 <= i < |parts| && Bad(f, parts[i]) }

  predicate IgnoresDir(f: Filter, p: Path) { AnyBad(f, Clean(Scope(f, p)).parts) }

  /** Editor droppings, artefacts and extensions nobody asked for. */
  predicate BadBase(f: Filter, base: string)
  {
    var ext := ToLower(Ext(base));
    || HasPrefix(base, ".#") || HasPrefix(base, ".") || HasSuffix(base, "~")
    || (HasPrefix(base, "#") && HasSuffix(base, "#"))
    || ext in f.ignoredExts
    || (f.includeExts != {} && ext !in f.includeExts)
  }

  predicate IgnoresFile(f: Filter, p: Path) { BadBase(f, Base(p)) || IgnoresDir(f, Dir(p)) }

  /** The loop over the components of the scoped path. */
  method ShouldIgnoreDir(f: Filter, p: Path) returns (ignore: bool)
    ensures ignore == IgnoresDir(f, p)
  {
    var parts := Clean(Scope(f, p)).parts;
    for i := 0 to |parts|
      invariant !AnyBad(f, parts[..i])
    {
      var part := parts[i];
      if part == "" || part == "." || part == ".." {
        continue;
      }
      if part in f.allowedDirs {
        continue;
      }
      if part in f.ignoredDirs {
        return true;
      }
      if HasPrefix(part, ".") {
        return true;
      }
    }
    assert parts[..|parts|] == parts;
    return false;
  }

  method ShouldIgnoreFile(f: Filter, p: Path) returns (ignore: bool)
    ensures ignore == IgnoresFile(f, p)
  {
    var base := Base(p);
    if HasPrefix(base, ".#") {
      return true;
    }
    if HasPrefix(base, ".") {
      return true;
    }
    if HasSuffix(base, "~") {
      return true;
    }
    if HasPrefix(base, "#") && HasSuffix(base, "#") {
      return true;
    }
    var ext := ToLower(Ext(base));
    if ext in f.ignoredExts {
      return true;
    }
    if f.includeExts != {} && ext !in f.includeExts {
      return true;
    }
    ignore := ShouldIgnoreDir(f, Dir(p));
  }

  /** For a configured filter the verdict on one component: includes win, then defaults, excludes and dots. */
  lemma IncludeWins(f: Filter, o: Options, part: string)
    requires Configured(f, o)
    ensures Bad(f, part) <==>
      && part != "" && part != "." && part != ".." && part !in o.includeDir
      && (part in DEFAULT_IGNORED_DIRS || part in o.excludeDir || part[0] == '.')
  {}

  /** A base name is its stem and its extension, which runs from the last dot on. */
  lemma {:induction false} ExtExactly(base: string) returns (stem: string)
    ensures base == stem + Ext(base)
    ensures Ext(base) == "" <==> '.' !in base
    ensures Ext(base) != "" ==> Ext(base)[0] == '.' && '.' !in Ext(base)[1..]
  {
    stem := base;
    if base != "" {
      var p, x := base[..|base| - 1], base[|base| - 1];
      assert base == p + [x];
      if x == '.' {
        stem := p;
      } else {
        stem := ExtExactly(p);
        if Ext(p) == "" {
          stem := base;
        } else {
          assert Ext(base)[1..] == Ext(p)[1..] + [x];
        }
      }
    }
  }

  /** Lower case changes the capital letters and nothing else. */
  lemma LowerExactly(s: string)
    ensures |ToLower(s)| == |s|
    ensures forall i :: 0 <= i < |s| ==>
      if 'A' <= s[i] <= 'Z' then 'a' <= ToLower(s)[i] && ToLower(s)[i] - 'a' == s[i] - 'A' else ToLower(s)[i] == s[i]
  {}

  /** For a configured filter the verdict on a base name: hidden and backup files are always unwanted, a built-in
      artefact extension is unless it is included, and where there is an include list everything else is. */
  lemma NameVerdict(f: Filter, o: Options, base: string)
    requires Configured(f, o) && base != ""
    ensures BadBase(f, base) <==>
      || base[0] == '.' || base[|base| - 1] == '~' || (base[0] == '#' && base[|base| - 1] == '#')
      || (ToLower(Ext(base)) in DEFAULT_IGNORED_EXTS && ToLower(Ext(base)) !in o.includeExt)
      || (o.includeExt != [] && ToLower(Ext(base)) !in o.includeExt)
  {
    hide *;
    BadByName(f, base);
    ExtVerdict(f, o, ToLower(Ext(base)));
  }

  lemma BadByName(f: Filter, base: string)
    requires base != ""
    ensures BadBase(f, base) <==>
      || base[0] == '.' || base[|base| - 1] == '~' || (base[0] == '#' && base[|base| - 1] == '#')
      || ToLower(Ext(base)) in f.ignoredExts || (f.includeExts != {} && ToLower(Ext(base)) !in f.includeExts)
  {
    hide Ext, ToLower, HasPrefix, HasSuffix;
    Affixes(base);
  }

  lemma ExtVerdict(f: Filter, o: Options, ext: string)
    requires Configured(f, o)
    ensures ext in f.ignoredExts <==> ext in DEFAULT_IGNORED_EXTS && ext !in o.includeExt
    ensures f.includeExts != {} && ext !in f.includeExts <==> o.includeExt != [] && ext !in o.includeExt
  {
    assert o.includeExt != [] ==> o.includeExt[0] in f.includeExts;
    assert f.includeExts != {} ==> exists e :: e in f.includeExts;
  }

  lemma {:induction false} TrimmedEnds(parts: seq<string>)
    ensures TrimSlashes(parts) != [] ==> TrimSlashes(parts)[|TrimSlashes(parts)| - 1] != ""
  {
    if parts != [] && parts[|parts| - 1] == "" {
      TrimmedEnds(parts[..|parts| - 1]);
    }
  }

  /** A base name is never empty. */
  lemma BaseIsNamed(p: Path)
    ensures Base(p) != ""
  {
    TrimmedEnds(p.parts);
  }

  lemma Affixes(base: string)
    requires base != ""
    ensures HasPrefix(base, ".") <==> base[0] == '.'
    ensures HasPrefix(base, ".#") ==> base[0] == '.'
    ensures HasPrefix(base, "#") <==> base[0] == '#'
    ensures HasSuffix(base, "#") <==> base[|base| - 1] == '#'
    ensures HasSuffix(base, "~") <==> base[|base| - 1] == '~'
  {
    assert base[|base| - 1..] == [base[|base| - 1]];
  }

  // ---------------------------------------------------------------- cleaning

  lemma CleanAppend(rooted: bool, parts: seq<string>, part: string)
    ensures CleanParts(rooted, parts + [part]) == Push(rooted, CleanParts(rooted, parts), part)
  {
    assert (parts + [part])[..|parts|] == parts;
  }

  lemma {:induction false} CleanNames(rooted: bool, parts: seq<string>, names: seq<string>)
    requires Names(names)
    ensures CleanParts(rooted, parts + names) == CleanParts(rooted, parts) + names
  {
    if names == [] {
      assert parts + names == parts;
    } else {
      var n := |names| - 1;
      CleanNames(rooted, parts, names[..n]);
      CleanAppend(rooted, parts + names[..n], names[n]);
      assert parts + names == parts + names[..n] + [names[n]];
    }
  }

  lemma NamesAreClean(rooted: bool, names: seq<string>)
    requires Names(names)
    ensures CleanParts(rooted, names) == names
  {
    CleanNames(rooted, [], names);
    assert [] + names == names;
  }

  lemma BaseAndDir(rooted: bool, dir: seq<string>, name: string)
    requires Name(name)
    ensures Base(Path(rooted, dir + [name])) == name
    ensures Dir(Path(rooted, dir + [name])) == Path(rooted, CleanParts(rooted, dir))
  {
    assert (dir + [name])[..|dir|] == dir;
  }

  /** A relative path that, followed from a directory, leaves it. */
  predicate Escapes(rel: seq<string>) { var c := CleanParts(false, rel); c != [] && c[0] == ".." }

  lemma PushBeneath(root: seq<string>, stack: seq<string>, x: string)
    requires forall i :: 0 <= i < |stack| ==> stack[i] != ".."
    requires Push(false, stack, x) == [] || Push(false, stack, x)[0] != ".."
    ensures Push(true, root + stack, x) == root + Push(false, stack, x)
  {
    if stack != [] {
      assert (root + stack)[|root + stack| - 1] == stack[|stack| - 1];
      assert (root + stack)[..|root + stack| - 1] == root + stack[..|stack| - 1];
    }
    assert root + stack + [x] == root + (stack + [x]);
  }

  /** What escapes goes on escaping. */
  lemma EscapesAppend(p: seq<string>, x: string)
    requires Escapes(p)
    ensures Escapes(p + [x])
  {
    CleanAppend(false, p, x);
  }

  /** Appending a non-escaping relative path to a clean directory cleans to the directory plus what the
      relative path cleans to. */
  lemma {:induction false} CleanBeneath(root: seq<string>, rel: seq<string>)
    requires Names(root) && !Escapes(rel)
    ensures CleanParts(true, root + rel) == root + CleanParts(false, rel)
    decreases |rel|, 1
  {
    if rel == [] {
      NamesAreClean(true, root);
      assert root + rel == root;
    } else {
      CleanBeneathLast(root, rel[..|rel| - 1], rel[|rel| - 1]);
      assert rel == rel[..|rel| - 1] + [rel[|rel| - 1]];
    }
  }

  lemma {:induction false} CleanBeneathLast(root: seq<string>, p: seq<string>, x: string)
    requires Names(root) && !Escapes(p + [x])
    ensures CleanParts(true, root + (p + [x])) == root + CleanParts(false, p + [x])
    decreases |p| + 1, 0
  {
    hide Push;
    if Escapes(p) {
      EscapesAppend(p, x);
    }
    CleanBeneath(root, p);
    NoUps(p);
    CleanAppend(false, p, x);
    CleanAppend(true, root + p, x);
    assert root + (p + [x]) == root + p + [x];
    PushBeneath(root, CleanParts(false, p), x);
  }

  /** A cleaned relative path has its ".." components, if any, in front. */
  lemma {:induction false} NoUps(rel: seq<string>)
    requires !Escapes(rel)
    ensures forall i :: 0 <= i < |CleanParts(false, rel)| ==> CleanParts(false, rel)[i] != ".."
  {
    if rel != [] {
      NoUps(rel[..|rel| - 1]);
    }
  }

  lemma {:induction false} CommonSelf(a: seq<string>, b: seq<string>)
    ensures Common(a, a + b) == |a|
  {
    if a != [] {
      CommonSelf(a[1..], b);
      assert (a + b)[1..] == a[1..] + b;
    }
  }

  lemma CleanTwice(parts: seq<string>)
    requires !Escapes(parts)
    ensures CleanParts(false, CleanParts(false, parts)) == CleanParts(false, parts)
  {
    NoUps(parts);
    CleanIsSimple(parts);
    Simple(CleanParts(false, parts));
  }

  lemma {:induction false} CleanIsSimple(parts: seq<string>)
    ensures forall i :: 0 <= i < |CleanParts(false, parts)| ==> CleanParts(false, parts)[i] != "" && CleanParts(false, parts)[i] != "."
  {
    if parts != [] {
      CleanIsSimple(parts[..|parts| - 1]);
    }
  }

  lemma {:induction false} Simple(parts: seq<string>)
    requires forall i :: 0 <= i < |parts| ==> parts[i] != "" && parts[i] != "." && parts[i] != ".."
    ensures CleanParts(false, parts) == parts
  {
    if parts != [] {
      Simple(parts[..|parts| - 1]);
    }
  }

  // ---------------------------------------------------------------- the rules that determine Clean

  /** Cleaning goes by stages. */
  lemma {:induction false} CleanStages(rooted: bool, a: seq<string>, b: seq<string>, more: seq<string>)
    requires CleanParts(rooted, a) == CleanParts(rooted, b)
    ensures CleanParts(rooted, a + more) == CleanParts(rooted, b + more)
  {
    hide CleanParts, Push;
    if more == [] {
      assert a + more == a && b + more == b;
    } else {
      var n := |more| - 1;
      CleanStages(rooted, a, b, more[..n]);
      CleanAppend(rooted, a + more[..n], more[n]);
      CleanAppend(rooted, b + more[..n], more[n]);
      assert a + more == a + more[..n] + [more[n]] && b + more == b + more[..n] + [more[n]];
    }
  }

  /** The rules of filepath.Clean, wherever in a path they apply: empty and "." components vanish, a name followed
      by ".." vanishes with it, ".." at the front of a rooted path vanishes; and what no rule applies to, names
      after any number of ".." in front of a relative path, stays. */
  lemma CleanRules(rooted: bool, a: seq<string>, name: string, b: seq<string>, n: nat, names: seq<string>)
    requires Name(name) && Names(names)
    ensures CleanParts(rooted, a + [""] + b) == CleanParts(rooted, a + ["."] + b) == CleanParts(rooted, a + b)
    ensures CleanParts(rooted, a + [name] + [".."] + b) == CleanParts(rooted, a + b)
    ensures CleanParts(true, [".."] + b) == CleanParts(true, b)
    ensures CleanParts(rooted, names) == names && CleanParts(false, Ups(n) + names) == Ups(n) + names
  {
    hide CleanParts, Push, Ups, Name;
    Vanishes(rooted, a, "", b);
    Vanishes(rooted, a, ".", b);
    Cancels(rooted, a, name, b);
    RootStays(b);
    NamesAreClean(rooted, names);
    UpsAreClean(n);
    CleanNames(false, Ups(n), names);
  }

  lemma Vanishes(rooted: bool, a: seq<string>, part: string, b: seq<string>)
    requires part == "" || part == "."
    ensures CleanParts(rooted, a + [part] + b) == CleanParts(rooted, a + b)
  {
    hide CleanParts;
    CleanAppend(rooted, a, part);
    CleanStages(rooted, a + [part], a, b);
  }

  lemma Cancels(rooted: bool, a: seq<string>, name: string, b: seq<string>)
    requires Name(name)
    ensures CleanParts(rooted, a + [name] + [".."] + b) == CleanParts(rooted, a + b)
  {
    hide CleanParts;
    CleanAppend(rooted, a, name);
    CleanAppend(rooted, a + [name], "..");
    CleanStages(rooted, a + [name] + [".."], a, b);
  }

  lemma RootStays(b: seq<string>)
    ensures CleanParts(true, [".."] + b) == CleanParts(true, b)
  {
    CleanAppend(true, [], "..");
    assert [] + [".."] == [".."] && [] + b == b;
    hide CleanParts;
    CleanStages(true, [".."], [], b);
  }

  lemma {:induction false} UpsAreClean(n: nat)
    ensures CleanParts(false, Ups(n)) == Ups(n)
  {
    if n > 0 {
      UpsAreClean(n - 1);
      assert Ups(n) == Ups(n - 1) + [".."];
      CleanAppend(false, Ups(n - 1), "..");
    }
  }

  // ---------------------------------------------------------------- scoping to the root

  /** Seen from the root, a path beneath it is just its relative part. */
  lemma ScopeBeneath(f: Filter, root: seq<string>, rel: seq<string>)
    requires Names(root) && !Escapes(rel)
    ensures Scope(WithRoot(f, root), Join(root, rel)) == Path(false, CleanParts(false, rel))
  {
    var c := CleanParts(false, rel);
    CleanBeneath(root, rel);
    CleanTwice(rel);
    NoUps(rel);
    CleanIsSimple(rel);
    Simple(c);
    CleanBeneath(root, c);
    CommonSelf(root, c);
    assert Ups(0) + c == c;
    assert (root + c)[|root|..] == c;
  }

  /** Root scoping for directories: the rooted verdict on root/rel is the unrooted verdict on rel, whatever
      the root's own components are. */
  lemma RootDoesNotMatterForDirs(f: Filter, root: seq<string>, rel: seq<string>)
    requires f.root.None? && Names(root) && !Escapes(rel)
    ensures IgnoresDir(WithRoot(f, root), Join(root, rel)) <==> IgnoresDir(f, Path(false, rel))
  {
    ScopeBeneath(f, root, rel);
    CleanTwice(rel);
    var g := WithRoot(f, root);
    forall part: string
      ensures Bad(g, part) == Bad(f, part)
    {}
  }

  lemma CleanLast(rel: seq<string>)
    requires CleanParts(false, rel) != [] && !Escapes(rel)
    ensures var c := CleanParts(false, rel); var n := |c| - 1;
      && c[n] != "" && Base(Path(false, c)) == c[n] && CleanParts(false, c[..n]) == c[..n] && !Escapes(c[..n])
  {
    var c := CleanParts(false, rel);
    NoUps(rel);
    CleanIsSimple(rel);
    Simple(c[..|c| - 1]);
  }

  /** Root scoping for files, in general: the rooted verdict on root/rel is the unrooted verdict on what rel
      cleans to, whatever the root's own components are. */
  lemma RootedFileIsCleaned(f: Filter, root: seq<string>, rel: seq<string>)
    requires f.root.None? && Names(root) && !Escapes(rel) && CleanParts(false, rel) != []
    ensures IgnoresFile(WithRoot(f, root), Join(root, rel)) <==> IgnoresFile(f, Path(false, CleanParts(false, rel)))
  {
    hide IgnoresDir, CleanParts, Base, BadBase, Bad, Clean, Names, Escapes;
    var c := CleanParts(false, rel);
    var d, b := c[..|c| - 1], c[|c| - 1];
    CleanLast(rel);
    RootedBaseAndDir(root, rel);
    RootDoesNotMatterForDirs(f, root, d);
    DirOfCleaned(rel);
    RootIsNoRule(f, root, b);
  }

  /** The base name is judged without looking at the root. */
  lemma RootIsNoRule(f: Filter, root: seq<string>, base: string)
    ensures BadBase(WithRoot(f, root), base) <==> BadBase(f, base)
  {}

  lemma DirOfCleaned(rel: seq<string>)
    requires !Escapes(rel) && CleanParts(false, rel) != []
    ensures var c := CleanParts(false, rel); Dir(Path(false, c)) == Path(false, c[..|c| - 1])
  {
    hide CleanParts;
    CleanLast(rel);
  }

  /** What follows the root is split off the joined path as it is off the cleaned path alone. */
  lemma RootedBaseAndDir(root: seq<string>, rel: seq<string>)
    requires Names(root) && !Escapes(rel) && CleanParts(false, rel) != []
    ensures var c := CleanParts(false, rel);
      Base(Join(root, rel)) == c[|c| - 1] && Dir(Join(root, rel)) == Join(root, c[..|c| - 1])
  {
    hide CleanParts;
    var c := CleanParts(false, rel);
    var d, b := c[..|c| - 1], c[|c| - 1];
    CleanLast(rel);
    CleanBeneath(root, rel);
    assert root + c == root + d + [b];
    LastOfRooted(root, d, b);
  }

  lemma LastOfRooted(root: seq<string>, d: seq<string>, b: string)
    requires b != ""
    ensures Base(Path(true, root + d + [b])) == b && Dir(Path(true, root + d + [b])) == Join(root, d)
  {
    assert (root + d + [b])[..|root + d|] == root + d;
  }

  /** So for a file, whose last component is a name, the rooted verdict on root/rel is the unrooted verdict on rel
      itself; what comes before the name need not be clean. */
  lemma RootDoesNotMatterForFiles(f: Filter, root: seq<string>, dir: seq<string>, name: string)
    requires f.root.None? && Names(root) && !Escapes(dir) && Name(name)
    ensures IgnoresFile(WithRoot(f, root), Join(root, dir + [name])) <==> IgnoresFile(f, Path(false, dir + [name]))
  {
    hide IgnoresDir, CleanParts;
    CleanAppend(false, dir, name);
    CleanedFileAgrees(f, dir, name);
    NamedDoesNotEscape(dir, name);
    RootedFileIsCleaned(f, root, dir + [name]);
  }

  lemma NamedDoesNotEscape(dir: seq<string>, name: string)
    requires !Escapes(dir) && Name(name)
    ensures !Escapes(dir + [name])
  {
    CleanAppend(false, dir, name);
  }

  /** A file's verdict survives cleaning what comes before its name. */
  lemma CleanedFileAgrees(f: Filter, dir: seq<string>, name: string)
    requires f.root.None? && !Escapes(dir) && Name(name)
    ensures CleanParts(false, dir + [name]) == CleanParts(false, dir) + [name]
    ensures IgnoresFile(f, Path(false, CleanParts(false, dir) + [name])) <==> IgnoresFile(f, Path(false, dir + [name]))
  {
    CleanAppend(false, dir, name);
    BaseAndDir(false, dir, name);
    BaseAndDir(false, CleanParts(false, dir), name);
    CleanTwice(dir);
  }

  /** With a trailing slash it is the unrooted filter that changes its mind: it counts the last name as a
      directory, so the two verdicts agree unless that name is ignored as a directory and by nothing else. */
  lemma TrailingSlash(f: Filter, root: seq<string>, dir: seq<string>, name: string)
    requires f.root.None? && Names(root) && !Escapes(dir) && Name(name)
    ensures (IgnoresFile(WithRoot(f, root), Join(root, dir + [name, ""])) <==> IgnoresFile(f, Path(false, dir + [name, ""])))
      <==> !(Bad(f, name) && !BadBase(f, name) && !AnyBad(f, CleanParts(false, dir)))
  {
    var q := CleanParts(false, dir);
    SlashCleans(dir, name);
    NamedDoesNotEscape(dir, name);
    CleanAppend(false, dir + [name], "");
    assert dir + [name] + [""] == dir + [name, ""];
    RootedFileIsCleaned(f, root, dir + [name, ""]);
    UnrootedFile(f, dir, name);
    UnrootedSlash(f, dir, name);
    AnyBadLast(f, q, name);
  }

  lemma SlashCleans(dir: seq<string>, name: string)
    requires Name(name)
    ensures CleanParts(false, dir + [name, ""]) == CleanParts(false, dir) + [name]
  {
    CleanAppend(false, dir, name);
    CleanAppend(false, dir + [name], "");
    assert dir + [name] + [""] == dir + [name, ""];
  }

  lemma UnrootedFile(f: Filter, dir: seq<string>, name: string)
    requires f.root.None? && !Escapes(dir) && Name(name)
    ensures IgnoresFile(f, Path(false, CleanParts(false, dir) + [name])) <==> BadBase(f, name) || AnyBad(f, CleanParts(false, dir))
  {
    var q := CleanParts(false, dir);
    BaseAndDir(false, q, name);
    CleanTwice(dir);
  }

  lemma UnrootedSlash(f: Filter, dir: seq<string>, name: string)
    requires f.root.None? && !Escapes(dir) && Name(name)
    ensures IgnoresFile(f, Path(false, dir + [name, ""])) <==> BadBase(f, name) || AnyBad(f, CleanParts(false, dir) + [name])
  {
    var p := dir + [name, ""];
    assert p[..|p| - 1] == dir + [name];
    CleanAppend(false, dir, name);
    NamedDoesNotEscape(dir, name);
    CleanTwice(dir + [name]);
    assert TrimSlashes(dir + [name]) == dir + [name];
  }

  lemma AnyBadLast(f: Filter, parts: seq<string>, part: string)
    ensures AnyBad(f, parts + [part]) <==> AnyBad(f, parts) || Bad(f, part)
  {
    AnyBadAppend(f, parts, [part]);
    assert (parts + [part])[|parts|] == part;
    if AnyBad(f, parts + [part]) {
      var i :| 0 <= i < |parts + [part]| && Bad(f, (parts + [part])[i]);
      assert i < |parts| ==> Bad(f, parts[i]);
    }
  }

  /** The unrooted verdict on what a path cleans to, in terms of its names. */
  lemma CleanedVerdict(f: Filter, rel: seq<string>)
    requires f.root.None? && !Escapes(rel) && CleanParts(false, rel) != []
    ensures var c := CleanParts(false, rel); var n := |c| - 1;
      (IgnoresFile(f, Path(false, c)) <==> BadBase(f, c[n]) || AnyBad(f, c[..n]))
  {
    var c := CleanParts(false, rel);
    var d := c[..|c| - 1];
    CleanLast(rel);
    assert Scope(f, Path(false, d)) == Path(false, d);
  }

  /** A last component "." or ".." the unrooted filter takes for a hidden file; so there the two verdicts agree
      exactly if the last name of the cleaned path is unwanted or one before it is bad. */
  lemma TrailingDots(f: Filter, root: seq<string>, dir: seq<string>, dots: string)
    requires f.root.None? && Names(root) && (dots == "." || dots == "..")
    requires !Escapes(dir + [dots]) && CleanParts(false, dir + [dots]) != []
    ensures var c := CleanParts(false, dir + [dots]); var n := |c| - 1;
      ((IgnoresFile(WithRoot(f, root), Join(root, dir + [dots])) <==> IgnoresFile(f, Path(false, dir + [dots])))
       <==> BadBase(f, c[n]) || AnyBad(f, c[..n]))
  {
    hide IgnoresDir, CleanParts;
    RootedFileIsCleaned(f, root, dir + [dots]);
    CleanedVerdict(f, dir + [dots]);
    assert Base(Path(false, dir + [dots])) == dots;
  }

  /** A path that cleans to nothing ends in dots, or is empty. */
  lemma {:induction false} BaseOfNothing(rel: seq<string>)
    requires !Escapes(rel) && CleanParts(false, rel) == []
    ensures Base(Path(false, rel)) == "." || Base(Path(false, rel)) == ".."
  {
    if rel != [] {
      var p, x := rel[..|rel| - 1], rel[|rel| - 1];
      CleanAppend(false, p, x);
      assert p + [x] == rel;
      if x == "" {
        BaseOfNothing(p);
      }
    }
  }

  /** The one path left, the root itself.  The unrooted filter always takes it for a hidden file ... */
  lemma TheRootAlone(f: Filter, rel: seq<string>)
    requires !Escapes(rel) && CleanParts(false, rel) == []
    ensures IgnoresFile(f, Path(false, rel))
  {
    BaseOfNothing(rel);
  }

  /** ... while beneath a root its own name and its ancestors decide, so the two agree exactly if the root's name
      is unwanted as a file's or one of its ancestors is bad. */
  lemma TheRootItself(f: Filter, root: seq<string>, rel: seq<string>)
    requires f.root.None? && Names(root) && root != [] && !Escapes(rel) && CleanParts(false, rel) == []
    ensures IgnoresFile(WithRoot(f, root), Join(root, rel)) <==>
      BadBase(f, root[|root| - 1]) || AnyBad(f, root[..|root| - 1])
  {
    hide IgnoresDir, CleanParts;
    var g, above, name := WithRoot(f, root), root[..|root| - 1], root[|root| - 1];
    CleanBeneath(root, rel);
    assert root + [] == root == above + [name];
    BaseAndDir(true, above, name);
    NamesAreClean(true, above);
    VerdictAnywhere(g, root, above);
    SameBad(f, root, above);
  }

  lemma SameBad(f: Filter, root: seq<string>, parts: seq<string>)
    ensures AnyBad(WithRoot(f, root), parts) <==> AnyBad(f, parts)
  {
    forall part: string
      ensures Bad(WithRoot(f, root), part) == Bad(f, part)
    {}
  }

  /** Watching the file-system root itself, only the name "/" is left to judge. */
  lemma TheTopItself(f: Filter, rel: seq<string>)
    requires f.root.None? && !Escapes(rel) && CleanParts(false, rel) == []
    ensures IgnoresFile(WithRoot(f, []), Join([], rel)) <==> BadBase(f, "/")
  {
    hide CleanParts;
    CleanBeneath([], rel);
    TopIsClean();
    VerdictAnywhere(WithRoot(f, []), [], []);
  }

  lemma TopIsClean()
    ensures CleanParts(true, []) == []
  {}

  lemma PlainName(f: Filter, o: Options, name: string)
    requires Configured(f, o) && o.includeExt == [] && name != "" && '.' !in name && '#' !in name && '~' !in name
    ensures !BadBase(f, name)
  {
    NoDotNoExt(name);
    assert ToLower("") == "" && "" !in DEFAULT_IGNORED_EXTS;
    assert name[0] != '.' && name[0] != '#' && name[|name| - 1] != '~';
    assert f.includeExts == {};
  }

  /** The verdicts do differ: node_modules/ is ignored by itself, but not beneath a root. */
  lemma SlashMatters(f: Filter, o: Options, root: seq<string>)
    requires Configured(f, o) && Names(root) && o.includeDir == [] && o.includeExt == []
    ensures IgnoresFile(f, Path(false, ["node_modules", ""]))
    ensures !IgnoresFile(WithRoot(f, root), Join(root, ["node_modules", ""]))
  {
    var name := "node_modules";
    assert name in DEFAULT_IGNORED_DIRS && Bad(f, name);
    PlainName(f, o, name);
    assert [] + [name, ""] == [name, ""];
    TrailingSlash(f, root, [], name);
    UnrootedSlash(f, [], name);
    AnyBadLast(f, [], name);
  }

  lemma {:induction false} NoDotNoExt(base: string)
    requires '.' !in base
    ensures Ext(base) == ""
  {
    if base != "" {
      NoDotNoExt(base[..|base| - 1]);
    }
  }

  // ---------------------------------------------------------------- the verdict on a tree below the root

  lemma ScopeNames(f: Filter, root: seq<string>, names: seq<string>)
    requires f.root == Some(root) && Names(root) && Names(names)
    ensures Scope(f, Path(true, root + names)) == Path(false, names)
  {
    NamesAreClean(true, root + names);
    CommonSelf(root, names);
    assert Ups(0) + names == names;
    assert (root + names)[|root|..] == names;
  }

  lemma DirVerdict(f: Filter, root: seq<string>, names: seq<string>)
    requires f.root == Some(root) && Names(root) && Names(names)
    ensures IgnoresDir(f, Path(true, root + names)) <==> AnyBad(f, names)
  {
    ScopeNames(f, root, names);
    NamesAreClean(false, names);
  }

  lemma FileVerdict(f: Filter, root: seq<string>, dir: seq<string>, name: string)
    requires f.root == Some(root) && Names(root) && Names(dir) && Name(name)
    ensures IgnoresFile(f, Path(true, root + (dir + [name]))) <==> BadBase(f, name) || AnyBad(f, dir)
  {
    assert root + (dir + [name]) == root + dir + [name];
    BaseAndDir(true, root + dir, name);
    NamesAreClean(true, root + dir);
    DirVerdict(f, root, dir);
  }

  lemma AnyBadAppend(f: Filter, parts: seq<string>, more: seq<string>)
    ensures AnyBad(f, parts) ==> AnyBad(f, parts + more)
  {
    if AnyBad(f, parts) {
      var i :| 0 <= i < |parts| && Bad(f, parts[i]);
      assert Bad(f, (parts + more)[i]);
    }
  }

  /** Ignoring a directory of the watched tree implies ignoring every directory beneath it ... */
  lemma IgnoredDirsBeneath(f: Filter, root: seq<string>, dir: seq<string>, more: seq<string>)
    requires f.root == Some(root) && Names(root) && Names(dir) && Names(more)
    requires IgnoresDir(f, Path(true, root + dir))
    ensures IgnoresDir(f, Path(true, root + (dir + more)))
  {
    DirVerdict(f, root, dir);
    DirVerdict(f, root, dir + more);
    AnyBadAppend(f, dir, more);
  }

  /** ... and every file. */
  lemma IgnoredFilesBeneath(f: Filter, root: seq<string>, dir: seq<string>, more: seq<string>, name: string)
    requires f.root == Some(root) && Names(root) && Names(dir) && Names(more) && Name(name)
    requires IgnoresDir(f, Path(true, root + dir))
    ensures IgnoresFile(f, Path(true, root + (dir + more + [name])))
  {
    DirVerdict(f, root, dir);
    FileVerdict(f, root, dir + more, name);
    AnyBadAppend(f, dir, more);
  }

  // ---------------------------------------------------------------- the verdict on any absolute path

  /** The components that are judged: those below the root, or all of them outside it. */
  function Judged(root: seq<string>, names: seq<string>): seq<string>
  {
    if root <= names then names[|root|..] else names
  }

  lemma ScopeOutside(f: Filter, root: seq<string>, names: seq<string>)
    requires f.root == Some(root) && Names(names) && !(root <= names)
    ensures Scope(f, Path(true, names)) == Path(true, names)
  {
    NamesAreClean(true, names);
    var k := Common(root, names);
    assert root[..k] == names[..k];
    assert root[..|root|] == root;
    assert (Ups(|root| - k) + names[k..])[0] == "..";
  }

  lemma VerdictAnywhere(f: Filter, root: seq<string>, names: seq<string>)
    requires f.root == Some(root) && Names(root) && Names(names)
    ensures IgnoresDir(f, Path(true, names)) <==> AnyBad(f, Judged(root, names))
  {
    if root <= names {
      assert names == root + names[|root|..];
      DirVerdict(f, root, names[|root|..]);
    } else {
      ScopeOutside(f, root, names);
      NamesAreClean(true, names);
    }
  }

  /** A relative path has no place below a root, so all of its names are judged. */
  lemma RelativeVerdict(f: Filter, names: seq<string>)
    requires Names(names)
    ensures IgnoresDir(f, Path(false, names)) <==> AnyBad(f, names)
  {
    NamesAreClean(false, names);
  }

  /** Given that a directory is ignored, what is judged of a path beneath it condemns that path too, unless
      the root lies between the two and nothing below the root is bad. */
  lemma JudgedBeneath(f: Filter, root: seq<string>, dir: seq<string>, more: seq<string>)
    requires AnyBad(f, Judged(root, dir))
    ensures AnyBad(f, Judged(root, dir + more)) <==>
      (root <= dir + more && !(root <= dir) ==> AnyBad(f, (dir + more)[|root|..]))
  {
    AnyBadAppend(f, Judged(root, dir), more);
    if root <= dir {
      assert (dir + more)[|root|..] == dir[|root|..] + more;
    }
  }

  /** Anywhere in the file system, ignoring a directory implies ignoring a directory beneath it if and only
      if the step down does not enter the root, or something below the root is bad by itself. */
  lemma IgnoredBeneathExactly(f: Filter, root: seq<string>, dir: seq<string>, more: seq<string>)
    requires f.root == Some(root) && Names(root) && Names(dir) && Names(more)
    requires IgnoresDir(f, Path(true, dir))
    ensures IgnoresDir(f, Path(true, dir + more)) <==>
      (root <= dir + more && !(root <= dir) ==> AnyBad(f, (dir + more)[|root|..]))
  {
    VerdictAnywhere(f, root, dir);
    VerdictAnywhere(f, root, dir + more);
    JudgedBeneath(f, root, dir, more);
  }

  /** The same for a file beneath it, which may also be unwanted for its own name. */
  lemma IgnoredFileBeneathExactly(f: Filter, root: seq<string>, dir: seq<string>, more: seq<string>, name: string)
    requires f.root == Some(root) && Names(root) && Names(dir) && Names(more) && Name(name)
    requires IgnoresDir(f, Path(true, dir))
    ensures IgnoresFile(f, Path(true, dir + more + [name])) <==>
      BadBase(f, name) || (root <= dir + more && !(root <= dir) ==> AnyBad(f, (dir + more)[|root|..]))
  {
    IgnoredBeneathExactly(f, root, dir, more);
    BaseAndDir(true, dir + more, name);
    NamesAreClean(true, dir + more);
  }

  /** So a root survives an ignored ancestor: /tmp is ignored, the root /tmp/p and what lies in it are not. */
  lemma RootSurvives(f: Filter, o: Options)
    requires Configured(f, o) && "tmp" !in o.includeDir
    ensures IgnoresDir(WithRoot(f, ["tmp", "p"]), Path(true, ["tmp"]))
    ensures !IgnoresDir(WithRoot(f, ["tmp", "p"]), Path(true, ["tmp"] + ["p"]))
  {
    var g := WithRoot(f, ["tmp", "p"]);
    assert Bad(g, ["tmp"][0]);
    VerdictAnywhere(g, ["tmp", "p"], ["tmp"]);
    IgnoredBeneathExactly(g, ["tmp", "p"], ["tmp"], ["p"]);
  }
}

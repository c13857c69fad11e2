/** What the setup scripts' install commands share: the distribution object
    the commands hand information through, the filters that pick the files
    of Blender's binary directory, and the loops that stage those files in
    the build directory one by one. */
module SetupCommands {
  import opened Paths
  import opened Outcomes
  import opened FileTree
  import opened FileOps
  import opened FileSystems
  import opened Walks

  /** The attributes of setuptools' distribution object the commands set:
      the directory the build step left Blender's binaries in, and the
      library files and script directories to record for installation. */
  class Distribution {
    var binDir: Path
    var dataFiles: seq<Path>
    var scripts: seq<Path>

    constructor (binDir0: Path)
      ensures binDir == binDir0 && dataFiles == [] && scripts == []
    {
      binDir := binDir0;
      dataFiles := [];
      scripts := [];
    }
  }

  // ---------------------------------------------------------------------
  // Picking entries of a listing

  /** The elements of xs satisfying p, in their order in xs. */
  function Filter(xs: seq<Entry>, p: Entry -> bool): (r: seq<Entry>)
    ensures forall x :: x in r <==> x in xs && p(x)
    ensures |r| <= |xs|
    decreases |xs|
  {
    if xs == [] then []
    else (if p(xs[0]) then [xs[0]] else []) + Filter(xs[1..], p)
  }

  /** Taking element 0 of a filtered listing takes the listing's first
      element that satisfies the filter. */
  lemma {:induction false} FilterHeadIsFirstMatch(xs: seq<Entry>, p: Entry -> bool)
    ensures Filter(xs, p) == [] <==> FirstMatch(xs, p).None?
    ensures Filter(xs, p) != [] ==> Filter(xs, p)[0] == xs[FirstMatch(xs, p).value]
    decreases |xs|
  {
    if xs != [] && !p(xs[0]) {
      FilterHeadIsFirstMatch(xs[1..], p);
    }
  }

  /** The paths of the named entries of dir. */
  function Under(dir: Path, names: seq<Name>): (r: seq<Path>)
    ensures |r| == |names|
    ensures forall i :: 0 <= i < |r| ==> Parent(r[i]) == dir && Basename(r[i]) == names[i]
  {
    seq(|names|, i requires 0 <= i < |names| => dir + [names[i]])
  }

  /** A library the build left beside the Blender module and that must be
      installed with it: a .dll or .so whose name starts with neither
      "python" nor "bpy". */
  predicate IsAuxiliaryLib(name: Name)
  {
    SplitExt(name).1 in [".dll", ".so"]
    && !(StartsWith(name, "python") || StartsWith(name, "bpy"))
  }

  /** A file that may be the Blender module itself: its stem starts with
      "bpy" and its extension is .pyd or .so. */
  predicate IsBpyCandidate(name: Name)
  {
    StartsWith(SplitExt(name).0, "bpy") && SplitExt(name).1 in [".pyd", ".so"]
  }

  predicate IsAuxiliaryLibEntry(c: Entry)
  {
    c.File? && IsAuxiliaryLib(c.name)
  }

  predicate IsBpyCandidateEntry(c: Entry)
  {
    c.File? && IsBpyCandidate(c.name)
  }

  predicate IsDirEntry(c: Entry)
  {
    c.Dir?
  }

  /** The auxiliary libraries of binDir, in listing order. */
  function LibNames(t: Entry, binDir: Path): Result<seq<Name>>
  {
    var cs :- ListDir(t, binDir);
    Ok(Names(Filter(cs, IsAuxiliaryLibEntry)))
  }

  /** The subdirectories of binDir, in listing order. */
  function ScriptDirNames(t: Entry, binDir: Path): Result<seq<Name>>
  {
    var cs :- ListDir(t, binDir);
    Ok(Names(Filter(cs, IsDirEntry)))
  }

  /** The candidates for the Blender module in dir, in listing order. */
  function BpyCandidateNames(t: Entry, dir: Path): Result<seq<Name>>
  {
    var cs :- ListDir(t, dir);
    Ok(Names(Filter(cs, IsBpyCandidateEntry)))
  }

  /** Listing a directory fails exactly when it is not a directory. */
  lemma ListingFails(t: Entry, dir: Path)
    ensures LibNames(t, dir).Ok? <==> IsDir(t, dir)
    ensures ScriptDirNames(t, dir).Ok? <==> IsDir(t, dir)
    ensures BpyCandidateNames(t, dir).Ok? <==> IsDir(t, dir)
    ensures !IsDir(t, dir) ==>
      LibNames(t, dir).error == ScriptDirNames(t, dir).error == BpyCandidateNames(t, dir).error
      && IsFileSystemError(LibNames(t, dir).error)
  {
  }

  /** In a well-formed tree, the names a filter keeps are exactly the names
      n for which the path dir/n resolves to an entry the filter accepts. */
  lemma {:induction false} FilteredNamesSpec(t: Entry, dir: Path, p: Entry -> bool, n: Name)
    requires WellFormed(t) && IsDir(t, dir)
    ensures n in Names(Filter(Get(t, dir).value.children, p)) <==>
      Exists(t, dir + [n]) && p(Get(t, dir + [n]).value)
  {
    var d := Get(t, dir).value;
    var kept := Filter(d.children, p);
    GetWellFormed(t, dir);
    GetAppend(t, dir, [n]);
    if n in Names(kept) {
      var i :| 0 <= i < |kept| && Names(kept)[i] == n;
      assert kept[i] in d.children;
      var j :| 0 <= j < |d.children| && d.children[j] == kept[i];
      IndexOfUnique(d.children, j);
    }
    if Exists(t, dir + [n]) && p(Get(t, dir + [n]).value) {
      var j := IndexOf(d.children, n).value;
      assert d.children[j] in kept;
      var i :| 0 <= i < |kept| && kept[i] == d.children[j];
      assert Names(kept)[i] == n;
    }
  }

  /** The listings the commands use, in terms of lookups: the libraries are
      the regular files dir/n whose name qualifies, the script directories
      the directories dir/n, the module candidates the regular files dir/n
      whose name qualifies. */
  lemma ListingsSpec(t: Entry, dir: Path, n: Name)
    requires WellFormed(t) && IsDir(t, dir)
    ensures n in LibNames(t, dir).value <==> IsFile(t, dir + [n]) && IsAuxiliaryLib(n)
    ensures n in ScriptDirNames(t, dir).value <==> IsDir(t, dir + [n])
    ensures n in BpyCandidateNames(t, dir).value <==> IsFile(t, dir + [n]) && IsBpyCandidate(n)
  {
    FilteredNamesSpec(t, dir, IsAuxiliaryLibEntry, n);
    FilteredNamesSpec(t, dir, IsDirEntry, n);
    FilteredNamesSpec(t, dir, IsBpyCandidateEntry, n);
    if Exists(t, dir + [n]) {
      GetName(t, dir + [n]);
    }
  }

  /** A listing names no entry twice. */
  lemma FilteredNamesDistinct(t: Entry, dir: Path, p: Entry -> bool)
    requires WellFormed(t) && IsDir(t, dir)
    ensures Distinct(Names(Filter(Get(t, dir).value.children, p)))
  {
    GetWellFormed(t, dir);
    FilterUnique(Get(t, dir).value.children, p);
  }

  /** Filtering keeps sibling names unique. */
  lemma {:induction false} FilterUnique(xs: seq<Entry>, p: Entry -> bool)
    requires UniqueNames(xs)
    ensures UniqueNames(Filter(xs, p))
    decreases |xs|
  {
    if xs != [] {
      var rest := Filter(xs[1..], p);
      FilterUnique(xs[1..], p);
      forall k | 0 <= k < |rest| ensures rest[k].name != xs[0].name {
        assert rest[k] in xs[1..];
        var j :| 0 <= j < |xs[1..]| && xs[1..][j] == rest[k];
        assert xs[j + 1] == rest[k];
      }
    }
  }

  predicate Distinct(names: seq<Name>)
  {
    forall i, j :: 0 <= i < j < |names| ==> names[i] != names[j]
  }

  /** No file is both a module candidate and an auxiliary library: the
      module is never moved with the libraries. */
  lemma CandidateIsNotAuxiliary(name: Name)
    requires IsBpyCandidate(name)
    ensures !IsAuxiliaryLib(name)
  {
    var (stem, ext) := SplitExt(name);
    assert "bpy" <= stem;
    assert stem + ext == name;
    assert name[..3] == stem[..3];
  }

  /** Library names the filter accepts: a .so or .dll file that is neither
      the interpreter's nor the module's. */
  lemma AuxiliaryLibAccepts()
    ensures IsAuxiliaryLib("libfoo.so") && IsAuxiliaryLib("tbb.dll")
  {
    SplitExtAt("libfoo.so", 6);
    SplitExtAt("tbb.dll", 3);
    assert SplitExt("libfoo.so").1 == ".so";
    assert SplitExt("tbb.dll").1 == ".dll";
  }

  /** Library names the filter rejects: the interpreter's and the module's
      own libraries, and a versioned shared object whose extension is the
      version number. */
  lemma AuxiliaryLibRejects()
    ensures !IsAuxiliaryLib("python37.dll") && !IsAuxiliaryLib("bpy.so")
    ensures !IsAuxiliaryLib("libfoo.so.1")
  {
    SplitExtAt("libfoo.so.1", 9);
    assert SplitExt("libfoo.so.1").1 == ".1";
    assert "python" <= "python37.dll";
    assert "bpy" <= "bpy.so";
  }

  /** The module names the candidate filter accepts, with or without an
      interpreter tag. */
  lemma BpyCandidateAccepts()
    ensures IsBpyCandidate("bpy.so") && IsBpyCandidate("bpy.pyd")
  {
    SplitExtAt("bpy.so", 3);
    assert "bpy.so"[..3] == "bpy" && "bpy.so"[3..] == ".so";
    SplitExtAt("bpy.pyd", 3);
    assert "bpy.pyd"[..3] == "bpy" && "bpy.pyd"[3..] == ".pyd";
  }

  lemma BpyCandidateAcceptsTagged()
    ensures IsBpyCandidate("bpy.cpython-37m.so")
  {
    SplitExtAt("bpy.cpython-37m.so", 15);
    assert "bpy.cpython-37m.so"[..3] == "bpy" && "bpy.cpython-37m.so"[15..] == ".so";
  }

  /** Names the candidate filter rejects: a stem not starting with "bpy",
      and an extension other than .pyd or .so. */
  lemma BpyCandidateRejects()
    ensures !IsBpyCandidate("libbpy.so") && !IsBpyCandidate("bpy.dll")
  {
    SplitExtAt("libbpy.so", 6);
    assert SplitExt("libbpy.so").0 == "libbpy";
    SplitExtAt("bpy.dll", 3);
    assert SplitExt("bpy.dll").1 == ".dll";
  }

  // ---------------------------------------------------------------------
  // Staging entries in the build directory

  /** The call a staging loop makes for each entry: a plain shutil.move
      (libraries), or removing whatever directory or regular file is in the
      way and then shutil.copytree or shutil.move (script directories). */
  datatype StageKind = MoveLib | CopyReplacing | MoveReplacing

  /** The removal in front of a replacing stage: rmtree for a directory,
      os.remove for a regular file, nothing otherwise. */
  function ClearDestination(t: Entry, dst: Path): (r: Result<Entry>)
    ensures r.Err? ==> IsFileSystemError(r.error)
  {
    if IsDir(t, dst) then RmTreeTree(t, dst)
    else if IsFile(t, dst) then RemoveTree(t, dst)
    else Ok(t)
  }

  /** The tree after a call and the exception it raised, if any. */
  datatype Run = Run(tree: Entry, outcome: Outcome)

  /** A call that either completes with a new tree or raises and changes
      nothing. */
  function RunOf(t: Entry, res: Result<Entry>): (r: Run)
    ensures r.outcome == Pass <==> res.Ok?
    ensures r.outcome.Fail? ==> r.tree == t && r.outcome.error == res.error
  {
    match res
    case Ok(t1) => Run(t1, Pass)
    case Err(e) => Run(t, Fail(e))
  }

  /** One stage; after a removal that succeeded, a failing copy or move
      leaves the removal done. */
  function StageItem(t: Entry, kind: StageKind, src: Path, dst: Path): (r: Run)
    ensures r.outcome.Fail? ==> IsFileSystemError(r.outcome.error)
  {
    match kind
    case MoveLib => RunOf(t, MoveTree(t, src, dst))
    case CopyReplacing =>
      (match ClearDestination(t, dst)
       case Err(e) => Run(t, Fail(e))
       case Ok(t1) => RunOf(t1, CopyTreeTree(t1, src, dst)))
    case MoveReplacing =>
      (match ClearDestination(t, dst)
       case Err(e) => Run(t, Fail(e))
       case Ok(t1) => RunOf(t1, MoveTree(t1, src, dst)))
  }

  /** Stage srcDir/n at dstDir/n for each name in turn, stopping at the
      first exception. */
  function StageEach(t: Entry, kind: StageKind, srcDir: Path, names: seq<Name>, dstDir: Path): (r: Run)
    ensures r.outcome.Fail? ==> IsFileSystemError(r.outcome.error)
    decreases |names|
  {
    if names == [] then Run(t, Pass)
    else
      var s := StageItem(t, kind, srcDir + [names[0]], dstDir + [names[0]]);
      if s.outcome.Fail? then s else StageEach(s.tree, kind, srcDir, names[1..], dstDir)
  }

  /** The run over names[i..] is one stage followed by the run over the
      rest, unless that stage raises. */
  lemma StageEachUnfold(t: Entry, kind: StageKind, srcDir: Path, names: seq<Name>, i: nat, dstDir: Path)
    requires i < |names|
    ensures var s := StageItem(t, kind, srcDir + [names[i]], dstDir + [names[i]]);
      StageEach(t, kind, srcDir, names[i..], dstDir) ==
        if s.outcome.Fail? then s else StageEach(s.tree, kind, srcDir, names[i + 1..], dstDir)
  {
    assert names[i..][0] == names[i] && names[i..][1..] == names[i + 1..];
  }

  /** One loop iteration, on the file system object. */
  method StageOne(fs: FileSystem, kind: StageKind, src: Path, dst: Path) returns (r: Outcome)
    requires fs.Valid()
    modifies fs
    ensures fs.Valid() && fs.cwd == old(fs.cwd)
    ensures Run(fs.root, r) == StageItem(old(fs.root), kind, src, dst)
  {
    if kind.MoveLib? {
      r := fs.Move(src, dst);
      return;
    }
    if IsDir(fs.root, dst) {
      r := fs.RmTree(dst);
    } else if IsFile(fs.root, dst) {
      r := fs.Remove(dst);
    } else {
      r := Pass;
    }
    if r.Fail? {
      return;
    }
    if kind.CopyReplacing? {
      r := fs.CopyTree(src, dst);
    } else {
      r := fs.Move(src, dst);
    }
  }

  /** The loop over the names: each iteration stages one entry and the
      first exception ends the loop. */
  method StageAll(fs: FileSystem, kind: StageKind, srcDir: Path, names: seq<Name>, dstDir: Path)
    returns (r: Outcome)
    requires fs.Valid()
    modifies fs
    ensures fs.Valid() && unchanged(fs`cwd)
    ensures Run(fs.root, r) == StageEach(old(fs.root), kind, srcDir, names, dstDir)
  {
    ghost var goal := StageEach(fs.root, kind, srcDir, names, dstDir);
    assert names[0..] == names;
    r := Pass;
    var i := 0;
    while i < |names|
      invariant 0 <= i <= |names|
      invariant fs.Valid() && unchanged(fs`cwd)
      invariant goal == StageEach(fs.root, kind, srcDir, names[i..], dstDir)
      invariant r == Pass
    {
      r := StageNext(fs, kind, srcDir, names, i, dstDir);
      if r.Fail? {
        return;
      }
      i := i + 1;
    }
    assert names[i..] == [];
  }

  /** One iteration of the loop: a failing stage ends the run, otherwise the
      run goes on over the remaining names. */
  method StageNext(fs: FileSystem, kind: StageKind, srcDir: Path, names: seq<Name>, i: nat, dstDir: Path)
    returns (r: Outcome)
    requires fs.Valid() && i < |names|
    modifies fs
    ensures fs.Valid() && unchanged(fs`cwd)
    ensures var s := StageEach(old(fs.root), kind, srcDir, names[i..], dstDir);
      if r.Fail? then Run(fs.root, r) == s
      else r == Pass && StageEach(fs.root, kind, srcDir, names[i + 1..], dstDir) == s
  {
    StageEachUnfold(fs.root, kind, srcDir, names, i, dstDir);
    r := StageOne(fs, kind, srcDir + [names[i]], dstDir + [names[i]]);
  }

  /** The library step of the install commands (InstallCMakeLibs.run): move
      every auxiliary library of the binary directory into the build
      directory, then record where each will be installed. A failing listing
      or move raises; the libraries moved before it stay moved. */
  method InstallCMakeLibs(fs: FileSystem, dist: Distribution, buildDir: Path, installDir: Path)
    returns (r: Outcome)
    requires fs.Valid()
    modifies fs, dist
    ensures fs.Valid() && fs.cwd == old(fs.cwd)
    ensures dist.binDir == old(dist.binDir) && dist.scripts == old(dist.scripts)
    ensures match LibNames(old(fs.root), old(dist.binDir))
      case Err(e) => r == Fail(e) && fs.root == old(fs.root) && dist.dataFiles == old(dist.dataFiles)
      case Ok(libs) =>
        Run(fs.root, r) == StageEach(old(fs.root), MoveLib, old(dist.binDir), libs, buildDir)
        && dist.dataFiles == if r == Pass then Under(installDir, libs) else old(dist.dataFiles)
  {
    var listing := LibNames(fs.root, dist.binDir);
    if listing.Err? {
      return Fail(listing.error);
    }
    r := StageAll(fs, MoveLib, dist.binDir, listing.value, buildDir);
    if r == Pass {
      dist.dataFiles := Under(installDir, listing.value);
    }
  }

  /** The scripts step of the install commands (InstallBlenderScripts.run):
      stage every subdirectory of the binary directory in the build
      directory, then record the subdirectories as scripts. */
  method InstallBlenderScripts(fs: FileSystem, dist: Distribution, buildDir: Path, kind: StageKind)
    returns (r: Outcome)
    requires fs.Valid() && kind != MoveLib
    modifies fs, dist
    ensures fs.Valid() && fs.cwd == old(fs.cwd)
    ensures dist.binDir == old(dist.binDir) && dist.dataFiles == old(dist.dataFiles)
    ensures match ScriptDirNames(old(fs.root), old(dist.binDir))
      case Err(e) => r == Fail(e) && fs.root == old(fs.root) && dist.scripts == old(dist.scripts)
      case Ok(dirs) =>
        Run(fs.root, r) == StageEach(old(fs.root), kind, old(dist.binDir), dirs, buildDir)
        && dist.scripts == if r == Pass then Under(old(dist.binDir), dirs) else old(dist.scripts)
  {
    var listing := ScriptDirNames(fs.root, dist.binDir);
    if listing.Err? {
      return Fail(listing.error);
    }
    r := StageAll(fs, kind, dist.binDir, listing.value, buildDir);
    if r == Pass {
      dist.scripts := Under(dist.binDir, listing.value);
    }
  }

  // ---------------------------------------------------------------------
  // What staging does

  predicate Disjoint(p: Path, q: Path)
  {
    !(p <= q) && !(q <= p)
  }

  /** The conditions under which one entry is staged at a fresh path: the
      source exists (as a directory, for the script stages), nothing is at
      the destination, whose parent is a directory, and neither path lies
      below the other. */
  predicate FreshStage(t: Entry, kind: StageKind, src: Path, dst: Path)
  {
    WellFormed(t) && Exists(t, src) && (kind != MoveLib ==> IsDir(t, src))
    && dst != [] && !Exists(t, dst) && IsDir(t, Parent(dst)) && Disjoint(src, dst)
  }

  /** Staging an entry at a fresh path succeeds; the destination then holds
      the source entry, which a copy keeps and a move removes; no path
      outside the two and their ancestors changes. */
  lemma StageItemFresh(t: Entry, kind: StageKind, src: Path, dst: Path, q: Path)
    requires FreshStage(t, kind, src, dst)
    ensures StageItem(t, kind, src, dst).outcome == Pass
    ensures var t' := StageItem(t, kind, src, dst).tree;
      WellFormed(t')
      && Get(t', dst) == Named(Get(t, src), Basename(dst))
      && (if kind == CopyReplacing then Get(t', src) == Get(t, src) else !Exists(t', src))
      && (Disjoint(q, src) && Disjoint(q, dst) ==> Get(t', q) == Get(t, q))
  {
    var x := Get(t, src).value;
    assert ClearDestination(t, dst) == Ok(t);
    assert TargetPath(t, src, dst) == dst;
    if kind == CopyReplacing {
      assert MakeDirs(t, dst) == MkDirTree(t, dst);
      CopyTreeTreeOk(t, src, dst, src);
      CopyTreeTreeWellFormed(t, src, dst);
      if Disjoint(q, dst) {
        CopyTreeTreeOk(t, src, dst, q);
      }
    } else {
      assert MoveTree(t, src, dst) == Ok(SetAt(SetAt(t, src, None), dst, Some(x)));
      MoveTreeOk(t, src, dst);
      MoveTreeWellFormed(t, src, dst);
      if Disjoint(q, src) && Disjoint(q, dst) {
        MoveTreeFrame(t, src, dst, q);
      }
    }
  }

  /** The conditions for staging every named entry of srcDir in a fresh
      dstDir: both directories exist, neither lies within the other, the
      names are distinct, each source exists and no destination does. */
  predicate FreshRun(t: Entry, kind: StageKind, srcDir: Path, names: seq<Name>, dstDir: Path)
  {
    WellFormed(t) && IsDir(t, dstDir) && Disjoint(srcDir, dstDir) && Distinct(names)
    && forall n :: n in names ==>
         Exists(t, srcDir + [n]) && (kind != MoveLib ==> IsDir(t, srcDir + [n]))
         && !Exists(t, dstDir + [n])
  }

  /** Paths of the two directories' entries are disjoint from each other. */
  lemma EntriesDisjoint(srcDir: Path, dstDir: Path, m: Name, n: Name)
    requires Disjoint(srcDir, dstDir)
    ensures Disjoint(srcDir + [m], dstDir + [n])
  {
    var a := srcDir + [m];
    var b := dstDir + [n];
    if |srcDir| < |dstDir| {
      assert a[..|srcDir|] == srcDir && b[..|srcDir|] == dstDir[..|srcDir|];
    } else if |dstDir| < |srcDir| {
      assert b[..|dstDir|] == dstDir && a[..|dstDir|] == srcDir[..|dstDir|];
    } else {
      assert a[..|srcDir|] == srcDir && b[..|srcDir|] == dstDir;
    }
  }

  /** The tail of a list of distinct names is distinct and lacks the head. */
  lemma DistinctTail(names: seq<Name>)
    requires Distinct(names) && names != []
    ensures Distinct(names[1..]) && names[0] !in names[1..]
  {
    var rest := names[1..];
    forall k | 0 <= k < |rest| ensures rest[k] != names[0] {
      assert rest[k] == names[k + 1];
    }
    forall i, j | 0 <= i < j < |rest| ensures rest[i] != rest[j] {
      assert rest[i] == names[i + 1] && rest[j] == names[j + 1];
    }
  }

  /** The first stage of a fresh run succeeds, places its entry, touches no
      other entry of the two directories, and leaves a fresh run for the
      remaining names. */
  lemma StageHeadFresh(t: Entry, kind: StageKind, srcDir: Path, names: seq<Name>, dstDir: Path)
    requires FreshRun(t, kind, srcDir, names, dstDir) && names != []
    ensures var n0 := names[0];
      var s := StageItem(t, kind, srcDir + [n0], dstDir + [n0]);
      && s.outcome == Pass
      && FreshRun(s.tree, kind, srcDir, names[1..], dstDir)
      && n0 !in names[1..]
      && Get(s.tree, dstDir + [n0]) == Get(t, srcDir + [n0])
      && (if kind == CopyReplacing then Get(s.tree, srcDir + [n0]) == Get(t, srcDir + [n0])
          else !Exists(s.tree, srcDir + [n0]))
      && forall m :: m != n0 ==>
           Get(s.tree, srcDir + [m]) == Get(t, srcDir + [m]) && Get(s.tree, dstDir + [m]) == Get(t, dstDir + [m])
  {
    var n0 := names[0];
    var src := srcDir + [n0];
    var dst := dstDir + [n0];
    assert n0 in names;
    EntriesDisjoint(srcDir, dstDir, n0, n0);
    assert Parent(dst) == dstDir;
    StageItemFresh(t, kind, src, dst, dstDir);
    var t1 := StageItem(t, kind, src, dst).tree;
    assert IsDir(t1, dstDir) by {
      ParentIsDir(t1, dst);
    }
    GetName(t, src);
    assert Named(Get(t, src), Basename(dst)) == Get(t, src);
    forall m | m != n0
      ensures Get(t1, srcDir + [m]) == Get(t, srcDir + [m])
      ensures Get(t1, dstDir + [m]) == Get(t, dstDir + [m])
    {
      StageKeepsSibling(t, kind, srcDir, dstDir, n0, m);
    }
    DistinctTail(names);
    forall n | n in names[1..]
      ensures Exists(t1, srcDir + [n]) && (kind != MoveLib ==> IsDir(t1, srcDir + [n]))
      ensures !Exists(t1, dstDir + [n])
    {
      assert n in names && n != n0;
    }
  }

  /** Entries of one directory under different names are disjoint. */
  lemma SiblingsDisjoint(p: Path, m: Name, n: Name)
    requires m != n
    ensures Disjoint(p + [m], p + [n])
  {
    assert (p + [m])[|p|] == m && (p + [n])[|p|] == n;
  }

  /** Staging one name leaves the entries of every other name in both
      directories as they were. */
  lemma StageKeepsSibling(t: Entry, kind: StageKind, srcDir: Path, dstDir: Path, n0: Name, m: Name)
    requires Disjoint(srcDir, dstDir) && m != n0
    requires FreshStage(t, kind, srcDir + [n0], dstDir + [n0])
    ensures var t' := StageItem(t, kind, srcDir + [n0], dstDir + [n0]).tree;
      Get(t', srcDir + [m]) == Get(t, srcDir + [m]) && Get(t', dstDir + [m]) == Get(t, dstDir + [m])
  {
    EntriesDisjoint(srcDir, dstDir, m, n0);
    EntriesDisjoint(srcDir, dstDir, n0, m);
    SiblingsDisjoint(srcDir, m, n0);
    SiblingsDisjoint(dstDir, m, n0);
    StageItemFresh(t, kind, srcDir + [n0], dstDir + [n0], srcDir + [m]);
    StageItemFresh(t, kind, srcDir + [n0], dstDir + [n0], dstDir + [m]);
  }

  /** Staging into a fresh directory succeeds, leaves at dstDir/n what was
      at srcDir/n for every name, keeps the sources for a copy and removes
      them for a move, and changes no other entry of the two directories. */
  lemma {:induction false} StageEachFresh(t: Entry, kind: StageKind, srcDir: Path, names: seq<Name>, dstDir: Path)
    requires FreshRun(t, kind, srcDir, names, dstDir)
    ensures StageEach(t, kind, srcDir, names, dstDir).outcome == Pass
    ensures var t' := StageEach(t, kind, srcDir, names, dstDir).tree;
      WellFormed(t') && IsDir(t', dstDir)
      && forall n :: n in names ==>
           Get(t', dstDir + [n]) == Get(t, srcDir + [n])
           && (if kind == CopyReplacing then Get(t', srcDir + [n]) == Get(t, srcDir + [n])
               else !Exists(t', srcDir + [n]))
    ensures var t' := StageEach(t, kind, srcDir, names, dstDir).tree;
      forall n :: n !in names ==>
        Get(t', srcDir + [n]) == Get(t, srcDir + [n]) && Get(t', dstDir + [n]) == Get(t, dstDir + [n])
    decreases |names|
  {
    if names != [] {
      var n0 := names[0];
      StageHeadFresh(t, kind, srcDir, names, dstDir);
      var t1 := StageItem(t, kind, srcDir + [n0], dstDir + [n0]).tree;
      var rest := names[1..];
      StageEachFresh(t1, kind, srcDir, rest, dstDir);
      assert StageEach(t, kind, srcDir, names, dstDir) == StageEach(t1, kind, srcDir, rest, dstDir);
      var t' := StageEach(t1, kind, srcDir, rest, dstDir).tree;
      forall n | n in names
        ensures Get(t', dstDir + [n]) == Get(t, srcDir + [n])
        ensures if kind == CopyReplacing then Get(t', srcDir + [n]) == Get(t, srcDir + [n])
                else !Exists(t', srcDir + [n])
      {
        if n != n0 {
          assert n in rest;
        }
      }
      forall n | n !in names
        ensures Get(t', srcDir + [n]) == Get(t, srcDir + [n]) && Get(t', dstDir + [n]) == Get(t, dstDir + [n])
      {
        assert n != n0 && n !in rest;
      }
    }
  }

  /** A replacing stage removes a directory or regular file in its way
      first, so it behaves as if nothing had been at the destination. */
  lemma StageItemClears(t: Entry, kind: StageKind, src: Path, dst: Path)
    requires kind != MoveLib && dst != []
    requires IsDir(t, dst) || IsFile(t, dst)
    ensures StageItem(t, kind, src, dst) == StageItem(SetAt(t, dst, None), kind, src, dst)
  {
    var t1 := SetAt(t, dst, None);
    ParentIsDir(t, dst);
    GetSetSame(t, dst, None);
    assert ClearDestination(t1, dst) == Ok(t1);
    assert ClearDestination(t, dst) == Ok(t1);
  }

  /** An entry at the destination that is neither a directory nor a regular
      file is not removed, and staging a directory there then fails with
      FileExistsError. */
  lemma StageItemBlockedBySpecial(t: Entry, kind: StageKind, src: Path, dst: Path)
    requires kind != MoveLib && IsDir(t, src) && Disjoint(src, dst)
    requires Exists(t, dst) && Get(t, dst).value.Special?
    ensures StageItem(t, kind, src, dst) == Run(t, Fail(FileExists(dst)))
  {
    assert ClearDestination(t, dst) == Ok(t);
    assert TargetPath(t, src, dst) == dst;
  }

  /** The conditions under which a copying stage replaces the destination:
      the source is a directory, neither path lies within the other, the
      destination's parent is a directory and nothing but a directory or
      regular file is in the way. */
  predicate Replaceable(t: Entry, src: Path, dst: Path)
  {
    IsDir(t, src) && Disjoint(src, dst) && IsDir(t, Parent(dst))
    && (!Exists(t, dst) || IsDir(t, dst) || IsFile(t, dst))
  }

  /** A copying stage of a directory leaves the tree as if the source had
      been put at the destination, whatever was in the way. */
  lemma CopyStageResult(t: Entry, src: Path, dst: Path)
    requires Replaceable(t, src, dst)
    ensures StageItem(t, CopyReplacing, src, dst) == Run(SetAt(t, dst, Get(t, src)), Pass)
  {
    var x := Get(t, src);
    if Exists(t, dst) {
      var t1 := SetAt(t, dst, None);
      StageItemClears(t, CopyReplacing, src, dst);
      GetSetSame(t, dst, None);
      GetSetDisjoint(t, dst, src, None);
      SetAtKeepsDirs(t, dst, Parent(dst), None);
      CopyStageFresh(t1, src, dst);
      SetAtTwice(t, dst, None, x);
    } else {
      CopyStageFresh(t, src, dst);
    }
  }

  lemma CopyStageFresh(t: Entry, src: Path, dst: Path)
    requires IsDir(t, src) && Disjoint(src, dst) && IsDir(t, Parent(dst)) && !Exists(t, dst)
    ensures StageItem(t, CopyReplacing, src, dst) == Run(SetAt(t, dst, Get(t, src)), Pass)
  {
    var x := Get(t, src);
    var t2 := SetAt(t, dst, Some(Dir(Basename(dst), [])));
    assert ClearDestination(t, dst) == Ok(t);
    assert MakeDirs(t, dst) == Ok(t2);
    assert CopyTreeTree(t, src, dst) == Ok(SetAt(t2, dst, x));
    SetAtTwice(t, dst, Some(Dir(Basename(dst), [])), x);
  }

  /** Re-running a copying stage changes nothing more. */
  lemma CopyStageIdempotent(t: Entry, src: Path, dst: Path)
    requires Replaceable(t, src, dst)
    ensures var t' := StageItem(t, CopyReplacing, src, dst).tree;
      StageItem(t', CopyReplacing, src, dst) == Run(t', Pass)
  {
    CopyStageResult(t, src, dst);
    var t' := SetAt(t, dst, Get(t, src));
    GetSetSame(t, dst, Get(t, src));
    GetSetDisjoint(t, dst, src, Get(t, src));
    ParentIsDir(t', dst);
    SetAtKeepsDirs(t, dst, Parent(dst), Get(t, src));
    assert Replaceable(t', src, dst);
    CopyStageResult(t', src, dst);
    SetAtTwice(t, dst, Get(t, src), Get(t, src));
  }
}

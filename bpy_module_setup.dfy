/** The setup script that packages a prebuilt Blender module: its build_ext
    command copies the module out of the script's own directory, and its
    install commands stage the libraries and Blender's data directories
    from there. */
module BpyModuleSetup {
  import opened Paths
  import opened Outcomes
  import opened FileTree
  import opened FileOps
  import opened FileSystems
  import opened Walks
  import opened SetupCommands

  /** An extension module passed to setup(): its name, whether it is a
      CMakeExtension, and the path get_ext_fullpath gives for it. */
  datatype Extension = Extension(name: string, isCMake: bool, fullPath: Path)

  /** The tree, the distribution's bin_dir and the exception after a build
      step. */
  datatype Build = Build(tree: Entry, binDir: Path, outcome: Outcome)

  /** The file copy_bpy picks in source: the first module candidate listed. */
  function ModuleToCopy(t: Entry, source: Path): Result<Name>
  {
    var names :- BpyCandidateNames(t, source);
    if names == [] then Err(BlenderModuleNotFound(source)) else Ok(names[0])
  }

  /** copy_bpy: bin_dir becomes the source directory once a module is found,
      then the module is copied to the extension's path. */
  function CopyBpySpec(t: Entry, binDir: Path, source: Path, dest: Path): Build
  {
    match ModuleToCopy(t, source)
    case Err(e) => Build(t, binDir, Fail(e))
    case Ok(n) =>
      var run := RunOf(t, CopyFile(t, source + [n], dest));
      Build(run.tree, source, run.outcome)
  }

  method CopyBpy(fs: FileSystem, dist: Distribution, source: Path, dest: Path) returns (r: Outcome)
    requires fs.Valid()
    modifies fs, dist
    ensures fs.Valid() && fs.cwd == old(fs.cwd)
    ensures dist.dataFiles == old(dist.dataFiles) && dist.scripts == old(dist.scripts)
    ensures Build(fs.root, dist.binDir, r) == CopyBpySpec(old(fs.root), old(dist.binDir), source, dest)
  {
    var candidates := BpyCandidateNames(fs.root, source);
    if candidates.Err? {
      return Fail(candidates.error);
    }
    if candidates.value == [] {
      return Fail(BlenderModuleNotFound(source));
    }
    var bpyPath := source + [candidates.value[0]];
    dist.binDir := source;
    r := fs.Copy(bpyPath, dest);
  }

  /** What BuildCMakeExt.run does for one extension: makedirs of its
      parent for a CMake extension, then copy_bpy from the setup script's
      directory for the one named "bpy". */
  function BuildExtension(t: Entry, binDir: Path, setupDir: Path, e: Extension): Build
  {
    var made := if e.isCMake then RunOf(t, MakeDirs(t, Parent(e.fullPath))) else Run(t, Pass);
    if made.outcome.Fail? then Build(made.tree, binDir, made.outcome)
    else if e.name == "bpy" then CopyBpySpec(made.tree, binDir, setupDir, e.fullPath)
    else Build(made.tree, binDir, Pass)
  }

  /** The extensions in turn, stopping at the first exception. */
  function BuildEach(t: Entry, binDir: Path, setupDir: Path, exts: seq<Extension>): Build
    decreases |exts|
  {
    if exts == [] then Build(t, binDir, Pass)
    else
      var b := BuildExtension(t, binDir, setupDir, exts[0]);
      if b.outcome.Fail? then b else BuildEach(b.tree, b.binDir, setupDir, exts[1..])
  }

  /** BuildCMakeExt.run, up to setuptools' own build: the temporary build
      directory is created first. */
  function BuildExtRun(t: Entry, binDir: Path, buildTemp: Path, setupDir: Path, exts: seq<Extension>): Build
  {
    match MakeDirs(t, buildTemp)
    case Err(e) => Build(t, binDir, Fail(e))
    case Ok(t1) => BuildEach(t1, binDir, setupDir, exts)
  }

  method BuildOne(fs: FileSystem, dist: Distribution, setupDir: Path, e: Extension) returns (r: Outcome)
    requires fs.Valid()
    modifies fs, dist
    ensures fs.Valid() && fs.cwd == old(fs.cwd)
    ensures dist.dataFiles == old(dist.dataFiles) && dist.scripts == old(dist.scripts)
    ensures Build(fs.root, dist.binDir, r) == BuildExtension(old(fs.root), old(dist.binDir), setupDir, e)
  {
    r := Pass;
    if e.isCMake {
      r := fs.MakeDirsExistOk(Parent(e.fullPath));
      if r.Fail? {
        return;
      }
    }
    if e.name == "bpy" {
      r := CopyBpy(fs, dist, setupDir, e.fullPath);
    }
  }

  lemma BuildEachUnfold(t: Entry, binDir: Path, setupDir: Path, exts: seq<Extension>, i: nat)
    requires i < |exts|
    ensures var b := BuildExtension(t, binDir, setupDir, exts[i]);
      BuildEach(t, binDir, setupDir, exts[i..]) ==
        if b.outcome.Fail? then b else BuildEach(b.tree, b.binDir, setupDir, exts[i + 1..])
  {
    assert exts[i..][0] == exts[i] && exts[i..][1..] == exts[i + 1..];
  }

  /** BuildCMakeExt.run */
  method BuildCMakeExtRun(fs: FileSystem, dist: Distribution, buildTemp: Path, setupDir: Path, exts: seq<Extension>)
    returns (r: Outcome)
    requires fs.Valid()
    modifies fs, dist
    ensures fs.Valid() && fs.cwd == old(fs.cwd)
    ensures dist.dataFiles == old(dist.dataFiles) && dist.scripts == old(dist.scripts)
    ensures Build(fs.root, dist.binDir, r) == BuildExtRun(old(fs.root), old(dist.binDir), buildTemp, setupDir, exts)
  {
    r := fs.MakeDirsExistOk(buildTemp);
    if r.Fail? {
      return;
    }
    ghost var goal := BuildEach(fs.root, dist.binDir, setupDir, exts);
    assert exts[0..] == exts;
    var i := 0;
    while i < |exts|
      invariant 0 <= i <= |exts|
      invariant fs.Valid() && fs.cwd == old(fs.cwd)
      invariant dist.dataFiles == old(dist.dataFiles) && dist.scripts == old(dist.scripts)
      invariant goal == BuildEach(fs.root, dist.binDir, setupDir, exts[i..])
      invariant r == Pass
    {
      BuildEachUnfold(fs.root, dist.binDir, setupDir, exts, i);
      r := BuildOne(fs, dist, setupDir, exts[i]);
      if r.Fail? {
        return;
      }
      i := i + 1;
    }
    assert exts[i..] == [];
  }

  /** InstallBlenderScripts.run of this script: the data directories are
      copied into the build directory, replacing what is in the way. */
  method InstallBlenderScripts(fs: FileSystem, dist: Distribution, buildDir: Path) returns (r: Outcome)
    requires fs.Valid()
    modifies fs, dist
    ensures fs.Valid() && fs.cwd == old(fs.cwd)
    ensures dist.binDir == old(dist.binDir) && dist.dataFiles == old(dist.dataFiles)
    ensures match ScriptDirNames(old(fs.root), old(dist.binDir))
      case Err(e) => r == Fail(e) && fs.root == old(fs.root) && dist.scripts == old(dist.scripts)
      case Ok(dirs) =>
        Run(fs.root, r) == StageEach(old(fs.root), CopyReplacing, old(dist.binDir), dirs, buildDir)
        && dist.scripts == if r == Pass then Under(old(dist.binDir), dirs) else old(dist.scripts)
  {
    r := SetupCommands.InstallBlenderScripts(fs, dist, buildDir, CopyReplacing);
  }

  // ---------------------------------------------------------------------
  // Properties

  /** copy_bpy fails when source is not a directory or holds no module
      candidate, naming source in the second case; otherwise it picks a
      regular file of source that is a candidate, the first in listing
      order. */
  lemma ModuleToCopySpec(t: Entry, source: Path)
    requires WellFormed(t)
    ensures !IsDir(t, source) ==> ModuleToCopy(t, source).Err? && IsFileSystemError(ModuleToCopy(t, source).error)
    ensures IsDir(t, source) ==>
      (ModuleToCopy(t, source).Err? <==> forall n :: IsFile(t, source + [n]) ==> !IsBpyCandidate(n))
    ensures IsDir(t, source) && ModuleToCopy(t, source).Err? ==>
      ModuleToCopy(t, source).error == BlenderModuleNotFound(source)
    ensures ModuleToCopy(t, source).Ok? ==>
      var n := ModuleToCopy(t, source).value;
      var cs := Get(t, source).value.children;
      IsFile(t, source + [n]) && IsBpyCandidate(n)
      && FirstMatch(cs, IsBpyCandidateEntry).Some?
      && n == cs[FirstMatch(cs, IsBpyCandidateEntry).value].name
  {
    ListingFails(t, source);
    if IsDir(t, source) {
      var cs := Get(t, source).value.children;
      var names := BpyCandidateNames(t, source).value;
      forall n ensures n in names <==> IsFile(t, source + [n]) && IsBpyCandidate(n) {
        ListingsSpec(t, source, n);
      }
      FilterHeadIsFirstMatch(cs, IsBpyCandidateEntry);
      if names != [] {
        assert names[0] in names;
      }
    }
  }

  /** A successful copy_bpy sets bin_dir to the source directory, leaves at
      the destination a copy of the chosen module and keeps the module where
      it was; a failing search changes nothing. */
  lemma CopyBpyEffect(t: Entry, binDir: Path, source: Path, dest: Path)
    requires WellFormed(t)
    ensures ModuleToCopy(t, source).Err? ==>
      CopyBpySpec(t, binDir, source, dest) == Build(t, binDir, Fail(ModuleToCopy(t, source).error))
    ensures CopyBpySpec(t, binDir, source, dest).outcome == Pass ==>
      var b := CopyBpySpec(t, binDir, source, dest);
      var bpyPath := source + [ModuleToCopy(t, source).value];
      var target := TargetPath(t, bpyPath, dest);
      b.binDir == source
      && Get(b.tree, target) == Named(Get(t, bpyPath), Basename(target))
      && Get(b.tree, bpyPath) == Get(t, bpyPath)
      && WellFormed(b.tree)
  {
    if CopyBpySpec(t, binDir, source, dest).outcome == Pass {
      var bpyPath := source + [ModuleToCopy(t, source).value];
      var target := TargetPath(t, bpyPath, dest);
      CopyFileOk(t, bpyPath, dest);
      CopyFileWellFormed(t, bpyPath, dest);
      assert !(bpyPath <= target) by {
        if bpyPath <= target {
          assert bpyPath <= Parent(target);
          if bpyPath != Parent(target) {
            AncestorIsDir(t, bpyPath, Parent(target));
          }
        }
      }
      assert !(target <= bpyPath) by {
        if target <= bpyPath {
          AncestorIsDir(t, target, bpyPath);
        }
      }
      GetSetDisjoint(t, target, bpyPath, Get(t, bpyPath));
    }
  }

  /** The module copied is never one of the libraries the library step moves
      from the same directory. */
  lemma ModuleIsNotALib(t: Entry, dir: Path, n: Name)
    requires WellFormed(t) && IsDir(t, dir) && n in BpyCandidateNames(t, dir).value
    ensures n !in LibNames(t, dir).value
  {
    ListingsSpec(t, dir, n);
    CandidateIsNotAuxiliary(n);
  }

  /** makedirs adds no module candidate to any directory. */
  lemma MakeDirsAddsNoCandidate(t: Entry, p: Path, dir: Path)
    requires MakeDirs(t, p).Ok?
    requires forall n :: IsFile(t, dir + [n]) ==> !IsBpyCandidate(n)
    ensures forall n :: IsFile(MakeDirs(t, p).value, dir + [n]) ==> !IsBpyCandidate(n)
  {
    forall n | IsFile(MakeDirs(t, p).value, dir + [n]) ensures !IsBpyCandidate(n) {
      MakeDirsNoNewFiles(t, p, dir + [n]);
    }
  }

  lemma {:induction false} BuildEachNeedsModule(t: Entry, binDir: Path, setupDir: Path, exts: seq<Extension>)
    requires WellFormed(t)
    requires exists i :: 0 <= i < |exts| && exts[i].name == "bpy"
    requires forall n :: IsFile(t, setupDir + [n]) ==> !IsBpyCandidate(n)
    ensures BuildEach(t, binDir, setupDir, exts).outcome.Fail?
    ensures BuildEach(t, binDir, setupDir, exts).binDir == binDir
    decreases |exts|
  {
    var e := exts[0];
    var made := if e.isCMake then RunOf(t, MakeDirs(t, Parent(e.fullPath))) else Run(t, Pass);
    if made.outcome == Pass {
      var t1 := made.tree;
      assert WellFormed(t1) && forall n :: IsFile(t1, setupDir + [n]) ==> !IsBpyCandidate(n) by {
        if e.isCMake {
          MakeDirsWellFormed(t, Parent(e.fullPath));
          MakeDirsAddsNoCandidate(t, Parent(e.fullPath), setupDir);
        }
      }
      if e.name == "bpy" {
        ModuleToCopySpec(t1, setupDir);
      } else {
        var i :| 0 <= i < |exts| && exts[i].name == "bpy";
        assert exts[1..][i - 1] == exts[i];
        BuildEachNeedsModule(t1, binDir, setupDir, exts[1..]);
      }
    }
  }

  /** Without a module candidate in the setup script's directory, the build
      step fails as soon as it reaches the extension named "bpy", before
      bin_dir is set. */
  lemma BuildNeedsModule(t: Entry, binDir: Path, buildTemp: Path, setupDir: Path, exts: seq<Extension>)
    requires WellFormed(t)
    requires exists i :: 0 <= i < |exts| && exts[i].name == "bpy"
    requires forall n :: IsFile(t, setupDir + [n]) ==> !IsBpyCandidate(n)
    ensures BuildExtRun(t, binDir, buildTemp, setupDir, exts).outcome.Fail?
    ensures BuildExtRun(t, binDir, buildTemp, setupDir, exts).binDir == binDir
  {
    if MakeDirs(t, buildTemp).Ok? {
      MakeDirsWellFormed(t, buildTemp);
      MakeDirsAddsNoCandidate(t, buildTemp, setupDir);
      BuildEachNeedsModule(MakeDirs(t, buildTemp).value, binDir, setupDir, exts);
    }
  }

  lemma {:induction false} BuildEachWithoutBpy(t: Entry, binDir: Path, setupDir: Path, exts: seq<Extension>, q: Path)
    requires forall i :: 0 <= i < |exts| ==> exts[i].name != "bpy"
    requires Exists(BuildEach(t, binDir, setupDir, exts).tree, q)
    requires !IsDir(BuildEach(t, binDir, setupDir, exts).tree, q)
    ensures BuildEach(t, binDir, setupDir, exts).binDir == binDir
    ensures Get(BuildEach(t, binDir, setupDir, exts).tree, q) == Get(t, q)
    decreases |exts|
  {
    if exts != [] {
      var e := exts[0];
      var b := BuildExtension(t, binDir, setupDir, e);
      if b.outcome == Pass {
        forall i | 0 <= i < |exts[1..]| ensures exts[1..][i].name != "bpy" {
          assert exts[1..][i] == exts[i + 1];
        }
        BuildEachWithoutBpy(b.tree, binDir, setupDir, exts[1..], q);
        if e.isCMake {
          MakeDirsNoNewFiles(t, Parent(e.fullPath), q);
        }
      }
    }
  }

  /** Without an extension named "bpy" the build step only creates
      directories: bin_dir is untouched and every non-directory afterwards
      was there before, unchanged. */
  lemma BuildWithoutBpy(t: Entry, binDir: Path, buildTemp: Path, setupDir: Path, exts: seq<Extension>, q: Path)
    requires forall i :: 0 <= i < |exts| ==> exts[i].name != "bpy"
    requires Exists(BuildExtRun(t, binDir, buildTemp, setupDir, exts).tree, q)
    requires !IsDir(BuildExtRun(t, binDir, buildTemp, setupDir, exts).tree, q)
    ensures BuildExtRun(t, binDir, buildTemp, setupDir, exts).binDir == binDir
    ensures Get(BuildExtRun(t, binDir, buildTemp, setupDir, exts).tree, q) == Get(t, q)
  {
    if MakeDirs(t, buildTemp).Ok? {
      var t1 := MakeDirs(t, buildTemp).value;
      BuildEachWithoutBpy(t1, binDir, setupDir, exts, q);
      MakeDirsNoNewFiles(t, buildTemp, q);
    }
  }
}

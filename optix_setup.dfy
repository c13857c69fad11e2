/** The setup script that builds Blender with OptiX rendering from source:
    a version gate at load time, a build_ext command that prepares the
    build directories, adds the OptiX switches to the configure commands,
    runs them and moves the built module to the extension's path, and the
    install commands, which move the data directories instead of copying
    them. */
module OptixSetup {
  import opened Paths
  import opened Outcomes
  import opened FileTree
  import opened FileOps
  import opened FileSystems
  import opened SetupCommands
  import BpyModuleSetup

  // ---------------------------------------------------------------------
  // The version gate

  /** The Blender version the script builds, and the lowest one with OptiX. */
  const Version: string := "2.81"
  const MinVersion: string := "2.81"

  /** Python's < on str: code point by code point, a proper prefix first. */
  predicate StrLess(a: string, b: string)
    decreases |a|
  {
    if a == [] then b != []
    else if b == [] then false
    else if a[0] != b[0] then a[0] < b[0]
    else StrLess(a[1..], b[1..])
  }

  /** The check at load time, as written: the version strings are compared
      as strings. */
  function VersionGate(version: string, minimum: string): (r: Outcome)
    ensures r.Fail? ==> r.error == VersionTooLow(version, minimum)
  {
    if StrLess(version, minimum) then Fail(VersionTooLow(version, minimum)) else Pass
  }

  /** Leading decimal digits of s. */
  function DigitRun(s: string): (k: nat)
    ensures k <= |s| && forall j :: 0 <= j < k ==> IsDigit(s[j])
    ensures k < |s| ==> !IsDigit(s[k])
    decreases |s|
  {
    if s == [] || !IsDigit(s[0]) then 0 else 1 + DigitRun(s[1..])
  }

  /** The dot-separated numbers at the start of s, up to the first character
      that continues neither a number nor the dotted sequence. */
  function Numbers(s: string): seq<nat>
    decreases |s|
  {
    var k := DigitRun(s);
    if k == 0 then []
    else [DecimalValue(s[..k])] + (if k < |s| && s[k] == '.' then Numbers(s[k + 1..]) else [])
  }

  /** The release numbers of a version string, after an optional leading
      'v': "v2.79b" gives 2, 79. */
  function ParseRelease(s: string): seq<nat>
  {
    if s != [] && s[0] == 'v' then Numbers(s[1..]) else Numbers(s)
  }

  /** Release numbers compared in order, missing ones counting as zero. */
  predicate ReleaseLess(a: seq<nat>, b: seq<nat>)
    decreases |a| + |b|
  {
    if a == [] && b == [] then false
    else
      var x := if a == [] then 0 else a[0];
      var y := if b == [] then 0 else b[0];
      if x != y then x < y
      else ReleaseLess(if a == [] then [] else a[1..], if b == [] then [] else b[1..])
  }

  /** The check the script evidently means, on the parsed versions it
      computes next to the strings. */
  function VersionGateByRelease(version: string, minimum: string): (r: Outcome)
    ensures r.Fail? ==> r.error == VersionTooLow(version, minimum)
  {
    if ReleaseLess(ParseRelease(version), ParseRelease(minimum))
    then Fail(VersionTooLow(version, minimum)) else Pass
  }

  lemma {:induction false} StrLessIrreflexive(a: string)
    ensures !StrLess(a, a)
    decreases |a|
  {
    if a != [] {
      StrLessIrreflexive(a[1..]);
    }
  }

  lemma {:induction false} ReleaseLessIrreflexive(a: seq<nat>)
    ensures !ReleaseLess(a, a)
    decreases |a|
  {
    if a != [] {
      ReleaseLessIrreflexive(a[1..]);
    }
  }

  lemma {:induction false} ReleaseLessAsymmetric(a: seq<nat>, b: seq<nat>)
    requires ReleaseLess(a, b)
    ensures !ReleaseLess(b, a)
    decreases |a| + |b|
  {
    var x := if a == [] then 0 else a[0];
    var y := if b == [] then 0 else b[0];
    if x == y {
      ReleaseLessAsymmetric(if a == [] then [] else a[1..], if b == [] then [] else b[1..]);
    }
  }

  /** Trailing zeros do not change a release: 2.81 and 2.81.0 are the same. */
  lemma ReleaseZeroPadding()
    ensures !ReleaseLess([2, 81], [2, 81, 0]) && !ReleaseLess([2, 81, 0], [2, 81])
  {
    assert [2, 81][1..] == [81] && [2, 81, 0][1..] == [81, 0];
    assert [81][1..] == [] && [81, 0][1..] == [0];
  }

  /** The shipped constants pass both checks. */
  lemma ShippedVersionPasses()
    ensures VersionGate(Version, MinVersion) == Pass
    ensures VersionGateByRelease(Version, MinVersion) == Pass
  {
    StrLessIrreflexive(Version);
    ReleaseLessIrreflexive(ParseRelease(Version));
  }

  lemma ParseOld()
    ensures ParseRelease("v2.79b") == [2, 79]
  {
    var s := "2.79b";
    assert DigitRun(s) == 1 by {
      assert DigitRun(s[1..]) == 0;
    }
    assert s[..1] == "2" && s[2..] == "79b";
    assert DecimalValue("2") == 2 by {
      assert "2"[..0] == "";
    }
    assert DigitRun("79b") == 2 by {
      assert "79b"[1..] == "9b" && "9b"[1..] == "b";
    }
    assert "79b"[..2] == "79";
    assert DecimalValue("79") == 79 by {
      assert "79"[..1] == "7" && "7"[..0] == "";
    }
    assert Numbers("79b") == [79];
    assert "v2.79b"[1..] == s;
  }

  lemma ParseMinimum()
    ensures ParseRelease("2.81") == [2, 81]
  {
    var u := "2.81";
    assert DigitRun(u) == 1 by {
      assert DigitRun(u[1..]) == 0;
    }
    assert u[..1] == "2" && u[2..] == "81";
    assert DecimalValue("2") == 2 by {
      assert "2"[..0] == "";
    }
    assert DigitRun("81") == 2 by {
      assert "81"[1..] == "1" && "1"[1..] == "";
    }
    assert "81"[..2] == "81";
    assert DecimalValue("81") == 81 by {
      assert "81"[..1] == "8" && "8"[..0] == "";
    }
    assert Numbers("81") == [81];
  }

  lemma ParseNew()
    ensures ParseRelease("10.0") == [10, 0]
  {
    var w := "10.0";
    assert DigitRun(w) == 2 by {
      assert w[1..] == "0.0";
      assert w[1..][1..] == ".0";
    }
    assert w[..2] == "10" && w[3..] == "0";
    assert DecimalValue("10") == 10 by {
      assert "10"[..1] == "1" && "1"[..0] == "";
    }
    assert DigitRun("0") == 1 by {
      assert "0"[1..] == "";
    }
    assert "0"[..1] == "0";
    assert DecimalValue("0") == 0 by {
      assert "0"[..0] == "";
    }
    assert Numbers("0") == [0];
  }

  /** The check as written lets a 2.79 version through, although 2.79 is
      older than 2.81. */
  lemma OldVersionPassesStringCheck()
    ensures VersionGate("v2.79b", MinVersion) == Pass
    ensures ReleaseLess(ParseRelease("v2.79b"), ParseRelease(MinVersion))
  {
    assert !StrLess("v2.79b", MinVersion);
    ParseOld();
    ParseMinimum();
    assert [2, 79][1..] == [79] && [2, 81][1..] == [81];
  }

  /** ...and turns away version 10.0, which is newer. */
  lemma NewVersionFailsStringCheck()
    ensures VersionGate("10.0", MinVersion).Fail?
    ensures !ReleaseLess(ParseRelease("10.0"), ParseRelease(MinVersion))
  {
    assert StrLess("10.0", MinVersion);
    ParseNew();
    ParseMinimum();
  }

  /** The corrected check rejects the older version and accepts the newer. */
  lemma CorrectedGateOrdersVersions()
    ensures VersionGateByRelease("v2.79b", MinVersion).Fail?
    ensures VersionGateByRelease("10.0", MinVersion) == Pass
  {
    OldVersionPassesStringCheck();
    NewVersionFailsStringCheck();
  }

  // ---------------------------------------------------------------------
  // build_cmake

  /** Where the NVIDIA installer puts the OptiX SDK on Windows. */
  const OptixRootWindows: string := "C:\\ProgramData\\NVIDIA Corporation\\OptiX SDK 7.0.0"

  /** The OptiX SDK location the script knows: only the Windows one. */
  function OptixRoot(systemName: string): (r: Option<string>)
    ensures r.Some? <==> systemName == "Windows"
  {
    if systemName == "Windows" then Some(OptixRootWindows) else None
  }

  /** The switches added to the last configure command. */
  function OptixFlags(root: string): (r: seq<string>)
    ensures |r| == 2 && EndsWith(r[1], root)
  {
    ["-DWITH_CYCLES_DEVICE_OPTIX=ON", "-DOPTIX_ROOT_DIR=" + root]
  }

  /** configure_commands[-1] += flags: IndexError on an empty list; otherwise
      the last command gains the flags at its end and nothing else changes. */
  function WithFlags(cmds: seq<seq<string>>, flags: seq<string>): (r: Result<seq<seq<string>>>)
    ensures r.Err? <==> cmds == []
    ensures r.Err? ==> r.error == IndexOutOfRange
    ensures r.Ok? ==>
      && |r.value| == |cmds|
      && (forall i :: 0 <= i < |cmds| - 1 ==> r.value[i] == cmds[i])
      && r.value[|cmds| - 1] == cmds[|cmds| - 1] + flags
  {
    if cmds == [] then Err(IndexOutOfRange)
    else Ok(cmds[|cmds| - 1 := cmds[|cmds| - 1] + flags])
  }

  /** The in-place extension of the last command. */
  method AppendFlags(cmds: array<seq<string>>, flags: seq<string>) returns (r: Outcome)
    modifies cmds
    ensures match WithFlags(old(cmds[..]), flags)
      case Err(e) => r == Fail(e) && cmds[..] == old(cmds[..])
      case Ok(c) => r == Pass && cmds[..] == c
  {
    if cmds.Length == 0 {
      return Fail(IndexOutOfRange);
    }
    cmds[cmds.Length - 1] := cmds[cmds.Length - 1] + flags;
    r := Pass;
  }

  /** self.spawn(command) for each command in order; the commands' own work
      is outside this model, so spawning is recorded as a log. */
  method SpawnAll(cmds: array<seq<string>>) returns (spawned: seq<seq<string>>)
    ensures spawned == cmds[..]
  {
    spawned := [];
    var i := 0;
    while i < cmds.Length
      invariant 0 <= i <= cmds.Length
      invariant spawned == cmds[..i]
    {
      spawned := spawned + [cmds[i]];
      i := i + 1;
    }
  }

  /** The binary directory the build leaves the module in. */
  function BinDirFor(systemName: string, buildPath: Path): (r: Path)
    ensures |r| > |buildPath| && r[..|buildPath|] == buildPath && r[|buildPath|] == "bin"
    ensures systemName == "Windows" <==> |r| == |buildPath| + 2
    ensures systemName == "Windows" ==> r[|buildPath| + 1] == "Release"
    ensures systemName != "Windows" ==> |r| == |buildPath| + 1
  {
    if systemName == "Windows" then buildPath + ["bin", "Release"] else buildPath + ["bin"]
  }

  /** The three directories prepared before anything else: blender and
      build below the temporary build directory, and the extension's
      parent. */
  function PrepareDirs(t: Entry, buildTemp: Path, extPath: Path): (r: Run)
    ensures r.outcome.Fail? ==> IsFileSystemError(r.outcome.error)
  {
    match MakeDirs(t, buildTemp + ["blender"])
    case Err(e) => Run(t, Fail(e))
    case Ok(t1) =>
      match MakeDirs(t1, buildTemp + ["build"])
      case Err(e) => Run(t1, Fail(e))
      case Ok(t2) => RunOf(t2, MakeDirs(t2, Parent(extPath)))
  }

  /** The configure commands as the script leaves them and runs them, or
      the exception raised before anything runs. */
  function Configure(systemName: string, version: string, compatible: set<string>, cmds: seq<seq<string>>)
    : (r: Result<seq<seq<string>>>)
  {
    if version !in compatible then Err(IncompatibleVersion(version))
    else match OptixRoot(systemName)
      case None => Err(OptixSdkUnknown)
      case Some(root) => WithFlags(cmds, OptixFlags(root))
  }

  /** The state build_cmake leaves: the tree, bin_dir, the configure
      commands, the commands spawned and the exception raised, if any. */
  datatype CMakeBuild = CMakeBuild(tree: Entry, binDir: Path, cmds: seq<seq<string>>,
                                   spawned: seq<seq<string>>, outcome: Outcome)

  /** The module move at the end of build_cmake: element 0 of the candidate
      list, an IndexError when it is empty. */
  function MoveModule(t: Entry, bin: Path, extPath: Path): (r: Run)
  {
    match BpyCandidateNames(t, bin)
    case Err(e) => Run(t, Fail(e))
    case Ok(names) =>
      if names == [] then Run(t, Fail(IndexOutOfRange))
      else RunOf(t, MoveTree(t, bin + [names[0]], extPath))
  }

  /** Without a module candidate in the binary directory, the move raises
      IndexError and changes nothing: the candidate list is indexed without
      an emptiness check. */
  lemma MoveModuleWithoutCandidate(t: Entry, bin: Path, extPath: Path)
    requires WellFormed(t) && IsDir(t, bin)
    requires forall n :: IsFile(t, bin + [n]) ==> !IsBpyCandidate(n)
    ensures MoveModule(t, bin, extPath) == Run(t, Fail(IndexOutOfRange))
  {
    var names := BpyCandidateNames(t, bin).value;
    if names != [] {
      ListingsSpec(t, bin, names[0]);
      assert false;
    }
  }

  /** build_cmake, with get_make_commands' result given as cmds; the
      checkouts and what the spawned commands build are outside this model. */
  function BuildCMakeSpec(t: Entry, binDir: Path, systemName: string, buildTemp: Path, extPath: Path,
                          version: string, compatible: set<string>, cmds: seq<seq<string>>): CMakeBuild
  {
    var prepared := PrepareDirs(t, buildTemp, extPath);
    if prepared.outcome.Fail? then CMakeBuild(prepared.tree, binDir, cmds, [], prepared.outcome)
    else match Configure(systemName, version, compatible, cmds)
      case Err(e) => CMakeBuild(prepared.tree, binDir, cmds, [], Fail(e))
      case Ok(run) =>
        var bin := BinDirFor(systemName, buildTemp + ["build"]);
        var moved := MoveModule(prepared.tree, bin, extPath);
        CMakeBuild(moved.tree, bin, run, run, moved.outcome)
  }

  method PrepareDirsRun(fs: FileSystem, buildTemp: Path, extPath: Path) returns (r: Outcome)
    requires fs.Valid()
    modifies fs
    ensures fs.Valid() && fs.cwd == old(fs.cwd)
    ensures Run(fs.root, r) == PrepareDirs(old(fs.root), buildTemp, extPath)
  {
    r := fs.MakeDirsExistOk(buildTemp + ["blender"]);
    if r.Fail? {
      return;
    }
    r := fs.MakeDirsExistOk(buildTemp + ["build"]);
    if r.Fail? {
      return;
    }
    r := fs.MakeDirsExistOk(Parent(extPath));
  }

  method MoveModuleRun(fs: FileSystem, bin: Path, extPath: Path) returns (r: Outcome)
    requires fs.Valid()
    modifies fs
    ensures fs.Valid() && fs.cwd == old(fs.cwd)
    ensures Run(fs.root, r) == MoveModule(old(fs.root), bin, extPath)
  {
    var candidates := BpyCandidateNames(fs.root, bin);
    if candidates.Err? {
      return Fail(candidates.error);
    }
    if candidates.value == [] {
      return Fail(IndexOutOfRange);
    }
    r := fs.Move(bin + [candidates.value[0]], extPath);
  }

  /** The checks and the flag update of build_cmake, on the command list in
      place. */
  method ConfigureRun(systemName: string, version: string, compatible: set<string>, cmds: array<seq<string>>)
    returns (r: Outcome)
    modifies cmds
    ensures match Configure(systemName, version, compatible, old(cmds[..]))
      case Err(e) => r == Fail(e) && cmds[..] == old(cmds[..])
      case Ok(c) => r == Pass && cmds[..] == c
  {
    if version !in compatible {
      return Fail(IncompatibleVersion(version));
    }
    var root := OptixRoot(systemName);
    if root.None? {
      return Fail(OptixSdkUnknown);
    }
    r := AppendFlags(cmds, OptixFlags(root.value));
  }

  /** BuildCMakeExt.build_cmake */
  method BuildCMake(fs: FileSystem, dist: Distribution, systemName: string, buildTemp: Path, extPath: Path,
                    version: string, compatible: set<string>, cmds: array<seq<string>>)
    returns (r: Outcome, spawned: seq<seq<string>>)
    requires fs.Valid()
    modifies fs, dist, cmds
    ensures fs.Valid() && fs.cwd == old(fs.cwd)
    ensures dist.dataFiles == old(dist.dataFiles) && dist.scripts == old(dist.scripts)
    ensures CMakeBuild(fs.root, dist.binDir, cmds[..], spawned, r) ==
      BuildCMakeSpec(old(fs.root), old(dist.binDir), systemName, buildTemp, extPath, version, compatible, old(cmds[..]))
  {
    spawned := [];
    r := PrepareDirsRun(fs, buildTemp, extPath);
    if r.Fail? {
      return;
    }
    r := ConfigureRun(systemName, version, compatible, cmds);
    if r.Fail? {
      return;
    }
    spawned := SpawnAll(cmds);
    var bin := BinDirFor(systemName, buildTemp + ["build"]);
    dist.binDir := bin;
    r := MoveModuleRun(fs, bin, extPath);
  }

  /** What BuildCMakeExt.run leaves: the tree, bin_dir, every command
      spawned, in order, and the exception that stopped it, if any. */
  datatype ExtBuild = ExtBuild(tree: Entry, binDir: Path, spawned: seq<seq<string>>, outcome: Outcome)

  function Prepend(spawned: seq<seq<string>>, b: ExtBuild): ExtBuild
  {
    b.(spawned := spawned + b.spawned)
  }

  /** The extension loop of BuildCMakeExt.run: build_cmake for each
      extension named "bpy", each call with a fresh list of configure
      commands, stopping at the first exception. */
  function BuildExtensions(t: Entry, binDir: Path, systemName: string, buildTemp: Path, version: string,
                           compatible: set<string>, cmds: seq<seq<string>>,
                           exts: seq<BpyModuleSetup.Extension>): ExtBuild
    decreases |exts|
  {
    if exts == [] then ExtBuild(t, binDir, [], Pass)
    else if exts[0].name != "bpy" then
      BuildExtensions(t, binDir, systemName, buildTemp, version, compatible, cmds, exts[1..])
    else
      var b := BuildCMakeSpec(t, binDir, systemName, buildTemp, exts[0].fullPath, version, compatible, cmds);
      if b.outcome.Fail? then ExtBuild(b.tree, b.binDir, b.spawned, b.outcome)
      else Prepend(b.spawned, BuildExtensions(b.tree, b.binDir, systemName, buildTemp, version, compatible, cmds, exts[1..]))
  }

  lemma BuildExtensionsUnfold(t: Entry, binDir: Path, systemName: string, buildTemp: Path, version: string,
                              compatible: set<string>, cmds: seq<seq<string>>,
                              exts: seq<BpyModuleSetup.Extension>, i: nat)
    requires i < |exts|
    ensures exts[i..][0] == exts[i] && exts[i..][1..] == exts[i + 1..]
  {
  }

  /** One build_cmake call of the extension loop, on a fresh list of
      configure commands. */
  method BuildWithFreshCommands(fs: FileSystem, dist: Distribution, systemName: string, buildTemp: Path,
                                extPath: Path, version: string, compatible: set<string>, cmds: seq<seq<string>>)
    returns (r: Outcome, spawned: seq<seq<string>>)
    requires fs.Valid()
    modifies fs, dist
    ensures fs.Valid() && fs.cwd == old(fs.cwd)
    ensures dist.dataFiles == old(dist.dataFiles) && dist.scripts == old(dist.scripts)
    ensures var b := BuildCMakeSpec(old(fs.root), old(dist.binDir), systemName, buildTemp, extPath, version, compatible, cmds);
      fs.root == b.tree && dist.binDir == b.binDir && spawned == b.spawned && r == b.outcome
  {
    var commands := new seq<string>[|cmds|](k requires 0 <= k < |cmds| => cmds[k]);
    assert commands[..] == cmds;
    r, spawned := BuildCMake(fs, dist, systemName, buildTemp, extPath, version, compatible, commands);
  }

  /** BuildCMakeExt.run of this script, up to the call to the base class. */
  method BuildCMakeExtRun(fs: FileSystem, dist: Distribution, systemName: string, buildTemp: Path, version: string,
                          compatible: set<string>, cmds: seq<seq<string>>, exts: seq<BpyModuleSetup.Extension>)
    returns (r: Outcome, spawned: seq<seq<string>>)
    requires fs.Valid()
    modifies fs, dist
    ensures fs.Valid() && fs.cwd == old(fs.cwd)
    ensures dist.dataFiles == old(dist.dataFiles) && dist.scripts == old(dist.scripts)
    ensures ExtBuild(fs.root, dist.binDir, spawned, r) ==
      BuildExtensions(old(fs.root), old(dist.binDir), systemName, buildTemp, version, compatible, cmds, exts)
  {
    ghost var goal := BuildExtensions(fs.root, dist.binDir, systemName, buildTemp, version, compatible, cmds, exts);
    assert exts[0..] == exts;
    spawned := [];
    r := Pass;
    var i := 0;
    while i < |exts|
      invariant 0 <= i <= |exts|
      invariant fs.Valid() && fs.cwd == old(fs.cwd)
      invariant dist.dataFiles == old(dist.dataFiles) && dist.scripts == old(dist.scripts)
      invariant goal == Prepend(spawned,
        BuildExtensions(fs.root, dist.binDir, systemName, buildTemp, version, compatible, cmds, exts[i..]))
      invariant r == Pass
    {
      var more;
      r, more := BuildNext(fs, dist, systemName, buildTemp, version, compatible, cmds, exts, i);
      spawned := spawned + more;
      if r.Fail? {
        return;
      }
      i := i + 1;
    }
    assert exts[i..] == [];
  }

  /** One iteration of the extension loop: build_cmake for the i-th
      extension when it is named "bpy", nothing otherwise. */
  method BuildNext(fs: FileSystem, dist: Distribution, systemName: string, buildTemp: Path, version: string,
                   compatible: set<string>, cmds: seq<seq<string>>, exts: seq<BpyModuleSetup.Extension>, i: nat)
    returns (r: Outcome, spawned: seq<seq<string>>)
    requires fs.Valid() && i < |exts|
    modifies fs, dist
    ensures fs.Valid() && fs.cwd == old(fs.cwd)
    ensures dist.dataFiles == old(dist.dataFiles) && dist.scripts == old(dist.scripts)
    ensures var b := BuildExtensions(old(fs.root), old(dist.binDir), systemName, buildTemp, version, compatible, cmds, exts[i..]);
      if r.Fail? then ExtBuild(fs.root, dist.binDir, spawned, r) == b
      else r == Pass && Prepend(spawned,
        BuildExtensions(fs.root, dist.binDir, systemName, buildTemp, version, compatible, cmds, exts[i + 1..])) == b
  {
    BuildExtensionsUnfold(fs.root, dist.binDir, systemName, buildTemp, version, compatible, cmds, exts, i);
    spawned := [];
    r := Pass;
    if exts[i].name == "bpy" {
      r, spawned := BuildWithFreshCommands(fs, dist, systemName, buildTemp, exts[i].fullPath, version, compatible, cmds);
    }
  }

  /** InstallBlenderScripts.run of this script: the data directories are
      moved into the build directory, replacing what is in the way. */
  method InstallBlenderScripts(fs: FileSystem, dist: Distribution, buildDir: Path) returns (r: Outcome)
    requires fs.Valid()
    modifies fs, dist
    ensures fs.Valid() && fs.cwd == old(fs.cwd)
    ensures dist.binDir == old(dist.binDir) && dist.dataFiles == old(dist.dataFiles)
    ensures match ScriptDirNames(old(fs.root), old(dist.binDir))
      case Err(e) => r == Fail(e) && fs.root == old(fs.root) && dist.scripts == old(dist.scripts)
      case Ok(dirs) =>
        Run(fs.root, r) == StageEach(old(fs.root), MoveReplacing, old(dist.binDir), dirs, buildDir)
        && dist.scripts == if r == Pass then Under(old(dist.binDir), dirs) else old(dist.scripts)
  {
    r := SetupCommands.InstallBlenderScripts(fs, dist, buildDir, MoveReplacing);
  }

  // ---------------------------------------------------------------------
  // Properties of build_cmake

  /** Outside Windows the build always fails and runs nothing: the OptiX SDK
      is looked for on Windows only. */
  lemma OnlyWindowsBuilds(t: Entry, binDir: Path, systemName: string, buildTemp: Path, extPath: Path,
                          version: string, compatible: set<string>, cmds: seq<seq<string>>)
    requires systemName != "Windows"
    ensures var b := BuildCMakeSpec(t, binDir, systemName, buildTemp, extPath, version, compatible, cmds);
      b.outcome.Fail? && b.spawned == [] && b.binDir == binDir && b.cmds == cmds
    ensures var b := BuildCMakeSpec(t, binDir, systemName, buildTemp, extPath, version, compatible, cmds);
      PrepareDirs(t, buildTemp, extPath).outcome == Pass && version in compatible ==>
        b.outcome == Fail(OptixSdkUnknown)
  {
  }

  /** So bin_dir, once set, is always the Release directory: the other
      branch of its choice cannot be reached. */
  lemma BinDirIsRelease(t: Entry, binDir: Path, systemName: string, buildTemp: Path, extPath: Path,
                        version: string, compatible: set<string>, cmds: seq<seq<string>>)
    ensures var b := BuildCMakeSpec(t, binDir, systemName, buildTemp, extPath, version, compatible, cmds);
      b.spawned != [] ==> b.binDir == buildTemp + ["build", "bin", "Release"]
  {
    if systemName != "Windows" {
      OnlyWindowsBuilds(t, binDir, systemName, buildTemp, extPath, version, compatible, cmds);
    }
  }

  /** Every command runs, in order, and the last one ends with the OptiX
      switches pointing at the Windows SDK location; an empty command list
      raises IndexError before anything runs. */
  lemma ConfiguredCommands(t: Entry, binDir: Path, systemName: string, buildTemp: Path, extPath: Path,
                           version: string, compatible: set<string>, cmds: seq<seq<string>>)
    ensures var b := BuildCMakeSpec(t, binDir, systemName, buildTemp, extPath, version, compatible, cmds);
      b.spawned != [] ==>
        b.spawned == b.cmds && |b.cmds| == |cmds|
        && (forall i :: 0 <= i < |cmds| - 1 ==> b.cmds[i] == cmds[i])
        && b.cmds[|cmds| - 1] == cmds[|cmds| - 1] + OptixFlags(OptixRootWindows)
    ensures var b := BuildCMakeSpec(t, binDir, systemName, buildTemp, extPath, version, compatible, cmds);
      cmds == [] ==>
        && b.spawned == [] && b.outcome.Fail?
        && (PrepareDirs(t, buildTemp, extPath).outcome == Pass && version in compatible && systemName == "Windows"
            ==> b.outcome == Fail(IndexOutOfRange))
  {
  }

  /** preparing the directories creates no file. */
  lemma PrepareDirsNoNewFiles(t: Entry, buildTemp: Path, extPath: Path, q: Path)
    requires PrepareDirs(t, buildTemp, extPath).outcome == Pass
    requires var t' := PrepareDirs(t, buildTemp, extPath).tree; Exists(t', q) && !IsDir(t', q)
    ensures Get(PrepareDirs(t, buildTemp, extPath).tree, q) == Get(t, q)
  {
    var t1 := MakeDirs(t, buildTemp + ["blender"]).value;
    var t2 := MakeDirs(t1, buildTemp + ["build"]).value;
    MakeDirsNoNewFiles(t2, Parent(extPath), q);
    MakeDirsNoNewFiles(t1, buildTemp + ["build"], q);
    MakeDirsNoNewFiles(t, buildTemp + ["blender"], q);
  }

  /** A successful build moves a module candidate of the Release directory,
      the first one listed, to the extension's path. */
  lemma SuccessfulBuildMovesModule(t: Entry, binDir: Path, systemName: string, buildTemp: Path, extPath: Path,
                                   version: string, compatible: set<string>, cmds: seq<seq<string>>)
    requires WellFormed(t)
    requires BuildCMakeSpec(t, binDir, systemName, buildTemp, extPath, version, compatible, cmds).outcome == Pass
    ensures systemName == "Windows" && version in compatible && cmds != []
    ensures var b := BuildCMakeSpec(t, binDir, systemName, buildTemp, extPath, version, compatible, cmds);
      var t3 := PrepareDirs(t, buildTemp, extPath).tree;
      var n := BpyCandidateNames(t3, b.binDir).value[0];
      var src := b.binDir + [n];
      IsBpyCandidate(n) && IsFile(t, src)
      && (TargetPath(t3, src, extPath) != src && src != extPath ==>
            Get(b.tree, TargetPath(t3, src, extPath)) == Named(Get(t, src), Basename(TargetPath(t3, src, extPath)))
            && !Exists(b.tree, src))
  {
    var t3 := PrepareDirs(t, buildTemp, extPath).tree;
    var bin := BinDirFor(systemName, buildTemp + ["build"]);
    var names := BpyCandidateNames(t3, bin).value;
    var n := names[0];
    var src := bin + [n];
    var t1 := MakeDirs(t, buildTemp + ["blender"]).value;
    var t2 := MakeDirs(t1, buildTemp + ["build"]).value;
    MakeDirsWellFormed(t, buildTemp + ["blender"]);
    MakeDirsWellFormed(t1, buildTemp + ["build"]);
    MakeDirsWellFormed(t2, Parent(extPath));
    ListingFails(t3, bin);
    ListingsSpec(t3, bin, n);
    assert n in names;
    PrepareDirsNoNewFiles(t, buildTemp, extPath, src);
    if TargetPath(t3, src, extPath) != src && src != extPath {
      MoveTreeOk(t3, src, extPath);
    }
  }

  /** Extensions not named "bpy" are skipped: without one, nothing is built,
      spawned or changed. */
  lemma {:induction false} NothingToBuild(t: Entry, binDir: Path, systemName: string, buildTemp: Path, version: string,
                                          compatible: set<string>, cmds: seq<seq<string>>,
                                          exts: seq<BpyModuleSetup.Extension>)
    requires forall i :: 0 <= i < |exts| ==> exts[i].name != "bpy"
    ensures BuildExtensions(t, binDir, systemName, buildTemp, version, compatible, cmds, exts) ==
      ExtBuild(t, binDir, [], Pass)
    decreases |exts|
  {
    if exts != [] {
      NothingToBuild(t, binDir, systemName, buildTemp, version, compatible, cmds, exts[1..]);
    }
  }

  /** Outside Windows, an extension named "bpy" always makes the build
      fail, and nothing is spawned. */
  lemma {:induction false} NoBuildOutsideWindows(t: Entry, binDir: Path, systemName: string, buildTemp: Path,
                                                 version: string, compatible: set<string>, cmds: seq<seq<string>>,
                                                 exts: seq<BpyModuleSetup.Extension>, k: nat)
    requires systemName != "Windows"
    requires k < |exts| && exts[k].name == "bpy"
    ensures var b := BuildExtensions(t, binDir, systemName, buildTemp, version, compatible, cmds, exts);
      b.outcome.Fail? && b.spawned == [] && b.binDir == binDir
    decreases |exts|
  {
    if exts[0].name == "bpy" {
      OnlyWindowsBuilds(t, binDir, systemName, buildTemp, exts[0].fullPath, version, compatible, cmds);
    } else {
      NoBuildOutsideWindows(t, binDir, systemName, buildTemp, version, compatible, cmds, exts[1..], k - 1);
    }
  }
}

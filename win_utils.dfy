/** The Windows build helpers: the Visual Studio pick, the precompiled
    library repository, the cmake call, the selection of what
    install_blender_python copies, and the search for the built module. */
module WinUtils {
  import opened Paths
  import opened Outcomes
  import opened FileTree
  import opened FileSystems
  import opened Walks

  // ---------------------------------------------------------------------
  // get_vs_version

  /** The Visual Studio the build uses, given whether the registry keys of
      Visual Studio 2013, 2015 and 2017 (DTE 12.0, 14.0, 15.0) open. */
  function NewestVisualStudio(has2013: bool, has2015: bool, has2017: bool): (r: Result<nat>)
    ensures r.Err? <==> !has2013 && !has2015 && !has2017
    ensures r.Err? ==> r.error == VisualStudioMissing
  {
    if has2017 then Ok(2017)
    else if has2015 then Ok(2015)
    else if has2013 then Ok(2013)
    else Err(VisualStudioMissing)
  }

  /** get_vs_version: the probes run from oldest to newest and each one that
      succeeds overwrites the result. */
  method GetVsVersion(has2013: bool, has2015: bool, has2017: bool) returns (r: Result<nat>)
    ensures r == NewestVisualStudio(has2013, has2015, has2017)
  {
    var available2013 := false;
    var available2015 := false;
    var available2017 := false;
    var result: Option<nat> := None;
    if has2013 {
      available2013 := true;
      result := Some(2013);
    }
    if has2015 {
      available2015 := true;
      result := Some(2015);
    }
    if has2017 {
      available2017 := true;
      result := Some(2017);
    }
    if !available2013 && !available2015 && !available2017 {
      return Err(VisualStudioMissing);
    }
    r := Ok(result.value);
  }

  /** The version picked is one that is installed, and no installed one is
      newer. */
  lemma NewestWins(has2013: bool, has2015: bool, has2017: bool)
    requires NewestVisualStudio(has2013, has2015, has2017).Ok?
    ensures var v := NewestVisualStudio(has2013, has2015, has2017).value;
      (v == 2013 && has2013) || (v == 2015 && has2015) || (v == 2017 && has2017)
    ensures var v := NewestVisualStudio(has2013, has2015, has2017).value;
      (has2013 ==> 2013 <= v) && (has2015 ==> 2015 <= v) && (has2017 ==> 2017 <= v)
  {
  }

  // ---------------------------------------------------------------------
  // VS_LIBS and the svn repository

  /** The precompiled library directory for a Visual Studio version. */
  function VsLibs(vs: nat): (r: string)
    ensures r == "lib/win64_vc12" <==> vs == 2013
    ensures r == "lib/win64_vc14" <==> vs != 2013
  {
    if vs == 2013 then "lib/win64_vc12" else "lib/win64_vc14"
  }

  const SvnTrunk: string := "https://svn.blender.org/svnroot/bf-blender/trunk/"

  /** BLENDER_SVN_REPO_URL */
  function SvnRepoUrl(vs: nat): (r: string)
    ensures StartsWith(r, SvnTrunk) && r[|SvnTrunk|..] == VsLibs(vs)
  {
    SvnTrunk + VsLibs(vs)
  }

  /** The Visual Studio 12 libraries are fetched only when 2013 is the one
      Visual Studio installed. */
  lemma LibsForProbes(has2013: bool, has2015: bool, has2017: bool)
    requires NewestVisualStudio(has2013, has2015, has2017).Ok?
    ensures var libs := VsLibs(NewestVisualStudio(has2013, has2015, has2017).value);
      libs == "lib/win64_vc12" <==> has2013 && !has2015 && !has2017
  {
  }

  // ---------------------------------------------------------------------
  // Importing win_utils: the module-level statements of lines 86-316

  /** The global names bound when line 311 runs: the imports and the
      definitions and assignments above it. Only module globals are
      modelled; Python's builtins, which a lookup also falls back to, are
      not in the set. */
  const BoundAtLine311: set<string> := {
    "ctypes", "os", "shutil", "site", "subprocess", "sys", "Dict", "List", "Optional",
    "winreg", "Repo", "numpy", "svn", "common_utils",
    "is_admin", "run_as_admin", "get_vs_version", "VS_VERSION",
    "VS_DEV_TOOLS_KNOWN_DIRS", "VS_DEV_TOOLS_KNOWN_COMMANDS",
    "find_vs_dev_tools_in_dir", "find_vs_dev_tools_from_subkeys",
    "find_vs_dev_tools_from_keys", "find_vs_dev_tools_from_known_dirs",
    "get_all_vc_dev_tools"
  }

  /** The module-level values an importer of win_utils reads. */
  datatype ModuleValues = ModuleValues(vsVersion: nat, vsLibs: string, svnRepoUrl: string)

  /** Running the module body from line 86 on: VS_VERSION = get_vs_version(),
      then line 311 calls the global named called, which must be bound by
      then, and then VS_LIBS and BLENDER_SVN_REPO_URL are computed. */
  function ImportModule(has2013: bool, has2015: bool, has2017: bool, called: string): (r: Result<ModuleValues>)
    ensures r.Ok? <==> (has2013 || has2015 || has2017) && called in BoundAtLine311
    ensures r.Err? && called !in BoundAtLine311 && (has2013 || has2015 || has2017) ==>
      r.error == NameUnbound(called)
    ensures r.Err? && !has2013 && !has2015 && !has2017 ==> r.error == VisualStudioMissing
    ensures r.Ok? ==> r.value.vsVersion == NewestVisualStudio(has2013, has2015, has2017).value
    ensures r.Ok? ==> r.value.vsLibs == VsLibs(r.value.vsVersion)
                      && StartsWith(r.value.svnRepoUrl, SvnTrunk)
                      && r.value.svnRepoUrl[|SvnTrunk|..] == r.value.vsLibs
  {
    var vs :- NewestVisualStudio(has2013, has2015, has2017);
    if called !in BoundAtLine311 then Err(NameUnbound(called))
    else Ok(ModuleValues(vs, VsLibs(vs), SvnRepoUrl(vs)))
  }

  /** As written, line 311 calls get_vc_build_tools_dir, which the module
      never defines: importing win_utils always raises, so VS_LIBS,
      BLENDER_SVN_REPO_URL and every function after line 311 never exist
      for an importer. */
  lemma ImportAsWrittenFails(has2013: bool, has2015: bool, has2017: bool)
    ensures ImportModule(has2013, has2015, has2017, "get_vc_build_tools_dir").Err?
    ensures has2013 || has2015 || has2017 ==>
      ImportModule(has2013, has2015, has2017, "get_vc_build_tools_dir").error
        == NameUnbound("get_vc_build_tools_dir")
  {
    assert "get_vc_build_tools_dir" !in BoundAtLine311;
  }

  /** Calling get_all_vc_dev_tools, the function defined just above, the
      import succeeds exactly when some Visual Studio is installed, and the
      vc12 libraries are chosen iff 2013 is the only one. */
  lemma ImportCorrected(has2013: bool, has2015: bool, has2017: bool)
    ensures ImportModule(has2013, has2015, has2017, "get_all_vc_dev_tools").Ok?
      <==> has2013 || has2015 || has2017
    ensures ImportModule(has2013, has2015, has2017, "get_all_vc_dev_tools").Ok? ==>
      var libs := ImportModule(has2013, has2015, has2017, "get_all_vc_dev_tools").value.vsLibs;
      libs == "lib/win64_vc12" <==> has2013 && !has2015 && !has2017
  {
    if has2013 || has2015 || has2017 {
      LibsForProbes(has2013, has2015, has2017);
    }
  }

  // ---------------------------------------------------------------------
  // make_blender_python

  /** The cmake call configuring root/blender into root/build as a Python
      module. */
  function ConfigureArgs(root: string): (r: seq<string>)
    ensures |r| == 6 && r[0] == "cmake"
    ensures |r[1]| >= 2 && |r[2]| >= 2
    ensures r[1][..2] == "-H" && StartsWith(r[1][2..], root) && EndsWith(r[1][2..], "blender")
    ensures r[2][..2] == "-B" && StartsWith(r[2][2..], root) && EndsWith(r[2][2..], "build")
    ensures r[3..] == ["-DWITH_PLAYER=OFF", "-DWITH_PYTHON_INSTALL=OFF", "-DWITH_PYTHON_MODULE=ON"]
  {
    var h := "-H" + NtJoin(root, "blender");
    var b := "-B" + NtJoin(root, "build");
    assert h[2..] == NtJoin(root, "blender") && b[2..] == NtJoin(root, "build");
    ["cmake", h, b, "-DWITH_PLAYER=OFF", "-DWITH_PYTHON_INSTALL=OFF", "-DWITH_PYTHON_MODULE=ON"]
  }

  /** The source and build directories are never the same: cmake does not
      build in the source tree. */
  lemma ConfigureOutOfSource(root: string)
    ensures ConfigureArgs(root)[1][2..] != ConfigureArgs(root)[2][2..]
  {
    var src := ConfigureArgs(root)[1][2..];
    var bld := ConfigureArgs(root)[2][2..];
    assert src[|src| - 7..][6] == 'r';
    assert bld[|bld| - 5..][4] == 'd';
  }

  // ---------------------------------------------------------------------
  // install_blender_python: what it would copy

  predicate IsBuildDirName(n: Name)
  {
    StartsWith(n, "build")
  }

  /** The build directory: the first entry of root_dir whose name starts
      with "build". */
  function BuildDirOf(names: seq<Name>): (r: Result<Name>)
    ensures r.Err? <==> forall j :: 0 <= j < |names| ==> !IsBuildDirName(names[j])
    ensures r.Err? ==> r.error == BuildDirNotFound
    ensures r.Ok? ==> exists k :: 0 <= k < |names| && names[k] == r.value && IsBuildDirName(r.value)
                           && forall j :: 0 <= j < k ==> !IsBuildDirName(names[j])
  {
    match FirstMatch(names, IsBuildDirName)
    case None => Err(BuildDirNotFound)
    case Some(k) => Ok(names[k])
  }

  /** The loop over os.listdir(root_dir) that breaks at the first build
      directory. */
  method FindBuildDir(names: seq<Name>) returns (r: Result<Name>)
    ensures r == BuildDirOf(names)
  {
    var i := 0;
    while i < |names| && !IsBuildDirName(names[i])
      invariant 0 <= i <= |names|
      invariant forall j :: 0 <= j < i ==> !IsBuildDirName(names[j])
    {
      i := i + 1;
    }
    if i == |names| {
      return Err(BuildDirNotFound);
    }
    r := Ok(names[i]);
  }

  /** The Python values the DLL filter compares. */
  datatype PyValue = PyStr(s: string) | PyTuple(items: seq<PyValue>)

  /** The DLL test as written: the (root, ext) pair os.path.splitext returns
      is compared with the string ".dll", and a tuple never equals a
      string. */
  predicate IsDllToCopyAsWritten(n: Name)
  {
    var (root, ext) := SplitExt(n);
    PyTuple([PyStr(root), PyStr(ext)]) == PyStr(".dll") && !StartsWith(n, "python")
  }

  /** The DLL test the docstring describes: every .dll but the Python
      runtime's. */
  predicate IsDllToCopy(n: Name)
  {
    SplitExt(n).1 == ".dll" && !StartsWith(n, "python")
  }

  function Select(names: seq<Name>, p: Name -> bool): (r: seq<Name>)
    ensures forall n :: n in r <==> n in names && p(n)
    ensures |r| <= |names|
  {
    if names == [] then []
    else (if p(names[0]) then [names[0]] else []) + Select(names[1..], p)
  }

  /** dlls_to_copy as written */
  function DllsToCopyAsWritten(names: seq<Name>): seq<Name>
  {
    Select(names, IsDllToCopyAsWritten)
  }

  /** dlls_to_copy as the docstring intends it */
  function DllsToCopy(names: seq<Name>): seq<Name>
  {
    Select(names, IsDllToCopy)
  }

  /** As written, no file is ever selected, whatever the listing. */
  lemma {:induction false} DllsToCopyAsWrittenEmpty(names: seq<Name>)
    ensures DllsToCopyAsWritten(names) == []
    decreases |names|
  {
    if names != [] {
      DllsToCopyAsWrittenEmpty(names[1..]);
    }
  }

  /** A library build output is listed but not selected as written, and is
      selected by the intended test. */
  lemma LibraryDllSkipped()
    ensures DllsToCopyAsWritten(["tbb.dll"]) == []
    ensures DllsToCopy(["tbb.dll"]) == ["tbb.dll"]
  {
    DllsToCopyAsWrittenEmpty(["tbb.dll"]);
    SplitExtAt("tbb.dll", 3);
    assert "tbb.dll"[..3] == "tbb" && "tbb.dll"[3..] == ".dll";
    assert !StartsWith("tbb.dll", "python");
    assert ["tbb.dll"][1..] == [];
  }

  /** The intended test keeps the listing's order and leaves out the Python
      runtime. */
  lemma DllsToCopySpec(names: seq<Name>)
    ensures forall n :: n in DllsToCopy(names) <==> n in names && SplitExt(n).1 == ".dll" && !StartsWith(n, "python")
    ensures !("python36.dll" in DllsToCopy(names))
  {
    assert "python36.dll"[..6] == "python";
  }

  /** The names of a listing that os.path.isdir accepts: the name alone is
      resolved against the working directory, not against bin_dir. */
  function DirsToCopy(t: Entry, cwd: Path, names: seq<Name>): (r: seq<Name>)
    ensures forall n :: n in r <==> n in names && IsDir(t, cwd + [n])
  {
    Select(names, n => IsDir(t, cwd + [n]))
  }

  /** What install_blender_python selects before it copies anything. */
  datatype Selection = Selection(binDir: Path, bpyToCopy: Path, dirs: seq<Name>, dlls: seq<Name>)

  /** The selection: the build directory's name from root_dir, bin_dir below
      it relative to the working directory, bpy.pyd in it, its entries that
      are directories below the working directory, and its DLLs by the test
      as written. */
  function InstallSelection(t: Entry, cwd: Path, rootDir: Path): Result<Selection>
  {
    var listing :- ListDir(t, rootDir);
    var b :- BuildDirOf(Names(listing));
    var bin := cwd + [b, "bin", "Release"];
    var entries :- ListDir(t, bin);
    Ok(Selection(bin, bin + ["bpy.pyd"], DirsToCopy(t, cwd, Names(entries)), DllsToCopyAsWritten(Names(entries))))
  }

  /** install_blender_python up to its first copy. */
  method InstallBlenderPython(fs: FileSystem, rootDir: Path) returns (r: Result<Selection>)
    requires fs.Valid()
    ensures r == InstallSelection(fs.root, fs.cwd, rootDir)
    ensures r.Ok? ==> r.value.dlls == []
  {
    var listing := ListDir(fs.root, rootDir);
    if listing.Err? {
      return Err(listing.error);
    }
    var b := FindBuildDir(Names(listing.value));
    if b.Err? {
      return Err(b.error);
    }
    var bin := fs.cwd + [b.value, "bin", "Release"];
    var entries := ListDir(fs.root, bin);
    if entries.Err? {
      return Err(entries.error);
    }
    DllsToCopyAsWrittenEmpty(Names(entries.value));
    r := Ok(Selection(bin, bin + ["bpy.pyd"], DirsToCopy(fs.root, fs.cwd, Names(entries.value)),
                      DllsToCopyAsWritten(Names(entries.value))));
  }

  /** It fails when root_dir is not a directory... */
  lemma InstallSelectionNoRoot(t: Entry, cwd: Path, rootDir: Path)
    requires !IsDir(t, rootDir)
    ensures InstallSelection(t, cwd, rootDir).Err?
    ensures IsFileSystemError(InstallSelection(t, cwd, rootDir).error)
  {
  }

  /** ...or holds no entry whose name starts with "build"... */
  lemma InstallSelectionNoBuildDir(t: Entry, cwd: Path, rootDir: Path)
    requires WellFormed(t) && IsDir(t, rootDir)
    requires forall n :: Exists(t, rootDir + [n]) ==> !IsBuildDirName(n)
    ensures InstallSelection(t, cwd, rootDir) == Err(BuildDirNotFound)
  {
    var names := Names(ListDir(t, rootDir).value);
    forall j | 0 <= j < |names|
      ensures !IsBuildDirName(names[j])
    {
      ListedExists(t, rootDir, j);
    }
  }

  /** ...and otherwise bin_dir is build.../bin/Release resolved against the
      working directory, not against root_dir, with build... an entry of
      root_dir. */
  lemma InstallSelectionOk(t: Entry, cwd: Path, rootDir: Path)
    requires WellFormed(t) && InstallSelection(t, cwd, rootDir).Ok?
    ensures var s := InstallSelection(t, cwd, rootDir).value;
      && |s.binDir| == |cwd| + 3 && s.binDir[..|cwd|] == cwd && s.binDir[|cwd| + 1..] == ["bin", "Release"]
      && Exists(t, rootDir + [s.binDir[|cwd|]]) && IsBuildDirName(s.binDir[|cwd|])
      && IsDir(t, s.binDir) && s.bpyToCopy == s.binDir + ["bpy.pyd"]
    ensures var s := InstallSelection(t, cwd, rootDir).value;
      s.dlls == [] && forall n :: n in s.dirs <==> Exists(t, s.binDir + [n]) && IsDir(t, cwd + [n])
  {
    var names := Names(ListDir(t, rootDir).value);
    var b := BuildDirOf(names).value;
    var k :| 0 <= k < |names| && names[k] == b && IsBuildDirName(b);
    ListedExists(t, rootDir, k);
    var bin := cwd + [b, "bin", "Release"];
    assert bin[|cwd|] == b && bin[..|cwd|] == cwd && bin[|cwd| + 1..] == ["bin", "Release"];
    var entries := Names(ListDir(t, bin).value);
    DllsToCopyAsWrittenEmpty(entries);
    forall n ensures n in entries <==> Exists(t, bin + [n]) {
      ListedIff(t, bin, n);
    }
  }

  /** A name is listed exactly when it resolves below the listed directory. */
  lemma ListedIff(t: Entry, dir: Path, n: Name)
    requires WellFormed(t) && IsDir(t, dir)
    ensures n in Names(ListDir(t, dir).value) <==> Exists(t, dir + [n])
  {
    var cs := Get(t, dir).value.children;
    GetAppend(t, dir, [n]);
    if n in Names(cs) {
      var j :| 0 <= j < |cs| && Names(cs)[j] == n;
      ListedExists(t, dir, j);
    }
  }

  /** Each listed name resolves below the listed directory. */
  lemma ListedExists(t: Entry, dir: Path, j: nat)
    requires WellFormed(t) && IsDir(t, dir)
    requires j < |Names(ListDir(t, dir).value)|
    ensures Exists(t, dir + [Names(ListDir(t, dir).value)[j]])
  {
    var cs := Get(t, dir).value.children;
    GetWellFormed(t, dir);
    GetAppend(t, dir, [cs[j].name]);
    IndexOfUnique(cs, j);
  }

  // ---------------------------------------------------------------------
  // find_blender_python

  /** The first walked directory holding bpy.pyd, by that exact name. */
  function FindBlenderPython(t: Entry, rootDir: Path): (r: Result<Path>)
    ensures var w := WalkAt(t, rootDir);
      r.Ok? <==> exists i :: 0 <= i < |w| && "bpy.pyd" in w[i].files
    ensures var w := WalkAt(t, rootDir);
      r.Ok? ==> exists i :: 0 <= i < |w| && w[i].path == r.value && "bpy.pyd" in w[i].files
                  && forall j :: 0 <= j < i ==> "bpy.pyd" !in w[j].files
    ensures r.Err? ==> r.error == BlenderModuleNotFound(rootDir)
  {
    FindDirContaining(t, rootDir, "bpy.pyd")
  }

  /** In a well-formed tree it fails exactly when no directory below root
      holds a non-directory named bpy.pyd. */
  lemma FindBlenderPythonSpec(t: Entry, rootDir: Path)
    requires WellFormed(t)
    ensures FindBlenderPython(t, rootDir).Ok? <==>
      exists q :: rootDir <= q && IsDir(t, q) && Exists(t, q + ["bpy.pyd"]) && !IsDir(t, q + ["bpy.pyd"])
    ensures FindBlenderPython(t, rootDir).Ok? ==>
      var q := FindBlenderPython(t, rootDir).value;
      rootDir <= q && Exists(t, q + ["bpy.pyd"]) && !IsDir(t, q + ["bpy.pyd"])
    ensures FindBlenderPython(t, rootDir).Ok? ==>
      var w := WalkAt(t, rootDir);
      exists i :: 0 <= i < |w| && w[i].path == FindBlenderPython(t, rootDir).value
        && forall j :: 0 <= j < i ==> !(Exists(t, w[j].path + ["bpy.pyd"]) && !IsDir(t, w[j].path + ["bpy.pyd"]))
  {
    FindDirContainingSpec(t, rootDir, "bpy.pyd");
  }
}

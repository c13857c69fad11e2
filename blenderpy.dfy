/** The install-time helpers of the blenderpy package: recognising Blender's
    versioned data directory (e.g. "2.91", holding "datafiles" and
    "scripts") and the per-OS directories the package searches and installs
    into. */
module BlenderPy {
  import opened Paths
  import opened Outcomes
  import opened FileTree
  import opened Walks

  /** What the helpers read from the interpreter: platform.system(), the
      directory holding sys.executable, and sys.version_info's major and
      minor numbers. */
  datatype Host = Host(systemName: string, executableDir: Path, pythonMajor: nat, pythonMinor: nat)

  const DataFilesName: Name := "datafiles"
  const ScriptsName: Name := "scripts"

  /** re.match(r"\d\.\d\d", name): a digit, a dot and two digits at the start
      of the name; anything may follow. */
  predicate MatchesScriptsDirPattern(name: Name)
  {
    |name| >= 4 && IsDigit(name[0]) && name[1] == '.' && IsDigit(name[2]) && IsDigit(name[3])
  }

  /** The test the finder applies to each os.walk triple. */
  predicate IsScriptsDirStep(s: WalkStep)
  {
    MatchesScriptsDirPattern(Basename(s.path)) && DataFilesName in s.dirs && ScriptsName in s.dirs
  }

  /** A Blender data directory at q, stated on the tree itself. */
  predicate ScriptsDirAt(t: Entry, q: Path)
  {
    IsDir(t, q) && MatchesScriptsDirPattern(Basename(q))
    && IsDir(t, q + [DataFilesName]) && IsDir(t, q + [ScriptsName])
  }

  /** find_blender_scripts_directory: the first directory of the top-down
      walk from searchRoot that passes the test, or None. */
  function FindBlenderScriptsDirectory(t: Entry, searchRoot: Path): (r: Option<Path>)
    ensures var w := WalkAt(t, searchRoot);
      r.Some? <==> exists i :: 0 <= i < |w| && IsScriptsDirStep(w[i])
    ensures var w := WalkAt(t, searchRoot);
      r.Some? ==> exists i :: 0 <= i < |w| && w[i].path == r.value && IsScriptsDirStep(w[i])
                    && forall j :: 0 <= j < i ==> !IsScriptsDirStep(w[j])
    ensures r.Some? ==> MatchesScriptsDirPattern(Basename(r.value)) && r.value != []
  {
    FindFirstDir(t, searchRoot, IsScriptsDirStep)
  }

  /** In a well-formed tree the finder succeeds exactly when some data
      directory lies at or below the search root, and what it returns is one. */
  lemma FindBlenderScriptsDirectorySpec(t: Entry, searchRoot: Path)
    requires WellFormed(t)
    ensures FindBlenderScriptsDirectory(t, searchRoot).Some? <==>
      exists q :: searchRoot <= q && ScriptsDirAt(t, q)
    ensures FindBlenderScriptsDirectory(t, searchRoot).Some? ==>
      var q := FindBlenderScriptsDirectory(t, searchRoot).value;
      searchRoot <= q && ScriptsDirAt(t, q)
  {
    FindFirstDirFound(t, searchRoot, IsScriptsDirStep);
    forall q | IsDir(t, q)
      ensures IsScriptsDirStep(StepOf(q, Get(t, q).value)) <==> ScriptsDirAt(t, q)
    {
      HasDirChild(t, q, DataFilesName);
      HasDirChild(t, q, ScriptsName);
    }
  }

  /** With a single data directory below the search root, that is the one
      found. */
  lemma FindBlenderScriptsDirectoryUnique(t: Entry, searchRoot: Path, q: Path)
    requires WellFormed(t) && searchRoot <= q && ScriptsDirAt(t, q)
    requires forall q' :: searchRoot <= q' && ScriptsDirAt(t, q') ==> q' == q
    ensures FindBlenderScriptsDirectory(t, searchRoot) == Some(q)
  {
    FindBlenderScriptsDirectorySpec(t, searchRoot);
  }

  /** The pattern is anchored at the start and wants a single-digit major
      version: "2.91" and "2.91a" match, "v2.91", "10.00" and "2.9" do not. */
  lemma PatternExamples()
    ensures MatchesScriptsDirPattern("2.91") && MatchesScriptsDirPattern("2.91a")
    ensures !MatchesScriptsDirPattern("v2.91") && !MatchesScriptsDirPattern("10.00")
    ensures !MatchesScriptsDirPattern("2.9") && !MatchesScriptsDirPattern("")
  {
  }

  /** The walk of an empty directory is its own step. */
  lemma WalkEmptyDir(p: Path, n: Name)
    ensures Walk(p, Dir(n, [])) == [StepOf(p, Dir(n, []))]
  {
    assert WalkFrom(p, Dir(n, []), 0) == [];
  }

  /** The walk of a one-level sample: the root, the version directory, then
      the subdirectories of the latter, each empty. */
  lemma WalkOfSample(c: Entry)
    requires c.Dir?
    ensures WalkAt(Dir("", [c]), []) == [StepOf([], Dir("", [c])), StepOf([c.name], c)] + WalkFrom([c.name], c, 0)
  {
    var t := Dir("", [c]);
    assert Get(t, []) == Some(t);
    assert [] + [c.name] == [c.name];
    assert WalkFrom([], t, 1) == [];
    assert WalkFrom([], t, 0) == Walk([c.name], c);
  }

  /** A "2.91" directory holding both "datafiles" and "scripts" is found. */
  lemma RecognisesDataDirectory()
    ensures FindBlenderScriptsDirectory(
              Dir("", [Dir("2.91", [Dir("datafiles", []), Dir("scripts", [])])]), []) == Some(["2.91"])
  {
    var c := Dir("2.91", [Dir("datafiles", []), Dir("scripts", [])]);
    var t := Dir("", [c]);
    WalkOfSample(c);
    var w := WalkAt(t, []);
    assert DirNames(c.children) == ["datafiles", "scripts"] by {
      assert c.children[1..] == [Dir("scripts", [])] && c.children[1..][1..] == [];
    }
    assert w[0] == StepOf([], t) && w[1] == StepOf(["2.91"], c);
    assert !IsScriptsDirStep(w[0]) && IsScriptsDirStep(w[1]);
  }

  /** A "2.91" directory holding "datafiles" only is not. */
  lemma IgnoresDirectoryWithoutScripts()
    ensures FindBlenderScriptsDirectory(Dir("", [Dir("2.91", [Dir("datafiles", [])])]), []) == None
  {
    var d := Dir("datafiles", []);
    var c := Dir("2.91", [d]);
    var t := Dir("", [c]);
    WalkOfSample(c);
    WalkEmptyDir(["2.91"] + ["datafiles"], "datafiles");
    assert WalkFrom(["2.91"], c, 1) == [];
    var w := WalkAt(t, []);
    assert w == [StepOf([], t), StepOf(["2.91"], c), StepOf(["2.91"] + ["datafiles"], d)];
    assert DirNames(c.children) == ["datafiles"];
    assert !IsScriptsDirStep(w[0]) && !IsScriptsDirStep(w[1]) && !IsScriptsDirStep(w[2]);
  }

  /** A "scripts" entry that is a file does not count as the subdirectory. */
  lemma IgnoresScriptsFile()
    ensures FindBlenderScriptsDirectory(
              Dir("", [Dir("2.91", [Dir("datafiles", []), File("scripts")])]), []) == None
  {
    var d := Dir("datafiles", []);
    var c := Dir("2.91", [d, File("scripts")]);
    var t := Dir("", [c]);
    WalkOfSample(c);
    WalkEmptyDir(["2.91"] + ["datafiles"], "datafiles");
    assert WalkFrom(["2.91"], c, 2) == [];
    assert WalkFrom(["2.91"], c, 1) == [];
    var w := WalkAt(t, []);
    assert w == [StepOf([], t), StepOf(["2.91"], c), StepOf(["2.91"] + ["datafiles"], d)];
    assert DirNames(c.children) == ["datafiles"] by {
      assert c.children[1..] == [File("scripts")] && c.children[1..][1..] == [];
    }
    assert !IsScriptsDirStep(w[0]) && !IsScriptsDirStep(w[1]) && !IsScriptsDirStep(w[2]);
  }

  // ---------------------------------------------------------------------
  // Per-OS directories

  predicate IsKnownSystem(systemName: string)
  {
    systemName == "Darwin" || systemName == "Linux" || systemName == "Windows"
  }

  /** A Windows interpreter whose directory is named "Scripts" in any case
      is taken to be a virtual environment's. */
  predicate InVirtualEnv(h: Host)
  {
    SameIgnoringCase(Basename(h.executableDir), "scripts")
  }

  /** "pythonX.Y" for the running interpreter. */
  function PythonLibName(h: Host): (r: Name)
    ensures StartsWith(r, "python")
  {
    "python" + DecimalString(h.pythonMajor) + "." + DecimalString(h.pythonMinor)
  }

  /** The module-level directory constants, computed from the host. */
  function InstallDirLinux(h: Host): Path
  {
    Parent(h.executableDir) + ["lib", PythonLibName(h), "site-packages"]
  }

  function InstallDirMacOS(h: Host): Path
  {
    Parent(h.executableDir) + ["lib", PythonLibName(h), "Resources"]
  }

  function InstallDirWindows(h: Host): Path
  {
    h.executableDir
  }

  function PythonScriptsDirWindowsSystem(h: Host): Path
  {
    Parent(h.executableDir)
  }

  function PythonScriptsDirWindowsVenv(h: Host): Path
  {
    Parent(Parent(h.executableDir))
  }

  function PythonScriptsDirUnix(h: Host): Path
  {
    Parent(Parent(h.executableDir))
  }

  /** get_python_scripts_directory: the grandparent of the interpreter's
      directory on Darwin and Linux and in a Windows virtual environment, the
      parent for a Windows system interpreter. */
  function GetPythonScriptsDirectory(h: Host): (r: Result<Path>)
    ensures r.Err? <==> !IsKnownSystem(h.systemName)
    ensures r.Err? ==> r.error == OSIsUnknown(h.systemName)
    ensures r.Ok? ==> r.value <= h.executableDir
    ensures r.Ok? && |h.executableDir| >= 2 ==>
      |r.value| == |h.executableDir| - (if h.systemName == "Windows" && !InVirtualEnv(h) then 1 else 2)
  {
    var e := h.executableDir;
    assert |e| >= 2 ==> |Parent(e)| == |e| - 1 && |Parent(Parent(e))| == |e| - 2;
    if h.systemName == "Darwin" || h.systemName == "Linux" then Ok(PythonScriptsDirUnix(h))
    else if h.systemName == "Windows" then
      if InVirtualEnv(h) then Ok(PythonScriptsDirWindowsVenv(h)) else Ok(PythonScriptsDirWindowsSystem(h))
    else Err(OSIsUnknown(h.systemName))
  }

  /** get_blender_scripts_install_dir: "lib/pythonX.Y/Resources" (Darwin) or
      "lib/pythonX.Y/site-packages" (Linux) beside the interpreter's
      directory, or that directory itself (Windows). */
  function GetBlenderScriptsInstallDir(h: Host): (r: Result<Path>)
    ensures r.Err? <==> !IsKnownSystem(h.systemName)
    ensures r.Err? ==> r.error == OSIsUnknown(h.systemName)
    ensures r.Ok? && h.systemName == "Windows" ==> r.value == h.executableDir
    ensures r.Ok? && h.systemName != "Windows" ==>
      Parent(h.executableDir) <= r.value && |r.value| == |Parent(h.executableDir)| + 3
      && r.value[|r.value| - 3..] ==
           ["lib", PythonLibName(h), if h.systemName == "Darwin" then "Resources" else "site-packages"]
  {
    if h.systemName == "Darwin" then Ok(InstallDirMacOS(h))
    else if h.systemName == "Linux" then Ok(InstallDirLinux(h))
    else if h.systemName == "Windows" then Ok(InstallDirWindows(h))
    else Err(OSIsUnknown(h.systemName))
  }

  /** The install directory lies below the python scripts directory on every
      OS, so a search of the latter also covers the former. */
  lemma InstallDirBelowPythonScriptsDir(h: Host)
    requires IsKnownSystem(h.systemName)
    ensures GetPythonScriptsDirectory(h).value <= GetBlenderScriptsInstallDir(h).value
  {
    var e := h.executableDir;
    assert Parent(Parent(e)) <= Parent(e);
  }

  /** A data directory stays one when it is placed, unchanged but for its
      name, at another path with the same base name. */
  lemma ScriptsDirAtRelocated(t: Entry, d: Path, t': Entry, q: Path)
    requires ScriptsDirAt(t, d) && Basename(q) == Basename(d)
    requires Get(t', q) == Named(Get(t, d), Basename(q))
    ensures ScriptsDirAt(t', q)
  {
    GetAppend(t, d, [DataFilesName]);
    GetAppend(t', q, [DataFilesName]);
    GetAppend(t, d, [ScriptsName]);
    GetAppend(t', q, [ScriptsName]);
  }
}

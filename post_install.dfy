/** The post-install step: find Blender's data directory near the
    interpreter and move it directly into the install directory, unless it
    already sits there. */
module PostInstall {
  import opened Paths
  import opened Outcomes
  import opened FileTree
  import opened FileOps
  import opened FileSystems
  import opened BlenderPy

  /** The search root and the install directory chosen for a host. */
  datatype Placement = Placement(searchRoot: Path, installDir: Path)

  /** The per-OS choice at the top of install_scripts_directory. */
  function ScriptsPlacement(h: Host): Result<Placement>
  {
    var e := h.executableDir;
    if h.systemName == "Linux" then Ok(Placement(Parent(Parent(e)), InstallDirLinux(h)))
    else if h.systemName == "Windows" then
      Ok(Placement(if InVirtualEnv(h) then Parent(Parent(e)) else Parent(e), InstallDirWindows(h)))
    else if h.systemName == "Darwin" then Ok(Placement(Parent(Parent(e)), InstallDirMacOS(h)))
    else Err(OSIsUnknown(h.systemName))
  }

  /** True when the found directory already sits directly in the install
      directory, comparing case-insensitively. */
  predicate AlreadyPlaced(d: Path, installDir: Path)
  {
    SamePathIgnoringCase(Parent(d), installDir)
  }

  /** Where the data directory is moved: into the install directory, under
      its own name. */
  function Destination(d: Path, installDir: Path): (r: Path)
    ensures Parent(r) == installDir && Basename(r) == Basename(d)
  {
    installDir + [Basename(d)]
  }

  /** The search and move of install_scripts_directory, once the two
      directories are chosen. */
  function InstallAt(t: Entry, pl: Placement): Result<Entry>
  {
    match FindBlenderScriptsDirectory(t, pl.searchRoot)
    case None => Err(BlenderScriptsDirUnknown(pl.searchRoot))
    case Some(d) =>
      if AlreadyPlaced(d, pl.installDir) then Ok(t)
      else MoveTree(t, d, Destination(d, pl.installDir))
  }

  /** The effect of install_scripts_directory on the tree. */
  function InstallScripts(t: Entry, h: Host): Result<Entry>
  {
    var pl :- ScriptsPlacement(h);
    InstallAt(t, pl)
  }

  /** install_scripts_directory */
  method InstallScriptsDirectory(fs: FileSystem, h: Host) returns (r: Outcome)
    requires fs.Valid()
    modifies fs
    ensures fs.Valid() && fs.cwd == old(fs.cwd)
    ensures Applied(old(fs.root), InstallScripts(old(fs.root), h), fs.root, r)
  {
    var pl := ChoosePlacement(h);
    if pl.Err? {
      return Fail(pl.error);
    }
    r := MoveFoundDirectory(fs, pl.value.searchRoot, pl.value.installDir);
  }

  /** The per-OS branches at the top of install_scripts_directory. */
  method ChoosePlacement(h: Host) returns (r: Result<Placement>)
    ensures r == ScriptsPlacement(h)
  {
    var searchRoot: Path;
    var installDir: Path;
    if h.systemName == "Linux" {
      searchRoot := Parent(Parent(h.executableDir));
      installDir := InstallDirLinux(h);
    } else if h.systemName == "Windows" {
      installDir := InstallDirWindows(h);
      if InVirtualEnv(h) {
        searchRoot := Parent(Parent(h.executableDir));
      } else {
        searchRoot := Parent(h.executableDir);
      }
    } else if h.systemName == "Darwin" {
      searchRoot := Parent(Parent(h.executableDir));
      installDir := InstallDirMacOS(h);
    } else {
      return Err(OSIsUnknown(h.systemName));
    }
    r := Ok(Placement(searchRoot, installDir));
  }

  /** The second half of install_scripts_directory: search, then move unless
      already in place. */
  method MoveFoundDirectory(fs: FileSystem, searchRoot: Path, installDir: Path) returns (r: Outcome)
    requires fs.Valid()
    modifies fs
    ensures fs.Valid() && fs.cwd == old(fs.cwd)
    ensures Applied(old(fs.root), InstallAt(old(fs.root), Placement(searchRoot, installDir)), fs.root, r)
  {
    var current := FindBlenderScriptsDirectory(fs.root, searchRoot);
    if current.Some? {
      if AlreadyPlaced(current.value, installDir) {
        r := Pass;
      } else {
        r := fs.Move(current.value, Destination(current.value, installDir));
      }
    } else {
      r := Fail(BlenderScriptsDirUnknown(searchRoot));
    }
  }

  // ---------------------------------------------------------------------
  // Properties

  /** The post-install step searches where the package's
      get_python_scripts_directory points and installs where
      get_blender_scripts_install_dir points. */
  lemma PlacementAgreesWithGetters(h: Host)
    ensures ScriptsPlacement(h).Ok? <==> IsKnownSystem(h.systemName)
    ensures ScriptsPlacement(h).Err? ==> ScriptsPlacement(h).error == OSIsUnknown(h.systemName)
    ensures ScriptsPlacement(h).Ok? ==>
      ScriptsPlacement(h).value.searchRoot == GetPythonScriptsDirectory(h).value
      && ScriptsPlacement(h).value.installDir == GetBlenderScriptsInstallDir(h).value
  {
  }

  /** The install directory lies below the search root, so a directory moved
      there is found again by a later search. */
  lemma InstallDirBelowSearchRoot(h: Host)
    requires ScriptsPlacement(h).Ok?
    ensures ScriptsPlacement(h).value.searchRoot <= ScriptsPlacement(h).value.installDir
  {
    PlacementAgreesWithGetters(h);
    InstallDirBelowPythonScriptsDir(h);
  }

  /** An unknown OS raises before anything is searched; otherwise the step
      raises BlenderScriptsDirUnknownError, naming the search root, exactly
      when no data directory lies below it. */
  lemma InstallScriptsErrors(t: Entry, h: Host)
    requires WellFormed(t)
    ensures !IsKnownSystem(h.systemName) ==> InstallScripts(t, h) == Err(OSIsUnknown(h.systemName))
    ensures IsKnownSystem(h.systemName) ==>
      var root := ScriptsPlacement(h).value.searchRoot;
      (InstallScripts(t, h) == Err(BlenderScriptsDirUnknown(root)) <==>
         !exists q :: root <= q && ScriptsDirAt(t, q))
  {
    PlacementAgreesWithGetters(h);
    if IsKnownSystem(h.systemName) {
      InstallAtErrors(t, ScriptsPlacement(h).value);
    }
  }

  lemma InstallAtErrors(t: Entry, pl: Placement)
    requires WellFormed(t)
    ensures InstallAt(t, pl) == Err(BlenderScriptsDirUnknown(pl.searchRoot)) <==>
      !exists q :: pl.searchRoot <= q && ScriptsDirAt(t, q)
  {
    FindBlenderScriptsDirectorySpec(t, pl.searchRoot);
    InstallAtFound(t, pl);
  }

  /** Once a data directory is found, any failure is the move's. */
  lemma InstallAtFound(t: Entry, pl: Placement)
    ensures FindBlenderScriptsDirectory(t, pl.searchRoot).Some? ==>
      InstallAt(t, pl).Ok? || IsFileSystemError(InstallAt(t, pl).error)
  {
  }

  /** When the found directory already sits in the install directory,
      nothing changes. */
  lemma AlreadyPlacedIsNoop(t: Entry, h: Host)
    requires ScriptsPlacement(h).Ok?
    requires var pl := ScriptsPlacement(h).value;
      FindBlenderScriptsDirectory(t, pl.searchRoot).Some?
      && AlreadyPlaced(FindBlenderScriptsDirectory(t, pl.searchRoot).value, pl.installDir)
    ensures InstallScripts(t, h) == Ok(t)
  {
  }

  /** Otherwise the directory found is moved under its own name into the
      install directory (into the same-named directory there, if one exists)
      and is gone from where it was. */
  lemma InstallScriptsMoves(t: Entry, h: Host)
    requires InstallScripts(t, h).Ok? && ScriptsPlacement(h).Ok?
    requires var pl := ScriptsPlacement(h).value;
      FindBlenderScriptsDirectory(t, pl.searchRoot).Some?
      && !AlreadyPlaced(FindBlenderScriptsDirectory(t, pl.searchRoot).value, pl.installDir)
    ensures var pl := ScriptsPlacement(h).value;
      var d := FindBlenderScriptsDirectory(t, pl.searchRoot).value;
      var dst := Destination(d, pl.installDir);
      var t' := InstallScripts(t, h).value;
      !Exists(t', d) && Get(t', TargetPath(t, d, dst)) == Named(Get(t, d), Basename(d))
  {
    var pl := ScriptsPlacement(h).value;
    assert InstallScripts(t, h) == InstallAt(t, pl);
    InstallAtMoves(t, pl);
  }

  lemma InstallAtMoves(t: Entry, pl: Placement)
    requires InstallAt(t, pl).Ok?
    requires FindBlenderScriptsDirectory(t, pl.searchRoot).Some?
    requires !AlreadyPlaced(FindBlenderScriptsDirectory(t, pl.searchRoot).value, pl.installDir)
    ensures var d := FindBlenderScriptsDirectory(t, pl.searchRoot).value;
      var dst := Destination(d, pl.installDir);
      var t' := InstallAt(t, pl).value;
      !Exists(t', d) && Get(t', TargetPath(t, d, dst)) == Named(Get(t, d), Basename(d))
  {
    var d := FindBlenderScriptsDirectory(t, pl.searchRoot).value;
    MoveIntoInstallDir(t, d, pl.installDir);
  }

  /** At most one directory moves: every path outside the found directory,
      its new place and their ancestors looks the same afterwards. */
  lemma InstallAtFrame(t: Entry, pl: Placement, q: Path)
    requires InstallAt(t, pl).Ok?
    requires FindBlenderScriptsDirectory(t, pl.searchRoot).Some?
    requires var d := FindBlenderScriptsDirectory(t, pl.searchRoot).value;
      var moved := TargetPath(t, d, Destination(d, pl.installDir));
      !(q <= d) && !(d <= q) && !(q <= moved) && !(moved <= q)
    ensures Get(InstallAt(t, pl).value, q) == Get(t, q)
  {
    var d := FindBlenderScriptsDirectory(t, pl.searchRoot).value;
    if !AlreadyPlaced(d, pl.installDir) {
      MoveTreeFrame(t, d, Destination(d, pl.installDir), q);
    }
  }

  /** The move itself, for a found directory not already in place. */
  lemma MoveIntoInstallDir(t: Entry, d: Path, installDir: Path)
    requires MoveTree(t, d, Destination(d, installDir)).Ok?
    requires !AlreadyPlaced(d, installDir)
    ensures var dst := Destination(d, installDir);
      var t' := MoveTree(t, d, dst).value;
      !Exists(t', d) && Get(t', TargetPath(t, d, dst)) == Named(Get(t, d), Basename(d))
  {
    var dst := Destination(d, installDir);
    var moved := TargetPath(t, d, dst);
    assert d != dst by {
      assert SamePathIgnoringCase(installDir, installDir);
    }
    assert Get(t, d).Some?;
    assert IsDir(t, dst) ==> !Exists(t, moved);
    assert moved != d;
    MoveTreeOk(t, d, dst);
  }

  /** When every data directory below the search root already sits in the
      install directory, the step changes nothing. */
  lemma SettledIsFixpoint(t: Entry, h: Host)
    requires WellFormed(t) && ScriptsPlacement(h).Ok?
    requires var pl := ScriptsPlacement(h).value;
      (exists q :: pl.searchRoot <= q && ScriptsDirAt(t, q))
      && forall q :: pl.searchRoot <= q && ScriptsDirAt(t, q) ==> AlreadyPlaced(q, pl.installDir)
    ensures InstallScripts(t, h) == Ok(t)
  {
    FindBlenderScriptsDirectorySpec(t, ScriptsPlacement(h).value.searchRoot);
  }

  /** Running the step a second time changes nothing, provided the install
      directory held no directory of the found one's name and the result
      holds a single data directory below the search root. */
  lemma SecondRunIsNoop(t: Entry, h: Host)
    requires WellFormed(t) && InstallScripts(t, h).Ok?
    requires var pl := ScriptsPlacement(h).value;
      var found := FindBlenderScriptsDirectory(t, pl.searchRoot).value;
      !IsDir(t, Destination(found, pl.installDir))
    requires var pl := ScriptsPlacement(h).value;
      var t' := InstallScripts(t, h).value;
      forall q1, q2 ::
        (pl.searchRoot <= q1 && ScriptsDirAt(t', q1) && pl.searchRoot <= q2 && ScriptsDirAt(t', q2))
        ==> q1 == q2
    ensures InstallScripts(InstallScripts(t, h).value, h) == InstallScripts(t, h)
  {
    var pl := ScriptsPlacement(h).value;
    var d := FindBlenderScriptsDirectory(t, pl.searchRoot).value;
    if !AlreadyPlaced(d, pl.installDir) {
      var t' := InstallScripts(t, h).value;
      var dst := Destination(d, pl.installDir);
      InstallScriptsMoves(t, h);
      FindBlenderScriptsDirectorySpec(t, pl.searchRoot);
      ScriptsDirAtRelocated(t, d, t', dst);
      MoveTreeWellFormed(t, d, dst);
      InstallDirBelowSearchRoot(h);
      assert pl.searchRoot <= dst;
      FindBlenderScriptsDirectoryUnique(t', pl.searchRoot, dst);
      assert AlreadyPlaced(dst, pl.installDir);
    }
  }
}

/** The pre-uninstall step: remove Blender's data directory, looking first in
    the install directory and then, as a fallback, in the python scripts
    directory. */
module PreUninstall {
  import opened Paths
  import opened Outcomes
  import opened FileTree
  import opened FileOps
  import opened FileSystems
  import opened Walks
  import opened BlenderPy
  import PostInstall

  /** The directory remove_blender_scripts_dir deletes: the first found below
      the install directory, else the first found below the python scripts
      directory. */
  function ScriptsDirToRemove(t: Entry, h: Host): Result<Path>
  {
    var first :- GetBlenderScriptsInstallDir(h);
    match FindBlenderScriptsDirectory(t, first)
    case Some(d) => Ok(d)
    case None =>
      var second := GetPythonScriptsDirectory(h).value;
      match FindBlenderScriptsDirectory(t, second)
      case Some(d) => Ok(d)
      case None => Err(BlenderScriptsDirUnknown(second))
  }

  /** The effect of remove_blender_scripts_dir on the tree. */
  function RemoveScriptsDir(t: Entry, h: Host): Result<Entry>
  {
    var d :- ScriptsDirToRemove(t, h);
    RmTreeTree(t, d)
  }

  /** remove_blender_scripts_dir */
  method RemoveBlenderScriptsDir(fs: FileSystem, h: Host) returns (r: Outcome)
    requires fs.Valid()
    modifies fs
    ensures fs.Valid() && fs.cwd == old(fs.cwd)
    ensures Applied(old(fs.root), RemoveScriptsDir(old(fs.root), h), fs.root, r)
  {
    var installDir := GetBlenderScriptsInstallDir(h);
    if installDir.Err? {
      return Fail(installDir.error);
    }
    var searchRoot := installDir.value;
    var current := FindBlenderScriptsDirectory(fs.root, searchRoot);
    if current.Some? {
      r := fs.RmTree(current.value);
    } else {
      searchRoot := GetPythonScriptsDirectory(h).value;
      current := FindBlenderScriptsDirectory(fs.root, searchRoot);
      if current.Some? {
        r := fs.RmTree(current.value);
      } else {
        r := Fail(BlenderScriptsDirUnknown(searchRoot));
      }
    }
  }

  // ---------------------------------------------------------------------
  // Properties

  /** The install directory is searched first: when a data directory lies
      below it, the one removed is the first such directory in the walk of
      the install directory, whatever lies elsewhere below the python
      scripts directory. Only when none lies there is the python scripts
      directory searched: the step then succeeds iff one lies below it, it
      removes the first in that walk, and otherwise the error names the
      python scripts directory. */
  lemma SearchOrder(t: Entry, h: Host)
    requires WellFormed(t) && IsKnownSystem(h.systemName)
    ensures var first := GetBlenderScriptsInstallDir(h).value;
      var w := WalkAt(t, first);
      (exists q :: first <= q && ScriptsDirAt(t, q)) ==>
        && ScriptsDirToRemove(t, h).Ok?
        && exists i :: 0 <= i < |w| && w[i].path == ScriptsDirToRemove(t, h).value
                       && IsScriptsDirStep(w[i]) && forall j :: 0 <= j < i ==> !IsScriptsDirStep(w[j])
    ensures var first := GetBlenderScriptsInstallDir(h).value;
      var second := GetPythonScriptsDirectory(h).value;
      var w := WalkAt(t, second);
      !(exists q :: first <= q && ScriptsDirAt(t, q)) ==>
        && (ScriptsDirToRemove(t, h).Ok? <==> exists q :: second <= q && ScriptsDirAt(t, q))
        && (ScriptsDirToRemove(t, h).Err? ==> ScriptsDirToRemove(t, h).error == BlenderScriptsDirUnknown(second))
        && (ScriptsDirToRemove(t, h).Ok? ==>
              exists i :: 0 <= i < |w| && w[i].path == ScriptsDirToRemove(t, h).value
                          && IsScriptsDirStep(w[i]) && forall j :: 0 <= j < i ==> !IsScriptsDirStep(w[j]))
  {
    var first := GetBlenderScriptsInstallDir(h).value;
    var second := GetPythonScriptsDirectory(h).value;
    FindBlenderScriptsDirectorySpec(t, first);
    if FindBlenderScriptsDirectory(t, first).Some? {
      assert ScriptsDirToRemove(t, h) == Ok(FindBlenderScriptsDirectory(t, first).value);
    } else {
      FindBlenderScriptsDirectorySpec(t, second);
      assert ScriptsDirToRemove(t, h) ==
        match FindBlenderScriptsDirectory(t, second)
        case Some(d) => Ok(d)
        case None => Err(BlenderScriptsDirUnknown(second));
    }
  }

  /** In a well-formed tree the step fails only for an unknown OS or when no
      data directory lies below the python scripts directory; otherwise it
      removes exactly one directory, a data directory, and one below the
      install directory whenever there is one there. */
  lemma RemoveScriptsDirSpec(t: Entry, h: Host)
    requires WellFormed(t)
    ensures !IsKnownSystem(h.systemName) ==> RemoveScriptsDir(t, h) == Err(OSIsUnknown(h.systemName))
    ensures IsKnownSystem(h.systemName) ==>
      var second := GetPythonScriptsDirectory(h).value;
      (RemoveScriptsDir(t, h).Ok? <==> exists q :: second <= q && ScriptsDirAt(t, q))
      && (RemoveScriptsDir(t, h).Err? ==> RemoveScriptsDir(t, h).error == BlenderScriptsDirUnknown(second))
    ensures RemoveScriptsDir(t, h).Ok? ==>
      var d := ScriptsDirToRemove(t, h).value;
      var t' := RemoveScriptsDir(t, h).value;
      ScriptsDirAt(t, d) && t' == SetAt(t, d, None) && !Exists(t', d)
      && ((exists q :: GetBlenderScriptsInstallDir(h).value <= q && ScriptsDirAt(t, q))
          ==> GetBlenderScriptsInstallDir(h).value <= d)
  {
    RemoveScriptsDirErrors(t, h);
    if RemoveScriptsDir(t, h).Ok? {
      RemoveScriptsDirRemoves(t, h);
    }
  }

  lemma RemoveScriptsDirErrors(t: Entry, h: Host)
    requires WellFormed(t)
    ensures !IsKnownSystem(h.systemName) ==> RemoveScriptsDir(t, h) == Err(OSIsUnknown(h.systemName))
    ensures IsKnownSystem(h.systemName) ==>
      var second := GetPythonScriptsDirectory(h).value;
      (RemoveScriptsDir(t, h).Ok? <==> exists q :: second <= q && ScriptsDirAt(t, q))
      && (RemoveScriptsDir(t, h).Err? ==> RemoveScriptsDir(t, h).error == BlenderScriptsDirUnknown(second))
  {
    if IsKnownSystem(h.systemName) {
      var first := GetBlenderScriptsInstallDir(h).value;
      var second := GetPythonScriptsDirectory(h).value;
      FindBlenderScriptsDirectorySpec(t, second);
      var r := ScriptsDirToRemove(t, h);
      if r.Ok? {
        var d := r.value;
        if FindBlenderScriptsDirectory(t, first).Some? {
          FindBlenderScriptsDirectorySpec(t, first);
          InstallDirBelowPythonScriptsDir(h);
        }
        assert second <= d && ScriptsDirAt(t, d) && d != [];
        RmTreeTreeOk(t, d);
        assert RemoveScriptsDir(t, h) == RmTreeTree(t, d);
      } else {
        assert r == Err(BlenderScriptsDirUnknown(second));
        assert !exists q :: second <= q && ScriptsDirAt(t, q);
      }
    }
  }

  lemma RemoveScriptsDirRemoves(t: Entry, h: Host)
    requires WellFormed(t) && RemoveScriptsDir(t, h).Ok?
    ensures var d := ScriptsDirToRemove(t, h).value;
      var t' := RemoveScriptsDir(t, h).value;
      ScriptsDirAt(t, d) && t' == SetAt(t, d, None) && !Exists(t', d)
      && ((exists q :: GetBlenderScriptsInstallDir(h).value <= q && ScriptsDirAt(t, q))
          ==> GetBlenderScriptsInstallDir(h).value <= d)
  {
    var first := GetBlenderScriptsInstallDir(h).value;
    var second := GetPythonScriptsDirectory(h).value;
    FindBlenderScriptsDirectorySpec(t, first);
    FindBlenderScriptsDirectorySpec(t, second);
    RmTreeTreeOk(t, ScriptsDirToRemove(t, h).value);
  }

  /** After a post-install step that moved the data directory into the
      install directory, the pre-uninstall step finds a data directory in its
      first search and removes one below the install directory. */
  lemma UninstallAfterInstall(t: Entry, h: Host)
    requires WellFormed(t) && PostInstall.InstallScripts(t, h).Ok?
    requires var pl := PostInstall.ScriptsPlacement(h).value;
      var found := FindBlenderScriptsDirectory(t, pl.searchRoot).value;
      !PostInstall.AlreadyPlaced(found, pl.installDir)
      && !IsDir(t, PostInstall.Destination(found, pl.installDir))
    ensures var t' := PostInstall.InstallScripts(t, h).value;
      var installDir := GetBlenderScriptsInstallDir(h).value;
      FindBlenderScriptsDirectory(t', installDir).Some?
      && RemoveScriptsDir(t', h).Ok?
      && installDir <= ScriptsDirToRemove(t', h).value
  {
    var pl := PostInstall.ScriptsPlacement(h).value;
    var d := FindBlenderScriptsDirectory(t, pl.searchRoot).value;
    var dst := PostInstall.Destination(d, pl.installDir);
    var t' := PostInstall.InstallScripts(t, h).value;
    PostInstall.PlacementAgreesWithGetters(h);
    PostInstall.InstallScriptsMoves(t, h);
    FindBlenderScriptsDirectorySpec(t, pl.searchRoot);
    ScriptsDirAtRelocated(t, d, t', dst);
    MoveTreeWellFormed(t, d, dst);
    FindBlenderScriptsDirectorySpec(t', pl.installDir);
    RemoveScriptsDirSpec(t', h);
  }
}

/** The Linux build helpers: the make commands and the search for the built
    module. */
module LinuxUtils {
  import opened Paths
  import opened Outcomes
  import opened FileTree
  import opened Walks

  /** root_dir/blender/make */
  function MakeScript(root: string): (r: string)
    ensures StartsWith(r, root) && EndsWith(r, "blender/make")
  {
    PosixJoin(root, "blender/make")
  }

  /** The command of make_blender_python. */
  function BuildCommand(root: string): seq<string>
  {
    [MakeScript(root), "bpy"]
  }

  /** The command of install_blender_python. */
  function InstallCommand(root: string): seq<string>
  {
    [MakeScript(root), "install"]
  }

  /** Both commands run Blender's make script below root, one with the bpy
      target and one with the install target, and nothing else. */
  lemma MakeCommands(root: string)
    ensures |BuildCommand(root)| == 2 && |InstallCommand(root)| == 2
    ensures BuildCommand(root)[0] == InstallCommand(root)[0]
    ensures StartsWith(BuildCommand(root)[0], root) && EndsWith(BuildCommand(root)[0], "blender/make")
    ensures BuildCommand(root)[1] == "bpy" && InstallCommand(root)[1] == "install"
    ensures root != [] && root[|root| - 1] != '/' ==> BuildCommand(root)[0] == root + "/blender/make"
  {
  }

  /** find_blender_python: the first walked directory holding bpy.so, by
      that exact name. */
  function FindBlenderPython(t: Entry, rootDir: Path): (r: Result<Path>)
    ensures var w := WalkAt(t, rootDir);
      r.Ok? <==> exists i :: 0 <= i < |w| && "bpy.so" in w[i].files
    ensures var w := WalkAt(t, rootDir);
      r.Ok? ==> exists i :: 0 <= i < |w| && w[i].path == r.value && "bpy.so" in w[i].files
                  && forall j :: 0 <= j < i ==> "bpy.so" !in w[j].files
    ensures r.Err? ==> r.error == BlenderModuleNotFound(rootDir)
  {
    FindDirContaining(t, rootDir, "bpy.so")
  }

  /** In a well-formed tree it fails exactly when no directory below root
      holds a non-directory named bpy.so, and what it finds holds one. */
  lemma FindBlenderPythonSpec(t: Entry, rootDir: Path)
    requires WellFormed(t)
    ensures FindBlenderPython(t, rootDir).Ok? <==>
      exists q :: rootDir <= q && IsDir(t, q) && Exists(t, q + ["bpy.so"]) && !IsDir(t, q + ["bpy.so"])
    ensures FindBlenderPython(t, rootDir).Ok? ==>
      var q := FindBlenderPython(t, rootDir).value;
      rootDir <= q && Exists(t, q + ["bpy.so"]) && !IsDir(t, q + ["bpy.so"])
    ensures FindBlenderPython(t, rootDir).Ok? ==>
      var w := WalkAt(t, rootDir);
      exists i :: 0 <= i < |w| && w[i].path == FindBlenderPython(t, rootDir).value
        && forall j :: 0 <= j < i ==> !(Exists(t, w[j].path + ["bpy.so"]) && !IsDir(t, w[j].path + ["bpy.so"]))
  {
    FindDirContainingSpec(t, rootDir, "bpy.so");
  }

  /** A module built under a tagged name is not found: the match is on the
      exact name bpy.so. */
  lemma TaggedModuleNotFound()
    ensures FindBlenderPython(Dir("", [File("bpy.cpython-37m.so")]), []) == Err(BlenderModuleNotFound([]))
    ensures FindBlenderPython(Dir("", [File("bpy.so")]), []) == Ok([])
  {
    var tagged := Dir("", [File("bpy.cpython-37m.so")]);
    var plain := Dir("", [File("bpy.so")]);
    assert WalkFrom([], tagged, 1) == [] && WalkFrom([], plain, 1) == [];
    assert WalkFrom([], tagged, 0) == [] && WalkFrom([], plain, 0) == [];
    assert FileNames(tagged.children) == ["bpy.cpython-37m.so"] by {
      assert tagged.children[1..] == [];
    }
    assert FileNames(plain.children) == ["bpy.so"] by {
      assert plain.children[1..] == [];
    }
    assert WalkAt(tagged, []) == [StepOf([], tagged)];
    assert WalkAt(plain, []) == [StepOf([], plain)];
    assert "bpy.so" != "bpy.cpython-37m.so" by {
      assert |"bpy.so"| != |"bpy.cpython-37m.so"|;
    }
  }
}

# blenderpy artifact staging, modelled in Dafny

blenderpy packages Blender as a Python module (`bpy`). Most of the
repository drives external tools: git and svn checkouts, cmake and make, apt,
the Windows registry and setuptools. This project models the part that makes
decisions about files. It covers:

- which build outputs are staged, and where;
- how Blender's versioned data directory (the one holding `datafiles` and
  `scripts`) is recognised, moved into place after installation and removed
  before uninstallation;
- the small rules around the build: the Visual Studio pick, the precompiled
  library URL, the fixed cmake and make command lines, the OptiX switches,
  `recursive_copy` and the platform predicates.

The filesystem is an abstract tree (`FileTree.Entry`). An entry is a file, a
directory or anything else. Each directory lists its children as a sequence,
so "the first match" means the same thing as in the code, where `os.listdir`
and `os.walk` fix the order. `FileOps` gives the `os` and `shutil` calls the
code makes as functions on the tree: `shutil.move`, `shutil.copytree`,
`shutil.copy`, `shutil.rmtree`, `os.remove`, `os.mkdir` and `os.makedirs`.
Each returns the new tree or the exception raised. `FileSystems.FileSystem` is
the mutable state: the tree plus the current working directory. The staging
code's methods change it in place, and each method is proved equal to a
function on the old state.

Values the code reads from the host are parameters (`BlenderPy.Host`): the
system name, the interpreter's directory and the Python version. So are the
three registry probes, the listing of bpymake's compatible sources, the
configure commands bpymake returns and the path `get_ext_fullpath` gives.
Where several candidates qualify, the code takes the first in listing order,
and so does the model.

Modules, one per source file plus the shared ones:

| module | models |
|---|---|
| `Paths`, `Outcomes`, `FileTree`, `FileOps`, `FileSystems`, `Walks` | path arithmetic, the exceptions, the tree, the `os`/`shutil` calls, the mutable filesystem, `os.walk` and first-match search |
| `BlenderPy` | `blenderpy/__init__.py` |
| `PostInstall` | `blenderpy/post_install.py` |
| `PreUninstall` | `blenderpy/pre_uninstall.py` |
| `SetupCommands` | the install commands both setup scripts share: the `distribution` object, the listings and the staging loops |
| `BpyModuleSetup` | `Blender/utils/bpy_module/setup.py` |
| `OptixSetup` | `bpy_optix_setup.py` |
| `WinUtils` | `win_utils.py` |
| `CommonUtils` | `common_utils.py` |
| `LinuxUtils` | `linux_utils.py` |

## Model

| member | source | states |
|---|---|---|
| BlenderPy.FindBlenderScriptsDirectory | blenderpy/__init__.py:54-63 | The result is Some exactly when some step of the top-down walk of the search root passes the test (base name matches `\d\.\d\d` at its start, and the subdirectories include `datafiles` and `scripts`). It is then the path of the first such step, and its base name matches the pattern. |
| BlenderPy.FindBlenderScriptsDirectorySpec | blenderpy/__init__.py:54-63 | On a well-formed tree: something is found iff some directory at or below the search root is a data directory. What is found is one of them. |
| BlenderPy.FindBlenderScriptsDirectoryUnique | blenderpy/__init__.py:54-61 | When exactly one data directory lies below the search root, the finder returns it. |
| BlenderPy.PatternExamples | blenderpy/__init__.py:58 | "2.91" and "2.91a" match. "v2.91", "10.00", "2.9" and "" do not: the match is anchored at the start and the major version is one digit. |
| BlenderPy.RecognisesDataDirectory | blenderpy/__init__.py:58-61 | A "2.91" directory holding `datafiles` and `scripts` is found. |
| BlenderPy.IgnoresDirectoryWithoutScripts | blenderpy/__init__.py:58-63 | A "2.91" directory holding only `datafiles` is not found; the result is None. |
| BlenderPy.IgnoresScriptsFile | blenderpy/__init__.py:58-63 | A `scripts` entry that is a file does not count as a subdirectory; the result is None. |
| BlenderPy.PythonLibName | blenderpy/__init__.py:29-34 | The `pythonX.Y` component starts with "python". |
| BlenderPy.GetPythonScriptsDirectory | blenderpy/__init__.py:65-87 | It raises OSIsUnknownError, naming the system, exactly when the system is not Darwin, Linux or Windows. Otherwise the result is an ancestor of the interpreter's directory. That ancestor is two levels up on Darwin, on Linux and in a Windows venv (a directory called "scripts" in any case), and one level up for a Windows system interpreter. |
| BlenderPy.GetBlenderScriptsInstallDir | blenderpy/__init__.py:89-104 | It raises OSIsUnknownError exactly for an unknown system. On Windows the result is the interpreter's directory. Elsewhere it is the parent of that directory followed by `lib/pythonX.Y/Resources` (Darwin) or `lib/pythonX.Y/site-packages` (Linux). |
| BlenderPy.InstallDirBelowPythonScriptsDir | blenderpy/__init__.py:29-39 | On every known system the install directory lies at or below the python scripts directory. |
| BlenderPy.ScriptsDirAtRelocated | blenderpy/post_install.py:110-114 | A data directory put, intact, at another path with the same base name is still a data directory. |
| PostInstall.Destination | blenderpy/post_install.py:110-114 | The move target is `install_dir/<base name of the found directory>`. |
| PostInstall.ChoosePlacement | blenderpy/post_install.py:65-96 | The per-OS if-chain yields the placement function's search root and install directory, or OSIsUnknownError. |
| PostInstall.MoveFoundDirectory | blenderpy/post_install.py:98-120 | The tree ends as the search-and-move function says, and the outcome is the exception it raises, if any. On failure the tree is unchanged. The working directory is unchanged. |
| PostInstall.InstallScriptsDirectory | blenderpy/post_install.py:60-120 | The whole step, on the filesystem object: OS choice, then search and move, as `InstallScripts` says. |
| PostInstall.PlacementAgreesWithGetters | blenderpy/post_install.py:65-96 | The search root is `get_python_scripts_directory()` and the install directory is `get_blender_scripts_install_dir()`. An unknown system raises OSIsUnknownError. |
| PostInstall.InstallDirBelowSearchRoot | blenderpy/post_install.py:65-96 | The install directory lies at or below the search root. |
| PostInstall.InstallScriptsErrors | blenderpy/post_install.py:95-120 | An unknown system raises OSIsUnknownError before any search. Otherwise the step raises BlenderScriptsDirUnknownError naming the search root iff no data directory lies below it. |
| PostInstall.InstallAtErrors | blenderpy/post_install.py:98-120 | BlenderScriptsDirUnknownError(search root) is raised iff no data directory lies below the search root. |
| PostInstall.InstallAtFound | blenderpy/post_install.py:98-114 | Once a directory is found, only a filesystem error from the move can stop the step. |
| PostInstall.AlreadyPlacedIsNoop | blenderpy/post_install.py:104-106 | When the found directory's parent equals the install directory ignoring case, the tree is unchanged. |
| PostInstall.InstallScriptsMoves | blenderpy/post_install.py:110-114 | Otherwise the found directory is gone from its old path, and the move target holds it under its own base name. |
| PostInstall.InstallAtMoves | blenderpy/post_install.py:110-114 | The same, once the placement is chosen. |
| PostInstall.MoveIntoInstallDir | blenderpy/post_install.py:110-114 | The same, for the move call itself. |
| PostInstall.InstallAtFrame | blenderpy/post_install.py:98-114 | At most one directory moves. Every path unrelated to the found directory and its target is unchanged. |
| PostInstall.SettledIsFixpoint | blenderpy/post_install.py:98-106 | If every data directory below the search root already sits in the install directory, the step changes nothing. |
| PostInstall.SecondRunIsNoop | blenderpy/post_install.py:98-114 | After a successful move into a fresh target, a second run changes nothing, provided one data directory is left. |
| PreUninstall.RemoveBlenderScriptsDir | blenderpy/pre_uninstall.py:12-48 | The filesystem object ends as the removal function says, and the outcome is its exception. On failure nothing changes. The working directory is unchanged. |
| PreUninstall.SearchOrder | blenderpy/pre_uninstall.py:16-42 | On a well-formed tree: when a data directory lies below the install directory, the one removed is the first such directory in the install directory's walk. When none lies there, the step succeeds iff one lies below the python scripts directory, and it removes the first in that walk. Otherwise BlenderScriptsDirUnknownError names the python scripts directory. |
| PreUninstall.RemoveScriptsDirSpec | blenderpy/pre_uninstall.py:12-48 | The errors (below) and the removal (below) together. |
| PreUninstall.RemoveScriptsDirErrors | blenderpy/pre_uninstall.py:33-48 | An unknown system raises OSIsUnknownError. Otherwise the step succeeds iff some data directory lies below the python scripts directory, and on failure the error names that directory. |
| PreUninstall.RemoveScriptsDirRemoves | blenderpy/pre_uninstall.py:16-42 | Exactly one directory is removed, and it is one the finder recognises (the tree is the old tree without it). It lies below the install directory whenever a data directory exists there. |
| PreUninstall.UninstallAfterInstall | blenderpy/pre_uninstall.py:16-25 | After post-install has moved the data directory, pre-uninstall finds it in the install directory and removes it from there. |
| SetupCommands.Filter | Blender/utils/bpy_module/setup.py:64-68 | The result holds exactly the listed entries the test accepts, in listing order. |
| SetupCommands.FilterHeadIsFirstMatch | Blender/utils/bpy_module/setup.py:177-187 | A filtered listing is empty iff nothing matches, and its element 0 is the first match. |
| SetupCommands.Under | Blender/utils/bpy_module/setup.py:79-81 | One path per name, `dir/<name>`, in order. |
| SetupCommands.ListingFails | Blender/utils/bpy_module/setup.py:64-68 | Each listing raises, with a filesystem error, exactly when the directory is not a directory. |
| SetupCommands.FilteredNamesSpec | Blender/utils/bpy_module/setup.py:64-68 | A name is kept iff `dir/<name>` resolves to an entry the test accepts. |
| SetupCommands.ListingsSpec | Blender/utils/bpy_module/setup.py:64-68 | The auxiliary libraries are exactly the regular files `dir/n` with extension `.dll` or `.so` whose names start with neither "python" nor "bpy". The script directories are exactly the directories `dir/n`. The module candidates are exactly the regular files whose stem starts with "bpy" and whose extension is `.pyd` or `.so`. |
| SetupCommands.FilteredNamesDistinct | Blender/utils/bpy_module/setup.py:64-68 | No listing names an entry twice. |
| SetupCommands.CandidateIsNotAuxiliary | Blender/utils/bpy_module/setup.py:64-68 | No module candidate is an auxiliary library. |
| SetupCommands.AuxiliaryLibAccepts | Blender/utils/bpy_module/setup.py:64-68 | "libfoo.so" and "tbb.dll" are auxiliary libraries. |
| SetupCommands.AuxiliaryLibRejects | Blender/utils/bpy_module/setup.py:64-68 | "python37.dll", "bpy.so" and "libfoo.so.1" are not. |
| SetupCommands.BpyCandidateAccepts | Blender/utils/bpy_module/setup.py:177-181 | "bpy.so" and "bpy.pyd" are module candidates. |
| SetupCommands.BpyCandidateAcceptsTagged | Blender/utils/bpy_module/setup.py:177-181 | So is "bpy.cpython-37m.so", whose stem starts with "bpy". |
| SetupCommands.BpyCandidateRejects | Blender/utils/bpy_module/setup.py:177-181 | "libbpy.so" and "bpy.dll" are not. |
| SetupCommands.ClearDestination | Blender/utils/bpy_module/setup.py:115-123 | Removing what is in the way can only fail with a filesystem error. |
| SetupCommands.StageItem | Blender/utils/bpy_module/setup.py:115-127 | A stage can only fail with a filesystem error. |
| SetupCommands.StageEach | Blender/utils/bpy_module/setup.py:109-127 | A run of stages can only fail with a filesystem error. |
| SetupCommands.StageOne | Blender/utils/bpy_module/setup.py:113-127 | One loop iteration on the filesystem object. It does what the stage function says, and the working directory is unchanged. |
| SetupCommands.StageNext | Blender/utils/bpy_module/setup.py:109-127 | A failing iteration ends the run with the run's result. Otherwise the rest of the run starts from the new tree. |
| SetupCommands.StageAll | Blender/utils/bpy_module/setup.py:109-127 | The loop leaves the tree and the exception the run function gives, stopping at the first exception. |
| SetupCommands.InstallCMakeLibs | Blender/utils/bpy_module/setup.py:62-81 | An unlistable `bin_dir` raises and changes nothing. Otherwise each auxiliary library is moved to `build_dir/<name>` in listing order. On success `data_files` becomes `install_dir/<name>` for each library, in the same order. `bin_dir` and `scripts` are unchanged. |
| SetupCommands.InstallBlenderScripts | Blender/utils/bpy_module/setup.py:103-133 | Every subdirectory of `bin_dir` is staged, with copytree or move as the script does. On success `scripts` is the list of source directories. `bin_dir` and `data_files` are unchanged. |
| SetupCommands.StageItemFresh | Blender/utils/bpy_module/setup.py:115-127 | A stage into a free or replaceable place succeeds. The destination then holds the source entry. The source is kept by copytree and gone after a move. No path unrelated to the two changes. |
| SetupCommands.StageHeadFresh | Blender/utils/bpy_module/setup.py:109-127 | The first stage of a fresh run succeeds, leaves the rest of the run fresh and touches no other name's source or destination. |
| SetupCommands.StageEachFresh | Blender/utils/bpy_module/setup.py:109-127 | A run over distinct names succeeds. Every `dst/n` then holds `src/n`, which is kept (copy) or gone (move). Names not in the run are untouched. |
| SetupCommands.StageItemClears | Blender/utils/bpy_module/setup.py:115-123 | An existing directory or file at the destination is removed first, so the stage acts as if the destination were empty. |
| SetupCommands.StageItemBlockedBySpecial | Blender/utils/bpy_module/setup.py:115-127 | A destination that is neither a file nor a directory is not removed, and the stage raises FileExistsError. |
| SetupCommands.CopyStageResult | Blender/utils/bpy_module/setup.py:115-127 | A copying stage leaves the destination equal to the source, whatever was there. |
| SetupCommands.CopyStageFresh | Blender/utils/bpy_module/setup.py:125-127 | The same, when the destination is free. |
| SetupCommands.CopyStageIdempotent | Blender/utils/bpy_module/setup.py:115-127 | Repeating a copying stage changes nothing more. |
| BpyModuleSetup.CopyBpy | Blender/utils/bpy_module/setup.py:170-193 | The tree, `bin_dir` and the exception are as the copy_bpy function says. `data_files`, `scripts` and the working directory are unchanged. |
| BpyModuleSetup.ModuleToCopySpec | Blender/utils/bpy_module/setup.py:177-187 | An unlistable source raises a filesystem error. Otherwise the step raises "Could not find Blender python module", naming the source, iff no regular file there is a module candidate. What is picked is a candidate, and it is the first candidate in listing order. |
| BpyModuleSetup.CopyBpyEffect | Blender/utils/bpy_module/setup.py:183-193 | Without a candidate, nothing changes and `bin_dir` is kept. On success `bin_dir` is the searched source, the copy target holds the module, and the module itself stays in place. |
| BpyModuleSetup.ModuleIsNotALib | Blender/utils/bpy_module/setup.py:64-68 | The module is never among the libraries moved. |
| BpyModuleSetup.BuildOne | Blender/utils/bpy_module/setup.py:152-166 | One extension on the filesystem object: the parent directory of a CMake extension is made, and a "bpy" extension is copied in. |
| BpyModuleSetup.BuildCMakeExtRun | Blender/utils/bpy_module/setup.py:142-168 | The build directory is made, then each extension is handled in turn, stopping at the first exception. The result is as the run function says. |
| BpyModuleSetup.InstallBlenderScripts | Blender/utils/bpy_module/setup.py:103-133 | Script directories are staged by removing any destination and then calling copytree. On success `scripts` lists the sources. |
| BpyModuleSetup.MakeDirsAddsNoCandidate | Blender/utils/bpy_module/setup.py:147-160 | Creating directories adds no module candidate. |
| BpyModuleSetup.BuildEachNeedsModule | Blender/utils/bpy_module/setup.py:150-166 | If the extensions include "bpy" and the setup directory holds no candidate, the run raises and `bin_dir` is kept. |
| BpyModuleSetup.BuildNeedsModule | Blender/utils/bpy_module/setup.py:142-168 | The same for the whole command. |
| BpyModuleSetup.BuildEachWithoutBpy | Blender/utils/bpy_module/setup.py:150-166 | Without a "bpy" extension only directories are made: `bin_dir` is kept and every non-directory is unchanged. |
| BpyModuleSetup.BuildWithoutBpy | Blender/utils/bpy_module/setup.py:142-168 | The same for the whole command. |
| OptixSetup.VersionGate | bpy_optix_setup.py:45-47 | The load-time check raises ValueError naming both versions, and only that. |
| OptixSetup.VersionGateByRelease | bpy_optix_setup.py:38-47 | The corrected check, on release numbers, raises only that same error. |
| OptixSetup.StrLessIrreflexive | bpy_optix_setup.py:45 | String `<` is irreflexive. |
| OptixSetup.ReleaseLessIrreflexive | bpy_optix_setup.py:39-43 | Release `<` is irreflexive. |
| OptixSetup.ReleaseLessAsymmetric | bpy_optix_setup.py:39-43 | Release `<` is asymmetric. |
| OptixSetup.ReleaseZeroPadding | bpy_optix_setup.py:39-43 | Trailing zero components do not change the order (2.81 vs 2.81.0). |
| OptixSetup.ShippedVersionPasses | bpy_optix_setup.py:38-47 | The shipped versions pass both checks. |
| OptixSetup.ParseOld | bpy_optix_setup.py:39 | "v2.79b" parses to release 2.79. |
| OptixSetup.ParseMinimum | bpy_optix_setup.py:43 | "2.81" parses to 2.81. |
| OptixSetup.ParseNew | bpy_optix_setup.py:39 | "10.0" parses to 10.0. |
| OptixSetup.OldVersionPassesStringCheck | bpy_optix_setup.py:45-47 | As written, "v2.79b" passes, although its release is below 2.81. |
| OptixSetup.NewVersionFailsStringCheck | bpy_optix_setup.py:45-47 | As written, "10.0" is refused, although its release is above 2.81. |
| OptixSetup.CorrectedGateOrdersVersions | bpy_optix_setup.py:38-47 | The corrected check refuses "v2.79b" and accepts "10.0". |
| OptixSetup.OptixRoot | bpy_optix_setup.py:250-262 | An OptiX root is known exactly on Windows. |
| OptixSetup.OptixFlags | bpy_optix_setup.py:264-265 | There are two switches, and the second ends with the root. |
| OptixSetup.WithFlags | bpy_optix_setup.py:264-265 | With no command it raises IndexError. Otherwise only the last command changes, and it gets the switches appended. |
| OptixSetup.AppendFlags | bpy_optix_setup.py:264-265 | The in-place `+=` on the command array does the same; on IndexError the array is unchanged. |
| OptixSetup.SpawnAll | bpy_optix_setup.py:267-269 | Every command is spawned once, in order. |
| OptixSetup.BinDirFor | bpy_optix_setup.py:276-286 | The result is `build/bin/Release` on Windows and `build/bin` elsewhere. |
| OptixSetup.PrepareDirs | bpy_optix_setup.py:214-217 | Making the three directories can only fail with a filesystem error. |
| OptixSetup.PrepareDirsRun | bpy_optix_setup.py:214-217 | The same calls on the filesystem object. |
| OptixSetup.PrepareDirsNoNewFiles | bpy_optix_setup.py:214-217 | Making the directories changes no non-directory. |
| OptixSetup.MoveModuleRun | bpy_optix_setup.py:288-294 | The first candidate is moved to the extension path, as the move function says. |
| OptixSetup.MoveModuleWithoutCandidate | bpy_optix_setup.py:288-292 | With no candidate in `bin_dir`, `[0]` raises IndexError and nothing changes. |
| OptixSetup.ConfigureRun | bpy_optix_setup.py:224-265 | An incompatible version, an unknown OptiX root or an empty command list raises, and the commands are unchanged. Otherwise the commands become the configured ones. |
| OptixSetup.BuildCMake | bpy_optix_setup.py:206-294 | build_cmake on the filesystem object, the distribution and the command array. Its effect is as the build function says. |
| OptixSetup.BuildWithFreshCommands | bpy_optix_setup.py:247-294 | The same, starting from the commands bpymake returns. |
| OptixSetup.BuildCMakeExtRun | bpy_optix_setup.py:183-194 | build_cmake runs for each "bpy" extension in turn, stopping at the first exception. The result is as the run function says. |
| OptixSetup.BuildNext | bpy_optix_setup.py:188-192 | One iteration of that loop. |
| OptixSetup.InstallBlenderScripts | bpy_optix_setup.py:144-174 | Script directories are staged by removing any destination and then calling move, so the sources are gone afterwards. On success `scripts` lists the sources. |
| OptixSetup.OnlyWindowsBuilds | bpy_optix_setup.py:250-262 | Off Windows nothing is spawned, `bin_dir` and the commands are kept, and the step raises "Could not guess where Optix SDK is." once the directories are made and the version is compatible. |
| OptixSetup.BinDirIsRelease | bpy_optix_setup.py:276-286 | Whenever commands were spawned, `bin_dir` is `build/bin/Release`. |
| OptixSetup.ConfiguredCommands | bpy_optix_setup.py:247-269 | The spawned commands are the configured ones: only the last is extended with the OptiX switches. An empty list spawns nothing and raises IndexError. |
| OptixSetup.SuccessfulBuildMovesModule | bpy_optix_setup.py:224-294 | A successful build ran on Windows with a compatible version and at least one command. It moved the first candidate file from `bin_dir` to the extension path, and that file is gone from `bin_dir`. |
| OptixSetup.NothingToBuild | bpy_optix_setup.py:188-192 | Without a "bpy" extension nothing happens. |
| OptixSetup.NoBuildOutsideWindows | bpy_optix_setup.py:183-194 | Off Windows, a "bpy" extension makes the command raise without spawning anything. |
| WinUtils.NewestVisualStudio | win_utils.py:42-84 | It fails iff no probe succeeds, with the "Visual Studio 13 (or higher)" error. |
| WinUtils.GetVsVersion | win_utils.py:42-84 | The flag-and-result updates compute the same function. |
| WinUtils.NewestWins | win_utils.py:49-74 | The result is a version whose probe succeeded, and no successful probe is newer. |
| WinUtils.ImportModule | win_utils.py:86-316 | Running the module body succeeds iff some Visual Studio probe succeeds and the function called at line 311 is bound by then. On success `VS_VERSION` is the newest installed version, `VS_LIBS` is its library directory and `BLENDER_SVN_REPO_URL` is the trunk prefix followed by `VS_LIBS`. |
| WinUtils.ImportAsWrittenFails | win_utils.py:311 | As written, importing win_utils always raises: NameError for `get_vc_build_tools_dir` when a Visual Studio is installed, the Visual Studio error otherwise. |
| WinUtils.ImportCorrected | win_utils.py:301-316 | Calling `get_all_vc_dev_tools` at line 311, the import succeeds iff some Visual Studio is installed, and the vc12 libraries are chosen iff 2013 is the only one. |
| WinUtils.VsLibs | win_utils.py:313 | `lib/win64_vc12` iff the version is 2013, else `lib/win64_vc14`. |
| WinUtils.SvnRepoUrl | win_utils.py:315-316 | The URL is the trunk prefix followed by `VS_LIBS`. |
| WinUtils.LibsForProbes | win_utils.py:49-84 | The vc12 libraries are chosen iff only the 2013 probe succeeds. |
| WinUtils.ConfigureArgs | win_utils.py:379-387 | The call is `cmake -H<root>\blender -B<root>\build -DWITH_PLAYER=OFF -DWITH_PYTHON_INSTALL=OFF -DWITH_PYTHON_MODULE=ON`, the paths joined with `os.path.join` on Windows. |
| WinUtils.ConfigureOutOfSource | win_utils.py:379-387 | The source and build directories differ. |
| WinUtils.BuildDirOf | win_utils.py:425-435 | It fails iff no entry starts with "build", with "Could not find the build dir". Otherwise the result is the first entry that does. |
| WinUtils.FindBuildDir | win_utils.py:425-435 | The loop with `break` computes the same. |
| WinUtils.DllsToCopyAsWrittenEmpty | win_utils.py:447-449 | As written, no file is ever selected. |
| WinUtils.LibraryDllSkipped | win_utils.py:447-449 | "tbb.dll" is skipped as written and selected by the intended test. |
| WinUtils.DllsToCopySpec | win_utils.py:419 | The intended selection holds exactly the listed `.dll` files not starting with "python", so never "python36.dll". |
| WinUtils.DirsToCopy | win_utils.py:444-445 | A name is kept iff it names a directory relative to the working directory, not to `bin_dir`. |
| WinUtils.InstallBlenderPython | win_utils.py:423-449 | The listing and selection steps compute the selection function, with the DLL test as written, so the DLL list is always empty. |
| WinUtils.InstallSelectionNoRoot | win_utils.py:425 | An unlistable `root_dir` raises a filesystem error. |
| WinUtils.InstallSelectionNoBuildDir | win_utils.py:425-435 | No entry starting with "build" raises "Could not find the build dir". |
| WinUtils.InstallSelectionOk | win_utils.py:425-442 | On success `bin_dir` is `<cwd>/<build dir>/bin/Release`, the build directory is an entry of `root_dir` starting with "build", and the module to copy is `bin_dir/bpy.pyd`. The directories selected are exactly the names listed in `bin_dir` that name a directory relative to the working directory, and the DLL list is empty, as the test at lines 447-449 is written. |
| WinUtils.FindBlenderPython | win_utils.py:480-487 | It succeeds iff some step of the top-down walk from `root_dir` lists a file named exactly `bpy.pyd`. The result is the directory of the first such step in walk order. Otherwise it raises "failed to build", naming `root_dir`. |
| WinUtils.FindBlenderPythonSpec | win_utils.py:480-487 | On the tree: it succeeds iff some directory below `root_dir` holds a non-directory named exactly `bpy.pyd`. What it returns is such a directory, and no directory earlier in the walk holds one. |
| CommonUtils.PlatformsExclusive | common_utils.py:16-23 | `is_linux` holds for "linux" and "linux2", `is_windows` for "win32" and `is_mac` for "darwin". No two hold at once. |
| CommonUtils.ArchitectureBitWidth | common_utils.py:25-26 | The width is eight times the pointer size. |
| CommonUtils.BitPredicatesAlwaysFalse | common_utils.py:28-32 | As written, both predicates are false on every machine. |
| CommonUtils.BitPredicatesCorrected | common_utils.py:28-32 | Compared on the width, they hold exactly for 4- and 8-byte pointers, and never both. |
| CommonUtils.RecursiveCopy | common_utils.py:90-101 | On the filesystem object, the tree, the working directory and the exception are as the as-written function says. The working directory is part of the result. |
| CommonUtils.CopyListing | common_utils.py:93-101 | The loop over the listing computes the listing function. |
| CommonUtils.CopyItem | common_utils.py:95-101 | One iteration: a failure ends the loop, otherwise the rest runs from the new tree and working directory. |
| CommonUtils.SiblingFileSkipped | common_utils.py:92-101 | For `src = {a/, z}` the copy succeeds, but `dst/z` does not exist and the working directory is left at `src/a`. |
| CommonUtils.CopyLeavesCwdBelowSource | common_utils.py:90-101 | For every tree, a successful copy leaves the working directory at `src` or below it. |
| CommonUtils.ItemsLeaveCwdBelow | common_utils.py:93-101 | For every listing, a successful loop leaves the working directory at or below the one it started in. |
| CommonUtils.CopyLeavesCwdInsideSource | common_utils.py:90-101 | For every tree where `src` has a subdirectory and `dst` lies neither above nor below `src`, a successful copy leaves the working directory strictly below `src`. So every name listed after the first subdirectory is resolved inside a subdirectory. |
| CommonUtils.ItemsEnterSubdirectory | common_utils.py:93-101 | Once a listed name is a subdirectory of the working directory, a successful loop ends strictly below it, because copying files into an unrelated `dst` changes nothing below the working directory. |
| CommonUtils.SiblingFileCopied | common_utils.py:93-101 | The corrected copy, which resolves names against `src`, puts `z` at `dst/z`. |
| CommonUtils.CopyTreeIntoFrame | common_utils.py:93-101 | The corrected copy changes nothing outside `dst`. |
| CommonUtils.CopyEntriesIntoFrame | common_utils.py:93-101 | The same, for its loop. |
| CommonUtils.CopyEntriesIntoCopies | common_utils.py:93-101 | After the corrected loop, `dst/n` holds `src/n` for every regular file n listed. |
| CommonUtils.CopyTreeIntoCopiesFiles | common_utils.py:93-96 | After the corrected copy, every regular file of `src` is at `dst/<name>`. |
| LinuxUtils.MakeScript | linux_utils.py:137-148 | The make script path starts with `root_dir` and ends with `blender/make`. |
| LinuxUtils.MakeCommands | linux_utils.py:137-148 | The build command is `[<root>/blender/make, "bpy"]` and the install command is `[<root>/blender/make, "install"]`. |
| LinuxUtils.FindBlenderPython | linux_utils.py:150-162 | It succeeds iff some step of the top-down walk from `root_dir` lists a file named exactly `bpy.so`. The result is the directory of the first such step in walk order. Otherwise it raises the error naming `root_dir`. |
| LinuxUtils.FindBlenderPythonSpec | linux_utils.py:150-162 | On the tree: it succeeds iff some directory below `root_dir` holds a non-directory named exactly `bpy.so`. What it returns is such a directory, and no directory earlier in the walk holds one. |
| LinuxUtils.TaggedModuleNotFound | linux_utils.py:157 | A directory holding only `bpy.cpython-37m.so` is not found; one holding `bpy.so` is. |

## Left out

- Git and svn checkouts, cmake, make and `self.spawn`: external tools. Only their argument lists are modelled, and a spawned command is recorded, never run. What the build produces in `bin_dir` is whatever tree the caller supplies.
- The registry enumeration (`find_vs_dev_tools_*`, lines 93-299): winreg I/O. The three `get_vs_version` probes are booleans. `get_all_vc_dev_tools` (lines 301-308) has an empty body and returns None.
- Line 311 calls `get_vc_build_tools_dir`, which win_utils.py never defines, so importing the module raises NameError (WinUtils.ImportAsWrittenFails). The WinUtils members for the code from line 313 on (`VsLibs`, `SvnRepoUrl`, `ConfigureArgs`, `BuildDirOf`, `InstallBlenderPython`, `FindBlenderPython` and their lemmas) model that code as if line 311 succeeded.
- Apt installation in `linux_utils.py`, administrator elevation in `win_utils.py`, `mac_utils.py` (`cp` subprocesses only), the top-level `setup.py` (delegates to a module not in this repository) and `tests/`: package managers, OS calls and concurrency.
- setuptools internals: `super().run()`, `announce`, `run_command("install_data")`, `skip_build`, `InstallCMakeLibsData` and the `setup()` metadata. The `distribution` object is reduced to `bin_dir`, `data_files` and `scripts`.
- Printed messages, and the text of exception messages beyond the values they name.
- `sys.executable`, `platform.system()`, `sys.version_info`, `sys.platform`, `struct.calcsize("P")`, `get_ext_fullpath`, `__file__`, bpymake's compatible sources (a set of version strings) and `get_make_commands`: host values and external calls, all parameters.
- Case folding is ASCII only, and so is the digit test of the `\d` pattern: Python's `\d` on a str also matches other Unicode decimal digits, which BlenderPy.MatchesScriptsDirPattern rejects. Paths are compared component by component, not as strings. Every path is absolute and normalised, so `os.path.join`, `abspath` and `pathlib.Path.absolute()` are sequence concatenation.
- The order of a directory's listing after an entry is created is modelled as appending at the end. A real filesystem may list it elsewhere.
- Errors that `shutil.copytree` raises partway through a tree (a special file inside it, say) are not modelled: a copy either completes or raises before changing anything. Removing the filesystem root itself is refused.
- OptixSetup.VersionGateByRelease: the corrected comparison orders the numeric release components and ignores pre-release and local suffixes; `pkg_resources.parse_version` orders those as well.
- The copy phase of `install_blender_python` (win_utils.py:451-471) is not modelled. Its first statement joins the list `site.getsitepackages()` with a string, which raises TypeError, so no copy is ever reached. WinUtils.InstallBlenderPython models the selections made before it, with the DLL test as written (always empty). WinUtils.DllsToCopy is the intended test.
- CommonUtils.RecursiveCopy: Python's recursion limit is modelled as an explicit depth bound, which raises RecursionLimit when exhausted.
- Permissions, free space and concurrent changes to the filesystem are not modelled.

## Findings

| source | as written | input that shows it | evidently intended | confidence | as-written member | corrected member |
|---|---|---|---|---|---|---|
| win_utils.py:447-449 | `os.path.splitext(dll) == ".dll"` compares a (root, ext) tuple with a string, so it is always false | a `bin/Release` listing holding `tbb.dll` gives `dlls_to_copy == []` | every `.dll` except the Python runtime's, as the docstring at line 419 says | high, not executed | WinUtils.DllsToCopyAsWrittenEmpty | WinUtils.DllsToCopySpec |
| common_utils.py:28-32 | `archetecture_bit_width == 32` compares the function object, not its result | any machine, for example 8-byte pointers, gives `is_64_bit() == False` | compare `archetecture_bit_width()` | high, not executed | CommonUtils.BitPredicatesAlwaysFalse | CommonUtils.BitPredicatesCorrected |
| common_utils.py:92-101 | `os.chdir(src)` is never undone, so after the first subdirectory the remaining names are resolved inside that subdirectory | `src` listing `a/` then file `z`: `z` is looked up as `src/a/z`, is not found and is silently skipped; CommonUtils.CopyLeavesCwdInsideSource shows the working directory ends below `src` whenever `src` has a subdirectory | resolve each name against `src` | high, not executed | CommonUtils.SiblingFileSkipped | CommonUtils.SiblingFileCopied |
| win_utils.py:311 | `get_vc_build_tools_dir()` calls a name the module never defines | importing win_utils on a machine with Visual Studio 2017 raises NameError, so `VS_LIBS` and every function after line 311 are never defined | call `get_all_vc_dev_tools`, defined at line 301 | high, not executed | WinUtils.ImportAsWrittenFails | WinUtils.ImportCorrected |
| bpy_optix_setup.py:45-47 | `VERSION < MIN_VERSION` compares version strings lexicographically | `VERSION = "v2.79b"` passes the gate, while `"10.0"` is refused | compare the parsed `VERSION_TUPLE` and `MIN_VERSION_TUPLE` | high, not executed | OptixSetup.OldVersionPassesStringCheck | OptixSetup.CorrectedGateOrdersVersions |

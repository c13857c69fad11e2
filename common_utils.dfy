/** The cross-platform build helpers: the platform predicates and
    recursive_copy, which changes the working directory as it goes. */
module CommonUtils {
  import opened Paths
  import opened Outcomes
  import opened FileTree
  import opened FileOps
  import opened FileSystems

  // ---------------------------------------------------------------------
  // Platform predicates, on the value of sys.platform

  predicate IsLinux(platform: string)
  {
    platform in ["linux", "linux2"]
  }

  predicate IsWindows(platform: string)
  {
    platform == "win32"
  }

  predicate IsMac(platform: string)
  {
    platform == "darwin"
  }

  /** At most one platform predicate holds, and each holds for its own
      names only. */
  lemma PlatformsExclusive(platform: string)
    ensures !(IsLinux(platform) && IsWindows(platform))
    ensures !(IsLinux(platform) && IsMac(platform))
    ensures !(IsWindows(platform) && IsMac(platform))
    ensures IsLinux(platform) <==> platform == "linux" || platform == "linux2"
    ensures IsWindows(platform) <==> platform == "win32"
    ensures IsMac(platform) <==> platform == "darwin"
    ensures !IsLinux("cygwin") && !IsWindows("cygwin") && !IsMac("cygwin")
  {
  }

  /** struct.calcsize("P") * 8, given the size of a pointer in bytes. */
  function ArchitectureBitWidth(pointerSize: nat): (r: nat)
    ensures r % 8 == 0 && r / 8 == pointerSize
  {
    pointerSize * 8
  }

  /** The Python values is_32_bit and is_64_bit compare. */
  datatype PyObject = PyInt(i: int) | PyFunction(qualname: string)

  /** is_32_bit as written: the function archetecture_bit_width itself, not
      its result, is compared with 32. */
  predicate Is32BitAsWritten(pointerSize: nat)
  {
    PyFunction("archetecture_bit_width") == PyInt(32)
  }

  /** is_64_bit as written. */
  predicate Is64BitAsWritten(pointerSize: nat)
  {
    PyFunction("archetecture_bit_width") == PyInt(64)
  }

  /** The comparisons the functions evidently mean. */
  predicate Is32Bit(pointerSize: nat)
  {
    PyInt(ArchitectureBitWidth(pointerSize)) == PyInt(32)
  }

  predicate Is64Bit(pointerSize: nat)
  {
    PyInt(ArchitectureBitWidth(pointerSize)) == PyInt(64)
  }

  /** As written both predicates are false on every machine, the 32-bit and
      the 64-bit one included. The proof is only that distinct constructors
      differ: a function object never equals an int. */
  lemma BitPredicatesAlwaysFalse(pointerSize: nat)
    ensures !Is32BitAsWritten(pointerSize) && !Is64BitAsWritten(pointerSize)
    ensures Is32Bit(4) && !Is32BitAsWritten(4)
    ensures Is64Bit(8) && !Is64BitAsWritten(8)
  {
  }

  /** The corrected predicates hold exactly for 4- and 8-byte pointers, and
      never both. */
  lemma BitPredicatesCorrected(pointerSize: nat)
    ensures Is32Bit(pointerSize) <==> pointerSize == 4
    ensures Is64Bit(pointerSize) <==> pointerSize == 8
    ensures !(Is32Bit(pointerSize) && Is64Bit(pointerSize))
  {
  }

  // ---------------------------------------------------------------------
  // recursive_copy as written

  /** The filesystem and working directory a call leaves, and its outcome. */
  datatype CopyState = CopyState(tree: Entry, cwd: Path, outcome: Outcome)

  /** recursive_copy(src, dst) with src and dst absolute. depth is how many
      nested calls Python's recursion limit still allows. The call changes
      into src and lists it; every name is then resolved against the
      working directory of the moment, which the first recursion into a
      subdirectory moves and never restores. */
  function RecursiveCopySpec(t: Entry, cwd: Path, src: Path, dst: Path, depth: nat): CopyState
    decreases depth, 0
  {
    if depth == 0 then CopyState(t, cwd, Fail(RecursionLimit))
    else if !IsDir(t, src) then CopyState(t, cwd, ChDirOutcome(t, src))
    else CopyItems(t, src, Names(Get(t, src).value.children), dst, depth - 1)
  }

  /** The loop over the listing: a file is copied into dst; a directory gets
      a new directory dst/item, which must not exist yet, and is copied into
      it; anything else is skipped. */
  function CopyItems(t: Entry, cwd: Path, items: seq<Name>, dst: Path, depth: nat): CopyState
    decreases depth, 1, |items|
  {
    if items == [] then CopyState(t, cwd, Pass)
    else
      var p := cwd + [items[0]];
      if IsFile(t, p) then
        match CopyFile(t, p, dst)
        case Err(e) => CopyState(t, cwd, Fail(e))
        case Ok(t1) => CopyItems(t1, cwd, items[1..], dst, depth)
      else if IsDir(t, p) then
        match MkDirTree(t, dst + [items[0]])
        case Err(e) => CopyState(t, cwd, Fail(e))
        case Ok(t1) =>
          var s := RecursiveCopySpec(t1, cwd, p, dst + [items[0]], depth);
          if s.outcome.Fail? then s else CopyItems(s.tree, s.cwd, items[1..], dst, depth)
      else CopyItems(t, cwd, items[1..], dst, depth)
  }

  lemma ItemsUnfold(items: seq<Name>, i: nat)
    requires i < |items|
    ensures items[i..][0] == items[i] && items[i..][1..] == items[i + 1..]
  {
  }

  /** recursive_copy */
  method RecursiveCopy(fs: FileSystem, src: Path, dst: Path, depth: nat) returns (r: Outcome)
    requires fs.Valid()
    modifies fs
    ensures fs.Valid()
    ensures CopyState(fs.root, fs.cwd, r) == RecursiveCopySpec(old(fs.root), old(fs.cwd), src, dst, depth)
    decreases depth, 0
  {
    if depth == 0 {
      return Fail(RecursionLimit);
    }
    r := fs.ChDir(src);
    if r.Fail? {
      return;
    }
    var items := Names(ListDir(fs.root, fs.cwd).value);
    r := CopyListing(fs, items, dst, depth - 1);
  }

  /** The loop of recursive_copy over the listing of src. */
  method CopyListing(fs: FileSystem, items: seq<Name>, dst: Path, depth: nat) returns (r: Outcome)
    requires fs.Valid()
    modifies fs
    ensures fs.Valid()
    ensures CopyState(fs.root, fs.cwd, r) == CopyItems(old(fs.root), old(fs.cwd), items, dst, depth)
    decreases depth, 2
  {
    ghost var goal := CopyItems(fs.root, fs.cwd, items, dst, depth);
    assert items[0..] == items;
    r := Pass;
    var i := 0;
    while i < |items|
      invariant 0 <= i <= |items|
      invariant fs.Valid()
      invariant goal == CopyItems(fs.root, fs.cwd, items[i..], dst, depth)
      invariant r == Pass
    {
      ItemsUnfold(items, i);
      assert items[i..] == [items[i]] + items[i + 1..];
      r := CopyItem(fs, items[i], dst, depth, items[i + 1..]);
      if r.Fail? {
        return;
      }
      i := i + 1;
    }
    assert items[i..] == [];
  }

  /** One pass of the loop of recursive_copy: the item is resolved against
      the working directory of the moment. A failure ends the whole copy;
      otherwise the rest of the listing continues from the new state. */
  method CopyItem(fs: FileSystem, item: Name, dst: Path, depth: nat, ghost rest: seq<Name>) returns (r: Outcome)
    requires fs.Valid()
    modifies fs
    ensures fs.Valid()
    ensures var s := CopyItems(old(fs.root), old(fs.cwd), [item] + rest, dst, depth);
      if r.Fail? then CopyState(fs.root, fs.cwd, r) == s
      else r == Pass && CopyItems(fs.root, fs.cwd, rest, dst, depth) == s
    decreases depth, 1
  {
    assert ([item] + rest)[0] == item && ([item] + rest)[1..] == rest;
    var p := fs.cwd + [item];
    r := Pass;
    if IsFile(fs.root, p) {
      r := fs.Copy(p, dst);
    } else if IsDir(fs.root, p) {
      r := fs.MkDir(dst + [item]);
      if r.Fail? {
        return;
      }
      r := RecursiveCopy(fs, p, dst + [item], depth);
    }
  }

  /** A source with a subdirectory a listed before a file z. */
  const SampleTree: Entry := Dir("", [Dir("src", [Dir("a", []), File("z")]), Dir("dst", [])])

  /** Lookups in the sample. */
  lemma SampleLookups()
    ensures Get(SampleTree, ["dst"]) == Some(Dir("dst", []))
    ensures Get(SampleTree, ["dst", "a"]) == None
    ensures Get(SampleTree, ["src"]) == Some(Dir("src", [Dir("a", []), File("z")]))
    ensures IndexOf(SampleTree.children, "dst") == Some(1)
  {
    var cs := SampleTree.children;
    assert cs[1..] == [Dir("dst", [])];
    assert IndexOf(cs[1..], "dst") == Some(0);
    assert ["dst"][1..] == [] && ["dst", "a"][1..] == ["a"] && ["a"][1..] == [];
    assert Get(Dir("dst", []), ["a"]) == None;
    assert ["src"][1..] == [];
  }

  /** The sample after mkdir dst/a. */
  function SampleWithA(): (r: Entry)
    ensures MkDirTree(SampleTree, ["dst", "a"]) == Ok(r)
  {
    var x := Some(Dir("a", []));
    var cs := SampleTree.children;
    SampleLookups();
    assert Parent(["dst", "a"]) == ["dst"] && Basename(["dst", "a"]) == "a";
    assert ["dst", "a"][1..] == ["a"];
    assert Place([], "a", x) == [Dir("a", [])];
    assert SetAt(Dir("dst", []), ["a"], x) == Dir("dst", [Dir("a", [])]);
    assert cs[1 := Dir("dst", [Dir("a", [])])] == [Dir("src", [Dir("a", []), File("z")]), Dir("dst", [Dir("a", [])])];
    Dir("", [Dir("src", [Dir("a", []), File("z")]), Dir("dst", [Dir("a", [])])])
  }

  /** As written, once the copy has gone into src/a it looks for z in src/a,
      finds nothing there and skips it: the call succeeds without copying
      z, and leaves the working directory in src/a. */
  lemma SiblingFileSkipped()
    ensures var s := RecursiveCopySpec(SampleTree, [], ["src"], ["dst"], 2);
      && s.outcome == Pass
      && IsFile(SampleTree, ["src", "z"])
      && IsDir(s.tree, ["dst", "a"])
      && !Exists(s.tree, ["dst", "z"])
      && s.cwd == ["src", "a"]
  {
    var t := SampleTree;
    var t1 := SampleWithA();
    SampleLookups();
    SampleSourceLookups(t);
    assert Names(Get(t, ["src"]).value.children) == ["a", "z"];
    assert ["src"] + ["a"] == ["src", "a"] && ["dst"] + ["a"] == ["dst", "a"];
    SampleCopyOfA();
    SampleZSkipped();
    SampleWithALookups();
    assert ["a", "z"][1..] == ["z"];
    assert CopyItems(t, ["src"], ["a", "z"], ["dst"], 1) == CopyState(t1, ["src", "a"], Pass);
  }

  /** The recursion into src/a: the empty directory is copied, and the
      working directory stays in src/a. */
  lemma SampleCopyOfA()
    ensures RecursiveCopySpec(SampleWithA(), ["src"], ["src", "a"], ["dst", "a"], 1)
            == CopyState(SampleWithA(), ["src", "a"], Pass)
  {
    var t1 := SampleWithA();
    SampleWithALookups();
    SampleSourceLookups(t1);
    assert Names(Get(t1, ["src", "a"]).value.children) == [];
    assert CopyItems(t1, ["src", "a"], [], ["dst", "a"], 0) == CopyState(t1, ["src", "a"], Pass);
  }

  /** Back in the loop over src, z is looked for in src/a and skipped. */
  lemma SampleZSkipped()
    ensures CopyItems(SampleWithA(), ["src", "a"], ["z"], ["dst"], 1) == CopyState(SampleWithA(), ["src", "a"], Pass)
  {
    var t1 := SampleWithA();
    SampleWithALookups();
    SampleSourceLookups(t1);
    assert ["src", "a"] + ["z"] == ["src", "a", "z"] && ["z"][1..] == [];
  }

  /** Lookups below src, in any tree whose src is the sample's. */
  lemma SampleSourceLookups(t: Entry)
    requires Get(t, ["src"]) == Some(Dir("src", [Dir("a", []), File("z")]))
    ensures Get(t, ["src", "a"]) == Some(Dir("a", []))
    ensures Get(t, ["src", "z"]) == Some(File("z"))
    ensures Get(t, ["src", "a", "z"]) == None
  {
    GetAppend(t, ["src"], ["a"]);
    GetAppend(t, ["src"], ["z"]);
    GetAppend(t, ["src"], ["a", "z"]);
    assert ["src"] + ["a"] == ["src", "a"] && ["src"] + ["z"] == ["src", "z"];
    assert ["src"] + ["a", "z"] == ["src", "a", "z"];
    var d := Dir("src", [Dir("a", []), File("z")]);
    assert d.children[1..] == [File("z")];
    assert IndexOf(d.children[1..], "z") == Some(0);
    assert ["a"][1..] == [] && ["z"][1..] == [] && ["a", "z"][1..] == ["z"];
    assert Get(Dir("a", []), ["z"]) == None;
  }

  lemma SampleWithALookups()
    ensures Get(SampleWithA(), ["src"]) == Some(Dir("src", [Dir("a", []), File("z")]))
    ensures Get(SampleWithA(), ["dst"]) == Some(Dir("dst", [Dir("a", [])]))
    ensures Get(SampleWithA(), ["dst", "a"]) == Some(Dir("a", []))
    ensures Get(SampleWithA(), ["dst", "z"]) == None
  {
    var t1 := SampleWithA();
    var cs := t1.children;
    assert ["src"][1..] == [] && ["dst"][1..] == [];
    assert cs[1..] == [Dir("dst", [Dir("a", [])])];
    assert IndexOf(cs[1..], "dst") == Some(0);
    SampleDstLookups(t1);
  }

  /** Lookups below dst once it holds a. */
  lemma SampleDstLookups(t: Entry)
    requires Get(t, ["dst"]) == Some(Dir("dst", [Dir("a", [])]))
    ensures Get(t, ["dst", "a"]) == Some(Dir("a", []))
    ensures Get(t, ["dst", "z"]) == None
  {
    GetAppend(t, ["dst"], ["a"]);
    GetAppend(t, ["dst"], ["z"]);
    assert ["dst"] + ["a"] == ["dst", "a"] && ["dst"] + ["z"] == ["dst", "z"];
    assert ["a"][1..] == [] && ["z"][1..] == [];
  }

  /** Whatever the tree, a successful copy leaves the working directory at
      src or below it: the chdir into src is never undone. */
  lemma {:induction false} CopyLeavesCwdBelowSource(t: Entry, cwd: Path, src: Path, dst: Path, depth: nat)
    ensures var s := RecursiveCopySpec(t, cwd, src, dst, depth);
      s.outcome == Pass ==> src <= s.cwd
    decreases depth, 0
  {
    if depth > 0 && IsDir(t, src) {
      ItemsLeaveCwdBelow(t, src, Names(Get(t, src).value.children), dst, depth - 1);
    }
  }

  /** The loop over a listing only ever moves the working directory down. */
  lemma {:induction false} ItemsLeaveCwdBelow(t: Entry, cwd: Path, items: seq<Name>, dst: Path, depth: nat)
    ensures var s := CopyItems(t, cwd, items, dst, depth);
      s.outcome == Pass ==> cwd <= s.cwd
    decreases depth, 1, |items|
  {
    if items != [] {
      var p := cwd + [items[0]];
      if IsFile(t, p) {
        match CopyFile(t, p, dst)
        case Err(_) =>
        case Ok(t1) => ItemsLeaveCwdBelow(t1, cwd, items[1..], dst, depth);
      } else if IsDir(t, p) {
        match MkDirTree(t, dst + [items[0]])
        case Err(_) =>
        case Ok(t1) =>
          var s := RecursiveCopySpec(t1, cwd, p, dst + [items[0]], depth);
          CopyLeavesCwdBelowSource(t1, cwd, p, dst + [items[0]], depth);
          if s.outcome == Pass {
            ItemsLeaveCwdBelow(s.tree, s.cwd, items[1..], dst, depth);
          }
      } else {
        ItemsLeaveCwdBelow(t, cwd, items[1..], dst, depth);
      }
    }
  }

  /** When src has a subdirectory and dst lies neither above nor below src,
      a successful copy leaves the working directory strictly inside src:
      every name listed after the first subdirectory was resolved there. */
  lemma CopyLeavesCwdInsideSource(t: Entry, cwd: Path, src: Path, dst: Path, depth: nat, sub: Name)
    requires IsDir(t, src + [sub])
    requires !(src <= dst) && !(dst <= src)
    ensures var s := RecursiveCopySpec(t, cwd, src, dst, depth);
      s.outcome == Pass ==> src < s.cwd
  {
    GetAppend(t, src, [sub]);
    if depth > 0 {
      var cs := Get(t, src).value.children;
      var i := IndexOf(cs, sub).value;
      assert Names(cs)[i] == sub;
      ItemsEnterSubdirectory(t, src, Names(cs), dst, depth - 1, i);
    }
  }

  /** The loop part: once a listed name is a subdirectory of cwd, a
      successful loop ends strictly below cwd, because copying files into
      dst changes nothing below cwd. */
  lemma {:induction false} ItemsEnterSubdirectory(t: Entry, cwd: Path, items: seq<Name>, dst: Path, depth: nat, i: nat)
    requires i < |items| && IsDir(t, cwd + [items[i]])
    requires !(cwd <= dst) && !(dst <= cwd)
    ensures var s := CopyItems(t, cwd, items, dst, depth);
      s.outcome == Pass ==> cwd < s.cwd
    decreases |items|
  {
    var p := cwd + [items[0]];
    if IsFile(t, p) {
      match CopyFile(t, p, dst)
      case Err(_) =>
      case Ok(t1) =>
        var q := cwd + [items[i]];
        var target := TargetPath(t, p, dst);
        DisjointFromTarget(cwd, dst, items[i], Basename(p));
        assert t1 == SetAt(t, target, Get(t, p));
        GetSetDisjoint(t, target, q, Get(t, p));
        assert items[1..][i - 1] == items[i];
        ItemsEnterSubdirectory(t1, cwd, items[1..], dst, depth, i - 1);
    } else if IsDir(t, p) {
      match MkDirTree(t, dst + [items[0]])
      case Err(_) =>
      case Ok(t1) =>
        var s := RecursiveCopySpec(t1, cwd, p, dst + [items[0]], depth);
        CopyLeavesCwdBelowSource(t1, cwd, p, dst + [items[0]], depth);
        if s.outcome == Pass {
          ItemsLeaveCwdBelow(s.tree, s.cwd, items[1..], dst, depth);
        }
    } else {
      assert items[1..][i - 1] == items[i];
      ItemsEnterSubdirectory(t, cwd, items[1..], dst, depth, i - 1);
    }
  }

  /** A path just below cwd is unrelated to dst and to any name just below
      dst, when cwd and dst are unrelated. */
  lemma DisjointFromTarget(cwd: Path, dst: Path, m: Name, b: Name)
    requires !(cwd <= dst) && !(dst <= cwd)
    ensures !(dst <= cwd + [m]) && !(cwd + [m] <= dst)
    ensures !(dst + [b] <= cwd + [m]) && !(cwd + [m] <= dst + [b])
  {
  }

  // ---------------------------------------------------------------------
  // recursive_copy as intended

  /** The tree a copy leaves, and its outcome. */
  datatype Copied = Copied(tree: Entry, outcome: Outcome)

  /** The copy as intended: every name of src's listing is resolved against
      src, whatever the working directory. */
  function CopyTreeInto(t: Entry, src: Path, dst: Path, depth: nat): Copied
    decreases depth, 0
  {
    if depth == 0 then Copied(t, Fail(RecursionLimit))
    else if !IsDir(t, src) then Copied(t, ChDirOutcome(t, src))
    else CopyEntriesInto(t, src, Names(Get(t, src).value.children), dst, depth - 1)
  }

  function CopyEntriesInto(t: Entry, src: Path, items: seq<Name>, dst: Path, depth: nat): Copied
    decreases depth, 1, |items|
  {
    if items == [] then Copied(t, Pass)
    else
      var p := src + [items[0]];
      if IsFile(t, p) then
        match CopyFile(t, p, dst)
        case Err(e) => Copied(t, Fail(e))
        case Ok(t1) => CopyEntriesInto(t1, src, items[1..], dst, depth)
      else if IsDir(t, p) then
        match MkDirTree(t, dst + [items[0]])
        case Err(e) => Copied(t, Fail(e))
        case Ok(t1) =>
          var s := CopyTreeInto(t1, p, dst + [items[0]], depth);
          if s.outcome.Fail? then s else CopyEntriesInto(s.tree, src, items[1..], dst, depth)
      else CopyEntriesInto(t, src, items[1..], dst, depth)
  }

  /** On the same tree the intended copy reaches z. */
  lemma SiblingFileCopied()
    ensures var s := CopyTreeInto(SampleTree, ["src"], ["dst"], 2);
      s.outcome == Pass && Get(s.tree, ["dst", "z"]) == Some(File("z"))
  {
    var t := SampleTree;
    var t1 := SampleWithA();
    SampleLookups();
    SampleSourceLookups(t);
    assert Names(Get(t, ["src"]).value.children) == ["a", "z"];
    assert ["src"] + ["a"] == ["src", "a"] && ["dst"] + ["a"] == ["dst", "a"];
    SampleIntendedCopyOfA();
    SampleIntendedCopyOfZ();
    assert ["a", "z"][1..] == ["z"];
    assert CopyEntriesInto(t, ["src"], ["a", "z"], ["dst"], 1) == CopyEntriesInto(t1, ["src"], ["z"], ["dst"], 1);
  }

  lemma SampleIntendedCopyOfA()
    ensures CopyTreeInto(SampleWithA(), ["src", "a"], ["dst", "a"], 1) == Copied(SampleWithA(), Pass)
  {
    var t1 := SampleWithA();
    SampleWithALookups();
    SampleSourceLookups(t1);
    assert Names(Get(t1, ["src", "a"]).value.children) == [];
  }

  /** The intended loop resolves z against src and copies it into dst. */
  lemma SampleIntendedCopyOfZ()
    ensures var s := CopyEntriesInto(SampleWithA(), ["src"], ["z"], ["dst"], 1);
      s.outcome == Pass && Get(s.tree, ["dst", "z"]) == Some(File("z"))
  {
    var t1 := SampleWithA();
    SampleCopyFileZ();
    var t2 := CopyFile(t1, ["src", "z"], ["dst"]).value;
    CopyOneFileInto(t1, ["src"], "z", ["dst"], 1, ["src", "z"]);
    assert CopyEntriesInto(t1, ["src"], ["z"], ["dst"], 1) == Copied(t2, Pass);
  }

  /** A listing of one regular file is copied by one shutil.copy. */
  lemma CopyOneFileInto(t: Entry, src: Path, n: Name, dst: Path, depth: nat, p: Path)
    requires p == src + [n] && IsFile(t, p) && CopyFile(t, p, dst).Ok?
    ensures CopyEntriesInto(t, src, [n], dst, depth) == Copied(CopyFile(t, p, dst).value, Pass)
  {
    assert [n][1..] == [];
  }

  lemma SampleCopyFileZ()
    ensures IsFile(SampleWithA(), ["src", "z"])
    ensures CopyFile(SampleWithA(), ["src", "z"], ["dst"]).Ok?
    ensures Get(CopyFile(SampleWithA(), ["src", "z"], ["dst"]).value, ["dst", "z"]) == Some(File("z"))
  {
    var t1 := SampleWithA();
    SampleWithALookups();
    SampleSourceLookups(t1);
    assert TargetPath(t1, ["src", "z"], ["dst"]) == ["dst", "z"];
    CopyFileOk(t1, ["src", "z"], ["dst"]);
  }

  /** Neither path lies at or below the other. */
  predicate Apart(p: Path, q: Path)
  {
    !(p <= q) && !(q <= p)
  }

  /** A path extended by one name lies at or below another extended path
      only if the first path lies at or below the second. */
  lemma PrefixOfAppend(a: Path, b: Path, x: Name, y: Name)
    ensures a + [x] <= b + [y] ==> a <= b
  {
    if a + [x] <= b + [y] {
      assert a == (a + [x])[..|a|] == (b + [y])[..|a|] == b[..|a|];
    }
  }

  /** A successful copy into dst changes nothing outside dst and keeps every
      directory at or above dst a directory. */
  lemma {:induction false} CopyTreeIntoFrame(t: Entry, src: Path, dst: Path, depth: nat, q: Path, a: Path)
    requires IsDir(t, dst) && CopyTreeInto(t, src, dst, depth).outcome == Pass
    requires Apart(q, dst)
    requires a <= dst && IsDir(t, a)
    ensures Get(CopyTreeInto(t, src, dst, depth).tree, q) == Get(t, q)
    ensures IsDir(CopyTreeInto(t, src, dst, depth).tree, a)
    decreases depth, 0
  {
    CopyEntriesIntoFrame(t, src, Names(Get(t, src).value.children), dst, depth - 1, q, a);
  }

  lemma {:induction false} CopyEntriesIntoFrame(t: Entry, src: Path, items: seq<Name>, dst: Path, depth: nat,
                                                q: Path, a: Path)
    requires IsDir(t, dst) && CopyEntriesInto(t, src, items, dst, depth).outcome == Pass
    requires !(q <= dst) && forall m :: m in items ==> !(dst + [m] <= q)
    requires a <= dst && IsDir(t, a)
    ensures Get(CopyEntriesInto(t, src, items, dst, depth).tree, q) == Get(t, q)
    ensures IsDir(CopyEntriesInto(t, src, items, dst, depth).tree, a)
    decreases depth, 1, |items|
  {
    if items != [] {
      var m := items[0];
      var p := src + [m];
      var nd := dst + [m];
      assert m in items;
      assert |q| <= |dst| && q <= nd ==> q <= dst;
      assert !(q <= nd);
      if IsFile(t, p) {
        var t1 := CopyFile(t, p, dst).value;
        assert t1 == SetAt(t, nd, Get(t, p));
        GetSetDisjoint(t, nd, q, Get(t, p));
        SetAtKeepsDirs(t, nd, dst, Get(t, p));
        SetAtKeepsDirs(t, nd, a, Get(t, p));
        CopyEntriesIntoFrame(t1, src, items[1..], dst, depth, q, a);
      } else if IsDir(t, p) {
        var t1 := MkDirTree(t, nd).value;
        MkDirTreeOk(t, nd, q);
        SetAtKeepsDirs(t, nd, dst, Some(Dir(m, [])));
        SetAtKeepsDirs(t, nd, a, Some(Dir(m, [])));
        var s := CopyTreeInto(t1, p, nd, depth);
        CopyTreeIntoFrame(t1, p, nd, depth, q, a);
        CopyTreeIntoFrame(t1, p, nd, depth, q, dst);
        CopyEntriesIntoFrame(s.tree, src, items[1..], dst, depth, q, a);
      } else {
        CopyEntriesIntoFrame(t, src, items[1..], dst, depth, q, a);
      }
    }
  }

  predicate Distinct(items: seq<Name>)
  {
    forall i, j :: 0 <= i < j < |items| ==> items[i] != items[j]
  }

  /** Each file listed in src ends up in dst, under its own name. */
  lemma {:induction false} CopyEntriesIntoCopies(t: Entry, src: Path, items: seq<Name>, dst: Path, depth: nat, n: Name)
    requires IsDir(t, dst) && CopyEntriesInto(t, src, items, dst, depth).outcome == Pass
    requires Apart(src, dst) && Distinct(items)
    requires n in items && IsFile(t, src + [n])
    ensures Get(CopyEntriesInto(t, src, items, dst, depth).tree, dst + [n]) == Named(Get(t, src + [n]), n)
    decreases |items|
  {
    var m := items[0];
    var p := src + [m];
    var nd := dst + [m];
    var rest := items[1..];
    PrefixOfAppend(src, dst, n, m);
    PrefixOfAppend(dst, src, m, n);
    if m == n {
      var t1 := CopyFile(t, p, dst).value;
      assert t1 == SetAt(t, nd, Get(t, p));
      GetSetSame(t, nd, Get(t, p));
      assert Get(t1, nd) == Named(Get(t, p), n);
      forall k | k in rest
        ensures !(dst + [k] <= nd)
      {
        var j :| 0 <= j < |rest| && rest[j] == k;
        assert items[j + 1] == k;
        assert (dst + [k])[|dst|] == k;
      }
      SetAtKeepsDirs(t, nd, dst, Get(t, p));
      CopyEntriesIntoFrame(t1, src, rest, dst, depth, nd, dst);
    } else {
      assert n in rest;
      assert Distinct(rest) by {
        forall i, j | 0 <= i < j < |rest|
          ensures rest[i] != rest[j]
        {
          assert rest[i] == items[i + 1] && rest[j] == items[j + 1];
        }
      }
      if IsFile(t, p) {
        var t1 := CopyFile(t, p, dst).value;
        assert t1 == SetAt(t, nd, Get(t, p));
        GetSetDisjoint(t, nd, src + [n], Get(t, p));
        SetAtKeepsDirs(t, nd, dst, Get(t, p));
        CopyEntriesIntoCopies(t1, src, rest, dst, depth, n);
      } else if IsDir(t, p) {
        var t1 := MkDirTree(t, nd).value;
        MkDirTreeOk(t, nd, src + [n]);
        SetAtKeepsDirs(t, nd, dst, Some(Dir(m, [])));
        var s := CopyTreeInto(t1, p, nd, depth);
        CopyTreeIntoFrame(t1, p, nd, depth, src + [n], dst);
        CopyEntriesIntoCopies(s.tree, src, rest, dst, depth, n);
      } else {
        CopyEntriesIntoCopies(t, src, rest, dst, depth, n);
      }
    }
  }

  /** The names of a listing in a well-formed tree are distinct, and a file
      below the directory is among them. */
  lemma ListingNames(t: Entry, dir: Path, n: Name)
    requires WellFormed(t) && IsDir(t, dir)
    ensures Distinct(Names(Get(t, dir).value.children))
    ensures Exists(t, dir + [n]) ==> n in Names(Get(t, dir).value.children)
  {
    var cs := Get(t, dir).value.children;
    GetWellFormed(t, dir);
    GetAppend(t, dir, [n]);
    if Exists(t, dir + [n]) {
      var i := IndexOf(cs, n).value;
      assert Names(cs)[i] == n;
    }
  }

  /** The intended copy, when it succeeds, leaves in dst a copy of every
      file directly in src, for a destination directory apart from the
      source. */
  lemma CopyTreeIntoCopiesFiles(t: Entry, src: Path, dst: Path, depth: nat, n: Name)
    requires WellFormed(t) && IsDir(t, src) && IsDir(t, dst) && Apart(src, dst)
    requires CopyTreeInto(t, src, dst, depth).outcome == Pass
    requires IsFile(t, src + [n])
    ensures Get(CopyTreeInto(t, src, dst, depth).tree, dst + [n]) == Get(t, src + [n])
  {
    ListingNames(t, src, n);
    GetName(t, src + [n]);
    assert Basename(src + [n]) == n;
    CopyEntriesIntoCopies(t, src, Names(Get(t, src).value.children), dst, depth - 1, n);
  }
}

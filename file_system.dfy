/** The filesystem as mutable state: a tree and a current working directory.
    Each method performs one os or shutil call; a failed call leaves the
    state as it was and reports the exception. */
module FileSystems {
  import opened Paths
  import opened Outcomes
  import opened FileTree
  import opened FileOps

  /** The new tree and reported outcome of a call whose effect is res. */
  predicate Applied(before: Entry, res: Result<Entry>, after: Entry, r: Outcome)
  {
    match res
    case Ok(t) => after == t && r == Pass
    case Err(e) => after == before && r == Fail(e)
  }

  /** os.chdir: fails unless the target is an existing directory. */
  function ChDirOutcome(t: Entry, p: Path): (r: Outcome)
    ensures r == Pass <==> IsDir(t, p)
  {
    match Get(t, p)
    case None => Fail(LookupError(t, p))
    case Some(x) => if x.Dir? then Pass else Fail(NotADirectory(p))
  }

  class FileSystem {
    var root: Entry
    var cwd: Path

    /** The root is a directory and no directory holds two same-named entries. */
    ghost predicate Valid()
      reads this
    {
      root.Dir? && WellFormed(root)
    }

    constructor (tree: Entry)
      requires tree.Dir? && WellFormed(tree)
      ensures Valid() && root == tree && cwd == []
    {
      root := tree;
      cwd := [];
    }

    /** The absolute form of a name relative to the working directory. */
    function Absolute(name: Name): (p: Path)
      reads this
      ensures Parent(p) == cwd && Basename(p) == name
    {
      cwd + [name]
    }

    method Move(src: Path, dst: Path) returns (r: Outcome)
      requires Valid()
      modifies this
      ensures Valid() && cwd == old(cwd)
      ensures Applied(old(root), MoveTree(old(root), src, dst), root, r)
    {
      var res := MoveTree(root, src, dst);
      if res.Ok? {
        MoveTreeWellFormed(root, src, dst);
        root := res.value;
        r := Pass;
      } else {
        r := Fail(res.error);
      }
    }

    method CopyTree(src: Path, dst: Path) returns (r: Outcome)
      requires Valid()
      modifies this
      ensures Valid() && cwd == old(cwd)
      ensures Applied(old(root), CopyTreeTree(old(root), src, dst), root, r)
    {
      var res := CopyTreeTree(root, src, dst);
      if res.Ok? {
        CopyTreeTreeWellFormed(root, src, dst);
        root := res.value;
        r := Pass;
      } else {
        r := Fail(res.error);
      }
    }

    method Copy(src: Path, dst: Path) returns (r: Outcome)
      requires Valid()
      modifies this
      ensures Valid() && cwd == old(cwd)
      ensures Applied(old(root), CopyFile(old(root), src, dst), root, r)
    {
      var res := CopyFile(root, src, dst);
      if res.Ok? {
        CopyFileWellFormed(root, src, dst);
        root := res.value;
        r := Pass;
      } else {
        r := Fail(res.error);
      }
    }

    method RmTree(p: Path) returns (r: Outcome)
      requires Valid()
      modifies this
      ensures Valid() && cwd == old(cwd)
      ensures Applied(old(root), RmTreeTree(old(root), p), root, r)
    {
      var res := RmTreeTree(root, p);
      if res.Ok? {
        RemovalWellFormed(root, p);
        root := res.value;
        r := Pass;
      } else {
        r := Fail(res.error);
      }
    }

    method Remove(p: Path) returns (r: Outcome)
      requires Valid()
      modifies this
      ensures Valid() && cwd == old(cwd)
      ensures Applied(old(root), RemoveTree(old(root), p), root, r)
    {
      var res := RemoveTree(root, p);
      if res.Ok? {
        RemovalWellFormed(root, p);
        root := res.value;
        r := Pass;
      } else {
        r := Fail(res.error);
      }
    }

    method MkDir(p: Path) returns (r: Outcome)
      requires Valid()
      modifies this
      ensures Valid() && cwd == old(cwd)
      ensures Applied(old(root), MkDirTree(old(root), p), root, r)
    {
      var res := MkDirTree(root, p);
      if res.Ok? {
        MkDirTreeWellFormed(root, p);
        root := res.value;
        r := Pass;
      } else {
        r := Fail(res.error);
      }
    }

    method MakeDirsExistOk(p: Path) returns (r: Outcome)
      requires Valid()
      modifies this
      ensures Valid() && cwd == old(cwd)
      ensures Applied(old(root), MakeDirs(old(root), p), root, r)
    {
      var res := MakeDirs(root, p);
      if res.Ok? {
        MakeDirsWellFormed(root, p);
        root := res.value;
        r := Pass;
      } else {
        r := Fail(res.error);
      }
    }

    method ChDir(p: Path) returns (r: Outcome)
      requires Valid()
      modifies this
      ensures Valid() && root == old(root)
      ensures r == ChDirOutcome(root, p)
      ensures cwd == if r == Pass then p else old(cwd)
    {
      r := ChDirOutcome(root, p);
      if r == Pass {
        cwd := p;
      }
    }
  }
}

/** The os and shutil calls the staging code makes, as functions from a tree
    to a new tree or the exception the call raises. */
module FileOps {
  import opened Paths
  import opened Outcomes
  import opened FileTree

  /** The error a call gets when p cannot be resolved: ENOTDIR when some
      proper prefix of p is an existing non-directory, ENOENT otherwise. */
  function LookupError(t: Entry, p: Path): (r: Error)
    ensures r == NotADirectory(p) || r == FileNotFound(p)
  {
    if exists k :: 0 <= k < |p| && Get(t, p[..k]).Some? && !Get(t, p[..k]).value.Dir?
    then NotADirectory(p) else FileNotFound(p)
  }

  /** os.mkdir */
  function MkDirTree(t: Entry, p: Path): (r: Result<Entry>)
    ensures r.Ok? ==> r.value.Dir? == t.Dir? && r.value.name == t.name
    ensures r.Err? ==> IsFileSystemError(r.error)
  {
    if p == [] || Exists(t, p) then Err(FileExists(p))
    else if !IsDir(t, Parent(p)) then Err(LookupError(t, p))
    else Ok(SetAt(t, p, Some(Dir(Basename(p), []))))
  }

  /** os.makedirs(p, exist_ok=True): missing ancestors are created first. */
  function MakeDirs(t: Entry, p: Path): (r: Result<Entry>)
    ensures r.Ok? ==> r.value.Dir? == t.Dir? && r.value.name == t.name
    ensures r.Err? ==> IsFileSystemError(r.error)
    decreases |p|
  {
    if IsDir(t, p) then Ok(t)
    else if Exists(t, p) then Err(FileExists(p))
    else
      var t1 :- if Exists(t, Parent(p)) then Ok(t) else MakeDirs(t, Parent(p));
      MkDirTree(t1, p)
  }

  /** os.remove */
  function RemoveTree(t: Entry, p: Path): (r: Result<Entry>)
    ensures r.Ok? ==> r.value.Dir? == t.Dir? && r.value.name == t.name
    ensures r.Err? ==> IsFileSystemError(r.error)
  {
    match Get(t, p)
    case None => Err(LookupError(t, p))
    case Some(x) => if p == [] || x.Dir? then Err(IsADirectory(p)) else Ok(SetAt(t, p, None))
  }

  /** shutil.rmtree */
  function RmTreeTree(t: Entry, p: Path): (r: Result<Entry>)
    ensures r.Ok? ==> r.value.Dir? == t.Dir? && r.value.name == t.name
    ensures r.Err? ==> IsFileSystemError(r.error)
  {
    match Get(t, p)
    case None => Err(LookupError(t, p))
    case Some(x) =>
      if !x.Dir? then Err(NotADirectory(p))
      else if p == [] then Err(RootNotRemovable)
      else Ok(SetAt(t, p, None))
  }

  /** shutil.copytree(src, dst): the destination must not exist; its missing
      ancestors are created; the copy is the source as it was before the call. */
  function CopyTreeTree(t: Entry, src: Path, dst: Path): (r: Result<Entry>)
    ensures r.Ok? ==> r.value.Dir? == t.Dir? && r.value.name == t.name
    ensures r.Err? ==> IsFileSystemError(r.error)
  {
    match Get(t, src)
    case None => Err(LookupError(t, src))
    case Some(x) =>
      if !x.Dir? then Err(NotADirectory(src))
      else if Exists(t, dst) then Err(FileExists(dst))
      else
        var t1 :- MakeDirs(t, dst);
        if dst == [] then Err(FileExists(dst)) else Ok(SetAt(t1, dst, Some(x)))
  }

  /** Where shutil.copy and shutil.move put the source: into dst, keeping
      the source's base name, when dst is a directory; at dst otherwise. */
  function TargetPath(t: Entry, src: Path, dst: Path): (r: Path)
    ensures IsDir(t, dst) ==> Parent(r) == dst && Basename(r) == Basename(src)
    ensures !IsDir(t, dst) ==> r == dst
  {
    if IsDir(t, dst) then dst + [Basename(src)] else dst
  }

  /** shutil.copy */
  function CopyFile(t: Entry, src: Path, dst: Path): (r: Result<Entry>)
    ensures r.Ok? ==> r.value.Dir? == t.Dir? && r.value.name == t.name
    ensures r.Err? ==> IsFileSystemError(r.error)
  {
    var target := TargetPath(t, src, dst);
    if Exists(t, src) && target == src then Err(SameFile(src))
    else match Get(t, src)
      case None => Err(LookupError(t, src))
      case Some(x) =>
        if x.Dir? then Err(IsADirectory(src))
        else if target == [] || IsDir(t, target) then Err(IsADirectory(target))
        else if !IsDir(t, Parent(target)) then Err(LookupError(t, target))
        else Ok(SetAt(t, target, Some(x)))
  }

  /** shutil.move: os.rename when it can, otherwise copytree and rmtree for a
      directory, or a copy that fails for a file whose target parent is
      missing. */
  function MoveTree(t: Entry, src: Path, dst: Path): (r: Result<Entry>)
    ensures r.Ok? ==> r.value.Dir? == t.Dir? && r.value.name == t.name
    ensures r.Err? ==> IsFileSystemError(r.error)
  {
    match Get(t, src)
    case None => Err(LookupError(t, src))
    case Some(x) =>
      var moved := TargetPath(t, src, dst);
      if IsDir(t, dst) && src == dst then Ok(t)
      else if IsDir(t, dst) && Exists(t, moved) then Err(DestinationExists(moved))
      else if moved == src then Ok(t)
      else if x.Dir? && src <= moved then Err(MoveIntoItself(src, dst))
      else if IsDir(t, Parent(moved)) && !(x.Dir? && Exists(t, moved)) then
        Ok(SetAt(SetAt(t, src, None), moved, Some(x)))
      else if x.Dir? then
        var t1 :- CopyTreeTree(t, src, moved);
        RmTreeTree(t1, src)
      else Err(LookupError(t, moved))
  }

  // ---------------------------------------------------------------------
  // Auxiliary facts about paths in a tree

  /** A proper prefix of an existing path is a directory. */
  lemma AncestorIsDir(e: Entry, p: Path, q: Path)
    requires p <= q && |p| < |q| && Get(e, q).Some?
    ensures IsDir(e, p)
  {
    GetPrefix(e, p, q);
  }

  /** A path through a non-directory resolves to nothing. */
  lemma NoLookupThroughNonDir(e: Entry, p: Path, k: nat)
    requires k < |p| && Get(e, p[..k]).Some? && !Get(e, p[..k]).value.Dir?
    ensures Get(e, p).None?
  {
    if Get(e, p).Some? {
      AncestorIsDir(e, p[..k], p);
    }
  }

  // ---------------------------------------------------------------------
  // os.mkdir and os.makedirs

  /** A directory created by mkdir is empty and no other path changes. */
  lemma MkDirTreeOk(t: Entry, p: Path, q: Path)
    requires MkDirTree(t, p).Ok? && !(q <= p)
    ensures Get(MkDirTree(t, p).value, p) == Some(Dir(Basename(p), []))
    ensures Get(MkDirTree(t, p).value, q) == Get(t, q)
  {
    GetSetSame(t, p, Some(Dir(Basename(p), [])));
    if p <= q {
      // q lies below p, which did not exist
      assert Get(t, q).None? by {
        if Get(t, q).Some? { GetPrefix(t, p, q); }
      }
      GetAppend(MkDirTree(t, p).value, p, q[|p|..]);
      assert p + q[|p|..] == q;
    } else {
      GetSetDisjoint(t, p, q, Some(Dir(Basename(p), [])));
    }
  }

  /** makedirs succeeds only by leaving a directory at p, and changes no
      path other than p's ancestors. */
  lemma {:induction false} MakeDirsOk(t: Entry, p: Path, q: Path)
    requires MakeDirs(t, p).Ok? && !(q <= p)
    ensures IsDir(MakeDirs(t, p).value, p)
    ensures Get(MakeDirs(t, p).value, q) == Get(t, q)
    decreases |p|
  {
    if !IsDir(t, p) {
      var t1 := if Exists(t, Parent(p)) then t else MakeDirs(t, Parent(p)).value;
      if !Exists(t, Parent(p)) {
        assert !(q <= Parent(p));
        MakeDirsOk(t, Parent(p), q);
      }
      MkDirTreeOk(t1, p, q);
    }
  }

  /** makedirs creates only directories: whatever is not a directory
      afterwards was there before, unchanged. */
  lemma MakeDirsNoNewFiles(t: Entry, p: Path, q: Path)
    requires MakeDirs(t, p).Ok?
    requires Exists(MakeDirs(t, p).value, q) && !IsDir(MakeDirs(t, p).value, q)
    ensures Get(MakeDirs(t, p).value, q) == Get(t, q)
  {
    var t' := MakeDirs(t, p).value;
    MakeDirsOk(t, p, p + [""]);
    if q <= p && q != p {
      AncestorIsDir(t', q, p);
    }
    if !(q <= p) {
      MakeDirsOk(t, p, q);
    }
  }

  /** makedirs on a path that is already a directory changes nothing. */
  lemma MakeDirsExisting(t: Entry, p: Path)
    requires IsDir(t, p)
    ensures MakeDirs(t, p) == Ok(t)
  {
  }

  lemma MkDirTreeWellFormed(t: Entry, p: Path)
    requires WellFormed(t) && MkDirTree(t, p).Ok?
    ensures WellFormed(MkDirTree(t, p).value)
  {
    SetAtWellFormed(t, p, Some(Dir(Basename(p), [])));
  }

  lemma {:induction false} MakeDirsWellFormed(t: Entry, p: Path)
    requires WellFormed(t) && MakeDirs(t, p).Ok?
    ensures WellFormed(MakeDirs(t, p).value)
    decreases |p|
  {
    if !IsDir(t, p) {
      var t1 := if Exists(t, Parent(p)) then t else MakeDirs(t, Parent(p)).value;
      if !Exists(t, Parent(p)) {
        MakeDirsWellFormed(t, Parent(p));
      }
      MkDirTreeWellFormed(t1, p);
    }
  }

  // ---------------------------------------------------------------------
  // Removal

  /** rmtree succeeds exactly on a directory other than the root, and then
      the path is gone. */
  lemma RmTreeTreeOk(t: Entry, p: Path)
    ensures RmTreeTree(t, p).Ok? <==> p != [] && IsDir(t, p)
    ensures RmTreeTree(t, p).Ok? ==>
      RmTreeTree(t, p).value == SetAt(t, p, None) && !Exists(RmTreeTree(t, p).value, p)
  {
    if p != [] && IsDir(t, p) {
      ParentIsDir(t, p);
      GetSetSame(t, p, None);
    }
  }

  /** os.remove succeeds exactly on an existing non-directory, and then the
      path is gone. */
  lemma RemoveTreeOk(t: Entry, p: Path)
    ensures RemoveTree(t, p).Ok? <==> p != [] && Exists(t, p) && !IsDir(t, p)
    ensures RemoveTree(t, p).Ok? ==>
      RemoveTree(t, p).value == SetAt(t, p, None) && !Exists(RemoveTree(t, p).value, p)
  {
    if p != [] && Exists(t, p) {
      ParentIsDir(t, p);
      GetSetSame(t, p, None);
    }
  }

  lemma RemovalWellFormed(t: Entry, p: Path)
    requires WellFormed(t)
    ensures RmTreeTree(t, p).Ok? ==> WellFormed(RmTreeTree(t, p).value)
    ensures RemoveTree(t, p).Ok? ==> WellFormed(RemoveTree(t, p).value)
  {
    if p != [] {
      SetAtWellFormed(t, p, None);
    }
  }

  // ---------------------------------------------------------------------
  // Copies

  /** A successful copytree leaves at dst the source as it was (renamed),
      and changes no path outside dst's ancestors and descendants. */
  lemma CopyTreeTreeOk(t: Entry, src: Path, dst: Path, q: Path)
    requires CopyTreeTree(t, src, dst).Ok? && !(q <= dst) && (Exists(t, q) || !(dst <= q))
    ensures Get(CopyTreeTree(t, src, dst).value, dst) == Named(Get(t, src), Basename(dst))
    ensures Get(CopyTreeTree(t, src, dst).value, q) == Get(t, q)
  {
    var x := Get(t, src).value;
    var t1 := MakeDirs(t, dst).value;
    assert dst != [];
    MakeDirsOk(t, dst, q);
    ParentIsDir(t1, dst);
    GetSetSame(t1, dst, Some(x));
    assert !(dst <= q) by {
      if dst <= q { GetPrefix(t, dst, q); }
    }
    GetSetDisjoint(t1, dst, q, Some(x));
  }

  /** copytree keeps the source directory where it is. */
  lemma CopyTreeTreeKeepsSource(t: Entry, src: Path, dst: Path)
    requires CopyTreeTree(t, src, dst).Ok? && !(src <= dst)
    ensures Get(CopyTreeTree(t, src, dst).value, src) == Get(t, src)
  {
    CopyTreeTreeOk(t, src, dst, src);
  }

  lemma CopyTreeTreeWellFormed(t: Entry, src: Path, dst: Path)
    requires WellFormed(t) && CopyTreeTree(t, src, dst).Ok?
    ensures WellFormed(CopyTreeTree(t, src, dst).value)
  {
    GetWellFormed(t, src);
    MakeDirsWellFormed(t, dst);
    SetAtWellFormed(MakeDirs(t, dst).value, dst, Get(t, src));
  }

  /** shutil.copy succeeds exactly when the source is an existing
      non-directory and the target is a distinct non-directory path whose
      parent is a directory; the target then holds the source entry. */
  lemma CopyFileOk(t: Entry, src: Path, dst: Path)
    ensures var target := TargetPath(t, src, dst);
      CopyFile(t, src, dst).Ok? <==>
        Exists(t, src) && !IsDir(t, src) && target != src && target != []
        && !IsDir(t, target) && IsDir(t, Parent(target))
    ensures var target := TargetPath(t, src, dst);
      CopyFile(t, src, dst).Ok? ==>
        Get(CopyFile(t, src, dst).value, target) == Named(Get(t, src), Basename(target))
  {
    var target := TargetPath(t, src, dst);
    if CopyFile(t, src, dst).Ok? {
      GetSetSame(t, target, Get(t, src));
    }
  }

  lemma CopyFileWellFormed(t: Entry, src: Path, dst: Path)
    requires WellFormed(t) && CopyFile(t, src, dst).Ok?
    ensures WellFormed(CopyFile(t, src, dst).value)
  {
    GetWellFormed(t, src);
    SetAtWellFormed(t, TargetPath(t, src, dst), Get(t, src));
  }

  // ---------------------------------------------------------------------
  // shutil.move

  /** The rename branch of a move: the source, renamed, appears at the
      target and is gone from where it was. */
  lemma RenameOk(t: Entry, src: Path, moved: Path)
    requires Get(t, src).Some? && src != [] && moved != []
    requires IsDir(t, Parent(moved)) && !(moved <= src) && !(src <= moved)
    ensures Get(SetAt(SetAt(t, src, None), moved, Get(t, src)), moved)
            == Named(Get(t, src), Basename(moved))
    ensures !Exists(SetAt(SetAt(t, src, None), moved, Get(t, src)), src)
  {
    var t1 := SetAt(t, src, None);
    ParentIsDir(t, src);
    GetSetSame(t, src, None);
    SetAtKeepsDirs(t, src, Parent(moved), None);
    GetSetSame(t1, moved, Get(t, src));
    GetSetDisjoint(t1, moved, src, Get(t, src));
  }

  /** The copy-and-delete branch of a move of a directory. */
  lemma CopyThenRemoveOk(t: Entry, src: Path, moved: Path)
    requires CopyTreeTree(t, src, moved).Ok?
    requires RmTreeTree(CopyTreeTree(t, src, moved).value, src).Ok?
    requires !(moved <= src) && !(src <= moved)
    ensures Get(RmTreeTree(CopyTreeTree(t, src, moved).value, src).value, moved)
            == Named(Get(t, src), Basename(moved))
    ensures !Exists(RmTreeTree(CopyTreeTree(t, src, moved).value, src).value, src)
  {
    var t1 := CopyTreeTree(t, src, moved).value;
    CopyTreeTreeOk(t, src, moved, src);
    RmTreeTreeOk(t1, src);
    GetSetDisjoint(t1, src, moved, None);
  }

  /** A move that is not a rename onto itself puts the source (renamed to the
      target's base name) at the target and removes the source. */
  lemma MoveTreeOk(t: Entry, src: Path, dst: Path)
    requires MoveTree(t, src, dst).Ok?
    requires TargetPath(t, src, dst) != src && src != dst
    ensures var moved := TargetPath(t, src, dst);
      Get(MoveTree(t, src, dst).value, moved) == Named(Get(t, src), Basename(moved))
    ensures !Exists(MoveTree(t, src, dst).value, src)
  {
    var x := Get(t, src).value;
    var moved := TargetPath(t, src, dst);
    assert !(moved <= src) by {
      if moved <= src { AncestorIsDir(t, moved, src); }
    }
    if IsDir(t, Parent(moved)) && !(x.Dir? && Exists(t, moved)) {
      assert !(src <= moved) by {
        if src <= moved && !x.Dir? {
          assert src <= Parent(moved);
          if src != Parent(moved) { AncestorIsDir(t, src, Parent(moved)); }
        }
      }
      RenameOk(t, src, moved);
    } else {
      CopyThenRemoveOk(t, src, moved);
    }
  }

  /** A move changes no path outside the source, the target and their
      ancestors. */
  lemma MoveTreeFrame(t: Entry, src: Path, dst: Path, q: Path)
    requires MoveTree(t, src, dst).Ok?
    requires var moved := TargetPath(t, src, dst);
      !(q <= src) && !(src <= q) && !(q <= moved) && !(moved <= q)
    ensures Get(MoveTree(t, src, dst).value, q) == Get(t, q)
  {
    var x := Get(t, src).value;
    var moved := TargetPath(t, src, dst);
    if !(IsDir(t, dst) && src == dst) && moved != src {
      if IsDir(t, Parent(moved)) && !(x.Dir? && Exists(t, moved)) {
        GetSetDisjoint(t, src, q, None);
        GetSetDisjoint(SetAt(t, src, None), moved, q, Some(x));
      } else {
        CopyThenRemoveFrame(t, src, moved, q);
      }
    }
  }

  /** The copytree-then-rmtree fallback changes no path outside the source
      and the target. */
  lemma CopyThenRemoveFrame(t: Entry, src: Path, moved: Path, q: Path)
    requires CopyTreeTree(t, src, moved).Ok?
    requires RmTreeTree(CopyTreeTree(t, src, moved).value, src).Ok?
    requires !(q <= src) && !(src <= q) && !(q <= moved) && !(moved <= q)
    ensures Get(RmTreeTree(CopyTreeTree(t, src, moved).value, src).value, q) == Get(t, q)
  {
    var t1 := CopyTreeTree(t, src, moved).value;
    CopyTreeTreeOk(t, src, moved, q);
    GetSetDisjoint(t1, src, q, None);
  }

  lemma MoveTreeWellFormed(t: Entry, src: Path, dst: Path)
    requires WellFormed(t) && MoveTree(t, src, dst).Ok?
    ensures WellFormed(MoveTree(t, src, dst).value)
  {
    var x := Get(t, src).value;
    var moved := TargetPath(t, src, dst);
    if !(IsDir(t, dst) && src == dst) && moved != src {
      GetWellFormed(t, src);
      if IsDir(t, Parent(moved)) && !(x.Dir? && Exists(t, moved)) {
        SetAtWellFormed(t, src, None);
        SetAtWellFormed(SetAt(t, src, None), moved, Some(x));
      } else {
        CopyTreeTreeWellFormed(t, src, moved);
        RemovalWellFormed(CopyTreeTree(t, src, moved).value, src);
      }
    }
  }
}

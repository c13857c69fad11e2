/** os.walk over the abstract tree, top-down, and the first-match searches
    built on it. */
module Walks {
  import opened Paths
  import opened Outcomes
  import opened FileTree

  /** One triple yielded by os.walk: a directory, the names of its
      subdirectories and the names of its other entries, in listing order. */
  datatype WalkStep = WalkStep(path: Path, dirs: seq<Name>, files: seq<Name>)

  function DirNames(cs: seq<Entry>): (r: seq<Name>)
    ensures forall n :: n in r <==> exists c :: c in cs && c.Dir? && c.name == n
    decreases |cs|
  {
    if cs == [] then []
    else (if cs[0].Dir? then [cs[0].name] else []) + DirNames(cs[1..])
  }

  function FileNames(cs: seq<Entry>): (r: seq<Name>)
    ensures forall n :: n in r <==> exists c :: c in cs && !c.Dir? && c.name == n
    decreases |cs|
  {
    if cs == [] then []
    else (if !cs[0].Dir? then [cs[0].name] else []) + FileNames(cs[1..])
  }

  /** The triple os.walk yields for directory d found at path. */
  function StepOf(path: Path, d: Entry): WalkStep
    requires d.Dir?
  {
    WalkStep(path, DirNames(d.children), FileNames(d.children))
  }

  /** The walk below e, which sits at path p: e itself first, then the walk
      of each subdirectory in listing order. */
  function Walk(p: Path, e: Entry): seq<WalkStep>
    decreases e, 1, 0
  {
    if e.Dir? then [StepOf(p, e)] + WalkFrom(p, e, 0) else []
  }

  /** The walks of the subdirectories of e from the i-th entry on. */
  function WalkFrom(p: Path, e: Entry, i: nat): seq<WalkStep>
    requires e.Dir? && i <= |e.children|
    decreases e, 0, |e.children| - i
  {
    if i == |e.children| then []
    else Walk(p + [e.children[i].name], e.children[i]) + WalkFrom(p, e, i + 1)
  }

  /** os.walk(top): nothing when top is missing or not a directory. */
  function WalkAt(t: Entry, top: Path): seq<WalkStep>
  {
    match Get(t, top)
    case None => []
    case Some(d) => Walk(top, d)
  }

  /** Index of the first element satisfying pred. */
  function FirstMatch<T>(xs: seq<T>, pred: T -> bool): (r: Option<nat>)
    ensures r.Some? ==> r.value < |xs| && pred(xs[r.value])
    ensures r.Some? ==> forall j :: 0 <= j < r.value ==> !pred(xs[j])
    ensures r.None? ==> forall j :: 0 <= j < |xs| ==> !pred(xs[j])
    decreases |xs|
  {
    if xs == [] then None
    else if pred(xs[0]) then Some(0)
    else match FirstMatch(xs[1..], pred)
      case None => None
      case Some(k) => Some(k + 1)
  }

  /** The path of the first walked directory whose step satisfies pred. */
  function FindFirstDir(t: Entry, top: Path, pred: WalkStep -> bool): Option<Path>
  {
    match FirstMatch(WalkAt(t, top), pred)
    case None => None
    case Some(i) => Some(WalkAt(t, top)[i].path)
  }

  // ---------------------------------------------------------------------
  // Every directory is walked

  lemma {:induction false} WalkFromContains(p: Path, e: Entry, i: nat, j: nat)
    requires e.Dir? && i <= j < |e.children|
    ensures forall s :: s in Walk(p + [e.children[j].name], e.children[j]) ==> s in WalkFrom(p, e, i)
    decreases |e.children| - i
  {
    if i < j {
      WalkFromContains(p, e, i + 1, j);
    }
  }

  /** Every directory below e appears in the walk, with its own listing. */
  lemma {:induction false} WalkComplete(p: Path, e: Entry, q: Path)
    requires Get(e, q).Some? && Get(e, q).value.Dir?
    ensures StepOf(p + q, Get(e, q).value) in Walk(p, e)
    decreases |q|
  {
    if q == [] {
      assert p + q == p;
    } else {
      var i := IndexOf(e.children, q[0]).value;
      var c := e.children[i];
      assert Get(e, q) == Get(c, q[1..]);
      WalkComplete(p + [c.name], c, q[1..]);
      assert p + [c.name] + q[1..] == p + q;
      WalkFromContains(p, e, 0, i);
    }
  }

  lemma WalkAtComplete(t: Entry, top: Path, q: Path)
    requires top <= q && IsDir(t, q)
    ensures StepOf(q, Get(t, q).value) in WalkAt(t, top)
  {
    GetPrefix(t, top, q);
    WalkComplete(top, Get(t, top).value, q[|top|..]);
    assert top + q[|top|..] == q;
  }

  // ---------------------------------------------------------------------
  // Every walked step is a directory of the tree

  /** A step of the walk: a directory at a path below p, with its listing. */
  predicate StepBelow(p: Path, e: Entry, s: WalkStep)
  {
    p <= s.path && IsDir(e, s.path[|p|..]) && s == StepOf(s.path, Get(e, s.path[|p|..]).value)
  }

  lemma {:induction false} WalkFromSound(p: Path, e: Entry, i: nat, s: WalkStep)
    requires WellFormed(e) && e.Dir? && i <= |e.children| && s in WalkFrom(p, e, i)
    ensures StepBelow(p, e, s)
    decreases e, 0, |e.children| - i
  {
    var c := e.children[i];
    if s in Walk(p + [c.name], c) {
      assert c in e.children;
      WalkSound(p + [c.name], c, s);
      IndexOfUnique(e.children, i);
      var rest := s.path[|p| + 1..];
      assert s.path[|p|..] == [c.name] + rest;
      assert Get(e, [c.name] + rest) == Get(c, rest);
    } else {
      WalkFromSound(p, e, i + 1, s);
    }
  }

  /** In a well-formed tree every step of the walk is the listing of a
      directory that a lookup of the step's path finds. */
  lemma {:induction false} WalkSound(p: Path, e: Entry, s: WalkStep)
    requires WellFormed(e) && s in Walk(p, e)
    ensures StepBelow(p, e, s)
    decreases e, 1, 0
  {
    if s != StepOf(p, e) {
      WalkFromSound(p, e, 0, s);
    } else {
      assert s.path[|p|..] == [];
    }
  }

  lemma WalkAtSound(t: Entry, top: Path, s: WalkStep)
    requires WellFormed(t) && s in WalkAt(t, top)
    ensures top <= s.path && IsDir(t, s.path) && s == StepOf(s.path, Get(t, s.path).value)
  {
    var d := Get(t, top).value;
    GetWellFormed(t, top);
    WalkSound(top, d, s);
    GetAppend(t, top, s.path[|top|..]);
    assert top + s.path[|top|..] == s.path;
  }

  /** A search over the walk finds something exactly when some directory
      below top satisfies the predicate. */
  lemma FindFirstDirFound(t: Entry, top: Path, pred: WalkStep -> bool)
    requires WellFormed(t)
    ensures FindFirstDir(t, top, pred).Some? <==>
      exists q :: top <= q && IsDir(t, q) && pred(StepOf(q, Get(t, q).value))
    ensures FindFirstDir(t, top, pred).Some? ==>
      var q := FindFirstDir(t, top, pred).value;
      top <= q && IsDir(t, q) && pred(StepOf(q, Get(t, q).value))
  {
    var w := WalkAt(t, top);
    match FirstMatch(w, pred)
    case Some(i) =>
      assert w[i] in w;
      WalkAtSound(t, top, w[i]);
    case None =>
      forall q | top <= q && IsDir(t, q) ensures !pred(StepOf(q, Get(t, q).value)) {
        WalkAtComplete(t, top, q);
      }
  }

  /** The first match is the only match when only one directory qualifies. */
  lemma FindFirstDirUnique(t: Entry, top: Path, pred: WalkStep -> bool, q: Path)
    requires WellFormed(t) && top <= q && IsDir(t, q) && pred(StepOf(q, Get(t, q).value))
    requires forall q' :: top <= q' && IsDir(t, q') && pred(StepOf(q', Get(t, q').value)) ==> q' == q
    ensures FindFirstDir(t, top, pred) == Some(q)
  {
    FindFirstDirFound(t, top, pred);
  }

  // ---------------------------------------------------------------------
  // find_blender_python, shared by the Linux and Windows build helpers

  /** The first walked directory whose file names include fileName exactly. */
  function FindDirContaining(t: Entry, top: Path, fileName: Name): (r: Result<Path>)
    ensures var w := WalkAt(t, top);
      r.Ok? <==> exists i :: 0 <= i < |w| && fileName in w[i].files
    ensures var w := WalkAt(t, top);
      r.Ok? ==> exists i :: 0 <= i < |w| && w[i].path == r.value && fileName in w[i].files
                  && forall j :: 0 <= j < i ==> fileName !in w[j].files
    ensures r.Err? ==> r.error == BlenderModuleNotFound(top)
  {
    match FindFirstDir(t, top, (s: WalkStep) => fileName in s.files)
    case None => Err(BlenderModuleNotFound(top))
    case Some(q) => Ok(q)
  }

  /** It finds a directory exactly when one below top holds a non-directory
      named fileName, and what it finds is such a directory. */
  lemma FindDirContainingSpec(t: Entry, top: Path, fileName: Name)
    requires WellFormed(t)
    ensures FindDirContaining(t, top, fileName).Ok? <==>
      exists q :: top <= q && IsDir(t, q) && Exists(t, q + [fileName]) && !IsDir(t, q + [fileName])
    ensures FindDirContaining(t, top, fileName).Ok? ==>
      var q := FindDirContaining(t, top, fileName).value;
      top <= q && Exists(t, q + [fileName]) && !IsDir(t, q + [fileName])
    ensures FindDirContaining(t, top, fileName).Ok? ==>
      var w := WalkAt(t, top);
      exists i :: 0 <= i < |w| && w[i].path == FindDirContaining(t, top, fileName).value
        && forall j :: 0 <= j < i ==> !(Exists(t, w[j].path + [fileName]) && !IsDir(t, w[j].path + [fileName]))
  {
    var pred := (s: WalkStep) => fileName in s.files;
    FindFirstDirFound(t, top, pred);
    forall q | IsDir(t, q)
      ensures pred(StepOf(q, Get(t, q).value)) <==> Exists(t, q + [fileName]) && !IsDir(t, q + [fileName])
    {
      HasFileChild(t, q, fileName);
    }
    var w := WalkAt(t, top);
    forall j | 0 <= j < |w|
      ensures fileName in w[j].files <==> Exists(t, w[j].path + [fileName]) && !IsDir(t, w[j].path + [fileName])
    {
      assert w[j] in w;
      WalkAtSound(t, top, w[j]);
    }
  }

  /** A directory lists a non-directory named n exactly when the path to n
      resolves to a non-directory. */
  lemma HasFileChild(t: Entry, q: Path, n: Name)
    requires WellFormed(t) && IsDir(t, q)
    ensures n in FileNames(Get(t, q).value.children) <==> Exists(t, q + [n]) && !IsDir(t, q + [n])
  {
    var d := Get(t, q).value;
    GetWellFormed(t, q);
    GetAppend(t, q, [n]);
    if n in FileNames(d.children) {
      var c :| c in d.children && !c.Dir? && c.name == n;
      var i :| 0 <= i < |d.children| && d.children[i] == c;
      IndexOfUnique(d.children, i);
    }
  }

  /** Likewise for a subdirectory named n. */
  lemma HasDirChild(t: Entry, q: Path, n: Name)
    requires WellFormed(t) && IsDir(t, q)
    ensures n in DirNames(Get(t, q).value.children) <==> IsDir(t, q + [n])
  {
    var d := Get(t, q).value;
    GetWellFormed(t, q);
    GetAppend(t, q, [n]);
    if n in DirNames(d.children) {
      var c :| c in d.children && c.Dir? && c.name == n;
      var i :| 0 <= i < |d.children| && d.children[i] == c;
      IndexOfUnique(d.children, i);
    }
  }
}

/** An abstract filesystem: a tree of named files, directories and special
    entries (sockets, devices, dangling links). A directory's listing is a
    sequence, which fixes the os.listdir and os.walk order. */
module FileTree {
  import opened Paths
  import opened Outcomes

  datatype Entry =
    | File(name: Name)
    | Dir(name: Name, children: seq<Entry>)
    | Special(name: Name)

  /** Index of the first child named n. */
  function IndexOf(cs: seq<Entry>, n: Name): (r: Option<nat>)
    ensures r.Some? ==> r.value < |cs| && cs[r.value].name == n
    ensures r.Some? ==> forall j :: 0 <= j < r.value ==> cs[j].name != n
    ensures r.None? ==> forall j :: 0 <= j < |cs| ==> cs[j].name != n
    decreases |cs|
  {
    if cs == [] then None
    else if cs[0].name == n then Some(0)
    else match IndexOf(cs[1..], n)
      case None => None
      case Some(k) => Some(k + 1)
  }

  /** The first child named n, if any. */
  function Find(cs: seq<Entry>, n: Name): Option<Entry>
  {
    match IndexOf(cs, n)
    case None => None
    case Some(i) => Some(cs[i])
  }

  function Child(e: Entry, n: Name): Option<Entry>
  {
    if e.Dir? then Find(e.children, n) else None
  }

  /** The entry at path p below e. */
  function Get(e: Entry, p: Path): Option<Entry>
    decreases |p|
  {
    if p == [] then Some(e)
    else match Child(e, p[0])
      case None => None
      case Some(c) => Get(c, p[1..])
  }

  predicate Exists(e: Entry, p: Path)
  {
    Get(e, p).Some?
  }

  predicate IsDir(e: Entry, p: Path)
  {
    Get(e, p).Some? && Get(e, p).value.Dir?
  }

  predicate IsFile(e: Entry, p: Path)
  {
    Get(e, p).Some? && Get(e, p).value.File?
  }

  /** os.listdir: the entries of the directory at p. */
  function ListDir(e: Entry, p: Path): Result<seq<Entry>>
  {
    match Get(e, p)
    case None => Err(FileNotFound(p))
    case Some(d) => if d.Dir? then Ok(d.children) else Err(NotADirectory(p))
  }

  function Names(cs: seq<Entry>): (r: seq<Name>)
    ensures |r| == |cs| && forall i :: 0 <= i < |cs| ==> r[i] == cs[i].name
  {
    seq(|cs|, i requires 0 <= i < |cs| => cs[i].name)
  }

  /** Renames an optional entry. */
  function Named(x: Option<Entry>, n: Name): Option<Entry>
  {
    match x
    case None => None
    case Some(v) => Some(v.(name := n))
  }

  /** The children not named n, in their order. */
  function Without(cs: seq<Entry>, n: Name): (r: seq<Entry>)
    ensures forall y :: y in r <==> y in cs && y.name != n
    decreases |cs|
  {
    if cs == [] then []
    else if cs[0].name == n then Without(cs[1..], n)
    else [cs[0]] + Without(cs[1..], n)
  }

  /** A listing with whatever was named n replaced by x (appended last), or
      removed when x is None. */
  function Place(cs: seq<Entry>, n: Name, x: Option<Entry>): seq<Entry>
  {
    Without(cs, n) + (match Named(x, n) case None => [] case Some(v) => [v])
  }

  /** The tree with the entry at p replaced by x, or removed when x is None.
      Nothing happens when the parent of p is not a directory. */
  function SetAt(e: Entry, p: Path, x: Option<Entry>): (r: Entry)
    requires p != []
    ensures r.name == e.name && r.Dir? == e.Dir?
    decreases |p|
  {
    match e
    case Dir(n, cs) =>
      if |p| == 1 then Dir(n, Place(cs, p[0], x))
      else (match IndexOf(cs, p[0])
        case None => e
        case Some(i) => Dir(n, cs[i := SetAt(cs[i], p[1..], x)]))
    case _ => e
  }

  predicate UniqueNames(cs: seq<Entry>)
  {
    forall i, j :: 0 <= i < j < |cs| ==> cs[i].name != cs[j].name
  }

  /** No directory holds two entries of the same name, as on a real filesystem. */
  predicate WellFormed(e: Entry)
  {
    match e
    case Dir(_, cs) => UniqueNames(cs) && forall c :: c in cs ==> WellFormed(c)
    case _ => true
  }

  // ---------------------------------------------------------------------
  // Lookup lemmas

  /** The first index of a name depends only on the names in the listing. */
  lemma {:induction false} IndexOfSameNames(cs: seq<Entry>, ds: seq<Entry>, n: Name)
    requires |cs| == |ds| && forall j :: 0 <= j < |cs| ==> cs[j].name == ds[j].name
    ensures IndexOf(cs, n) == IndexOf(ds, n)
    decreases |cs|
  {
    if cs != [] {
      IndexOfSameNames(cs[1..], ds[1..], n);
    }
  }

  /** In a listing with unique names, a child is found at its own index. */
  lemma {:induction false} IndexOfUnique(cs: seq<Entry>, i: nat)
    requires UniqueNames(cs) && i < |cs|
    ensures IndexOf(cs, cs[i].name) == Some(i)
    decreases i
  {
    if i > 0 {
      var rest := cs[1..];
      assert UniqueNames(rest) by {
        forall a, b | 0 <= a < b < |rest| ensures rest[a].name != rest[b].name {
          assert rest[a] == cs[a + 1] && rest[b] == cs[b + 1];
        }
      }
      assert rest[i - 1] == cs[i];
      IndexOfUnique(rest, i - 1);
    }
  }

  /** Appending entries with other names does not change what is found. */
  lemma {:induction false} FindAppendAbsent(a: seq<Entry>, b: seq<Entry>, n: Name)
    requires forall y :: y in b ==> y.name != n
    ensures Find(a + b, n) == Find(a, n)
    decreases |a|
  {
    if a == [] {
      assert a + b == b;
    } else {
      assert (a + b)[0] == a[0] && (a + b)[1..] == a[1..] + b;
      FindCons(a + b, n);
      FindCons(a, n);
      FindAppendAbsent(a[1..], b, n);
    }
  }

  /** Removing the entries named n does not change the lookup of another name. */
  lemma {:induction false} FindWithout(cs: seq<Entry>, n: Name, m: Name)
    requires n != m
    ensures Find(Without(cs, n), m) == Find(cs, m)
    decreases |cs|
  {
    if cs != [] {
      FindWithout(cs[1..], n, m);
      FindCons(cs, m);
      if cs[0].name != n {
        FindCons([cs[0]] + Without(cs[1..], n), m);
        assert ([cs[0]] + Without(cs[1..], n))[1..] == Without(cs[1..], n);
      }
    }
  }

  /** Find unfolded by one element. */
  lemma FindCons(cs: seq<Entry>, m: Name)
    requires cs != []
    ensures Find(cs, m) == if cs[0].name == m then Some(cs[0]) else Find(cs[1..], m)
  {
  }

  /** The child placed under name n is what a lookup of n finds. */
  lemma FindPlaceSame(cs: seq<Entry>, n: Name, x: Option<Entry>)
    ensures Find(Place(cs, n, x), n) == Named(x, n)
  {
    var w := Without(cs, n);
    var r := IndexOf(Place(cs, n, x), n);
    if x.Some? {
      assert Place(cs, n, x)[|w|].name == n;
      forall k | 0 <= k < |w| ensures Place(cs, n, x)[k].name != n {
        assert Place(cs, n, x)[k] == w[k] && w[k] in w;
      }
    } else {
      assert Place(cs, n, x) == w;
    }
  }

  /** Placing under name n leaves the lookup of any other name alone. */
  lemma FindPlaceOther(cs: seq<Entry>, n: Name, m: Name, x: Option<Entry>)
    requires n != m
    ensures Find(Place(cs, n, x), m) == Find(cs, m)
  {
    var tail := match Named(x, n) case None => [] case Some(v) => [v];
    FindAppendAbsent(Without(cs, n), tail, m);
    FindWithout(cs, n, m);
  }

  /** Replacing a child by one of the same name only affects that name. */
  lemma FindUpdate(cs: seq<Entry>, i: nat, y: Entry, m: Name)
    requires i < |cs| && y.name == cs[i].name
    requires IndexOf(cs, cs[i].name) == Some(i)
    ensures Find(cs[i := y], m) == if m == cs[i].name then Some(y) else Find(cs, m)
  {
    IndexOfSameNames(cs, cs[i := y], m);
  }

  /** Looking up p + q is looking up q below whatever p leads to. */
  lemma {:induction false} GetAppend(e: Entry, p: Path, q: Path)
    ensures Get(e, p + q) == match Get(e, p) case None => None case Some(d) => Get(d, q)
    decreases |p|
  {
    if p == [] {
      assert p + q == q;
    } else {
      assert (p + q)[0] == p[0] && (p + q)[1..] == p[1..] + q;
      match Child(e, p[0])
      case None =>
      case Some(c) => GetAppend(c, p[1..], q);
    }
  }

  /** Every prefix of an existing path exists. */
  lemma GetPrefix(e: Entry, p: Path, q: Path)
    requires p <= q && Get(e, q).Some?
    ensures Get(e, p).Some? && Get(Get(e, p).value, q[|p|..]) == Get(e, q)
  {
    assert p + q[|p|..] == q;
    GetAppend(e, p, q[|p|..]);
  }

  /** The parent of an existing non-root path is a directory. */
  lemma ParentIsDir(e: Entry, p: Path)
    requires p != [] && Get(e, p).Some?
    ensures IsDir(e, Parent(p))
  {
    GetPrefix(e, Parent(p), p);
    assert p[|Parent(p)|..] == [Basename(p)];
  }

  /** An entry found at a non-root path carries that path's last component. */
  lemma {:induction false} GetName(e: Entry, p: Path)
    requires p != [] && Get(e, p).Some?
    ensures Get(e, p).value.name == Basename(p)
    decreases |p|
  {
    var c := Child(e, p[0]).value;
    if |p| > 1 {
      GetName(c, p[1..]);
    }
  }

  // ---------------------------------------------------------------------
  // Update lemmas

  /** After placing x at p (below an existing directory), p holds x. */
  lemma {:induction false} GetSetSame(e: Entry, p: Path, x: Option<Entry>)
    requires p != [] && IsDir(e, Parent(p))
    ensures Get(SetAt(e, p, x), p) == Named(x, Basename(p))
    decreases |p|
  {
    if |p| == 1 {
      FindPlaceSame(e.children, p[0], x);
    } else {
      var i := IndexOf(e.children, p[0]).value;
      var c := e.children[i];
      assert Get(e, Parent(p)) == Get(c, Parent(p)[1..]);
      assert Parent(p)[1..] == Parent(p[1..]);
      GetSetSame(c, p[1..], x);
      FindUpdate(e.children, i, SetAt(c, p[1..], x), p[0]);
    }
  }

  /** Placing at p does not change any path that is neither above nor below p. */
  lemma {:induction false} GetSetDisjoint(e: Entry, p: Path, q: Path, x: Option<Entry>)
    requires p != [] && !(p <= q) && !(q <= p)
    ensures Get(SetAt(e, p, x), q) == Get(e, q)
    decreases |p|
  {
    if e.Dir? {
      var cs := e.children;
      if |p| == 1 {
        FindPlaceOther(cs, p[0], q[0], x);
      } else if IndexOf(cs, p[0]).Some? {
        var i := IndexOf(cs, p[0]).value;
        FindUpdate(cs, i, SetAt(cs[i], p[1..], x), q[0]);
        if q[0] == p[0] {
          assert |q| > 1;
          assert p == [p[0]] + p[1..] && q == [q[0]] + q[1..];
          GetSetDisjoint(cs[i], p[1..], q[1..], x);
        }
      }
    }
  }

  /** Placing at p changes an ancestor q of p only by that placement. */
  lemma {:induction false} GetSetAncestor(e: Entry, p: Path, q: Path, x: Option<Entry>)
    requires q <= p && |q| < |p|
    ensures Get(SetAt(e, p, x), q) ==
            match Get(e, q) case None => None case Some(d) => Some(SetAt(d, p[|q|..], x))
    decreases |q|
  {
    if q == [] {
      assert p[0..] == p;
    } else if e.Dir? {
      var cs := e.children;
      assert q[0] == p[0];
      if IndexOf(cs, p[0]).Some? {
        var i := IndexOf(cs, p[0]).value;
        FindUpdate(cs, i, SetAt(cs[i], p[1..], x), q[0]);
        assert q[1..] <= p[1..];
        assert p[1..][|q[1..]|..] == p[|q|..];
        GetSetAncestor(cs[i], p[1..], q[1..], x);
      }
    }
  }

  /** Directories outside the subtree at p stay directories. */
  lemma SetAtKeepsDirs(e: Entry, p: Path, q: Path, x: Option<Entry>)
    requires p != [] && !(p <= q) && IsDir(e, q)
    ensures IsDir(SetAt(e, p, x), q)
  {
    if q <= p {
      GetSetAncestor(e, p, q, x);
    } else {
      GetSetDisjoint(e, p, q, x);
    }
  }

  /** Placing twice at the same path keeps only the second placement. */
  lemma {:induction false} SetAtTwice(e: Entry, p: Path, x: Option<Entry>, y: Option<Entry>)
    requires p != []
    ensures SetAt(SetAt(e, p, x), p, y) == SetAt(e, p, y)
    decreases |p|
  {
    if e.Dir? {
      var cs := e.children;
      if |p| == 1 {
        WithoutPlace(cs, p[0], x);
      } else if IndexOf(cs, p[0]).Some? {
        var i := IndexOf(cs, p[0]).value;
        var c' := SetAt(cs[i], p[1..], x);
        IndexOfSameNames(cs, cs[i := c'], p[0]);
        SetAtTwice(cs[i], p[1..], x, y);
        assert cs[i := c'][i := SetAt(c', p[1..], y)] == cs[i := SetAt(cs[i], p[1..], y)];
      }
    }
  }

  lemma {:induction false} WithoutAppend(a: seq<Entry>, b: seq<Entry>, n: Name)
    ensures Without(a + b, n) == Without(a, n) + Without(b, n)
    decreases |a|
  {
    if a == [] {
      assert a + b == b;
    } else {
      assert (a + b)[0] == a[0] && (a + b)[1..] == a[1..] + b;
      WithoutAppend(a[1..], b, n);
    }
  }

  lemma {:induction false} WithoutAbsent(cs: seq<Entry>, n: Name)
    requires forall y :: y in cs ==> y.name != n
    ensures Without(cs, n) == cs
    decreases |cs|
  {
    if cs != [] {
      WithoutAbsent(cs[1..], n);
      assert [cs[0]] + cs[1..] == cs;
    }
  }

  lemma WithoutPlace(cs: seq<Entry>, n: Name, x: Option<Entry>)
    ensures Without(Place(cs, n, x), n) == Without(cs, n)
  {
    var tail := match Named(x, n) case None => [] case Some(v) => [v];
    WithoutAppend(Without(cs, n), tail, n);
    WithoutAbsent(Without(cs, n), n);
    assert Without(tail, n) == [];
  }

  // ---------------------------------------------------------------------
  // Well-formedness

  lemma {:induction false} WithoutUnique(cs: seq<Entry>, n: Name)
    requires UniqueNames(cs)
    ensures UniqueNames(Without(cs, n))
    decreases |cs|
  {
    if cs != [] {
      var rest := cs[1..];
      assert UniqueNames(rest) by {
        forall i, j | 0 <= i < j < |rest| ensures rest[i].name != rest[j].name {
          assert rest[i] == cs[i + 1] && rest[j] == cs[j + 1];
        }
      }
      WithoutUnique(rest, n);
      if cs[0].name != n {
        var w := Without(rest, n);
        forall y | y in w ensures y.name != cs[0].name {
          assert y in rest;
          var k :| 0 <= k < |rest| && rest[k] == y;
          assert cs[k + 1] == y;
        }
        var r := [cs[0]] + w;
        forall i, j | 0 <= i < j < |r| ensures r[i].name != r[j].name {
          if i > 0 {
            assert r[i] == w[i - 1] && r[j] == w[j - 1];
          } else {
            assert r[j] in w;
          }
        }
      }
    }
  }

  lemma PlaceWellFormed(cs: seq<Entry>, n: Name, x: Option<Entry>)
    requires UniqueNames(cs) && forall c :: c in cs ==> WellFormed(c)
    requires x.Some? ==> WellFormed(x.value)
    ensures UniqueNames(Place(cs, n, x)) && forall c :: c in Place(cs, n, x) ==> WellFormed(c)
  {
    WithoutUnique(cs, n);
    var w := Without(cs, n);
    var r := Place(cs, n, x);
    if x.Some? {
      var v := x.value.(name := n);
      assert r == w + [v];
      assert WellFormed(v) by {
        match x.value
        case File(_) =>
        case Special(_) =>
        case Dir(_, ds) =>
      }
      forall i, j | 0 <= i < j < |r| ensures r[i].name != r[j].name {
        if j < |w| {
          assert r[i] == w[i] && r[j] == w[j];
        } else {
          assert r[i] in w;
        }
      }
    } else {
      assert r == w;
    }
  }

  /** Placing a well-formed entry keeps the tree well formed. */
  lemma {:induction false} SetAtWellFormed(e: Entry, p: Path, x: Option<Entry>)
    requires p != [] && WellFormed(e)
    requires x.Some? ==> WellFormed(x.value)
    ensures WellFormed(SetAt(e, p, x))
    decreases |p|
  {
    if e.Dir? {
      var cs := e.children;
      if |p| == 1 {
        PlaceWellFormed(cs, p[0], x);
      } else if IndexOf(cs, p[0]).Some? {
        var i := IndexOf(cs, p[0]).value;
        var c' := SetAt(cs[i], p[1..], x);
        assert cs[i] in cs;
        SetAtWellFormed(cs[i], p[1..], x);
        var ds := cs[i := c'];
        forall c | c in ds ensures WellFormed(c) {
          var k :| 0 <= k < |ds| && ds[k] == c;
          if k != i { assert ds[k] == cs[k] && cs[k] in cs; }
        }
        assert UniqueNames(ds) by {
          forall a, b | 0 <= a < b < |ds| ensures ds[a].name != ds[b].name {
            assert ds[a].name == cs[a].name && ds[b].name == cs[b].name;
          }
        }
      }
    }
  }

  /** Every entry of a well-formed tree is well formed. */
  lemma {:induction false} GetWellFormed(e: Entry, p: Path)
    requires WellFormed(e) && Get(e, p).Some?
    ensures WellFormed(Get(e, p).value)
    decreases |p|
  {
    if p != [] {
      var c := Child(e, p[0]).value;
      assert c in e.children;
      GetWellFormed(c, p[1..]);
    }
  }
}

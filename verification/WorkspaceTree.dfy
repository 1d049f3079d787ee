/**
  The file tree behind pkg/workspace/local.go. A path is its list of components, the root being
  the empty list; directories are kept explicitly, so that empty ones count.
 */
module WorkspaceTree {
  import opened Common

  type Path = seq<string>

  datatype Tree = Tree(files: map<Path, Bytes>, dirs: set<Path>)

  const BARE := Tree(map[], {[]})

  function Parent(p: Path): Path
    requires p != []
  {
    p[..|p| - 1]
  }

  /** A path and everything above it. */
  function Above(p: Path): set<Path> { set i | 0 <= i <= |p| :: p[..i] }

  ghost predicate WellFormed(t: Tree) {
    && [] in t.dirs
    && (forall p :: p in t.dirs ==> Above(p) <= t.dirs && p !in t.files)
    && (forall p :: p in t.files ==> p != [] && Above(Parent(p)) <= t.dirs)
  }

  function FileAt(t: Tree, p: Path): Option<Bytes> { if p in t.files then Some(t.files[p]) else None }

  // ---------------------------------------------------------------- sizes

  ghost function Total(files: map<Path, Bytes>): nat {
    if files == map[] then 0 else var p :| p in files; |files[p]| + Total(files - {p})
  }

  lemma {:induction false} TotalWithout(files: map<Path, Bytes>, p: Path)
    requires p in files
    ensures Total(files) == |files[p]| + Total(files - {p})
    decreases |files|
  {
    var q :| q in files && Total(files) == |files[q]| + Total(files - {q});
    if q != p {
      TotalWithout(files - {q}, p);
      TotalWithout(files - {p}, q);
      assert files - {q} - {p} == files - {p} - {q};
    }
  }

  lemma TotalPut(files: map<Path, Bytes>, p: Path, c: Bytes)
    ensures Total(files[p := c]) == |c| + Total(files - {p})
  {
    hide Total;
    TotalWithout(files[p := c], p);
    assert files[p := c] - {p} == files - {p};
  }

  lemma CountPut(files: map<Path, Bytes>, p: Path, c: Bytes)
    ensures |files[p := c]| == if p in files then |files| else |files| + 1
  {
    assert files[p := c].Keys == files.Keys + {p};
  }

  lemma TotalOfNone(b: map<Path, Bytes>)
    ensures Total(map[]) == 0 <= Total(b)
  {
  }

  lemma SizeWithout(files: map<Path, Bytes>, p: Path)
    requires p in files
    ensures |files| == |files - {p}| + 1
  {
    assert files.Keys == (files - {p}).Keys + {p};
  }

  lemma {:induction false} TotalMonotone(a: map<Path, Bytes>, b: map<Path, Bytes>)
    requires forall p :: p in a ==> p in b && b[p] == a[p]
    ensures Total(a) <= Total(b) && |a| <= |b|
    decreases |a|
  {
    hide Total;
    if a == map[] {
      TotalOfNone(b);
    } else {
      var p :| p in a;
      TotalWithout(a, p);
      TotalWithout(b, p);
      SizeWithout(a, p);
      SizeWithout(b, p);
      TotalMonotone(a - {p}, b - {p});
    }
  }

  // ---------------------------------------------------------------- changes

  /** os.MkdirAll: fails iff a file is in the way. */
  function MkdirAll(t: Tree, p: Path): Option<Tree> {
    if exists q :: q in Above(p) && q in t.files then None else Some(t.(dirs := t.dirs + Above(p)))
  }

  /** Make the parent directories and write the file: fails on a directory, or below a file. */
  function PutFile(t: Tree, p: Path, c: Bytes): Option<Tree> {
    if p == [] || p in t.dirs then None
    else
      match MkdirAll(t, Parent(p))
      case None => None
      case Some(u) => Some(u.(files := u.files[p := c]))
  }

  /** The path itself or anything below it. */
  predicate Under(p: Path, q: Path) { p <= q }

  /** os.RemoveAll of a directory. */
  function RemoveAll(t: Tree, p: Path): Tree {
    Tree(map q | q in t.files && !Under(p, q) :: t.files[q], set q | q in t.dirs && !Under(p, q))
  }

  lemma AboveParent(p: Path, q: Path)
    requires q in Above(p)
    ensures Above(q) <= Above(p)
  {
    forall r | r in Above(q) ensures r in Above(p) {
      var i :| 0 <= i <= |q| && r == q[..i];
      assert r == p[..i];
    }
  }

  lemma AboveIs(p: Path, q: Path)
    ensures q in Above(p) <==> q <= p
  {
    if q <= p {
      assert p[..|q|] == q;
    }
  }

  lemma AboveHas(p: Path)
    ensures [] in Above(p) && p in Above(p)
  {
    assert p[..0] == [] && p[..|p|] == p;
  }

  lemma BareOk()
    ensures WellFormed(BARE)
  {
    var root: Path := [];
    AboveHas(root);
    forall q | q in Above(root) ensures q == root {
      var i :| 0 <= i <= |root| && q == root[..i];
    }
  }

  lemma MkdirAllOk(t: Tree, p: Path)
    requires WellFormed(t) && MkdirAll(t, p).Some?
    ensures WellFormed(MkdirAll(t, p).value) && p in MkdirAll(t, p).value.dirs
  {
    AboveHas(p);
    var u := MkdirAll(t, p).value;
    forall q | q in u.dirs ensures Above(q) <= u.dirs && q !in u.files {
      if q in Above(p) {
        AboveParent(p, q);
      }
    }
  }

  lemma PutFileOk(t: Tree, p: Path, c: Bytes)
    requires WellFormed(t) && PutFile(t, p, c).Some?
    ensures WellFormed(PutFile(t, p, c).value) && PutFile(t, p, c).value.files == t.files[p := c]
  {
    MkdirAllOk(t, Parent(p));
    var u := PutFile(t, p, c).value;
    forall q | q in Above(Parent(p)) ensures |q| < |p| {
    }
  }

  lemma UnderAbove(p: Path, q: Path, r: Path)
    requires r in Above(q) && Under(p, r)
    ensures Under(p, q)
  {
    var i :| 0 <= i <= |q| && r == q[..i];
    assert p == r[..|p|] == q[..|p|];
  }

  lemma RemoveAllOk(t: Tree, p: Path)
    requires WellFormed(t) && p != []
    ensures WellFormed(RemoveAll(t, p))
  {
    var u := RemoveAll(t, p);
    forall q | q in u.dirs ensures Above(q) <= u.dirs && q !in u.files {
      forall r | r in Above(q) ensures r in u.dirs {
        if Under(p, r) {
          UnderAbove(p, q, r);
        }
      }
    }
    forall q | q in u.files ensures q != [] && Above(Parent(q)) <= u.dirs {
      forall r | r in Above(Parent(q)) ensures r in u.dirs {
        AboveHas(q);
        assert Parent(q) in Above(q);
        AboveParent(q, Parent(q));
        if Under(p, r) {
          UnderAbove(p, q, r);
        }
      }
    }
  }

  lemma RemoveFileOk(t: Tree, p: Path)
    requires WellFormed(t) && p in t.files
    ensures WellFormed(t.(files := t.files - {p}))
    ensures Total(t.files - {p}) == Total(t.files) - |t.files[p]| && |t.files - {p}| == |t.files| - 1
  {
    TotalWithout(t.files, p);
    assert t.files.Keys == (t.files - {p}).Keys + {p};
  }

  lemma RemoveAllShrinks(t: Tree, p: Path)
    ensures Total(RemoveAll(t, p).files) <= Total(t.files) && |RemoveAll(t, p).files| <= |t.files|
  {
    TotalMonotone(RemoveAll(t, p).files, t.files);
  }

  /** A directory can be made exactly where neither it nor anything above it is a file. */
  lemma MkdirAllIs(t: Tree, p: Path)
    ensures var made := MkdirAll(t, p);
      && (made.Some? <==> forall q :: q in t.files ==> !(q <= p))
      && (made.Some? ==> made.value.files == t.files && forall q :: q in made.value.dirs <==> q in t.dirs || q <= p)
  {
    forall q: Path ensures q in Above(p) <==> q <= p {
      AboveIs(p, q);
    }
  }

  /** The parents of a path are its proper prefixes; the file can be put exactly where none of them is a file. */
  lemma PutFileIs(t: Tree, p: Path, c: Bytes)
    ensures var put := PutFile(t, p, c);
      && (put.Some? <==> p != [] && p !in t.dirs && forall q :: q in t.files ==> !(q < p))
      && (put.Some? ==> put.value.files == t.files[p := c] && forall q :: q in put.value.dirs <==> q in t.dirs || q < p)
  {
    if p != [] {
      forall q: Path ensures q in Above(Parent(p)) <==> q < p {
        AboveIs(Parent(p), q);
        AbovePrefix(p, q);
      }
    }
  }

  lemma AbovePrefix(p: Path, q: Path)
    requires p != []
    ensures q <= Parent(p) <==> q < p
  {
    if q < p {
      assert Parent(p)[..|q|] == p[..|q|];
    }
  }

  /** Nothing lies below a file. */
  lemma FileIsLeaf(t: Tree, p: Path, q: Path)
    requires WellFormed(t) && p in t.files && p < q
    ensures q !in t.files && q !in t.dirs
  {
    AboveIs(q, p);
    AbovePrefix(q, p);
    AboveIs(Parent(q), p);
  }
}

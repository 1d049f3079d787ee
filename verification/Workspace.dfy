/**
  The quota-tracked workspace of pkg/workspace/local.go: writes, deletes, snapshots, and the staged
  restore that extracts into a temporary root before it replaces the old one.
 */
module Workspace {
  import opened Common
  import opened Listing
  import opened WorkspaceTree

  datatype Limits = Limits(maxBytes: int, maxFiles: int, maxArchive: int)

  datatype Outcome = Fine | QuotaBytes | QuotaFiles | Refused

  /** A tar entry; links and special files are skipped. */
  datatype Entry = DirEntry(path: Path) | FileEntry(path: Path, size: int, content: Bytes) | OtherEntry

  /** A tar.gz stream: its entries, whether it can be read to the end, and its compressed size. */
  datatype Archive = Archive(entries: seq<Entry>, readable: bool, size: nat)

  // ---------------------------------------------------------------- extraction

  datatype Extraction = Extraction(tree: Tree, total: int, count: int, ok: bool)

  function ExtractOne(x: Extraction, lim: Limits, e: Entry): Extraction {
    match e
    case OtherEntry => x
    case DirEntry(p) =>
      (match MkdirAll(x.tree, p)
       case None => x.(ok := false)
       case Some(t) => x.(tree := t))
    case FileEntry(p, size, content) =>
      if size < 0 || x.count + 1 > lim.maxFiles || size > lim.maxBytes - x.total || |content| != size then x.(ok := false)
      else
        match PutFile(x.tree, p, content)
        case None => x.(ok := false)
        case Some(t) => Extraction(t, x.total + size, x.count + 1, true)
  }

  /** Extraction stops at the first entry that fails. */
  function Extract(lim: Limits, entries: seq<Entry>): Extraction
    decreases |entries|
  {
    if entries == [] then Extraction(BARE, 0, 0, true)
    else
      var x := Extract(lim, entries[..|entries| - 1]);
      if x.ok then ExtractOne(x, lim, entries[|entries| - 1]) else x
  }

  /** The tree is sound, its files are covered by the counters, and the counters by the limits. */
  ghost predicate Bounded(x: Extraction, lim: Limits) {
    && WellFormed(x.tree) && Total(x.tree.files) <= x.total && |x.tree.files| <= x.count
    && (x.count >= 1 ==> x.total <= lim.maxBytes && x.count <= lim.maxFiles)
  }

  /**
    What extracting one entry does: a link is skipped; a directory needs no file in its way; a file needs
    its whole content, a free place and room in both quotas. An entry that fails leaves the tree as it was.
   */
  ghost predicate ExtractedAs(x: Extraction, y: Extraction, lim: Limits, e: Entry) {
    && (y.ok <==>
         match e
         case OtherEntry => true
         case DirEntry(p) => forall q :: q in x.tree.files ==> !(q <= p)
         case FileEntry(p, size, content) =>
           && |content| == size && x.count < lim.maxFiles && x.total + size <= lim.maxBytes
           && p != [] && p !in x.tree.dirs && forall q :: q in x.tree.files ==> !(q < p))
    && (!y.ok || e.OtherEntry? ==> y == x.(ok := y.ok))
    && (y.ok && e.DirEntry? ==>
         && y.tree.files == x.tree.files && (forall q :: q in y.tree.dirs <==> q in x.tree.dirs || q <= e.path)
         && y.total == x.total && y.count == x.count)
    && (y.ok && e.FileEntry? ==>
         && y.tree.files == x.tree.files[e.path := e.content]
         && (forall q :: q in y.tree.dirs <==> q in x.tree.dirs || q < e.path)
         && y.total == x.total + e.size && y.count == x.count + 1)
  }

  lemma ExtractOneIs(x: Extraction, lim: Limits, e: Entry)
    requires x.ok
    ensures ExtractedAs(x, ExtractOne(x, lim, e), lim, e)
  {
    hide MkdirAll, PutFile;
    match e
    case OtherEntry =>
    case DirEntry(p) => MkdirAllIs(x.tree, p);
    case FileEntry(p, size, content) => PutFileIs(x.tree, p, content);
  }

  /** The content of the last entry for this file. */
  function LastFile(entries: seq<Entry>, p: Path): Option<Bytes>
    decreases |entries|
  {
    if entries == [] then None
    else
      var last := entries[|entries| - 1];
      if last.FileEntry? && last.path == p then Some(last.content) else LastFile(entries[..|entries| - 1], p)
  }

  /** A successful extraction leaves in every file the content of its last entry, and no other files. */
  lemma {:induction false} ExtractedFiles(lim: Limits, entries: seq<Entry>, p: Path)
    requires Extract(lim, entries).ok
    ensures FileAt(Extract(lim, entries).tree, p) == LastFile(entries, p)
    decreases |entries|
  {
    hide ExtractOne;
    if entries != [] {
      var most, e := entries[..|entries| - 1], entries[|entries| - 1];
      ExtractedFiles(lim, most, p);
      ExtractOneIs(Extract(lim, most), lim, e);
    }
  }

  lemma ExtractOneBounded(x: Extraction, lim: Limits, e: Entry)
    requires Bounded(x, lim) && x.ok
    ensures Bounded(ExtractOne(x, lim, e), lim)
  {
    hide Total, WellFormed, PutFile, MkdirAll;
    match e
    case OtherEntry =>
    case DirEntry(p) =>
      if MkdirAll(x.tree, p).Some? {
        MkdirAllOk(x.tree, p);
        SameFiles(x.tree, p);
      }
    case FileEntry(p, size, c) =>
      if PutFile(x.tree, p, c).Some? {
        PutFileOk(x.tree, p, c);
        TotalPut(x.tree.files, p, c);
        CountPut(x.tree.files, p, c);
        TotalMonotone(x.tree.files - {p}, x.tree.files);
      }
  }

  lemma SameFiles(t: Tree, p: Path)
    ensures MkdirAll(t, p).Some? ==> MkdirAll(t, p).value.files == t.files && MkdirAll(t, p).value.dirs == t.dirs + Above(p)
  {
  }

  lemma {:induction false} ExtractBounded(lim: Limits, entries: seq<Entry>)
    ensures Bounded(Extract(lim, entries), lim)
    decreases |entries|
  {
    hide ExtractOne, PutFile, MkdirAll;
    if entries != [] {
      var x := Extract(lim, entries[..|entries| - 1]);
      ExtractBounded(lim, entries[..|entries| - 1]);
      if x.ok {
        hide Bounded;
        ExtractOneBounded(x, lim, entries[|entries| - 1]);
      }
    }
  }

  /** The extraction loop. */
  method ExtractTarGz(lim: Limits, entries: seq<Entry>) returns (x: Extraction)
    ensures x == Extract(lim, entries)
  {
    x := Extraction(BARE, 0, 0, true);
    var i := 0;
    while i < |entries| && x.ok
      invariant 0 <= i <= |entries| && x == Extract(lim, entries[..i])
    {
      assert entries[..i + 1][..i] == entries[..i];
      x := ExtractOne(x, lim, entries[i]);
      i := i + 1;
    }
    StopsAtFailure(lim, entries, i);
  }

  lemma {:induction false} StopsAtFailure(lim: Limits, entries: seq<Entry>, i: nat)
    requires i <= |entries| && (i < |entries| ==> !Extract(lim, entries[..i]).ok)
    ensures Extract(lim, entries) == Extract(lim, entries[..i])
    decreases |entries|
  {
    if i < |entries| {
      var most := entries[..|entries| - 1];
      assert most[..i] == entries[..i];
      StopsAtFailure(lim, most, i);
    } else {
      assert entries[..i] == entries;
    }
  }

  // ---------------------------------------------------------------- snapshot and back

  /** Every directory but the root and every file of the tree is listed once, in any order, and nothing else. */
  ghost predicate SnapshotOf(t: Tree, entries: seq<Entry>) {
    && (forall i :: 0 <= i < |entries| ==> Listed(t, entries[i]))
    && (forall i, j :: 0 <= i < j < |entries| ==> entries[i] != entries[j])
    && (forall p :: p in t.dirs && p != [] ==> DirEntry(p) in entries)
    && (forall p :: p in t.files ==> FileEntry(p, |t.files[p]|, t.files[p]) in entries)
  }

  ghost predicate Listed(t: Tree, e: Entry) {
    match e
    case DirEntry(p) => p in t.dirs && p != []
    case FileEntry(p, size, c) => p in t.files && c == t.files[p] && size == |c|
    case OtherEntry => false
  }

  /** The extraction so far is part of the tree, has every listed entry, and its counters are exact. */
  ghost predicate Part(t: Tree, entries: seq<Entry>, x: Extraction) {
    && x.ok && WellFormed(x.tree) && x.tree.dirs <= t.dirs
    && x.total == Total(x.tree.files) && x.count == |x.tree.files|
    && (forall p :: p in x.tree.files ==> p in t.files && x.tree.files[p] == t.files[p])
    && (forall p :: p in x.tree.files ==> FileEntry(p, |t.files[p]|, t.files[p]) in entries)
    && (forall e :: e in entries ==> (e.DirEntry? ==> e.path in x.tree.dirs) && (e.FileEntry? ==> e.path in x.tree.files))
  }

  ghost predicate Fits(t: Tree, lim: Limits) {
    |t.files| >= 1 ==> Total(t.files) <= lim.maxBytes && |t.files| <= lim.maxFiles
  }

  lemma MkdirInside(t: Tree, u: Tree, p: Path)
    requires WellFormed(t) && WellFormed(u) && u.dirs <= t.dirs && (forall q :: q in u.files ==> q in t.files) && p in t.dirs
    ensures MkdirAll(u, p).Some? && WellFormed(MkdirAll(u, p).value) && p in MkdirAll(u, p).value.dirs
    ensures MkdirAll(u, p).value.files == u.files && MkdirAll(u, p).value.dirs <= t.dirs
    ensures u.dirs <= MkdirAll(u, p).value.dirs
  {
    assert Above(p) <= t.dirs;
    MkdirAllOk(u, p);
  }

  lemma ExtractDir(t: Tree, most: seq<Entry>, x: Extraction, lim: Limits, p: Path)
    requires WellFormed(t) && Part(t, most, x) && p in t.dirs
    ensures Part(t, most + [DirEntry(p)], ExtractOne(x, lim, DirEntry(p)))
  {
    MkdirInside(t, x.tree, p);
    hide MkdirAll, Total, WellFormed;
  }

  /** What extracting one more file of the tree does. */
  lemma FileExtracted(t: Tree, x: Extraction, lim: Limits, p: Path)
    requires WellFormed(t) && WellFormed(x.tree) && x.tree.dirs <= t.dirs && Fits(t, lim) && p in t.files
    requires p !in x.tree.files
    requires forall q :: q in x.tree.files ==> q in t.files && x.tree.files[q] == t.files[q]
    requires x.total == Total(x.tree.files) && x.count == |x.tree.files|
    ensures var y := ExtractOne(x, lim, FileEntry(p, |t.files[p]|, t.files[p]));
      && y.ok && WellFormed(y.tree) && x.tree.dirs <= y.tree.dirs <= t.dirs && y.tree.files == x.tree.files[p := t.files[p]]
      && y.total == Total(y.tree.files) && y.count == |y.tree.files|
  {
    hide Total, WellFormed, MkdirAll;
    var c := t.files[p];
    ParentInside(t, p);
    MkdirInside(t, x.tree, Parent(p));
    FileFits(t, x.tree.files, p);
    PutInside(x.tree, p, c);
    PutFileOk(x.tree, p, c);
    TotalPut(x.tree.files, p, c);
    CountPut(x.tree.files, p, c);
    assert x.tree.files - {p} == x.tree.files;
  }

  lemma ExtractFile(t: Tree, most: seq<Entry>, x: Extraction, lim: Limits, p: Path)
    requires WellFormed(t) && Part(t, most, x) && Fits(t, lim) && p in t.files
    requires FileEntry(p, |t.files[p]|, t.files[p]) !in most
    ensures var e := FileEntry(p, |t.files[p]|, t.files[p]); Part(t, most + [e], ExtractOne(x, lim, e))
  {
    hide Total, WellFormed, Fits, ExtractOne;
    FileExtracted(t, x, lim, p);
    var e := FileEntry(p, |t.files[p]|, t.files[p]);
    var y := ExtractOne(x, lim, e);
    assert forall f :: f in most + [e] <==> f in most || f == e;
    assert forall q :: q in y.tree.files <==> q in x.tree.files || q == p;
  }

  lemma ParentInside(t: Tree, p: Path)
    requires WellFormed(t) && p in t.files
    ensures p != [] && Parent(p) in t.dirs && p !in t.dirs
  {
    AboveHas(Parent(p));
  }

  lemma PutInside(t: Tree, p: Path, c: Bytes)
    requires p != [] && p !in t.dirs && MkdirAll(t, Parent(p)).Some?
    ensures PutFile(t, p, c).Some? && PutFile(t, p, c).value.dirs == MkdirAll(t, Parent(p)).value.dirs
  {
  }

  lemma FileFits(t: Tree, files: map<Path, Bytes>, p: Path)
    requires p in t.files && p !in files && forall q :: q in files ==> q in t.files && files[q] == t.files[q]
    ensures Total(files) + |t.files[p]| <= Total(t.files) && |files| + 1 <= |t.files|
  {
    hide Total;
    TotalWithout(t.files, p);
    TotalMonotone(files, t.files - {p});
    assert t.files.Keys == (t.files - {p}).Keys + {p};
  }

  lemma NothingExtracted(t: Tree)
    requires WellFormed(t)
    ensures Part(t, [], Extraction(BARE, 0, 0, true))
  {
    BareOk();
  }

  lemma NextEntry(t: Tree, entries: seq<Entry>, n: nat)
    requires SnapshotOf(t, entries) && n < |entries|
    ensures Listed(t, entries[n]) && entries[n] !in entries[..n]
  {
  }

  lemma {:induction false} ExtractsSnapshot(t: Tree, entries: seq<Entry>, lim: Limits, n: nat)
    requires WellFormed(t) && SnapshotOf(t, entries) && Fits(t, lim) && n <= |entries|
    ensures Part(t, entries[..n], Extract(lim, entries[..n]))
  {
    hide Part, SnapshotOf, ExtractOne, Fits, WellFormed;
    if n == 0 {
      NothingExtracted(t);
    } else {
      var most, e := entries[..n - 1], entries[n - 1];
      ExtractsSnapshot(t, entries, lim, n - 1);
      assert entries[..n][..n - 1] == most && entries[..n] == most + [e];
      var x := Extract(lim, most);
      NextEntry(t, entries, n - 1);
      PartOk(t, most, x);
      if e.DirEntry? {
        ExtractDir(t, most, x, lim, e.path);
      } else {
        ExtractFile(t, most, x, lim, e.path);
      }
    }
  }

  lemma PartOk(t: Tree, entries: seq<Entry>, x: Extraction)
    requires Part(t, entries, x)
    ensures x.ok
  {
  }

  /** Extracting a snapshot of a tree that fits the limits gives that tree and its exact usage. */
  lemma SnapshotRoundTrip(t: Tree, entries: seq<Entry>, lim: Limits)
    requires WellFormed(t) && SnapshotOf(t, entries) && Fits(t, lim)
    ensures Extract(lim, entries) == Extraction(t, Total(t.files), |t.files|, true)
  {
    hide Extract, Total, Fits;
    ExtractsSnapshot(t, entries, lim, |entries|);
    assert entries[..|entries|] == entries;
    var x := Extract(lim, entries);
    assert x.tree.dirs == t.dirs;
    assert x.tree.files.Keys == t.files.Keys;
    assert x.tree.files == t.files;
  }

  method SnapshotEntries(t: Tree) returns (entries: seq<Entry>)
    ensures SnapshotOf(t, entries)
  {
    var dirs := Enumerate(t.dirs - {[]});
    var files := Enumerate(t.files.Keys);
    var head, tail := [], [];
    for i := 0 to |dirs|
      invariant |head| == i && forall j :: 0 <= j < i ==> head[j] == DirEntry(dirs[j])
    {
      head := head + [DirEntry(dirs[i])];
    }
    for i := 0 to |files|
      invariant |tail| == i && forall j :: 0 <= j < i ==> files[j] in t.files && tail[j] == FileOf(t, files[j])
    {
      assert files[i] in files;
      tail := tail + [FileOf(t, files[i])];
    }
    entries := head + tail;
    ListedAll(t, dirs, files, head, tail);
  }

  function FileOf(t: Tree, p: Path): Entry
    requires p in t.files
  {
    FileEntry(p, |t.files[p]|, t.files[p])
  }

  lemma ListedAll(t: Tree, dirs: seq<Path>, files: seq<Path>, head: seq<Entry>, tail: seq<Entry>)
    requires NoDup(dirs) && (forall p :: p in dirs <==> p in t.dirs && p != [])
    requires NoDup(files) && (forall p :: p in files <==> p in t.files)
    requires |head| == |dirs| && forall j :: 0 <= j < |dirs| ==> head[j] == DirEntry(dirs[j])
    requires |tail| == |files| && forall j :: 0 <= j < |files| ==> files[j] in t.files && tail[j] == FileOf(t, files[j])
    ensures SnapshotOf(t, head + tail)
  {
    forall i | 0 <= i < |head| ensures Listed(t, head[i]) {
      assert dirs[i] in dirs;
    }
    forall p | p in t.dirs && p != [] ensures DirEntry(p) in head {
      assert p in dirs;
      var i :| 0 <= i < |dirs| && dirs[i] == p;
      assert head[i] == DirEntry(p);
    }
    forall p | p in t.files ensures FileOf(t, p) in tail {
      assert p in files;
      var i :| 0 <= i < |files| && files[i] == p;
      assert tail[i] == FileOf(t, p);
    }
  }
}
